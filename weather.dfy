/** The weather widget's pure parts: the label for a WMO weather code and
    the place name picked from a reverse-geocoding address. */
module Weather {
  import opened Wrappers
  import opened Text

  const Labels: set<string> := {"Clear", "Cloudy", "Foggy", "Rain", "Snow", "Showers", "Thunderstorm"}

  /** `weatherCodeToLabel`: total, with every code outside the listed ranges
      read as "Clear". */
  function WeatherLabel(code: int): (word: string)
    ensures word in Labels
    ensures word == "Cloudy" <==> 1 <= code <= 3
    ensures word == "Foggy" <==> code == 45 || code == 48
    ensures word == "Rain" <==> 51 <= code <= 67
    ensures word == "Snow" <==> 71 <= code <= 77
    ensures word == "Showers" <==> 80 <= code <= 82
    ensures word == "Thunderstorm" <==> 95 <= code <= 99
    ensures word == "Clear" <==>
      !(1 <= code <= 3 || code == 45 || code == 48 || 51 <= code <= 67
        || 71 <= code <= 77 || 80 <= code <= 82 || 95 <= code <= 99)
  {
    if code == 0 then "Clear"
    else if 1 <= code <= 3 then "Cloudy"
    else if code == 45 || code == 48 then "Foggy"
    else if 51 <= code <= 67 then "Rain"
    else if 71 <= code <= 77 then "Snow"
    else if 80 <= code <= 82 then "Showers"
    else if 95 <= code <= 99 then "Thunderstorm"
    else "Clear"
  }

  /** The label shown for a forecast: `weather_code || 0`, so a missing code
      reads as code 0. */
  function ReportedLabel(code: Option<int>): (word: string)
    ensures code.None? ==> word == "Clear"
    ensures code.Some? ==> word == WeatherLabel(code.value)
  {
    WeatherLabel(code.GetOr(0))
  }

  /** The locality fields of a reverse-geocoding answer; an absent field is
      the empty string. */
  datatype Address = Address(city: string, town: string, village: string, county: string, state: string)

  /** The position of the first non-empty name, or `|names|` when all are empty. */
  function FirstNonEmptyIndex(names: seq<string>): (i: nat)
    ensures i <= |names|
    ensures forall k :: 0 <= k < i ==> names[k] == []
    ensures i < |names| ==> names[i] != []
  {
    if names == [] then 0
    else if names[0] != [] then 0
    else 1 + FirstNonEmptyIndex(names[1..])
  }

  /** The chain `a || b || ... || ''`: the first non-empty name, or empty. */
  function FirstNonEmpty(names: seq<string>): (r: string)
    ensures r == [] <==> forall k :: 0 <= k < |names| ==> names[k] == []
    ensures r != [] ==> r == names[FirstNonEmptyIndex(names)]
  {
    var i := FirstNonEmptyIndex(names);
    if i < |names| then names[i] else []
  }

  /** The preference order city, town, village, county, state. */
  function Localities(a: Address): seq<string> {
    [a.city, a.town, a.village, a.county, a.state]
  }

  /** The place name: the first non-empty locality field, or empty when all are. */
  function PlaceName(a: Address): (name: string)
    ensures name == [] <==> a.city == [] && a.town == [] && a.village == [] && a.county == [] && a.state == []
    ensures a.city != [] ==> name == a.city
    ensures a.city == [] && a.town != [] ==> name == a.town
    ensures a.city == [] && a.town == [] && a.village != [] ==> name == a.village
    ensures a.city == [] && a.town == [] && a.village == [] && a.county != [] ==> name == a.county
    ensures a.city == [] && a.town == [] && a.village == [] && a.county == [] ==> name == a.state
    ensures name != [] ==> name in Localities(a)
  {
    var xs := Localities(a);
    var name := FirstNonEmpty(xs);
    assert xs[0] == a.city && xs[1] == a.town && xs[2] == a.village && xs[3] == a.county && xs[4] == a.state;
    name
  }

  /** The place text after the geocoding answer: replaced only by a non-empty name. */
  function PlaceAfterGeocode(current: string, a: Address): (text: string)
    ensures PlaceName(a) == [] ==> text == current
    ensures PlaceName(a) != [] ==> text == PlaceName(a) && text in Localities(a)
  {
    var name := PlaceName(a);
    if name != [] then name else current
  }
}
