/** The clock line, the date line and the greeting. The current hour, minute,
    second, day of the month and month index are inputs: the page reads them
    from the browser's clock. */
module Clock {
  import opened Text
  import opened Format

  const Months: seq<string> :=
    ["JAN", "FEB", "MAR", "APR", "MAY", "JUN", "JUL", "AUG", "SEP", "OCT", "NOV", "DEC"]

  /** The clock text `HH:MM:SS`: eight characters whose fields read back as
      the hour, minute and second. */
  function ClockText(h: nat, m: nat, s: nat): (r: string)
    requires h < 24 && m < 60 && s < 60
    ensures |r| == 8 && r[2] == ':' && r[5] == ':'
    ensures AllDigits(r[..2]) && DecimalValue(r[..2]) == h
    ensures AllDigits(r[3..5]) && DecimalValue(r[3..5]) == m
    ensures AllDigits(r[6..]) && DecimalValue(r[6..]) == s
  {
    var r := Pad2(h) + ":" + Pad2(m) + ":" + Pad2(s);
    assert r[..2] == Pad2(h) && r[3..5] == Pad2(m) && r[6..] == Pad2(s);
    r
  }

  /** The date text: the day of the month unpadded, a space, and the
      three-letter month name (`month` is 0 for January, as `getMonth` gives). */
  function DateText(day: nat, month: nat): (r: string)
    requires month < 12
    ensures |r| >= 5 && r[|r| - 4] == ' '
    ensures r[|r| - 3..] == Months[month]
    ensures AllDigits(r[..|r| - 4]) && DecimalValue(r[..|r| - 4]) == day
    ensures r[..|r| - 4] == NatToString(day)
  {
    var d := NatToString(day);
    var r := d + " " + Months[month];
    NatToStringRoundTrip(day);
    assert r[..|r| - 4] == d;
    assert r[|r| - 3..] == Months[month];
    r
  }

  datatype Greeting = Morning | Afternoon | Evening {
    function Text(): string {
      match this
      case Morning => "Good morning"
      case Afternoon => "Good afternoon"
      case Evening => "Good evening"
    }
  }

  /** The greeting bucket for the hour of the page load. */
  function GreetingFor(hour: int): (g: Greeting)
    ensures g == Morning <==> hour < 12
    ensures g == Afternoon <==> 12 <= hour < 17
    ensures g == Evening <==> 17 <= hour
  {
    if hour < 12 then Morning
    else if hour < 17 then Afternoon
    else Evening
  }

  /** The buckets follow the day: a later hour never gets an earlier greeting. */
  lemma GreetingMonotone(h1: int, h2: int)
    requires h1 <= h2
    ensures GreetingFor(h1) == Evening ==> GreetingFor(h2) == Evening
    ensures GreetingFor(h2) == Morning ==> GreetingFor(h1) == Morning
  {
  }
}

/** The tip of the day: one of a fixed list, chosen by the day of the year. */
module Tips {
  const TipList: seq<string> := [
    "Press / from anywhere to focus the search bar.",
    "Use the focus timer for 25-minute deep work sessions.",
    "Your focus note is saved automatically\U{2014}no need to click save.",
    "Shortcuts sync with your most visited sites when you first install.",
    "Upload a GIF as your background for a livelier tab.",
    "The greeting changes with the time of day\U{2014}morning, afternoon, evening.",
    "Add your own shortcuts via the + button or Customize.",
    "Glass style works best with a dark or colorful background image."
  ]

  /** The index `dayOfYear % TIPS.length`. */
  function TipIndex(dayOfYear: nat): (i: nat)
    ensures i < |TipList|
    ensures (dayOfYear - i) % |TipList| == 0
  {
    dayOfYear % |TipList|
  }

  /** The tip shown on a given day of the year. */
  function TipOfDay(dayOfYear: nat): (tip: string)
    ensures tip in TipList
    ensures tip == TipList[TipIndex(dayOfYear)]
  {
    TipList[TipIndex(dayOfYear)]
  }

  /** The tips cycle: a day `k` whole rounds of the list later shows the same tip. */
  lemma {:induction false} TipCycles(dayOfYear: nat, k: nat)
    ensures TipOfDay(dayOfYear + k * |TipList|) == TipOfDay(dayOfYear)
  {
    assert |TipList| == 8;
    if k > 0 {
      TipCycles(dayOfYear, k - 1);
      var earlier := dayOfYear + (k - 1) * 8;
      assert dayOfYear + k * 8 == earlier + 8;
      assert (earlier + 8) % 8 == earlier % 8;
    }
  }
}
