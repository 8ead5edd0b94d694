# Glass new-tab page: a verified model of its logic

The page (`script.js`) replaces the browser's new tab with a clock, a greeting,
a weather widget, a search bar, a grid of shortcuts, a tip of the day and a
focus timer. Almost all of it binds the DOM. This project models the parts
that are logic, and proves what they promise:

- **Focus timer** (`timer.dfy`, module `FocusTimer`). The five button handlers
  and the one-second tick are spec functions on a `TimerState` value. A class
  `FocusTimer.Timer` holds the same variables as fields. Its methods replace
  the click handlers and are proved equal to the spec functions. Its invariant
  says the duration stays a multiple of 5 in [5, 90], the seconds stay in
  [0, 59], the time left never exceeds the duration, an interval exists exactly
  while the timer runs, and each button is disabled exactly when its handler
  would do nothing. A tick takes exactly one second off. A running timer shows
  `00:00` after as many ticks as it has seconds left, and the next tick stops it.
- **Shortcut list** (`shortcuts.dfy`, module `Shortcuts`). The stored value is a
  datatype: absent, malformed, or a JSON array. It covers reading with the
  non-empty-array validity rule, writing, seeding from top sites or the
  four defaults, adding from the dialog, and removing with JavaScript's
  `splice` semantics and the default-list fallback. A class `ShortcutStore`
  changes the stored value in place.
- **Search dispatch** (`search.dfy`). The address regular expression
  `^[\w.-]+\.[a-z]{2,}(\/.*)?$` (case-insensitive) is a hand-written matcher.
  Its contract states that it accepts exactly the strings the expression denotes, in
  both directions.
- **Formatting and small classifiers**: `pad2`, `formatTimer` and the clock
  text, each proved to read back as the numbers it was given (`format.dfy`,
  `clock.dfy`); the greeting bucket and the tip of the day (`clock.dfy`); the
  weather label and the place-name fallback chain (`weather.dfy`); the
  background reference and its quote escaping (`background.dfy`); and
  `String.prototype.trim`, `indexOf` and the regular-expression character
  classes (`text.dfy`).

Inputs that the page takes from the browser are parameters here: the current
hour, minute, second, day and month; the day of the year; the top-sites
answer; the host name the browser parses from a URL; the geocoding address;
and the forecast's weather code.

From 25:00, Start and 1500 ticks show `00:00` with the timer still running.
The 1501st tick, which finds 0:00, stops it (`FocusTimer.DefaultSession`).

## Model

| member | source | states |
|---|---|---|
| `FocusTimer.Initial` | script.js:294-298 | At page load the duration is 25, the time left is 25:00, and the timer is stopped with no interval; the state satisfies the timer invariant |
| `FocusTimer.AfterTick` | script.js:313-325 | The duration is unchanged and the invariant is kept. While time is left, the time left drops by exactly one second (seconds borrow from minutes). At 0:00 the timer stops, the interval is cleared, and 0:00 stays |
| `FocusTimer.AfterStart` | script.js:327-336 | Does nothing when already running. Otherwise the timer runs and has an interval. The time left and the duration are untouched |
| `FocusTimer.AfterPause` | script.js:337-347 | Does nothing when stopped. Otherwise the timer stops and the time left and duration are untouched, so a Start right after gives back exactly the state before the pause |
| `FocusTimer.AfterReset` | script.js:348-359 | Stopped, no interval, time left equal to the configured duration with 0 seconds, duration unchanged, invariant kept |
| `FocusTimer.AfterPlus` | script.js:360-371 | The state is unchanged exactly when the plus button is disabled (running or at 90). Otherwise the duration grows by 5 and the time left becomes `duration:00`. The invariant (multiple of 5 in [5, 90]) is kept |
| `FocusTimer.AfterMinus` | script.js:372-383 | The state is unchanged exactly when the minus button is disabled (running or at 5). Otherwise the duration shrinks by 5 and the time left becomes `duration:00`. The invariant is kept |
| `FocusTimer.Display` | script.js:304-306 | For every valid state the display is five characters `MM:SS` whose fields read back as the minutes and seconds left |
| `FocusTimer.CountdownIsExact` | script.js:313-315 | From a valid running state, `n` ticks with `n` at most the time left keep the timer running and valid, keep the duration, and take exactly `n` seconds off |
| `FocusTimer.CountdownExpires` | script.js:313-325 | A running timer shows `00:00`, still running, after as many ticks as it has seconds left. The next tick stops it at `00:00` with the duration unchanged |
| `FocusTimer.DefaultSession` | script.js:294-334 | From page load, Start and then 1500 ticks show `00:00` with the timer still running; tick 1501 stops it |
| `FocusTimer.RunKeepsValid` | script.js:294-383 | Any sequence of handler calls and interval firings from a valid state keeps the invariant, so the duration stays a multiple of 5 in [5, 90] |
| `FocusTimer.Timer.constructor` | script.js:294-298 | The widget starts in the initial state with its invariant, including consistent button states |
| `FocusTimer.Timer.UpdateAdjState` | script.js:308-311 | Plus is disabled iff running or at 90; minus iff running or at 5 |
| `FocusTimer.Timer.Tick` | script.js:313-325 | In place, the new state is `AfterTick` of the old one and the widget invariant is kept. This includes re-enabling start and disabling pause at expiry |
| `FocusTimer.Timer.Start` | script.js:327-336 | In place, the new state is `AfterStart` of the old one, with the widget invariant kept |
| `FocusTimer.Timer.Pause` | script.js:337-347 | In place, the new state is `AfterPause` of the old one, with the widget invariant kept |
| `FocusTimer.Timer.Reset` | script.js:348-359 | In place, the new state is `AfterReset` of the old one, with the widget invariant kept |
| `FocusTimer.Timer.Plus` | script.js:360-371 | In place, the new state is `AfterPlus` of the old one, with the widget invariant kept |
| `FocusTimer.Timer.Minus` | script.js:372-383 | In place, the new state is `AfterMinus` of the old one, with the widget invariant kept |
| `Format.NatToString` | script.js:142 | The decimal form of a number is all digits, has no leading zero, and is one digit long below 10 and two digits long from 10 to 99 |
| `Format.NatToStringRoundTrip` | script.js:142 | Reading back the decimal form of `n` yields `n` |
| `Format.Pad2` | script.js:141-143 | All digits. Below 100 it is exactly two characters that read back as `n`. From 10 on it is the plain decimal form |
| `Format.FormatTimer` | script.js:300-302 | Equals `pad2(m) + ':' + pad2(s)`. For fields below 100 it is five characters with ':' in the middle, and its two fields read back as `m` and `s` |
| `Clock.ClockText` | script.js:148 | `HH:MM:SS` is eight characters whose three fields read back as the hour, minute and second |
| `Clock.DateText` | script.js:149 | The day in plain decimal with no leading zero, a space, and the month's three-letter name; the day reads back from the text |
| `Clock.GreetingFor` | script.js:158-163 | Morning iff the hour is before 12; afternoon iff from 12 to before 17; evening iff 17 or later. `Greeting.Text` gives the three texts `Good morning`, `Good afternoon` and `Good evening` |
| `Clock.GreetingMonotone` | script.js:158-163 | A later hour never gets an earlier greeting |
| `Tips.TipIndex` | script.js:283-284 | The index is within the list and differs from the day of the year by a multiple of the list's length |
| `Tips.TipOfDay` | script.js:282-285 | The tip shown is one of the fixed tips, the one at `TipIndex` of the day |
| `Tips.TipCycles` | script.js:283-284 | Days a whole number of list lengths apart show the same tip |
| `Search.LooksLikeAddress` | script.js:174 | The hand-written matcher accepts a string iff it matches `^[\w.-]+\.[a-z]{2,}(\/.*)?$` case-insensitively |
| `Text.StartsWithHttpScheme` | script.js:174 | True iff the first 7 characters are `http://` or the first 8 are `https://`, ignoring ASCII case (the test `/^https?:\/\//i`) |
| `Search.Dispatch` | script.js:171-177 | Empty trimmed input iff cancelled. The input is opened directly iff it is non-empty and matches the address pattern or starts with `http(s)://`, and the opened target always has a scheme: the input itself when it contains `://`, otherwise `https://` plus the input. Everything else is submitted as a search |
| `Search.BareDomainOpened` | script.js:174-176 | `example.com` opens `https://example.com` |
| `Search.WordsSearched` | script.js:174 | `hello world` goes to the search engine |
| `Search.FullUrlOpened` | script.js:174-176 | `https://foo.org/x` opens unchanged |
| `Weather.WeatherLabel` | script.js:185-194 | Total, with a label from the fixed set. Cloudy iff 1-3, Foggy iff 45 or 48, Rain iff 51-67, Snow iff 71-77, Showers iff 80-82, Thunderstorm iff 95-99. Clear iff none of those, which includes 0 and every unmapped code |
| `Weather.ReportedLabel` | script.js:206 | A missing weather code reads as code 0, so the label is Clear |
| `Weather.FirstNonEmpty` | script.js:227 | Empty iff every name is empty; otherwise the name at the first non-empty position |
| `Weather.PlaceName` | script.js:227 | The first non-empty of city, town, village, county, state, or empty iff all are |
| `Weather.PlaceAfterGeocode` | script.js:226-228 | The place text changes only to a non-empty locality name |
| `Shortcuts.GetShortcuts` | script.js:16-25 | A list comes back iff storage holds an array with at least one entry, and then it is that array |
| `Shortcuts.SetShortcuts` | script.js:27-29 | Writing a non-empty list and reading it back gives the list; an empty one reads back as nothing |
| `Shortcuts.EditList` | script.js:431-432 | The customize dialog lists the stored list when it is valid, otherwise the defaults; never empty |
| `Shortcuts.WithScheme` | script.js:511 | The result always contains `://` and ends with the typed URL. It equals the typed URL iff that already contains `://`; otherwise it is `https://` plus the typed URL |
| `Shortcuts.NewEntry` | script.js:508-511 | Rejected iff the trimmed name or URL is empty. Otherwise the entry has the trimmed, non-empty name and the trimmed URL with a scheme |
| `Shortcuts.AfterSave` | script.js:507-514 | A rejected entry leaves storage unchanged. An accepted one stores a valid list that is the previous list (empty when none was valid) with exactly the new entry appended at the end |
| `Shortcuts.SpliceStart` | script.js:445 | The start position of `splice` is within the list. An index in range is used as it is. A negative index counts from the end, and one below minus the length starts at 0. An index at or past the end starts at the end, so nothing is removed |
| `Shortcuts.RemoveAt` | script.js:445 | Exactly the entry at the start position is removed: earlier entries stay, later ones shift down by one, and the multiset loses just that entry. A start past the end changes nothing |
| `Shortcuts.AfterRemove` | script.js:443-446 | Storage afterwards always holds a valid list: the list with the entry removed, or the defaults when that would be empty |
| `Shortcuts.RemoveLastGivesDefaults` | script.js:444-446 | Removing the only entry stores the four defaults, not an empty list |
| `Shortcuts.RemoveWithNothingStored` | script.js:432-446 | With nothing valid stored, the dialog shows the defaults, and removing any of them stores all four defaults again |
| `Shortcuts.SiteName` | script.js:103 | The name is the title, else the host, else `Link`; never empty |
| `Shortcuts.FromTopSites` | script.js:102-104 | At most eight shortcuts, in the sites' order, each with its site's URL and a non-empty name |
| `Shortcuts.Resolve` | script.js:92-119 | The list shown is never empty. A valid stored list is shown unchanged and storage is untouched. Otherwise the top sites (when offered and non-empty) or the defaults are shown, and storage then holds exactly that list |
| `Shortcuts.ResolveStable` | script.js:92-98 | Loading again after a load shows the same list and writes nothing, whatever the top sites are by then |
| `Shortcuts.FirstLetter` | script.js:55-58 | `?` for blank text; otherwise the first non-blank character, upper-cased |
| `Shortcuts.ShortcutStore.Load` | script.js:92-119 | In place, the list shown and the new stored value are those `Resolve` gives for the old stored value |
| `Shortcuts.ShortcutStore.Save` | script.js:507-518 | The dialog closes iff the entry is accepted, and storage becomes `AfterSave` of the old value |
| `Shortcuts.ShortcutStore.Remove` | script.js:442-449 | Storage becomes `AfterRemove` of the old value and holds a valid list |
| `Background.GetBgUrl` | script.js:31-33 | The stored reference, or the empty string when none is stored |
| `Background.SetBgUrl` | script.js:35-38 | The empty reference removes the key. Reading back after a set always gives the reference that was set |
| `Background.EscapeQuotes` | script.js:126 | The result has no double quote. A lone `"` becomes `%22` and any other single character is kept, so with `Background.EscapeAppend` every `"` becomes `%22` and everything else is kept in order. Text without quotes is unchanged |
| `Background.EscapeAppend` | script.js:126 | The escape of a concatenation is the concatenation of the escapes: `replace(/"/g, '%22')` works character by character |
| `Background.EscapeRoundTrip` | script.js:126 | For references without `%`, turning `%22` back into quotes restores the reference |
| `Background.BackgroundImage` | script.js:121-134 | Empty iff the trimmed reference is empty. Otherwise it is `url("…")` around the escaped reference, so its only double quotes are the two delimiters |
| `Text.Trim` | script.js:172 | The result is the slice of the input between its leading and trailing white space. It neither starts nor ends with white space, and it is empty iff the input is all white space |
| `Text.TrimIdempotent` | script.js:172 | Trimming twice is trimming once |
| `Text.IndexOf` | script.js:176 | The result is -1 iff the pattern occurs nowhere. Otherwise it is a position where the pattern occurs, and none occurs earlier |
| `Text.UpperAscii` | script.js:57 | Each lower-case ASCII letter becomes its own upper-case letter. Every other character is unchanged |

## Left out

- DOM work is not modelled: building the shortcut grid and the edit list, favicons and their fallback, modals, the hint's CSS class, and writing text into elements. The timer text is `FocusTimer.Display` of the state rather than a stored field.
- `localStorage` and JSON are not modelled: the stored shortcut value is the datatype `Shortcuts.Stored`. Array entries that are not `{name, url}` objects cannot be expressed. Storage errors (`QuotaExceededError`) and the alerts they raise are left out.
- `fetch` to the forecast and geocoding services, `navigator.geolocation`, `chrome.topSites` and `FileReader` are asynchronous browser I/O. Their answers are parameters. The placeholder texts, the order in which the two weather replies write the place text, and the temperature's `Math.round` of a floating-point value are not modelled.
- `setInterval`/`clearInterval` are not modelled: an interval is the flag `intervalSet`, and each firing is a call to `Tick`. The clock's one-second refresh is left out too.
- Time is not read from `Date`: the hour, minute, second, day, month and day of the year are inputs.
- `domainFromUrl` and `faviconUrl` rely on the browser's URL parser and `encodeURIComponent`. The host name is an input field of `Shortcuts.TopSite`.
- The global `/` key listener, the focus note's load and save on input and blur, and the background file upload (image type check, data URL) are event plumbing over storage writes.
- Text.UpperAscii: upper-cases ASCII letters only. `toUpperCase` on other characters (one that maps to two letters, for instance) is not modelled.
- Shortcuts.FirstLetter: upper-cases ASCII letters only. `toUpperCase` on other characters (one that maps to two letters, for instance) is not modelled.
- Shortcuts.FirstLetter: strings here are sequences of Unicode characters, while the page's strings are UTF-16 code units. For a name starting with a character outside the Basic Multilingual Plane (an emoji, say), `charAt(0)` gives half a surrogate pair and the model gives the whole character.
- Weather.ReportedLabel: the weather code is an integer or missing. A non-integer number from the forecast is not modelled.
- Format.Pad2: takes non-negative numbers only. The page never passes a negative one.
