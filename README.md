# Synchronised maps: a Dafny model

The page shows two or three map panels side by side: map1, map2 and
optionally map3. Each panel has its own centre, but all panels share one zoom.
The page's state is kept in the URL query (`zoom`, `maps`, `center1`..`center3`).
An airport search box moves the last active panel to a chosen airport.

This project models the page's core logic from `script.js`.

- **`SyncControl`** (`sync_controller.dfy`) is the zoom-synchronisation
  controller. It is the class `SyncController`, which holds:
  - the mode flag;
  - the guards `isSynchronizing` and `isUpdatingUrl`;
  - the last active map;
  - the panels' zooms and centres, as arrays;
  - the URL query.

  Its methods are the event handlers: zoom and moveend events, the +/-
  buttons, the mode toggle and airport teleport. Each `setTimeout` callback is
  a method of its own, and a pending counter records how many are scheduled.
  The class invariant says that neither guard is ever set without a release of
  it pending, so the page can never lock itself out of synchronising.
- **`UrlCodec`** (`url_codec.dfy`) reads and writes the query.
  - `getUrlParams` and `parseLocationParam` are modelled with all their
    fallbacks.
  - The written query is proved to read back as the state that was written,
    up to the rounding of the coordinate format. A non-zero zoom reads back
    exactly, while zoom 0 reads back as 12 because 0 is falsy. The mode reads
    back exactly, and a two-map link gives Barcelona for map3.
- **`Numbers`** (`numbers.dfy`) holds `parseInt` for the no-radix call the
  page makes, following section 19.2.5 of ECMA-262 on mathematical integers.
  It also holds the decimal numeral of an integer, which is what `String(z)`
  gives for integers of magnitude at most 2^53. `parseInt` of that numeral is proved to give
  `z` back.
- **`Airports`** (`airports.dfy`) holds two parts:
  - the CSV loader loop, proved equal to a line-by-line specification, with
    lemmas on what is kept;
  - the search filter, with at most ten suggestions, the earliest matches in
    dataset order.
- **`SearchUi`** (`search_box.dfy`) is the search box: the input, the clear
  button, the suggestion list, its click handler and the keyboard selection
  index.
- **`Strings`** (`strings.dfy`) holds `trim`, one-character `split`,
  `toLowerCase` and `includes`.
- **`Optional`** (`optional.dfy`) is the option type used for `null` and `NaN`.

JavaScript's `Number`, `parseFloat` and `toFixed(6)` act on floating-point
values, so they are parameters of the model. `None` stands for `NaN`. The
round trip assumes `NumberFormat`: the written coordinate contains no comma and
reads back as the coordinate rounded by some function `round`.

## Model

| member | source | states |
|---|---|---|
| SyncControl.ZoomTargets | script.js:486-495 | a zoom event on a panel goes to the other two panels, and never to map3 in two-map mode |
| SyncControl.SyncController.constructor | script.js:349-372 | the mode is three maps exactly when `maps` parsed to 3; all three panels start at the parsed zoom with the parsed centres; map1 is active; both guards are clear; the startup step is scheduled |
| SyncControl.SyncController.UpdateUrlWithMapState | script.js:286-326 | a no-op while the URL guard is set; otherwise the query becomes the serialised current view, and the guard is set with its release scheduled |
| SyncControl.SyncController.ReleaseUrlGuard | script.js:322-324 | the 50 ms timer clears the URL guard, consuming one scheduled release |
| SyncControl.SyncController.SynchronizeZoomLevels | script.js:590-613 | with the guard clear, every active panel ends at map1's zoom, map1 and an inactive map3 keep theirs, and the guard is set with a release pending; with the guard set, nothing changes |
| SyncControl.SyncController.ReleaseSyncGuard | script.js:609-611 | the 50 ms timer clears the sync guard, consuming one scheduled release |
| SyncControl.SyncController.HandleZoomEvent | script.js:464-495 | ignored while the sync guard is set, and for map3 in two-map mode; otherwise exactly the target panels take the source's zoom, the active panels end synced, the URL is written, and the sync guard is untouched |
| SyncControl.SyncController.HandleMoveEvent | script.js:478-502 | ignored while the sync guard is set, and for map3 in two-map mode; otherwise a synchronisation pass runs (active panels synced at map1's zoom) and the URL is written |
| SyncControl.SyncController.UpdateZoomOnAllMaps | script.js:515-531 | the +/- buttons put map1, map2 and an active map3 at map1's zoom plus the delta, without consulting either guard |
| SyncControl.SyncController.ToggleMode | script.js:563-571 | the mode flips and the deferred settle step is scheduled |
| SyncControl.SyncController.Settle | script.js:388-395 | the startup step, and the toggle's deferred step at lines 573-583 (the same code): the guard is forced clear, so every active panel ends at map1's zoom, and the URL is written unless its guard is set |
| SyncControl.SyncController.UpdateActiveMap | script.js:406-407 | the last active map becomes the panel interacted with |
| SyncControl.SyncController.TeleportToAirport | script.js:228-239 | only the last active panel moves, to the airport at zoom 12; the others keep zoom and centre; the URL is written |
| SyncControl.OpenTwoMapLink | script.js:349-395 | a two-map link without `center3`, once its startup step and guard releases have run: two-map mode, both guards clear, panels synced, map3 at Barcelona |
| SyncControl.OpenThenShowThreeMaps | script.js:560-584 | a two-map link with no `center3`, after startup and a toggle: three-map mode, all panels synced, map3 at Barcelona, and the URL reads back as three maps |
| UrlCodec.Get | script.js:246-262 | `params.get` returns a value the query holds for that key |
| UrlCodec.GetFirst | script.js:246-262 | `params.get` returns the first pair with the key |
| UrlCodec.GetAbsent | script.js:246-262 | `params.get` of a key no pair has is `null` |
| UrlCodec.OptionParseIntNull | script.js:248-249 | `parseInt(null)` reads the string `"null"`, which has no digit, so a missing parameter gives `NaN` |
| UrlCodec.ParseLocationParam | script.js:271-281 | a missing or empty parameter gives the default; any other result comes from the first two comma-separated fields, both numbers |
| UrlCodec.ParseLocationFields | script.js:271-281 | with two numeric fields, the centre is exactly those two numbers, whatever follows them; a non-numeric one gives the default |
| UrlCodec.ParseLocationSingleField | script.js:271-281 | a parameter with no comma gives the default |
| UrlCodec.GetUrlParams | script.js:245-263 | the parsed zoom and maps are never 0 (a 0 is falsy and falls back) |
| UrlCodec.GetUrlParamsFallbacks | script.js:245-263 | a missing, non-numeric or zero zoom gives 12, and any other parsed zoom is kept unclamped; three-map mode holds exactly when `maps` parses to 3; a missing centre gives its slot's default |
| UrlCodec.ExampleQuery | script.js:245-281 | `?zoom=99&maps=5&center1=bad` gives zoom 99 unclamped, two-map mode and the default centres |
| UrlCodec.FormatCoordFields | script.js:301-314 | a centre written as `lat,lng` splits back into exactly its two formatted numbers when neither contains a comma |
| UrlCodec.Serialize | script.js:297-315 | the written keys are exactly zoom, maps, center1, center2, plus center3 in three-map mode only |
| UrlCodec.SerializedValues | script.js:297-315 | each written key holds the zoom's numeral, 3 or 2 by mode, or `lat,lng`; there is no center3 in two-map mode |
| UrlCodec.WrittenValues | script.js:297-315 | in a query with the written keys in the written order, each key reads back as its own value, and an omitted `center3` reads back as `null` |
| UrlCodec.SerializedMode | script.js:245-249 | a written query reads back in the mode it was written in |
| UrlCodec.RoundTrip | script.js:245-315 | reading a written view gives back its mode, its zoom (or 12 for zoom 0) and its rounded centres; a two-map view gives Barcelona for map3 |
| UrlCodec.CentreRoundTrip | script.js:271-281 | a written centre reads back as the rounded coordinate |
| Numbers.DigitRunLength | script.js:248-249 | `parseInt` reads the longest run of digits and stops at the first non-digit |
| Numbers.NatToString | script.js:299 | the zoom's numeral is digits only, has no leading zero and denotes the zoom |
| Numbers.ParseIntOfNumeral | script.js:248-249 | `parseInt` of an integer's numeral followed by nothing, or by a non-digit other than `x` or `X`, is that integer |
| Numbers.ParseIntOfDigits | script.js:248-249 | text starting with a digit is read as its unsigned magnitude (decimal, or hexadecimal after `0x`/`0X`), and with a leading `-` as that magnitude's negation |
| Numbers.ParseIntRoundTrip | script.js:248-249 | `parseInt` of an integer's decimal numeral is that integer, for every integer |
| Numbers.ParseIntStart | script.js:248-249 | a number is read only when, after the leading white space, the text starts with a digit or with a sign followed by a digit; a negative result comes only after a `-` |
| Numbers.ParseMagnitudeStart | script.js:248-249 | unsigned text is read exactly when it starts with a digit, except that `0x`/`0X` text is handed to the hexadecimal reading |
| Numbers.IntToStringDigits | script.js:299 | the numeral is non-empty: digits denoting `z` for `z >= 0`, and `-` followed by digits denoting `-z` for `z < 0` |
| Strings.TrimStart | script.js:248-249 | the white space `parseInt` skips: the result is a suffix, does not start with white space, and only white space was cut off |
| Strings.Trim | script.js:50 | `trim` is empty exactly for blank lines, neither end of the result is white space, and the result is a slice of the input with only white space cut from either end (the search query at line 84 is trimmed the same way) |
| Strings.Split | script.js:45 | `split` yields at least one piece, and no piece contains the separator |
| Strings.SplitField | script.js:52 | the first field is the text before the first comma, and the rest are the fields of what follows |
| Strings.SplitNone | script.js:275 | text with no separator is a single field |
| Strings.LowerChar | script.js:162-166 | an upper-case ASCII letter becomes its lower-case letter, every other character is kept, and no upper-case ASCII letter is left |
| Strings.LowerIdempotent | script.js:162-166 | lower-casing an already lower-cased string changes nothing |
| Strings.ContainsBounds | script.js:164-166 | `includes` finds the empty string and every prefix, and never a string longer than the text |
| Airports.ParseRow | script.js:52-63 | a row yields a record exactly when it has at least five fields and both coordinates parse, and the record holds fields 0 to 2 and the two parsed coordinates |
| Airports.MatchesBounds | script.js:161-167 | the empty query matches every airport, a code typed in any case matches its own airport, and a query longer than all three fields matches nothing |
| Airports.LoadAirports | script.js:45-65 | the loader loop's result equals the records of the lines after the header, in order, with blank lines skipped |
| Airports.LoadedSnoc | script.js:49-65 | one more data line appends exactly that line's records |
| Airports.LoadedLength | script.js:49-65 | a loaded list never has more records than there are data lines |
| Airports.LoadedAppend | script.js:49-65 | loading distributes over concatenation of lines, so records keep the order of their lines |
| Airports.LoadedFromRows | script.js:49-65 | every loaded record is the record of a data line that is not blank |
| Airports.ShortRowDropped | script.js:53-63 | a line with fewer than five fields contributes nothing |
| Airports.MatchesIgnoresQueryCase | script.js:161-167 | the query's case does not matter: a query matches exactly when its lower-cased form does |
| Airports.FilterMatches | script.js:160-168 | an airport is a match exactly when it is in the list and its code, city or country contains the lower-cased query |
| Airports.FilterAppend | script.js:160-168 | filtering keeps the relative dataset order of the matches |
| Airports.Search | script.js:160-169 | at most ten suggestions, each a matching airport from the list |
| Airports.SearchIsFirstMatches | script.js:160-169 | the suggestions are a prefix of the matches in dataset order, so nothing but matches is suggested; every match in a dataset prefix with at most ten matches is among them; and fewer than ten means every match |
| SearchUi.NextSelection | script.js:104-139 | with no suggestions the index is unchanged; otherwise Down gives min(i + 1, n - 1), Up gives max(i - 1, 0), Escape gives -1, and Enter or any other key keeps the index; the index stays within -1 .. n-1 |
| SearchUi.DownPresses | script.js:110-113 | k Down presses from i select min(i + k, n - 1) |
| SearchUi.UpPresses | script.js:119-121 | k Up presses from i select max(i - k, 0), from nothing selected too once at least one press is made |
| SearchUi.Label | script.js:194 | the chosen airport's label starts with its city, ends with its code in parentheses, and has exactly the length of `city, country (code)` |
| SearchUi.SearchBox.constructor | script.js:22-23 | the box starts empty and hidden, with nothing selected |
| SearchUi.SearchBox.ShowSuggestions | script.js:156-205 | no match hides the list and keeps the old elements and selection; otherwise the list is replaced by the matches, shown and unselected |
| SearchUi.SearchBox.Input | script.js:83-93 | a trimmed query of two or more characters is searched; a shorter one hides the list and resets the selection |
| SearchUi.SearchBox.Clear | script.js:96-101 | the input is emptied, the list hidden and the selection reset |
| SearchUi.SearchBox.Choose | script.js:190-197 | a click returns that airport for teleporting, shows its label and hides the list |
| SearchUi.SearchBox.KeyDown | script.js:104-139 | the index moves as NextSelection says; Enter chooses exactly when the index names an element; Escape hides the list; neither key looks at whether the list is shown |

## Left out

- Rendering is not modelled: Leaflet map creation (`createMap`), tiles, animation and `invalidateSize`. A panel is just its zoom and centre.
- Leaflet's zoom limits are not modelled: it clamps zooms to 0..19, and the model keeps the zoom as set.
- Echo events are not modelled: a `setZoom` fires events back into the listeners, and the model lets only the page's user or timers run a handler. The guards, and the invariant that a set guard has a release pending, are modelled.
- Timer delays (50 ms and 100 ms) and any ordering between timers are not modelled. Each callback may run at any later point once for each time it was scheduled.
- Floating point is not modelled: `Number`, `parseFloat` and `toFixed(6)` are parameters. The round trip assumes `NumberFormat`, which states what the format and the parse promise each other.
- The URL's percent-encoding and `replaceState` are not modelled: the query is a list of key/value pairs.
- `fetch` and its error path are not modelled: the loader takes the fetched text as its input.
- The share button's clipboard write, its notification and `alert` are not modelled. Its one effect on the state is a call to `UpdateUrlWithMapState`, which is modelled.
- Page styling is not modelled: `updateMapContainerClass`, the active-map CSS class, `updateSelectedSuggestion` with `scrollIntoView`, and the clear button's display.
- The document click listener that hides the suggestions is not modelled; its only effect would be `visible := false`.
- `handleMapError` and `console` logging are not modelled.
- Strings.LowerChar: lower-cases ASCII letters only, because JavaScript's full Unicode case mapping is not modelled.
- SyncControl.SyncController.TeleportToAirport: does not model the `lastActiveMap || map1` fallback, because the last active map is map1 from startup and cannot be `null` afterwards.
- The CSV header line is split by the source but never used, so it is not modelled.
- Numbers.IntToStringDigits: gives the exact decimal numeral of every integer, which is what JavaScript's `String` gives only up to magnitude 2^53. Above that, a double holds the integer only approximately and `String` writes the shortest digits that read back as the same double, padded with zeros (`String(2**60)` is `1152921504606847000`). From 10^21 on it uses exponent form (`1e+21`). Page zooms are far below either bound.
- Numbers.ParseIntRoundTrip: holds on mathematical integers. JavaScript's `parseInt` returns a double, which rounds integers beyond 2^53.
- SearchUi.SearchBox.Input: counts the query's length in characters, while JavaScript's `length` counts UTF-16 code units, so a single astral character such as an emoji already passes the two-character test.

Behaviours a reader might not expect, which the model keeps as the code has them:

- a parsed zoom is not clamped;
- `handleZoomEvent` reads the sync guard but never sets it;
- the share button does not force a URL write past a set guard;
- an input of fewer than two characters leaves the hidden suggestion elements in place, and Enter can still choose one of them.
