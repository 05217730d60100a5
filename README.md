# Station autocomplete and analysis view, modelled in Dafny

The system is the browser script `script.js` of a transit-station analysis page. A user types
a station name into an input box. A dropdown panel offers the stations from a preloaded list
whose names start with the typed text, compared case-insensitively, with the matched prefix in
bold. Picking a suggestion, or pressing the analysis button, asks the backend for that station's
24-hour analysis. The answer is shown as a table and as a chart with two series: safety rating,
and crowd level mapped Low/Medium/High to 1/2/3.

The model has four modules:

- `Autocomplete` (autocomplete.dfy) holds the pure part of `showSuggestions`. It contains the
  prefix filter `Filter`, the bold/plain split `Highlight`, the panel contents `Suggestions`, and
  the item-building loop `BuildItems`, which is proved against `Suggestions`.
- `Results` (results.dfy) holds the pure part of `displayResults`. It contains the table-building
  loop `BuildTable`, the three `data.map` series (`Chart`), the `crowdMap` lookup (`CrowdValue`,
  with `undefined` as `None`) and the crowd axis's tick callback (`TickLabel`).
- `Page` (page.dfy) is the document as a class `Page`. Its fields are the input's value, the
  sequence of open suggestion panels, the results and error areas, the chart handle, and a log of
  issued analysis requests. Each event handler is a method. The class invariant `Valid()` says
  at most one panel is open, and every handler preserves it.
- `Wrappers` (wrappers.dfy) holds `Option`.

The network is not modelled. Issuing an analysis request appends the station name to
`requests`. Each response reaches `LoadStations` or `ReceiveAnalysis` as an `Option` parameter,
where `None` stands for a network failure or a non-success status.

Four behaviours of the code are worth noting:

- If the station list fails to load, the code never calls `initializeAutocomplete`. So the input
  and document listeners are never attached, and typing or clicking opens nothing. The model
  tracks this with the `ready` flag.
- `closeAllLists(e.target)` spares only the input and the panel element itself. A click on an
  item inside a panel has the item as its target, so it would close the panel. The item's own
  listener has already closed every panel and requested the analysis by then (`ClickItem`).
- An unrecognised crowd level is not rejected. For a level name that is not a key of `crowdMap`
  the lookup yields `undefined`, modelled as `None` in the crowd series.
- A failed analysis clears the results area but does not destroy the chart instance. The next
  successful `displayResults` destroys it before creating a new one, so at most one chart
  instance is ever live.

## Model

| member | source | states |
|---|---|---|
| Autocomplete.Upper | script.js:30 | upper-casing keeps the length, turns each lower-case ASCII letter into its capital, and keeps every other character |
| Autocomplete.FilterCaseInsensitive | script.js:30-42 | two inputs that differ only in the case of ASCII letters give the same suggestions |
| Autocomplete.Matches | script.js:42 | the empty input matches every name, and a matching input is never longer than the name |
| Autocomplete.Filter | script.js:40-42 | the suggestions number at most the stations, and every suggested name passes the upper-cased prefix test |
| Autocomplete.MatchesIsPrefix | script.js:42 | the `!val` short-cut changes nothing: a station passes exactly when the upper-cased input is a prefix of its upper-cased name |
| Autocomplete.FilterSnoc | script.js:40-55 | visiting one more station appends it to the suggestions exactly when it matches, so the list is scanned in order |
| Autocomplete.FilterIsSubsequence | script.js:40-42 | the suggestions are a subsequence of the station list, so the list's order is kept |
| Autocomplete.FilterMembership | script.js:30-42 | a name is suggested if and only if it is in the station list and its upper-cased form starts with the upper-cased input |
| Autocomplete.FilterCount | script.js:40-42 | a matching name appears among the suggestions exactly as often as in the station list |
| Autocomplete.FilterEmptyInput | script.js:42 | an empty input suggests every station, in list order |
| Autocomplete.Highlight | script.js:45 | the bold part and the plain part concatenate to the station name, the hidden value is the name, and the bold part has length min(\|val\|, \|name\|), as `substr` clamps |
| Autocomplete.HighlightOfMatch | script.js:45 | for a matching station the bold part is exactly the first \|val\| characters and upper-cases to the upper-cased input |
| Autocomplete.Suggestions | script.js:40-54 | one item per matching station, in order: item k holds the k-th match, its bold part has the input's length, and bold and plain part rebuild the name |
| Autocomplete.SuggestionsAt | script.js:43-54 | panel item k is the highlight of the k-th matching station: its value is that station, it is in the list, and its parts rebuild it |
| Autocomplete.BuildItems | script.js:40-56 | the `forEach` loop produces exactly the suggestions for the whole list, one item per match in list order |
| Autocomplete.ExampleNo | script.js:40-45 | input "no" over Central, North Ave, Northgate suggests North Ave and Northgate, each with "No" in bold |
| Results.CrowdValue | script.js:136 | `crowdMap` is defined exactly for Low, Medium and High, and its values lie in 1..3 |
| Results.TickLabel | script.js:170 | the tick callback gives a label exactly for the values 0..4 and `undefined` otherwise |
| Results.BuildTable | script.js:118-125 | the table has one row per data row, in data order, with time, crowd level and safety rating copied verbatim |
| Results.Chart | script.js:141-150 | the labels and both series have one entry per row, and every defined crowd value lies in 1..3 |
| Results.ChartSeries | script.js:141-150 | labels, safety series and crowd series each have one entry per row, in order: time and rating verbatim, crowd Low→1, Medium→2, High→3, undefined otherwise |
| Results.TickLabelInvertsCrowdValue | script.js:136-170 | the tick label at a mapped crowd value is the level name it came from |
| Results.CrowdValueInvertsTickLabel | script.js:170 | the labels of ticks 1..3 map back to those ticks, and ticks 0 and 4 are blank |
| Results.CrowdSeriesOnAxis | script.js:165-171 | every defined crowd value lies inside the crowd axis range [0, 4] and has a tick label |
| Results.ExampleCentral | script.js:141-150 | rows (00:00, Low, 4) and (01:00, High, 2) give labels 00:00, 01:00, safety [4, 2] and crowd [1, 3] |
| Page.ShouldRequest | script.js:91 | a station name passes the falsy-string guard exactly when it is non-empty |
| Page.Survivors | script.js:73-80 | the intended effect of closing panels never adds any |
| Page.SurvivorsMembership | script.js:76 | under the intended effect, a panel stays if and only if it was open and `t` is the input or that panel |
| Page.SurvivorsOfInput | script.js:76 | `closeAllLists(stationInput)` removes nothing |
| Page.SurvivorsOfNothing | script.js:76-77 | under the intended effect, no argument or a target that is neither the input nor a panel removes every panel |
| Page.LiveClose | script.js:74-79 | the loop over the live collection never adds a panel: every panel it leaves was open before, and there are never more of them |
| Page.LiveCloseAtMostOne | script.js:74-79 | with at most one panel open, the live-collection loop has exactly the intended effect |
| Page.LiveCloseSkipsSecond | script.js:74-79 | with two unspared panels the loop closes only the first; the code never has two panels open |
| Page.Page.constructor | script.js:6-11 | the page starts with no stations, no listeners, an empty input, no panel, no request and no chart |
| Page.Page.LoadStations | script.js:14-23 | on success the list is stored and the listeners exist; on failure only the station-list error text is set |
| Page.Page.CloseAllLists | script.js:73-80 | the removal loop over the live collection ends as `LiveClose` says, which with at most one panel open is exactly the panels the target spares |
| Page.Page.ShowSuggestions | script.js:29-57 | afterwards exactly one panel is open, it is new, and it holds the suggestions for the upper-cased input |
| Page.Page.Type | script.js:60-62 | typing sets the value and replaces any open panel by one newly created panel holding the suggestions for the new text; before the listeners exist, only the value changes |
| Page.Page.OnInputClick | script.js:65-70 | clicking the input, when no panel is open, opens one new panel listing every station in order with nothing bold; otherwise nothing changes |
| Page.Page.OnDocumentClick | script.js:83-85 | a document click never closes a panel when the target is the input or that panel, and closes every panel otherwise |
| Page.Page.GetAnalysis | script.js:89-96 | an empty name issues no request and changes nothing; otherwise the placeholder shows, the error clears and one request for the name is issued |
| Page.Page.SelectItem | script.js:49-53 | selecting item k sets the input to exactly that station's name and leaves no panel open; a non-empty name shows the placeholder, clears the error and issues one request, an empty one changes nothing else |
| Page.Page.ClickInput | script.js:64-85 | a click on the input, followed by the document listener, keeps an open panel unchanged and otherwise opens one new panel listing every station with nothing bold |
| Page.Page.ClickAnalysisButton | script.js:182 | a click on the analysis button requests the analysis of a non-empty input (placeholder shown, error cleared) and, once the listeners exist, the click reaching the document closes every open panel |
| Page.Page.ClickItem | script.js:49-85 | a click on an item, followed by the document listener, leaves the name in the input and no panel open, with the same request, placeholder and error effects as selecting it |
| Page.Page.DisplayResults | script.js:106-177 | the results show the table for the rows, the old chart is destroyed and the chart for the rows is the only live one |
| Page.Page.ReceiveAnalysis | script.js:96-103 | a failed response clears the results and reports the station; a successful one shows one table row per data row with the cells copied verbatim, and the chart for those rows |

## Left out

- Page.Page.CloseAllLists: requires at most one open panel (the class invariant). With two or more panels the loop removes from a live collection while indexing it and skips every other panel (`LiveClose`, `LiveCloseSkipsSecond`). The code never reaches that state.
- Page.SurvivorsMembership: states the intended effect of `closeAllLists`. The code matches it only with at most one panel open (`LiveCloseAtMostOne`), which is the only case it reaches.
- Page.SurvivorsOfNothing: states the intended effect of `closeAllLists`. With two or more open panels the live-collection loop would leave every second one open, a case the code never reaches.
- Results.CrowdValue: `crowdMap` is an object literal, so names inherited from `Object.prototype` (`constructor`, `toString`, `__proto__` and the like) look up an inherited member rather than `undefined`. The model gives `None` for them, because such names are not crowd levels the analysis endpoint sends.
- Network I/O. The two `fetch` calls, JSON parsing, and exceptions thrown inside `displayResults` are replaced by the request log and the `Option` responses. The request URL puts the station name into the query string without encoding it, so a name containing `&`, `#` or `+` reaches the server altered, while `requests` records the name unchanged.
- Overlapping analysis requests. Responses may arrive in any order, and `ReceiveAnalysis` renders whichever arrives, with no guard against a stale one, as the code does. Arrival order is chosen by the caller.
- Chart.js. The library's drawing, canvas and styling options (colours, tension, stepped line, axis titles) are left out. The chart is its data (`ChartData`), and `destroy()` is a count of live instances.
- HTML text. Table rows and suggestion items are records of their cell and part values, not markup. The numeric safety rating is kept as a number rather than its decimal text.
- HTML escaping. Names are inserted into markup unescaped. The model takes the hidden input's value to be the station name, which fails for a name containing a quote.
- Unicode case mapping. `toUpperCase` is modelled as ASCII upper-casing. Full Unicode mappings can change a string's length, which would break the `substr(0, val.length)` split.
- DOM attributes and element ids (`stationInputautocomplete-list`, `autocomplete-items`). The initial contents of the results and error areas come from page markup that is not part of this model, and they are taken to be empty.
