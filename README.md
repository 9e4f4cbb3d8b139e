# Flight search screen: a Dafny model of its search-and-select logic

The repository is one Jetpack Compose screen, `FlightSearchScreen`. The user types an origin airport code and, optionally, a destination code. Previously used codes are offered as suggestions. The Search button fetches departures from the origin, keeps those arriving at a 3-letter destination, and lists them. Clicking a flight opens a details view whose record is built from the flight plus two placeholder times.

This project models the logic under that UI:

- the screen's remembered state and every handler that changes it, as a class (`Screen.FlightSearchScreen`);
- the derivations the UI computes from that state, as functions with lemmas (`FlightSearch`, `FlightData`);
- the `randomTime` formatter, with the hour and minute passed in (`ClockTime`);
- Kotlin's `String.length` in UTF-16 code units, `filter`, and the ASCII case handling of `uppercase`, `equals(…, true)` and `startsWith(…, true)` (`Utf16`, `Seqs`, `AsciiText`).

Modules:

- `Options`: Kotlin nullable values as `Option`, with `?:` as `GetOr`.
- `Utf16`: Kotlin's `String.length`, which counts UTF-16 code units, so a character outside the Basic Multilingual Plane counts twice. Every length test of the screen (the 3-unit origin and destination tests, the 2-unit menu test) and every caret offset uses it.
- `AsciiText`: upper-casing and case-insensitive comparison over ASCII letters.
- `ClockTime`: `Int.toString()` with the decimal value of its digits, `padStart`, `randomTime`, and the `HH:MM` format it produces.
- `Seqs`: `filter`, subsequences and the facts about them.
- `FlightData`: the data classes, the detail record a click synthesizes, and the details screen's fallback text.
- `FlightSearch`: the destination filter, the suggestion lists, menu visibility, the button and hint predicates, and the calls one submission makes.
- `Screen`: the class with the eight state variables and the handlers.

Design of the class:

- The Search click is split in two. `Submit` covers the click handler and the background task up to the request. The handler applies the length guard, starts the spinner and clears the list (lines 215-217). The task launched at line 219 saves the non-empty texts to history and issues the request (lines 220-224). `Complete` applies the outcome of the request, which is a parameter: `Fetched(response)` or `Failed`.
- `Submit` returns the origin and destination texts it was made with. `Complete` filters with those, so both steps use the values current at submission.
- The history saves and the request are recorded, in order, in the field `effects`.
- The two history sets come from the history store. They are parameters, as `seq<string>` in the set's iteration order.
- `Valid()` states the screen's invariant:
  - a detail record exists exactly when a flight is selected, and it describes that flight;
  - nothing is listed while loading;
  - every recorded call came from a valid submission.

The request's `direction` parameter is `"Departure"`, the default declared at line 54.

## Model

| member | source | states |
|---|---|---|
| `FlightData.FlightResponse` | app/src/main/java/com/example/myapplication/FlightSearchScreen.kt:37 | the response: an optional list of departures |
| `FlightData.FlightItem` | app/src/main/java/com/example/myapplication/FlightSearchScreen.kt:38 | a listed flight: optional number, airline, status, departure and arrival |
| `FlightData.AirlineInfo` | app/src/main/java/com/example/myapplication/FlightSearchScreen.kt:39 | an airline with an optional name |
| `FlightData.DepartureInfo` | app/src/main/java/com/example/myapplication/FlightSearchScreen.kt:40 | a departure leg: optional scheduled local time and airport |
| `FlightData.ArrivalInfo` | app/src/main/java/com/example/myapplication/FlightSearchScreen.kt:41 | an arrival leg: optional scheduled local time and airport |
| `FlightData.AirportShortInfo` | app/src/main/java/com/example/myapplication/FlightSearchScreen.kt:42 | an airport: optional IATA code and name |
| `FlightData.FlightMovement` | app/src/main/java/com/example/myapplication/FlightSearchScreen.kt:43 | a leg of a detail record: optional scheduled local time and airport |
| `FlightData.FlightStatusResponse` | app/src/main/java/com/example/myapplication/FlightSearchScreen.kt:44 | the detail record: optional number, airline, status and two legs |
| `Screen.TextRange` | app/src/main/java/com/example/myapplication/FlightSearchScreen.kt:156 | a selection in UTF-16 offsets; the caret after a pick is `TextRange(option.length)` |
| `Screen.TextFieldValue` | app/src/main/java/com/example/myapplication/FlightSearchScreen.kt:80 | a text field's text and selection |
| `Screen.FetchOutcome` | app/src/main/java/com/example/myapplication/FlightSearchScreen.kt:223 | the outcome of the request: a response, or an `Exception` caught at line 230 |
| `Options.Option.GetOr` | app/src/main/java/com/example/myapplication/FlightSearchScreen.kt:225 | `x ?: d` is the value when present and `d` when absent |
| `Utf16.Length` | app/src/main/java/com/example/myapplication/FlightSearchScreen.kt:123 | Kotlin's `length`: one code unit per character, two for a character at 0x10000 or above; its properties are stated by `Utf16.LengthBounds` and `Utf16.LengthAppend` |
| `Utf16.LengthBounds` | app/src/main/java/com/example/myapplication/FlightSearchScreen.kt:163 | the Kotlin length lies between the number of characters and twice it. It equals the number of characters iff all lie in the Basic Multilingual Plane, and it is 0 iff the text is empty |
| `Utf16.LengthAppend` | app/src/main/java/com/example/myapplication/FlightSearchScreen.kt:123 | the Kotlin length of a concatenation is the sum of the lengths |
| `Utf16.LengthExample` | app/src/main/java/com/example/myapplication/FlightSearchScreen.kt:236 | "JFK" has length 3; "A" followed by an emoji has two characters but length 3 |
| `AsciiText.UpperChar` | app/src/main/java/com/example/myapplication/FlightSearchScreen.kt:133 | an ASCII lower-case letter becomes its capital (code 32 lower); every other character is unchanged; the result is never lower case |
| `AsciiText.Upper` | app/src/main/java/com/example/myapplication/FlightSearchScreen.kt:133 | `uppercase()` keeps the number of characters and upper-cases each character in place |
| `AsciiText.UpperKeepsLength` | app/src/main/java/com/example/myapplication/FlightSearchScreen.kt:133 | upper-casing keeps Kotlin's length, so the stored code passes the same length tests as the typed one |
| `AsciiText.UpperIdempotent` | app/src/main/java/com/example/myapplication/FlightSearchScreen.kt:181 | upper-casing twice is upper-casing once; upper-case text is unchanged |
| `AsciiText.UpperIsUpperText` | app/src/main/java/com/example/myapplication/FlightSearchScreen.kt:133 | stored text holds no lower-case ASCII letter |
| `AsciiText.EqualsIgnoreCase` | app/src/main/java/com/example/myapplication/FlightSearchScreen.kt:228 | `equals(…, true)`: same length and equal position by position up to ASCII case; related to upper-casing by `AsciiText.EqualsIgnoreCaseIsUpperEquality` |
| `AsciiText.EqualsIgnoreCaseIsUpperEquality` | app/src/main/java/com/example/myapplication/FlightSearchScreen.kt:228 | `equals(…, true)` holds iff the two upper-cased strings are equal |
| `AsciiText.EqualsIgnoreCaseEquivalence` | app/src/main/java/com/example/myapplication/FlightSearchScreen.kt:228 | comparison ignoring case is reflexive, symmetric and transitive |
| `AsciiText.UpperEqualsIgnoreCase` | app/src/main/java/com/example/myapplication/FlightSearchScreen.kt:133 | the stored upper-case text equals the typed text ignoring case |
| `AsciiText.StartsWithIgnoreCase` | app/src/main/java/com/example/myapplication/FlightSearchScreen.kt:120 | `startsWith(prefix, true)`: the prefix is no longer than the text and equals its start ignoring case; its properties are stated by `AsciiText.StartsWithUpper` and `AsciiText.StartsWithEdges` |
| `AsciiText.StartsWithUpper` | app/src/main/java/com/example/myapplication/FlightSearchScreen.kt:120 | `startsWith(…, true)` does not depend on the case of the prefix |
| `AsciiText.StartsWithEdges` | app/src/main/java/com/example/myapplication/FlightSearchScreen.kt:120 | every string starts with ""; a prefix as long as the string is an equality test |
| `ClockTime.NatToString` | app/src/main/java/com/example/myapplication/FlightSearchScreen.kt:67 | `toString()` of a non-negative number: its decimal digits, most significant first; its properties are stated by `ClockTime.NatToStringDigits` |
| `ClockTime.NatToStringDigits` | app/src/main/java/com/example/myapplication/FlightSearchScreen.kt:67 | `toString()` of a non-negative number is non-empty decimal digits with no leading zero whose decimal value is the number |
| `ClockTime.PadStart` | app/src/main/java/com/example/myapplication/FlightSearchScreen.kt:67 | `padStart(length, pad)` on Basic Multilingual Plane text such as the digit strings of line 67 prepends the pad character until the length is reached; its properties are stated by `ClockTime.PadStartShape` |
| `ClockTime.PadStartShape` | app/src/main/java/com/example/myapplication/FlightSearchScreen.kt:67 | `padStart` gives length max(len, target): the original text at the end, pad characters before it |
| `ClockTime.TwoDigits` | app/src/main/java/com/example/myapplication/FlightSearchScreen.kt:67-68 | `toString().padStart(2, '0')` of one drawn number; its spelling is stated by `ClockTime.TwoDigitsSpelling` |
| `ClockTime.TwoDigitsSpelling` | app/src/main/java/com/example/myapplication/FlightSearchScreen.kt:67-68 | for n < 100, toString then padStart(2, '0') gives the tens digit and then the units digit |
| `ClockTime.RandomTime` | app/src/main/java/com/example/myapplication/FlightSearchScreen.kt:66-70 | `randomTime()` once the hour and minute are drawn: the two padded halves joined by ':'; its properties are stated by the four lemmas below |
| `ClockTime.RandomTimeSpelling` | app/src/main/java/com/example/myapplication/FlightSearchScreen.kt:66-70 | the result is the hour's tens and units digits, a colon, then the minute's tens and units digits |
| `ClockTime.RandomTimeIsClockTime` | app/src/main/java/com/example/myapplication/FlightSearchScreen.kt:66-70 | the result is a well-formed `HH:MM` (5 characters, digits, a colon, hour ≤ 23, minute ≤ 59) whose hour and minute read back as the drawn ones |
| `ClockTime.RandomTimeInjective` | app/src/main/java/com/example/myapplication/FlightSearchScreen.kt:66-70 | different draws give different texts |
| `ClockTime.EveryClockTimeIsRandomTime` | app/src/main/java/com/example/myapplication/FlightSearchScreen.kt:66-70 | every well-formed `HH:MM` text is the result for its own hour and minute, so `randomTime` covers exactly the well-formed texts |
| `Seqs.Filter` | app/src/main/java/com/example/myapplication/FlightSearchScreen.kt:228 | `filter` keeps only elements of the input that satisfy the predicate, and never grows the list |
| `Seqs.FilterKeeps` | app/src/main/java/com/example/myapplication/FlightSearchScreen.kt:228 | an element is kept iff it is in the input and satisfies the predicate |
| `Seqs.FilterIsSubsequence` | app/src/main/java/com/example/myapplication/FlightSearchScreen.kt:228 | the kept elements are a subsequence of the input: order is preserved |
| `Seqs.FilterCount` | app/src/main/java/com/example/myapplication/FlightSearchScreen.kt:228 | each element occurs in the result as often as in the input if it satisfies the predicate, and not at all otherwise |
| `Seqs.FilterAppend` | app/src/main/java/com/example/myapplication/FlightSearchScreen.kt:228 | filtering a concatenation is concatenating the filtered parts |
| `Seqs.FilterIdempotent` | app/src/main/java/com/example/myapplication/FlightSearchScreen.kt:228 | filtering twice equals filtering once |
| `Seqs.FilterNoDuplicates` | app/src/main/java/com/example/myapplication/FlightSearchScreen.kt:120 | filtering a list without repeats, such as a set's elements, gives a list without repeats |
| `FlightData.DepartureAirport` | app/src/main/java/com/example/myapplication/FlightSearchScreen.kt:254 | `flight.departure?.airport` is present iff the departure and its airport are, and is then that airport |
| `FlightData.ArrivalAirport` | app/src/main/java/com/example/myapplication/FlightSearchScreen.kt:255 | `flight.arrival?.airport` is present iff the arrival and its airport are, and is then that airport |
| `FlightData.ArrivalIata` | app/src/main/java/com/example/myapplication/FlightSearchScreen.kt:228 | `arrival?.airport?.iata` is present iff the arrival, its airport and its code are all present, and is then that code |
| `FlightData.SynthesizeDetails` | app/src/main/java/com/example/myapplication/FlightSearchScreen.kt:250-256 | the record copies the number and airline. Its status is the flight's, or "Scheduled" when absent. Both legs carry the flight's own airport, and their scheduled local times are exactly the two given well-formed times |
| `FlightData.DescriptionIsSynthesized` | app/src/main/java/com/example/myapplication/FlightSearchScreen.kt:250-256 | conversely, a record that describes a flight is the synthesized record for the draws its own times show |
| `FlightData.SynthesizedFromDraws` | app/src/main/java/com/example/myapplication/FlightSearchScreen.kt:250-256 | two synthesized records for a flight are equal iff they were built from the same two times |
| `FlightData.ScheduledTimesIgnored` | app/src/main/java/com/example/myapplication/FlightSearchScreen.kt:254-255 | the flight's own scheduled times never affect its detail record: clearing them (the helper `WithoutScheduledTimes`) gives the same record |
| `FlightData.AirportLabel` | app/src/main/java/com/example/myapplication/FlightSearchScreen.kt:308-309 | the place shown is the airport's name, else its IATA code, else nothing |
| `FlightData.TitleLine` | app/src/main/java/com/example/myapplication/FlightSearchScreen.kt:306 | the heading: airline name or "Unknown", a space, the number or nothing; its fallbacks are stated by `FlightData.TitleLineFallbacks` |
| `FlightData.TitleLineFallbacks` | app/src/main/java/com/example/myapplication/FlightSearchScreen.kt:306 | a missing airline, or an airline without a name, reads "Unknown"; a missing number leaves only the trailing space |
| `FlightData.StatusLine` | app/src/main/java/com/example/myapplication/FlightSearchScreen.kt:307 | "Status: " and the record's status or "N/A"; stated for both cases by `FlightData.SynthesizedDetailsShown` and `FlightData.NoDetailsShown` |
| `FlightData.LegLine` | app/src/main/java/com/example/myapplication/FlightSearchScreen.kt:308-311 | "Departure: <place> at <time>" or "Arrival: …", each missing part "-"; stated for both cases by the two lemmas below |
| `FlightData.SynthesizedDetailsShown` | app/src/main/java/com/example/myapplication/FlightSearchScreen.kt:307-311 | for a synthesized record, the details screen shows the flight's status or "Scheduled" (never "N/A"), the flight's airports, and the drawn times (never "-") |
| `FlightData.NoDetailsShown` | app/src/main/java/com/example/myapplication/FlightSearchScreen.kt:307-311 | with no record, the screen shows "Status: N/A", "Departure: - at -" and "Arrival: - at -" |
| `FlightSearch.ArrivesAt` | app/src/main/java/com/example/myapplication/FlightSearchScreen.kt:228 | `it.arrival?.airport?.iata.equals(destination, true)`: a code is present and equals the destination ignoring case; a missing code never matches |
| `FlightSearch.FilterByDestination` | app/src/main/java/com/example/myapplication/FlightSearchScreen.kt:228 | keeps only listed flights that arrive at the destination, and never grows the list; exactness is stated by `FlightSearch.ResultsFiltered` |
| `FlightSearch.Results` | app/src/main/java/com/example/myapplication/FlightSearchScreen.kt:225-229 | the list shown after a response holds only the response's departures and no more of them; the two cases are stated by `FlightSearch.ResultsUnfiltered` and `FlightSearch.ResultsFiltered` |
| `FlightSearch.ResultsUnfiltered` | app/src/main/java/com/example/myapplication/FlightSearchScreen.kt:229 | unless the destination's Kotlin length is 3, the list is exactly the response's departures (none when absent) |
| `FlightSearch.ResultsFiltered` | app/src/main/java/com/example/myapplication/FlightSearchScreen.kt:225-228 | with a destination of Kotlin length 3, the list holds exactly the departures whose arrival IATA equals it ignoring case: in response order, each as many times as the response lists it, each with a present arrival, airport and code |
| `FlightSearch.ResultsAppend` | app/src/main/java/com/example/myapplication/FlightSearchScreen.kt:227-229 | the results of a concatenated departure list are the results of each part, in order |
| `FlightSearch.ResultsIgnoreDestinationCase` | app/src/main/java/com/example/myapplication/FlightSearchScreen.kt:228 | upper-casing the destination does not change the results |
| `FlightSearch.ResultsExample` | app/src/main/java/com/example/myapplication/FlightSearchScreen.kt:225-229 | with departures AA1 to LAX and AA2 to BOS, a blank destination keeps both and "LAX" or "lax" keeps only AA1 |
| `FlightSearch.Suggestions` | app/src/main/java/com/example/myapplication/FlightSearchScreen.kt:120 | the suggestions are history entries that start with the text ignoring case, no more than the history holds; exactness is stated by `FlightSearch.SuggestionsAreMatchingHistory` |
| `FlightSearch.SuggestionsAreMatchingHistory` | app/src/main/java/com/example/myapplication/FlightSearchScreen.kt:119-121 | the suggestions are exactly the history entries that start with the text ignoring case, in history order, with no repeats |
| `FlightSearch.ShowMenu` | app/src/main/java/com/example/myapplication/FlightSearchScreen.kt:123 | `text.length >= 2 && filtered.isNotEmpty() && !manuallyClosed`; stated in terms of the history by `FlightSearch.ShowMenuIff` |
| `FlightSearch.ShowMenuIff` | app/src/main/java/com/example/myapplication/FlightSearchScreen.kt:123 | a menu shows iff the text has Kotlin length at least 2, some history entry matches it, and the menu was not closed by hand |
| `FlightSearch.SuggestionsIgnoreTextCase` | app/src/main/java/com/example/myapplication/FlightSearchScreen.kt:168-170 | storing typed text upper-cased does not change the suggestions |
| `FlightSearch.SuggestionsExample` | app/src/main/java/com/example/myapplication/FlightSearchScreen.kt:119-123 | "J" never opens a menu; "JF" and "jf" offer both "JFK" and "JFK2" |
| `FlightSearch.SearchEnabled` | app/src/main/java/com/example/myapplication/FlightSearchScreen.kt:236 | the button is enabled, and a click searches, iff the origin's Kotlin length is 3; related to the hint by `FlightSearch.HintMatchesButton` |
| `FlightSearch.ShowLengthHint` | app/src/main/java/com/example/myapplication/FlightSearchScreen.kt:163 | "Must be 3 letters" shows iff the origin is non-empty and its Kotlin length is not 3; related to the button by `FlightSearch.HintMatchesButton` |
| `FlightSearch.HintMatchesButton` | app/src/main/java/com/example/myapplication/FlightSearchScreen.kt:163 | a non-empty origin shows "Must be 3 letters" iff the Search button is disabled; an enabled button never shows the hint |
| `FlightSearch.LengthTestCountsCodeUnits` | app/src/main/java/com/example/myapplication/FlightSearchScreen.kt:215 | "A" followed by an emoji, two characters of Kotlin length 3, can be searched and shows no hint; "JFK" can be searched and "J" shows the hint |
| `FlightSearch.SubmitEffects` | app/src/main/java/com/example/myapplication/FlightSearchScreen.kt:220-224 | a submission's calls end with exactly one departures request for its origin, with the fixed query parameters |
| `FlightSearch.SubmitEffectsSaveNonEmpty` | app/src/main/java/com/example/myapplication/FlightSearchScreen.kt:220-221 | a valid submission saves the origin first and never again, saves its own destination at most once and iff it is non-empty, saves no other code and nothing empty, and requests nothing before the end |
| `Screen.ResultsViewOf` | app/src/main/java/com/example/myapplication/FlightSearchScreen.kt:244-246 | the spinner shows iff loading; "No flights found!" iff not loading and the list is empty; the cards iff not loading and the list is non-empty, and then they are exactly the list |
| `Screen.IsSubmittedEffect` | app/src/main/java/com/example/myapplication/FlightSearchScreen.kt:215-224 | a call a valid submission can make: a save of a code of Kotlin length 3 for the origin, of a non-empty code for the destination, or a request with the fixed parameters; stated of every submission by `Screen.SubmitEffectsAreSubmitted` |
| `Screen.SubmitEffectsAreSubmitted` | app/src/main/java/com/example/myapplication/FlightSearchScreen.kt:214-224 | every call a valid submission makes has an origin of Kotlin length 3, a non-empty destination, and the fixed query parameters |
| `Screen.FlightSearchScreen.OriginSuggestions` | app/src/main/java/com/example/myapplication/FlightSearchScreen.kt:119-121 | the origin menu's options: the suggestions of the origin history for the current origin text; stated of each edit by `Screen.FlightSearchScreen.OnOriginChange` |
| `Screen.FlightSearchScreen.DestinationSuggestions` | app/src/main/java/com/example/myapplication/FlightSearchScreen.kt:168-170 | the destination menu's options, likewise for the destination |
| `Screen.FlightSearchScreen.ShowOriginMenu` | app/src/main/java/com/example/myapplication/FlightSearchScreen.kt:123 | whether the origin menu is expanded; stated to be false after a pick or a dismissal by the handlers below |
| `Screen.FlightSearchScreen.ShowDestinationMenu` | app/src/main/java/com/example/myapplication/FlightSearchScreen.kt:171 | whether the destination menu is expanded, likewise |
| `Screen.FlightSearchScreen.constructor` | app/src/main/java/com/example/myapplication/FlightSearchScreen.kt:80-88 | the screen starts with empty fields, no list, not loading, no selection, menus armed, and no calls made |
| `Screen.FlightSearchScreen.OnOriginChange` | app/src/main/java/com/example/myapplication/FlightSearchScreen.kt:132-135 | the origin becomes the typed text upper-cased, with the selection unchanged and the menu re-armed. Its suggestions are those of the typed text. Nothing else changes |
| `Screen.FlightSearchScreen.OnDestinationChange` | app/src/main/java/com/example/myapplication/FlightSearchScreen.kt:180-183 | the same for the destination field |
| `Screen.FlightSearchScreen.OnOriginSuggestionPicked` | app/src/main/java/com/example/myapplication/FlightSearchScreen.kt:155-158 | the origin becomes the option, with the caret at its Kotlin length; the menu is closed and cannot show |
| `Screen.FlightSearchScreen.OnDestinationSuggestionPicked` | app/src/main/java/com/example/myapplication/FlightSearchScreen.kt:203-206 | the same for the destination field |
| `Screen.FlightSearchScreen.OnOriginExpandedChange` | app/src/main/java/com/example/myapplication/FlightSearchScreen.kt:128 | the origin close flag becomes the negation of the requested expansion |
| `Screen.FlightSearchScreen.OnOriginMenuDismissed` | app/src/main/java/com/example/myapplication/FlightSearchScreen.kt:151 | dismissing closes the origin menu until the next edit |
| `Screen.FlightSearchScreen.OnDestinationExpandedChange` | app/src/main/java/com/example/myapplication/FlightSearchScreen.kt:176 | the destination close flag becomes the negation of the requested expansion |
| `Screen.FlightSearchScreen.OnDestinationMenuDismissed` | app/src/main/java/com/example/myapplication/FlightSearchScreen.kt:199 | dismissing closes the destination menu until the next edit |
| `Screen.FlightSearchScreen.Submit` | app/src/main/java/com/example/myapplication/FlightSearchScreen.kt:214-224 | when the origin's Kotlin length is not 3, no state changes, nothing is saved and nothing is requested. Otherwise: loading starts, the list is emptied, the saves and the request are appended in order, and the submitted texts are returned |
| `Screen.FlightSearchScreen.Complete` | app/src/main/java/com/example/myapplication/FlightSearchScreen.kt:223-233 | loading ends on both paths. On a response the list is the filtered results for the submitted destination. On a failure the list is unchanged, which after a submission means empty ("No flights found!") |
| `Screen.FlightSearchScreen.SelectFlight` | app/src/main/java/com/example/myapplication/FlightSearchScreen.kt:248-256 | the flight is selected; its detail record describes it, with departure and arrival times `randomTime` renders for the given draws; the invariant is kept and nothing else changes |
| `Screen.FlightSearchScreen.Back` | app/src/main/java/com/example/myapplication/FlightSearchScreen.kt:104-107 | the selection and the detail record are cleared together; nothing else changes |

## Left out

- Rendering, layout, colours, the `LazyColumn`, `DropdownRow` and `FlightCard` visuals (lines 94-117, 265-294): presentation only. The details screen's text is modelled as strings, not drawn.
- `AeroAPI`, `createApi`, the HTTP headers and the API key (lines 46-64): network I/O through a foreign library. The request is recorded as a `FetchDepartures` effect, and its outcome is a parameter of `Complete`. An `Exception` thrown by the request is `Failed`.
- `UserPreferences` and the `collectAsState` flows (lines 76, 91-92): asynchronous storage whose class is not part of this model. The saves are recorded effects, and the two history sets are parameters of the suggestion functions.
- `FirebaseAuth.signOut` and the `onBack` navigation (line 99): external identity and navigation calls.
- The coroutine on `Dispatchers.IO` (line 219): concurrency. Overlapping searches, and a text edit between the click and the coroutine reading the field, are not modelled. `Submit` and `Complete` are sequential steps over the texts at submission.
- A history save that throws (lines 220-221): the saves run before the `try` at line 223, so such an exception ends the background task with no request made and `isLoading` never reset. The history store is not part of this model, and its saves are recorded as effects that always succeed.
- `Log.e` (line 231): diagnostics only.
- The random source of `randomTime` (lines 67-68): the hour and minute are parameters in 0..23 and 0..59.
- PadStart: lengths are counted in characters, not UTF-16 code units, so a padded text containing a character at 0x10000 or above is padded more than Kotlin would; the only call site pads decimal digits, where the two agree.
- Full Unicode case mapping of `uppercase()` and of case-insensitive comparison: only ASCII letters change case in this model.
- Screen.FlightSearchScreen.OnOriginSuggestionPicked: the UI offers only options from the current suggestion list; the method accepts any option and relates its result to no history.
- Screen.FlightSearchScreen.SelectFlight: the UI offers only cards of the listed flights, and only while not loading; the method accepts any flight.
