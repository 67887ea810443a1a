# AeroStream flight search: a Dafny model

This project models the logic of the AeroStream client's flight search component
(`src/components/FlightSearch.js`):

- **The simulated "AI" parser (`handleAiSearch`).** It upper-cases the free text and splits it at single spaces. It takes
  the word after the first `FROM` as origin and the word after the first `TO` as destination.
  The word after the first `FOR` becomes the traveller count when `isNaN` says it is numeric; otherwise the count stays 1.
  The date is the leftmost `YYYY-MM-DD` match in the text as typed. When origin or destination is missing,
  the parser shows an advice text; otherwise it runs a search.
- **The search request (`searchFlights`).** These are the query parameters of `GET /flights`. Each is set only when its source is
  truthy, and the airport codes are upper-cased.
- **The booking request (`handleBook`).** It refuses when the user is not logged in. Otherwise it builds the body of
  `POST /bookings`. The seats are the search form's traveller field, and the total cost is that count times the price.

The model is pure. Each handler is a function that returns the data it would hand to the
network or to `alert`. The JavaScript built-ins the parser relies on are modelled in their own modules:
- `toUpperCase` (ASCII), `split(' ')` and `indexOf` in `JsString`;
- `isNaN` of a string, following the StringNumericLiteral grammar of ECMA-262, in `JsNumber`;
- the date regular expression with `String.prototype.match` in `DatePattern`.

Files:
- `wrappers.dfy`: `Option`, where `None` stands for `undefined`.
- `js_string.dfy`: upper-casing, splitting with its inverse `Join`, and `indexOf`.
- `js_number.dfy`: trimming, the numeric-literal grammar, `IsNumeric`.
- `date_pattern.dfy`: the date shape, its leftmost match, and how a date sits among space-separated words.
- `flight_search.dfy`: search parameters, the query-parameter mapping, the parser, the booking payload.
- `flight_search_examples.dfy`: the texts the component shows, worked through the model.

Where the code and the component's documented intent differ, the model follows the code.
- The traveller count taken from free text is the token itself, a string such as `"2"`, not a number.
- Any token that `isNaN` accepts after upper-casing is taken: `"-2"`, `"0"`, `"2.5"`, `"1E3"`, `"0X10"`, and a token made only of white space other than the space character. `Infinity` is not: it is upper-cased to `INFINITY` first, which is NaN.
- So the count is not always a positive integer. It is always truthy, however: an empty token is never taken, because `words[i + 1]` is tested first.

## Model

| member | source | states |
|---|---|---|
| JsString.UpperChar | src/components/FlightSearch.js:52 | a lower-case ASCII letter becomes the matching capital; every other character is unchanged; the result is never lower case |
| JsString.Upper | src/components/FlightSearch.js:52 | `toUpperCase` keeps the length, maps each character by `UpperChar` and leaves no lower-case letter |
| JsString.UpperOfUpperCase | src/components/FlightSearch.js:26-27 | upper-casing a string with no lower-case letter returns it unchanged |
| JsString.UpperIdempotent | src/components/FlightSearch.js:26-27 | upper-casing twice is upper-casing once |
| JsString.UpperAppend | src/components/FlightSearch.js:52 | upper-casing distributes over concatenation |
| JsString.Split | src/components/FlightSearch.js:52 | `split(' ')` yields at least one piece and no piece contains a space |
| JsString.JoinSplit | src/components/FlightSearch.js:52 | joining the pieces with single spaces gives back the text: splitting loses nothing |
| JsString.SplitJoin | src/components/FlightSearch.js:52 | splitting the space-joined pieces gives back exactly those pieces |
| JsString.SplitAfterWord | src/components/FlightSearch.js:52 | a space-free prefix is glued onto the first piece of what follows it |
| JsString.SplitSnoc | src/components/FlightSearch.js:52 | a space and a space-free word at the end add exactly that word as the last piece |
| JsString.UpperAll | src/components/FlightSearch.js:52 | each piece upper-cased, in order, nothing else |
| JsString.SplitUpper | src/components/FlightSearch.js:52 | splitting the upper-cased text gives the upper-cased pieces of the text as typed |
| JsString.IndexOf | src/components/FlightSearch.js:56-58 | `indexOf` is -1 exactly when the element is absent, and otherwise the position of its first occurrence |
| JsNumber.TrimStart | src/components/FlightSearch.js:64 | the removed prefix is all white space and the rest starts with none |
| JsNumber.TrimEnd | src/components/FlightSearch.js:64 | the removed suffix is all white space and the rest ends with none |
| JsNumber.DigitsEnd | src/components/FlightSearch.js:64 | the end of the maximal run of decimal digits starting at a position |
| JsNumber.IsNumeric | src/components/FlightSearch.js:64 | `!isNaN(s)`: `s` trimmed of ECMA-262 white space is empty, a StrDecimalLiteral (sign, digits, fraction, exponent, `Infinity`) or a NonDecimalIntegerLiteral (`0x`, `0o`, `0b`) |
| JsNumber.DecimalDigitsAreNumeric | src/components/FlightSearch.js:64 | a non-empty run of decimal digits passes `!isNaN` |
| JsNumber.DigitsRunToEnd | src/components/FlightSearch.js:64 | in a string of digits the run of digits reaches the end |
| JsNumber.UpperCaseWordIsNaN | src/components/FlightSearch.js:64 | an upper-case word starting with A–Z fails `!isNaN` (`INFINITY` included) |
| DatePattern.FindDateFrom | src/components/FlightSearch.js:69 | the first position at or after a start where the date pattern matches, or none when it matches nowhere from there |
| DatePattern.MatchDate | src/components/FlightSearch.js:69-70 | no match exactly when no window has the date shape; otherwise the match is date-shaped and is the leftmost window |
| DatePattern.DateAtUpper | src/components/FlightSearch.js:69 | upper-casing neither creates nor destroys a date and leaves a date's characters unchanged |
| DatePattern.MatchDateIgnoresCase | src/components/FlightSearch.js:69 | the date found in the upper-cased text equals the date found in the text as typed |
| DatePattern.NoDateAcrossSpace | src/components/FlightSearch.js:69 | a date never spans a space: two date-free texts joined by a space hold no date |
| DatePattern.DateAfterSpace | src/components/FlightSearch.js:69-70 | a date written as the word after a date-free text is the leftmost match of the whole |
| FlightSearch.Truthy | src/components/FlightSearch.js:30 | JavaScript truthiness of a string or number: non-empty, or non-zero and not NaN |
| FlightSearch.Present | src/components/FlightSearch.js:72 | truthiness of a property that may be `undefined`: defined and non-empty |
| FlightSearch.QueryParams | src/components/FlightSearch.js:24-33 | each of the four keys is present exactly when its source is truthy; the airports are sent upper-cased, count and date unchanged; no other key |
| FlightSearch.Words | src/components/FlightSearch.js:52 | at least one word; every word is upper case and space-free |
| FlightSearch.WordsOfWord | src/components/FlightSearch.js:52 | a space-free text is one word, upper-cased |
| FlightSearch.WordsSnoc | src/components/FlightSearch.js:52 | one more space-free word adds its upper-cased form as the last word |
| FlightSearch.ArgumentAt | src/components/FlightSearch.js:60-61 | the `words[i + 1]` test: the next word when it exists and is non-empty, otherwise `undefined` |
| FlightSearch.TokenAfter | src/components/FlightSearch.js:56-61 | the non-empty word after the first occurrence of a keyword; none when the keyword is absent or its successor is missing or empty |
| FlightSearch.CountAfter | src/components/FlightSearch.js:63-66 | the word after the first FOR when it exists, is non-empty and passes `!isNaN`, as a string; otherwise 1; always truthy |
| FlightSearch.AiParams | src/components/FlightSearch.js:52-70 | origin after the first FROM; destination after the first TO; count after the first FOR only when numeric, else 1, always truthy; leftmost date or none; origin and destination are non-empty, upper case, space-free |
| FlightSearch.ParseAiQuery | src/components/FlightSearch.js:72-76 | understood exactly when both the first FROM and the first TO have a non-empty successor; the parameters are then those extracted |
| FlightSearch.HandleAiSearch | src/components/FlightSearch.js:48-77 | the advice alert exactly when not understood; otherwise a search whose query parameters are mapped from the parsed parameters |
| FlightSearch.AiSearchSendsParsedValues | src/components/FlightSearch.js:26-33 | a search started from text always sends origin, destination and count; the airports go out exactly as parsed (the second upper-casing is a no-op); the date is sent exactly when the text contains one |
| FlightSearch.OriginIsUpperCasedWord | src/components/FlightSearch.js:52-60 | the origin is the upper-cased word, as typed, after the first word that reads `from` in any case |
| FlightSearch.DestinationIsUpperCasedWord | src/components/FlightSearch.js:52-61 | the destination is the upper-cased word, as typed, after the first word that reads `to` in any case |
| FlightSearch.WordAfterForIsIgnored | src/components/FlightSearch.js:63-66 | a word after FOR that starts with a letter leaves the count at 1 and is not an error |
| FlightSearch.DigitsAfterForAreTaken | src/components/FlightSearch.js:63-66 | a word of decimal digits after the first FOR becomes the count, as a string |
| FlightSearch.HandleBook | src/components/FlightSearch.js:79-93 | login required exactly when not authenticated; otherwise seats are the form's traveller field and the total is price times seats (NaN when the field is NaN) |
| FlightSearch.Times | src/components/FlightSearch.js:93 | `price * seatsRequested` for a number (the integer product) or NaN (NaN) |
| FlightSearch.BookingIgnoresSearchFields | src/components/FlightSearch.js:83-84 | the booking depends on the form's traveller field only, not on its airports or date |
| FlightSearchExamples.SplitSevenWords | src/components/FlightSearch.js:52 | seven space-free words joined by spaces split back into those words |
| FlightSearchExamples.WordsFromSplit | src/components/FlightSearch.js:52 | the words of a text are its pieces upper-cased |
| FlightSearchExamples.HintSplit | src/components/FlightSearch.js:73 | the pieces of the text the advice recommends |
| FlightSearchExamples.HintWordsUpper | src/components/FlightSearch.js:73 | those pieces upper-cased |
| FlightSearchExamples.HintWords | src/components/FlightSearch.js:73 | the words of the recommended text |
| FlightSearchExamples.HintHasNoDate | src/components/FlightSearch.js:73 | the recommended text holds no date |
| FlightSearchExamples.HintFields | src/components/FlightSearch.js:73 | its airports are DEL and BOM |
| FlightSearchExamples.HintCount | src/components/FlightSearch.js:73 | its traveller count is the string `"2"` |
| FlightSearchExamples.HintExample | src/components/FlightSearch.js:73 | the recommended text is understood: DEL to BOM, count `"2"`, no date |
| FlightSearchExamples.HintIsAdvertised | src/components/FlightSearch.js:73 | the advice quotes exactly that text |
| FlightSearchExamples.ShownTailUpper | src/components/FlightSearch.js:171 | the last three words of the shown example upper-cased |
| FlightSearchExamples.ShownWords | src/components/FlightSearch.js:171 | the ten words of the shown example |
| FlightSearchExamples.ShownDate | src/components/FlightSearch.js:171 | the date of the shown example is `2024-12-25` |
| FlightSearchExamples.ShownFields | src/components/FlightSearch.js:171 | its airports are DEL and BOM |
| FlightSearchExamples.ShownCount | src/components/FlightSearch.js:171 | its traveller count is the string `"2"` |
| FlightSearchExamples.ShownTripDate | src/components/FlightSearch.js:171 | its trip date is `2024-12-25` |
| FlightSearchExamples.ShownExample | src/components/FlightSearch.js:51 | the shown example parses to DEL, BOM, `2024-12-25`, `"2"` |
| FlightSearchExamples.ShownSearch | src/components/FlightSearch.js:171 | submitting it searches with exactly the four query parameters DEL, BOM, `"2"`, `2024-12-25` |
| FlightSearchExamples.MissingOriginWords | src/components/FlightSearch.js:52 | the words of "Flights to BOM" |
| FlightSearchExamples.MissingOriginExample | src/components/FlightSearch.js:72-74 | a text without `from` is not understood and the advice is shown |

## Left out

- Rendering, React state and the event plumbing (`useState`, `preventDefault`, the mode switch, the flight list) are left out. These are user-interface concerns.
- The requests `api.get('/flights')` and `api.post('/bookings')` are left out, along with their responses, `alert`, `console.error`, and the success and failure messages of a booking. The model returns the request data or the alert text instead.
- The error path of `searchFlights` (`catch`, "Error fetching flights") is left out. Failures happen in the network call, which is not modelled.
- The idempotency key from `uuidv4()` is left out. It is randomness.
- The seat-availability check that the comment at `FlightSearch.js:82` promises is not modelled, because the code has no such check.
- JsString.Upper: upper-cases ASCII letters only. JavaScript's full Unicode `toUpperCase` can change a string's length (`ß` becomes `SS`), so it is not modelled.
- JsNumber.IsNumeric: decides only whether `Number(s)` is NaN, not which number it is. Floating-point values are not modelled.
- FlightSearch.HandleBook: the price, the ids and the form's traveller field are modelled as unbounded integers or NaN. Floating-point products are not modelled.
- FlightSearch.HandleBook: requires the form's traveller field to be a number or NaN. This holds because the form only ever stores `parseInt` of the input (`FlightSearch.js:161`), but the field's integer conversion itself is not modelled.
- The `user` object is reduced to its `id`. The authentication context, `Login.js`, `Signup.js`, `Navbar.js` and `src/api/axiosConfig.js` are not part of this model.
- The worked examples are stated for the query written as a concatenation of its words. This is the same string as the single literal.
