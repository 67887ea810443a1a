/**
 * The logic of the flight search component: the free-text ("AI") query parser,
 * the mapping from search parameters to the query string of `GET /flights`, and
 * the payload of `POST /bookings`. Requests, alerts and component state are not
 * modelled; each operation returns the data it would hand to them.
 */
module FlightSearch {
  import opened Wrappers
  import opened JsString
  import opened JsNumber
  import opened DatePattern

  /** The JavaScript values that occur in the search parameters. */
  datatype JsValue = Str(s: string) | Num(n: int) | NaN

  /** JavaScript truthiness: a non-empty string or a non-zero number. */
  predicate Truthy(v: JsValue) {
    match v
    case Str(s) => s != ""
    case Num(n) => n != 0
    case NaN => false
  }

  /** Truthiness of a property that holds a string or is `undefined`. */
  predicate Present(o: Option<string>) {
    o.Some? && o.value != ""
  }

  /**
   * The parameters of a search, shaped like the search form's state: `from`, `to`
   * and `tripDate` are strings or undefined, `travellers` a number (the form, after
   * `parseInt`) or a string (a count taken from the free text).
   */
  datatype SearchParams = SearchParams(
    from: Option<string>,
    to: Option<string>,
    tripDate: Option<string>,
    travellers: JsValue)

  // ---------------------------------------------------------------------------
  // searchFlights: search parameters to query parameters

  const DepartureKey := "departureAirportId"
  const ArrivalKey := "arrivalAirportId"
  const TravellersKey := "travellers"
  const TripDateKey := "tripDate"

  /**
   * The query parameters `searchFlights` sends with `GET /flights`: each key is set
   * only when its source property is truthy; the airport codes are upper-cased and
   * the traveller count and date passed through as they are.
   */
  function QueryParams(p: SearchParams): (q: map<string, JsValue>)
    ensures q.Keys <= {DepartureKey, ArrivalKey, TravellersKey, TripDateKey}
    ensures DepartureKey in q <==> Present(p.from)
    ensures ArrivalKey in q <==> Present(p.to)
    ensures TravellersKey in q <==> Truthy(p.travellers)
    ensures TripDateKey in q <==> Present(p.tripDate)
    ensures DepartureKey in q ==> q[DepartureKey].Str? && IsUpperCase(q[DepartureKey].s)
    ensures ArrivalKey in q ==> q[ArrivalKey].Str? && IsUpperCase(q[ArrivalKey].s)
    ensures DepartureKey in q ==> q[DepartureKey] == Str(Upper(p.from.value))
    ensures ArrivalKey in q ==> q[ArrivalKey] == Str(Upper(p.to.value))
    ensures TravellersKey in q ==> q[TravellersKey] == p.travellers
    ensures TripDateKey in q ==> q[TripDateKey] == Str(p.tripDate.value)
  {
    var q0: map<string, JsValue> := map[];
    var q1 := if Present(p.from) then q0[DepartureKey := Str(Upper(p.from.value))] else q0;
    var q2 := if Present(p.to) then q1[ArrivalKey := Str(Upper(p.to.value))] else q1;
    var q3 := if Truthy(p.travellers) then q2[TravellersKey := p.travellers] else q2;
    if Present(p.tripDate) then q3[TripDateKey := Str(p.tripDate.value)] else q3
  }

  // ---------------------------------------------------------------------------
  // handleAiSearch: the simulated free-text parser

  /** The words of the query: upper-cased, then split at every single space. */
  function Words(query: string): (w: seq<string>)
    ensures |w| >= 1
    ensures forall k :: 0 <= k < |w| ==> IsUpperCase(w[k]) && ' ' !in w[k]
  {
    var w := Split(Upper(query));
    SplitUpper(query);
    w
  }

  /** A text without spaces is one word, upper-cased. */
  lemma WordsOfWord(w: string)
    requires ' ' !in w
    ensures Words(w) == [Upper(w)]
  {
    assert ' ' !in Upper(w) by {
      assert forall k :: 0 <= k < |w| ==> Upper(w)[k] == UpperChar(w[k]);
    }
    SplitAfterWord(Upper(w), "");
    assert Upper(w) + "" == Upper(w);
  }

  /** Writing one more space-free word after a text adds it, upper-cased, as the last word. */
  lemma WordsSnoc(x: string, w: string)
    requires ' ' !in w
    ensures Words(x + " " + w) == Words(x) + [Upper(w)]
  {
    assert ' ' !in Upper(w) by {
      assert forall k :: 0 <= k < |w| ==> Upper(w)[k] == UpperChar(w[k]);
    }
    UpperAppend(x + " ", w);
    UpperAppend(x, " ");
    assert Upper(" ") == " ";
    SplitSnoc(Upper(x), Upper(w));
  }

  /** The word after position `i`, when there is one and it is not empty (`words[i + 1]` is truthy). */
  function ArgumentAt(words: seq<string>, i: int): Option<string> {
    if 0 <= i && i + 1 < |words| && words[i + 1] != "" then Some(words[i + 1]) else None
  }

  /** The first occurrence of `keyword` is followed by a non-empty word. */
  ghost predicate HasArgument(words: seq<string>, keyword: string) {
    exists i :: IsFirstIndex(words, keyword, i) && ArgumentAt(words, i).Some?
  }

  /**
   * The value that follows a keyword: the word after its FIRST occurrence, if that
   * word exists and is not empty; nothing when the keyword does not occur.
   */
  function TokenAfter(words: seq<string>, keyword: string): (r: Option<string>)
    ensures keyword !in words ==> r == None
    ensures forall i :: IsFirstIndex(words, keyword, i) ==> r == ArgumentAt(words, i)
    ensures r.Some? <==> HasArgument(words, keyword)
  {
    var i := IndexOf(words, keyword);
    if i != -1 then ArgumentAt(words, i) else None
  }

  /** The traveller count when the text gives none. */
  const DefaultTravellers := Num(1)

  /**
   * The traveller count: the word after the first `FOR` when it is there, not empty
   * and numeric for `isNaN`, kept as a string; the default count otherwise.
   */
  function CountAfter(words: seq<string>): (t: JsValue)
    ensures forall i :: IsFirstIndex(words, "FOR", i) ==>
      t == (if ArgumentAt(words, i).Some? && IsNumeric(words[i + 1]) then Str(words[i + 1]) else DefaultTravellers)
    ensures "FOR" !in words ==> t == DefaultTravellers
    ensures Truthy(t)
  {
    var forArg := TokenAfter(words, "FOR");
    if forArg.Some? && IsNumeric(forArg.value) then Str(forArg.value) else DefaultTravellers
  }

  /**
   * The `params` object `handleAiSearch` builds before it checks it: origin after the
   * first `FROM`, destination after the first `TO`, the word after the first `FOR` as
   * traveller count when it is numeric (kept as a string), and the leftmost date in
   * the text as typed.
   */
  function AiParams(query: string): (p: SearchParams)
    ensures forall i :: IsFirstIndex(Words(query), "FROM", i) ==> p.from == ArgumentAt(Words(query), i)
    ensures "FROM" !in Words(query) ==> p.from == None
    ensures forall i :: IsFirstIndex(Words(query), "TO", i) ==> p.to == ArgumentAt(Words(query), i)
    ensures "TO" !in Words(query) ==> p.to == None
    ensures forall i :: IsFirstIndex(Words(query), "FOR", i) ==>
      p.travellers == (if ArgumentAt(Words(query), i).Some? && IsNumeric(Words(query)[i + 1])
                       then Str(Words(query)[i + 1]) else DefaultTravellers)
    ensures "FOR" !in Words(query) ==> p.travellers == DefaultTravellers
    ensures Truthy(p.travellers)
    ensures forall i :: IsLeftmostDate(query, i) ==> p.tripDate == Some(query[i..i + DateLength])
    ensures (forall j :: !DateAt(query, j)) ==> p.tripDate == None
    ensures p.from.Some? ==> p.from.value != "" && IsUpperCase(p.from.value) && ' ' !in p.from.value
    ensures p.to.Some? ==> p.to.value != "" && IsUpperCase(p.to.value) && ' ' !in p.to.value
  {
    var words := Words(query);
    var from := TokenAfter(words, "FROM");
    var to := TokenAfter(words, "TO");
    SearchParams(from, to, MatchDate(query), CountAfter(words))
  }

  /** The outcome of parsing: a search to run, or a text that was not understood. */
  datatype AiParse = Understood(params: SearchParams) | NotUnderstood

  /**
   * `handleAiSearch` up to the call: the parameters are used only when both origin
   * and destination were found, that is, when the first `FROM` and the first `TO`
   * are each followed by a non-empty word.
   */
  function ParseAiQuery(query: string): (r: AiParse)
    ensures r.Understood? <==> HasArgument(Words(query), "FROM") && HasArgument(Words(query), "TO")
    ensures r.Understood? ==> r.params == AiParams(query)
    ensures r.Understood? ==> Present(r.params.from) && Present(r.params.to)
  {
    var params := AiParams(query);
    if !Present(params.from) || !Present(params.to) then NotUnderstood
    else Understood(params)
  }

  /** The advice shown when the text is not understood. */
  const AiHint := "AI couldn't understand. Try 'Flights from DEL to BOM for 2'"

  /** What a submitted free-text query leads to: a flight search or an alert. */
  datatype AiSearch = FetchFlights(query: map<string, JsValue>) | Alert(message: string)

  /** `handleAiSearch`: parse, then search with the parsed parameters or show the hint. */
  function HandleAiSearch(query: string): (r: AiSearch)
    ensures r.Alert? <==> ParseAiQuery(query).NotUnderstood?
    ensures r.Alert? ==> r.message == AiHint
    ensures r.FetchFlights? ==> r.query == QueryParams(ParseAiQuery(query).params)
  {
    match ParseAiQuery(query)
    case Understood(params) => FetchFlights(QueryParams(params))
    case NotUnderstood => Alert(AiHint)
  }

  /**
   * A search started from free text always names both airports and a traveller count,
   * and sends the parsed origin and destination unchanged: they are upper case already,
   * so the second upper-casing in `searchFlights` has no effect. The date is sent
   * exactly when the text contains one.
   */
  lemma AiSearchSendsParsedValues(query: string)
    requires HandleAiSearch(query).FetchFlights?
    ensures var q, p := HandleAiSearch(query).query, AiParams(query);
      && DepartureKey in q && q[DepartureKey] == Str(p.from.value)
      && ArrivalKey in q && q[ArrivalKey] == Str(p.to.value)
      && TravellersKey in q && q[TravellersKey] == p.travellers
      && (TripDateKey in q <==> exists j :: DateAt(query, j))
  {
    var p := AiParams(query);
    UpperOfUpperCase(p.from.value);
    UpperOfUpperCase(p.to.value);
    if exists j :: DateAt(query, j) {
      assert MatchDate(query).Some?;
      assert IsDateShape(MatchDate(query).value);
    }
  }

  /**
   * Origin in terms of the text as typed: when the first word that reads `from` in
   * any case is followed by a non-empty word `x`, the origin is `x` upper-cased.
   */
  lemma OriginIsUpperCasedWord(query: string, i: int)
    requires IsFirstIndex(UpperAll(Split(query)), "FROM", i)
    requires i + 1 < |Split(query)| && Split(query)[i + 1] != ""
    ensures AiParams(query).from == Some(Upper(Split(query)[i + 1]))
  {
    SplitUpper(query);
    assert Words(query) == UpperAll(Split(query));
  }

  /** Destination in terms of the text as typed, as for the origin. */
  lemma DestinationIsUpperCasedWord(query: string, i: int)
    requires IsFirstIndex(UpperAll(Split(query)), "TO", i)
    requires i + 1 < |Split(query)| && Split(query)[i + 1] != ""
    ensures AiParams(query).to == Some(Upper(Split(query)[i + 1]))
  {
    SplitUpper(query);
    assert Words(query) == UpperAll(Split(query));
  }

  /**
   * A word after `FOR` that starts with a letter (an airport code, `PEOPLE`, ...) is
   * ignored: the traveller count stays at its default and the parse does not fail.
   */
  lemma WordAfterForIsIgnored(query: string, i: int)
    requires IsFirstIndex(Words(query), "FOR", i)
    requires i + 1 < |Words(query)| && Words(query)[i + 1] != ""
    requires 'A' <= Words(query)[i + 1][0] <= 'Z'
    ensures AiParams(query).travellers == DefaultTravellers
  {
    UpperCaseWordIsNaN(Words(query)[i + 1]);
  }

  /** A count of decimal digits after the first `FOR` is taken, as a string. */
  lemma DigitsAfterForAreTaken(query: string, i: int)
    requires IsFirstIndex(Words(query), "FOR", i)
    requires i + 1 < |Words(query)|
    requires IsDecimalDigits(Words(query)[i + 1])
    ensures AiParams(query).travellers == Str(Words(query)[i + 1])
  {
    DecimalDigitsAreNumeric(Words(query)[i + 1]);
  }

  // ---------------------------------------------------------------------------
  // handleBook: the booking payload

  /** The body of `POST /bookings`. */
  datatype BookingRequest = BookingRequest(flightId: int, userId: int, noOfSeats: JsValue, totalCost: JsValue)

  /** What pressing "Book" leads to: a request to log in, or a booking request. */
  datatype Booking = LoginRequired(message: string) | Post(request: BookingRequest)

  const LoginHint := "Please Login to Book"

  /** JavaScript `price * n` for a number `n` or NaN. */
  function Times(price: int, v: JsValue): JsValue
    requires !v.Str?
  {
    match v
    case Num(n) => Num(price * n)
    case NaN => NaN
  }

  /**
   * `handleBook`: refused unless logged in; otherwise books as many seats as the
   * search form's traveller field says (never the count parsed from free text), at
   * `price` per seat. The form field holds `parseInt` of the input, a number or NaN.
   */
  function HandleBook(isAuthenticated: bool, userId: int, flightId: int, price: int, form: SearchParams): (r: Booking)
    requires !form.travellers.Str?
    ensures r.LoginRequired? <==> !isAuthenticated
    ensures r.LoginRequired? ==> r.message == LoginHint
    ensures r.Post? ==> r.request.flightId == flightId && r.request.userId == userId
    ensures r.Post? ==> r.request.noOfSeats == form.travellers
    ensures r.Post? && form.travellers.Num? ==> r.request.totalCost == Num(price * form.travellers.n)
    ensures r.Post? && form.travellers.NaN? ==> r.request.totalCost == NaN
  {
    if !isAuthenticated then LoginRequired(LoginHint)
    else
      var seatsRequested := form.travellers;
      Post(BookingRequest(flightId, userId, seatsRequested, Times(price, seatsRequested)))
  }

  /** The booking depends on the form's traveller count only, not on its airports or date. */
  lemma BookingIgnoresSearchFields(isAuthenticated: bool, userId: int, flightId: int, price: int, f: SearchParams, g: SearchParams)
    requires !f.travellers.Str? && f.travellers == g.travellers
    ensures HandleBook(isAuthenticated, userId, flightId, price, f) == HandleBook(isAuthenticated, userId, flightId, price, g)
  {
  }
}
