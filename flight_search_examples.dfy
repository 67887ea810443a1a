/** The example queries the flight search shows and documents, worked through the model. */
module FlightSearchExamples {
  import opened Wrappers
  import opened JsString
  import opened JsNumber
  import opened DatePattern
  import opened FlightSearch

  /** Seven space-free words joined by single spaces split back into those words. */
  lemma SplitSevenWords(q: string, a: string, b: string, c: string, d: string, e: string, f: string, g: string)
    requires ' ' !in a && ' ' !in b && ' ' !in c && ' ' !in d && ' ' !in e && ' ' !in f && ' ' !in g
    requires q == a + " " + b + " " + c + " " + d + " " + e + " " + f + " " + g
    ensures Split(q) == [a, b, c, d, e, f, g]
  {
    SplitAfterWord(a, "");
    assert a + "" == a;
    var p1 := a + " " + b;
    SplitSnoc(a, b);
    assert Split(p1) == [a, b];
    var p2 := p1 + " " + c;
    SplitSnoc(p1, c);
    assert Split(p2) == [a, b, c];
    var p3 := p2 + " " + d;
    SplitSnoc(p2, d);
    assert Split(p3) == [a, b, c, d];
    var p4 := p3 + " " + e;
    SplitSnoc(p3, e);
    assert Split(p4) == [a, b, c, d, e];
    var p5 := p4 + " " + f;
    SplitSnoc(p4, f);
    assert Split(p5) == [a, b, c, d, e, f];
    SplitSnoc(p5, g);
  }

  /** The words of a text whose pieces are known. */
  lemma WordsFromSplit(q: string, ts: seq<string>)
    requires Split(q) == ts
    ensures Words(q) == UpperAll(ts)
  {
    SplitUpper(q);
  }

  /** The advice shown when a text is not understood, as the text it recommends. */
  const HintQuery := "Flights" + " " + "from" + " " + "DEL" + " " + "to" + " " + "BOM" + " " + "for" + " " + "2"

  /** The example under the free-text box. */
  const ShownQuery := HintQuery + " " + "people" + " " + "on" + " " + "2024-12-25"

  const HintPieces := ["Flights", "from", "DEL", "to", "BOM", "for", "2"]

  /** The pieces of the recommended text. */
  lemma HintSplit()
    ensures Split(HintQuery) == HintPieces
  {
    SplitSevenWords(HintQuery, "Flights", "from", "DEL", "to", "BOM", "for", "2");
  }

  /** Its pieces upper-cased. */
  lemma HintWordsUpper(ts: seq<string>)
    requires ts == ["Flights", "from", "DEL", "to", "BOM", "for", "2"]
    ensures UpperAll(ts) == ["FLIGHTS", "FROM", "DEL", "TO", "BOM", "FOR", "2"]
  {
    assert Upper("Flights") == "FLIGHTS";
    assert Upper("from") == "FROM";
    assert Upper("to") == "TO";
    assert Upper("for") == "FOR";
    UpperOfUpperCase("DEL");
    UpperOfUpperCase("BOM");
    UpperOfUpperCase("2");
  }

  /** The words of the recommended text. */
  lemma HintWords()
    ensures Words(HintQuery) == ["FLIGHTS", "FROM", "DEL", "TO", "BOM", "FOR", "2"]
  {
    HintSplit();
    WordsFromSplit(HintQuery, HintPieces);
    HintWordsUpper(HintPieces);
  }

  /** The recommended text contains no date. */
  lemma HintHasNoDate()
    ensures forall j :: !DateAt(HintQuery, j)
  {
    var p1 := "Flights" + " " + "from";
    var p2 := p1 + " " + "DEL";
    var p3 := p2 + " " + "to";
    var p4 := p3 + " " + "BOM";
    var p5 := p4 + " " + "for";
    NoDateAcrossSpace("Flights", "from");
    NoDateAcrossSpace(p1, "DEL");
    NoDateAcrossSpace(p2, "to");
    NoDateAcrossSpace(p3, "BOM");
    NoDateAcrossSpace(p4, "for");
    NoDateAcrossSpace(p5, "2");
  }

  /** The airports of the recommended text. */
  lemma HintFields(q: string)
    requires q == HintQuery
    ensures AiParams(q).from == Some("DEL") && AiParams(q).to == Some("BOM")
  {
    HintWords();
    var w := Words(q);
    assert IsFirstIndex(w, "FROM", 1);
    assert IsFirstIndex(w, "TO", 3);
  }

  /** The traveller count of the recommended text, kept as the string `"2"`. */
  lemma HintCount(q: string)
    requires q == HintQuery
    ensures AiParams(q).travellers == Str("2")
  {
    HintWords();
    assert IsFirstIndex(Words(q), "FOR", 5);
    DigitsAfterForAreTaken(q, 5);
  }

  /** The text the advice recommends is understood: from DEL to BOM, two travellers, no date. */
  lemma HintExample(q: string)
    requires q == HintQuery
    ensures ParseAiQuery(q) == Understood(SearchParams(Some("DEL"), Some("BOM"), None, Str("2")))
  {
    HintFields(q);
    HintCount(q);
    HintHasNoDate();
  }

  /** The advice quotes exactly that text. */
  lemma HintIsAdvertised()
    ensures AiHint == "AI couldn't understand. Try '" + HintQuery + "'"
  {
  }

  /** The last three words of the example, upper-cased. */
  lemma ShownTailUpper()
    ensures [Upper("people"), Upper("on"), Upper("2024-12-25")] == ["PEOPLE", "ON", "2024-12-25"]
  {
    assert Upper("people") == "PEOPLE";
    assert Upper("on") == "ON";
    UpperOfUpperCase("2024-12-25");
  }

  /** The words of the example: the recommended text's words and three more. */
  lemma ShownWords()
    ensures Words(ShownQuery) == ["FLIGHTS", "FROM", "DEL", "TO", "BOM", "FOR", "2", "PEOPLE", "ON", "2024-12-25"]
  {
    HintWords();
    WordsSnoc(HintQuery, "people");
    WordsSnoc(HintQuery + " " + "people", "on");
    WordsSnoc(HintQuery + " " + "people" + " " + "on", "2024-12-25");
    ShownTailUpper();
  }

  /** The date of the example is its last word. */
  lemma ShownDate()
    ensures MatchDate(ShownQuery) == Some("2024-12-25")
  {
    HintHasNoDate();
    NoDateAcrossSpace(HintQuery, "people");
    NoDateAcrossSpace(HintQuery + " " + "people", "on");
    DateAfterSpace(HintQuery + " " + "people" + " " + "on", "2024-12-25");
  }

  /** The airports of the example. */
  lemma ShownFields(q: string)
    requires q == ShownQuery
    ensures AiParams(q).from == Some("DEL") && AiParams(q).to == Some("BOM")
  {
    ShownWords();
    var w := Words(q);
    assert IsFirstIndex(w, "FROM", 1);
    assert IsFirstIndex(w, "TO", 3);
  }

  /** The traveller count of the example, kept as the string `"2"`. */
  lemma ShownCount(q: string)
    requires q == ShownQuery
    ensures AiParams(q).travellers == Str("2")
  {
    ShownWords();
    assert IsFirstIndex(Words(q), "FOR", 5);
    DigitsAfterForAreTaken(q, 5);
  }

  /** The trip date of the example. */
  lemma ShownTripDate(q: string)
    requires q == ShownQuery
    ensures AiParams(q).tripDate == Some("2024-12-25")
  {
    ShownDate();
  }

  /**
   * The example under the free-text box is understood: from DEL to BOM, the count
   * `"2"` (a string), and the date as typed.
   */
  lemma ShownExample(q: string)
    requires q == ShownQuery
    ensures ParseAiQuery(q) == Understood(SearchParams(Some("DEL"), Some("BOM"), Some("2024-12-25"), Str("2")))
  {
    ShownFields(q);
    ShownCount(q);
    ShownTripDate(q);
  }

  /** Submitting the example searches with all four query parameters. */
  lemma ShownSearch(q: string)
    requires q == ShownQuery
    ensures HandleAiSearch(q) == FetchFlights(map[DepartureKey := Str("DEL"), ArrivalKey := Str("BOM"),
                                                  TravellersKey := Str("2"), TripDateKey := Str("2024-12-25")])
  {
    ShownExample(q);
    UpperOfUpperCase("DEL");
    UpperOfUpperCase("BOM");
  }

  /** The words of "Flights to BOM". */
  lemma MissingOriginWords(q: string)
    requires q == "Flights" + " " + "to" + " " + "BOM"
    ensures Words(q) == [Upper("Flights"), Upper("to"), Upper("BOM")]
  {
    WordsOfWord("Flights");
    WordsSnoc("Flights", "to");
    WordsSnoc("Flights" + " " + "to", "BOM");
  }

  /** A text without `from` is not understood, and the advice is shown. */
  lemma MissingOriginExample(q: string)
    requires q == "Flights" + " " + "to" + " " + "BOM"
    ensures ParseAiQuery(q) == NotUnderstood
    ensures HandleAiSearch(q) == Alert(AiHint)
  {
    MissingOriginWords(q);
    assert Upper("Flights") == "FLIGHTS";
    assert Upper("to") == "TO";
    UpperOfUpperCase("BOM");
    assert "FROM" !in Words(q);
  }
}
