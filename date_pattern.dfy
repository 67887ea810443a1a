/**
 * The date pattern `/\d{4}-\d{2}-\d{2}/` and `String.prototype.match` with it.
 * The pattern has a fixed length of ten characters and no flags, so its leftmost
 * match is the first ten-character window of the text that has its shape.
 */
module DatePattern {
  import opened Wrappers
  import opened JsString

  const DateLength := 10

  /** Four digits, `-`, two digits, `-`, two digits. No calendar check. */
  predicate IsDateShape(w: string) {
    && |w| == DateLength
    && IsDecimalDigit(w[0]) && IsDecimalDigit(w[1]) && IsDecimalDigit(w[2]) && IsDecimalDigit(w[3])
    && w[4] == '-'
    && IsDecimalDigit(w[5]) && IsDecimalDigit(w[6])
    && w[7] == '-'
    && IsDecimalDigit(w[8]) && IsDecimalDigit(w[9])
  }

  /** The pattern matches `s` at position `i`. */
  predicate DateAt(s: string, i: int) {
    0 <= i && i + DateLength <= |s| && IsDateShape(s[i..i + DateLength])
  }

  /** The first position at or after `i` where the pattern matches. */
  function FindDateFrom(s: string, i: nat): (r: Option<nat>)
    ensures r.Some? ==> i <= r.value && DateAt(s, r.value)
    ensures r.Some? ==> forall j :: i <= j < r.value ==> !DateAt(s, j)
    ensures r.None? ==> forall j :: i <= j ==> !DateAt(s, j)
    decreases |s| - i
  {
    if i + DateLength > |s| then None
    else if DateAt(s, i) then Some(i)
    else FindDateFrom(s, i + 1)
  }

  /** The pattern matches at `i` and nowhere before. */
  predicate IsLeftmostDate(s: string, i: int) {
    DateAt(s, i) && forall j :: 0 <= j < i ==> !DateAt(s, j)
  }

  /** `s.match(/\d{4}-\d{2}-\d{2}/)?.[0]`: the leftmost matching substring, if any. */
  function MatchDate(s: string): (r: Option<string>)
    ensures r.None? <==> forall j :: !DateAt(s, j)
    ensures r.Some? ==> IsDateShape(r.value)
    ensures forall i :: IsLeftmostDate(s, i) ==> r == Some(s[i..i + DateLength])
  {
    match FindDateFrom(s, 0)
    case Some(i) => Some(s[i..i + DateLength])
    case None => None
  }

  /** Upper-casing never creates or destroys a date: digits and `-` are unchanged. */
  lemma DateAtUpper(s: string, i: int)
    ensures DateAt(Upper(s), i) <==> DateAt(s, i)
    ensures DateAt(s, i) ==> Upper(s)[i..i + DateLength] == s[i..i + DateLength]
  {
    if 0 <= i && i + DateLength <= |s| {
      var w, u := s[i..i + DateLength], Upper(s)[i..i + DateLength];
      assert forall k :: 0 <= k < DateLength ==> u[k] == UpperChar(w[k]);
    }
  }

  /**
   * The date is found the same way in the text as typed and in its upper-cased form:
   * date extraction does not depend on the case folding applied to the tokens.
   */
  lemma MatchDateIgnoresCase(s: string)
    ensures MatchDate(Upper(s)) == MatchDate(s)
  {
    forall j ensures DateAt(Upper(s), j) <==> DateAt(s, j) {
      DateAtUpper(s, j);
    }
    match FindDateFrom(s, 0)
    case Some(i) =>
      DateAtUpper(s, i);
      assert IsLeftmostDate(Upper(s), i);
    case None =>
  }

  /** A date never spans a space: a window holding a space is not date-shaped. */
  lemma NoDateAcrossSpace(x: string, w: string)
    requires forall j :: !DateAt(x, j)
    requires forall j :: !DateAt(w, j)
    ensures forall j :: !DateAt(x + " " + w, j)
  {
    var s := x + " " + w;
    forall j | 0 <= j && j + DateLength <= |s|
      ensures !DateAt(s, j)
    {
      if j + DateLength <= |x| {
        assert s[j..j + DateLength] == x[j..j + DateLength];
        assert !DateAt(x, j);
      } else if j > |x| {
        assert s[j..j + DateLength] == w[j - |x| - 1..j - |x| - 1 + DateLength];
        assert !DateAt(w, j - |x| - 1);
      } else {
        assert s[|x|] == ' ';
        assert s[j..j + DateLength][|x| - j] == ' ';
      }
    }
  }

  /** A date written as the word after a date-free text is the leftmost date of the whole. */
  lemma DateAfterSpace(x: string, w: string)
    requires forall j :: !DateAt(x, j)
    requires IsDateShape(w)
    ensures IsLeftmostDate(x + " " + w, |x| + 1)
    ensures MatchDate(x + " " + w) == Some(w)
  {
    var s := x + " " + w;
    assert s[|x| + 1..|x| + 1 + DateLength] == w;
    forall j | 0 <= j < |x| + 1 && j + DateLength <= |s|
      ensures !DateAt(s, j)
    {
      if j + DateLength <= |x| {
        assert s[j..j + DateLength] == x[j..j + DateLength];
        assert !DateAt(x, j);
      } else {
        assert s[|x|] == ' ';
        assert s[j..j + DateLength][|x| - j] == ' ';
      }
    }
  }
}
