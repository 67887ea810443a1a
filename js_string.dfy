/**
 * The JavaScript string and array built-ins the flight search relies on:
 * `String.prototype.toUpperCase` (restricted to ASCII letters),
 * `String.prototype.split` with a one-character separator, and
 * `Array.prototype.indexOf`.
 */
module JsString {

  /** An ASCII lower-case letter. */
  predicate IsLower(c: char) {
    'a' <= c <= 'z'
  }

  /** An ASCII decimal digit: the class `\d` of a regular expression without the `u` flag. */
  predicate IsDecimalDigit(c: char) {
    '0' <= c <= '9'
  }

  /** The upper-case form of one character: `a`..`z` become `A`..`Z`, everything else is kept. */
  function UpperChar(c: char): (u: char)
    ensures !IsLower(u)
    ensures IsLower(c) ==> 'A' <= u <= 'Z' && u as int - 'A' as int == c as int - 'a' as int
    ensures !IsLower(c) ==> u == c
  {
    if IsLower(c) then (c as int - 'a' as int + 'A' as int) as char else c
  }

  /** A string with no lower-case letter left in it. */
  predicate IsUpperCase(s: string) {
    forall i :: 0 <= i < |s| ==> !IsLower(s[i])
  }

  /** `s.toUpperCase()`, for the ASCII letters. */
  function Upper(s: string): (r: string)
    ensures |r| == |s|
    ensures IsUpperCase(r)
    ensures forall i :: 0 <= i < |s| ==> r[i] == UpperChar(s[i])
  {
    seq(|s|, i requires 0 <= i < |s| => UpperChar(s[i]))
  }

  /** Upper-casing a string that has no lower-case letter changes nothing. */
  lemma UpperOfUpperCase(s: string)
    requires IsUpperCase(s)
    ensures Upper(s) == s
  {
    assert forall i :: 0 <= i < |s| ==> Upper(s)[i] == s[i];
  }

  /** Upper-casing is idempotent. */
  lemma UpperIdempotent(s: string)
    ensures Upper(Upper(s)) == Upper(s)
  {
    UpperOfUpperCase(Upper(s));
  }

  /** Upper-casing distributes over concatenation. */
  lemma UpperAppend(a: string, b: string)
    ensures Upper(a + b) == Upper(a) + Upper(b)
  {
    assert forall i :: 0 <= i < |a + b| ==> Upper(a + b)[i] == (Upper(a) + Upper(b))[i];
  }

  /**
   * `s.split(' ')`: the pieces of `s` between the single spaces. Two spaces in a row
   * give an empty piece, a leading or trailing space an empty first or last piece, and
   * the empty string one empty piece. Tabs and other white space do not separate.
   */
  function Split(s: string): (r: seq<string>)
    ensures |r| >= 1
    ensures forall k :: 0 <= k < |r| ==> ' ' !in r[k]
    decreases |s|
  {
    if s == [] then [""]
    else
      var rest := Split(s[1..]);
      if s[0] == ' ' then [""] + rest
      else [[s[0]] + rest[0]] + rest[1..]
  }

  /** `ts.join(' ')`: the inverse of `Split`. */
  function Join(ts: seq<string>): string
    requires |ts| >= 1
    decreases |ts|
  {
    if |ts| == 1 then ts[0] else ts[0] + " " + Join(ts[1..])
  }

  /** Splitting loses nothing: joining the pieces with single spaces gives back the string. */
  lemma {:induction false} JoinSplit(s: string)
    ensures Join(Split(s)) == s
    decreases |s|
  {
    if s != [] {
      var rest := Split(s[1..]);
      JoinSplit(s[1..]);
      if s[0] == ' ' {
        assert Split(s) == [""] + rest;
        assert Join(Split(s)) == "" + " " + Join(rest);
        assert s == [s[0]] + s[1..];
      } else if |rest| == 1 {
        assert Join(Split(s)) == [s[0]] + rest[0];
        assert s == [s[0]] + s[1..];
      } else {
        assert Join(rest) == rest[0] + " " + Join(rest[1..]);
        assert Join(Split(s)) == ([s[0]] + rest[0]) + " " + Join(rest[1..]);
        assert s == [s[0]] + s[1..];
      }
    }
  }

  /** Splitting a space-free piece followed by more text: the piece opens the first token. */
  lemma {:induction false} SplitAfterWord(t: string, s: string)
    requires ' ' !in t
    ensures Split(t + s) == [t + Split(s)[0]] + Split(s)[1..]
    decreases |t|
  {
    if t == [] {
      assert t + s == s;
      assert t + Split(s)[0] == Split(s)[0];
      assert [Split(s)[0]] + Split(s)[1..] == Split(s);
    } else {
      assert (t + s)[1..] == t[1..] + s;
      assert ' ' !in t[1..] by {
        assert forall c :: c in t[1..] ==> c in t;
      }
      SplitAfterWord(t[1..], s);
      assert [t[0]] + (t[1..] + Split(s)[0]) == t + Split(s)[0];
    }
  }

  /** Appending a space and a space-free word to a text appends that word to its tokens. */
  lemma {:induction false} SplitSnoc(x: string, w: string)
    requires ' ' !in w
    ensures Split(x + " " + w) == Split(x) + [w]
    decreases |x|
  {
    if x == [] {
      assert x + " " + w == [' '] + w;
      assert ([' '] + w)[1..] == w;
      SplitAfterWord(w, "");
      assert w + "" == w;
    } else {
      assert (x + " " + w)[1..] == x[1..] + " " + w;
      SplitSnoc(x[1..], w);
    }
  }

  /** Joining space-free tokens and splitting again gives back exactly the tokens. */
  lemma {:induction false} SplitJoin(ts: seq<string>)
    requires |ts| >= 1
    requires forall k :: 0 <= k < |ts| ==> ' ' !in ts[k]
    ensures Split(Join(ts)) == ts
    decreases |ts|
  {
    if |ts| == 1 {
      SplitAfterWord(ts[0], "");
      assert ts[0] + "" == ts[0];
    } else {
      SplitJoin(ts[1..]);
      var tail := " " + Join(ts[1..]);
      assert Split(tail) == [""] + ts[1..] by {
        assert tail[1..] == Join(ts[1..]);
      }
      SplitAfterWord(ts[0], tail);
      assert ts[0] + tail == Join(ts);
      assert ts[0] + "" == ts[0];
      assert [ts[0]] + ts[1..] == ts;
    }
  }

  /** Each token upper-cased. */
  function UpperAll(ts: seq<string>): (us: seq<string>)
    ensures |us| == |ts|
    ensures forall k :: 0 <= k < |ts| ==> us[k] == Upper(ts[k])
  {
    seq(|ts|, k requires 0 <= k < |ts| => Upper(ts[k]))
  }

  /**
   * Upper-casing keeps every space where it was, so splitting the upper-cased text
   * gives the upper-cased tokens of the original text.
   */
  lemma {:induction false} SplitUpper(s: string)
    ensures Split(Upper(s)) == UpperAll(Split(s))
    decreases |s|
  {
    if s != [] {
      SplitUpper(s[1..]);
      var rest := Split(s[1..]);
      assert Upper(s)[1..] == Upper(s[1..]);
      assert Upper(s)[0] == UpperChar(s[0]);
      if s[0] == ' ' {
        assert Split(Upper(s)) == [""] + UpperAll(rest);
        assert Upper("") == "";
        assert UpperAll([""] + rest) == [""] + UpperAll(rest);
      } else {
        assert Upper(s)[0] != ' ';
        UpperAppend([s[0]], rest[0]);
        assert Upper([s[0]]) == [UpperChar(s[0])];
        assert UpperAll([[s[0]] + rest[0]] + rest[1..]) == [Upper([s[0]] + rest[0])] + UpperAll(rest)[1..];
      }
    }
  }

  /** `i` is where `x` occurs first in `xs`. */
  predicate IsFirstIndex<T(==)>(xs: seq<T>, x: T, i: int) {
    0 <= i < |xs| && xs[i] == x && forall j :: 0 <= j < i ==> xs[j] != x
  }

  /** `xs.indexOf(x)`: the first position of `x`, or -1 when it does not occur. */
  function IndexOf<T(==)>(xs: seq<T>, x: T): (r: int)
    ensures r == -1 <==> x !in xs
    ensures r != -1 ==> IsFirstIndex(xs, x, r)
    decreases |xs|
  {
    if xs == [] then -1
    else if xs[0] == x then 0
    else
      var j := IndexOf(xs[1..], x);
      if j == -1 then -1 else j + 1
  }
}
