/**
 * `isNaN` applied to a string: `Number(s)` is NaN exactly when `s`, with its
 * surrounding white space removed, is neither empty nor a StringNumericLiteral
 * in the sense of section 7.1.4.1.1 (StringToNumber) of ECMA-262. Only whether the
 * result is NaN is modelled, not the number itself.
 */
module JsNumber {
  import opened JsString

  /** StrWhiteSpaceChar: the WhiteSpace and LineTerminator code points of ECMA-262. */
  predicate IsStrWhiteSpace(c: char) {
    || c == '\t' || c == '\n' || c == '\U{000B}' || c == '\U{000C}' || c == '\r'
    || c == ' ' || c == '\U{00A0}' || c == '\U{1680}' || '\U{2000}' <= c <= '\U{200A}'
    || c == '\U{2028}' || c == '\U{2029}' || c == '\U{202F}' || c == '\U{205F}'
    || c == '\U{3000}' || c == '\U{FEFF}'
  }

  /** `s` with its leading white space removed. */
  function TrimStart(s: string): (r: string)
    ensures |r| <= |s| && r == s[|s| - |r|..]
    ensures forall i :: 0 <= i < |s| - |r| ==> IsStrWhiteSpace(s[i])
    ensures r != [] ==> !IsStrWhiteSpace(r[0])
    decreases |s|
  {
    if s != [] && IsStrWhiteSpace(s[0]) then TrimStart(s[1..]) else s
  }

  /** `s` with its trailing white space removed. */
  function TrimEnd(s: string): (r: string)
    ensures |r| <= |s| && r == s[..|r|]
    ensures forall i :: |r| <= i < |s| ==> IsStrWhiteSpace(s[i])
    ensures r != [] ==> !IsStrWhiteSpace(r[|r| - 1])
    decreases |s|
  {
    if s != [] && IsStrWhiteSpace(s[|s| - 1]) then TrimEnd(s[..|s| - 1]) else s
  }

  /** The end of the run of decimal digits that starts at `i`. */
  function DigitsEnd(s: string, i: nat): (j: nat)
    requires i <= |s|
    ensures i <= j <= |s|
    ensures forall k :: i <= k < j ==> IsDecimalDigit(s[k])
    ensures j < |s| ==> !IsDecimalDigit(s[j])
    decreases |s| - i
  {
    if i < |s| && IsDecimalDigit(s[i]) then DigitsEnd(s, i + 1) else i
  }

  /** ExponentPart: `e` or `E`, an optional sign, then at least one digit. */
  predicate IsExponentPart(s: string) {
    && |s| >= 2
    && (s[0] == 'e' || s[0] == 'E')
    && var start := if s[1] == '+' || s[1] == '-' then 2 else 1;
    && start < |s|
    && forall k :: start <= k < |s| ==> IsDecimalDigit(s[k])
  }

  /**
   * StrUnsignedDecimalLiteral: `Infinity`, or digits with an optional fraction
   * (`1.`, `.5`, `1.5`, but not `.`) followed by an optional exponent.
   */
  predicate IsUnsignedDecimalLiteral(s: string) {
    || s == "Infinity"
    || var intEnd := DigitsEnd(s, 0);
       if intEnd < |s| && s[intEnd] == '.' then
         var fracEnd := DigitsEnd(s, intEnd + 1);
         && (intEnd > 0 || fracEnd > intEnd + 1)
         && (fracEnd == |s| || IsExponentPart(s[fracEnd..]))
       else
         && intEnd > 0
         && (intEnd == |s| || IsExponentPart(s[intEnd..]))
  }

  /** StrDecimalLiteral: an unsigned decimal literal with an optional `+` or `-`. */
  predicate IsDecimalLiteral(s: string) {
    if s != [] && (s[0] == '+' || s[0] == '-') then IsUnsignedDecimalLiteral(s[1..])
    else IsUnsignedDecimalLiteral(s)
  }

  predicate IsHexDigit(c: char) {
    IsDecimalDigit(c) || 'a' <= c <= 'f' || 'A' <= c <= 'F'
  }

  /** NonDecimalIntegerLiteral: `0x`/`0X` hex, `0o`/`0O` octal or `0b`/`0B` binary digits, unsigned. */
  predicate IsNonDecimalIntegerLiteral(s: string) {
    && |s| > 2
    && s[0] == '0'
    && if s[1] == 'x' || s[1] == 'X' then forall k :: 2 <= k < |s| ==> IsHexDigit(s[k])
       else if s[1] == 'o' || s[1] == 'O' then forall k :: 2 <= k < |s| ==> '0' <= s[k] <= '7'
       else if s[1] == 'b' || s[1] == 'B' then forall k :: 2 <= k < |s| ==> s[k] == '0' || s[k] == '1'
       else false
  }

  /**
   * `!isNaN(s)` for a string `s`: trimmed of white space, `s` is empty (which converts
   * to 0) or a decimal or non-decimal numeric literal.
   */
  predicate IsNumeric(s: string) {
    var t := TrimEnd(TrimStart(s));
    t == [] || IsDecimalLiteral(t) || IsNonDecimalIntegerLiteral(t)
  }

  /** A non-empty run of decimal digits. */
  predicate IsDecimalDigits(s: string) {
    s != [] && forall k :: 0 <= k < |s| ==> IsDecimalDigit(s[k])
  }

  /** Every non-empty string of decimal digits is numeric. */
  lemma {:induction false} DecimalDigitsAreNumeric(s: string)
    requires IsDecimalDigits(s)
    ensures IsNumeric(s)
  {
    assert TrimStart(s) == s by {
      assert !IsStrWhiteSpace(s[0]);
    }
    assert TrimEnd(s) == s by {
      assert !IsStrWhiteSpace(s[|s| - 1]);
    }
    DigitsRunToEnd(s, 0);
    assert IsUnsignedDecimalLiteral(s);
  }

  lemma {:induction false} DigitsRunToEnd(s: string, i: nat)
    requires i <= |s|
    requires forall k :: i <= k < |s| ==> IsDecimalDigit(s[k])
    ensures DigitsEnd(s, i) == |s|
    decreases |s| - i
  {
    if i < |s| {
      DigitsRunToEnd(s, i + 1);
    }
  }

  /**
   * A word that starts with a letter and contains no lower-case letter is never
   * numeric: the only literal that starts with a letter is `Infinity`, and it is
   * not upper case. So an airport code or any other upper-cased word is NaN.
   */
  lemma UpperCaseWordIsNaN(s: string)
    requires s != [] && 'A' <= s[0] <= 'Z'
    requires IsUpperCase(s)
    ensures !IsNumeric(s)
  {
    var t := TrimEnd(TrimStart(s));
    assert TrimStart(s) == s;
    assert t != [] && t[0] == s[0] by {
      assert !IsStrWhiteSpace(s[0]);
    }
    assert t != "Infinity" by {
      assert |t| <= |s| && t == s[..|t|];
      if |t| >= 2 { assert t[1] == s[1]; }
    }
    assert DigitsEnd(t, 0) == 0;
    assert !IsDecimalLiteral(t);
  }
}
