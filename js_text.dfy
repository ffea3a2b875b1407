/**
 * The two pieces of JavaScript string behaviour the review widget relies on:
 * String.prototype.trim, and the decimal rendering of a positive integer in a
 * template literal.
 */
module JsText {

  /**
   * The characters trim removes: ECMAScript's WhiteSpace (tab, vertical tab,
   * form feed, space, no-break space, zero-width no-break space and the Unicode
   * space separators) and LineTerminator (LF, CR, U+2028, U+2029).
   */
  predicate IsWhiteSpace(c: char)
  {
    || c == '\t' || c == '\n' || c == '\U{B}' || c == '\U{C}' || c == '\r' || c == ' '
    || c == '\U{A0}' || c == '\U{1680}' || ('\U{2000}' <= c <= '\U{200A}')
    || c == '\U{2028}' || c == '\U{2029}' || c == '\U{202F}' || c == '\U{205F}'
    || c == '\U{3000}' || c == '\U{FEFF}'
  }

  /** Drops leading white space. */
  function TrimStart(s: string): string
    decreases |s|
  {
    if s != [] && IsWhiteSpace(s[0]) then TrimStart(s[1..]) else s
  }

  /** Drops trailing white space. */
  function TrimEnd(s: string): string
    decreases |s|
  {
    if s != [] && IsWhiteSpace(s[|s| - 1]) then TrimEnd(s[..|s| - 1]) else s
  }

  /** String.prototype.trim. */
  function Trim(s: string): string
  {
    TrimEnd(TrimStart(s))
  }

  /** TrimStart removes exactly the maximal run of white space at the front. */
  lemma {:induction false} TrimStartCut(s: string) returns (i: nat)
    ensures i <= |s| && TrimStart(s) == s[i..]
    ensures forall k :: 0 <= k < i ==> IsWhiteSpace(s[k])
    ensures i < |s| ==> !IsWhiteSpace(s[i])
  {
    if s != [] && IsWhiteSpace(s[0]) {
      var j := TrimStartCut(s[1..]);
      i := j + 1;
      assert s[1..][j..] == s[i..];
      forall k | 0 < k < i
        ensures IsWhiteSpace(s[k])
      {
        assert s[k] == s[1..][k - 1];
      }
    } else {
      i := 0;
    }
  }

  /** TrimEnd removes exactly the maximal run of white space at the back. */
  lemma {:induction false} TrimEndCut(s: string) returns (j: nat)
    ensures j <= |s| && TrimEnd(s) == s[..j]
    ensures forall k :: j <= k < |s| ==> IsWhiteSpace(s[k])
    ensures 0 < j ==> !IsWhiteSpace(s[j - 1])
  {
    if s != [] && IsWhiteSpace(s[|s| - 1]) {
      var front := s[..|s| - 1];
      j := TrimEndCut(front);
      assert front[..j] == s[..j];
      forall k | j <= k < |s|
        ensures IsWhiteSpace(s[k])
      {
        if k < |s| - 1 {
          assert s[k] == front[k];
        }
      }
    } else {
      j := |s|;
    }
  }

  /**
   * trim yields the slice s[i..j] where everything before i and from j on is
   * white space, and the slice, when not empty, neither starts nor ends with
   * white space.
   */
  lemma TrimCut(s: string) returns (i: nat, j: nat)
    ensures i <= j <= |s| && Trim(s) == s[i..j]
    ensures forall k :: 0 <= k < i ==> IsWhiteSpace(s[k])
    ensures forall k :: j <= k < |s| ==> IsWhiteSpace(s[k])
    ensures i < j ==> !IsWhiteSpace(s[i]) && !IsWhiteSpace(s[j - 1])
  {
    i := TrimStartCut(s);
    var t := s[i..];
    var m := TrimEndCut(t);
    j := i + m;
    assert t[..m] == s[i..j];
    forall k | j <= k < |s|
      ensures IsWhiteSpace(s[k])
    {
      assert s[k] == t[k - i];
    }
  }

  /** All characters of `s` are white space (so `s.trim()` is falsy). */
  predicate IsBlank(s: string)
  {
    forall k :: 0 <= k < |s| ==> IsWhiteSpace(s[k])
  }

  /** trim yields the empty string exactly when the input is all white space. */
  lemma TrimEmptyIffBlank(s: string)
    ensures Trim(s) == [] <==> IsBlank(s)
  {
    var i, j := TrimCut(s);
  }

  /** Trimming twice is trimming once. */
  lemma TrimIdempotent(s: string)
    ensures Trim(Trim(s)) == Trim(s)
  {
    var i, j := TrimCut(s);
    var t := s[i..j];
    if t != [] {
      assert t[0] == s[i] && t[|t| - 1] == s[j - 1];
      assert TrimStart(t) == t;
      assert TrimEnd(t) == t;
    }
  }

  predicate IsDigit(c: char)
  {
    '0' <= c <= '9'
  }

  predicate AllDigits(s: string)
  {
    forall k :: 0 <= k < |s| ==> IsDigit(s[k])
  }

  /** The character for a decimal digit. */
  function DigitChar(d: nat): char
    requires d < 10
  {
    ('0' as int + d) as char
  }

  /**
   * The plain decimal rendering of a natural number. A template literal
   * produces this for n < 10^21 only; from there on JavaScript uses exponent form.
   */
  function NatToDecimal(n: nat): string
    decreases n
  {
    if n < 10 then [DigitChar(n)] else NatToDecimal(n / 10) + [DigitChar(n % 10)]
  }

  /** The number a string of decimal digits denotes. */
  function DecimalValue(s: string): nat
    requires AllDigits(s)
    decreases |s|
  {
    if s == [] then 0 else DecimalValue(s[..|s| - 1]) * 10 + (s[|s| - 1] as int - '0' as int)
  }

  /**
   * The rendering is a non-empty digit string with no leading zero (unless the
   * number is 0) that reads back as the number.
   */
  lemma {:induction false} DecimalRoundTrip(n: nat)
    ensures |NatToDecimal(n)| > 0 && AllDigits(NatToDecimal(n))
    ensures DecimalValue(NatToDecimal(n)) == n
    ensures n > 0 ==> NatToDecimal(n)[0] != '0'
  {
    if n >= 10 {
      DecimalRoundTrip(n / 10);
      var front := NatToDecimal(n / 10);
      var s := front + [DigitChar(n % 10)];
      assert s[..|s| - 1] == front;
    }
  }
}
