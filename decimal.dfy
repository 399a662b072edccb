/**
 * Decimal text of 32-bit integers, as the server and the client use it:
 * `Int32.ToString()` to encode a coin count and `int.Parse` to decode one.
 * Both are taken with the invariant culture: '-' is the negative sign and
 * digits are '0'..'9'.
 */
module Decimal {
  import opened Outcomes

  predicate IsDigit(c: char) {
    '0' <= c <= '9'
  }

  /**
   * The white space `int.Parse` skips at either end of its input under
   * `NumberStyles.Integer`: U+0009..U+000D and U+0020.
   */
  predicate IsWhite(c: char) {
    c == ' ' || '\t' <= c <= '\r'
  }

  /** A character `int.Parse` can accept somewhere in its input. */
  predicate IsNumeric(c: char) {
    IsDigit(c) || IsWhite(c) || c == '-' || c == '+'
  }

  predicate AllDigits(s: string) {
    forall i :: 0 <= i < |s| ==> IsDigit(s[i])
  }

  function DigitChar(d: nat): (c: char)
    requires d < 10
    ensures IsDigit(c) && DigitValue(c) == d
  {
    ('0' as int + d) as char
  }

  function DigitValue(c: char): (d: nat)
    requires IsDigit(c)
    ensures d < 10
  {
    c as int - '0' as int
  }

  /** The shortest decimal numeral of `n`: no sign, no leading zero. */
  function NatToDigits(n: nat): (s: string)
    ensures 1 <= |s| && AllDigits(s)
    ensures s[0] == '0' <==> n == 0
    decreases n
  {
    if n < 10 then [DigitChar(n)] else NatToDigits(n / 10) + [DigitChar(n % 10)]
  }

  /** The value of a string of decimal digits, most significant first. */
  function DigitsToNat(s: string): nat
    requires AllDigits(s)
  {
    if s == [] then 0 else 10 * DigitsToNat(s[..|s| - 1]) + DigitValue(s[|s| - 1])
  }

  lemma {:induction false} DigitsToNatOfNatToDigits(n: nat)
    ensures DigitsToNat(NatToDigits(n)) == n
    decreases n
  {
    if n >= 10 {
      var s := NatToDigits(n);
      assert s[..|s| - 1] == NatToDigits(n / 10);
      DigitsToNatOfNatToDigits(n / 10);
    }
  }

  /** `Int32.ToString()`: a '-' before the digits of a negative value. */
  function Int32ToString(n: Int32): (s: string)
    ensures s != [] && (s[0] == '-' <==> n < 0)
    ensures AllDigits(if n < 0 then s[1..] else s)
  {
    if n < 0 then "-" + NatToDigits(-(n as int)) else NatToDigits(n)
  }

  /** The number of white-space characters `s` starts with. */
  function LeadingWhite(s: string): (k: nat)
    ensures k <= |s|
    ensures forall i :: 0 <= i < k ==> IsWhite(s[i])
    ensures k < |s| ==> !IsWhite(s[k])
  {
    if s != [] && IsWhite(s[0]) then 1 + LeadingWhite(s[1..]) else 0
  }

  /** The number of white-space characters `s` ends with. */
  function TrailingWhite(s: string): (k: nat)
    ensures k <= |s|
    ensures forall i :: |s| - k <= i < |s| ==> IsWhite(s[i])
    ensures k < |s| ==> !IsWhite(s[|s| - 1 - k])
  {
    if s != [] && IsWhite(s[|s| - 1]) then 1 + TrailingWhite(s[..|s| - 1]) else 0
  }

  /** `s` without the white space at either end, as `int.Parse` sees it. */
  function Trim(s: string): (t: string)
    ensures |t| <= |s|
  {
    var u := s[LeadingWhite(s)..];
    u[..|u| - TrailingWhite(u)]
  }

  /**
   * `int.Parse(s)`: optional white space, at most one sign, at least one
   * digit, optional white space, and a value that fits in an `int`. Anything
   * else makes it throw (`FormatException`, `OverflowException`): `None`.
   */
  function ParseInt32(s: string): (r: Option<Int32>)
    ensures r.Some? ==> forall i :: 0 <= i < |s| ==> IsNumeric(s[i])
  {
    var t := Trim(s);
    if t == [] then None
    else
      var negative := t[0] == '-';
      var body := if t[0] == '-' || t[0] == '+' then t[1..] else t;
      if body == [] || !AllDigits(body) then None
      else
        var v: int := if negative then -(DigitsToNat(body) as int) else DigitsToNat(body);
        if Int32Min <= v <= Int32Max then
          ParsedCharsAreNumeric(s, t, body);
          Some(v)
        else None
  }

  /** Helper for the contract of ParseInt32: an optional sign followed by digits is numeric text. */
  lemma SignedDigitsAreNumeric(t: string, body: string)
    requires t != []
    requires body == (if t[0] == '-' || t[0] == '+' then t[1..] else t)
    requires AllDigits(body)
    ensures forall j :: 0 <= j < |t| ==> IsNumeric(t[j])
  {
    forall j | 0 <= j < |t|
      ensures IsNumeric(t[j])
    {
      if t[0] == '-' || t[0] == '+' {
        if j > 0 {
          assert t[j] == body[j - 1];
        }
      } else {
        assert t[j] == body[j];
      }
    }
  }

  /** Helper for the contract of ParseInt32: every character of an accepted input. */
  lemma ParsedCharsAreNumeric(s: string, t: string, body: string)
    requires t == Trim(s) && t != []
    requires body == (if t[0] == '-' || t[0] == '+' then t[1..] else t)
    requires AllDigits(body)
    ensures forall i :: 0 <= i < |s| ==> IsNumeric(s[i])
  {
    SignedDigitsAreNumeric(t, body);
    var k := LeadingWhite(s);
    var u := s[k..];
    assert t == u[..|u| - TrailingWhite(u)];
    forall i | 0 <= i < |s|
      ensures IsNumeric(s[i])
    {
      if i < k {
        assert IsWhite(s[i]);
      } else if i < k + |t| {
        assert s[i] == t[i - k];
      } else {
        assert s[i] == u[i - k];
      }
    }
  }

  /** Decoding the decimal text of an `int` gives that `int` back. */
  lemma ParseInt32OfInt32ToString(n: Int32)
    ensures ParseInt32(Int32ToString(n)) == Some(n)
  {
    var s := Int32ToString(n);
    assert LeadingWhite(s) == 0;
    assert TrailingWhite(s) == 0;
    assert Trim(s) == s;
    if n < 0 {
      var m: nat := -(n as int);
      assert s[1..] == NatToDigits(m);
      DigitsToNatOfNatToDigits(m);
      assert DigitsToNat(s[1..]) == m;
    } else {
      assert s == NatToDigits(n);
      DigitsToNatOfNatToDigits(n);
      assert DigitsToNat(s) == n;
    }
  }

  /** Two `int`s with the same decimal text are equal. */
  lemma Int32ToStringInjective(m: Int32, n: Int32)
    requires Int32ToString(m) == Int32ToString(n)
    ensures m == n
  {
    ParseInt32OfInt32ToString(m);
    ParseInt32OfInt32ToString(n);
  }
}
