/**
 * Decimal and hexadecimal numerals as Python's `str(n)`, `int(s)` and
 * `int(b, 16)` produce and read them.
 */
module Numerals {
  import opened Wrappers

  predicate IsDigit(c: char) {
    '0' <= c <= '9'
  }

  /** A non-empty run of ASCII decimal digits. */
  predicate IsDigits(s: string) {
    |s| > 0 && forall i :: 0 <= i < |s| ==> IsDigit(s[i])
  }

  function DigitChar(d: nat): (c: char)
    requires d < 10
    ensures IsDigit(c) && c as int - '0' as int == d
  {
    ('0' as int + d) as char
  }

  /** Python's `str(n)` for a non-negative integer: decimal digits, no leading zero. */
  function NatToString(n: nat): (s: string)
    ensures IsDigits(s)
    ensures |s| > 1 ==> s[0] != '0'
    decreases n
  {
    if n < 10 then [DigitChar(n)] else NatToString(n / 10) + [DigitChar(n % 10)]
  }

  /** The value of a run of decimal digits, most significant first. */
  function DigitsValue(s: string): nat
    requires forall i :: 0 <= i < |s| ==> IsDigit(s[i])
    decreases |s|
  {
    if s == [] then 0
    else
      assert IsDigit(s[|s| - 1]);
      DigitsValue(s[..|s| - 1]) * 10 + (s[|s| - 1] as int - '0' as int)
  }

  function Pow(b: nat, k: nat): (p: nat)
    ensures p >= 1 || b == 0
  {
    if k == 0 then 1 else b * Pow(b, k - 1)
  }

  /**
   * Python's `int(s)` on a string: an optional sign followed by ASCII digits.
   * None stands for the ValueError that `int` raises.
   */
  function ParseInt(s: string): (r: Option<int>)
    ensures r.Some? <==> IsDigits(s) || (|s| > 1 && (s[0] == '+' || s[0] == '-') && IsDigits(s[1..]))
  {
    if |s| > 0 && (s[0] == '+' || s[0] == '-') then
      if IsDigits(s[1..]) then
        var magnitude: int := DigitsValue(s[1..]);
        Some(if s[0] == '-' then -magnitude else magnitude)
      else None
    else if IsDigits(s) then Some(DigitsValue(s))
    else None
  }

  /** Reading back what `str` printed gives the number that was printed. */
  lemma {:induction false} DigitsValueOfNatToString(n: nat)
    ensures DigitsValue(NatToString(n)) == n
    decreases n
  {
    if n >= 10 {
      var s := NatToString(n);
      assert s[..|s| - 1] == NatToString(n / 10);
      DigitsValueOfNatToString(n / 10);
    }
  }

  /** `int(str(n)) == n`. */
  lemma ParseIntOfNatToString(n: nat)
    ensures ParseInt(NatToString(n)) == Some(n)
  {
    DigitsValueOfNatToString(n);
  }

  /** A number below 10^k prints with at most k digits. */
  lemma {:induction false} NatToStringLength(n: nat, k: nat)
    requires k >= 1 && n < Pow(10, k)
    ensures |NatToString(n)| <= k
    decreases k
  {
    if n >= 10 {
      assert k >= 2;
      NatToStringLength(n / 10, k - 1);
    }
  }

  /** The ASCII codes `int(b, 16)` accepts for a single byte b. */
  predicate IsHexByte(b: int) {
    ('0' as int <= b <= '9' as int) || ('a' as int <= b <= 'f' as int) || ('A' as int <= b <= 'F' as int)
  }

  /** `int(b, 16)` of a single hexadecimal ASCII byte. */
  function HexValue(b: int): (v: int)
    requires IsHexByte(b)
    ensures 0 <= v < 16
  {
    if b <= '9' as int then b - '0' as int
    else if b <= 'F' as int then b - 'A' as int + 10
    else b - 'a' as int + 10
  }

  /** The upper-case ASCII hexadecimal digit of a nibble. */
  function HexDigitByte(v: int): (b: int)
    requires 0 <= v < 16
    ensures IsHexByte(b) && HexValue(b) == v
  {
    if v < 10 then '0' as int + v else 'A' as int + v - 10
  }

  /** Nibble values read as one hexadecimal number, most significant first. */
  function HexNumber(nibbles: seq<int>): (n: nat)
    requires forall i :: 0 <= i < |nibbles| ==> 0 <= nibbles[i] < 16
    ensures n < Pow(16, |nibbles|)
    decreases |nibbles|
  {
    if nibbles == [] then 0
    else HexNumber(nibbles[..|nibbles| - 1]) * 16 + nibbles[|nibbles| - 1]
  }

  /** Python's `a ^ b` on non-negative integers, bit by bit from the lowest. */
  function Xor(a: nat, b: nat): nat
    decreases a + b
  {
    if a == 0 then b
    else if b == 0 then a
    else 2 * Xor(a / 2, b / 2) + (a % 2 + b % 2) % 2
  }

  /** XOR of two numbers below 2^k stays below 2^k. */
  lemma {:induction false} XorBound(a: nat, b: nat, k: nat)
    requires a < Pow(2, k) && b < Pow(2, k)
    ensures Xor(a, b) < Pow(2, k)
    decreases k
  {
    if a != 0 && b != 0 {
      assert k >= 1;
      XorBound(a / 2, b / 2, k - 1);
    }
  }
}
