/**
 * Textual encodings the backend produces from random draws: the 6-digit
 * email verification code (`Math.floor(100000 + Math.random() * 900000).toString()`)
 * and the hexadecimal password reset token (`crypto.randomBytes(20).toString("hex")`).
 */
module Codes {

  import opened Wrappers

  // ---------------------------------------------------------------------------
  // Decimal text of a natural number (Number.prototype.toString on an integer)
  // ---------------------------------------------------------------------------

  predicate IsDigit(c: char) { '0' <= c <= '9' }

  predicate AllDigits(s: string) { forall i :: 0 <= i < |s| ==> IsDigit(s[i]) }

  function DigitChar(d: nat): (c: char)
    requires d < 10
    ensures IsDigit(c)
  {
    ('0' as int + d) as char
  }

  function DigitValue(c: char): nat
    requires IsDigit(c)
  {
    c as int - '0' as int
  }

  function Pow10(k: nat): nat {
    if k == 0 then 1 else 10 * Pow10(k - 1)
  }

  /** Decimal representation without leading zeros. */
  function NatToDecimal(n: nat): (s: string)
    ensures |s| >= 1 && AllDigits(s)
    ensures n >= 10 ==> s[0] != '0'
    ensures n < 10 ==> s == [DigitChar(n)]
  {
    if n < 10 then [DigitChar(n)] else NatToDecimal(n / 10) + [DigitChar(n % 10)]
  }

  /** The number a string of decimal digits denotes (its inverse). */
  function DecimalValue(s: string): nat
    requires AllDigits(s)
  {
    if s == [] then 0 else 10 * DecimalValue(s[..|s| - 1]) + DigitValue(s[|s| - 1])
  }

  /** Reading back the decimal text gives the number. */
  lemma {:induction false} DecimalRoundTrip(n: nat)
    ensures DecimalValue(NatToDecimal(n)) == n
  {
    var s := NatToDecimal(n);
    if n >= 10 {
      DecimalRoundTrip(n / 10);
      assert s[..|s| - 1] == NatToDecimal(n / 10);
    }
  }

  /** A number with k digits (10^(k-1) <= n < 10^k) is written with exactly k characters. */
  lemma {:induction false} DecimalLength(n: nat, k: nat)
    requires k >= 1 && Pow10(k - 1) <= n < Pow10(k)
    ensures |NatToDecimal(n)| == k
  {
    if k == 1 {
      assert n < 10;
    } else {
      assert Pow10(k - 1) == 10 * Pow10(k - 2);
      assert n >= 10;
      assert Pow10(k - 2) <= n / 10 < Pow10(k - 1);
      DecimalLength(n / 10, k - 1);
    }
  }

  // ---------------------------------------------------------------------------
  // The 6-digit verification code
  // ---------------------------------------------------------------------------

  /** Six decimal digits, the first not zero: the decimal text of some integer in [100000, 999999]. */
  predicate IsSixDigitCode(s: string) {
    |s| == 6 && AllDigits(s) && s[0] != '0'
  }

  /**
   * The code signup and resend generate. `r` is the integer part of
   * `Math.random() * 900000`, so it lies in [0, 900000) and the code is the
   * decimal text of 100000 + r.
   */
  function VerificationCode(r: nat): (code: string)
    requires r < 900000
    ensures IsSixDigitCode(code)
    ensures DecimalValue(code) == 100000 + r
  {
    assert Pow10(5) == 100000 && Pow10(6) == 1000000;
    DecimalLength(100000 + r, 6);
    DecimalRoundTrip(100000 + r);
    NatToDecimal(100000 + r)
  }

  /** Different draws give different codes. */
  lemma VerificationCodeInjective(r1: nat, r2: nat)
    requires r1 < 900000 && r2 < 900000
    ensures VerificationCode(r1) == VerificationCode(r2) <==> r1 == r2
  {
  }

  // ---------------------------------------------------------------------------
  // Lower-case hexadecimal text of bytes (Buffer.toString("hex"))
  // ---------------------------------------------------------------------------

  newtype byte = x: int | 0 <= x < 256

  predicate IsLowerHex(c: char) { '0' <= c <= '9' || 'a' <= c <= 'f' }

  predicate AllLowerHex(s: string) { forall i :: 0 <= i < |s| ==> IsLowerHex(s[i]) }

  function HexChar(d: nat): (c: char)
    requires d < 16
    ensures IsLowerHex(c)
  {
    if d < 10 then ('0' as int + d) as char else ('a' as int + (d - 10)) as char
  }

  function HexValue(c: char): (d: nat)
    requires IsLowerHex(c)
    ensures d < 16
  {
    if c <= '9' then c as int - '0' as int else c as int - 'a' as int + 10
  }

  /** Two lower-case hex characters per byte, high nibble first. */
  function ToHex(bytes: seq<byte>): (s: string)
    ensures |s| == 2 * |bytes|
    ensures AllLowerHex(s)
  {
    if bytes == [] then ""
    else [HexChar(bytes[0] as int / 16), HexChar(bytes[0] as int % 16)] + ToHex(bytes[1..])
  }

  /** Parses lower-case hex text back into bytes; None for odd length or a non-hex character. */
  function FromHex(s: string): (r: Option<seq<byte>>)
    ensures r.Some? ==> 2 * |r.value| == |s|
  {
    if s == [] then Some([])
    else if |s| == 1 || !IsLowerHex(s[0]) || !IsLowerHex(s[1]) then None
    else
      match FromHex(s[2..])
      case None => None
      case Some(rest) => Some([(16 * HexValue(s[0]) + HexValue(s[1])) as byte] + rest)
  }

  /** The reset token is a faithful encoding of the random bytes: parsing it back recovers them. */
  lemma {:induction false} HexRoundTrip(bytes: seq<byte>)
    ensures FromHex(ToHex(bytes)) == Some(bytes)
  {
    if bytes != [] {
      var s := ToHex(bytes);
      var b := bytes[0] as int;
      assert s[2..] == ToHex(bytes[1..]);
      HexRoundTrip(bytes[1..]);
      assert HexValue(HexChar(b / 16)) == b / 16;
      assert HexValue(HexChar(b % 16)) == b % 16;
      assert (16 * (b / 16) + b % 16) as byte == bytes[0];
      assert [bytes[0]] + bytes[1..] == bytes;
    }
  }
}
