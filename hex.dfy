/**
 * The `{:02x}` rendering of a byte value that names the object-store
 * subdirectories, and a decoder that is its inverse.
 */
module Hex {
  import opened Common

  /** A character `{:02x}` may produce: '0'..'9' or 'a'..'f' (lower case). */
  predicate IsLowerHexDigit(c: char) {
    ('0' <= c <= '9') || ('a' <= c <= 'f')
  }

  /** The lower-case hexadecimal digit for a value below 16. */
  function Digit(d: nat): (c: char)
    requires d < 16
    ensures IsLowerHexDigit(c)
  {
    if d < 10 then ('0' as int + d) as char else ('a' as int + d - 10) as char
  }

  /** The value of a lower-case hexadecimal digit, and None for any other character. */
  function DigitValue(c: char): (r: Option<nat>)
    ensures r.Some? <==> IsLowerHexDigit(c)
    ensures r.Some? ==> r.value < 16 && Digit(r.value) == c
  {
    if '0' <= c <= '9' then Some(c as int - '0' as int)
    else if 'a' <= c <= 'f' then Some(c as int - 'a' as int + 10)
    else None
  }

  /** `f"{n:02x}"` for 0 <= n < 256: always exactly two lower-case digits. */
  function Hex2(n: nat): (s: string)
    requires n < 256
    ensures |s| == 2 && IsLowerHexDigit(s[0]) && IsLowerHexDigit(s[1])
  {
    [Digit(n / 16), Digit(n % 16)]
  }

  /** Reads back two lower-case hexadecimal digits; None for anything else. */
  function ParseHex2(s: string): (r: Option<nat>)
    ensures r.Some? <==> |s| == 2 && IsLowerHexDigit(s[0]) && IsLowerHexDigit(s[1])
    ensures r.Some? ==> r.value < 256
  {
    if |s| != 2 then None
    else match (DigitValue(s[0]), DigitValue(s[1]))
      case (Some(hi), Some(lo)) => Some(16 * hi + lo)
      case _ => None
  }

  lemma DigitRoundTrip(d: nat)
    requires d < 16
    ensures DigitValue(Digit(d)) == Some(d)
  {
  }

  /** Decoding the rendering of n gives n back. */
  lemma {:induction false} Hex2RoundTrip(n: nat)
    requires n < 256
    ensures ParseHex2(Hex2(n)) == Some(n)
  {
    DigitRoundTrip(n / 16);
    DigitRoundTrip(n % 16);
  }

  /** Every string the decoder accepts is the rendering of what it decodes to. */
  lemma {:induction false} ParseHex2Canonical(s: string)
    requires ParseHex2(s).Some?
    ensures Hex2(ParseHex2(s).value) == s
  {
    var hi, lo := DigitValue(s[0]).value, DigitValue(s[1]).value;
    assert ParseHex2(s).value == 16 * hi + lo;
    assert (16 * hi + lo) / 16 == hi && (16 * hi + lo) % 16 == lo;
  }

  /** Distinct values have distinct renderings. */
  lemma {:induction false} Hex2Injective(m: nat, n: nat)
    requires m < 256 && n < 256
    requires Hex2(m) == Hex2(n)
    ensures m == n
  {
    Hex2RoundTrip(m);
    Hex2RoundTrip(n);
  }
}
