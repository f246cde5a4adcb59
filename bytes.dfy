/** Bytes as the source sees them: `u8` values, and the MIDI notion of a data byte. */
module Bytes {
  import opened Wrappers

  /** An unsigned 8-bit value. */
  type byte = x: int | 0 <= x < 0x100

  /** One more than the largest `u32`. */
  const U32_LIMIT: nat := 0x1_0000_0000
  const U32_MAX: nat := 0xFFFF_FFFF

  /** A MIDI data byte has bit 7 clear. */
  predicate IsDataByte(b: byte) {
    b <= 0x7F
  }

  /** Every byte of `s` is a MIDI data byte. */
  predicate AllData(s: seq<byte>) {
    forall i :: 0 <= i < |s| ==> IsDataByte(s[i])
  }

  lemma AllDataAppend(a: seq<byte>, b: seq<byte>)
    requires AllData(a) && AllData(b)
    ensures AllData(a + b)
  {
    forall i | 0 <= i < |a + b|
      ensures IsDataByte((a + b)[i])
    {
      if i < |a| { assert (a + b)[i] == a[i]; } else { assert (a + b)[i] == b[i - |a|]; }
    }
  }

  /** The upper-case hexadecimal digit for `n`, as `{:X}` prints it. */
  function HexDigit(n: nat): (c: char)
    requires n < 16
    ensures '0' <= c <= '9' || 'A' <= c <= 'F'
  {
    if n < 10 then '0' + n as char else 'A' + (n - 10) as char
  }

  /** A byte as two upper-case hexadecimal digits, as `{:02X}` prints it. */
  function Hex2(b: byte): (s: string)
    ensures |s| == 2
  {
    [HexDigit(b / 16), HexDigit(b % 16)]
  }

  /** An ASCII hexadecimal digit of either case, as `is_ascii_hexdigit` accepts. */
  predicate IsHexDigitChar(c: char) {
    '0' <= c <= '9' || 'a' <= c <= 'f' || 'A' <= c <= 'F'
  }

  /** The value of a hexadecimal digit. */
  function HexDigitValue(c: char): (n: nat)
    requires IsHexDigitChar(c)
    ensures n < 16
  {
    if '0' <= c <= '9' then c as int - '0' as int
    else if 'a' <= c <= 'f' then c as int - 'a' as int + 10
    else c as int - 'A' as int + 10
  }

  /** Two hexadecimal digits read as a byte, as `u8::from_str_radix(_, 16)`
    * reads a token known to be two digits; anything else is not a byte. */
  function ParseHex2(s: string): (r: Option<byte>)
    ensures r.Some? <==> |s| == 2 && IsHexDigitChar(s[0]) && IsHexDigitChar(s[1])
    ensures r.Some? ==> r.value / 16 == HexDigitValue(s[0]) && r.value % 16 == HexDigitValue(s[1])
  {
    if |s| == 2 && IsHexDigitChar(s[0]) && IsHexDigitChar(s[1]) then
      Some(HexDigitValue(s[0]) * 16 + HexDigitValue(s[1]))
    else None
  }

  /** Reading back what `Hex2` prints gives the byte. */
  lemma ParseHex2RoundTrip(b: byte)
    ensures ParseHex2(Hex2(b)) == Some(b)
  {
    var s := Hex2(b);
    assert HexDigitValue(s[0]) == b / 16;
    assert HexDigitValue(s[1]) == b % 16;
  }

  /** `2^k`. */
  function Pow2(k: nat): (p: nat)
    ensures p >= 1
  {
    if k == 0 then 1 else 2 * Pow2(k - 1)
  }

  /** Bitwise OR of two naturals, bit by bit from the lowest. */
  function BitOr(a: nat, b: nat): nat
    decreases a + b
  {
    if a == 0 then b
    else if b == 0 then a
    else 2 * BitOr(a / 2, b / 2) + (if a % 2 == 1 || b % 2 == 1 then 1 else 0)
  }

  /** OR of two values below `2^k` stays below `2^k`. */
  lemma {:induction false} BitOrBelow(a: nat, b: nat, k: nat)
    requires a < Pow2(k) && b < Pow2(k)
    ensures BitOr(a, b) < Pow2(k)
    decreases a + b
  {
    if a != 0 && b != 0 {
      BitOrBelow(a / 2, b / 2, k - 1);
    }
  }

  /** OR with a value whose low `k` bits are clear is addition. */
  lemma {:induction false} BitOrDisjoint(a: nat, c: nat, k: nat)
    ensures a < Pow2(k) ==> BitOr(a, c * Pow2(k)) == a + c * Pow2(k)
  {
    if a < Pow2(k) && a != 0 && c != 0 {
      var h := c * Pow2(k - 1);
      assert c * Pow2(k) == 2 * h;
      BitOrDisjoint(a / 2, c, k - 1);
    }
  }
}
