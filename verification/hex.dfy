/**
  Hexadecimal text of byte strings, as `Buffer.prototype.toString('hex')`
  writes it: two lower-case digits per byte, most significant nibble first.
 */
module Hex {
  import opened Wrappers

  newtype Byte = x: int | 0 <= x < 256

  predicate IsLowerHexDigit(c: char) {
    '0' <= c <= '9' || 'a' <= c <= 'f'
  }

  predicate IsHexDigit(c: char) {
    IsLowerHexDigit(c) || 'A' <= c <= 'F'
  }

  /** The value of a hexadecimal digit of either case. */
  function HexValue(c: char): (n: nat)
    requires IsHexDigit(c)
    ensures n < 16
  {
    if '0' <= c <= '9' then c as int - '0' as int
    else if 'a' <= c <= 'f' then c as int - 'a' as int + 10
    else c as int - 'A' as int + 10
  }

  function HexDigit(n: nat): (c: char)
    requires n < 16
    ensures IsLowerHexDigit(c) && HexValue(c) == n
  {
    if n < 10 then ('0' as int + n) as char else ('a' as int + n - 10) as char
  }

  predicate AllLowerHex(s: string) {
    forall i | 0 <= i < |s| :: IsLowerHexDigit(s[i])
  }

  function EncodeByte(b: Byte): (s: string)
    ensures |s| == 2 && AllLowerHex(s)
    ensures HexValue(s[0]) * 16 + HexValue(s[1]) == b as int
  {
    [HexDigit(b as int / 16), HexDigit(b as int % 16)]
  }

  /** The hex text of a byte string. */
  function Encode(bs: seq<Byte>): (s: string)
    ensures |s| == 2 * |bs|
    ensures AllLowerHex(s)
  {
    if |bs| == 0 then [] else EncodeByte(bs[0]) + Encode(bs[1..])
  }

  /** Reads hex text back into bytes; odd lengths and non-digits are rejected. */
  function Decode(s: string): Option<seq<Byte>>
    decreases |s|
  {
    if |s| == 0 then Some([])
    else if |s| == 1 || !IsHexDigit(s[0]) || !IsHexDigit(s[1]) then None
    else match Decode(s[2..])
      case None => None
      case Some(rest) => Some([(HexValue(s[0]) * 16 + HexValue(s[1])) as Byte] + rest)
  }

  /** Decoding undoes encoding. */
  lemma {:induction false} DecodeEncode(bs: seq<Byte>)
    ensures Decode(Encode(bs)) == Some(bs)
  {
    if |bs| > 0 {
      var s := Encode(bs);
      assert s[2..] == Encode(bs[1..]);
      assert s[..2] == EncodeByte(bs[0]);
      DecodeEncode(bs[1..]);
      assert [bs[0]] + bs[1..] == bs;
    }
  }

  /** Distinct byte strings have distinct hex texts. */
  lemma EncodeInjective(a: seq<Byte>, b: seq<Byte>)
    ensures Encode(a) == Encode(b) ==> a == b
  {
    DecodeEncode(a);
    DecodeEncode(b);
  }
}
