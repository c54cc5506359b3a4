/** Lowercase hexadecimal text of a byte string, as written by Node's
    `Hash.digest('hex')`, with its inverse. */
module Hex {

  /** An octet. */
  type byte = x: int | 0 <= x < 256

  /** One character of the lowercase hexadecimal alphabet `0-9a-f`. */
  predicate IsHexChar(c: char)
  {
    '0' <= c <= '9' || 'a' <= c <= 'f'
  }

  /** Every character of `s` is a lowercase hexadecimal digit. */
  predicate IsHexString(s: string)
  {
    forall i :: 0 <= i < |s| ==> IsHexChar(s[i])
  }

  /** The digit that stands for the nibble `n`. */
  function DigitChar(n: int): (c: char)
    requires 0 <= n < 16
    ensures IsHexChar(c)
  {
    if n < 10 then (48 + n) as char else (87 + n) as char
  }

  /** The nibble a digit stands for; the inverse of DigitChar. */
  function DigitValue(c: char): (n: int)
    requires IsHexChar(c)
    ensures 0 <= n < 16
    ensures DigitChar(n) == c
  {
    if c <= '9' then c as int - 48 else c as int - 87
  }

  /** Two digits per byte, high nibble first. */
  function HexEncode(b: seq<byte>): (h: string)
    ensures |h| == 2 * |b|
    ensures IsHexString(h)
  {
    if b == [] then []
    else [DigitChar(b[0] / 16), DigitChar(b[0] % 16)] + HexEncode(b[1..])
  }

  /** Reads back a byte per pair of digits. */
  function HexDecode(h: string): (b: seq<byte>)
    requires |h| % 2 == 0 && IsHexString(h)
    ensures |b| == |h| / 2
  {
    if h == [] then []
    else
      assert IsHexChar(h[0]) && IsHexChar(h[1]);
      [DigitValue(h[0]) * 16 + DigitValue(h[1])] + HexDecode(h[2..])
  }

  /** Decoding undoes encoding. */
  lemma {:induction false} DecodeEncode(b: seq<byte>)
    ensures HexDecode(HexEncode(b)) == b
  {
    if b != [] {
      var h := HexEncode(b);
      var d0, d1 := DigitChar(b[0] / 16), DigitChar(b[0] % 16);
      assert h == [d0, d1] + HexEncode(b[1..]);
      assert h[2..] == HexEncode(b[1..]);
      assert DigitValue(d0) == b[0] / 16 && DigitValue(d1) == b[0] % 16;
      DecodeEncode(b[1..]);
    }
  }

  /** Encoding undoes decoding: every even-length lowercase hexadecimal string
      is the encoding of exactly the bytes it decodes to. */
  lemma {:induction false} EncodeDecode(h: string)
    requires |h| % 2 == 0 && IsHexString(h)
    ensures HexEncode(HexDecode(h)) == h
  {
    if h != [] {
      assert IsHexChar(h[0]) && IsHexChar(h[1]);
      var v := DigitValue(h[0]) * 16 + DigitValue(h[1]);
      var b := HexDecode(h);
      assert b == [v] + HexDecode(h[2..]);
      assert b[1..] == HexDecode(h[2..]);
      assert v / 16 == DigitValue(h[0]) && v % 16 == DigitValue(h[1]);
      EncodeDecode(h[2..]);
      assert h == [h[0], h[1]] + h[2..];
    }
  }

  /** Equal hexadecimal text means equal bytes. */
  lemma HexEncodeInjective(a: seq<byte>, b: seq<byte>)
    ensures HexEncode(a) == HexEncode(b) <==> a == b
  {
    if HexEncode(a) == HexEncode(b) {
      DecodeEncode(a);
      DecodeEncode(b);
    }
  }
}
