/** Raw bytes, characters of one byte, and the little-endian integers that memcpy leaves in a buffer. */
module Bytes {
  newtype byte = n: int | 0 <= n < 256

  /** A C++ char: one byte wide. */
  type Char = c: char | c as int < 256 witness '\0'

  type Text = seq<Char>

  function CharByte(c: Char): byte {
    (c as int) as byte
  }

  function ByteChar(b: byte): Char {
    (b as int) as char
  }

  function TextBytes(s: Text): (bs: seq<byte>)
    ensures |bs| == |s|
  {
    seq(|s|, i requires 0 <= i < |s| => CharByte(s[i]))
  }

  function BytesText(bs: seq<byte>): (s: Text)
    ensures |s| == |bs|
  {
    seq(|bs|, i requires 0 <= i < |bs| => ByteChar(bs[i]))
  }

  lemma TextRoundTrip(s: Text)
    ensures BytesText(TextBytes(s)) == s
  {
    forall i | 0 <= i < |s| ensures BytesText(TextBytes(s))[i] == s[i] {
      assert ByteChar(CharByte(s[i])) == s[i];
    }
  }

  /** 256 to the power of the width: how many values fit in that many bytes. */
  function Range(width: nat): (n: int)
    ensures n >= 1
  {
    if width == 0 then 1 else 256 * Range(width - 1)
  }

  /** The two's complement little-endian bytes of n. */
  function ToBytes(n: int, width: nat): (bs: seq<byte>)
    ensures |bs| == width
    decreases width
  {
    if width == 0 then [] else [(n % 256) as byte] + ToBytes(n / 256, width - 1)
  }

  /** The lowest digit to the base 256 comes first. */
  lemma {:induction false} DigitAt(n: int, width: nat, i: nat)
    requires i < width
    ensures ToBytes(n, width)[i] as int == n / Range(i) % 256
    decreases i
  {
    if i > 0 {
      DigitAt(n / 256, width - 1, i - 1);
      DivideTwice(n, Range(i - 1));
    }
  }

  lemma DivideTwice(n: int, d: int)
    requires d >= 1
    ensures n / 256 / d == n / (256 * d)
  {
    var q, r := n / 256 / d, n / 256 % d;
    var low := n % 256;
    assert n == 256 * d * q + (256 * r + low);
    assert 256 * r + low <= 256 * (d - 1) + 255;
    QuotientIs(n, 256 * d, q, 256 * r + low);
  }

  lemma QuotientIs(n: int, d: int, q: int, r: int)
    requires 0 <= r < d && n == d * q + r
    ensures n / d == q
  {
    SmallMultiple(d, n / d - q, r - n % d);
  }

  lemma SmallMultiple(d: int, k: int, m: int)
    requires d >= 1 && m == d * k && -d < m < d
    ensures k == 0
  {
    if k >= 1 {
      ProductGrows(d, k - 1);
    } else if k <= -1 {
      ProductGrows(d, -k - 1);
    }
  }

  lemma ProductGrows(d: int, k: int)
    requires d >= 0 && k >= 0
    ensures d * k >= 0
  {
  }

  function Unsigned(bs: seq<byte>): (n: int)
    ensures 0 <= n < Range(|bs|)
  {
    if bs == [] then 0 else bs[0] as int + 256 * Unsigned(bs[1..])
  }

  function Signed(bs: seq<byte>): int {
    var n := Unsigned(bs);
    if 2 * n >= Range(|bs|) then n - Range(|bs|) else n
  }

  lemma UnsignedCons(b: byte, bs: seq<byte>)
    ensures Unsigned([b] + bs) == b as int + 256 * Unsigned(bs)
  {
    assert ([b] + bs)[1..] == bs;
  }

  /** Reading back gives the value modulo the range, for either sign. */
  lemma {:induction false} UnsignedToBytes(n: int, width: nat)
    requires -Range(width) <= n < Range(width)
    ensures Unsigned(ToBytes(n, width)) == if n < 0 then n + Range(width) else n
    decreases width
  {
    if width > 0 {
      var low, rest := n % 256, ToBytes(n / 256, width - 1);
      UnsignedCons(low as byte, rest);
      UnsignedToBytes(n / 256, width - 1);
    }
  }

  /** Every integer in the two's complement range of the width survives the trip. */
  lemma SignedRoundTrip(n: int, width: nat)
    requires -Range(width) <= 2 * n < Range(width)
    ensures Signed(ToBytes(n, width)) == n
  {
    UnsignedToBytes(n, width);
  }
}
