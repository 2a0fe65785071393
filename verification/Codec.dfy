/** The store and extract helpers, and the values they lay out. */
module Codec {
  import opened Bytes
  import opened Protocol

  function Zeros(n: nat): (bs: seq<byte>)
    ensures |bs| == n
  {
    seq(n, (i: nat) => 0)
  }

  // ---------------------------------------------------------------- the buffer

  class Writer {
    var buffer: seq<byte>
    var offset: nat

    constructor ()
      ensures buffer == [] && offset == 0
    {
      buffer, offset := [], 0;
    }

    /** Grows the buffer by the value's size and copies the value to the offset. */
    method StoreValue(value: seq<byte>)
      requires offset <= |buffer|
      modifies this
      ensures |buffer| == old(|buffer|) + |value| && offset == old(offset) + |value|
      ensures buffer[old(offset)..offset] == value && buffer[..old(offset)] == old(buffer[..offset])
      ensures buffer[offset..] == (old(buffer) + Zeros(|value|))[offset..]
      ensures old(offset) == old(|buffer|) ==> buffer == old(buffer) + value && offset == |buffer|
    {
      var grown := buffer + Zeros(|value|);
      buffer := grown[..offset] + value + grown[offset + |value|..];
      offset := offset + |value|;
    }
  }

  class Reader {
    const data: seq<byte>
    var offset: nat

    constructor (data: seq<byte>)
      ensures this.data == data && offset == 0
    {
      this.data, offset := data, 0;
    }

    /** The bytes not yet extracted. */
    function Rest(): seq<byte>
      requires offset <= |data|
      reads this
    {
      data[offset..]
    }

    method ExtractValue(n: nat) returns (value: seq<byte>)
      requires offset <= |data| && n <= |Rest()|
      modifies this
      ensures offset == old(offset) + n <= |data|
      ensures value == old(Rest())[..n] && Rest() == old(Rest())[n..]
    {
      value := data[offset..offset + n];
      offset := offset + n;
    }
  }

  // ---------------------------------------------------------------- integers and coordinates

  predicate Int16(n: int) { -0x8000 <= n < 0x8000 }

  predicate Int32(n: int) { -0x8000_0000 <= n < 0x8000_0000 }

  predicate Coord32(c: Coordinate) { Int32(c.x) && Int32(c.y) }

  function CoordBytes(c: Coordinate): (bs: seq<byte>)
    ensures |bs| == 8
  {
    ToBytes(c.x, 4) + ToBytes(c.y, 4)
  }

  function BytesCoord(bs: seq<byte>): Coordinate
    requires |bs| == 8
  {
    Coordinate(Signed(bs[..4]), Signed(bs[4..]))
  }

  lemma IntRoundTrip(n: int)
    ensures Int16(n) ==> Signed(ToBytes(n, 2)) == n
    ensures Int32(n) ==> Signed(ToBytes(n, 4)) == n
  {
    assert Range(1) == 256 && Range(2) == 256 * Range(1) && Range(3) == 256 * Range(2) && Range(4) == 256 * Range(3);
    if Int16(n) {
      SignedRoundTrip(n, 2);
    }
    if Int32(n) {
      SignedRoundTrip(n, 4);
    }
  }

  lemma CoordRoundTrip(c: Coordinate)
    requires Coord32(c)
    ensures BytesCoord(CoordBytes(c)) == c
  {
    var bs := CoordBytes(c);
    assert bs[..4] == ToBytes(c.x, 4) && bs[4..] == ToBytes(c.y, 4);
    IntRoundTrip(c.x);
    IntRoundTrip(c.y);
  }

  function Flag(b: bool): byte { if b then 1 else 0 }
}
