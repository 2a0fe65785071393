/** The binary form of the map: three counts and three lists of fixed-width records. */
module MapCodec {
  import opened Bytes
  import opened Protocol
  import opened Codec

  // ---------------------------------------------------------------- the records of a map

  datatype Location = Location(id: Char, coord: Coordinate)

  datatype Customer = Customer(
    id: Char, coord: Coordinate, destination: Char, onboard: bool, inQueue: bool, nextRequest: int)

  datatype Taxi = Taxi(
    id: int, coord: Coordinate, customer: Char, dest: Coordinate,
    connected: bool, ready: bool, stopped: bool, waitTime: int)

  const LOCATION_SIZE := 12
  const CUSTOMER_SIZE := 20
  const TAXI_SIZE := 32

  function LocationBytes(l: Location): (bs: seq<byte>)
    ensures |bs| == LOCATION_SIZE
  {
    [CharByte(l.id), 0, 0, 0] + CoordBytes(l.coord)
  }

  function BytesLocation(bs: seq<byte>): Location
    requires |bs| == LOCATION_SIZE
  {
    Location(ByteChar(bs[0]), BytesCoord(bs[4..]))
  }

  function CustomerBytes(c: Customer): (bs: seq<byte>)
    ensures |bs| == CUSTOMER_SIZE
  {
    [CharByte(c.id), 0, 0, 0] + CoordBytes(c.coord)
    + [CharByte(c.destination), Flag(c.onboard), Flag(c.inQueue), 0] + ToBytes(c.nextRequest, 4)
  }

  function BytesCustomer(bs: seq<byte>): Customer
    requires |bs| == CUSTOMER_SIZE
  {
    Customer(ByteChar(bs[0]), BytesCoord(bs[4..12]), ByteChar(bs[12]), bs[13] != 0, bs[14] != 0, Signed(bs[16..]))
  }

  function TaxiBytes(t: Taxi): (bs: seq<byte>)
    ensures |bs| == TAXI_SIZE
  {
    (ToBytes(t.id, 2) + [0, 0]) + CoordBytes(t.coord) + [CharByte(t.customer), 0, 0, 0] + CoordBytes(t.dest)
    + [Flag(t.connected), Flag(t.ready), Flag(t.stopped), 0] + ToBytes(t.waitTime, 4)
  }

  function BytesTaxi(bs: seq<byte>): Taxi
    requires |bs| == TAXI_SIZE
  {
    Taxi(Signed(bs[..2]), BytesCoord(bs[4..12]), ByteChar(bs[12]), BytesCoord(bs[16..24]),
         bs[24] != 0, bs[25] != 0, bs[26] != 0, Signed(bs[28..]))
  }

  lemma LocationRoundTrip(l: Location)
    requires Coord32(l.coord)
    ensures BytesLocation(LocationBytes(l)) == l
  {
    assert LocationBytes(l)[4..] == CoordBytes(l.coord);
    CoordRoundTrip(l.coord);
  }

  lemma CustomerRoundTrip(c: Customer)
    requires Coord32(c.coord) && Int32(c.nextRequest)
    ensures BytesCustomer(CustomerBytes(c)) == c
  {
    var bs := CustomerBytes(c);
    assert bs[4..12] == CoordBytes(c.coord) && bs[16..] == ToBytes(c.nextRequest, 4);
    CoordRoundTrip(c.coord);
    IntRoundTrip(c.nextRequest);
  }

  lemma SixParts(a: seq<byte>, b: seq<byte>, c: seq<byte>, d: seq<byte>, e: seq<byte>, f: seq<byte>)
    requires |a| == |c| == |e| == 4 && |b| == |d| == 8
    ensures var bs := a + b + c + d + e + f;
            bs[..4] == a && bs[4..12] == b && bs[12..16] == c && bs[16..24] == d && bs[24..28] == e && bs[28..] == f
  {
  }

  lemma TaxiRoundTrip(t: Taxi)
    requires Int16(t.id) && Coord32(t.coord) && Coord32(t.dest) && Int32(t.waitTime)
    ensures BytesTaxi(TaxiBytes(t)) == t
  {
    var bs := TaxiBytes(t);
    var a, b, c, d := ToBytes(t.id, 2) + [0, 0], CoordBytes(t.coord), [CharByte(t.customer), 0, 0, 0], CoordBytes(t.dest);
    var e, f := [Flag(t.connected), Flag(t.ready), Flag(t.stopped), 0], ToBytes(t.waitTime, 4);
    assert bs == a + b + c + d + e + f;
    SixParts(a, b, c, d, e, f);
    assert bs[..2] == a[..2] == ToBytes(t.id, 2);
    assert bs[12] == c[0] && bs[24] == e[0] && bs[25] == e[1] && bs[26] == e[2];
    CoordRoundTrip(t.coord);
    CoordRoundTrip(t.dest);
    IntRoundTrip(t.id);
    IntRoundTrip(t.waitTime);
  }

  // ---------------------------------------------------------------- lists of records of one width

  predicate Wide(chunks: seq<seq<byte>>, w: nat) { forall i :: 0 <= i < |chunks| ==> |chunks[i]| == w }

  function Flat(chunks: seq<seq<byte>>): seq<byte> {
    if chunks == [] then [] else chunks[0] + Flat(chunks[1..])
  }

  /** There are n chunks of width w. */
  predicate Enough(bs: seq<byte>, n: nat, w: nat)
    decreases n
  {
    n == 0 || (w <= |bs| && Enough(bs[w..], n - 1, w))
  }

  function Cut(bs: seq<byte>, n: nat, w: nat): (chunks: seq<seq<byte>>)
    requires Enough(bs, n, w)
    ensures |chunks| == n && Wide(chunks, w)
    decreases n
  {
    if n == 0 then [] else [bs[..w]] + Cut(bs[w..], n - 1, w)
  }

  /** What follows the n chunks. */
  function Beyond(bs: seq<byte>, n: nat, w: nat): seq<byte>
    requires Enough(bs, n, w)
    decreases n
  {
    if n == 0 then bs else Beyond(bs[w..], n - 1, w)
  }

  /** Cutting what was laid end to end gives the chunks back and stops behind them. */
  lemma {:induction false} CutFlat(chunks: seq<seq<byte>>, tail: seq<byte>, w: nat)
    requires Wide(chunks, w)
    ensures Enough(Flat(chunks) + tail, |chunks|, w)
    ensures Cut(Flat(chunks) + tail, |chunks|, w) == chunks
    ensures Beyond(Flat(chunks) + tail, |chunks|, w) == tail
  {
    var bs := Flat(chunks) + tail;
    if chunks == [] {
      assert bs == tail;
    } else {
      assert |chunks[0]| == w;
      assert bs[..w] == chunks[0] && bs[w..] == Flat(chunks[1..]) + tail;
      CutFlat(chunks[1..], tail, w);
    }
  }

  lemma {:induction false} FlatAppend(chunks: seq<seq<byte>>, c: seq<byte>)
    ensures Flat(chunks + [c]) == Flat(chunks) + c
  {
    if chunks == [] {
      assert [c][1..] == [] && c + [] == c;
    } else {
      assert (chunks + [c])[1..] == chunks[1..] + [c];
      FlatAppend(chunks[1..], c);
    }
  }

  lemma FlatExtends(start: seq<byte>, chunks: seq<seq<byte>>, i: nat)
    requires i < |chunks|
    ensures start + Flat(chunks[..i + 1]) == start + Flat(chunks[..i]) + chunks[i]
  {
    assert chunks[..i + 1] == chunks[..i] + [chunks[i]];
    FlatAppend(chunks[..i], chunks[i]);
  }

  function LocationChunks(ls: seq<Location>): (chunks: seq<seq<byte>>)
    ensures |chunks| == |ls| && Wide(chunks, LOCATION_SIZE)
  {
    seq(|ls|, i requires 0 <= i < |ls| => LocationBytes(ls[i]))
  }

  function CustomerChunks(cs: seq<Customer>): (chunks: seq<seq<byte>>)
    ensures |chunks| == |cs| && Wide(chunks, CUSTOMER_SIZE)
  {
    seq(|cs|, i requires 0 <= i < |cs| => CustomerBytes(cs[i]))
  }

  function TaxiChunks(ts: seq<Taxi>): (chunks: seq<seq<byte>>)
    ensures |chunks| == |ts| && Wide(chunks, TAXI_SIZE)
  {
    seq(|ts|, i requires 0 <= i < |ts| => TaxiBytes(ts[i]))
  }

  function ChunkLocations(chunks: seq<seq<byte>>): (ls: seq<Location>)
    requires Wide(chunks, LOCATION_SIZE)
    ensures |ls| == |chunks|
  {
    seq(|chunks|, i requires 0 <= i < |chunks| => BytesLocation(chunks[i]))
  }

  function ChunkCustomers(chunks: seq<seq<byte>>): (cs: seq<Customer>)
    requires Wide(chunks, CUSTOMER_SIZE)
    ensures |cs| == |chunks|
  {
    seq(|chunks|, i requires 0 <= i < |chunks| => BytesCustomer(chunks[i]))
  }

  function ChunkTaxis(chunks: seq<seq<byte>>): (ts: seq<Taxi>)
    requires Wide(chunks, TAXI_SIZE)
    ensures |ts| == |chunks|
  {
    seq(|chunks|, i requires 0 <= i < |chunks| => BytesTaxi(chunks[i]))
  }

  // ---------------------------------------------------------------- the map

  datatype Lists = Lists(locations: seq<Location>, customers: seq<Customer>, taxis: seq<Taxi>)

  /** The fields have the widths of the C++ types, and the sizes those of size_t. */
  predicate Representable(m: Lists) {
    && |m.locations| < Range(8) && |m.customers| < Range(8) && |m.taxis| < Range(8)
    && (forall l :: l in m.locations ==> Coord32(l.coord))
    && (forall c :: c in m.customers ==> Coord32(c.coord) && Int32(c.nextRequest))
    && (forall t :: t in m.taxis ==> Int16(t.id) && Coord32(t.coord) && Coord32(t.dest) && Int32(t.waitTime))
  }

  function MapHeader(m: Lists): (bs: seq<byte>)
    ensures |bs| == 24
  {
    ToBytes(|m.locations|, 8) + ToBytes(|m.customers|, 8) + ToBytes(|m.taxis|, 8)
  }

  function MapBytes(m: Lists): seq<byte> {
    MapHeader(m) + (Flat(LocationChunks(m.locations)) + (Flat(CustomerChunks(m.customers)) + Flat(TaxiChunks(m.taxis))))
  }

  datatype Counts = Counts(locations: nat, customers: nat, taxis: nat)

  function CountsOf(bs: seq<byte>): Counts
    requires |bs| >= 24
  {
    Counts(Unsigned(bs[..8]), Unsigned(bs[8..16]), Unsigned(bs[16..24]))
  }

  predicate HoldsRecords(bs: seq<byte>, n: Counts) {
    && Enough(bs, n.locations, LOCATION_SIZE)
    && var second := Beyond(bs, n.locations, LOCATION_SIZE);
    && Enough(second, n.customers, CUSTOMER_SIZE)
    && var third := Beyond(second, n.customers, CUSTOMER_SIZE);
    && Enough(third, n.taxis, TAXI_SIZE)
  }

  /** The buffer holds as many records as it announces; the reader does not check it. */
  predicate Readable(bs: seq<byte>) { |bs| >= 24 && HoldsRecords(bs[24..], CountsOf(bs)) }

  /** The three lists, and what follows them in the buffer. */
  function ReadRecords(bs: seq<byte>, n: Counts): (Lists, seq<byte>)
    requires HoldsRecords(bs, n)
  {
    var second := Beyond(bs, n.locations, LOCATION_SIZE);
    var third := Beyond(second, n.customers, CUSTOMER_SIZE);
    (Lists(ChunkLocations(Cut(bs, n.locations, LOCATION_SIZE)),
           ChunkCustomers(Cut(second, n.customers, CUSTOMER_SIZE)),
           ChunkTaxis(Cut(third, n.taxis, TAXI_SIZE))),
     Beyond(third, n.taxis, TAXI_SIZE))
  }

  function ReadMap(bs: seq<byte>): Lists
    requires Readable(bs)
  {
    ReadRecords(bs[24..], CountsOf(bs)).0
  }

  lemma HeaderParts(a: seq<byte>, b: seq<byte>, c: seq<byte>, rest: seq<byte>)
    requires |a| == |b| == |c| == 8
    ensures var bs := a + b + c + rest; bs[..8] == a && bs[8..16] == b && bs[16..24] == c && bs[24..] == rest
  {
  }

  lemma SizeRoundTrip(n: nat)
    requires n < Range(8)
    ensures Unsigned(ToBytes(n, 8)) == n
  {
    UnsignedToBytes(n, 8);
  }

  lemma SizesRoundTrip(m: Lists, rest: seq<byte>)
    requires Representable(m)
    ensures CountsOf(MapHeader(m) + rest) == Counts(|m.locations|, |m.customers|, |m.taxis|)
    ensures (MapHeader(m) + rest)[24..] == rest
  {
    HeaderParts(ToBytes(|m.locations|, 8), ToBytes(|m.customers|, 8), ToBytes(|m.taxis|, 8), rest);
    SizeRoundTrip(|m.locations|);
    SizeRoundTrip(|m.customers|);
    SizeRoundTrip(|m.taxis|);
  }

  lemma ChunksRoundTrip(m: Lists)
    requires Representable(m)
    ensures ChunkLocations(LocationChunks(m.locations)) == m.locations
    ensures ChunkCustomers(CustomerChunks(m.customers)) == m.customers
    ensures ChunkTaxis(TaxiChunks(m.taxis)) == m.taxis
  {
    forall i | 0 <= i < |m.locations| ensures ChunkLocations(LocationChunks(m.locations))[i] == m.locations[i] {
      LocationRoundTrip(m.locations[i]);
    }
    forall i | 0 <= i < |m.customers| ensures ChunkCustomers(CustomerChunks(m.customers))[i] == m.customers[i] {
      CustomerRoundTrip(m.customers[i]);
    }
    forall i | 0 <= i < |m.taxis| ensures ChunkTaxis(TaxiChunks(m.taxis))[i] == m.taxis[i] {
      TaxiRoundTrip(m.taxis[i]);
    }
  }

  lemma RecordsRoundTrip(a: seq<seq<byte>>, b: seq<seq<byte>>, c: seq<seq<byte>>)
    requires Wide(a, LOCATION_SIZE) && Wide(b, CUSTOMER_SIZE) && Wide(c, TAXI_SIZE)
    ensures var bs, n := Flat(a) + (Flat(b) + Flat(c)), Counts(|a|, |b|, |c|);
            && HoldsRecords(bs, n)
            && ReadRecords(bs, n) == (Lists(ChunkLocations(a), ChunkCustomers(b), ChunkTaxis(c)), [])
  {
    CutFlat(a, Flat(b) + Flat(c), LOCATION_SIZE);
    CutFlat(b, Flat(c), CUSTOMER_SIZE);
    CutFlat(c, [], TAXI_SIZE);
    assert Flat(c) + [] == Flat(c);
  }

  /** Reading a written map gives its three lists back, in order, and uses the buffer up exactly. */
  lemma MapRoundTrip(m: Lists)
    requires Representable(m)
    ensures Readable(MapBytes(m)) && ReadRecords(MapBytes(m)[24..], CountsOf(MapBytes(m))) == (m, [])
  {
    var a, b, c := LocationChunks(m.locations), CustomerChunks(m.customers), TaxiChunks(m.taxis);
    var records := Flat(a) + (Flat(b) + Flat(c));
    SizesRoundTrip(m, records);
    RecordsRoundTrip(a, b, c);
    ChunksRoundTrip(m);
  }

  class Map {
    var locations: seq<Location>
    var customers: seq<Customer>
    var taxis: seq<Taxi>

    constructor ()
      ensures Contents() == Lists([], [], [])
    {
      locations, customers, taxis := [], [], [];
    }

    function Contents(): Lists
      reads this
    {
      Lists(locations, customers, taxis)
    }

    method Serialize() returns (buffer: seq<byte>)
      ensures buffer == MapBytes(Contents())
    {
      var w := new Writer();
      w.StoreValue(ToBytes(|locations|, 8));
      w.StoreValue(ToBytes(|customers|, 8));
      w.StoreValue(ToBytes(|taxis|, 8));
      assert w.buffer == MapHeader(Contents());
      WriteLocations(w);
      WriteCustomers(w);
      WriteTaxis(w);
      buffer := w.buffer;
      Associate(MapHeader(Contents()), Flat(LocationChunks(locations)), Flat(CustomerChunks(customers)), Flat(TaxiChunks(taxis)));
    }

    method WriteLocations(w: Writer)
      requires w.offset == |w.buffer|
      modifies w
      ensures w.offset == |w.buffer| && w.buffer == old(w.buffer) + Flat(LocationChunks(locations))
    {
      ghost var start, chunks := w.buffer, LocationChunks(locations);
      for i := 0 to |locations|
        invariant w.buffer == start + Flat(chunks[..i]) && w.offset == |w.buffer|
      {
        w.StoreValue(LocationBytes(locations[i]));
        FlatExtends(start, chunks, i);
      }
      assert chunks[..|locations|] == chunks;
    }

    method WriteCustomers(w: Writer)
      requires w.offset == |w.buffer|
      modifies w
      ensures w.offset == |w.buffer| && w.buffer == old(w.buffer) + Flat(CustomerChunks(customers))
    {
      ghost var start, chunks := w.buffer, CustomerChunks(customers);
      for i := 0 to |customers|
        invariant w.buffer == start + Flat(chunks[..i]) && w.offset == |w.buffer|
      {
        w.StoreValue(CustomerBytes(customers[i]));
        FlatExtends(start, chunks, i);
      }
      assert chunks[..|customers|] == chunks;
    }

    method WriteTaxis(w: Writer)
      requires w.offset == |w.buffer|
      modifies w
      ensures w.offset == |w.buffer| && w.buffer == old(w.buffer) + Flat(TaxiChunks(taxis))
    {
      ghost var start, chunks := w.buffer, TaxiChunks(taxis);
      for i := 0 to |taxis|
        invariant w.buffer == start + Flat(chunks[..i]) && w.offset == |w.buffer|
      {
        w.StoreValue(TaxiBytes(taxis[i]));
        FlatExtends(start, chunks, i);
      }
      assert chunks[..|taxis|] == chunks;
    }

    /** Appends what the buffer announces to the lists. */
    method Deserialize(buffer: seq<byte>)
      requires Readable(buffer)
      modifies this
      ensures Contents() == Lists(old(locations) + ReadMap(buffer).locations,
                                  old(customers) + ReadMap(buffer).customers,
                                  old(taxis) + ReadMap(buffer).taxis)
    {
      var r := new Reader(buffer);
      var first := r.ExtractValue(8);
      var second := r.ExtractValue(8);
      var third := r.ExtractValue(8);
      assert first == buffer[..8] && second == buffer[8..16] && third == buffer[16..24] && r.Rest() == buffer[24..];
      ReadLocations(r, Unsigned(first));
      ReadCustomers(r, Unsigned(second));
      ReadTaxis(r, Unsigned(third));
    }

    method ReadLocations(r: Reader, n: nat)
      requires r.offset <= |r.data| && Enough(r.Rest(), n, LOCATION_SIZE)
      modifies this`locations, r
      ensures r.offset <= |r.data| && r.Rest() == Beyond(old(r.Rest()), n, LOCATION_SIZE)
      ensures locations == old(locations) + ChunkLocations(Cut(old(r.Rest()), n, LOCATION_SIZE))
    {
      ghost var chunks := Cut(r.Rest(), n, LOCATION_SIZE);
      ghost var all := ChunkLocations(chunks);
      for i := 0 to n
        invariant r.offset <= |r.data| && Enough(r.Rest(), n - i, LOCATION_SIZE)
        invariant Beyond(r.Rest(), n - i, LOCATION_SIZE) == Beyond(old(r.Rest()), n, LOCATION_SIZE)
        invariant Cut(r.Rest(), n - i, LOCATION_SIZE) == chunks[i..]
        invariant locations == old(locations) + all[..i]
      {
        var bytes := r.ExtractValue(LOCATION_SIZE);
        locations := locations + [BytesLocation(bytes)];
        assert bytes == chunks[i..][0] == chunks[i];
      }
    }

    method ReadCustomers(r: Reader, n: nat)
      requires r.offset <= |r.data| && Enough(r.Rest(), n, CUSTOMER_SIZE)
      modifies this`customers, r
      ensures r.offset <= |r.data| && r.Rest() == Beyond(old(r.Rest()), n, CUSTOMER_SIZE)
      ensures customers == old(customers) + ChunkCustomers(Cut(old(r.Rest()), n, CUSTOMER_SIZE))
    {
      ghost var chunks := Cut(r.Rest(), n, CUSTOMER_SIZE);
      ghost var all := ChunkCustomers(chunks);
      for i := 0 to n
        invariant r.offset <= |r.data| && Enough(r.Rest(), n - i, CUSTOMER_SIZE)
        invariant Beyond(r.Rest(), n - i, CUSTOMER_SIZE) == Beyond(old(r.Rest()), n, CUSTOMER_SIZE)
        invariant Cut(r.Rest(), n - i, CUSTOMER_SIZE) == chunks[i..]
        invariant customers == old(customers) + all[..i]
      {
        var bytes := r.ExtractValue(CUSTOMER_SIZE);
        customers := customers + [BytesCustomer(bytes)];
        assert bytes == chunks[i..][0] == chunks[i];
      }
    }

    method ReadTaxis(r: Reader, n: nat)
      requires r.offset <= |r.data| && Enough(r.Rest(), n, TAXI_SIZE)
      modifies this`taxis, r
      ensures r.offset <= |r.data| && r.Rest() == Beyond(old(r.Rest()), n, TAXI_SIZE)
      ensures taxis == old(taxis) + ChunkTaxis(Cut(old(r.Rest()), n, TAXI_SIZE))
    {
      ghost var chunks := Cut(r.Rest(), n, TAXI_SIZE);
      ghost var all := ChunkTaxis(chunks);
      for i := 0 to n
        invariant r.offset <= |r.data| && Enough(r.Rest(), n - i, TAXI_SIZE)
        invariant Beyond(r.Rest(), n - i, TAXI_SIZE) == Beyond(old(r.Rest()), n, TAXI_SIZE)
        invariant Cut(r.Rest(), n - i, TAXI_SIZE) == chunks[i..]
        invariant taxis == old(taxis) + all[..i]
      {
        var bytes := r.ExtractValue(TAXI_SIZE);
        taxis := taxis + [BytesTaxi(bytes)];
        assert bytes == chunks[i..][0] == chunks[i];
      }
    }
  }

  lemma Associate(a: seq<byte>, b: seq<byte>, c: seq<byte>, d: seq<byte>)
    ensures a + b + c + d == a + (b + (c + d))
  {
  }
}
