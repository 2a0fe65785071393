/** The binary form of a message: a fixed header, the session as it is, and forty bytes of data. */
module MessageCodec {
  import opened Wrappers
  import opened Bytes
  import opened Protocol
  import opened Codec

  const HEADER_SIZE := 19
  const MESSAGE_SIZE := 95

  function GuiNumber(g: GuiSubject): int {
    match g
    case WRITE_BOTTOM_WINDOW => 0
    case WRITE_TOP_WINDOW => 1
    case GUI_MAP_UPDATE => 2
  }

  function RequestNumber(r: RequestSubject): int {
    match r
    case ORDER_TAXI_GO_TO => 0
    case ORDER_TAXI_STOP => 1
    case ORDER_TAXI_CONTINUE => 2
    case ORDER_TAXI_RETURN_TO_BASE => 3
    case ORDER_TAXI_DISCONNECT => 4
    case ORDER_CUSTOMER_DISCONNECT => 5
    case ORDER_CUSTOMER_PRIORITY => 6
    case ORDER_LOCATION_MOVE => 7
    case NEW_TAXI => 8
    case TAXI_RECONNECTED => 9
    case TAXI_READY => 10
    case TAXI_NOT_READY => 11
    case TAXI_UPDATE_WAIT_TIME => 12
    case TAXI_MOVE => 13
    case TAXI_DESTINATION_REACHED => 14
    case TAXI_PING => 15
    case NEW_CUSTOMER => 16
    case CUSTOMER_PING => 17
    case CUSTOMER_SERVICE_REQUEST => 18
    case CUSTOMER_UPDATE_NEXT_REQUEST => 19
  }

  function ResponseNumber(r: ResponseSubject): int {
    match r
    case TAXI_GO_TO => 0
    case TAXI_STOP => 1
    case TAXI_CONTINUE => 2
    case TAXI_RETURN_TO_BASE => 3
    case TAXI_DISCONNECT => 4
    case CUSTOMER_DISCONNECT => 5
    case CUSTOMER_PRIORITY => 6
    case CUSTOMER_PICKED_UP => 7
    case CUSTOMER_DROPPED_OFF => 8
    case CUSTOMER_ENQUEUED => 9
    case CUSTOMER_SERVICE_COMPLETED => 10
    case CUSTOMER_SERVICE_ACCEPTED => 11
    case CUSTOMER_SERVICE_DENIED => 12
    case MAP_UPDATE => 13
    case DENY => 14
    case ACCEPT => 15
  }

  const GUIS := [WRITE_BOTTOM_WINDOW, WRITE_TOP_WINDOW, GUI_MAP_UPDATE]

  const REQUESTS := [
    ORDER_TAXI_GO_TO, ORDER_TAXI_STOP, ORDER_TAXI_CONTINUE, ORDER_TAXI_RETURN_TO_BASE, ORDER_TAXI_DISCONNECT,
    ORDER_CUSTOMER_DISCONNECT, ORDER_CUSTOMER_PRIORITY, ORDER_LOCATION_MOVE, NEW_TAXI, TAXI_RECONNECTED,
    TAXI_READY, TAXI_NOT_READY, TAXI_UPDATE_WAIT_TIME, TAXI_MOVE, TAXI_DESTINATION_REACHED,
    TAXI_PING, NEW_CUSTOMER, CUSTOMER_PING, CUSTOMER_SERVICE_REQUEST, CUSTOMER_UPDATE_NEXT_REQUEST
  ]

  const RESPONSES := [
    TAXI_GO_TO, TAXI_STOP, TAXI_CONTINUE, TAXI_RETURN_TO_BASE, TAXI_DISCONNECT,
    CUSTOMER_DISCONNECT, CUSTOMER_PRIORITY, CUSTOMER_PICKED_UP, CUSTOMER_DROPPED_OFF, CUSTOMER_ENQUEUED,
    CUSTOMER_SERVICE_COMPLETED, CUSTOMER_SERVICE_ACCEPTED, CUSTOMER_SERVICE_DENIED, MAP_UPDATE, DENY, ACCEPT
  ]

  /** The number and the alternative of a subject. */
  function SubjectNumbers(s: Subject): (int, byte) {
    match s
    case Gui(g) => (GuiNumber(g), 0)
    case Request(r) => (RequestNumber(r), 1)
    case Response(r) => (ResponseNumber(r), 2)
  }

  /** None for numbers that name no subject. */
  function SubjectOf(n: int, index: byte): Option<Subject> {
    if index == 0 && 0 <= n < |GUIS| then Some(Gui(GUIS[n]))
    else if index == 1 && 0 <= n < |REQUESTS| then Some(Request(REQUESTS[n]))
    else if index == 2 && 0 <= n < |RESPONSES| then Some(Response(RESPONSES[n]))
    else None
  }

  lemma RequestRoundTrip(r: RequestSubject)
    ensures 0 <= RequestNumber(r) < |REQUESTS| && REQUESTS[RequestNumber(r)] == r
  {
  }

  lemma ResponseRoundTrip(r: ResponseSubject)
    ensures 0 <= ResponseNumber(r) < |RESPONSES| && RESPONSES[ResponseNumber(r)] == r
  {
  }

  lemma SubjectRoundTrip(s: Subject)
    ensures SubjectOf(SubjectNumbers(s).0, SubjectNumbers(s).1) == Some(s)
    ensures 0 <= SubjectNumbers(s).0 < 20
  {
    match s
    case Gui(g) =>
    case Request(r) => RequestRoundTrip(r);
    case Response(r) => ResponseRoundTrip(r);
  }

  function SubjectBytes(s: Subject): (bs: seq<byte>)
    ensures |bs| == 8
  {
    ToBytes(SubjectNumbers(s).0, 4) + [SubjectNumbers(s).1, 0, 0, 0]
  }

  /** The fixed part of a message: all but the session and the data. */
  datatype Header = Header(subject: Option<Subject>, id: Char, taxiId: int, coord: Coordinate)

  function HeaderOf(m: Message): Header { Header(Some(m.subject), m.id, m.taxiId, m.coord) }

  function HeaderBytes(m: Message): (bs: seq<byte>)
    ensures |bs| == HEADER_SIZE
  {
    SubjectBytes(m.subject) + [CharByte(m.id)] + ToBytes(m.taxiId, 2) + CoordBytes(m.coord)
  }

  function ReadHeader(bs: seq<byte>): Header
    requires |bs| >= HEADER_SIZE
  {
    Header(SubjectOf(Signed(bs[..4]), bs[4]), ByteChar(bs[8]), Signed(bs[9..11]), BytesCoord(bs[11..19]))
  }

  function MessageBytes(m: Message): seq<byte> {
    HeaderBytes(m) + TextBytes(m.session) + m.data
  }

  /** What a reader takes the session and the data to be: always 36 bytes and 40 bytes. */
  function ReadSession(bs: seq<byte>): Text
    requires |bs| >= MESSAGE_SIZE
  {
    BytesText(bs[HEADER_SIZE..HEADER_SIZE + SESSION_SIZE])
  }

  function ReadData(bs: seq<byte>): Data
    requires |bs| >= MESSAGE_SIZE
  {
    bs[HEADER_SIZE + SESSION_SIZE..MESSAGE_SIZE]
  }

  /** The message, when its subject is one; the bytes are the payload and the memory that follows it. */
  function ReadMessage(bs: seq<byte>): Option<Message>
    requires |bs| >= MESSAGE_SIZE
  {
    var h := ReadHeader(bs);
    if h.subject.None? then None
    else Some(Message(h.subject.value, h.id, h.taxiId, h.coord, ReadSession(bs), ReadData(bs)))
  }

  method SerializeMessage(m: Message) returns (buffer: seq<byte>)
    ensures buffer == MessageBytes(m)
  {
    var w := new Writer();
    w.StoreValue(SubjectBytes(m.subject));
    w.StoreValue([CharByte(m.id)]);
    w.StoreValue(ToBytes(m.taxiId, 2));
    w.StoreValue(CoordBytes(m.coord));
    w.StoreValue(TextBytes(m.session));
    w.StoreValue(m.data);
    buffer := w.buffer;
  }

  method DeserializeMessage(buffer: seq<byte>) returns (m: Option<Message>)
    requires |buffer| >= MESSAGE_SIZE
    ensures m == ReadMessage(buffer)
  {
    var r := new Reader(buffer);
    var subject := r.ExtractValue(8);
    var id := r.ExtractValue(1);
    var taxiId := r.ExtractValue(2);
    var coord := r.ExtractValue(8);
    var session := r.ExtractValue(SESSION_SIZE);
    var data := r.ExtractValue(DATA_SIZE);
    assert subject[..4] == buffer[..4] && subject[4] == buffer[4] && id[0] == buffer[8];
    assert taxiId == buffer[9..11] && coord == buffer[11..19] && session == buffer[19..55] && data == buffer[55..95];
    var s := SubjectOf(Signed(subject[..4]), subject[4]);
    m := if s.None? then None
         else Some(Message(s.value, ByteChar(id[0]), Signed(taxiId), BytesCoord(coord), BytesText(session), data));
  }

  predicate Fits(m: Message) { Int16(m.taxiId) && Coord32(m.coord) }

  lemma HeaderSlices(a: seq<byte>, b: seq<byte>, c: seq<byte>, d: seq<byte>, rest: seq<byte>)
    requires |a| == 8 && |b| == 1 && |c| == 2 && |d| == 8
    ensures var bs := a + b + c + d + rest;
            bs[..4] == a[..4] && bs[4] == a[4] && bs[8] == b[0] && bs[9..11] == c && bs[11..19] == d
  {
  }

  /** Whatever session the message carries and whatever follows it, its header reads back. */
  lemma HeaderSurvives(m: Message, rest: seq<byte>)
    requires Fits(m)
    ensures ReadHeader(HeaderBytes(m) + rest) == HeaderOf(m)
  {
    HeaderSlices(SubjectBytes(m.subject), [CharByte(m.id)], ToBytes(m.taxiId, 2), CoordBytes(m.coord), rest);
    SubjectRoundTrip(m.subject);
    assert SubjectBytes(m.subject)[..4] == ToBytes(SubjectNumbers(m.subject).0, 4);
    IntRoundTrip(SubjectNumbers(m.subject).0);
    IntRoundTrip(m.taxiId);
    CoordRoundTrip(m.coord);
  }

  lemma BodySlices(head: seq<byte>, session: seq<byte>, data: seq<byte>, rest: seq<byte>)
    requires |head| == HEADER_SIZE && |session| == SESSION_SIZE && |data| == DATA_SIZE
    ensures var bs := head + session + data + rest;
            bs[HEADER_SIZE..HEADER_SIZE + SESSION_SIZE] == session
            && bs[HEADER_SIZE + SESSION_SIZE..MESSAGE_SIZE] == data
  {
  }

  lemma Regroup(head: seq<byte>, session: seq<byte>, data: seq<byte>, beyond: seq<byte>)
    ensures head + session + data + beyond == head + (session + data + beyond)
  {
  }

  /** A message survives the wire exactly when its session has 36 characters, whatever memory follows it. */
  lemma MessageRoundTripIff(m: Message, beyond: seq<byte>)
    requires Fits(m) && |MessageBytes(m) + beyond| >= MESSAGE_SIZE
    ensures ReadMessage(MessageBytes(m) + beyond) == Some(m) <==> |m.session| == SESSION_SIZE
  {
    var bs := MessageBytes(m) + beyond;
    var rest := TextBytes(m.session) + m.data + beyond;
    Regroup(HeaderBytes(m), TextBytes(m.session), m.data, beyond);
    HeaderSurvives(m, rest);
    assert |ReadSession(bs)| == SESSION_SIZE;
    if |m.session| == SESSION_SIZE {
      BodySlices(HeaderBytes(m), TextBytes(m.session), m.data, beyond);
      TextRoundTrip(m.session);
    }
  }

  /** The operator's orders and the stray checks send no session; the server acts on them all the same. */
  lemma OrdersSurviveAnySession(m: Message, beyond: seq<byte>, central: Text)
    requires Fits(m) && |MessageBytes(m) + beyond| >= MESSAGE_SIZE
    requires m.subject.Request? && GreenListed(m.subject.request) && !m.subject.request.NEW_CUSTOMER?
    ensures var received := ReadMessage(MessageBytes(m) + beyond);
            received.Some? && Admitted(received.value, central) == Admitted(m, central) == CallOf(m)
  {
    var rest := TextBytes(m.session) + m.data + beyond;
    Regroup(HeaderBytes(m), TextBytes(m.session), m.data, beyond);
    HeaderSurvives(m, rest);
  }
}
