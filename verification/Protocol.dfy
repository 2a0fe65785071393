/** The message of the requests and responses topics, and the typed view each reader takes of it. */
module Protocol {
  import opened Wrappers
  import opened Bytes

  datatype Coordinate = Coordinate(x: int, y: int)

  datatype GuiSubject = WRITE_BOTTOM_WINDOW | WRITE_TOP_WINDOW | GUI_MAP_UPDATE

  datatype RequestSubject =
    | ORDER_TAXI_GO_TO
    | ORDER_TAXI_STOP
    | ORDER_TAXI_CONTINUE
    | ORDER_TAXI_RETURN_TO_BASE
    | ORDER_TAXI_DISCONNECT
    | ORDER_CUSTOMER_DISCONNECT
    | ORDER_CUSTOMER_PRIORITY
    | ORDER_LOCATION_MOVE
    | NEW_TAXI
    | TAXI_RECONNECTED
    | TAXI_READY
    | TAXI_NOT_READY
    | TAXI_UPDATE_WAIT_TIME
    | TAXI_MOVE
    | TAXI_DESTINATION_REACHED
    | TAXI_PING
    | NEW_CUSTOMER
    | CUSTOMER_PING
    | CUSTOMER_SERVICE_REQUEST
    | CUSTOMER_UPDATE_NEXT_REQUEST

  datatype ResponseSubject =
    | TAXI_GO_TO
    | TAXI_STOP
    | TAXI_CONTINUE
    | TAXI_RETURN_TO_BASE
    | TAXI_DISCONNECT
    | CUSTOMER_DISCONNECT
    | CUSTOMER_PRIORITY
    | CUSTOMER_PICKED_UP
    | CUSTOMER_DROPPED_OFF
    | CUSTOMER_ENQUEUED
    | CUSTOMER_SERVICE_COMPLETED
    | CUSTOMER_SERVICE_ACCEPTED
    | CUSTOMER_SERVICE_DENIED
    | MAP_UPDATE
    | DENY
    | ACCEPT

  datatype Subject =
    | Gui(gui: GuiSubject)
    | Request(request: RequestSubject)
    | Response(response: ResponseSubject)

  const DATA_SIZE := 40
  const SESSION_SIZE := 36

  type Data = d: seq<byte> | |d| == DATA_SIZE witness seq(DATA_SIZE, (i: nat) => 0)

  datatype Message = Message(
    subject: Subject,
    id: Char,
    taxiId: int,
    coord: Coordinate,
    session: Text,
    data: Data)

  /** What the constructor of Message leaves in a new object. */
  function EmptyMessage(): Message {
    Message(Response(MAP_UPDATE), '\0', 0, Coordinate(0, 0), "", seq(DATA_SIZE, (i: nat) => 0))
  }

  function DataChar(m: Message): Char { ByteChar(m.data[0]) }

  function DataInt(m: Message): int { Signed(m.data[..4]) }

  function DataText(m: Message): Text { BytesText(m.data[..SESSION_SIZE]) }

  function WithChar(m: Message, c: Char): Message { m.(data := [CharByte(c)] + m.data[1..]) }

  function WithInt(m: Message, n: int): Message { m.(data := ToBytes(n, 4) + m.data[4..]) }

  function WithText(m: Message, s: Text): Message
    requires |s| == SESSION_SIZE
  {
    m.(data := TextBytes(s) + m.data[SESSION_SIZE..])
  }

  /** The fields of a request that the central server reads, by subject. */
  datatype Call =
    | OrderTaxiGoTo(taxiId: int, coord: Coordinate)
    | OrderTaxiStop(taxiId: int)
    | OrderTaxiContinue(taxiId: int)
    | OrderTaxiReturnToBase(taxiId: int)
    | OrderTaxiDisconnect(taxiId: int)
    | OrderCustomerDisconnect(id: Char)
    | OrderCustomerPriority(id: Char)
    | OrderLocationMove(id: Char, coord: Coordinate)
    | NewTaxi(taxiId: int)
    | TaxiReconnected(taxiId: int)
    | TaxiReady(taxiId: int)
    | TaxiNotReady(taxiId: int)
    | TaxiUpdateWaitTime(taxiId: int, waitTime: int)
    | TaxiMove(taxiId: int, coord: Coordinate)
    | TaxiDestinationReached(taxiId: int, coord: Coordinate)
    | TaxiPing(taxiId: int)
    | NewCustomer(id: Char, coord: Coordinate, session: Text)
    | CustomerPing(id: Char)
    | CustomerServiceRequest(id: Char, service: Char)
    | CustomerUpdateNextRequest(id: Char, seconds: int)

  function CallOf(m: Message): Option<Call> {
    match m.subject
    case Request(s) =>
      Some(match s
           case ORDER_TAXI_GO_TO => OrderTaxiGoTo(m.taxiId, m.coord)
           case ORDER_TAXI_STOP => OrderTaxiStop(m.taxiId)
           case ORDER_TAXI_CONTINUE => OrderTaxiContinue(m.taxiId)
           case ORDER_TAXI_RETURN_TO_BASE => OrderTaxiReturnToBase(m.taxiId)
           case ORDER_TAXI_DISCONNECT => OrderTaxiDisconnect(m.taxiId)
           case ORDER_CUSTOMER_DISCONNECT => OrderCustomerDisconnect(m.id)
           case ORDER_CUSTOMER_PRIORITY => OrderCustomerPriority(m.id)
           case ORDER_LOCATION_MOVE => OrderLocationMove(m.id, m.coord)
           case NEW_TAXI => NewTaxi(m.taxiId)
           case TAXI_RECONNECTED => TaxiReconnected(m.taxiId)
           case TAXI_READY => TaxiReady(m.taxiId)
           case TAXI_NOT_READY => TaxiNotReady(m.taxiId)
           case TAXI_UPDATE_WAIT_TIME => TaxiUpdateWaitTime(m.taxiId, DataInt(m))
           case TAXI_MOVE => TaxiMove(m.taxiId, m.coord)
           case TAXI_DESTINATION_REACHED => TaxiDestinationReached(m.taxiId, m.coord)
           case TAXI_PING => TaxiPing(m.taxiId)
           case NEW_CUSTOMER => NewCustomer(m.id, m.coord, m.session)
           case CUSTOMER_PING => CustomerPing(m.id)
           case CUSTOMER_SERVICE_REQUEST => CustomerServiceRequest(m.id, DataChar(m))
           case CUSTOMER_UPDATE_NEXT_REQUEST => CustomerUpdateNextRequest(m.id, DataInt(m)))
    case _ => None
  }

  /** The subjects whose session is not checked. */
  predicate GreenListed(s: RequestSubject) {
    || s.ORDER_TAXI_GO_TO?
    || s.ORDER_TAXI_STOP?
    || s.ORDER_TAXI_CONTINUE?
    || s.ORDER_TAXI_RETURN_TO_BASE?
    || s.ORDER_TAXI_DISCONNECT?
    || s.ORDER_CUSTOMER_DISCONNECT?
    || s.ORDER_CUSTOMER_PRIORITY?
    || s.ORDER_LOCATION_MOVE?
    || s.NEW_CUSTOMER?
  }

  /** The call the server acts on, or None when it skips the message. */
  function Admitted(m: Message, session: Text): Option<Call> {
    if m.subject.Request? && (GreenListed(m.subject.request) || m.session == session) then CallOf(m) else None
  }

  /** What a taxi does with a response: the orders addressed to it. */
  datatype Order = GoTo(coord: Coordinate) | Stop | Continue | ReturnToBase | Disconnect

  /** The filter and switch of the taxi's listener. */
  function OrderFor(m: Message, taxiId: int): Option<Order> {
    if m.taxiId != taxiId || !m.subject.Response? then None
    else
      match m.subject.response
      case TAXI_GO_TO => Some(GoTo(m.coord))
      case TAXI_STOP => Some(Stop)
      case TAXI_CONTINUE => Some(Continue)
      case TAXI_RETURN_TO_BASE => Some(ReturnToBase)
      case TAXI_DISCONNECT => Some(Disconnect)
      case _ => None
  }

  /** What a customer that asked for a service learns from a response addressed to it. */
  datatype Notice =
    | Disconnected
    | Prioritised
    | PickedUp
    | DroppedOff(coord: Coordinate)
    | Completed
    | Denied
    | AcceptedBy(taxiId: int)
    | Enqueued

  /** The filter and switch of the customer's service loop. */
  function NoticeFor(m: Message, id: Char): Option<Notice> {
    if m.id != id || !m.subject.Response? then None
    else
      match m.subject.response
      case CUSTOMER_DISCONNECT => Some(Disconnected)
      case CUSTOMER_PRIORITY => Some(Prioritised)
      case CUSTOMER_PICKED_UP => Some(PickedUp)
      case CUSTOMER_DROPPED_OFF => Some(DroppedOff(m.coord))
      case CUSTOMER_SERVICE_COMPLETED => Some(Completed)
      case CUSTOMER_SERVICE_DENIED => Some(Denied)
      case CUSTOMER_SERVICE_ACCEPTED => Some(AcceptedBy(m.taxiId))
      case CUSTOMER_ENQUEUED => Some(Enqueued)
      case _ => None
  }

  lemma WithCharReadBack(m: Message, c: Char)
    ensures DataChar(WithChar(m, c)) == c
  {
  }

  /** The requests that pass without the server's session are these nine; every other one needs it. */
  lemma PassesWithoutSessionIff(m: Message, session: Text)
    requires m.session != session
    ensures Admitted(m, session).Some? <==>
            m.subject in [
              Request(ORDER_TAXI_GO_TO), Request(ORDER_TAXI_STOP), Request(ORDER_TAXI_CONTINUE),
              Request(ORDER_TAXI_RETURN_TO_BASE), Request(ORDER_TAXI_DISCONNECT), Request(ORDER_CUSTOMER_DISCONNECT),
              Request(ORDER_CUSTOMER_PRIORITY), Request(ORDER_LOCATION_MOVE), Request(NEW_CUSTOMER)
            ]
  {
  }

  lemma PassesWithSessionIff(m: Message, session: Text)
    requires m.session == session
    ensures Admitted(m, session).Some? <==> m.subject.Request?
  {
  }

  lemma WithIntReadBack(m: Message, n: int)
    requires -0x8000_0000 <= n < 0x8000_0000
    ensures DataInt(WithInt(m, n)) == n
  {
    assert Range(4) == 0x1_0000_0000 by {
      assert Range(1) == 256 && Range(2) == 256 * Range(1) && Range(3) == 256 * Range(2);
    }
    assert WithInt(m, n).data[..4] == ToBytes(n, 4);
    SignedRoundTrip(n, 4);
  }

  lemma WithTextReadBack(m: Message, s: Text)
    requires |s| == SESSION_SIZE
    ensures DataText(WithText(m, s)) == s
  {
    assert WithText(m, s).data[..SESSION_SIZE] == TextBytes(s);
    TextRoundTrip(s);
  }
}
