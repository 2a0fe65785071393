/** What the columns of the tables hold after any run of the server's loop, told from the messages it consumed. */
module Columns {
  import opened Wrappers
  import opened Bytes
  import opened Protocol
  import opened Database
  import opened Dispatcher
  import opened DispatcherRuns
  import opened KafkaServer
  import Queueing

  /** The tables after a turn of the loop, and after all of them. */
  function AfterTurn(db: Tables, turn: Turn, session: Text): Tables {
    var e := EventOf(turn, session);
    if e.Some? then Next(db, session, e.value) else db
  }

  function AfterTurns(db: Tables, turns: seq<Turn>, session: Text): Tables {
    if turns == [] then db else AfterTurn(AfterTurns(db, turns[..|turns| - 1], session), turns[|turns| - 1], session)
  }

  /** They are the tables of the run of events that the loop follows. */
  lemma {:induction false} TurnsAreEvents(db: Tables, turns: seq<Turn>, session: Text)
    ensures AfterTurns(db, turns, session) == After(db, session, EventsOf(turns, session))
  {
    if turns != [] {
      var front, last := turns[..|turns| - 1], turns[|turns| - 1];
      assert turns == front + [last];
      TurnsAreEvents(db, front, session);
      LastTurn(front, last, session);
      var es, e := EventsOf(front, session), EventOf(last, session);
      if e.Some? {
        AfterOneMore(db, session, es, e.value);
      } else {
        assert es + [] == es;
      }
    }
  }

  // ---------------------------------------------------------------- taxis

  datatype TaxiStatus = TaxiStatus(coord: Coordinate, connected: bool, stopped: bool, ready: bool, waitTime: int)

  function StatusOf(db: Tables, t: int): Option<TaxiStatus> {
    if t in db.taxis then
      var row := db.taxis[t];
      Some(TaxiStatus(row.coord, row.connected, row.stopped, row.ready, row.waitTime))
    else None
  }

  /** What a message about the taxi says of its status; its own reports need the server's session. */
  function MessageStatus(m: Message, request: RequestSubject, session: Text, st: TaxiStatus): TaxiStatus {
    match request
    case ORDER_TAXI_STOP => st.(stopped := true)
    case ORDER_TAXI_CONTINUE => st.(stopped := false)
    case ORDER_TAXI_DISCONNECT => st.(connected := false)
    case TAXI_READY => if m.session == session then st.(ready := true) else st
    case TAXI_NOT_READY => if m.session == session then st.(ready := false) else st
    case TAXI_UPDATE_WAIT_TIME =>
      if m.session == session then st.(waitTime := DataInt(m), ready := DataInt(m) == 0) else st
    case TAXI_MOVE => if m.session == session then st.(coord := m.coord) else st
    case TAXI_DESTINATION_REACHED => if m.session == session then st.(coord := m.coord) else st
    case _ => st
  }

  function TurnStatus(turn: Turn, session: Text, t: int, before: Option<TaxiStatus>): Option<TaxiStatus> {
    match turn
    case NoMessage => before
    case TaxiInserted(u) =>
      if u == t && before.None? then Some(TaxiStatus(Coordinate(0, 0), true, false, false, 0)) else before
    case TaxiConnected(u) => if u == t && before.Some? then Some(before.value.(connected := true)) else before
    case Consumed(m, _) =>
      if m.taxiId == t && m.subject.Request? && before.Some?
      then Some(MessageStatus(m, m.subject.request, session, before.value)) else before
  }

  function LastStatus(turns: seq<Turn>, session: Text, t: int, first: Option<TaxiStatus>): Option<TaxiStatus> {
    if turns == [] then first
    else TurnStatus(turns[|turns| - 1], session, t, LastStatus(turns[..|turns| - 1], session, t, first))
  }

  lemma MoveSets(db: Tables, u: int, coord: Coordinate, t: int)
    ensures StatusOf(Move(db, u, coord), t)
         == if u == t && t in db.taxis then Some(StatusOf(db, t).value.(coord := coord)) else StatusOf(db, t)
  {
  }

  lemma OnboardSets(db: Tables, c: Char, u: int, val: bool, t: int)
    ensures StatusOf(SetOnboard(db, c, u, val), t) == StatusOf(db, t)
  {
  }

  lemma QueueSets(db: Tables, u: int, answers: Answers, t: int)
    ensures StatusOf(AssignQueueHead(db, u, answers).db, t) == StatusOf(db, t)
  {
  }

  lemma ReachedSets(db: Tables, u: int, coord: Coordinate, answers: Answers, t: int)
    ensures StatusOf(Reached(db, u, coord, answers).db, t) == StatusOf(Move(db, u, coord), t)
  {
    match CarryingClient(db, u)
    case Some(c) =>
      OnboardSets(Move(db, u, coord), c, u, false, t);
      QueueSets(SetOnboard(Move(db, u, coord), c, u, false), u, answers, t);
    case None =>
      if GetService(db, u).Some? {
        OnboardSets(Move(db, u, coord), GetService(db, u).value, u, true, t);
      }
  }

  lemma RequestSets(db: Tables, c: Char, service: Char, answers: Answers, t: int)
    ensures StatusOf(RequestService(db, c, service, answers).db, t) == StatusOf(db, t)
  {
  }

  lemma CustomersLeaveStatus(db: Tables, c: Char, coord: Coordinate, central: Text, session: Text, t: int)
    ensures StatusOf(DeleteCustomer(db, c), t) == StatusOf(db, t)
    ensures StatusOf(Admit(db, central, c, coord, session).db, t) == StatusOf(db, t)
  {
  }

  lemma RedirectSets(db: Tables, u: int, coord: Coordinate, t: int)
    ensures StatusOf(Redirect(db, u, coord), t) == StatusOf(db, t)
  {
  }

  /** The requests that write a status column and nothing else. */
  predicate WritesStatus(r: RequestSubject) {
    || r.ORDER_TAXI_STOP? || r.ORDER_TAXI_CONTINUE? || r.ORDER_TAXI_DISCONNECT?
    || r.TAXI_READY? || r.TAXI_NOT_READY? || r.TAXI_UPDATE_WAIT_TIME?
  }

  lemma StatusMessageSets(db: Tables, session: Text, m: Message, answers: Answers, t: int)
    requires m.subject.Request? && WritesStatus(m.subject.request)
    ensures StatusOf(AfterTurn(db, Consumed(m, answers), session), t)
         == TurnStatus(Consumed(m, answers), session, t, StatusOf(db, t))
  {
  }

  /** The tables after a served request, branch by branch. */
  lemma TablesAre(db: Tables, session: Text, m: Message, answers: Answers)
    requires m.subject.Request? && Admitted(m, session).Some?
    ensures var after, r := AfterTurn(db, Consumed(m, answers), session), m.subject.request;
            && (r.NEW_TAXI? || r.TAXI_RECONNECTED? ==> after == AssignQueueHead(db, m.taxiId, answers).db)
            && (r.TAXI_MOVE? ==> after == Move(db, m.taxiId, m.coord))
            && (r.TAXI_DESTINATION_REACHED? ==> after == Reached(db, m.taxiId, m.coord, answers).db)
            && (r.CUSTOMER_SERVICE_REQUEST? ==> after == RequestService(db, m.id, DataChar(m), answers).db)
            && (r.ORDER_TAXI_GO_TO? ==> after == Redirect(db, m.taxiId, m.coord))
            && (r.ORDER_TAXI_RETURN_TO_BASE? ==> after == Redirect(db, m.taxiId, Coordinate(0, 0)))
            && (r.ORDER_CUSTOMER_DISCONNECT? ==> after == DeleteCustomer(db, m.id))
            && (r.NEW_CUSTOMER? ==> after == Admit(db, session, m.id, m.coord, m.session).db)
  {
  }

  lemma OtherMessageSets(db: Tables, session: Text, m: Message, answers: Answers, t: int)
    requires m.subject.Request? && !WritesStatus(m.subject.request) && Admitted(m, session).Some?
    ensures StatusOf(AfterTurn(db, Consumed(m, answers), session), t)
         == TurnStatus(Consumed(m, answers), session, t, StatusOf(db, t))
  {
    TablesAre(db, session, m, answers);
    match m.subject.request
    case NEW_TAXI => QueueSets(db, m.taxiId, answers, t);
    case TAXI_RECONNECTED => QueueSets(db, m.taxiId, answers, t);
    case TAXI_MOVE => MoveSets(db, m.taxiId, m.coord, t);
    case TAXI_DESTINATION_REACHED =>
      ReachedSets(db, m.taxiId, m.coord, answers, t);
      MoveSets(db, m.taxiId, m.coord, t);
    case CUSTOMER_SERVICE_REQUEST => RequestSets(db, m.id, DataChar(m), answers, t);
    case ORDER_CUSTOMER_DISCONNECT => CustomersLeaveStatus(db, m.id, m.coord, session, m.session, t);
    case NEW_CUSTOMER => CustomersLeaveStatus(db, m.id, m.coord, session, m.session, t);
    case ORDER_TAXI_GO_TO => RedirectSets(db, m.taxiId, m.coord, t);
    case ORDER_TAXI_RETURN_TO_BASE => RedirectSets(db, m.taxiId, Coordinate(0, 0), t);
    case _ =>
  }

  lemma SkippedMessageSets(db: Tables, session: Text, m: Message, answers: Answers, t: int)
    requires m.subject.Request? && Admitted(m, session).None?
    ensures StatusOf(AfterTurn(db, Consumed(m, answers), session), t)
         == TurnStatus(Consumed(m, answers), session, t, StatusOf(db, t))
  {
  }

  lemma MessageSets(db: Tables, session: Text, m: Message, answers: Answers, t: int)
    requires m.subject.Request?
    ensures StatusOf(AfterTurn(db, Consumed(m, answers), session), t)
         == TurnStatus(Consumed(m, answers), session, t, StatusOf(db, t))
  {
    if WritesStatus(m.subject.request) {
      StatusMessageSets(db, session, m, answers, t);
    } else if Admitted(m, session).Some? {
      OtherMessageSets(db, session, m, answers, t);
    } else {
      SkippedMessageSets(db, session, m, answers, t);
    }
  }

  lemma TurnSets(db: Tables, turn: Turn, session: Text, t: int)
    ensures StatusOf(AfterTurn(db, turn, session), t) == TurnStatus(turn, session, t, StatusOf(db, t))
  {
    if turn.Consumed? && turn.request.subject.Request? {
      MessageSets(db, session, turn.request, turn.answers, t);
    }
  }

  /** After any run, a taxi is where it last reported to be, connected, stopped, ready and waiting as the last
      message or reconnection that says so left it. */
  lemma {:induction false} StatusIsLast(db: Tables, turns: seq<Turn>, session: Text, t: int)
    ensures StatusOf(AfterTurns(db, turns, session), t) == LastStatus(turns, session, t, StatusOf(db, t))
  {
    if turns != [] {
      var front, last := turns[..|turns| - 1], turns[|turns| - 1];
      StatusIsLast(db, front, session, t);
      TurnSets(AfterTurns(db, front, session), last, session, t);
    }
  }

  // ---------------------------------------------------------------- customers

  datatype CustomerStatus = CustomerStatus(nextRequest: int, inQueue: Option<int>)

  function CustomerOf(db: Tables, c: Char): Option<CustomerStatus> {
    if c in db.customers then Some(CustomerStatus(db.customers[c].nextRequest, db.customers[c].inQueue)) else None
  }

  /** What a message that names the customer makes of its row, if it has one. */
  function MessageCustomer(
    m: Message, request: RequestSubject, answers: Answers, session: Text, carried: bool, before: Option<CustomerStatus>)
    : Option<CustomerStatus>
  {
    match request
    case NEW_CUSTOMER => if before.None? then Some(CustomerStatus(0, None)) else before
    case ORDER_CUSTOMER_DISCONNECT => if carried then before else None
    case ORDER_CUSTOMER_PRIORITY => if before.Some? then Some(before.value.(inQueue := None)) else None
    case CUSTOMER_UPDATE_NEXT_REQUEST =>
      if before.Some? && m.session == session then Some(before.value.(nextRequest := DataInt(m))) else before
    case CUSTOMER_SERVICE_REQUEST =>
      if before.Some? && m.session == session && answers.freeTaxi.None?
      then Some(before.value.(inQueue := Some(answers.now))) else before
    case _ => before
  }

  function TurnCustomer(db: Tables, turn: Turn, session: Text, c: Char, before: Option<CustomerStatus>)
    : Option<CustomerStatus>
  {
    if turn.Consumed? && turn.request.subject.Request? && turn.request.id == c
    then MessageCustomer(turn.request, turn.request.subject.request, turn.answers, session, Carried(db, c), before)
    else before
  }

  function LastCustomer(db: Tables, turns: seq<Turn>, session: Text, c: Char): Option<CustomerStatus> {
    if turns == [] then CustomerOf(db, c)
    else
      var front, last := turns[..|turns| - 1], turns[|turns| - 1];
      TurnCustomer(AfterTurns(db, front, session), last, session, c, LastCustomer(db, front, session, c))
  }

  lemma MoveKeepsCustomer(db: Tables, t: int, coord: Coordinate, c: Char)
    ensures CustomerOf(Move(db, t, coord), c) == CustomerOf(db, c)
  {
  }

  lemma OnboardKeepsCustomer(db: Tables, d: Char, t: int, val: bool, c: Char)
    ensures CustomerOf(SetOnboard(db, d, t, val), c) == CustomerOf(db, c)
  {
  }

  lemma QueueKeepsCustomer(db: Tables, t: int, answers: Answers, c: Char)
    ensures CustomerOf(AssignQueueHead(db, t, answers).db, c) == CustomerOf(db, c)
  {
  }

  lemma ReachedKeepsCustomer(db: Tables, t: int, coord: Coordinate, answers: Answers, c: Char)
    ensures CustomerOf(Reached(db, t, coord, answers).db, c) == CustomerOf(db, c)
  {
    MoveKeepsCustomer(db, t, coord, c);
    match CarryingClient(db, t)
    case Some(d) =>
      OnboardKeepsCustomer(Move(db, t, coord), d, t, false, c);
      QueueKeepsCustomer(SetOnboard(Move(db, t, coord), d, t, false), t, answers, c);
    case None =>
      if GetService(db, t).Some? {
        OnboardKeepsCustomer(Move(db, t, coord), GetService(db, t).value, t, true, c);
      }
  }

  lemma RequestSetsCustomer(db: Tables, d: Char, service: Char, answers: Answers, c: Char)
    ensures CustomerOf(RequestService(db, d, service, answers).db, c)
         == if d == c && c in db.customers && answers.freeTaxi.None?
            then Some(CustomerOf(db, c).value.(inQueue := Some(answers.now))) else CustomerOf(db, c)
  {
  }

  lemma RedirectKeepsCustomer(db: Tables, t: int, coord: Coordinate, c: Char)
    ensures CustomerOf(Redirect(db, t, coord), c) == CustomerOf(db, c)
  {
  }

  /** The requests that send taxis about. */
  predicate IsTraffic(r: RequestSubject) {
    || r.NEW_TAXI? || r.TAXI_RECONNECTED? || r.TAXI_MOVE? || r.TAXI_DESTINATION_REACHED?
    || r.ORDER_TAXI_GO_TO? || r.ORDER_TAXI_RETURN_TO_BASE?
  }

  lemma TrafficKeepsCustomer(db: Tables, session: Text, m: Message, answers: Answers, c: Char)
    requires m.subject.Request? && Admitted(m, session).Some? && IsTraffic(m.subject.request)
    ensures CustomerOf(AfterTurn(db, Consumed(m, answers), session), c) == CustomerOf(db, c)
  {
    TablesAre(db, session, m, answers);
    match m.subject.request
    case NEW_TAXI => QueueKeepsCustomer(db, m.taxiId, answers, c);
    case TAXI_RECONNECTED => QueueKeepsCustomer(db, m.taxiId, answers, c);
    case TAXI_MOVE => MoveKeepsCustomer(db, m.taxiId, m.coord, c);
    case TAXI_DESTINATION_REACHED => ReachedKeepsCustomer(db, m.taxiId, m.coord, answers, c);
    case ORDER_TAXI_GO_TO => RedirectKeepsCustomer(db, m.taxiId, m.coord, c);
    case ORDER_TAXI_RETURN_TO_BASE => RedirectKeepsCustomer(db, m.taxiId, Coordinate(0, 0), c);
  }

  lemma RequestMessageSets(db: Tables, session: Text, m: Message, answers: Answers, c: Char)
    requires m.subject == Request(CUSTOMER_SERVICE_REQUEST) && m.session == session
    ensures CustomerOf(AfterTurn(db, Consumed(m, answers), session), c)
         == TurnCustomer(db, Consumed(m, answers), session, c, CustomerOf(db, c))
  {
    TablesAre(db, session, m, answers);
    RequestSetsCustomer(db, m.id, DataChar(m), answers, c);
  }

  /** The requests that write a customer's row by its id, besides its request for a service. */
  predicate WritesCustomer(r: RequestSubject) {
    r.NEW_CUSTOMER? || r.ORDER_CUSTOMER_DISCONNECT? || r.ORDER_CUSTOMER_PRIORITY? || r.CUSTOMER_UPDATE_NEXT_REQUEST?
  }

  lemma CustomerMessageSets(db: Tables, session: Text, m: Message, answers: Answers, c: Char)
    requires m.subject.Request? && Admitted(m, session).Some? && WritesCustomer(m.subject.request)
    ensures CustomerOf(AfterTurn(db, Consumed(m, answers), session), c)
         == TurnCustomer(db, Consumed(m, answers), session, c, CustomerOf(db, c))
  {
    TablesAre(db, session, m, answers);
  }

  lemma OtherMessageKeepsCustomer(db: Tables, session: Text, m: Message, answers: Answers, c: Char)
    requires m.subject.Request? && Admitted(m, session).Some? && !WritesCustomer(m.subject.request)
    requires !IsTraffic(m.subject.request) && !m.subject.request.CUSTOMER_SERVICE_REQUEST?
    ensures CustomerOf(AfterTurn(db, Consumed(m, answers), session), c)
         == TurnCustomer(db, Consumed(m, answers), session, c, CustomerOf(db, c))
  {
  }

  lemma SkippedMessageKeepsCustomer(db: Tables, session: Text, m: Message, answers: Answers, c: Char)
    requires m.subject.Request? && Admitted(m, session).None?
    ensures CustomerOf(AfterTurn(db, Consumed(m, answers), session), c)
         == TurnCustomer(db, Consumed(m, answers), session, c, CustomerOf(db, c))
  {
  }

  lemma TurnSetsCustomer(db: Tables, turn: Turn, session: Text, c: Char)
    ensures CustomerOf(AfterTurn(db, turn, session), c) == TurnCustomer(db, turn, session, c, CustomerOf(db, c))
  {
    if turn.Consumed? && turn.request.subject.Request? {
      var m, r := turn.request, turn.request.subject.request;
      if Admitted(m, session).None? {
        SkippedMessageKeepsCustomer(db, session, m, turn.answers, c);
      } else if IsTraffic(r) {
        TrafficKeepsCustomer(db, session, m, turn.answers, c);
      } else if r.CUSTOMER_SERVICE_REQUEST? {
        RequestMessageSets(db, session, m, turn.answers, c);
      } else if WritesCustomer(r) {
        CustomerMessageSets(db, session, m, turn.answers, c);
      } else {
        OtherMessageKeepsCustomer(db, session, m, turn.answers, c);
      }
    }
  }

  /** After any run, a customer's row is there, queued and due for its next request as the last message that says so
      left it. */
  lemma {:induction false} CustomerIsLast(db: Tables, turns: seq<Turn>, session: Text, c: Char)
    ensures CustomerOf(AfterTurns(db, turns, session), c) == LastCustomer(db, turns, session, c)
  {
    if turns != [] {
      var front, last := turns[..|turns| - 1], turns[|turns| - 1];
      CustomerIsLast(db, front, session, c);
      TurnSetsCustomer(AfterTurns(db, front, session), last, session, c);
    }
  }

  // ---------------------------------------------------------------- locations

  function PlaceIn(db: Tables, l: Char): Option<Coordinate> {
    if l in db.locations then Some(db.locations[l]) else None
  }

  function LastPlace(turns: seq<Turn>, l: Char, first: Option<Coordinate>): Option<Coordinate> {
    if turns == [] then first
    else
      var last := turns[|turns| - 1];
      if first.Some? && last.Consumed? && last.request.subject == Request(ORDER_LOCATION_MOVE) && last.request.id == l
      then Some(last.request.coord)
      else LastPlace(turns[..|turns| - 1], l, first)
  }

  /** The requests that run statements on taxis and customers together. */
  lemma TrafficKeepsPlaces(db: Tables, session: Text, m: Message, answers: Answers)
    requires m.subject.Request? && Admitted(m, session).Some?
    requires IsTraffic(m.subject.request) || m.subject.request.CUSTOMER_SERVICE_REQUEST?
    ensures AfterTurn(db, Consumed(m, answers), session).locations == db.locations
  {
    TablesAre(db, session, m, answers);
    match m.subject.request
    case NEW_TAXI => Queueing.QueueLeavesLocations(db, m.taxiId, answers);
    case TAXI_RECONNECTED => Queueing.QueueLeavesLocations(db, m.taxiId, answers);
    case TAXI_MOVE => Queueing.OnboardLeavesLocations(db, m.taxiId, m.coord, m.id, false);
    case TAXI_DESTINATION_REACHED => Queueing.ReachedLeavesLocations(db, m.taxiId, m.coord, answers);
    case CUSTOMER_SERVICE_REQUEST => Queueing.RequestLeavesLocations(db, m.id, DataChar(m), answers);
    case _ =>
  }

  lemma TurnSetsPlace(db: Tables, turn: Turn, session: Text, l: Char)
    ensures PlaceIn(AfterTurn(db, turn, session), l)
         == if l in db.locations && turn.Consumed? && turn.request.subject == Request(ORDER_LOCATION_MOVE)
               && turn.request.id == l
            then Some(turn.request.coord) else PlaceIn(db, l)
  {
    if turn.Consumed? && Admitted(turn.request, session).Some? {
      var m := turn.request;
      if IsTraffic(m.subject.request) || m.subject.request.CUSTOMER_SERVICE_REQUEST? {
        TrafficKeepsPlaces(db, session, m, turn.answers);
      } else {
        OtherMessageSetsPlace(db, session, m, turn.answers, l);
      }
    }
  }

  lemma OtherMessageSetsPlace(db: Tables, session: Text, m: Message, answers: Answers, l: Char)
    requires m.subject.Request? && Admitted(m, session).Some?
    requires !IsTraffic(m.subject.request) && !m.subject.request.CUSTOMER_SERVICE_REQUEST?
    ensures PlaceIn(AfterTurn(db, Consumed(m, answers), session), l)
         == if l in db.locations && m.subject == Request(ORDER_LOCATION_MOVE) && m.id == l then Some(m.coord)
            else PlaceIn(db, l)
  {
  }

  /** After any run, a location is where it was last moved to. */
  lemma {:induction false} PlaceIsLast(db: Tables, turns: seq<Turn>, session: Text, l: Char)
    ensures PlaceIn(AfterTurns(db, turns, session), l) == LastPlace(turns, l, PlaceIn(db, l))
  {
    if turns != [] {
      var front, last := turns[..|turns| - 1], turns[|turns| - 1];
      PlaceIsLast(db, front, session, l);
      PlacesStay(front, l, PlaceIn(db, l));
      TurnSetsPlace(AfterTurns(db, front, session), last, session, l);
    }
  }

  lemma {:induction false} PlacesStay(turns: seq<Turn>, l: Char, first: Option<Coordinate>)
    ensures LastPlace(turns, l, first).Some? <==> first.Some?
  {
    if turns != [] {
      PlacesStay(turns[..|turns| - 1], l, first);
    }
  }
}
