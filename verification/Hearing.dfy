/** Who hears what of a request, from its message to the messages it causes, and what that comes to over runs. */
module Hearing {
  import opened Wrappers
  import opened Bytes
  import opened Protocol
  import opened Database
  import opened Dispatcher
  import opened DispatcherRuns
  import opened Replies
  import opened KafkaServer
  import opened Columns
  import Customer
  import Engine = TaxiEngine
  import MessageCodec

  /** How the server serves a request message. */
  function Outcomes(db: Tables, session: Text, m: Message, answers: Answers): Outcome
    requires m.subject.Request?
  {
    Handle(db, session, CallOf(m).value, answers)
  }

  // ---------------------------------------------------------------- one message, for one reader

  /** The topic holds one message, with that subject, for that taxi; no customer takes anything from it, and no other
      taxi does. */
  ghost predicate OnlyTaxiHears(ms: seq<Message>, subject: ResponseSubject, t: int, order: Order) {
    && |ms| == 1 && ms[0].subject == Response(subject) && ms[0].taxiId == t
    && Orders(ms, t) == [order]
    && (forall u :: u != t ==> Orders(ms, u) == [])
    && (forall c :: Notices(ms, c) == [])
  }

  ghost predicate OnlyCustomerHears(ms: seq<Message>, subject: ResponseSubject, c: Char, notice: Notice) {
    && |ms| == 1 && ms[0].subject == Response(subject) && ms[0].id == c
    && Notices(ms, c) == [notice]
    && (forall d :: d != c ==> Notices(ms, d) == [])
    && (forall t :: Orders(ms, t) == [])
  }

  lemma OneMessage(m: Message, t: int, c: Char)
    ensures Orders([m], t) == if OrderFor(m, t).Some? then [OrderFor(m, t).value] else []
    ensures Notices([m], c) == if NoticeFor(m, c).Some? then [NoticeFor(m, c).value] else []
  {
    var ms := [m];
    assert seq(1, i requires 0 <= i < 1 => OrderFor(ms[i], t)) == [OrderFor(m, t)];
    assert seq(1, i requires 0 <= i < 1 => NoticeFor(ms[i], c)) == [NoticeFor(m, c)];
    SomesOfOne(OrderFor(m, t));
    SomesOfOne(NoticeFor(m, c));
  }

  lemma TaxiHears(m: Message, subject: ResponseSubject, t: int, order: Order)
    requires m.subject == Response(subject) && OrderFor(m, t) == Some(order)
    requires forall c :: NoticeFor(m, c).None?
    ensures OnlyTaxiHears([m], subject, t, order)
  {
    forall u ensures Orders([m], u) == if u == t then [order] else [] {
      OneMessage(m, u, m.id);
      assert u != t ==> OrderFor(m, u).None?;
    }
    forall c ensures Notices([m], c) == [] {
      OneMessage(m, t, c);
    }
  }

  lemma CustomerHears(m: Message, subject: ResponseSubject, c: Char, notice: Notice)
    requires m.subject == Response(subject) && NoticeFor(m, c) == Some(notice)
    requires forall t :: OrderFor(m, t).None?
    ensures OnlyCustomerHears([m], subject, c, notice)
  {
    forall d ensures Notices([m], d) == if d == c then [notice] else [] {
      OneMessage(m, m.taxiId, d);
      assert d != c ==> NoticeFor(m, d).None?;
    }
    forall t ensures Orders([m], t) == [] {
      OneMessage(m, t, c);
    }
  }

  /** An order of the operator to a taxi is heard by that taxi alone, as what it is. */
  lemma TaxiOrdersAreHeard(db: Tables, session: Text, m: Message, answers: Answers, ms: seq<Message>)
    requires m.subject.Request? && RepresentsAll(ms, Outcomes(db, session, m, answers).replies)
    ensures m.subject == Request(ORDER_TAXI_STOP) ==> OnlyTaxiHears(ms, TAXI_STOP, m.taxiId, Stop)
    ensures m.subject == Request(ORDER_TAXI_CONTINUE) ==> OnlyTaxiHears(ms, TAXI_CONTINUE, m.taxiId, Continue)
    ensures m.subject == Request(ORDER_TAXI_DISCONNECT) ==>
              OnlyTaxiHears(ms, ResponseSubject.TAXI_DISCONNECT, m.taxiId, Disconnect)
    ensures m.subject == Request(ORDER_TAXI_GO_TO) ==> OnlyTaxiHears(ms, TAXI_GO_TO, m.taxiId, GoTo(m.coord))
    ensures m.subject == Request(ORDER_TAXI_RETURN_TO_BASE) ==>
              OnlyTaxiHears(ms, TAXI_GO_TO, m.taxiId, GoTo(Coordinate(0, 0)))
  {
    var r := m.subject.request;
    if r.ORDER_TAXI_STOP? || r.ORDER_TAXI_CONTINUE? || r.ORDER_TAXI_DISCONNECT?
       || r.ORDER_TAXI_GO_TO? || r.ORDER_TAXI_RETURN_TO_BASE? {
      var order := match r
        case ORDER_TAXI_STOP => Stop
        case ORDER_TAXI_CONTINUE => Continue
        case ORDER_TAXI_DISCONNECT => Disconnect
        case ORDER_TAXI_GO_TO => GoTo(m.coord)
        case _ => GoTo(Coordinate(0, 0));
      var subject := match r
        case ORDER_TAXI_STOP => TAXI_STOP
        case ORDER_TAXI_CONTINUE => TAXI_CONTINUE
        case ORDER_TAXI_DISCONNECT => ResponseSubject.TAXI_DISCONNECT
        case _ => TAXI_GO_TO;
      assert ms == [ms[0]];
      TaxiHears(ms[0], subject, m.taxiId, order);
    }
  }

  /** The deletion and the priority order are heard by that customer alone. */
  lemma CustomerOrdersAreHeard(db: Tables, session: Text, m: Message, answers: Answers, ms: seq<Message>)
    requires m.subject.Request? && RepresentsAll(ms, Outcomes(db, session, m, answers).replies)
    ensures m.subject == Request(ORDER_CUSTOMER_DISCONNECT) ==>
              OnlyCustomerHears(ms, CUSTOMER_DISCONNECT, m.id, Disconnected)
    ensures m.subject == Request(ORDER_CUSTOMER_PRIORITY) ==>
              OnlyCustomerHears(ms, CUSTOMER_PRIORITY, m.id, Prioritised)
  {
    var r := m.subject.request;
    if r.ORDER_CUSTOMER_DISCONNECT? || r.ORDER_CUSTOMER_PRIORITY? {
      assert ms == [ms[0]];
      CustomerHears(ms[0], if r.ORDER_CUSTOMER_PRIORITY? then CUSTOMER_PRIORITY else CUSTOMER_DISCONNECT, m.id,
                    if r.ORDER_CUSTOMER_PRIORITY? then Prioritised else Disconnected);
    }
  }

  /** The requests that only report something. */
  predicate IsReport(r: RequestSubject) {
    || r.TAXI_PING? || r.CUSTOMER_PING? || r.TAXI_READY? || r.TAXI_NOT_READY? || r.TAXI_UPDATE_WAIT_TIME?
    || r.TAXI_MOVE? || r.CUSTOMER_UPDATE_NEXT_REQUEST? || r.ORDER_LOCATION_MOVE?
  }

  /** Nobody hears of a report, and it never ends the server. */
  lemma ReportsAreSilent(db: Tables, session: Text, m: Message, answers: Answers)
    requires m.subject.Request? && IsReport(m.subject.request)
    ensures Outcomes(db, session, m, answers).replies == [] && Outcomes(db, session, m, answers).fate.Served?
  {
  }

  // ---------------------------------------------------------------- a request for a service

  /** No free taxi: the customer alone hears that it is queued, and its row, if it has one, is queued at that time;
      nothing else changes. */
  lemma NoTaxiMeansQueued(db: Tables, session: Text, m: Message, answers: Answers, ms: seq<Message>)
    requires m.subject == Request(CUSTOMER_SERVICE_REQUEST) && answers.freeTaxi.None?
    requires RepresentsAll(ms, Outcomes(db, session, m, answers).replies)
    ensures OnlyCustomerHears(ms, CUSTOMER_ENQUEUED, m.id, Enqueued)
    ensures var out := Outcomes(db, session, m, answers);
            && out.fate.Served?
            && (m.id !in db.customers ==> out.db == db)
            && (m.id in db.customers ==>
                  out.db == Tables(db.locations,
                                   db.customers[m.id := db.customers[m.id].(inQueue := Some(answers.now))],
                                   db.taxis))
  {
    assert ms == [ms[0]];
    CustomerHears(ms[0], CUSTOMER_ENQUEUED, m.id, Enqueued);
  }

  /** A free taxi, but no such location: the customer alone hears that it is refused, and nothing changes. */
  lemma UnknownPlaceMeansDenied(db: Tables, session: Text, m: Message, answers: Answers, ms: seq<Message>)
    requires m.subject == Request(CUSTOMER_SERVICE_REQUEST) && answers.freeTaxi.Some?
    requires m.id in db.customers && DataChar(m) !in db.locations
    requires RepresentsAll(ms, Outcomes(db, session, m, answers).replies)
    ensures OnlyCustomerHears(ms, CUSTOMER_SERVICE_DENIED, m.id, Denied)
    ensures Outcomes(db, session, m, answers).db == db && Outcomes(db, session, m, answers).fate.Served?
  {
    assert ms == [ms[0]];
    CustomerHears(ms[0], CUSTOMER_SERVICE_DENIED, m.id, Denied);
  }

  /** What the messages of an assignment are to their readers, whatever stale fields they carry. */
  ghost predicate AssignmentHeard(ms: seq<Message>, t: int, c: Char, home: Coordinate) {
    && Orders(ms, t) == [GoTo(home)] && Notices(ms, c) == [AcceptedBy(t), AcceptedBy(t)]
    && (forall u :: u != t ==> Orders(ms, u) == [])
    && (forall d :: d != c ==> Notices(ms, d) == [])
  }

  /** A free taxi and a known location: that taxi alone is sent to the customer, and the customer alone hears, twice,
      that the taxi comes. */
  lemma FreeTaxiMeansAccepted(db: Tables, session: Text, m: Message, answers: Answers, ms: seq<Message>)
    requires m.subject == Request(CUSTOMER_SERVICE_REQUEST)
    requires m.id in db.customers && DataChar(m) in db.locations
    requires answers.freeTaxi.Some? && answers.freeTaxi.value in db.taxis
    requires RepresentsAll(ms, Outcomes(db, session, m, answers).replies)
    ensures AssignmentHeard(ms, answers.freeTaxi.value, m.id, db.customers[m.id].coord)
  {
    var t, c, home := answers.freeTaxi.value, m.id, db.customers[m.id].coord;
    var rs := [TaxiGoTo(t, home)] + [ServiceAccepted(c, t)] + [ServiceAccepted(c, t)];
    assert Outcomes(db, session, m, answers).replies == rs;
    forall u ensures Orders(ms, u) == if u == t then [GoTo(home)] else [] {
      RepresentedTopic(ms, rs, u, c);
      AcceptanceReplies(t, c, home, u, c);
    }
    forall d ensures Notices(ms, d) == if d == c then [AcceptedBy(t), AcceptedBy(t)] else [] {
      RepresentedTopic(ms, rs, t, d);
      AcceptanceReplies(t, c, home, t, d);
    }
  }

  lemma AcceptanceReplies(t: int, c: Char, home: Coordinate, u: int, d: Char)
    ensures var rs := [TaxiGoTo(t, home)] + [ServiceAccepted(c, t)] + [ServiceAccepted(c, t)];
            && OrdersOf(rs, u) == (if u == t then [GoTo(home)] else [])
            && NoticesOf(rs, d) == if d == c then [AcceptedBy(t), AcceptedBy(t)] else []
  {
    var goTo, accepted := TaxiGoTo(t, home), ServiceAccepted(c, t);
    OneReply(goTo, u, d);
    OneReply(accepted, u, d);
    OrdersOfConcat([goTo], [accepted], u);
    OrdersOfConcat([goTo] + [accepted], [accepted], u);
    NoticesConcat([goTo], [accepted], d);
    NoticesConcat([goTo] + [accepted], [accepted], d);
  }

  lemma OneReply(r: Reply, t: int, c: Char)
    ensures OrdersOf([r], t) == if OrderOf(r, t).Some? then [OrderOf(r, t).value] else []
    ensures NoticesOf([r], c) == if NoticeOf(r, c).Some? then [NoticeOf(r, c).value] else []
  {
    var rs := [r];
    assert seq(1, i requires 0 <= i < 1 => OrderOf(rs[i], t)) == [OrderOf(r, t)];
    assert seq(1, i requires 0 <= i < 1 => NoticeOf(rs[i], c)) == [NoticeOf(r, c)];
    SomesOfOne(OrderOf(r, t));
    SomesOfOne(NoticeOf(r, c));
  }

  // ---------------------------------------------------------------- waiting in the queue

  lemma NoticesJoin(a: seq<Message>, b: seq<Message>, c: Char)
    ensures Notices(a + b, c) == Notices(a, c) + Notices(b, c)
  {
    var ab := a + b;
    var first := seq(|a|, i requires 0 <= i < |a| => NoticeFor(a[i], c));
    var second := seq(|b|, i requires 0 <= i < |b| => NoticeFor(b[i], c));
    assert seq(|ab|, i requires 0 <= i < |ab| => NoticeFor(ab[i], c)) == first + second;
    SomesConcat(first, second);
  }

  /** The replies that end a customer's wait. */
  predicate EndsService(r: Reply, c: Char) {
    r in [CustomerDisconnect(c), ServiceCompleted(c), ServiceDenied(c)]
  }

  lemma EndsWaitIff(m: Message, r: Reply, c: Char)
    requires Represents(m, r)
    ensures Customer.EndsWait(m, c) <==> EndsService(r, c)
  {
  }

  /** Whatever comes after it was queued, the customer waits until it hears of its disconnection, a completion or a
      refusal, and then ends its wait as if it had never been queued. */
  lemma QueuedCustomerKeepsWaiting(
    db: Tables, session: Text, tag: Text, m: Message, answers: Answers, ms: seq<Message>,
    es: seq<Event>, later: seq<Message>)
    requires m.subject == Request(CUSTOMER_SERVICE_REQUEST) && answers.freeTaxi.None?
    requires RepresentsAll(ms, Outcomes(db, session, m, answers).replies)
    requires RepresentsAll(later, RepliesOf(Published(Outcomes(db, session, m, answers).db, session, tag, es)))
    ensures var wait := Customer.Wait(Notices(ms + later, m.id));
            && wait == Customer.Wait(Notices(later, m.id))
            && (wait.None? <==>
                  forall r :: r in RepliesOf(Published(Outcomes(db, session, m, answers).db, session, tag, es)) ==>
                    !EndsService(r, m.id))
  {
    var rs := RepliesOf(Published(Outcomes(db, session, m, answers).db, session, tag, es));
    NoTaxiMeansQueued(db, session, m, answers, ms);
    NoticesJoin(ms, later, m.id);
    assert ([Enqueued] + Notices(later, m.id))[1..] == Notices(later, m.id);
    Customer.WaitEndsIff(later, m.id);
    WaitingIff(later, rs, m.id);
  }

  lemma WaitingIff(ms: seq<Message>, rs: seq<Reply>, c: Char)
    requires RepresentsAll(ms, rs)
    ensures (forall i :: 0 <= i < |ms| ==> !Customer.EndsWait(ms[i], c)) <==> (forall r :: r in rs ==> !EndsService(r, c))
  {
    forall i | 0 <= i < |ms| ensures Customer.EndsWait(ms[i], c) <==> EndsService(rs[i], c) {
      EndsWaitIff(ms[i], rs[i], c);
    }
    if forall i :: 0 <= i < |ms| ==> !Customer.EndsWait(ms[i], c) {
      forall r | r in rs ensures !EndsService(r, c) {
        var i :| 0 <= i < |rs| && rs[i] == r;
        assert !Customer.EndsWait(ms[i], c);
      }
    }
    if forall r :: r in rs ==> !EndsService(r, c) {
      forall i | 0 <= i < |ms| ensures !Customer.EndsWait(ms[i], c) {
        assert rs[i] in rs;
      }
    }
  }

  // ---------------------------------------------------------------- stops, in the tables and in the taxi

  /** Whether the last order of the operator to the taxi, to stop or to continue, was one to stop. */
  function LastStopped(turns: seq<Turn>, t: int, first: bool): bool {
    if turns == [] then first
    else
      var last := turns[|turns| - 1];
      if last.Consumed? && last.request.taxiId == t && last.request.subject == Request(ORDER_TAXI_STOP) then true
      else if last.Consumed? && last.request.taxiId == t && last.request.subject == Request(ORDER_TAXI_CONTINUE) then false
      else LastStopped(turns[..|turns| - 1], t, first)
  }

  lemma {:induction false} StatusStops(turns: seq<Turn>, session: Text, t: int, first: TaxiStatus)
    ensures var last := LastStatus(turns, session, t, Some(first));
            last.Some? && last.value.stopped == LastStopped(turns, t, first.stopped)
  {
    if turns != [] {
      StatusStops(turns[..|turns| - 1], session, t, first);
    }
  }

  lemma {:induction false} LastStopConcat(a: seq<Order>, b: seq<Order>, first: bool)
    ensures Engine.LastStop(a + b, first) == Engine.LastStop(b, Engine.LastStop(a, first))
    decreases |b|
  {
    if b == [] {
      assert a + b == a;
    } else {
      var front, last := b[..|b| - 1], b[|b| - 1];
      assert a + b == a + front + [last] && b == front + [last];
      LastStopConcat(a, front, first);
      Engine.LastStopAfter(a + front, last, first);
      Engine.LastStopAfter(front, last, Engine.LastStop(a, first));
    }
  }

  /** Replies other than orders to stop and to continue. */
  lemma {:induction false} OthersDoNotStop(rs: seq<Reply>, t: int, first: bool)
    requires forall r :: r in rs ==> !r.TaxiStop? && !r.TaxiContinue?
    ensures Engine.LastStop(OrdersOf(rs, t), first) == first
    decreases |rs|
  {
    if rs != [] {
      var front, last := rs[..|rs| - 1], rs[|rs| - 1];
      assert rs == front + [last];
      OthersDoNotStop(front, t, first);
      OneMore(front, last, t, 'a');
      if OrderOf(last, t).Some? {
        Engine.LastStopAfter(OrdersOf(front, t), OrderOf(last, t).value, first);
      } else {
        assert OrdersOf(front, t) + [] == OrdersOf(front, t);
      }
    }
  }

  lemma OnlyStopsStop(db: Tables, session: Text, call: Call, answers: Answers)
    requires !call.OrderTaxiStop? && !call.OrderTaxiContinue?
    ensures forall r :: r in Handle(db, session, call, answers).replies ==> !r.TaxiStop? && !r.TaxiContinue?
  {
  }

  lemma OneOrderStops(reply: Reply, t: int, first: bool)
    requires reply.TaxiStop? || reply.TaxiContinue?
    ensures Engine.LastStop(OrdersOf([reply], t), first) == if reply.taxiId == t then reply.TaxiStop? else first
  {
    OneReply(reply, t, 'a');
    if reply.taxiId == t {
      Engine.LastStopAfter([], OrderOf(reply, t).value, first);
      assert [] + [OrderOf(reply, t).value] == [OrderOf(reply, t).value];
    }
  }

  lemma MessageStops(db: Tables, session: Text, m: Message, answers: Answers, t: int, first: bool)
    requires m.subject.Request?
    ensures Engine.LastStop(OrdersOf(Outcomes(db, session, m, answers).replies, t), first)
         == if m.taxiId == t && m.subject == Request(ORDER_TAXI_STOP) then true
            else if m.taxiId == t && m.subject == Request(ORDER_TAXI_CONTINUE) then false
            else first
  {
    if m.subject == Request(ORDER_TAXI_STOP) {
      OneOrderStops(TaxiStop(m.taxiId), t, first);
    } else if m.subject == Request(ORDER_TAXI_CONTINUE) {
      OneOrderStops(TaxiContinue(m.taxiId), t, first);
    } else {
      OnlyStopsStop(db, session, CallOf(m).value, answers);
      OthersDoNotStop(Outcomes(db, session, m, answers).replies, t, first);
    }
  }

  /** The replies of the run that the turns make. */
  function TurnReplies(db: Tables, turn: Turn, session: Text): seq<Reply> {
    var e := EventOf(turn, session);
    if e.Some? && e.value.Serve? then Handle(db, session, e.value.call, e.value.answers).replies else []
  }

  lemma RepliesOfConcat(a: seq<Stamped>, b: seq<Stamped>)
    ensures RepliesOf(a + b) == RepliesOf(a) + RepliesOf(b)
  {
  }

  lemma RepliesOfEvent(db: Tables, session: Text, tag: Text, turn: Turn)
    requires EventOf(turn, session).Some?
    ensures RepliesOf(EventReplies(db, session, tag, EventOf(turn, session).value)) == TurnReplies(db, turn, session)
  {
  }

  lemma PublishedMore(db: Tables, session: Text, tag: Text, front: seq<Turn>, last: Turn)
    ensures RepliesOf(Published(db, session, tag, EventsOf(front + [last], session)))
         == RepliesOf(Published(db, session, tag, EventsOf(front, session)))
            + TurnReplies(AfterTurns(db, front, session), last, session)
  {
    var es, e := EventsOf(front, session), EventOf(last, session);
    LastTurn(front, last, session);
    TurnsAreEvents(db, front, session);
    if e.Some? {
      var there := After(db, session, es);
      OneMoreEvent(db, session, tag, es, e.value);
      RepliesOfConcat(Published(db, session, tag, es), EventReplies(there, session, TagsAfter(tag, es), e.value));
      RepliesOfEvent(there, session, TagsAfter(tag, es), last);
    } else {
      var before := RepliesOf(Published(db, session, tag, es));
      assert es + [] == es && before + [] == before;
    }
  }

  lemma TurnStops(db: Tables, turn: Turn, session: Text, t: int, first: bool)
    ensures Engine.LastStop(OrdersOf(TurnReplies(db, turn, session), t), first)
         == if turn.Consumed? && turn.request.taxiId == t && turn.request.subject == Request(ORDER_TAXI_STOP) then true
            else if turn.Consumed? && turn.request.taxiId == t && turn.request.subject == Request(ORDER_TAXI_CONTINUE)
            then false
            else first
  {
    if turn.Consumed? && Admitted(turn.request, session).Some? {
      MessageStops(db, session, turn.request, turn.answers, t, first);
    } else {
      assert OrdersOf([], t) == [];
    }
  }

  lemma {:induction false} PublishedStops(db: Tables, session: Text, tag: Text, turns: seq<Turn>, t: int, first: bool)
    ensures Engine.LastStop(OrdersOf(RepliesOf(Published(db, session, tag, EventsOf(turns, session))), t), first)
         == LastStopped(turns, t, first)
    decreases |turns|
  {
    if turns != [] {
      var front, last := turns[..|turns| - 1], turns[|turns| - 1];
      assert turns == front + [last];
      var before := RepliesOf(Published(db, session, tag, EventsOf(front, session)));
      var more := TurnReplies(AfterTurns(db, front, session), last, session);
      PublishedStops(db, session, tag, front, t, first);
      PublishedMore(db, session, tag, front, last);
      OrdersOfConcat(before, more, t);
      LastStopConcat(OrdersOf(before, t), OrdersOf(more, t), first);
      TurnStops(AfterTurns(db, front, session), last, session, t, LastStopped(front, t, first));
    } else {
      assert OrdersOf([], t) == [];
    }
  }

  /** From a row and a taxi that agree, once the taxi has read all its orders they agree again, whatever run of the
      server and whatever rounds of the taxi came between: both are stopped exactly if the last of the operator's
      orders to the taxi, to stop or to continue, was one to stop. */
  lemma StopsAgree(
    db: Tables, session: Text, tag: Text, turns: seq<Turn>, ms: seq<Message>,
    t: int, taxi: Engine.State, es: seq<Engine.Event>)
    requires t in db.taxis && db.taxis[t].stopped == taxi.orderedToStop
    requires Transmits(ms, Published(db, session, tag, EventsOf(turns, session)))
    requires Engine.OrdersRead(es) == Orders(ms, t)
    ensures var after := AfterTurns(db, turns, session);
            && t in after.taxis
            && after.taxis[t].stopped == Engine.Run(taxi, es, t).state.orderedToStop
            && after.taxis[t].stopped == LastStopped(turns, t, taxi.orderedToStop)
  {
    var published := Published(db, session, tag, EventsOf(turns, session));
    StatusIsLast(db, turns, session, t);
    StatusStops(turns, session, t, StatusOf(db, t).value);
    RepresentedTopic(ms, RepliesOf(published), t, 'a');
    PublishedStops(db, session, tag, turns, t, taxi.orderedToStop);
    Engine.StoppedAsOrdered(taxi, es, t);
  }

  // ---------------------------------------------------------------- messages without the server's session

  /** A request that is not one of the nine and carries another session changes nothing and is answered by nothing. */
  lemma ForeignMessageIsSkipped(db: Tables, session: Text, m: Message, answers: Answers)
    requires m.session != session
    requires m.subject !in [
               Request(ORDER_TAXI_GO_TO), Request(ORDER_TAXI_STOP), Request(ORDER_TAXI_CONTINUE),
               Request(ORDER_TAXI_RETURN_TO_BASE), Request(ORDER_TAXI_DISCONNECT), Request(ORDER_CUSTOMER_DISCONNECT),
               Request(ORDER_CUSTOMER_PRIORITY), Request(ORDER_LOCATION_MOVE), Request(NEW_CUSTOMER)
             ]
    ensures AfterTurn(db, Consumed(m, answers), session) == db
    ensures TurnReplies(db, Consumed(m, answers), session) == []
  {
    PassesWithoutSessionIff(m, session);
  }

  /** What the check for strays sends of a taxi, and of a customer. */
  function StrayTaxi(t: int): Message { EmptyMessage().(taxiId := t, subject := Request(ORDER_TAXI_DISCONNECT)) }

  function StrayCustomer(c: Char): Message { EmptyMessage().(id := c, subject := Request(ORDER_CUSTOMER_DISCONNECT)) }

  lemma StrayOrderPasses(m: Message, session: Text)
    requires m.subject == Request(ORDER_TAXI_DISCONNECT) || m.subject == Request(ORDER_CUSTOMER_DISCONNECT)
    ensures Admitted(m, session).Some?
  {
    if m.session != session {
      PassesWithoutSessionIff(m, session);
    }
  }

  lemma StrayOrderDisconnects(db: Tables, session: Text, m: Message, answers: Answers)
    requires m.subject == Request(ORDER_TAXI_DISCONNECT) || m.subject == Request(ORDER_CUSTOMER_DISCONNECT)
    ensures var out := Outcomes(db, session, m, answers);
            && out.fate.Served?
            && (m.subject == Request(ORDER_TAXI_DISCONNECT) && m.taxiId in db.taxis ==>
                  m.taxiId in out.db.taxis && !out.db.taxis[m.taxiId].connected)
            && (m.subject == Request(ORDER_CUSTOMER_DISCONNECT) ==>
                  (m.id in out.db.customers <==> m.id in db.customers && Carried(db, m.id)))
  {
  }

  /** Written without a session and read back with whatever memory follows it, the order still disconnects the taxi,
      and the taxi alone hears of it. */
  lemma StrayTaxiIsDisconnected(
    t: int, beyond: seq<byte>, session: Text, db: Tables, answers: Answers, ms: seq<Message>)
    requires MessageCodec.Fits(StrayTaxi(t))
    requires |MessageCodec.MessageBytes(StrayTaxi(t)) + beyond| >= MessageCodec.MESSAGE_SIZE
    ensures var received := MessageCodec.ReadMessage(MessageCodec.MessageBytes(StrayTaxi(t)) + beyond);
            && received.Some? && received.value.subject == Request(ORDER_TAXI_DISCONNECT)
            && Admitted(received.value, session).Some?
            && var out := Outcomes(db, session, received.value, answers);
            && out.fate.Served?
            && (t in db.taxis ==> t in out.db.taxis && !out.db.taxis[t].connected)
            && (RepresentsAll(ms, out.replies) ==>
                  OnlyTaxiHears(ms, ResponseSubject.TAXI_DISCONNECT, t, Disconnect))
  {
    var m := StrayTaxi(t);
    ReceivedHeader(m, beyond);
    var received := MessageCodec.ReadMessage(MessageCodec.MessageBytes(m) + beyond).value;
    StrayOrderPasses(received, session);
    StrayOrderDisconnects(db, session, received, answers);
    if RepresentsAll(ms, Outcomes(db, session, received, answers).replies) {
      TaxiOrdersAreHeard(db, session, received, answers, ms);
    }
  }

  lemma StrayCustomerIsDisconnected(
    c: Char, beyond: seq<byte>, session: Text, db: Tables, answers: Answers, ms: seq<Message>)
    requires MessageCodec.Fits(StrayCustomer(c))
    requires |MessageCodec.MessageBytes(StrayCustomer(c)) + beyond| >= MessageCodec.MESSAGE_SIZE
    ensures var received := MessageCodec.ReadMessage(MessageCodec.MessageBytes(StrayCustomer(c)) + beyond);
            && received.Some? && received.value.subject == Request(ORDER_CUSTOMER_DISCONNECT)
            && Admitted(received.value, session).Some?
            && var out := Outcomes(db, session, received.value, answers);
            && out.fate.Served?
            && (c in out.db.customers <==> c in db.customers && Carried(db, c))
            && (RepresentsAll(ms, out.replies) ==> OnlyCustomerHears(ms, CUSTOMER_DISCONNECT, c, Disconnected))
  {
    var m := StrayCustomer(c);
    ReceivedHeader(m, beyond);
    var received := MessageCodec.ReadMessage(MessageCodec.MessageBytes(m) + beyond).value;
    StrayOrderPasses(received, session);
    StrayOrderDisconnects(db, session, received, answers);
    if RepresentsAll(ms, Outcomes(db, session, received, answers).replies) {
      CustomerOrdersAreHeard(db, session, received, answers, ms);
    }
  }

  lemma ReceivedHeader(m: Message, beyond: seq<byte>)
    requires MessageCodec.Fits(m) && |MessageCodec.MessageBytes(m) + beyond| >= MessageCodec.MESSAGE_SIZE
    ensures var received := MessageCodec.ReadMessage(MessageCodec.MessageBytes(m) + beyond);
            && received.Some? && received.value.subject == m.subject
            && received.value.id == m.id && received.value.taxiId == m.taxiId && received.value.coord == m.coord
  {
    var rest := TextBytes(m.session) + m.data + beyond;
    MessageCodec.Regroup(MessageCodec.HeaderBytes(m), TextBytes(m.session), m.data, beyond);
    MessageCodec.HeaderSurvives(m, rest);
  }
}
