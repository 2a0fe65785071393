/** Where the tables say a taxi is going, and where its orders send it. */
module Headings {
  import opened Wrappers
  import opened Bytes
  import opened Protocol
  import opened Database
  import opened Dispatcher
  import opened DispatcherRuns
  import opened Replies
  import Hearing

  /** The cell of the last order to drive. */
  function LastTold(orders: seq<Order>, first: Option<Coordinate>): Option<Coordinate> {
    if orders == [] then first
    else
      var last := orders[|orders| - 1];
      if last.GoTo? then Some(last.coord) else LastTold(orders[..|orders| - 1], first)
  }

  lemma LastToldAfter(orders: seq<Order>, order: Order, first: Option<Coordinate>)
    ensures LastTold(orders + [order], first) == if order.GoTo? then Some(order.coord) else LastTold(orders, first)
  {
    assert (orders + [order])[..|orders|] == orders;
  }

  lemma {:induction false} LastToldConcat(a: seq<Order>, b: seq<Order>, first: Option<Coordinate>)
    ensures LastTold(a + b, first) == LastTold(b, LastTold(a, first))
    decreases |b|
  {
    if b == [] {
      assert a + b == a;
    } else {
      var front, last := b[..|b| - 1], b[|b| - 1];
      assert a + b == a + front + [last] && b == front + [last];
      LastToldConcat(a, front, first);
      LastToldAfter(a + front, last, first);
      LastToldAfter(front, last, LastTold(a, first));
    }
  }

  /** Where a stretch of replies sends the taxi. */
  function Told(rs: seq<Reply>, t: int, first: Option<Coordinate>): Option<Coordinate> {
    LastTold(OrdersOf(rs, t), first)
  }

  lemma ToldNothing(t: int, first: Option<Coordinate>)
    ensures Told([], t, first) == first
  {
    assert OrdersOf([], t) == [];
  }

  lemma ToldConcat(a: seq<Reply>, b: seq<Reply>, t: int, first: Option<Coordinate>)
    ensures Told(a + b, t, first) == Told(b, t, Told(a, t, first))
  {
    OrdersOfConcat(a, b, t);
    LastToldConcat(OrdersOf(a, t), OrdersOf(b, t), first);
  }

  lemma ToldOne(r: Reply, t: int, first: Option<Coordinate>)
    ensures Told([r], t, first) == if r.TaxiGoTo? && r.taxiId == t then Some(r.coord) else first
  {
    Hearing.OneReply(r, t, 'a');
    if OrderOf(r, t).Some? {
      LastToldAfter([], OrderOf(r, t).value, first);
      assert [] + [OrderOf(r, t).value] == [OrderOf(r, t).value];
    }
  }

  lemma ToldTwo(r: Reply, q: Reply, t: int, first: Option<Coordinate>)
    ensures Told([r, q], t, first) == Told([q], t, Told([r], t, first))
  {
    assert [r, q] == [r] + [q];
    ToldConcat([r], [q], t, first);
  }

  lemma ToldElsewhere(rs: seq<Reply>, t: int, first: Option<Coordinate>)
    requires |rs| <= 1 && forall r :: r in rs ==> !r.TaxiGoTo?
    ensures Told(rs, t, first) == first
  {
    if rs == [] {
      ToldNothing(t, first);
    } else {
      assert rs == [rs[0]];
      ToldOne(rs[0], t, first);
    }
  }

  // ---------------------------------------------------------------- one event

  function DestOf(db: Tables, t: int): Option<Coordinate>
    requires t in db.taxis
  {
    db.taxis[t].dest
  }

  /** An arrival at which the taxi takes a customer aboard. */
  predicate PicksUp(db: Tables, e: Event, t: int) {
    && e.Serve? && e.call.TaxiDestinationReached? && e.call.taxiId == t
    && CarryingClient(db, t).None? && GetService(db, t).Some?
  }

  lemma AssignHeads(db: Tables, u: int, c: Char, t: int)
    requires t in db.taxis
    ensures var out := Assign(db, u, c);
            t in out.db.taxis && DestOf(out.db, t) == Told(out.replies, t, DestOf(db, t))
  {
    var out := Assign(db, u, c);
    ToldNothing(t, DestOf(db, t));
    if !out.Crashed() {
      var goTo, accepted := out.replies[0], out.replies[1];
      ToldTwo(goTo, accepted, t, DestOf(db, t));
      ToldOne(goTo, t, DestOf(db, t));
      ToldOne(accepted, t, Told([goTo], t, DestOf(db, t)));
    }
  }

  lemma QueueHeads(db: Tables, u: int, answers: Answers, t: int)
    requires t in db.taxis
    ensures var out := AssignQueueHead(db, u, answers);
            t in out.db.taxis && DestOf(out.db, t) == Told(out.replies, t, DestOf(db, t))
  {
    ToldNothing(t, DestOf(db, t));
    if answers.queueHead.Some? {
      AssignHeads(db, u, answers.queueHead.value, t);
    }
  }

  lemma RequestHeads(db: Tables, c: Char, service: Char, answers: Answers, t: int)
    requires t in db.taxis
    ensures var out := RequestService(db, c, service, answers);
            t in out.db.taxis && DestOf(out.db, t) == Told(out.replies, t, DestOf(db, t))
  {
    var first := DestOf(db, t);
    if answers.freeTaxi.None? {
      ToldOne(CustomerEnqueued(c), t, first);
    } else if SetDestination(db, c, service).None? {
      ToldOne(ServiceDenied(c), t, first);
    } else {
      var u, db1 := answers.freeTaxi.value, SetDestination(db, c, service).value;
      AssignHeads(db1, u, c, t);
      var next := Assign(db1, u, c);
      if !next.Crashed() {
        ToldConcat(next.replies, [ServiceAccepted(c, u)], t, first);
        ToldOne(ServiceAccepted(c, u), t, Told(next.replies, t, first));
      }
    }
  }

  lemma MoveHeads(db: Tables, u: int, coord: Coordinate, c: Char, val: bool, t: int)
    requires t in db.taxis
    ensures t in Move(db, u, coord).taxis && DestOf(Move(db, u, coord), t) == DestOf(db, t)
    ensures var after := SetOnboard(Move(db, u, coord), c, u, val);
            t in after.taxis && DestOf(after, t) == DestOf(db, t)
  {
  }

  lemma DropOffHeads(db: Tables, u: int, coord: Coordinate, c: Char, answers: Answers, t: int)
    requires t in db.taxis
    ensures var out := DropOff(db, u, coord, c, answers);
            t in out.db.taxis && DestOf(out.db, t) == Told(out.replies, t, DestOf(db, t))
  {
    var db1 := SetOnboard(Move(db, u, coord), c, u, false);
    var next := AssignQueueHead(db1, u, answers);
    MoveHeads(db, u, coord, c, false, t);
    QueueHeads(db1, u, answers, t);
    ToldConcat([ServiceCompleted(c)], next.replies, t, DestOf(db, t));
    ToldOne(ServiceCompleted(c), t, DestOf(db, t));
  }

  /** The pick-up of another taxi leaves this one alone; that of this one sends it on without storing where. */
  lemma PickUpHeads(db: Tables, u: int, coord: Coordinate, c: Char, t: int)
    requires t in db.taxis
    ensures var out := PickUp(db, u, coord, c);
            && t in out.db.taxis && DestOf(out.db, t) == DestOf(db, t)
            && var told := Told(out.replies, t, DestOf(db, t));
               told == if u == t && GetDestination(db, c).Some? then GetDestination(db, c) else DestOf(db, t)
  {
    var first, target := DestOf(db, t), GetDestination(Move(db, u, coord), c);
    MoveHeads(db, u, coord, c, true, t);
    assert target == GetDestination(db, c);
    if target.Some? {
      ToldTwo(CustomerPickedUp(c), TaxiGoTo(u, target.value), t, first);
      ToldOne(CustomerPickedUp(c), t, first);
      ToldOne(TaxiGoTo(u, target.value), t, first);
    } else {
      ToldOne(ServiceDenied(c), t, first);
    }
  }

  lemma RedirectHeads(db: Tables, u: int, coord: Coordinate, t: int)
    requires t in db.taxis
    ensures t in Redirect(db, u, coord).taxis
    ensures DestOf(Redirect(db, u, coord), t) == Told([TaxiGoTo(u, coord)], t, DestOf(db, t))
  {
    ToldOne(TaxiGoTo(u, coord), t, DestOf(db, t));
  }

  /** The remaining calls write no destination and give no order to drive. */
  lemma PlainCallHeads(db: Tables, central: Text, call: Call, answers: Answers, t: int)
    requires t in db.taxis
    requires !call.NewTaxi? && !call.TaxiReconnected? && !call.TaxiDestinationReached? && !call.CustomerServiceRequest?
    requires !call.OrderTaxiGoTo? && !call.OrderTaxiReturnToBase?
    ensures var out := Handle(db, central, call, answers);
            && t in out.db.taxis && DestOf(out.db, t) == DestOf(db, t)
            && |out.replies| <= 1 && forall r :: r in out.replies ==> !r.TaxiGoTo?
  {
  }

  lemma CallHeads(db: Tables, central: Text, call: Call, answers: Answers, t: int)
    requires t in db.taxis && !PicksUp(db, Serve(call, answers), t)
    ensures var out := Handle(db, central, call, answers);
            t in out.db.taxis && DestOf(out.db, t) == Told(out.replies, t, DestOf(db, t))
  {
    match call
    case NewTaxi(u) => QueueHeads(db, u, answers, t);
    case TaxiReconnected(u) => QueueHeads(db, u, answers, t);
    case TaxiDestinationReached(u, coord) =>
      if CarryingClient(db, u).Some? {
        DropOffHeads(db, u, coord, CarryingClient(db, u).value, answers, t);
      } else if GetService(db, u).Some? {
        PickUpHeads(db, u, coord, GetService(db, u).value, t);
      } else {
        MoveHeads(db, u, coord, 'a', false, t);
        ToldNothing(t, DestOf(db, t));
      }
    case CustomerServiceRequest(c, service) => RequestHeads(db, c, service, answers, t);
    case OrderTaxiGoTo(u, coord) => RedirectHeads(db, u, coord, t);
    case OrderTaxiReturnToBase(u) => RedirectHeads(db, u, Coordinate(0, 0), t);
    case _ =>
      PlainCallHeads(db, central, call, answers, t);
      ToldElsewhere(Handle(db, central, call, answers).replies, t, DestOf(db, t));
  }

  // ---------------------------------------------------------------- runs

  ghost predicate NeverPicksUp(db: Tables, central: Text, es: seq<Event>, t: int) {
    es != [] ==>
      && NeverPicksUp(db, central, es[..|es| - 1], t)
      && !PicksUp(After(db, central, es[..|es| - 1]), es[|es| - 1], t)
  }

  lemma EventHeads(db: Tables, central: Text, tag: Text, e: Event, t: int)
    requires t in db.taxis && !PicksUp(db, e, t)
    ensures t in Next(db, central, e).taxis
    ensures DestOf(Next(db, central, e), t) == Told(RepliesOf(EventReplies(db, central, tag, e)), t, DestOf(db, t))
  {
    if e.Serve? {
      CallHeads(db, central, e.call, e.answers, t);
      assert RepliesOf(EventReplies(db, central, tag, e)) == Handle(db, central, e.call, e.answers).replies;
    } else {
      assert RepliesOf(EventReplies(db, central, tag, e)) == [];
      ToldNothing(t, DestOf(db, t));
    }
  }

  /** Over any run in which the taxi takes nobody aboard, its row has the cell that the last order to drive in its
      messages names. */
  lemma {:induction false} RowHeadsWhereTold(
    db: Tables, central: Text, tag: Text, es: seq<Event>, ms: seq<Message>, t: int)
    requires t in db.taxis && NeverPicksUp(db, central, es, t)
    requires Transmits(ms, Published(db, central, tag, es))
    ensures t in After(db, central, es).taxis
    ensures DestOf(After(db, central, es), t) == LastTold(Orders(ms, t), DestOf(db, t))
    decreases |es|
  {
    var published := Published(db, central, tag, es);
    RepresentedTopic(ms, RepliesOf(published), t, 'a');
    if es == [] {
      ToldNothing(t, DestOf(db, t));
    } else {
      var front, last := es[..|es| - 1], es[|es| - 1];
      assert es == front + [last];
      var there, before := After(db, central, front), Published(db, central, tag, front);
      var more := EventReplies(there, central, TagsAfter(tag, front), last);
      OneMoreEvent(db, central, tag, front, last);
      RowHeadsWhereTold(db, central, tag, front, ms[..|before|], t);
      RepresentedTopic(ms[..|before|], RepliesOf(before), t, 'a');
      EventHeads(there, central, TagsAfter(tag, front), last, t);
      Hearing.RepliesOfConcat(before, more);
      ToldConcat(RepliesOf(before), RepliesOf(more), t, DestOf(db, t));
    }
  }

  /** A taxi that takes a customer aboard is sent on to the customer's destination while its row keeps the cell where
      they met: the two agree if and only if these are the same, or there is no destination. */
  lemma RowHeadsElsewhereIff(db: Tables, central: Text, t: int, coord: Coordinate, answers: Answers)
    requires t in db.taxis && PicksUp(db, Serve(TaxiDestinationReached(t, coord), answers), t)
    ensures var out := Handle(db, central, TaxiDestinationReached(t, coord), answers);
            var target := GetDestination(db, GetService(db, t).value);
            && t in out.db.taxis && DestOf(out.db, t) == DestOf(db, t)
            && (DestOf(out.db, t) == LastTold(OrdersOf(out.replies, t), DestOf(db, t)) <==>
                  target.None? || target == DestOf(db, t))
  {
    PickUpHeads(db, t, coord, GetService(db, t).value, t);
  }
}
