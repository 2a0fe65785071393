/** What holds over every run of the central server: who carries whom, who was admitted, whose verdict comes first. */
module DispatcherRuns {
  import opened Wrappers
  import opened Bytes
  import opened Protocol
  import opened Database
  import opened Dispatcher

  /** A served call, or one of the authentication server's writes to the taxis table. */
  datatype Event = Serve(call: Call, answers: Answers) | InsertTaxi(taxiId: int) | ConnectTaxi(taxiId: int)

  function Next(db: Tables, central: Text, e: Event): Tables {
    match e
    case Serve(call, answers) => Handle(db, central, call, answers).db
    case InsertTaxi(t) => if t in db.taxis then db else db.(taxis := db.taxis[t := NEW_TAXI_ROW])
    case ConnectTaxi(t) => SetConnected(db, t, true)
  }

  function After(db: Tables, central: Text, es: seq<Event>): Tables
    decreases |es|
  {
    if es == [] then db else After(Next(db, central, es[0]), central, es[1..])
  }

  // ---------------------------------------------------------------- carrying

  /** A carried customer exists, is onboard and travels with its one taxi. */
  ghost predicate Carrying(db: Tables) {
    && (forall t, c :: Carries(db, t, c) ==>
          && c in db.customers
          && db.customers[c].onboard
          && db.customers[c].coord == db.taxis[t].coord)
    && (forall t, u, c :: Carries(db, t, c) && Carries(db, u, c) ==> t == u)
  }

  /** When a call keeps the invariant: a pick-up of a free customer at its own cell, and no redirection that
      clears the onboard flag of somebody else's passenger because its id is the taxi's number. */
  ghost predicate Safe(db: Tables, call: Call) {
    match call
    case TaxiDestinationReached(t, coord) =>
      CarryingClient(db, t).None? && GetService(db, t).Some? && GetService(db, t).value in db.customers ==>
        !Carried(db, GetService(db, t).value) && db.customers[GetService(db, t).value].coord == coord
    case OrderTaxiGoTo(t, _) => SafeRedirect(db, t)
    case OrderTaxiReturnToBase(t) => SafeRedirect(db, t)
    case _ => true
  }

  ghost predicate SafeRedirect(db: Tables, t: int) {
    DigitOf(t).Some? ==> forall u :: Carries(db, u, DigitOf(t).value) ==> u == t
  }

  /** The parts of the tables the invariant speaks about are the same. */
  ghost predicate SameCarrying(a: Tables, b: Tables) {
    && a.taxis.Keys == b.taxis.Keys
    && a.customers.Keys == b.customers.Keys
    && (forall t :: t in a.taxis ==> a.taxis[t].customer == b.taxis[t].customer && a.taxis[t].coord == b.taxis[t].coord)
    && (forall c :: c in a.customers ==>
          a.customers[c].coord == b.customers[c].coord && a.customers[c].onboard == b.customers[c].onboard)
  }

  lemma SameKeepsCarrying(a: Tables, b: Tables)
    requires SameCarrying(a, b) && Carrying(a)
    ensures Carrying(b)
  {
    forall t, c | Carries(b, t, c) ensures Carries(a, t, c) {
    }
  }

  lemma AssignKeepsCarrying(db: Tables, t: int, c: Char)
    requires Carrying(db)
    ensures Carrying(Assign(db, t, c).db)
  {
    SameKeepsCarrying(db, Assign(db, t, c).db);
  }

  lemma MoveKeepsCarrying(db: Tables, t: int, coord: Coordinate)
    requires Carrying(db)
    ensures Carrying(Move(db, t, coord))
    ensures forall u, c :: Carries(Move(db, t, coord), u, c) <==> Carries(db, u, c)
  {
    var db1 := Move(db, t, coord);
    forall u, c ensures Carries(db1, u, c) <==> Carries(db, u, c) {
    }
    forall u, c | Carries(db1, u, c)
      ensures c in db1.customers && db1.customers[c].onboard && db1.customers[c].coord == db1.taxis[u].coord
    {
      assert Carries(db, u, c);
      assert CarryingClient(db, t) == Some(c) ==> Carries(db, t, c);
    }
  }

  lemma DropOffKeepsCarrying(db: Tables, t: int, c: Char)
    requires Carrying(db) && Carries(db, t, c)
    ensures Carrying(SetOnboard(db, c, t, false))
  {
    var db1 := SetOnboard(db, c, t, false);
    forall u, d | Carries(db1, u, d) ensures Carries(db, u, d) && d != c {
      assert u != t;
      assert Carries(db, u, d);
    }
  }

  lemma PickUpKeepsCarryingIff(db: Tables, t: int, c: Char)
    requires Carrying(db) && t in db.taxis && db.taxis[t].customer.None? && c in db.customers
    ensures Carrying(SetOnboard(db, c, t, true)) <==>
            !Carried(db, c) && db.customers[c].coord == db.taxis[t].coord
  {
    var db1 := SetOnboard(db, c, t, true);
    assert db1.taxis[t].customer == Some(c) && Carries(db1, t, c);
    assert db1.customers[c].coord == db.customers[c].coord && db1.taxis[t].coord == db.taxis[t].coord;
    forall u, d ensures Carries(db1, u, d) <==> Carries(db, u, d) || (u == t && d == c) {
    }
    if Carried(db, c) {
      var u :| u in db.taxis && Carries(db, u, c);
      assert u != t && Carries(db1, u, c);
    }
  }

  lemma RedirectKeepsCarryingIff(db: Tables, t: int, coord: Coordinate)
    requires Carrying(db)
    ensures Carrying(Redirect(db, t, coord)) <==> SafeRedirect(db, t)
  {
    var db1 := Redirect(db, t, coord);
    forall u, c ensures Carries(db1, u, c) <==> Carries(db, u, c) && u != t {
    }
    if !SafeRedirect(db, t) {
      var d := DigitOf(t).value;
      var u :| Carries(db, u, d) && u != t;
      assert Carries(db1, u, d) && !db1.customers[d].onboard;
    }
  }

  lemma ReachedKeepsCarryingIff(db: Tables, t: int, coord: Coordinate, answers: Answers)
    requires Carrying(db)
    ensures Carrying(Reached(db, t, coord, answers).db) <==> Safe(db, TaxiDestinationReached(t, coord))
  {
    MoveKeepsCarrying(db, t, coord);
    var moved := Move(db, t, coord);
    match CarryingClient(db, t)
    case Some(c) =>
      assert Carries(db, t, c);
      DropOffKeepsCarrying(moved, t, c);
      if answers.queueHead.Some? {
        AssignKeepsCarrying(SetOnboard(moved, c, t, false), t, answers.queueHead.value);
      }
    case None =>
      match GetService(db, t)
      case Some(c) =>
        if c in db.customers {
          PickUpKeepsCarryingIff(moved, t, c);
          assert Carried(moved, c) <==> Carried(db, c) by { CarriedSame(moved, db, c); }
        } else {
          assert SetOnboard(moved, c, t, true) == moved;
        }
      case None =>
  }

  lemma CarriedSame(a: Tables, b: Tables, c: Char)
    requires forall u :: Carries(a, u, c) <==> Carries(b, u, c)
    ensures Carried(a, c) <==> Carried(b, c)
  {
    forall u | Carries(a, u, c) ensures u in b.taxis {
      assert Carries(b, u, c);
    }
    forall u | Carries(b, u, c) ensures u in a.taxis {
      assert Carries(a, u, c);
    }
  }

  lemma RequestKeepsCarrying(db: Tables, c: Char, service: Char, answers: Answers)
    requires Carrying(db)
    ensures Carrying(RequestService(db, c, service, answers).db)
  {
    match answers.freeTaxi
    case None => SameKeepsCarrying(db, Enqueue(db, c, answers.now));
    case Some(t) =>
      var updated := SetDestination(db, c, service);
      if updated.Some? {
        SameKeepsCarrying(db, updated.value);
        AssignKeepsCarrying(updated.value, t, c);
      }
  }

  lemma AdmitKeepsCarrying(db: Tables, central: Text, c: Char, coord: Coordinate, session: Text)
    requires Carrying(db)
    ensures Carrying(Admit(db, central, c, coord, session).db)
  {
    var db1 := Admit(db, central, c, coord, session).db;
    forall t, d | Carries(db1, t, d) ensures Carries(db, t, d) {
    }
  }

  lemma DeleteKeepsCarrying(db: Tables, c: Char)
    requires Carrying(db)
    ensures Carrying(DeleteCustomer(db, c))
  {
    var db1 := DeleteCustomer(db, c);
    forall t, d | Carries(db1, t, d) ensures Carries(db, t, d) {
    }
  }

  lemma PlainCallSame(db: Tables, central: Text, call: Call, answers: Answers)
    requires !call.NewTaxi? && !call.TaxiReconnected? && !call.OrderCustomerDisconnect? && !call.NewCustomer?
    requires !call.TaxiMove? && !call.TaxiDestinationReached? && !call.CustomerServiceRequest?
    requires !call.OrderTaxiGoTo? && !call.OrderTaxiReturnToBase?
    ensures SameCarrying(db, Handle(db, central, call, answers).db)
  {
    var after := Handle(db, central, call, answers).db;
    match call
    case CustomerUpdateNextRequest(c, _) => CustomerRowSame(db, after, c);
    case OrderCustomerPriority(c) => CustomerRowSame(db, after, c);
    case TaxiReady(t) => TaxiRowSame(db, after, t);
    case TaxiNotReady(t) => TaxiRowSame(db, after, t);
    case TaxiUpdateWaitTime(t, _) => TaxiRowSame(db, after, t);
    case OrderTaxiDisconnect(t) => TaxiRowSame(db, after, t);
    case OrderTaxiStop(t) => TaxiRowSame(db, after, t);
    case OrderTaxiContinue(t) => TaxiRowSame(db, after, t);
    case _ =>
  }

  /** Only that taxi's row was written, and neither its position nor its passenger. */
  lemma TaxiRowSame(db: Tables, after: Tables, t: int)
    requires after.customers == db.customers
    requires after.taxis.Keys == db.taxis.Keys
    requires forall u :: u in db.taxis && u != t ==> after.taxis[u] == db.taxis[u]
    requires t in db.taxis ==>
               after.taxis[t].customer == db.taxis[t].customer && after.taxis[t].coord == db.taxis[t].coord
    ensures SameCarrying(db, after)
  {
  }

  lemma CustomerRowSame(db: Tables, after: Tables, c: Char)
    requires after.taxis == db.taxis
    requires after.customers.Keys == db.customers.Keys
    requires forall d :: d in db.customers && d != c ==> after.customers[d] == db.customers[d]
    requires c in db.customers ==>
               after.customers[c].coord == db.customers[c].coord && after.customers[c].onboard == db.customers[c].onboard
    ensures SameCarrying(db, after)
  {
  }

  /** Each call keeps the carrying invariant exactly when it is safe. */
  lemma CallKeepsCarryingIff(db: Tables, central: Text, call: Call, answers: Answers)
    requires Carrying(db)
    ensures Carrying(Handle(db, central, call, answers).db) <==> Safe(db, call)
  {
    match call
    case NewTaxi(t) =>
      if answers.queueHead.Some? {
        AssignKeepsCarrying(db, t, answers.queueHead.value);
      }
    case TaxiReconnected(t) =>
      if answers.queueHead.Some? {
        AssignKeepsCarrying(db, t, answers.queueHead.value);
      }
    case OrderCustomerDisconnect(c) => DeleteKeepsCarrying(db, c);
    case NewCustomer(c, coord, session) => AdmitKeepsCarrying(db, central, c, coord, session);
    case TaxiMove(t, coord) => MoveKeepsCarrying(db, t, coord);
    case TaxiDestinationReached(t, coord) => ReachedKeepsCarryingIff(db, t, coord, answers);
    case CustomerServiceRequest(c, service) => RequestKeepsCarrying(db, c, service, answers);
    case OrderTaxiGoTo(t, coord) => RedirectKeepsCarryingIff(db, t, coord);
    case OrderTaxiReturnToBase(t) => RedirectKeepsCarryingIff(db, t, Coordinate(0, 0));
    case _ =>
      PlainCallSame(db, central, call, answers);
      SameKeepsCarrying(db, Handle(db, central, call, answers).db);
  }

  ghost predicate SafeEvent(db: Tables, e: Event) { e.Serve? ==> Safe(db, e.call) }

  lemma EventKeepsCarryingIff(db: Tables, central: Text, e: Event)
    requires Carrying(db)
    ensures Carrying(Next(db, central, e)) <==> SafeEvent(db, e)
  {
    match e
    case Serve(call, answers) => CallKeepsCarryingIff(db, central, call, answers);
    case InsertTaxi(t) =>
      forall u, c | Carries(Next(db, central, e), u, c) ensures Carries(db, u, c) {
      }
    case ConnectTaxi(t) => SameKeepsCarrying(db, Next(db, central, e));
  }

  ghost predicate SafeRun(db: Tables, central: Text, es: seq<Event>)
    decreases |es|
  {
    es != [] ==> SafeEvent(db, es[0]) && SafeRun(Next(db, central, es[0]), central, es[1..])
  }

  ghost predicate AlwaysCarrying(db: Tables, central: Text, es: seq<Event>)
    decreases |es|
  {
    Carrying(db) && (es != [] ==> AlwaysCarrying(Next(db, central, es[0]), central, es[1..]))
  }

  /** From tables that satisfy it, the invariant holds throughout a run exactly when every event is safe. */
  lemma {:induction false} AlwaysCarryingIffSafe(db: Tables, central: Text, es: seq<Event>)
    requires Carrying(db)
    ensures AlwaysCarrying(db, central, es) <==> SafeRun(db, central, es)
    decreases |es|
  {
    if es != [] {
      EventKeepsCarryingIff(db, central, es[0]);
      if SafeEvent(db, es[0]) {
        AlwaysCarryingIffSafe(Next(db, central, es[0]), central, es[1..]);
      }
    }
  }

  // ---------------------------------------------------------------- what the database can answer

  /** The answers of the queries are true of the tables they are asked of, throughout the run. */
  ghost predicate ValidRun(db: Tables, central: Text, es: seq<Event>)
    decreases |es|
  {
    es != [] ==>
      && (es[0].Serve? ==> ValidAnswers(db, es[0].answers))
      && ValidRun(Next(db, central, es[0]), central, es[1..])
  }

  lemma {:induction false} RunsInSequence(db: Tables, central: Text, a: seq<Event>, b: seq<Event>)
    ensures After(db, central, a + b) == After(After(db, central, a), central, b)
    ensures ValidRun(db, central, a + b) <==> ValidRun(db, central, a) && ValidRun(After(db, central, a), central, b)
    decreases |a|
  {
    if a == [] {
      assert a + b == b;
    } else {
      assert (a + b)[0] == a[0] && (a + b)[1..] == a[1..] + b;
      RunsInSequence(Next(db, central, a[0]), central, a[1..], b);
    }
  }

  // ---------------------------------------------------------------- admission

  predicate Admits(db: Tables, central: Text, e: Event, c: Char) {
    && e.Serve?
    && e.call.NewCustomer?
    && e.call.id == c
    && Handle(db, central, e.call, e.answers).replies == [Accept(e.call.session, central)]
  }

  predicate Removes(db: Tables, central: Text, e: Event, c: Char) {
    && e.Serve?
    && e.call.OrderCustomerDisconnect?
    && e.call.id == c
    && c in db.customers
    && c !in Handle(db, central, e.call, e.answers).db.customers
  }

  /** Acceptances published for the id, less its rows deleted. */
  function Balance(db: Tables, central: Text, es: seq<Event>, c: Char): int
    decreases |es|
  {
    if es == [] then 0
    else
      (if Admits(db, central, es[0], c) then 1 else 0)
      - (if Removes(db, central, es[0], c) then 1 else 0)
      + Balance(Next(db, central, es[0]), central, es[1..], c)
  }

  function Rows(db: Tables, c: Char): int { if c in db.customers then 1 else 0 }

  lemma AssignKeepsKeys(db: Tables, t: int, c: Char)
    ensures Assign(db, t, c).db.customers.Keys == db.customers.Keys
  {
  }

  lemma MoveKeepsKeys(db: Tables, t: int, coord: Coordinate)
    ensures Move(db, t, coord).customers.Keys == db.customers.Keys
  {
  }

  lemma ReachedKeepsKeys(db: Tables, t: int, coord: Coordinate, answers: Answers)
    ensures Reached(db, t, coord, answers).db.customers.Keys == db.customers.Keys
  {
    MoveKeepsKeys(db, t, coord);
    if CarryingClient(db, t).Some? && answers.queueHead.Some? {
      AssignKeepsKeys(SetOnboard(Move(db, t, coord), CarryingClient(db, t).value, t, false), t, answers.queueHead.value);
    }
  }

  lemma QueueKeepsKeys(db: Tables, t: int, answers: Answers)
    ensures AssignQueueHead(db, t, answers).db.customers.Keys == db.customers.Keys
  {
  }

  lemma RequestKeepsKeys(db: Tables, c: Char, service: Char, answers: Answers)
    ensures RequestService(db, c, service, answers).db.customers.Keys == db.customers.Keys
  {
  }

  lemma RedirectKeepsKeys(db: Tables, t: int, coord: Coordinate)
    ensures Redirect(db, t, coord).customers.Keys == db.customers.Keys
  {
  }

  lemma CallKeepsKeys(db: Tables, central: Text, call: Call, answers: Answers)
    requires !call.NewCustomer? && !call.OrderCustomerDisconnect?
    ensures Handle(db, central, call, answers).db.customers.Keys == db.customers.Keys
  {
    match call
    case TaxiDestinationReached(t, coord) => ReachedKeepsKeys(db, t, coord, answers);
    case TaxiMove(t, coord) => MoveKeepsKeys(db, t, coord);
    case NewTaxi(t) => QueueKeepsKeys(db, t, answers);
    case TaxiReconnected(t) => QueueKeepsKeys(db, t, answers);
    case CustomerServiceRequest(d, service) => RequestKeepsKeys(db, d, service, answers);
    case OrderTaxiGoTo(t, coord) => RedirectKeepsKeys(db, t, coord);
    case OrderTaxiReturnToBase(t) => RedirectKeepsKeys(db, t, Coordinate(0, 0));
    case _ => PlainCallSame(db, central, call, answers);
  }

  lemma EventBalance(db: Tables, central: Text, e: Event, c: Char)
    ensures Rows(Next(db, central, e), c) - Rows(db, c)
         == (if Admits(db, central, e, c) then 1 else 0) - (if Removes(db, central, e, c) then 1 else 0)
  {
    if e.Serve? {
      if e.call.NewCustomer? {
        Verdict(db, central, "", e, e.call.session);
      } else if !e.call.OrderCustomerDisconnect? {
        CallKeepsKeys(db, central, e.call, e.answers);
      }
    }
  }

  /** In every reachable state, the balance says whether the row is there. */
  lemma {:induction false} AdmissionsAreConserved(db: Tables, central: Text, es: seq<Event>, c: Char)
    ensures Rows(After(db, central, es), c) == Rows(db, c) + Balance(db, central, es, c)
    decreases |es|
  {
    if es != [] {
      EventBalance(db, central, es[0], c);
      AdmissionsAreConserved(Next(db, central, es[0]), central, es[1..], c);
    }
  }

  lemma AssignKeepsTaxis(db: Tables, t: int, c: Char)
    ensures Assign(db, t, c).db.taxis.Keys == db.taxis.Keys
  {
  }

  lemma ReachedKeepsTaxis(db: Tables, t: int, coord: Coordinate, answers: Answers)
    ensures Reached(db, t, coord, answers).db.taxis.Keys == db.taxis.Keys
  {
    if CarryingClient(db, t).Some? && answers.queueHead.Some? {
      AssignKeepsTaxis(SetOnboard(Move(db, t, coord), CarryingClient(db, t).value, t, false), t, answers.queueHead.value);
    }
  }

  lemma RequestKeepsTaxis(db: Tables, c: Char, service: Char, answers: Answers)
    ensures RequestService(db, c, service, answers).db.taxis.Keys == db.taxis.Keys
  {
    if answers.freeTaxi.Some? && SetDestination(db, c, service).Some? {
      AssignKeepsTaxis(SetDestination(db, c, service).value, answers.freeTaxi.value, c);
    }
  }

  lemma QueueKeepsTaxis(db: Tables, t: int, answers: Answers)
    ensures AssignQueueHead(db, t, answers).db.taxis.Keys == db.taxis.Keys
  {
  }

  lemma MoveKeepsTaxis(db: Tables, t: int, coord: Coordinate)
    ensures Move(db, t, coord).taxis.Keys == db.taxis.Keys
  {
  }

  /** The server neither inserts nor deletes rows of taxis. */
  lemma CallKeepsTaxis(db: Tables, central: Text, call: Call, answers: Answers)
    ensures Handle(db, central, call, answers).db.taxis.Keys == db.taxis.Keys
  {
    match call
    case TaxiDestinationReached(t, coord) => ReachedKeepsTaxis(db, t, coord, answers);
    case CustomerServiceRequest(c, service) => RequestKeepsTaxis(db, c, service, answers);
    case NewTaxi(t) => QueueKeepsTaxis(db, t, answers);
    case TaxiReconnected(t) => QueueKeepsTaxis(db, t, answers);
    case TaxiMove(t, coord) => MoveKeepsTaxis(db, t, coord);
    case _ =>
  }

  lemma TaxiRowsStay(db: Tables, central: Text, e: Event)
    ensures Next(db, central, e).taxis.Keys >= db.taxis.Keys
  {
    if e.Serve? {
      CallKeepsTaxis(db, central, e.call, e.answers);
    }
  }

  // ---------------------------------------------------------------- session tags

  /** The session that the reused response carries after a call. */
  function TagAfter(tag: Text, call: Call): Text { if call.NewCustomer? then call.session else tag }

  function EventTag(tag: Text, e: Event): Text { if e.Serve? then TagAfter(tag, e.call) else tag }

  datatype Stamped = Stamped(tag: Text, reply: Reply)

  function Stamp(tag: Text, replies: seq<Reply>): (stamped: seq<Stamped>)
    ensures |stamped| == |replies|
    ensures forall i :: 0 <= i < |replies| ==> stamped[i] == Stamped(tag, replies[i])
  {
    seq(|replies|, i requires 0 <= i < |replies| => Stamped(tag, replies[i]))
  }

  function EventReplies(db: Tables, central: Text, tag: Text, e: Event): seq<Stamped> {
    if e.Serve? then Stamp(TagAfter(tag, e.call), Handle(db, central, e.call, e.answers).replies) else []
  }

  function TagsAfter(tag: Text, es: seq<Event>): Text {
    if es == [] then tag else EventTag(TagsAfter(tag, es[..|es| - 1]), es[|es| - 1])
  }

  /** All the replies of a run, each with the session its message carries. */
  function Published(db: Tables, central: Text, tag: Text, es: seq<Event>): seq<Stamped> {
    if es == [] then []
    else
      var front, last := es[..|es| - 1], es[|es| - 1];
      Published(db, central, tag, front) + EventReplies(After(db, central, front), central, TagsAfter(tag, front), last)
  }

  /** What one more event does to a run. */
  lemma {:induction false} OneMoreEvent(db: Tables, central: Text, tag: Text, es: seq<Event>, e: Event)
    ensures After(db, central, es + [e]) == Next(After(db, central, es), central, e)
    ensures TagsAfter(tag, es + [e]) == EventTag(TagsAfter(tag, es), e)
    ensures Published(db, central, tag, es + [e])
         == Published(db, central, tag, es) + EventReplies(After(db, central, es), central, TagsAfter(tag, es), e)
  {
    assert (es + [e])[..|es|] == es;
    AfterOneMore(db, central, es, e);
  }

  lemma {:induction false} AfterOneMore(db: Tables, central: Text, es: seq<Event>, e: Event)
    ensures After(db, central, es + [e]) == Next(After(db, central, es), central, e)
    decreases |es|
  {
    if es == [] {
      assert es + [e] == [e] && [e][1..] == [];
    } else {
      assert (es + [e])[1..] == es[1..] + [e];
      AfterOneMore(Next(db, central, es[0]), central, es[1..], e);
    }
  }

  predicate AsksWith(e: Event, uuid: Text) { e.Serve? && e.call.NewCustomer? && e.call.session == uuid }

  /** Nothing carries a session that nobody asked with. */
  lemma {:induction false} NothingTagged(db: Tables, central: Text, tag: Text, es: seq<Event>, uuid: Text)
    requires tag != uuid && forall e :: e in es ==> !AsksWith(e, uuid)
    ensures TagsAfter(tag, es) != uuid
    ensures forall s :: s in Published(db, central, tag, es) ==> s.tag != uuid
    decreases |es|
  {
    if es != [] {
      var front, last := es[..|es| - 1], es[|es| - 1];
      NothingTagged(db, central, tag, front, uuid);
      assert last in es && !AsksWith(last, uuid);
    }
  }

  lemma {:induction false} PublishedPrefix(db: Tables, central: Text, tag: Text, es: seq<Event>, k: nat)
    requires k <= |es|
    ensures Published(db, central, tag, es[..k]) <= Published(db, central, tag, es)
    decreases |es|
  {
    if k < |es| {
      assert es[..|es| - 1][..k] == es[..k];
      PublishedPrefix(db, central, tag, es[..|es| - 1], k);
    } else {
      assert es[..k] == es;
    }
  }

  /** The verdict on a request for admission, and the row it may insert. */
  lemma Verdict(db: Tables, central: Text, tag: Text, e: Event, uuid: Text)
    requires AsksWith(e, uuid)
    ensures EventReplies(db, central, tag, e)
         == [Stamped(uuid, if e.call.id in db.customers then Deny(uuid) else Accept(uuid, central))]
    ensures e.call.id !in db.customers ==>
              var after := Next(db, central, e);
              && e.call.id in after.customers && after.customers[e.call.id].coord == e.call.coord
              && after.customers[e.call.id] == CustomerRow(e.call.coord, None, 0, false, None)
  {
  }

  lemma VerdictFollows(db: Tables, central: Text, tag: Text, es: seq<Event>, uuid: Text, k: nat)
    requires k < |es| && AsksWith(es[k], uuid)
    ensures var before, id := After(db, central, es[..k]), es[k].call.id;
            var verdict := Stamped(uuid, if id in before.customers then Deny(uuid) else Accept(uuid, central));
            && Published(db, central, tag, es[..k]) + [verdict] <= Published(db, central, tag, es)
            && (id !in before.customers ==>
                  var after := After(db, central, es[..k + 1]);
                  id in after.customers && after.customers[id].coord == es[k].call.coord)
  {
    assert es[..k + 1] == es[..k] + [es[k]];
    OneMoreEvent(db, central, tag, es[..k], es[k]);
    Verdict(After(db, central, es[..k]), central, TagsAfter(tag, es[..k]), es[k], uuid);
    PublishedPrefix(db, central, tag, es, k + 1);
  }

  /** The first response tagged with a fresh uuid is the verdict on that uuid's own request, at its place. */
  lemma FirstTaggedIsVerdict(db: Tables, central: Text, tag: Text, es: seq<Event>, uuid: Text, k: nat)
    requires tag != uuid && k < |es| && AsksWith(es[k], uuid)
    requires forall j :: 0 <= j < k ==> !AsksWith(es[j], uuid)
    ensures var before := After(db, central, es[..k]);
            var n := |Published(db, central, tag, es[..k])|;
            var id := es[k].call.id;
            && n < |Published(db, central, tag, es)|
            && (forall i :: 0 <= i < n ==> Published(db, central, tag, es)[i].tag != uuid)
            && Published(db, central, tag, es)[n] ==
               Stamped(uuid, if id in before.customers then Deny(uuid) else Accept(uuid, central))
            && (id !in before.customers ==>
                  var after := After(db, central, es[..k + 1]);
                  id in after.customers && after.customers[id].coord == es[k].call.coord)
  {
    var earlier, all := Published(db, central, tag, es[..k]), Published(db, central, tag, es);
    NothingTagged(db, central, tag, es[..k], uuid);
    VerdictFollows(db, central, tag, es, uuid, k);
    forall i | 0 <= i < |earlier| ensures all[i].tag != uuid {
      assert all[i] == earlier[i];
    }
  }
}
