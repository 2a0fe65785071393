/** One service from end to end: the central server, a taxi and the two topics between them, under every schedule. */
module Service {
  import opened Wrappers
  import opened Bytes
  import opened Protocol
  import opened Navigation
  import opened Database
  import opened Dispatcher
  import opened Replies
  import Customer
  import Engine = TaxiEngine

  /** The service asked for: who drives from where, whom to fetch, where to. */
  datatype Job = Job(
    taxi: int, customer: Char, service: Char,
    start: Coordinate, home: Coordinate, target: Coordinate,
    central: Text)

  /** calls and orders are the unread parts of the two topics; replies and moves are the history. */
  datatype System = System(
    db: Tables,
    calls: seq<Call>,
    orders: seq<Order>,
    engine: Engine.State,
    replies: seq<Reply>,
    moves: nat,
    crashed: bool)

  /** The server serves a call, the taxi reads an order, the sensor completes a round, or somebody chatters. */
  datatype Event = Dispatch(answers: Answers) | Deliver | Sense(waitTime: int) | Chatter(call: Call)

  /** Calls that the service has no part in, though they come between its own: any reports about the state of
      taxis and customers, and whatever other taxis do and is done to them, or to other customers and locations. */
  predicate Harmless(call: Call, job: Job) {
    match call
    case CustomerServiceRequest(c, _) => c != job.customer
    case OrderCustomerDisconnect(c) => c != job.customer
    case OrderCustomerPriority(c) => c != job.customer
    case OrderLocationMove(l, _) => l != job.service
    case TaxiMove(t, _) => t != job.taxi
    case TaxiDestinationReached(t, _) => t != job.taxi
    case OrderTaxiGoTo(t, _) => t != job.taxi
    case OrderTaxiStop(t) => t != job.taxi
    case OrderTaxiContinue(t) => t != job.taxi
    case OrderTaxiReturnToBase(t) => t != job.taxi
    case OrderTaxiDisconnect(t) => t != job.taxi
    case _ => true
  }

  function Next(s: System, e: Event, job: Job): System {
    match e
    case Dispatch(answers) =>
      if s.calls == [] || s.crashed then s
      else
        var out := Handle(s.db, job.central, s.calls[0], answers);
        s.(db := out.db, calls := s.calls[1..], crashed := out.Crashed(),
           orders := s.orders + OrdersOf(out.replies, job.taxi), replies := s.replies + out.replies)
    case Deliver =>
      if s.orders == [] then s
      else
        var effect := Engine.Obey(s.engine, s.orders[0], job.taxi);
        s.(orders := s.orders[1..], engine := effect.state, calls := s.calls + effect.calls)
    case Sense(waitTime) =>
      var effect := Engine.Tick(s.engine, waitTime, job.taxi);
      s.(engine := effect.state, calls := s.calls + effect.calls,
         moves := s.moves + if effect.state.pos == s.engine.pos then 0 else 1)
    case Chatter(call) =>
      if Harmless(call, job) then s.(calls := s.calls + [call]) else s
  }

  function Run(s: System, es: seq<Event>, job: Job): System
    decreases |es|
  {
    if es == [] then s else Run(Next(s, es[0], job), es[1..], job)
  }

  /** The database gives this service's taxi when asked for a free one on its behalf, and another one to everybody
      else; and the others' calls do not end the server. */
  predicate Allots(db: Tables, call: Call, answers: Answers, job: Job) {
    if Harmless(call, job) then
      && Survivable(db, call, answers)
      && (call.CustomerServiceRequest? ==> answers.freeTaxi.Some? && answers.freeTaxi != Some(job.taxi))
    else call.CustomerServiceRequest? ==> answers.freeTaxi == Some(job.taxi)
  }

  /** The database answers its unordered queries truly. */
  ghost predicate Possible(s: System, e: Event, job: Job) {
    e.Dispatch? && s.calls != [] ==> ValidAnswers(s.db, e.answers) && Allots(s.db, s.calls[0], e.answers, job)
  }

  ghost predicate PossibleRun(s: System, es: seq<Event>, job: Job)
    decreases |es|
  {
    es != [] ==> Possible(s, es[0], job) && PossibleRun(Next(s, es[0], job), es[1..], job)
  }

  /** An event that advances the service: no chatter, no waiting, no empty poll. */
  predicate Active(s: System, e: Event, job: Job) {
    match e
    case Dispatch(_) => !s.crashed && s.calls != [] && !Harmless(s.calls[0], job)
    case Deliver => s.orders != []
    case Sense(waitTime) => waitTime <= 0 && !Engine.Idle(s.engine) && !s.engine.orderedToStop
    case Chatter(_) => false
  }

  function ActiveEvents(s: System, es: seq<Event>, job: Job): nat
    decreases |es|
  {
    if es == [] then 0
    else (if Active(s, es[0], job) then 1 else 0) + ActiveEvents(Next(s, es[0], job), es[1..], job)
  }

  // ---------------------------------------------------------------- the beginning and the end

  ghost predicate Start(s: System, job: Job) {
    && Common(s, job)
    && s.db.taxis[job.taxi].customer.None?
    && s.db.customers[job.customer].coord == job.home
    && s.calls == [CustomerServiceRequest(job.customer, job.service)]
    && s.orders == [] && s.replies == [] && s.moves == 0
    && s.engine.pos == s.engine.dest == job.start
  }

  /** Facts that no event of the run changes. */
  ghost predicate Common(s: System, job: Job) {
    && InGrid(job.start, REFERENCE) && InGrid(job.home, REFERENCE) && InGrid(job.target, REFERENCE)
    && KnownTables(s.db, job)
    && !s.crashed && !s.engine.orderedToStop && Engine.OnMap(s.engine)
  }

  ghost predicate KnownTables(db: Tables, job: Job) {
    && job.taxi in db.taxis && db.taxis[job.taxi].connected
    && job.customer in db.customers
    && job.service in db.locations && db.locations[job.service] == job.target
    && (forall t :: t in db.taxis && t != job.taxi ==> Others(db.taxis[t], job))
    && forall c :: !Queued(db, c)
  }

  /** Another taxi neither carries the customer nor is assigned to it. */
  predicate Others(row: TaxiRow, job: Job) {
    row.customer != Some(job.customer) && row.service != Some(job.customer)
  }

  /** Nothing is left to do but chatter, and the customer stands at the location, told of every stage. */
  ghost predicate Finished(s: System, job: Job) {
    && !s.crashed
    && s.orders == [] && Core(s.calls, job) == [] && s.engine.pos == s.engine.dest == job.target
    && FreeAgain(s.db, job)
    && s.db.customers[job.customer].coord == s.db.taxis[job.taxi].coord == job.target
    && NoticesOf(s.replies, job.customer)
       == [AcceptedBy(job.taxi), AcceptedBy(job.taxi), PickedUp, Completed]
    && s.moves == Length(job, 1) + Length(job, 2)
  }

  ghost predicate FreeAgain(db: Tables, job: Job) {
    && job.taxi in db.taxis && db.taxis[job.taxi].customer.None?
    && job.customer in db.customers && !db.customers[job.customer].onboard
  }

  /** The calls that matter to the service. */
  function Core(calls: seq<Call>, job: Job): seq<Call> {
    if calls == [] then []
    else (if Harmless(calls[0], job) then [] else [calls[0]]) + Core(calls[1..], job)
  }

  lemma CoreFirst(c: Call, calls: seq<Call>, job: Job)
    ensures Core([c] + calls, job) == (if Harmless(c, job) then [] else [c]) + Core(calls, job)
  {
    assert ([c] + calls)[0] == c && ([c] + calls)[1..] == calls;
  }

  lemma {:induction false} CoreAppend(calls: seq<Call>, c: Call, job: Job)
    ensures Core(calls + [c], job) == Core(calls, job) + if Harmless(c, job) then [] else [c]
  {
    if calls == [] {
      assert calls + [c] == [c] + [];
      CoreFirst(c, [], job);
    } else {
      var first, rest := calls[0], calls[1..];
      assert calls == [first] + rest && calls + [c] == [first] + (rest + [c]);
      CoreFirst(first, rest, job);
      CoreFirst(first, rest + [c], job);
      CoreAppend(rest, c, job);
    }
  }

  // ---------------------------------------------------------------- the stages

  /** leg 1 fetches the customer, leg 2 delivers it. */
  datatype Phase = Asked | Sent(leg: int) | Driving(leg: int) | Arrived(leg: int) | Done

  function From(job: Job, leg: int): Coordinate { if leg == 1 then job.start else job.home }

  function To(job: Job, leg: int): Coordinate { if leg == 1 then job.home else job.target }

  function Length(job: Job, leg: int): int { Chebyshev(From(job, leg), To(job, leg), REFERENCE) }

  function Travelled(job: Job, leg: int): int { if leg == 1 then 0 else Length(job, 1) }

  ghost predicate TablesOnLeg(db: Tables, job: Job, leg: int) {
    && KnownTables(db, job)
    && if leg == 1 then
         && db.taxis[job.taxi].customer.None? && db.taxis[job.taxi].service == Some(job.customer)
         && db.customers[job.customer].destination == Some(job.service)
         && db.customers[job.customer].coord == job.home
       else db.taxis[job.taxi].customer == Some(job.customer)
  }

  function NoticesOnLeg(job: Job, leg: int): seq<Notice> {
    [AcceptedBy(job.taxi), AcceptedBy(job.taxi)] + if leg == 1 then [] else [PickedUp]
  }

  predicate IsMoveOf(c: Call, t: int) { c.TaxiMove? && c.taxiId == t }

  predicate AllMoves(calls: seq<Call>, t: int) { forall c :: c in calls ==> IsMoveOf(c, t) }

  /** What a stage of a leg says about the topics and the taxi. */
  ghost predicate SentOn(s: System, job: Job, leg: int) {
    && Core(s.calls, job) == [] && s.orders == [GoTo(To(job, leg))]
    && s.engine.pos == s.engine.dest == From(job, leg)
    && s.moves == Travelled(job, leg)
  }

  ghost predicate DrivingOn(s: System, job: Job, leg: int) {
    && AllMoves(Core(s.calls, job), job.taxi) && s.orders == []
    && s.engine.dest == To(job, leg) && s.engine.pos != s.engine.dest
    && s.moves + Chebyshev(s.engine.pos, To(job, leg), REFERENCE) == Travelled(job, leg) + Length(job, leg)
  }

  ghost predicate ArrivedOn(s: System, job: Job, leg: int) {
    && s.orders == []
    && s.engine.pos == s.engine.dest == To(job, leg)
    && s.moves == Travelled(job, leg) + Length(job, leg)
    && EndsTrip(Core(s.calls, job), job, leg)
  }

  ghost predicate EndsTrip(core: seq<Call>, job: Job, leg: int) {
    var n := |core| - 1;
    && n >= 0
    && core[n] == TaxiDestinationReached(job.taxi, To(job, leg))
    && AllMoves(core[..n], job.taxi)
  }

  ghost predicate OnLeg(s: System, job: Job, leg: int) {
    && (leg == 1 || leg == 2)
    && Common(s, job)
    && TablesOnLeg(s.db, job, leg)
    && NoticesOf(s.replies, job.customer) == NoticesOnLeg(job, leg)
  }

  ghost predicate In(s: System, job: Job, phase: Phase) {
    match phase
    case Asked =>
      && Common(s, job)
      && s.db.taxis[job.taxi].customer.None?
      && s.db.customers[job.customer].coord == job.home
      && Core(s.calls, job) == [CustomerServiceRequest(job.customer, job.service)]
      && s.orders == [] && NoticesOf(s.replies, job.customer) == [] && s.moves == 0
      && s.engine.pos == s.engine.dest == job.start
    case Sent(leg) => OnLeg(s, job, leg) && SentOn(s, job, leg)
    case Driving(leg) => OnLeg(s, job, leg) && DrivingOn(s, job, leg)
    case Arrived(leg) => OnLeg(s, job, leg) && ArrivedOn(s, job, leg)
    case Done => Common(s, job) && Finished(s, job)
  }

  /** What a leg of length d costs from its order on: the order, and a round and a call per cell or just the call. */
  function Cost(d: int): int { 1 + if d == 0 then 1 else 2 * d }

  function CostAfter(job: Job, leg: int): int { if leg == 1 then Cost(Length(job, 2)) else 0 }

  function Total(job: Job): int { 1 + Cost(Length(job, 1)) + Cost(Length(job, 2)) }

  /** The active events still to come. */
  function Work(s: System, job: Job, phase: Phase): int {
    match phase
    case Asked => Total(job)
    case Sent(leg) => Cost(Length(job, leg)) + CostAfter(job, leg)
    case Driving(leg) =>
      |Core(s.calls, job)| + 2 * Chebyshev(s.engine.pos, To(job, leg), REFERENCE) + CostAfter(job, leg)
    case Arrived(leg) => |Core(s.calls, job)| + CostAfter(job, leg)
    case Done => 0
  }

  lemma WorkIsPositive(s: System, job: Job, phase: Phase)
    requires In(s, job, phase)
    ensures Work(s, job, phase) >= 0
    ensures Work(s, job, phase) == 0 <==> phase.Done?
  {
    Engine.AtDestinationIffZero(job.start, job.home);
    Engine.AtDestinationIffZero(job.home, job.target);
    if phase.Driving? {
      Engine.AtDestinationIffZero(s.engine.pos, To(job, phase.leg));
    }
  }

  // ---------------------------------------------------------------- the taxi's events

  lemma DeliverStep(s: System, job: Job, phase: Phase) returns (after: Phase)
    requires In(s, job, phase) && s.orders != []
    ensures In(Next(s, Deliver, job), job, after)
    ensures Work(Next(s, Deliver, job), job, after) == Work(s, job, phase) - 1
  {
    var leg := phase.leg;
    assert s.orders == [GoTo(To(job, leg))];
    Engine.AtDestinationIffZero(From(job, leg), To(job, leg));
    if s.engine.pos == To(job, leg) {
      CoreAppend(s.calls, TaxiDestinationReached(job.taxi, To(job, leg)), job);
      after := Arrived(leg);
    } else {
      assert s.calls + [] == s.calls;
      after := Driving(leg);
    }
  }

  lemma SenseStep(s: System, waitTime: int, job: Job, phase: Phase) returns (after: Phase)
    requires In(s, job, phase)
    ensures In(Next(s, Sense(waitTime), job), job, after)
    ensures Work(Next(s, Sense(waitTime), job), job, after)
         == Work(s, job, phase) - if Active(s, Sense(waitTime), job) then 1 else 0
  {
    after := phase;
    if waitTime > 0 {
      CoreAppend(s.calls, TaxiUpdateWaitTime(job.taxi, waitTime - 1), job);
    } else if Engine.Idle(s.engine) {
      assert s.calls + [] == s.calls;
    } else {
      after := AdvanceStep(s, waitTime, job, phase.leg);
    }
  }

  lemma AdvanceMoves(s: System, job: Job) returns (q: Coordinate)
    requires Engine.OnMap(s.engine) && !Engine.Idle(s.engine)
    ensures InGrid(q, REFERENCE) && q == Step(s.engine.pos, s.engine.dest, REFERENCE) && q != s.engine.pos
    ensures Chebyshev(q, s.engine.dest, REFERENCE) == Chebyshev(s.engine.pos, s.engine.dest, REFERENCE) - 1
    ensures q == s.engine.dest <==> Chebyshev(q, s.engine.dest, REFERENCE) == 0
  {
    q := Step(s.engine.pos, s.engine.dest, REFERENCE);
    StepStaysInGrid(s.engine.pos, s.engine.dest, REFERENCE);
    StepApproaches(s.engine.pos, s.engine.dest, REFERENCE);
    Engine.AtDestinationIffZero(q, s.engine.dest);
  }

  /** The state after a round in which the taxi moved to q. */
  function Advanced(s: System, q: Coordinate, job: Job): System {
    s.(engine := s.engine.(pos := q), calls := s.calls + [Engine.Report(q, s.engine.dest, job.taxi)], moves := s.moves + 1)
  }

  lemma ArrivalEndsTrip(moves: seq<Call>, job: Job, leg: int)
    requires AllMoves(moves, job.taxi)
    ensures EndsTrip(moves + [TaxiDestinationReached(job.taxi, To(job, leg))], job, leg)
  {
    assert (moves + [TaxiDestinationReached(job.taxi, To(job, leg))])[..|moves|] == moves;
  }

  lemma AdvancedArrives(s: System, q: Coordinate, job: Job, leg: int)
    requires OnLeg(s, job, leg) && AllMoves(Core(s.calls, job), job.taxi) && s.orders == []
    requires s.engine.dest == q == To(job, leg) && s.moves + 1 == Travelled(job, leg) + Length(job, leg)
    ensures In(Advanced(s, q, job), job, Arrived(leg))
    ensures |Core(Advanced(s, q, job).calls, job)| == |Core(s.calls, job)| + 1
  {
    var after, core := Advanced(s, q, job), Core(s.calls, job);
    var arrival := TaxiDestinationReached(job.taxi, q);
    assert after.calls == s.calls + [arrival];
    assert Core(after.calls, job) == core + [arrival] by { CoreAppend(s.calls, arrival, job); }
    assert OnLeg(after, job, leg);
    ArrivalEndsTrip(core, job, leg);
    assert ArrivedOn(after, job, leg);
  }

  lemma AdvancedDrives(s: System, q: Coordinate, job: Job, leg: int)
    requires OnLeg(s, job, leg) && DrivingOn(s, job, leg) && InGrid(q, REFERENCE) && q != s.engine.dest
    requires Chebyshev(q, s.engine.dest, REFERENCE) == Chebyshev(s.engine.pos, s.engine.dest, REFERENCE) - 1
    ensures In(Advanced(s, q, job), job, Driving(leg))
    ensures |Core(Advanced(s, q, job).calls, job)| == |Core(s.calls, job)| + 1
  {
    CoreAppend(s.calls, TaxiMove(job.taxi, q), job);
  }

  lemma AdvanceStep(s: System, waitTime: int, job: Job, leg: int) returns (after: Phase)
    requires OnLeg(s, job, leg) && DrivingOn(s, job, leg) && waitTime <= 0
    ensures In(Next(s, Sense(waitTime), job), job, after)
    ensures Work(Next(s, Sense(waitTime), job), job, after) == Work(s, job, Driving(leg)) - 1
  {
    var q := AdvanceMoves(s, job);
    assert Next(s, Sense(waitTime), job) == Advanced(s, q, job);
    if q == s.engine.dest {
      AdvancedArrives(s, q, job, leg);
      after := Arrived(leg);
    } else {
      AdvancedDrives(s, q, job, leg);
      after := Driving(leg);
    }
  }

  // ---------------------------------------------------------------- the server's events

  /** The rows that the service depends on are as they were; only its onboard flag may have been cleared. */
  ghost predicate Kept(a: Tables, b: Tables, job: Job) {
    KnownTables(a, job) ==>
      && KnownTables(b, job)
      && var taxi, taxi1 := a.taxis[job.taxi], b.taxis[job.taxi];
      && taxi1.customer == taxi.customer && taxi1.service == taxi.service && taxi1.coord == taxi.coord
      && var customer, customer1 := a.customers[job.customer], b.customers[job.customer];
      && customer1.coord == customer.coord && customer1.destination == customer.destination
      && (customer1.onboard ==> customer.onboard)
  }

  /** No reply is for the taxi or the customer. */
  ghost predicate ForOthers(replies: seq<Reply>, job: Job) {
    forall r :: r in replies ==> OrderOf(r, job.taxi).None? && NoticeOf(r, job.customer).None?
  }

  lemma {:induction false} ForOthersIsSilent(replies: seq<Reply>, job: Job)
    requires ForOthers(replies, job)
    ensures OrdersOf(replies, job.taxi) == [] && NoticesOf(replies, job.customer) == []
  {
    if replies != [] {
      var front, last := replies[..|replies| - 1], replies[|replies| - 1];
      assert replies == front + [last];
      ForOthersIsSilent(front, job);
      OneMore(front, last, job.taxi, job.customer);
    }
  }

  /** A table change that queues nobody and keeps the rows above. */
  lemma StaysUnqueued(a: Tables, b: Tables)
    requires forall c :: !Queued(a, c)
    requires forall c :: c in b.customers ==> c in a.customers && b.customers[c].inQueue == a.customers[c].inQueue
    ensures forall c :: !Queued(b, c)
  {
    forall c ensures !Queued(b, c) {
      assert !Queued(a, c);
    }
  }

  lemma OthersMove(db: Tables, t: int, coord: Coordinate, job: Job)
    requires t != job.taxi
    ensures Kept(db, Move(db, t, coord), job)
  {
    if KnownTables(db, job) {
      StaysUnqueued(db, Move(db, t, coord));
    }
  }

  lemma OthersBoard(db: Tables, t: int, c: Char, val: bool, job: Job)
    requires t != job.taxi && c != job.customer
    ensures Kept(db, SetOnboard(db, c, t, val), job)
  {
    if KnownTables(db, job) {
      StaysUnqueued(db, SetOnboard(db, c, t, val));
    }
  }

  lemma OthersAreAssigned(db: Tables, t: int, c: Char, job: Job)
    requires t != job.taxi && c != job.customer
    ensures Kept(db, Assign(db, t, c).db, job) && ForOthers(Assign(db, t, c).replies, job)
  {
    if KnownTables(db, job) {
      StaysUnqueued(db, Assign(db, t, c).db);
    }
  }

  lemma OthersChoose(db: Tables, c: Char, service: Char, job: Job)
    requires c != job.customer && SetDestination(db, c, service).Some?
    ensures Kept(db, SetDestination(db, c, service).value, job)
  {
    if KnownTables(db, job) {
      StaysUnqueued(db, SetDestination(db, c, service).value);
    }
  }

  lemma OthersAreRedirected(db: Tables, t: int, coord: Coordinate, job: Job)
    requires t != job.taxi
    ensures Kept(db, Redirect(db, t, coord), job)
  {
    if KnownTables(db, job) {
      StaysUnqueued(db, Redirect(db, t, coord));
    }
  }

  lemma OthersArrive(db: Tables, t: int, coord: Coordinate, answers: Answers, job: Job)
    requires t != job.taxi && KnownTables(db, job) && ValidAnswers(db, answers)
    ensures Kept(db, Reached(db, t, coord, answers).db, job) && ForOthers(Reached(db, t, coord, answers).replies, job)
  {
    OthersMove(db, t, coord, job);
    assert answers.queueHead.Some? ==> Queued(db, answers.queueHead.value);
    if CarryingClient(db, t).Some? {
      OthersBoard(Move(db, t, coord), t, CarryingClient(db, t).value, false, job);
    } else if GetService(db, t).Some? {
      OthersBoard(Move(db, t, coord), t, GetService(db, t).value, true, job);
    }
  }

  lemma OthersAsk(db: Tables, c: Char, service: Char, answers: Answers, job: Job)
    requires c != job.customer && answers.freeTaxi.Some? && answers.freeTaxi != Some(job.taxi)
    ensures var out := RequestService(db, c, service, answers);
            Kept(db, out.db, job) && ForOthers(out.replies, job)
  {
    var updated := SetDestination(db, c, service);
    if updated.Some? {
      OthersChoose(db, c, service, job);
      OthersAreAssigned(updated.value, answers.freeTaxi.value, c, job);
    }
  }

  lemma OthersLeave(db: Tables, c: Char, job: Job)
    requires c != job.customer
    ensures Kept(db, DeleteCustomer(db, c), job)
  {
    if KnownTables(db, job) {
      StaysUnqueued(db, DeleteCustomer(db, c));
    }
  }

  lemma OthersAreAdmitted(db: Tables, c: Char, coord: Coordinate, session: Text, job: Job)
    ensures var out := Admit(db, job.central, c, coord, session);
            Kept(db, out.db, job) && ForOthers(out.replies, job)
  {
    if KnownTables(db, job) && c !in db.customers {
      forall d ensures !Queued(Admit(db, job.central, c, coord, session).db, d) {
        assert !Queued(db, d);
      }
    }
  }

  predicate Report(call: Call) {
    || call.TaxiReady? || call.TaxiNotReady? || call.TaxiUpdateWaitTime? || call.TaxiPing? || call.CustomerPing?
    || call.CustomerUpdateNextRequest? || call.OrderCustomerPriority? || call.OrderLocationMove?
    || call.OrderTaxiStop? || call.OrderTaxiContinue? || call.OrderTaxiDisconnect?
  }

  lemma ReportsDoNotDisturb(db: Tables, call: Call, answers: Answers, job: Job)
    requires Harmless(call, job) && Report(call)
    ensures Kept(db, Handle(db, job.central, call, answers).db, job)
  {
    var after := Handle(db, job.central, call, answers).db;
    if KnownTables(db, job) {
      forall c ensures !Queued(after, c) {
        assert !Queued(db, c);
      }
    }
  }

  lemma ReportsAreForOthers(db: Tables, call: Call, answers: Answers, job: Job)
    requires Harmless(call, job) && Report(call)
    ensures ForOthers(Handle(db, job.central, call, answers).replies, job)
  {
  }

  lemma HarmlessServed(db: Tables, call: Call, answers: Answers, job: Job)
    requires Harmless(call, job) && KnownTables(db, job) && ValidAnswers(db, answers) && Allots(db, call, answers, job)
    ensures var out := Handle(db, job.central, call, answers);
            Kept(db, out.db, job) && ForOthers(out.replies, job) && !out.Crashed()
  {
    CrashesIff(db, job.central, call, answers);
    assert answers.queueHead.Some? ==> Queued(db, answers.queueHead.value);
    match call
    case TaxiMove(t, coord) => OthersMove(db, t, coord, job);
    case TaxiDestinationReached(t, coord) => OthersArrive(db, t, coord, answers, job);
    case CustomerServiceRequest(c, service) => OthersAsk(db, c, service, answers, job);
    case OrderCustomerDisconnect(c) => OthersLeave(db, c, job);
    case NewCustomer(c, coord, session) => OthersAreAdmitted(db, c, coord, session, job);
    case OrderTaxiGoTo(t, coord) => OthersAreRedirected(db, t, coord, job);
    case OrderTaxiReturnToBase(t) => OthersAreRedirected(db, t, Coordinate(0, 0), job);
    case NewTaxi(_) =>
    case TaxiReconnected(_) =>
    case _ =>
      ReportsDoNotDisturb(db, call, answers, job);
      ReportsAreForOthers(db, call, answers, job);
  }

  /** The state after the server served the first call with that outcome. */
  function AfterReplies(s: System, out: Outcome, job: Job): System
    requires s.calls != []
  {
    s.(db := out.db, calls := s.calls[1..], crashed := out.Crashed(),
       orders := s.orders + OrdersOf(out.replies, job.taxi), replies := s.replies + out.replies)
  }

  lemma DispatchIs(s: System, answers: Answers, job: Job)
    requires s.calls != [] && !s.crashed
    ensures Next(s, Dispatch(answers), job) == AfterReplies(s, Handle(s.db, job.central, s.calls[0], answers), job)
  {
  }

  lemma CallIs(db: Tables, central: Text, call: Call, answers: Answers)
    ensures call.TaxiMove? ==>
              Handle(db, central, call, answers) == Answered(Move(db, call.taxiId, call.coord), [])
    ensures call.TaxiDestinationReached? ==>
              Handle(db, central, call, answers) == Reached(db, call.taxiId, call.coord, answers)
    ensures call.CustomerServiceRequest? ==>
              Handle(db, central, call, answers) == RequestService(db, call.id, call.service, answers)
  {
  }

  lemma SilentlyServed(s: System, out: Outcome, job: Job)
    requires s.calls != [] && out.replies == []
    ensures AfterReplies(s, out, job) == s.(db := out.db, calls := s.calls[1..], crashed := out.Crashed())
  {
  }

  lemma HarmlessStep(s: System, out: Outcome, job: Job, phase: Phase)
    requires In(s, job, phase) && s.calls != [] && Harmless(s.calls[0], job)
    requires Kept(s.db, out.db, job) && ForOthers(out.replies, job) && !out.Crashed()
    ensures In(AfterReplies(s, out, job), job, phase)
    ensures Work(AfterReplies(s, out, job), job, phase) == Work(s, job, phase)
  {
    ForOthersIsSilent(out.replies, job);
    NoticesConcat(s.replies, out.replies, job.customer);
    assert s.orders + [] == s.orders && NoticesOf(s.replies, job.customer) + [] == NoticesOf(s.replies, job.customer);
    assert Core(s.calls[1..], job) == Core(s.calls, job);
  }

  lemma MoveServed(db: Tables, coord: Coordinate, job: Job, leg: int)
    requires TablesOnLeg(db, job, leg)
    ensures TablesOnLeg(Move(db, job.taxi, coord), job, leg)
    ensures Move(db, job.taxi, coord).taxis[job.taxi].customer == db.taxis[job.taxi].customer
    ensures leg != 1 ==> Move(db, job.taxi, coord).customers[job.customer].coord == coord
  {
    var moved := Move(db, job.taxi, coord);
    forall c ensures !Queued(moved, c) {
      assert !Queued(db, c);
    }
  }

  lemma TripWithoutFirst(core: seq<Call>, job: Job, leg: int)
    requires EndsTrip(core, job, leg) && IsMoveOf(core[0], job.taxi)
    ensures EndsTrip(core[1..], job, leg)
  {
    assert core[1..][..|core| - 2] == core[..|core| - 1][1..];
  }

  lemma MoveStep(s: System, out: Outcome, job: Job, leg: int, phase: Phase)
    requires (phase == Driving(leg) || phase == Arrived(leg)) && In(s, job, phase)
    requires s.calls != [] && IsMoveOf(s.calls[0], job.taxi)
    requires out == Answered(Move(s.db, job.taxi, s.calls[0].coord), [])
    ensures In(AfterReplies(s, out, job), job, phase)
    ensures Work(AfterReplies(s, out, job), job, phase) == Work(s, job, phase) - 1
  {
    MoveServed(s.db, s.calls[0].coord, job, leg);
    SilentlyServed(s, out, job);
    var core, rest := Core(s.calls, job), Core(s.calls[1..], job);
    assert core == [s.calls[0]] + rest && core[1..] == rest;
    if phase.Arrived? {
      TripWithoutFirst(core, job, leg);
    }
  }

  lemma RequestServed(db: Tables, answers: Answers, job: Job)
    requires KnownTables(db, job) && db.taxis[job.taxi].customer.None? && db.customers[job.customer].coord == job.home
    requires answers.freeTaxi == Some(job.taxi)
    ensures var out := RequestService(db, job.customer, job.service, answers);
            && TablesOnLeg(out.db, job, 1) && !out.Crashed()
            && out.replies == RequestServedReplies(job)
  {
    var out := RequestService(db, job.customer, job.service, answers);
    forall c ensures !Queued(out.db, c) {
      assert !Queued(db, c);
    }
  }

  lemma RequestStep(s: System, out: Outcome, answers: Answers, job: Job)
    requires In(s, job, Asked) && s.calls != [] && answers.freeTaxi == Some(job.taxi)
    requires Core(s.calls[1..], job) == [] && out == RequestService(s.db, job.customer, job.service, answers)
    ensures In(AfterReplies(s, out, job), job, Sent(1))
  {
    RequestServed(s.db, answers, job);
    RequestReplies(job);
    NoticesConcat(s.replies, out.replies, job.customer);
    assert [] + OrdersOf(out.replies, job.taxi) == OrdersOf(out.replies, job.taxi);
    assert [] + NoticesOf(out.replies, job.customer) == NoticesOf(out.replies, job.customer);
  }

  function RequestServedReplies(job: Job): seq<Reply> {
    [TaxiGoTo(job.taxi, job.home), ServiceAccepted(job.customer, job.taxi), ServiceAccepted(job.customer, job.taxi)]
  }

  lemma RequestReplies(job: Job)
    ensures OrdersOf(RequestServedReplies(job), job.taxi) == [GoTo(job.home)]
    ensures NoticesOf(RequestServedReplies(job), job.customer) == [AcceptedBy(job.taxi), AcceptedBy(job.taxi)]
  {
    var goTo, accepted := TaxiGoTo(job.taxi, job.home), ServiceAccepted(job.customer, job.taxi);
    OneMore([], goTo, job.taxi, job.customer);
    OneMore([] + [goTo], accepted, job.taxi, job.customer);
    OneMore([] + [goTo] + [accepted], accepted, job.taxi, job.customer);
    assert RequestServedReplies(job) == [] + [goTo] + [accepted] + [accepted];
  }

  lemma PickUpReplies(job: Job)
    ensures var replies := [CustomerPickedUp(job.customer), TaxiGoTo(job.taxi, job.target)];
            OrdersOf(replies, job.taxi) == [GoTo(job.target)] && NoticesOf(replies, job.customer) == [PickedUp]
  {
    var pickedUp, goTo := CustomerPickedUp(job.customer), TaxiGoTo(job.taxi, job.target);
    OneMore([], pickedUp, job.taxi, job.customer);
    OneMore([] + [pickedUp], goTo, job.taxi, job.customer);
    assert [pickedUp, goTo] == [] + [pickedUp] + [goTo];
  }

  lemma DropOffReplies(job: Job)
    ensures var replies := [ServiceCompleted(job.customer)];
            OrdersOf(replies, job.taxi) == [] && NoticesOf(replies, job.customer) == [Completed]
  {
    OneMore([], ServiceCompleted(job.customer), job.taxi, job.customer);
    assert [ServiceCompleted(job.customer)] == [] + [ServiceCompleted(job.customer)];
  }

  lemma PickUpServed(db: Tables, answers: Answers, job: Job)
    requires TablesOnLeg(db, job, 1)
    ensures var out := Reached(db, job.taxi, job.home, answers);
            && TablesOnLeg(out.db, job, 2) && !out.Crashed()
            && out.replies == [CustomerPickedUp(job.customer), TaxiGoTo(job.taxi, job.target)]
  {
    MoveServed(db, job.home, job, 1);
    var out := Reached(db, job.taxi, job.home, answers);
    forall c ensures !Queued(out.db, c) {
      assert !Queued(Move(db, job.taxi, job.home), c);
    }
  }

  lemma PickUpStep(s: System, out: Outcome, answers: Answers, job: Job)
    requires In(s, job, Arrived(1)) && s.calls != [] && Core(s.calls[1..], job) == []
    requires out == Reached(s.db, job.taxi, job.home, answers)
    ensures In(AfterReplies(s, out, job), job, Sent(2))
  {
    PickUpServed(s.db, answers, job);
    PickUpReplies(job);
    NoticesConcat(s.replies, out.replies, job.customer);
  }

  lemma DropOffServed(db: Tables, answers: Answers, job: Job)
    requires TablesOnLeg(db, job, 2) && ValidAnswers(db, answers)
    ensures var out := Reached(db, job.taxi, job.target, answers);
            && KnownTables(out.db, job) && FreeAgain(out.db, job) && !out.Crashed()
            && out.db.customers[job.customer].coord == out.db.taxis[job.taxi].coord == job.target
            && out.replies == [ServiceCompleted(job.customer)]
  {
    MoveServed(db, job.target, job, 2);
    var out := Reached(db, job.taxi, job.target, answers);
    assert answers.queueHead.Some? ==> Queued(db, answers.queueHead.value);
    forall c ensures !Queued(out.db, c) {
      assert !Queued(Move(db, job.taxi, job.target), c);
    }
  }

  lemma DropOffStep(s: System, out: Outcome, answers: Answers, job: Job)
    requires In(s, job, Arrived(2)) && s.calls != [] && Core(s.calls[1..], job) == []
    requires ValidAnswers(s.db, answers) && out == Reached(s.db, job.taxi, job.target, answers)
    ensures In(AfterReplies(s, out, job), job, Done)
  {
    DropOffServed(s.db, answers, job);
    DropOffReplies(job);
    NoticesConcat(s.replies, out.replies, job.customer);
  }

  lemma DispatchStep(s: System, answers: Answers, job: Job, phase: Phase) returns (after: Phase)
    requires In(s, job, phase) && Possible(s, Dispatch(answers), job) && s.calls != []
    ensures In(Next(s, Dispatch(answers), job), job, after)
    ensures Work(Next(s, Dispatch(answers), job), job, after)
         == Work(s, job, phase) - if Harmless(s.calls[0], job) then 0 else 1
  {
    after := phase;
    var core := Core(s.calls, job);
    var out := Handle(s.db, job.central, s.calls[0], answers);
    DispatchIs(s, answers, job);
    CallIs(s.db, job.central, s.calls[0], answers);
    if Harmless(s.calls[0], job) {
      HarmlessServed(s.db, s.calls[0], answers, job);
      HarmlessStep(s, out, job, phase);
    } else {
      assert core[0] == s.calls[0] && Core(s.calls[1..], job) == core[1..];
      match phase
      case Asked =>
        RequestStep(s, out, answers, job);
        after := Sent(1);
      case Driving(leg) =>
        assert IsMoveOf(core[0], job.taxi);
        MoveStep(s, out, job, leg, phase);
      case Arrived(leg) =>
        if |core| > 1 {
          assert core[0] in core[..|core| - 1];
          MoveStep(s, out, job, leg, phase);
        } else if leg == 1 {
          PickUpStep(s, out, answers, job);
          after := Sent(2);
        } else {
          DropOffStep(s, out, answers, job);
          after := Done;
        }
    }
  }

  // ---------------------------------------------------------------- whole runs

  lemma ChatterStep(s: System, call: Call, job: Job, phase: Phase)
    requires In(s, job, phase)
    ensures In(Next(s, Chatter(call), job), job, phase)
    ensures Work(Next(s, Chatter(call), job), job, phase) == Work(s, job, phase)
  {
    CoreAppend(s.calls, call, job);
  }

  /** A poll of an empty topic. */
  lemma EmptyPoll(s: System, e: Event, job: Job)
    requires (e.Dispatch? && s.calls == []) || (e.Deliver? && s.orders == [])
    ensures Next(s, e, job) == s && !Active(s, e, job)
  {
  }

  lemma EventStep(s: System, e: Event, job: Job, phase: Phase) returns (after: Phase)
    requires In(s, job, phase) && Possible(s, e, job)
    ensures In(Next(s, e, job), job, after)
    ensures Work(Next(s, e, job), job, after) == Work(s, job, phase) - if Active(s, e, job) then 1 else 0
  {
    after := phase;
    match e
    case Dispatch(answers) =>
      if s.calls != [] {
        after := DispatchStep(s, answers, job, phase);
      } else {
        EmptyPoll(s, e, job);
      }
    case Deliver =>
      if s.orders != [] {
        after := DeliverStep(s, job, phase);
      } else {
        EmptyPoll(s, e, job);
      }
    case Sense(waitTime) => after := SenseStep(s, waitTime, job, phase);
    case Chatter(call) => ChatterStep(s, call, job, phase);
  }

  lemma {:induction false} RunSteps(s: System, es: seq<Event>, job: Job, phase: Phase) returns (after: Phase)
    requires In(s, job, phase) && PossibleRun(s, es, job)
    ensures In(Run(s, es, job), job, after)
    ensures Work(Run(s, es, job), job, after) == Work(s, job, phase) - ActiveEvents(s, es, job)
    decreases |es|
  {
    after := phase;
    if es != [] {
      var next := EventStep(s, es[0], job, phase);
      after := RunSteps(Next(s, es[0], job), es[1..], job, next);
    }
  }

  lemma StartIsAsked(s: System, job: Job)
    requires Start(s, job)
    ensures In(s, job, Asked)
  {
    assert s.calls[1..] == [];
  }

  lemma FinishedIsDone(s: System, job: Job, phase: Phase)
    requires In(s, job, phase)
    ensures Finished(s, job) <==> phase.Done?
  {
    assert phase.Asked? ==> NoticesOf(s.replies, job.customer) == [];
  }

  /** The customer never hears anything but the stages in order, and the taxi never drives further than it must. */
  lemma StagesInOrder(s: System, job: Job, phase: Phase)
    requires In(s, job, phase)
    ensures NoticesOf(s.replies, job.customer) <= [AcceptedBy(job.taxi), AcceptedBy(job.taxi), PickedUp, Completed]
    ensures s.moves <= Length(job, 1) + Length(job, 2)
  {
    Engine.AtDestinationIffZero(job.start, job.home);
    Engine.AtDestinationIffZero(job.home, job.target);
    if phase.Driving? {
      Engine.AtDestinationIffZero(s.engine.pos, To(job, phase.leg));
    }
  }

  lemma WaitFirst(notice: Notice, rest: seq<Notice>)
    ensures Customer.Wait([notice] + rest)
         == if Customer.Ending(notice).Some? then Customer.Ending(notice) else Customer.Wait(rest)
  {
    assert ([notice] + rest)[1..] == rest;
  }

  lemma StagesWait(accepted: Notice)
    requires accepted.AcceptedBy?
    ensures Customer.Wait([]) == None && Customer.Wait([accepted, accepted]) == None
    ensures Customer.Wait([accepted, accepted, PickedUp]) == None
    ensures Customer.Wait([accepted, accepted, PickedUp, Completed]) == Some(true)
  {
    var none: seq<Notice> := [];
    WaitFirst(Completed, none);
    WaitFirst(PickedUp, none);
    WaitFirst(PickedUp, [Completed] + none);
    WaitFirst(accepted, none);
    WaitFirst(accepted, [accepted] + none);
    WaitFirst(accepted, [PickedUp] + none);
    WaitFirst(accepted, [accepted] + ([PickedUp] + none));
    WaitFirst(accepted, [PickedUp] + ([Completed] + none));
    WaitFirst(accepted, [accepted] + ([PickedUp] + ([Completed] + none)));
    assert [accepted, accepted] == [accepted] + ([accepted] + none);
    assert [accepted, accepted, PickedUp] == [accepted] + ([accepted] + ([PickedUp] + none));
    assert [accepted, accepted, PickedUp, Completed] == [accepted] + ([accepted] + ([PickedUp] + ([Completed] + none)));
  }

  /** The customer waits in every stage of its service, and goes on to its next one exactly when it is finished. */
  lemma CustomerWaitsUntilFinished(s: System, job: Job, phase: Phase)
    requires In(s, job, phase)
    ensures Customer.Wait(NoticesOf(s.replies, job.customer)) == if Finished(s, job) then Some(true) else None
  {
    FinishedIsDone(s, job, phase);
    StagesWait(AcceptedBy(job.taxi));
  }

  /** Under every schedule a service takes a fixed number of active events, and is finished exactly when they
      have all happened. */
  lemma ServiceIsCarriedOut(s: System, es: seq<Event>, job: Job)
    requires Start(s, job) && PossibleRun(s, es, job)
    ensures var end := Run(s, es, job);
            && !end.crashed
            && ActiveEvents(s, es, job) <= Total(job)
            && (Finished(end, job) <==> ActiveEvents(s, es, job) == Total(job))
            && NoticesOf(end.replies, job.customer)
               <= [AcceptedBy(job.taxi), AcceptedBy(job.taxi), PickedUp, Completed]
            && end.moves <= Length(job, 1) + Length(job, 2)
            && Customer.Wait(NoticesOf(end.replies, job.customer)) == if Finished(end, job) then Some(true) else None
  {
    StartIsAsked(s, job);
    var phase := RunSteps(s, es, job, Asked);
    var end := Run(s, es, job);
    CustomerWaitsUntilFinished(end, job, phase);
    WorkIsPositive(end, job, phase);
    FinishedIsDone(end, job, phase);
    StagesInOrder(end, job, phase);
  }

  /** A call of somebody else that can be served at any time: not an arrival or a request, which may find no taxi. */
  predicate Quiet(call: Call, job: Job) {
    Harmless(call, job) ==> !call.TaxiDestinationReached? && !call.CustomerServiceRequest?
  }

  predicate AllQuiet(calls: seq<Call>, job: Job) { forall c :: c in calls ==> Quiet(c, job) }

  lemma StaysQuiet(s: System, e: Event, job: Job)
    requires AllQuiet(s.calls, job) && !e.Chatter?
    ensures AllQuiet(Next(s, e, job).calls, job)
  {
  }

  /** Only what somebody else publishes can make the queue of calls anything but quiet. */
  lemma {:induction false} QuietRun(s: System, es: seq<Event>, job: Job)
    requires AllQuiet(s.calls, job) && forall e :: e in es && e.Chatter? ==> Quiet(e.call, job)
    ensures AllQuiet(Run(s, es, job).calls, job)
    decreases |es|
  {
    if es != [] {
      assert es[0] in es;
      if !es[0].Chatter? {
        StaysQuiet(s, es[0], job);
      }
      QuietRun(Next(s, es[0], job), es[1..], job);
    }
  }

  /** The server can serve the next call, whichever it is. */
  lemma QuietIsPossible(s: System, job: Job, phase: Phase)
    requires In(s, job, phase) && AllQuiet(s.calls, job)
    ensures Possible(s, Dispatch(Answers(0, Some(job.taxi), None)), job)
  {
    if s.calls != [] {
      assert s.calls[0] in s.calls;
    }
  }

  /** An active event, or one that shortens the queue of calls, is possible in every unfinished state. */
  lemma EnabledEvent(s: System, job: Job, phase: Phase) returns (e: Event)
    requires In(s, job, phase) && !phase.Done? && AllQuiet(s.calls, job)
    ensures Possible(s, e, job) && !e.Chatter?
    ensures Active(s, e, job) || |Next(s, e, job).calls| < |s.calls|
  {
    if s.orders != [] {
      e := Deliver;
    } else if !Engine.Idle(s.engine) {
      e := Sense(0);
    } else {
      e := Dispatch(Answers(0, Some(job.taxi), None));
      QuietIsPossible(s, job, phase);
      assert s.calls != [];
    }
  }

  /** From every state a service can be in, it can be brought to its end. */
  lemma {:induction false} ServiceCanFinish(s: System, job: Job, phase: Phase) returns (es: seq<Event>)
    requires In(s, job, phase) && AllQuiet(s.calls, job)
    ensures PossibleRun(s, es, job) && Finished(Run(s, es, job), job)
    decreases Work(s, job, phase), |s.calls|
  {
    WorkIsPositive(s, job, phase);
    if phase.Done? {
      es := [];
    } else {
      var e := EnabledEvent(s, job, phase);
      StaysQuiet(s, e, job);
      var after := EventStep(s, e, job, phase);
      WorkIsPositive(Next(s, e, job), job, after);
      var rest := ServiceCanFinish(Next(s, e, job), job, after);
      es := [e] + rest;
      assert es[1..] == rest;
    }
  }

  /** No schedule can paint a service into a corner, as long as no call of somebody else waits that could. */
  lemma ServiceNeverSticks(s: System, es: seq<Event>, job: Job) returns (rest: seq<Event>)
    requires Start(s, job) && PossibleRun(s, es, job) && AllQuiet(Run(s, es, job).calls, job)
    ensures PossibleRun(Run(s, es, job), rest, job)
    ensures Finished(Run(Run(s, es, job), rest, job), job)
  {
    StartIsAsked(s, job);
    var phase := RunSteps(s, es, job, Asked);
    rest := ServiceCanFinish(Run(s, es, job), job, phase);
  }
}
