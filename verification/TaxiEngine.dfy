/** The taxi process: its order listener, its sensor loop, and what a whole trip reports. */
module TaxiEngine {
  import opened Wrappers
  import opened Bytes
  import opened Protocol
  import opened Navigation

  datatype State = State(pos: Coordinate, dest: Coordinate, orderedToStop: bool, stop: bool)

  /** What one event does: the new state and the calls published on the requests topic. */
  datatype Effect = Effect(state: State, calls: seq<Call>)

  predicate Idle(s: State) { s.pos == s.dest }

  predicate OnMap(s: State) { InGrid(s.pos, REFERENCE) && InGrid(s.dest, REFERENCE) }

  /** A received order. */
  function Obey(s: State, order: Order, taxiId: int): Effect {
    match order
    case GoTo(coord) =>
      if s.pos == coord then Effect(s, [TaxiDestinationReached(taxiId, coord)])
      else Effect(s.(dest := coord), [])
    case Stop => Effect(s.(orderedToStop := true), [])
    case Continue => Effect(s.(orderedToStop := false), [])
    case ReturnToBase => Effect(s.(dest := Coordinate(0, 0)), [])
    case Disconnect => Effect(s.(stop := true), [])
  }

  /** One round of the sensor loop, for the wait time the sensor sent. */
  function Tick(s: State, waitTime: int, taxiId: int): Effect {
    if waitTime > 0 then Effect(s, [TaxiUpdateWaitTime(taxiId, waitTime - 1)])
    else if Idle(s) || s.orderedToStop then Effect(s, [])
    else Advance(s, taxiId)
  }

  function Advance(s: State, taxiId: int): Effect {
    var q := Step(s.pos, s.dest, REFERENCE);
    Effect(s.(pos := q), [Report(q, s.dest, taxiId)])
  }

  function Report(cell: Coordinate, dest: Coordinate, taxiId: int): Call {
    if cell == dest then TaxiDestinationReached(taxiId, cell) else TaxiMove(taxiId, cell)
  }

  // ---------------------------------------------------------------- runs

  datatype Event = Receive(order: Order) | Sense(waitTime: int)

  function Apply(s: State, e: Event, taxiId: int): Effect {
    match e
    case Receive(order) => Obey(s, order, taxiId)
    case Sense(waitTime) => Tick(s, waitTime, taxiId)
  }

  function Run(s: State, es: seq<Event>, taxiId: int): Effect
    decreases |es|
  {
    if es == [] then Effect(s, [])
    else
      var first := Apply(s, es[0], taxiId);
      var rest := Run(first.state, es[1..], taxiId);
      Effect(rest.state, first.calls + rest.calls)
  }

  /** The reports about movement, without the wait times. */
  function TripReports(calls: seq<Call>): seq<Call> {
    if calls == [] then []
    else (if calls[0].TaxiUpdateWaitTime? then [] else [calls[0]]) + TripReports(calls[1..])
  }

  /** The events that may come while a trip is under way. */
  predicate TripEvent(e: Event) { e.Sense? || e.order.Stop? || e.order.Continue? }

  predicate TripEvents(es: seq<Event>) { forall e :: e in es ==> TripEvent(e) }

  /** A sensor round that neither the sensor nor a stop order blocks. */
  function FreeRound(stopped: bool, e: Event): nat {
    if e.Sense? && e.waitTime <= 0 && !stopped then 1 else 0
  }

  function StoppedBy(stopped: bool, e: Event): bool {
    if e == Receive(Stop) then true else if e == Receive(Continue) then false else stopped
  }

  function FreeRounds(stopped: bool, es: seq<Event>): nat
    decreases |es|
  {
    if es == [] then 0
    else FreeRound(stopped, es[0]) + FreeRounds(StoppedBy(stopped, es[0]), es[1..])
  }

  function StoppedAfter(stopped: bool, es: seq<Event>): bool
    decreases |es|
  {
    if es == [] then stopped else StoppedAfter(StoppedBy(stopped, es[0]), es[1..])
  }

  /** The step towards a destination, for every cell. */
  function StepTo(dest: Coordinate): Coordinate -> Coordinate {
    (cell: Coordinate) => Step(cell, dest, REFERENCE)
  }

  function Iterate(f: Coordinate -> Coordinate, p: Coordinate, n: nat): Coordinate
    decreases n
  {
    if n == 0 then p else Iterate(f, f(p), n - 1)
  }

  /** The first n reports of a trip from p to dest that takes those steps. */
  function Reports(f: Coordinate -> Coordinate, p: Coordinate, dest: Coordinate, n: nat, taxiId: int): seq<Call>
    decreases n
  {
    if n == 0 || p == dest then [] else [Report(f(p), dest, taxiId)] + Reports(f, f(p), dest, n - 1, taxiId)
  }

  lemma {:induction false} WalkIsIterate(p: Coordinate, dest: Coordinate, n: nat)
    ensures Walk(p, dest, n, REFERENCE) == Iterate(StepTo(dest), p, n)
    decreases n
  {
    if n > 0 {
      WalkIsIterate(Step(p, dest, REFERENCE), dest, n - 1);
    }
  }

  lemma {:induction false} TripReportsConcat(a: seq<Call>, b: seq<Call>)
    ensures TripReports(a + b) == TripReports(a) + TripReports(b)
  {
    if a == [] {
      assert a + b == b;
    } else {
      assert (a + b)[1..] == a[1..] + b;
      TripReportsConcat(a[1..], b);
    }
  }

  lemma TripReportsOfOne(c: Call)
    ensures TripReports([c]) == if c.TaxiUpdateWaitTime? then [] else [c]
  {
    assert [c][1..] == [];
  }

  lemma EventIsFreeWalk(s: State, e: Event, taxiId: int)
    requires TripEvent(e)
    ensures var f, k := StepTo(s.dest), FreeRound(s.orderedToStop, e);
            && Apply(s, e, taxiId).state ==
               State(Iterate(f, s.pos, k), s.dest, StoppedBy(s.orderedToStop, e), s.stop)
            && TripReports(Apply(s, e, taxiId).calls) == Reports(f, s.pos, s.dest, k, taxiId)
  {
    var first := Apply(s, e, taxiId);
    if first.calls != [] {
      TripReportsOfOne(first.calls[0]);
    }
  }

  /** A free round, or a blocked one, and the n rounds after it. */
  lemma FirstRound(f: Coordinate -> Coordinate, p: Coordinate, dest: Coordinate, k: nat, n: nat, taxiId: int)
    requires k <= 1 && f(dest) == dest
    ensures Iterate(f, p, k + n) == Iterate(f, Iterate(f, p, k), n)
    ensures Reports(f, p, dest, k + n, taxiId)
         == Reports(f, p, dest, k, taxiId) + Reports(f, Iterate(f, p, k), dest, n, taxiId)
  {
  }

  lemma FirstTripEvent(es: seq<Event>)
    requires es != [] && TripEvents(es)
    ensures TripEvent(es[0]) && TripEvents(es[1..])
  {
    assert es[0] in es;
  }

  lemma ReportsJoin(
    first: seq<Call>, rest: seq<Call>, f: Coordinate -> Coordinate, p: Coordinate, dest: Coordinate,
    k: nat, n: nat, taxiId: int)
    requires k <= 1 && f(dest) == dest && TripReports(first) == Reports(f, p, dest, k, taxiId)
    requires TripReports(rest) == Reports(f, Iterate(f, p, k), dest, n, taxiId)
    ensures TripReports(first + rest) == Reports(f, p, dest, k + n, taxiId)
  {
    TripReportsConcat(first, rest);
    FirstRound(f, p, dest, k, n, taxiId);
  }

  lemma {:induction false} RunIterates(s: State, es: seq<Event>, taxiId: int)
    requires TripEvents(es)
    ensures var f, n := StepTo(s.dest), FreeRounds(s.orderedToStop, es);
            && Run(s, es, taxiId).state ==
               State(Iterate(f, s.pos, n), s.dest, StoppedAfter(s.orderedToStop, es), s.stop)
            && TripReports(Run(s, es, taxiId).calls) == Reports(f, s.pos, s.dest, n, taxiId)
    decreases |es|
  {
    if es != [] {
      FirstTripEvent(es);
      EventIsFreeWalk(s, es[0], taxiId);
      var first := Apply(s, es[0], taxiId);
      var rest := Run(first.state, es[1..], taxiId);
      RunIterates(first.state, es[1..], taxiId);
      var k, n := FreeRound(s.orderedToStop, es[0]), FreeRounds(first.state.orderedToStop, es[1..]);
      FirstRound(StepTo(s.dest), s.pos, s.dest, k, n, taxiId);
      ReportsJoin(first.calls, rest.calls, StepTo(s.dest), s.pos, s.dest, k, n, taxiId);
    }
  }

  /** Whatever waits, stops and continues interleave, only the number of free rounds matters. */
  lemma RunIsFreeWalk(s: State, es: seq<Event>, taxiId: int)
    requires TripEvents(es)
    ensures var k := FreeRounds(s.orderedToStop, es);
            && Run(s, es, taxiId).state ==
               State(Walk(s.pos, s.dest, k, REFERENCE), s.dest, StoppedAfter(s.orderedToStop, es), s.stop)
            && TripReports(Run(s, es, taxiId).calls) == Reports(StepTo(s.dest), s.pos, s.dest, k, taxiId)
  {
    RunIterates(s, es, taxiId);
    WalkIsIterate(s.pos, s.dest, FreeRounds(s.orderedToStop, es));
  }

  lemma {:induction false} ReportAt(
    f: Coordinate -> Coordinate, p: Coordinate, dest: Coordinate, n: nat, i: nat, taxiId: int)
    requires i < |Reports(f, p, dest, n, taxiId)|
    ensures Reports(f, p, dest, n, taxiId)[i] == Report(Iterate(f, p, i + 1), dest, taxiId)
    decreases n
  {
    if i > 0 {
      assert Reports(f, p, dest, n, taxiId)[i] == Reports(f, f(p), dest, n - 1, taxiId)[i - 1];
      ReportAt(f, f(p), dest, n - 1, i - 1, taxiId);
    } else {
      assert Iterate(f, p, 1) == Iterate(f, f(p), 0);
    }
  }

  /** The reports go on until the d-th step, the first that ends at the destination. */
  lemma {:induction false} ReportsCount(
    f: Coordinate -> Coordinate, p: Coordinate, dest: Coordinate, n: nat, d: nat, taxiId: int)
    requires forall j: nat :: Iterate(f, p, j) == dest <==> j >= d
    ensures |Reports(f, p, dest, n, taxiId)| == Min(n, d)
    decreases n
  {
    assert Iterate(f, p, 0) == p;
    if n > 0 && p != dest {
      forall j: nat ensures Iterate(f, f(p), j) == dest <==> j >= d - 1 {
        assert Iterate(f, p, j + 1) == Iterate(f, f(p), j);
      }
      ReportsCount(f, f(p), dest, n - 1, d - 1, taxiId);
    }
  }

  /** The report of the i-th cell of a trip of d steps. */
  function ReportIn(cell: Coordinate, dest: Coordinate, i: int, d: int, taxiId: int): Call {
    if i < d then TaxiMove(taxiId, cell) else TaxiDestinationReached(taxiId, dest)
  }

  lemma ReportsInTrip(f: Coordinate -> Coordinate, p: Coordinate, dest: Coordinate, n: nat, d: nat, taxiId: int)
    requires forall j: nat :: Iterate(f, p, j) == dest <==> j >= d
    ensures |Reports(f, p, dest, n, taxiId)| == Min(n, d)
    ensures forall i: nat :: i < Min(n, d) ==>
              Reports(f, p, dest, n, taxiId)[i] == ReportIn(Iterate(f, p, i + 1), dest, i + 1, d, taxiId)
  {
    ReportsCount(f, p, dest, n, d, taxiId);
    forall i: nat | i < Min(n, d)
      ensures Reports(f, p, dest, n, taxiId)[i] == ReportIn(Iterate(f, p, i + 1), dest, i + 1, d, taxiId)
    {
      ReportAt(f, p, dest, n, i, taxiId);
    }
  }

  lemma IterationArrives(p: Coordinate, dest: Coordinate)
    requires InGrid(p, REFERENCE) && InGrid(dest, REFERENCE)
    ensures Chebyshev(p, dest, REFERENCE) >= 0
    ensures forall j: nat :: Iterate(StepTo(dest), p, j) == dest <==> j >= Chebyshev(p, dest, REFERENCE)
  {
    GreedyWalkIsOptimal(p, dest, REFERENCE);
    forall j: nat ensures Iterate(StepTo(dest), p, j) == dest <==> j >= Chebyshev(p, dest, REFERENCE) {
      WalkIsIterate(p, dest, j);
    }
  }

  /** A trip of Chebyshev length d reports d - 1 moves along the greedy walk and then the arrival, once. */
  lemma ReportsOfTrip(p: Coordinate, dest: Coordinate, n: nat, taxiId: int)
    requires InGrid(p, REFERENCE) && InGrid(dest, REFERENCE)
    ensures var d := Chebyshev(p, dest, REFERENCE);
            var reports := Reports(StepTo(dest), p, dest, n, taxiId);
            && |reports| == Min(n, d)
            && forall i: nat :: i < Min(n, d) ==>
                 reports[i] == ReportIn(Walk(p, dest, i + 1, REFERENCE), dest, i + 1, d, taxiId)
  {
    var d := Chebyshev(p, dest, REFERENCE);
    IterationArrives(p, dest);
    ReportsInTrip(StepTo(dest), p, dest, n, d, taxiId);
    var reports := Reports(StepTo(dest), p, dest, n, taxiId);
    forall i: nat | i < Min(n, d)
      ensures reports[i] == ReportIn(Walk(p, dest, i + 1, REFERENCE), dest, i + 1, d, taxiId)
    {
      WalkIsIterate(p, dest, i + 1);
    }
  }

  lemma AtDestinationIffZero(p: Coordinate, dest: Coordinate)
    requires InGrid(p, REFERENCE) && InGrid(dest, REFERENCE)
    ensures Chebyshev(p, dest, REFERENCE) >= 0
    ensures Chebyshev(p, dest, REFERENCE) == 0 <==> p == dest
  {
  }

  /** All the reports of a finished order: max(d - 1, 0) moves, then one arrival at the ordered cell. */
  ghost predicate IsWholeTrip(reports: seq<Call>, p: Coordinate, cell: Coordinate, taxiId: int) {
    var moves := Max(Chebyshev(p, cell, REFERENCE) - 1, 0);
    && |reports| == moves + 1
    && (forall i: nat :: i < moves ==> reports[i] == TaxiMove(taxiId, Walk(p, cell, i + 1, REFERENCE)))
    && reports[moves] == TaxiDestinationReached(taxiId, cell)
  }

  /** An order followed by whatever happens until the next one. */
  datatype Leg = Leg(cell: Coordinate, events: seq<Event>)

  function LegEvents(leg: Leg): seq<Event> { [Receive(GoTo(leg.cell))] + leg.events }

  ghost predicate LegFinishes(p: Coordinate, stopped: bool, leg: Leg) {
    && InGrid(leg.cell, REFERENCE)
    && TripEvents(leg.events)
    && FreeRounds(stopped, leg.events) >= Chebyshev(p, leg.cell, REFERENCE)
  }

  /** What a taxi that has just accepted a cell reports until it gets there. */
  lemma TripIsWhole(s: State, events: seq<Event>, taxiId: int)
    requires OnMap(s) && TripEvents(events) && !Idle(s)
    requires FreeRounds(s.orderedToStop, events) >= Chebyshev(s.pos, s.dest, REFERENCE)
    ensures Run(s, events, taxiId).state == State(s.dest, s.dest, StoppedAfter(s.orderedToStop, events), s.stop)
    ensures IsWholeTrip(TripReports(Run(s, events, taxiId).calls), s.pos, s.dest, taxiId)
  {
    RunIsFreeWalk(s, events, taxiId);
    AtDestinationIffZero(s.pos, s.dest);
    GreedyWalkIsOptimal(s.pos, s.dest, REFERENCE);
    ReportsOfTrip(s.pos, s.dest, FreeRounds(s.orderedToStop, events), taxiId);
  }

  lemma RestIsSilent(s: State, events: seq<Event>, taxiId: int)
    requires TripEvents(events) && Idle(s)
    ensures Run(s, events, taxiId).state == s.(orderedToStop := StoppedAfter(s.orderedToStop, events))
    ensures TripReports(Run(s, events, taxiId).calls) == []
  {
    RunIsFreeWalk(s, events, taxiId);
    WalkAtRest(s.pos, FreeRounds(s.orderedToStop, events));
  }

  lemma {:induction false} WalkAtRest(p: Coordinate, n: nat)
    ensures Walk(p, p, n, REFERENCE) == p
    decreases n
  {
    if n > 0 {
      WalkAtRest(p, n - 1);
    }
  }

  lemma LegStartsWithOrder(s: State, leg: Leg, taxiId: int)
    ensures var first := Obey(s, GoTo(leg.cell), taxiId);
            var rest := Run(first.state, leg.events, taxiId);
            Run(s, LegEvents(leg), taxiId) == Effect(rest.state, first.calls + rest.calls)
  {
    assert LegEvents(leg)[1..] == leg.events;
  }

  /** One order to an idle taxi: it ends there, and reports the whole trip once. */
  lemma OrderedLeg(s: State, leg: Leg, taxiId: int)
    requires OnMap(s) && Idle(s) && LegFinishes(s.pos, s.orderedToStop, leg)
    ensures Run(s, LegEvents(leg), taxiId).state ==
            State(leg.cell, leg.cell, StoppedAfter(s.orderedToStop, leg.events), s.stop)
    ensures IsWholeTrip(TripReports(Run(s, LegEvents(leg), taxiId).calls), s.pos, leg.cell, taxiId)
  {
    LegStartsWithOrder(s, leg, taxiId);
    if s.pos == leg.cell {
      var arrival := TaxiDestinationReached(taxiId, leg.cell);
      RestIsSilent(s, leg.events, taxiId);
      TripReportsConcat([arrival], Run(s, leg.events, taxiId).calls);
      TripReportsOfOne(arrival);
      AtDestinationIffZero(s.pos, leg.cell);
    } else {
      var ordered := s.(dest := leg.cell);
      TripIsWhole(ordered, leg.events, taxiId);
      assert [] + Run(ordered, leg.events, taxiId).calls == Run(ordered, leg.events, taxiId).calls;
    }
  }

  function RunEvents(legs: seq<Leg>): seq<Event> {
    if legs == [] then [] else LegEvents(legs[0]) + RunEvents(legs[1..])
  }

  lemma {:induction false} RunConcat(s: State, a: seq<Event>, b: seq<Event>, taxiId: int)
    ensures var first := Run(s, a, taxiId);
            var rest := Run(first.state, b, taxiId);
            Run(s, a + b, taxiId) == Effect(rest.state, first.calls + rest.calls)
    decreases |a|
  {
    if a == [] {
      assert a + b == b;
      assert [] + Run(s, b, taxiId).calls == Run(s, b, taxiId).calls;
    } else {
      var one := Apply(s, a[0], taxiId);
      assert (a + b)[1..] == a[1..] + b;
      RunConcat(one.state, a[1..], b, taxiId);
      var tail := Run(one.state, a[1..], taxiId);
      assert one.calls + (tail.calls + Run(tail.state, b, taxiId).calls)
          == one.calls + tail.calls + Run(tail.state, b, taxiId).calls;
    }
  }

  /** Any sequence of events in which the orders are orders to drive: what comes before the first of them, and the
      legs that they begin. */
  function Begin(es: seq<Event>): (begin: seq<Event>)
    ensures begin <= es
  {
    if es == [] || IsGoTo(es[0]) then [] else [es[0]] + Begin(es[1..])
  }

  function Legs(es: seq<Event>): seq<Leg> {
    if es == [] then []
    else if IsGoTo(es[0]) then [Leg(es[0].order.coord, Begin(es[1..]))] + Legs(es[1..])
    else Legs(es[1..])
  }

  predicate IsGoTo(e: Event) { e.Receive? && e.order.GoTo? }

  /** The events from the first order on. */
  function Rest(es: seq<Event>): seq<Event> { es[|Begin(es)|..] }

  lemma {:induction false} RestBegins(es: seq<Event>)
    ensures Legs(Rest(es)) == Legs(es) && (Rest(es) != [] ==> IsGoTo(Rest(es)[0]))
  {
    if es != [] && !IsGoTo(es[0]) {
      assert Rest(es) == Rest(es[1..]);
      RestBegins(es[1..]);
    } else {
      assert Rest(es) == es;
    }
  }

  function FirstLeg(es: seq<Event>): Leg
    requires es != [] && IsGoTo(es[0])
  {
    Leg(es[0].order.coord, Begin(es[1..]))
  }

  lemma Regroup(a: seq<Event>, b: seq<Event>, c: seq<Event>)
    ensures a + (b + c) == a + b + c
  {
  }

  lemma BeginAndRest(es: seq<Event>)
    ensures es == Begin(es) + Rest(es)
  {
  }

  lemma FirstOfLegs(es: seq<Event>)
    requires es != [] && IsGoTo(es[0])
    ensures Legs(es) == [FirstLeg(es)] + Legs(Rest(es[1..]))
  {
    RestBegins(es[1..]);
  }

  lemma StartsWithLeg(es: seq<Event>)
    requires es != [] && IsGoTo(es[0])
    ensures es == LegEvents(FirstLeg(es)) + Rest(es[1..])
  {
    var order, begin, rest := [es[0]], Begin(es[1..]), Rest(es[1..]);
    BeginAndRest(es[1..]);
    Regroup(order, begin, rest);
    assert es == order + es[1..];
  }

  lemma RunEventsFirst(leg: Leg, legs: seq<Leg>)
    ensures RunEvents([leg] + legs) == LegEvents(leg) + RunEvents(legs)
  {
    assert ([leg] + legs)[1..] == legs;
  }

  /** The legs hold all the events from an order on. */
  lemma {:induction false} LegsCover(es: seq<Event>)
    requires es != [] ==> IsGoTo(es[0])
    ensures es == RunEvents(Legs(es))
    decreases |es|
  {
    if es != [] {
      var rest := Rest(es[1..]);
      RestBegins(es[1..]);
      LegsCover(rest);
      StartsWithLeg(es);
      FirstOfLegs(es);
      RunEventsFirst(FirstLeg(es), Legs(rest));
    }
  }

  /** Nothing is lost or moved. */
  lemma SplitAtOrders(es: seq<Event>)
    ensures es == Begin(es) + RunEvents(Legs(es))
  {
    BeginAndRest(es);
    RestBegins(es);
    LegsCover(Rest(es));
  }

  /** Every order to drive names a cell of the map and finds the taxi idle; the rest are waits, stops and continues. */
  ghost predicate OrdersFindIdle(s: State, es: seq<Event>, taxiId: int)
    decreases |es|
  {
    es != [] ==>
      && (if IsGoTo(es[0]) then Idle(s) && InGrid(es[0].order.coord, REFERENCE) else TripEvent(es[0]))
      && OrdersFindIdle(Apply(s, es[0], taxiId).state, es[1..], taxiId)
  }

  /** The part of a trip's reports that a number of free rounds brings out: moves along the greedy walk, and the
      arrival as the last of a whole trip. */
  ghost predicate IsTripPart(reports: seq<Call>, p: Coordinate, cell: Coordinate, taxiId: int) {
    forall i :: 0 <= i < |reports| ==>
      reports[i] == ReportIn(Walk(p, cell, i + 1, REFERENCE), cell, i + 1, Chebyshev(p, cell, REFERENCE), taxiId)
  }

  /** How many reports an order to a cell at that distance brings out in that many free rounds: its arrival at once,
      if it is the current cell. */
  function ReportsDue(d: int, rounds: nat): int { if d == 0 then 1 else Min(rounds, d) }

  /** The reports split into one trip per order, each from where the previous one ended; all but the last are whole. */
  ghost predicate AreTrips(reports: seq<Call>, p: Coordinate, stopped: bool, legs: seq<Leg>, taxiId: int)
    decreases |legs|
  {
    if legs == [] then reports == []
    else
      var d, rounds := Chebyshev(p, legs[0].cell, REFERENCE), FreeRounds(stopped, legs[0].events);
      var n := ReportsDue(d, rounds);
      && 0 <= n <= |reports|
      && IsTripPart(reports[..n], p, legs[0].cell, taxiId)
      && (|legs| > 1 ==> rounds >= d)
      && AreTrips(reports[n..], legs[0].cell, StoppedAfter(stopped, legs[0].events), legs[1..], taxiId)
  }

  /** The events up to the next order. */
  lemma {:induction false} BeginRuns(s: State, es: seq<Event>, taxiId: int)
    requires OrdersFindIdle(s, es, taxiId)
    ensures TripEvents(Begin(es))
    ensures var there := Run(s, Begin(es), taxiId).state;
            OrdersFindIdle(there, Rest(es), taxiId) && (Rest(es) != [] ==> Idle(there))
    decreases |es|
  {
    if es != [] && !IsGoTo(es[0]) {
      BeginRuns(Apply(s, es[0], taxiId).state, es[1..], taxiId);
      assert Begin(es)[1..] == Begin(es[1..]) && Rest(es) == Rest(es[1..]);
    } else {
      assert Rest(es) == es;
    }
  }

  /** What a taxi reports from a cell towards its destination in the events up to the next order. */
  lemma TripPart(s: State, events: seq<Event>, taxiId: int)
    requires OnMap(s) && TripEvents(events)
    ensures var d, rounds := Chebyshev(s.pos, s.dest, REFERENCE), FreeRounds(s.orderedToStop, events);
            var run := Run(s, events, taxiId);
            && |TripReports(run.calls)| == Min(rounds, d)
            && IsTripPart(TripReports(run.calls), s.pos, s.dest, taxiId)
            && OnMap(run.state) && run.state.dest == s.dest
            && run.state.orderedToStop == StoppedAfter(s.orderedToStop, events)
            && (Idle(run.state) <==> rounds >= d)
  {
    var rounds := FreeRounds(s.orderedToStop, events);
    RunIsFreeWalk(s, events, taxiId);
    ReportsOfTrip(s.pos, s.dest, rounds, taxiId);
    GreedyWalkIsOptimal(s.pos, s.dest, REFERENCE);
    WalkStaysInGrid(s.pos, s.dest, rounds, REFERENCE);
  }

  lemma WholeLegPart(p: Coordinate, cell: Coordinate, taxiId: int)
    requires InGrid(p, REFERENCE) && p == cell
    ensures Chebyshev(p, cell, REFERENCE) == 0
    ensures IsTripPart([TaxiDestinationReached(taxiId, cell)], p, cell, taxiId)
  {
    AtDestinationIffZero(p, cell);
  }

  /** One order to an idle taxi, finished or not. */
  lemma LegPart(s: State, leg: Leg, taxiId: int)
    requires OnMap(s) && Idle(s) && InGrid(leg.cell, REFERENCE) && TripEvents(leg.events)
    ensures var d, rounds := Chebyshev(s.pos, leg.cell, REFERENCE), FreeRounds(s.orderedToStop, leg.events);
            var run := Run(s, LegEvents(leg), taxiId);
            && |TripReports(run.calls)| == ReportsDue(d, rounds) >= 0
            && IsTripPart(TripReports(run.calls), s.pos, leg.cell, taxiId)
            && OnMap(run.state) && run.state.dest == leg.cell
            && run.state.orderedToStop == StoppedAfter(s.orderedToStop, leg.events)
            && (Idle(run.state) <==> rounds >= d)
  {
    LegStartsWithOrder(s, leg, taxiId);
    AtDestinationIffZero(s.pos, leg.cell);
    if s.pos == leg.cell {
      var arrival := TaxiDestinationReached(taxiId, leg.cell);
      RestIsSilent(s, leg.events, taxiId);
      TripReportsConcat([arrival], Run(s, leg.events, taxiId).calls);
      TripReportsOfOne(arrival);
      WholeLegPart(s.pos, leg.cell, taxiId);
    } else {
      var ordered := s.(dest := leg.cell);
      TripPart(ordered, leg.events, taxiId);
      assert [] + Run(ordered, leg.events, taxiId).calls == Run(ordered, leg.events, taxiId).calls;
    }
  }

  /** An order that finds the taxi idle, and the events after it up to the next order. */
  lemma LegRuns(s: State, es: seq<Event>, taxiId: int)
    requires OnMap(s) && OrdersFindIdle(s, es, taxiId) && es != [] && IsGoTo(es[0])
    ensures TripEvents(FirstLeg(es).events)
    ensures var first, rest := Run(s, LegEvents(FirstLeg(es)), taxiId), Rest(es[1..]);
            && OrdersFindIdle(first.state, rest, taxiId) && (rest != [] ==> Idle(first.state))
            && Run(s, es, taxiId).calls == first.calls + Run(first.state, rest, taxiId).calls
  {
    BeginRuns(Apply(s, es[0], taxiId).state, es[1..], taxiId);
    LegStartsWithOrder(s, FirstLeg(es), taxiId);
    StartsWithLeg(es);
    RunConcat(s, LegEvents(FirstLeg(es)), Rest(es[1..]), taxiId);
  }

  /** From a taxi that an order finds idle now, or that no order reaches any more. */
  lemma {:induction false} OrdersAreReported(s: State, es: seq<Event>, taxiId: int)
    requires OnMap(s) && OrdersFindIdle(s, es, taxiId) && (es != [] ==> IsGoTo(es[0]))
    ensures AreTrips(TripReports(Run(s, es, taxiId).calls), s.pos, s.orderedToStop, Legs(es), taxiId)
    decreases |es|
  {
    if es != [] {
      var leg, rest := FirstLeg(es), Rest(es[1..]);
      LegRuns(s, es, taxiId);
      LegPart(s, leg, taxiId);
      FirstOfLegs(es);
      RestBegins(es[1..]);
      var first := Run(s, LegEvents(leg), taxiId);
      var last := Run(first.state, rest, taxiId);
      OrdersAreReported(first.state, rest, taxiId);
      TripReportsConcat(first.calls, last.calls);
      RestHasNoLegs(rest);
      LegsFollow(s, leg, rest, taxiId);
    }
  }

  lemma RestHasNoLegs(rest: seq<Event>)
    ensures rest == [] ==> Legs(rest) == []
  {
  }

  lemma LegsFollow(s: State, leg: Leg, rest: seq<Event>, taxiId: int)
    requires OnMap(s) && Idle(s) && InGrid(leg.cell, REFERENCE) && TripEvents(leg.events)
    requires var there := Run(s, LegEvents(leg), taxiId).state;
             && (rest != [] ==> Idle(there))
             && AreTrips(TripReports(Run(there, rest, taxiId).calls), leg.cell, there.orderedToStop, Legs(rest), taxiId)
    ensures var first := Run(s, LegEvents(leg), taxiId);
            AreTrips(TripReports(first.calls) + TripReports(Run(first.state, rest, taxiId).calls),
                     s.pos, s.orderedToStop, [leg] + Legs(rest), taxiId)
  {
    var first := Run(s, LegEvents(leg), taxiId);
    LegPart(s, leg, taxiId);
    RestHasNoLegs(rest);
    TripsJoin(s.pos, s.orderedToStop, leg, Legs(rest), TripReports(first.calls),
              TripReports(Run(first.state, rest, taxiId).calls), taxiId);
  }

  lemma TripsJoin(
    p: Coordinate, stopped: bool, leg: Leg, legs: seq<Leg>, a: seq<Call>, b: seq<Call>, taxiId: int)
    requires var d, rounds := Chebyshev(p, leg.cell, REFERENCE), FreeRounds(stopped, leg.events);
             |a| == ReportsDue(d, rounds) && (legs != [] ==> rounds >= d)
    requires IsTripPart(a, p, leg.cell, taxiId)
    requires AreTrips(b, leg.cell, StoppedAfter(stopped, leg.events), legs, taxiId)
    ensures AreTrips(a + b, p, stopped, [leg] + legs, taxiId)
  {
    assert (a + b)[..|a|] == a && (a + b)[|a|..] == b;
    assert ([leg] + legs)[1..] == legs;
  }

  /** Over any run in which orders to drive find the taxi idle, with waits, stops and continues anywhere: first the
      rest of the trip it was on, then exactly one trip per order, whole but for the last, which is as far as its
      free rounds bring it. */
  lemma EveryOrderIsReportedOnce(s: State, es: seq<Event>, taxiId: int)
    requires OnMap(s) && OrdersFindIdle(s, es, taxiId)
    ensures var reports := TripReports(Run(s, es, taxiId).calls);
            var d, rounds := Chebyshev(s.pos, s.dest, REFERENCE), FreeRounds(s.orderedToStop, Begin(es));
            var n := Min(rounds, d);
            && es == Begin(es) + RunEvents(Legs(es))
            && 0 <= n <= |reports|
            && IsTripPart(reports[..n], s.pos, s.dest, taxiId)
            && (Legs(es) != [] ==> rounds >= d)
            && AreTrips(reports[n..], s.dest, StoppedAfter(s.orderedToStop, Begin(es)), Legs(es), taxiId)
  {
    var begin, rest := Begin(es), Rest(es);
    SplitAtOrders(es);
    RestBegins(es);
    assert es == begin + rest;
    BeginRuns(s, es, taxiId);
    TripPart(s, begin, taxiId);
    AtDestinationIffZero(s.pos, s.dest);
    var first := Run(s, begin, taxiId);
    RunConcat(s, begin, rest, taxiId);
    var last := Run(first.state, rest, taxiId);
    TripReportsConcat(first.calls, last.calls);
    if rest == [] {
      assert Legs(es) == [] && TripReports(last.calls) == [];
    } else {
      OrdersAreReported(first.state, rest, taxiId);
    }
    var a, b := TripReports(first.calls), TripReports(last.calls);
    assert (a + b)[..|a|] == a && (a + b)[|a|..] == b;
  }

  // ---------------------------------------------------------------- stops, disconnections and the base

  /** Whether the last order to stop or to continue was one to stop. */
  function LastStop(orders: seq<Order>, first: bool): bool {
    if orders == [] then first
    else
      match orders[|orders| - 1]
      case Stop => true
      case Continue => false
      case _ => LastStop(orders[..|orders| - 1], first)
  }

  /** The orders read in the events. */
  function OrdersRead(es: seq<Event>): seq<Order> {
    if es == [] then []
    else OrdersRead(es[..|es| - 1]) + if es[|es| - 1].Receive? then [es[|es| - 1].order] else []
  }

  lemma LastStopAfter(orders: seq<Order>, order: Order, first: bool)
    ensures LastStop(orders + [order], first)
         == if order.Stop? then true else if order.Continue? then false else LastStop(orders, first)
  {
    assert (orders + [order])[..|orders|] == orders;
  }

  lemma RunLast(s: State, es: seq<Event>, taxiId: int)
    requires es != []
    ensures Run(s, es, taxiId).state == Apply(Run(s, es[..|es| - 1], taxiId).state, es[|es| - 1], taxiId).state
  {
    var front, last := es[..|es| - 1], es[|es| - 1];
    assert es == front + [last];
    RunConcat(s, front, [last], taxiId);
    assert [last][1..] == [];
  }

  lemma EventStops(s: State, e: Event, taxiId: int)
    ensures Apply(s, e, taxiId).state.orderedToStop
         == if e == Receive(Stop) then true else if e == Receive(Continue) then false else s.orderedToStop
    ensures Apply(s, e, taxiId).state.stop <==> s.stop || e == Receive(Disconnect)
  {
  }

  /** What the sensor is told. */
  predicate IsDriving(s: State) { !Idle(s) && !s.orderedToStop }

  /** It is that the taxi moves in its next round, unless the sensor makes it wait. */
  lemma DrivingMeansMoving(s: State, taxiId: int)
    requires OnMap(s)
    ensures IsDriving(s) <==> Tick(s, 0, taxiId).state.pos != s.pos
  {
    if !Idle(s) {
      StepApproaches(s.pos, s.dest, REFERENCE);
    }
  }

  /** After any events, the taxi is stopped exactly as the last such order read left it. */
  lemma {:induction false} StoppedAsOrdered(s: State, es: seq<Event>, taxiId: int)
    ensures Run(s, es, taxiId).state.orderedToStop == LastStop(OrdersRead(es), s.orderedToStop)
    decreases |es|
  {
    if es != [] {
      var front, last := es[..|es| - 1], es[|es| - 1];
      StoppedAsOrdered(s, front, taxiId);
      RunLast(s, es, taxiId);
      EventStops(Run(s, front, taxiId).state, last, taxiId);
      if last.Receive? {
        LastStopAfter(OrdersRead(front), last.order, s.orderedToStop);
      } else {
        assert OrdersRead(front) + [] == OrdersRead(front);
      }
    }
  }

  /** It ends exactly when it has read a disconnection. */
  lemma {:induction false} EndsIffDisconnected(s: State, es: seq<Event>, taxiId: int)
    ensures Run(s, es, taxiId).state.stop <==> s.stop || Receive(Disconnect) in es
    decreases |es|
  {
    if es != [] {
      var front, last := es[..|es| - 1], es[|es| - 1];
      EndsIffDisconnected(s, front, taxiId);
      RunLast(s, es, taxiId);
      EventStops(Run(s, front, taxiId).state, last, taxiId);
      assert Receive(Disconnect) in es <==> Receive(Disconnect) in front || last == Receive(Disconnect);
    }
  }

  /** Between a stop that it has read and the next continue, nothing moves it, whatever else it is ordered. */
  lemma {:induction false} StoppedTaxiStays(s: State, es: seq<Event>, taxiId: int)
    requires s.orderedToStop && Receive(Continue) !in es
    ensures Run(s, es, taxiId).state.pos == s.pos && Run(s, es, taxiId).state.orderedToStop
    decreases |es|
  {
    if es != [] {
      assert es[0] in es;
      StoppedTaxiStays(Apply(s, es[0], taxiId).state, es[1..], taxiId);
    }
  }

  /** An order to return to the base brings the taxi to the corner of the map, in as many free rounds as it is away. */
  lemma BaseIsReached(s: State, es: seq<Event>, taxiId: int)
    requires OnMap(s) && TripEvents(es)
    requires FreeRounds(s.orderedToStop, es) >= Chebyshev(s.pos, Coordinate(0, 0), REFERENCE)
    ensures Run(s, [Receive(ReturnToBase)] + es, taxiId).state.pos == Coordinate(0, 0)
  {
    var ordered := s.(dest := Coordinate(0, 0));
    assert ([Receive(ReturnToBase)] + es)[1..] == es;
    RunIsFreeWalk(ordered, es, taxiId);
    GreedyWalkIsOptimal(s.pos, Coordinate(0, 0), REFERENCE);
  }

  /** Orders to an idle taxi never fail to redirect it; one that names the current cell in mid-trip does. */
  lemma RedirectedIff(s: State, cell: Coordinate, taxiId: int)
    ensures Obey(s, GoTo(cell), taxiId).state.dest == cell <==> s.pos != cell || Idle(s)
  {
  }

  /** Such a taxi reports its arrival and then drives on to the old destination. */
  lemma MidTripOrderIsLost()
    ensures var s := State(Coordinate(3, 3), Coordinate(5, 5), false, false);
            var run := Run(s, [Receive(GoTo(Coordinate(3, 3))), Sense(0), Sense(0)], 1);
            && TripReports(run.calls)[0] == TaxiDestinationReached(1, Coordinate(3, 3))
            && run.state.pos == Coordinate(5, 5)
  {
    var s := State(Coordinate(3, 3), Coordinate(5, 5), false, false);
    var leg := Leg(Coordinate(3, 3), [Sense(0), Sense(0)]);
    LegStartsWithOrder(s, leg, 1);
    assert LegEvents(leg) == [Receive(GoTo(Coordinate(3, 3))), Sense(0), Sense(0)];
    RunIsFreeWalk(s, leg.events, 1);
    assert leg.events[1..] == [Sense(0)];
    assert FreeRounds(false, leg.events) == 2;
    GreedyWalkIsOptimal(s.pos, s.dest, REFERENCE);
    TripReportsConcat([TaxiDestinationReached(1, Coordinate(3, 3))], Run(s, leg.events, 1).calls);
  }

  // ---------------------------------------------------------------- the process

  const INT_MAX := 0x7fff_ffff

  lemma NearestExtends(cells: seq<Coordinate>, k: nat, dest: Coordinate)
    requires k < |cells|
    ensures CalculateDistance(cells[k], dest, REFERENCE) < INT_MAX
    ensures Nearest(cells[..k + 1], dest, REFERENCE) ==
            if k == 0 then cells[0]
            else
              var best := Nearest(cells[..k], dest, REFERENCE);
              if CalculateDistance(cells[k], dest, REFERENCE) < CalculateDistance(best, dest, REFERENCE)
              then cells[k] else best
  {
    assert cells[..k + 1][..k] == cells[..k];
  }

  class Taxi {
    const id: int
    const session: Text
    var pos: Coordinate
    var dest: Coordinate
    var orderedToStop: bool
    var stop: bool
    /** The requests topic, as published by this taxi. */
    var requests: seq<Message>

    constructor (id: int, session: Text)
      ensures this.id == id && this.session == session && requests == []
      ensures Now() == State(Coordinate(0, 0), Coordinate(0, 0), false, false)
    {
      this.id, this.session := id, session;
      pos, dest := Coordinate(0, 0), Coordinate(0, 0);
      orderedToStop, stop := false, false;
      requests := [];
    }

    function Now(): State
      reads this
    {
      State(pos, dest, orderedToStop, stop)
    }

    static method WrapOnMap(v: int) returns (w: int)
      ensures w == Wrap(v, REFERENCE)
    {
      w := Remainder(v, SIDE);
      if w < 0 {
        w := w + SIDE;
      }
    }

    /** The scan of the eight directions. */
    method StepOnce()
      modifies this`pos
      ensures pos == Step(old(pos), dest, REFERENCE)
    {
      var localPos, localDest := pos, dest;
      if localPos == localDest {
        return;
      }
      var bestMove := Coordinate(0, 0);
      var bestDistance := INT_MAX;
      ghost var cells := Neighbours(localPos, REFERENCE);
      for k := 0 to 8
        invariant k == 0 ==> bestDistance == INT_MAX
        invariant k > 0 ==> bestMove == Nearest(cells[..k], localDest, REFERENCE)
        invariant k > 0 ==> bestDistance == CalculateDistance(bestMove, localDest, REFERENCE)
      {
        var direction := Direction(k);
        var nextX := WrapOnMap(localPos.x + direction.x);
        var nextY := WrapOnMap(localPos.y + direction.y);
        var nextMove := Coordinate(nextX, nextY);
        var distance := CalculateDistance(nextMove, localDest, REFERENCE);
        assert nextMove == cells[k];
        NearestExtends(cells, k, localDest);
        if distance < bestDistance {
          bestDistance := distance;
          bestMove := nextMove;
        }
      }
      assert cells[..8] == cells;
      pos := bestMove;
    }

    /** One message consumed from the responses topic. */
    method Listen(message: Message)
      modifies this
      ensures OrderFor(message, id).None? ==> Now() == old(Now()) && requests == old(requests)
      ensures OrderFor(message, id).Some? ==>
                var effect := Obey(old(Now()), OrderFor(message, id).value, id);
                && Now() == effect.state
                && Published(old(requests), requests, effect.calls)
    {
      if message.taxiId != id || !message.subject.Response? {
        return;
      }
      match message.subject.response {
        case TAXI_GO_TO =>
          if pos == message.coord {
            requests := requests +
              [message.(subject := Request(TAXI_DESTINATION_REACHED), coord := pos, session := session)];
          } else {
            dest := message.coord;
          }
        case TAXI_STOP => orderedToStop := true;
        case TAXI_CONTINUE => orderedToStop := false;
        case TAXI_RETURN_TO_BASE => dest := Coordinate(0, 0);
        case TAXI_DISCONNECT => stop := true;
        case _ =>
      }
    }

    /** One round of the sensor loop; the sensor is told whether the taxi is driving. */
    method Attend(waitTime: int) returns (driving: bool)
      requires waitTime <= INT_MAX
      modifies this
      ensures var effect := Tick(old(Now()), waitTime, id);
              && Now() == effect.state
              && Published(old(requests), requests, effect.calls)
      ensures driving == IsDriving(Now())
    {
      var moving := pos != dest;
      var message := EmptyMessage().(taxiId := id, session := session);
      if waitTime > 0 {
        message := WithInt(message.(subject := Request(TAXI_UPDATE_WAIT_TIME)), waitTime - 1);
        WithIntReadBack(message, waitTime - 1);
        requests := requests + [message];
      } else if moving && !orderedToStop {
        StepOnce();
        moving := pos != dest;
        message := message.(subject := Request(if moving then TAXI_MOVE else TAXI_DESTINATION_REACHED), coord := pos);
        requests := requests + [message];
      }
      driving := moving && !orderedToStop;
    }

    /** The topic grew by messages that stand for the calls and carry this taxi's session. */
    ghost predicate Published(before: seq<Message>, after: seq<Message>, calls: seq<Call>) {
      && |after| == |before| + |calls|
      && after[..|before|] == before
      && forall i :: 0 <= i < |calls| ==>
           && after[|before| + i].session == session
           && CallOf(after[|before| + i]) == Some(calls[i])
    }
  }
}
