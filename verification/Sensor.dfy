/** The sensor's countdown: two threads over one locked counter, and what it does to the taxi. */
module Sensor {
  import Protocol
  import opened Navigation
  import Engine = TaxiEngine

  /** Where the communication thread stands between two uses of the lock. */
  datatype Place = AtReport | AtCheck | AtDecrement

  datatype State = State(counter: int, place: Place)

  /** The menu thread sets the counter, or the communication thread takes its next step. */
  datatype Action = Set(seconds: int) | Communicate

  /** The new state, and the wait time sent to the taxi if the step sends one. */
  datatype Effect = Effect(state: State, reports: seq<int>)

  function Apply(s: State, a: Action): Effect {
    match a
    case Set(n) => Effect(s.(counter := n), [])
    case Communicate =>
      match s.place
      case AtReport => Effect(s.(place := AtCheck), [s.counter])
      case AtCheck => Effect(s.(place := if s.counter != 0 then AtDecrement else AtReport), [])
      case AtDecrement => Effect(State(s.counter - 1, AtReport), [])
  }

  function Run(s: State, actions: seq<Action>): Effect
    decreases |actions|
  {
    if actions == [] then Effect(s, [])
    else
      var first := Apply(s, actions[0]);
      var rest := Run(first.state, actions[1..]);
      Effect(rest.state, first.reports + rest.reports)
  }

  /** The menu only sets positive times. */
  predicate MenuActions(actions: seq<Action>) {
    forall a :: a in actions && a.Set? ==> a.seconds > 0
  }

  /** The check and the decrement are two uses of the lock, yet no decrement meets a zero. */
  predicate Counting(s: State) { s.counter >= 0 && (s.place.AtDecrement? ==> s.counter > 0) }

  lemma {:induction false} NeverNegative(s: State, actions: seq<Action>)
    requires Counting(s) && MenuActions(actions)
    ensures Counting(Run(s, actions).state)
    ensures forall w :: w in Run(s, actions).reports ==> w >= 0
    decreases |actions|
  {
    if actions != [] {
      assert actions[0] in actions;
      NeverNegative(Apply(s, actions[0]).state, actions[1..]);
    }
  }

  function Steps(k: nat): (actions: seq<Action>)
    ensures |actions| == k && MenuActions(actions)
  {
    seq(k, i => Communicate)
  }

  /** The wait time that the next report will send, if the menu stays quiet. */
  function NextReport(s: State): int {
    match s.place
    case AtReport => s.counter
    case AtCheck => Max(s.counter - 1, 0)
    case AtDecrement => s.counter - 1
  }

  /** The wait times fall by one from the first on, and stay at zero. */
  ghost predicate CountsDown(reports: seq<int>, first: int) {
    forall i :: 0 <= i < |reports| ==> reports[i] == Max(first - i, 0)
  }

  lemma {:induction false} ReportsCountDown(s: State, k: nat)
    requires Counting(s)
    ensures CountsDown(Run(s, Steps(k)).reports, NextReport(s))
    decreases k
  {
    if k > 0 {
      var first := Apply(s, Communicate);
      assert Steps(k)[0] == Communicate && Steps(k)[1..] == Steps(k - 1);
      var rest := Run(first.state, Steps(k - 1)).reports;
      ReportsCountDown(first.state, k - 1);
      assert CountsDown(first.reports + rest, NextReport(s));
    }
  }

  /** A report comes at least every third step. */
  lemma {:induction false} ReportsKeepComing(s: State, k: nat)
    ensures var late := match s.place case AtReport => 0 case AtCheck => 2 case AtDecrement => 1;
            3 * |Run(s, Steps(k)).reports| >= k - late
    decreases k
  {
    if k > 0 {
      var first := Apply(s, Communicate);
      assert Steps(k)[1..] == Steps(k - 1);
      ReportsKeepComing(first.state, k - 1);
    }
  }

  function Positives(reports: seq<int>): (n: nat)
    ensures n <= |reports|
  {
    if reports == [] then 0 else (if reports[0] > 0 then 1 else 0) + Positives(reports[1..])
  }

  lemma {:induction false} PositivesOfCountdown(reports: seq<int>, n: nat)
    requires CountsDown(reports, n)
    ensures Positives(reports) == Min(|reports|, n)
    decreases |reports|
  {
    if reports != [] {
      PositivesOfCountdown(reports[1..], if n > 0 then n - 1 else 0);
    }
  }

  /** How much of a setting the round that it interrupts takes away. */
  function Lost(s: State): nat { if s.place.AtReport? then 0 else 1 }

  lemma CountdownFrom(s: State, n: int, k: nat)
    requires Counting(s) && n > 0
    ensures var reports := Run(s, [Set(n)] + Steps(k)).reports;
            && CountsDown(reports, n - Lost(s))
            && Positives(reports) == Min(|reports|, n - Lost(s))
            && 3 * |reports| >= k - 2
  {
    var updated := s.(counter := n);
    var reports := Run(updated, Steps(k)).reports;
    assert ([Set(n)] + Steps(k))[1..] == Steps(k);
    assert [] + reports == reports;
    ReportsCountDown(updated, k);
    ReportsKeepComing(updated, k);
    PositivesOfCountdown(reports, n - Lost(s));
  }

  /** After the last setting of n, whatever came before, the sensor sends n or n - 1 positive wait times,
      counting down by one: n exactly when the setting fell between a decrement and the next report. */
  lemma CountdownAfterSetting(before: seq<Action>, n: int, k: nat)
    requires MenuActions(before) && n > 0
    ensures var s := Run(State(0, AtReport), before).state;
            var reports := Run(s, [Set(n)] + Steps(k)).reports;
            && CountsDown(reports, n - Lost(s))
            && Positives(reports) == Min(|reports|, n - Lost(s))
            && 3 * |reports| >= k - 2
  {
    NeverNegative(State(0, AtReport), before);
    CountdownFrom(Run(State(0, AtReport), before).state, n, k);
  }

  // ---------------------------------------------------------------- what the taxi makes of it

  function Rounds(reports: seq<int>): (events: seq<Engine.Event>)
    ensures |events| == |reports| && Engine.TripEvents(events)
  {
    seq(|reports|, i requires 0 <= i < |reports| => Engine.Sense(reports[i]))
  }

  lemma {:induction false} FreeRoundsOfReports(reports: seq<int>)
    ensures Engine.FreeRounds(false, Rounds(reports)) == |reports| - Positives(reports)
  {
    if reports != [] {
      assert Rounds(reports)[1..] == Rounds(reports[1..]);
      FreeRoundsOfReports(reports[1..]);
    }
  }

  /** Each positive wait time makes a driving taxi skip exactly one step of its walk. */
  lemma WaitTimesDelayTheTaxi(taxi: Engine.State, reports: seq<int>, taxiId: int)
    requires !taxi.orderedToStop
    ensures Engine.Run(taxi, Rounds(reports), taxiId).state.pos
         == Walk(taxi.pos, taxi.dest, |reports| - Positives(reports), REFERENCE)
  {
    var rounds := Rounds(reports);
    FreeRoundsOfReports(reports);
    Engine.RunIterates(taxi, rounds, taxiId);
    Engine.WalkIsIterate(taxi.pos, taxi.dest, Engine.FreeRounds(false, rounds));
  }

  /** While the menu is quiet, the wait time that the taxi passes on is the one that the sensor sends next. */
  lemma WaitTimeIsForecast(taxi: Engine.State, reports: seq<int>, first: int, i: nat, taxiId: int)
    requires CountsDown(reports, first) && i + 1 < |reports| && reports[i] > 0
    ensures Engine.Tick(taxi, reports[i], taxiId)
         == Engine.Effect(taxi, [Protocol.TaxiUpdateWaitTime(taxiId, reports[i + 1])])
  {
  }

  // ---------------------------------------------------------------- the process

  class SensorProcess {
    var counter: int
    var moving: bool
    /** Where the communication thread stands. */
    ghost var place: Place
    /** The wait times sent. */
    var sent: seq<int>

    constructor ()
      ensures Now() == State(0, AtReport) && sent == [] && !moving
    {
      counter, moving, place, sent := 0, false, AtReport, [];
    }

    ghost function Now(): State
      reads this
    {
      State(counter, place)
    }

    /** Menu thread: one choice of a delay, which is only offered while the taxi moves. */
    method SetCounter(value: int)
      modifies this`counter
      ensures Now() == Apply(old(Now()), Set(value)).state
    {
      counter := value;
    }

    /** Communication thread, up to the answer. */
    method Answer(taxiIsMoving: bool)
      requires place == AtReport
      modifies this
      ensures var effect := Apply(old(Now()), Communicate);
              Now() == effect.state && sent == old(sent) + effect.reports && moving == taxiIsMoving
    {
      moving := taxiIsMoving;
      sent := sent + [counter];
      place := AtCheck;
    }

    /** Communication thread, the look at the counter after the pause. */
    method CheckCounter() returns (nonzero: bool)
      requires place == AtCheck
      modifies this`place
      ensures Now() == Apply(old(Now()), Communicate).state && nonzero == (place == AtDecrement)
    {
      nonzero := counter != 0;
      place := if counter != 0 then AtDecrement else AtReport;
    }

    method DecrementCounter()
      requires place == AtDecrement
      modifies this`counter, this`place
      ensures Now() == Apply(old(Now()), Communicate).state
    {
      counter := counter - 1;
      place := AtReport;
    }
  }
}
