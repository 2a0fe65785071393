/** The running processes behind a service: the server and the taxi as objects, and the two topics of messages that
    join them, step by step equal to the system of typed calls and orders. */
module Deployment {
  import opened Wrappers
  import opened Bytes
  import opened Protocol
  import opened Database
  import opened Dispatcher
  import opened Replies
  import opened Service
  import Engine = TaxiEngine
  import Central = KafkaServer
  import Customer

  // ---------------------------------------------------------------- the unread parts of the topics

  /** The calls that the server will act on. */
  function CallsOf(ms: seq<Message>, session: Text): seq<Call> {
    Somes(seq(|ms|, i requires 0 <= i < |ms| => Admitted(ms[i], session)))
  }

  lemma CallsConcat(a: seq<Message>, b: seq<Message>, session: Text)
    ensures CallsOf(a + b, session) == CallsOf(a, session) + CallsOf(b, session)
  {
    var ab := a + b;
    var first := seq(|a|, i requires 0 <= i < |a| => Admitted(a[i], session));
    var second := seq(|b|, i requires 0 <= i < |b| => Admitted(b[i], session));
    assert seq(|ab|, i requires 0 <= i < |ab| => Admitted(ab[i], session)) == first + second;
    SomesConcat(first, second);
  }

  lemma CallsOfOne(m: Message, session: Text)
    ensures CallsOf([m], session) == if Admitted(m, session).Some? then [Admitted(m, session).value] else []
  {
    assert seq(1, i requires 0 <= i < 1 => Admitted([m][i], session)) == [Admitted(m, session)];
    SomesOfOne(Admitted(m, session));
  }

  lemma OrdersConcat(a: seq<Message>, b: seq<Message>, taxiId: int)
    ensures Orders(a + b, taxiId) == Orders(a, taxiId) + Orders(b, taxiId)
  {
    var ab := a + b;
    var first := seq(|a|, i requires 0 <= i < |a| => OrderFor(a[i], taxiId));
    var second := seq(|b|, i requires 0 <= i < |b| => OrderFor(b[i], taxiId));
    assert seq(|ab|, i requires 0 <= i < |ab| => OrderFor(ab[i], taxiId)) == first + second;
    SomesConcat(first, second);
  }

  lemma OrdersOfOne(m: Message, taxiId: int)
    ensures Orders([m], taxiId) == if OrderFor(m, taxiId).Some? then [OrderFor(m, taxiId).value] else []
  {
    assert seq(1, i requires 0 <= i < 1 => OrderFor([m][i], taxiId)) == [OrderFor(m, taxiId)];
    SomesOfOne(OrderFor(m, taxiId));
  }

  /** What the taxi published with the server's session is admitted, call by call. */
  lemma {:induction false} TaxiIsHeard(ms: seq<Message>, calls: seq<Call>, session: Text)
    requires |ms| == |calls|
    requires forall i :: 0 <= i < |ms| ==> ms[i].session == session && CallOf(ms[i]) == Some(calls[i])
    ensures CallsOf(ms, session) == calls
  {
    if ms != [] {
      assert ms == [ms[0]] + ms[1..];
      TaxiIsHeard(ms[1..], calls[1..], session);
      CallsConcat([ms[0]], ms[1..], session);
      CallsOfOne(ms[0], session);
      assert Admitted(ms[0], session) == Some(calls[0]);
    }
  }

  /** Reading the first of the unread messages. */
  lemma FirstUnread(ms: seq<Message>, n: nat, session: Text, taxiId: int)
    requires n < |ms|
    ensures CallsOf(ms[n..], session)
         == (if Admitted(ms[n], session).Some? then [Admitted(ms[n], session).value] else []) + CallsOf(ms[n + 1..], session)
    ensures Orders(ms[n..], taxiId)
         == (if OrderFor(ms[n], taxiId).Some? then [OrderFor(ms[n], taxiId).value] else []) + Orders(ms[n + 1..], taxiId)
  {
    assert ms[n..] == [ms[n]] + ms[n + 1..];
    CallsConcat([ms[n]], ms[n + 1..], session);
    CallsOfOne(ms[n], session);
    OrdersConcat([ms[n]], ms[n + 1..], taxiId);
    OrdersOfOne(ms[n], taxiId);
  }

  lemma MoreCalls(before: seq<Message>, more: seq<Message>, calls: seq<Call>, n: nat, session: Text)
    requires n <= |before| && CallsOf(more, session) == calls
    ensures CallsOf((before + more)[n..], session) == CallsOf(before[n..], session) + calls
  {
    assert (before + more)[n..] == before[n..] + more;
    CallsConcat(before[n..], more, session);
  }

  lemma MoreOrders(before: seq<Message>, after: seq<Message>, replies: seq<Reply>, n: nat, taxiId: int)
    requires n <= |before| <= |after| && after[..|before|] == before && RepresentsAll(after[|before|..], replies)
    ensures Orders(after[n..], taxiId) == Orders(before[n..], taxiId) + OrdersOf(replies, taxiId)
  {
    assert after[n..] == before[n..] + after[|before|..];
    OrdersConcat(before[n..], after[|before|..], taxiId);
    RepresentedTopic(after[|before|..], replies, taxiId, '\0');
  }

  // ---------------------------------------------------------------- the processes

  /** Who goes on: the server's loop, the taxi's listener, the taxi's sensor loop, or anybody who publishes. */
  datatype Step = ServerTurn(answers: Answers) | TaxiListens | SensorRound(waitTime: int) | Publish(message: Message)

  /** What others may publish meanwhile: whatever the server skips, and harmless calls. */
  predicate Permitted(step: Step, session: Text, job: Job) {
    match step
    case SensorRound(waitTime) => waitTime <= Engine.INT_MAX
    case Publish(m) => Admitted(m, session).Some? ==> Harmless(Admitted(m, session).value, job)
    case _ => true
  }

  /** The event of the typed system that a step stands for, if its message concerns its reader. */
  predicate StandsFor(step: Step, event: Option<Event>) {
    event.Some? ==>
      match step
      case ServerTurn(answers) => event.value == Dispatch(answers)
      case TaxiListens => event.value == Deliver
      case SensorRound(waitTime) => event.value == Sense(waitTime)
      case Publish(_) => event.value.Chatter?
  }

  /** Where the step leads: nowhere, if its message does not concern its reader. */
  function Led(before: System, event: Option<Event>, job: Job): System {
    if event.Some? then Next(before, event.value, job) else before
  }

  /** The order of the ranks: less work, or as much and fewer messages for the server, or for the taxi. */
  predicate Below(a: (int, int, int), b: (int, int, int)) {
    a.0 < b.0 || (a.0 == b.0 && (a.1 < b.1 || (a.1 == b.1 && a.2 < b.2)))
  }

  class World {
    const server: Central.Server
    const taxi: Engine.Taxi
    /** The requests topic. */
    var requests: seq<Message>
    /** How far the server and the taxi have read. */
    var served: nat
    var read: nat
    var fate: Fate
    ghost var moves: nat

    ghost predicate Valid()
      reads this, server
    {
      && server.Valid() && taxi.session == server.session
      && served <= |requests| && read <= |server.responses|
    }

    constructor (server: Central.Server, taxi: Engine.Taxi, requests: seq<Message>)
      requires server.Valid() && server.responses == [] && taxi.session == server.session
      ensures Valid() && this.server == server && this.taxi == taxi
      ensures Seen() == System(server.db, CallsOf(requests, server.session), [], taxi.Now(), [], 0, false)
    {
      this.server, this.taxi, this.requests := server, taxi, requests;
      served, read, fate, moves := 0, 0, Served, 0;
      new;
      assert requests[0..] == requests;
      assert server.responses[0..] == [] && server.due == [];
    }

    /** The typed system that the processes show. */
    ghost function Seen(): System
      requires Valid()
      reads this, server, taxi
    {
      System(server.db, CallsOf(requests[served..], server.session), Orders(server.responses[read..], taxi.id),
             taxi.Now(), server.due, moves, !fate.Served?)
    }

    ghost predicate Serves(job: Job) {
      job.taxi == taxi.id && job.central == server.session
    }

    method TakeServerTurn(answers: Answers, ghost job: Job) returns (ghost event: Option<Event>)
      requires Valid() && Serves(job)
      modifies this`served, this`fate, server
      ensures Valid() && Seen() == Led(old(Seen()), event, job) && StandsFor(ServerTurn(answers), event)
      ensures old(fate).Served? && old(served) < |requests| ==> served == old(served) + 1
    {
      if !fate.Served? || served == |requests| {
        return None;
      }
      var request := requests[served];
      FirstUnread(requests, served, server.session, taxi.id);
      ghost var before := server.responses;
      fate := server.Process(request, answers);
      served := served + 1;
      event := None;
      if Admitted(request, server.session).Some? {
        ghost var replies := Handle(old(server.db), server.session, Admitted(request, server.session).value, answers).replies;
        MoreOrders(before, server.responses, replies, read, taxi.id);
        event := Some(Dispatch(answers));
      }
    }

    method ListenToServer(ghost job: Job) returns (ghost event: Option<Event>)
      requires Valid() && Serves(job)
      modifies this`requests, this`read, taxi
      ensures Valid() && Seen() == Led(old(Seen()), event, job) && StandsFor(TaxiListens, event)
      ensures event.None? ==> requests == old(requests)
      ensures event.Some? ==> event.value == Deliver && old(Seen()).orders != []
      ensures old(read) < |server.responses| ==> read == old(read) + 1
    {
      if read == |server.responses| {
        return None;
      }
      var message := server.responses[read];
      FirstUnread(server.responses, read, server.session, taxi.id);
      var published := |taxi.requests|;
      taxi.Listen(message);
      read := read + 1;
      event := None;
      if OrderFor(message, taxi.id).Some? {
        ghost var calls := Engine.Obey(old(taxi.Now()), OrderFor(message, taxi.id).value, taxi.id).calls;
        Forward(published, calls);
        event := Some(Deliver);
      }
    }

    /** What the taxi has published since then is on the topic. */
    method Forward(published: nat, ghost calls: seq<Call>)
      requires Valid() && published <= |taxi.requests|
      requires taxi.Published(taxi.requests[..published], taxi.requests, calls)
      modifies this`requests
      ensures Valid()
      ensures CallsOf(requests[served..], server.session) == CallsOf(old(requests)[served..], server.session) + calls
    {
      var more := taxi.requests[published..];
      forall i | 0 <= i < |more| ensures more[i].session == server.session && CallOf(more[i]) == Some(calls[i]) {
        assert more[i] == taxi.requests[published + i];
        assert CallOf(more[i]) == Some(calls[i]);
      }
      TaxiIsHeard(more, calls, server.session);
      MoreCalls(requests, more, calls, served, server.session);
      requests := requests + more;
    }

    method CompleteSensorRound(waitTime: int, ghost job: Job) returns (ghost event: Option<Event>)
      requires Valid() && Serves(job) && waitTime <= Engine.INT_MAX
      modifies this`requests, this`moves, taxi
      ensures Valid() && Seen() == Led(old(Seen()), event, job) && event == Some(Sense(waitTime))
    {
      ghost var effect := Engine.Tick(taxi.Now(), waitTime, taxi.id);
      var published := |taxi.requests|;
      var _ := taxi.Attend(waitTime);
      Forward(published, effect.calls);
      moves := moves + if taxi.pos == old(taxi.pos) then 0 else 1;
      event := Some(Sense(waitTime));
    }

    method Accept(message: Message, ghost job: Job) returns (ghost event: Option<Event>)
      requires Valid() && Permitted(Publish(message), server.session, job)
      modifies this`requests
      ensures Valid() && Seen() == Led(old(Seen()), event, job) && StandsFor(Publish(message), event)
    {
      ghost var call := Admitted(message, server.session);
      CallsOfOne(message, server.session);
      MoreCalls(requests, [message], if call.Some? then [call.value] else [], served, server.session);
      requests := requests + [message];
      event := if call.Some? then Some(Chatter(call.value)) else None;
    }

    method Take(step: Step, ghost job: Job) returns (ghost event: Option<Event>)
      requires Valid() && Serves(job) && Permitted(step, server.session, job)
      modifies this, server, taxi
      ensures Valid() && Seen() == Led(old(Seen()), event, job) && StandsFor(step, event)
    {
      match step
      case ServerTurn(answers) => event := TakeServerTurn(answers, job);
      case TaxiListens => event := ListenToServer(job);
      case SensorRound(waitTime) => event := CompleteSensorRound(waitTime, job);
      case Publish(message) => event := Accept(message, job);
    }

    /** The events of the steps so far. */
    ghost predicate Traces(steps: seq<Step>, events: seq<Option<Event>>) {
      |steps| == |events| && forall i :: 0 <= i < |steps| ==> StandsFor(steps[i], events[i])
    }

    /** Any schedule of the processes is a run of the typed system, so a service is carried out by them: never but
        the stages in order, and the customer at its destination once the fixed number of active events is reached. */
    method Play(steps: seq<Step>, ghost job: Job) returns (ghost events: seq<Option<Event>>)
      requires Valid() && Serves(job) && forall step :: step in steps ==> Permitted(step, server.session, job)
      modifies this, server, taxi
      ensures Valid() && Traces(steps, events) && Seen() == Run(old(Seen()), Somes(events), job)
      ensures Start(old(Seen()), job) && PossibleRun(old(Seen()), Somes(events), job) ==>
                && fate.Served?
                && NoticesOf(server.due, job.customer)
                   <= [AcceptedBy(job.taxi), AcceptedBy(job.taxi), PickedUp, Completed]
                && Notices(server.responses, job.customer) == NoticesOf(server.due, job.customer)
                && Customer.Wait(Notices(server.responses, job.customer))
                   == (if Finished(Seen(), job) then Some(true) else None)
                && (ActiveEvents(old(Seen()), Somes(events), job) == Total(job) <==> Finished(Seen(), job))
    {
      events := [];
      ghost var start := Seen();
      for i := 0 to |steps|
        invariant Valid() && Traces(steps[..i], events)
        invariant Seen() == Run(start, Somes(events), job)
      {
        ghost var before := Seen();
        ghost var event := Take(steps[i], job);
        OneMoreStep(start, events, event, job);
        events := events + [event];
      }
      assert steps[..|steps|] == steps;
      RepresentedTopic(server.responses, server.due, job.taxi, job.customer);
      if Start(start, job) && PossibleRun(start, Somes(events), job) {
        ServiceIsCarriedOut(start, Somes(events), job);
      }
    }

    /** The taxi reads its next response, or completes a round that nothing blocks. */
    method AdvanceTaxi(ghost job: Job, ghost phase: Phase) returns (ghost after: Phase)
      requires Valid() && Serves(job) && In(Seen(), job, phase) && AllQuiet(Seen().calls, job)
      requires read < |server.responses| || taxi.pos != taxi.dest
      modifies this`requests, this`read, this`moves, taxi
      ensures Valid() && In(Seen(), job, after) && AllQuiet(Seen().calls, job)
      ensures 0 <= Work(Seen(), job, after) <= Work(old(Seen()), job, phase)
      ensures Work(Seen(), job, after) == Work(old(Seen()), job, phase) ==>
                requests == old(requests) && old(read) < read <= |server.responses|
    {
      ghost var before := Seen();
      ghost var event: Option<Event>;
      if read < |server.responses| {
        event := ListenToServer(job);
      } else {
        event := CompleteSensorRound(0, job);
      }
      after := FollowedBy(before, event, job, phase);
    }

    /** The server takes its next request; the queue is empty and the taxi is the one for this service. */
    method AdvanceServer(ghost job: Job, ghost phase: Phase) returns (ghost after: Phase)
      requires Valid() && Serves(job) && In(Seen(), job, phase) && AllQuiet(Seen().calls, job)
      requires served < |requests|
      modifies this`served, this`fate, server
      ensures Valid() && In(Seen(), job, after) && AllQuiet(Seen().calls, job)
      ensures 0 <= Work(Seen(), job, after) <= Work(old(Seen()), job, phase)
      ensures served == old(served) + 1
    {
      ghost var before := Seen();
      QuietIsPossible(before, job, phase);
      ghost var event := TakeServerTurn(Answers(0, Some(taxi.id), None), job);
      after := FollowedBy(before, event, job, phase);
    }

    predicate Busy()
      requires Valid()
      reads this, server, taxi
    {
      read < |server.responses| || taxi.pos != taxi.dest || served < |requests|
    }

    method Advance(ghost job: Job, ghost phase: Phase) returns (ghost after: Phase)
      requires Valid() && Serves(job) && Busy() && In(Seen(), job, phase) && AllQuiet(Seen().calls, job)
      modifies this, server, taxi
      ensures Valid() && In(Seen(), job, after) && AllQuiet(Seen().calls, job)
      ensures 0 <= Rank(job, after).0 && Below(Rank(job, after), old(Rank(job, phase)))
    {
      if read < |server.responses| || taxi.pos != taxi.dest {
        after := AdvanceTaxi(job, phase);
      } else {
        after := AdvanceServer(job, phase);
      }
    }

    lemma NothingUnread()
      requires Valid() && !Busy()
      ensures Seen().calls == [] && Seen().orders == [] && Engine.Idle(Seen().engine)
    {
      assert requests[served..] == [] && server.responses[read..] == [];
    }

    /** The work left, and the messages unread. */
    ghost function Rank(job: Job, phase: Phase): (int, int, int)
      requires Valid()
      reads this, server, taxi
    {
      (Work(Seen(), job, phase), |requests| - served, |server.responses| - read)
    }

    /** Left to themselves, the processes bring any service to its end, from every stage it can be in. */
    method Finish(ghost job: Job, ghost phase: Phase)
      requires Valid() && Serves(job) && In(Seen(), job, phase) && AllQuiet(Seen().calls, job)
      modifies this, server, taxi
      ensures Valid() && Finished(Seen(), job)
    {
      ghost var now := phase;
      WorkIsPositive(Seen(), job, phase);
      while Busy()
        invariant Valid() && In(Seen(), job, now) && AllQuiet(Seen().calls, job)
        invariant Rank(job, now).0 >= 0
        decreases Rank(job, now).0, Rank(job, now).1, Rank(job, now).2
      {
        now := Advance(job, now);
      }
      NothingUnread();
      RestIsDone(Seen(), job, now);
    }
  }

  /** The stage after a step, in which no more is left to do than before. */
  lemma FollowedBy(s: System, event: Option<Event>, job: Job, phase: Phase) returns (after: Phase)
    requires In(s, job, phase) && AllQuiet(s.calls, job)
    requires event.Some? ==> Possible(s, event.value, job) && !event.value.Chatter?
    ensures In(Led(s, event, job), job, after) && AllQuiet(Led(s, event, job).calls, job)
    ensures 0 <= Work(Led(s, event, job), job, after)
         == Work(s, job, phase) - if event.Some? && Active(s, event.value, job) then 1 else 0
  {
    after := phase;
    if event.Some? {
      after := EventStep(s, event.value, job, phase);
      StaysQuiet(s, event.value, job);
    }
    WorkIsPositive(Led(s, event, job), job, after);
  }

  lemma RestIsDone(s: System, job: Job, phase: Phase)
    requires In(s, job, phase) && s.calls == [] && s.orders == [] && Engine.Idle(s.engine)
    ensures Finished(s, job)
  {
    FinishedIsDone(s, job, phase);
  }

  lemma {:induction false} RunOneMore(s: System, es: seq<Event>, e: Event, job: Job)
    ensures Run(s, es + [e], job) == Next(Run(s, es, job), e, job)
    decreases |es|
  {
    if es == [] {
      assert es + [e] == [e] && [e][1..] == [];
    } else {
      assert (es + [e])[1..] == es[1..] + [e];
      RunOneMore(Next(s, es[0], job), es[1..], e, job);
    }
  }

  lemma OneMoreStep(s: System, events: seq<Option<Event>>, event: Option<Event>, job: Job)
    ensures var now := Run(s, Somes(events), job);
            Run(s, Somes(events + [event]), job) == Led(now, event, job)
  {
    SomesConcat(events, [event]);
    SomesOfOne(event);
    if event.Some? {
      RunOneMore(s, Somes(events), event.value, job);
    } else {
      assert Somes(events) + [] == Somes(events);
    }
  }
}
