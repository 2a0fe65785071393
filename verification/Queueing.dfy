/** What the queue and the choice of a taxi do not provide, and exactly when a customer gets what it asked for. */
module Queueing {
  import opened Wrappers
  import opened Bytes
  import opened Protocol
  import opened Database
  import opened Dispatcher
  import opened DispatcherRuns

  /** The only calls that take a customer out of the queue: the order that should give it priority, and its deletion. */
  predicate Dequeues(db: Tables, call: Call, c: Char) {
    call == OrderCustomerPriority(c) || (call == OrderCustomerDisconnect(c) && !Carried(db, c))
  }

  lemma AssignKeepsQueue(db: Tables, t: int, d: Char, c: Char)
    ensures Queued(Assign(db, t, d).db, c) <==> Queued(db, c)
  {
  }

  lemma MoveKeepsQueue(db: Tables, t: int, coord: Coordinate, c: Char)
    ensures Queued(Move(db, t, coord), c) <==> Queued(db, c)
  {
  }

  lemma OnboardKeepsQueue(db: Tables, d: Char, t: int, val: bool, c: Char)
    ensures Queued(SetOnboard(db, d, t, val), c) <==> Queued(db, c)
  {
  }

  lemma ReachedKeepsQueue(db: Tables, t: int, coord: Coordinate, answers: Answers, c: Char)
    ensures Queued(Reached(db, t, coord, answers).db, c) <==> Queued(db, c)
  {
    MoveKeepsQueue(db, t, coord, c);
    var moved := Move(db, t, coord);
    match CarryingClient(db, t)
    case Some(d) =>
      OnboardKeepsQueue(moved, d, t, false, c);
      if answers.queueHead.Some? {
        AssignKeepsQueue(SetOnboard(moved, d, t, false), t, answers.queueHead.value, c);
      }
    case None =>
      if GetService(db, t).Some? {
        OnboardKeepsQueue(moved, GetService(db, t).value, t, true, c);
      }
  }

  lemma RequestKeepsQueue(db: Tables, d: Char, service: Char, answers: Answers, c: Char)
    requires Queued(db, c)
    ensures Queued(RequestService(db, d, service, answers).db, c)
  {
    if answers.freeTaxi.Some? && SetDestination(db, d, service).Some? {
      AssignKeepsQueue(SetDestination(db, d, service).value, answers.freeTaxi.value, d, c);
    }
  }

  lemma PlainCallKeepsQueueIff(db: Tables, central: Text, call: Call, answers: Answers, c: Char)
    requires Queued(db, c)
    requires !call.NewTaxi? && !call.TaxiReconnected? && !call.TaxiMove?
    requires !call.TaxiDestinationReached? && !call.CustomerServiceRequest?
    ensures Queued(Handle(db, central, call, answers).db, c) <==> !Dequeues(db, call, c)
  {
  }

  /** Serving a queued customer does not take it out of the queue: it stays unless one of the two calls comes. */
  lemma StaysQueuedIff(db: Tables, central: Text, call: Call, answers: Answers, c: Char)
    requires Queued(db, c)
    ensures Queued(Handle(db, central, call, answers).db, c) <==> !Dequeues(db, call, c)
  {
    match call
    case NewTaxi(t) =>
      if answers.queueHead.Some? {
        AssignKeepsQueue(db, t, answers.queueHead.value, c);
      }
    case TaxiReconnected(t) =>
      if answers.queueHead.Some? {
        AssignKeepsQueue(db, t, answers.queueHead.value, c);
      }
    case TaxiMove(t, coord) => MoveKeepsQueue(db, t, coord, c);
    case TaxiDestinationReached(t, coord) => ReachedKeepsQueue(db, t, coord, answers, c);
    case CustomerServiceRequest(d, service) => RequestKeepsQueue(db, d, service, answers, c);
    case _ => PlainCallKeepsQueueIff(db, central, call, answers, c);
  }

  ghost predicate NeverDequeued(db: Tables, central: Text, es: seq<Event>, c: Char)
    decreases |es|
  {
    es != [] ==>
      && (es[0].Serve? ==> !Dequeues(db, es[0].call, c))
      && NeverDequeued(Next(db, central, es[0]), central, es[1..], c)
  }

  /** So a run that serves it any number of times leaves it queued. */
  lemma {:induction false} QueuedThroughout(db: Tables, central: Text, es: seq<Event>, c: Char)
    requires Queued(db, c) && NeverDequeued(db, central, es, c)
    ensures Queued(After(db, central, es), c)
    decreases |es|
  {
    if es != [] {
      if es[0].Serve? {
        StaysQueuedIff(db, central, es[0].call, es[0].answers, c);
      }
      QueuedThroughout(Next(db, central, es[0]), central, es[1..], c);
    }
  }

  /** The replies send the taxi to one that has waited longest and tell that customer so, or there are none when
      nobody waits. */
  ghost predicate ServesLongest(db: Tables, after: Tables, t: int, replies: seq<Reply>) {
    if forall c :: !Queued(db, c) then replies == []
    else exists c :: Queued(db, c) && c in after.customers
           && replies == [TaxiGoTo(t, after.customers[c].coord), ServiceAccepted(c, t)]
           && forall d :: Queued(db, d) ==> db.customers[c].inQueue.value <= db.customers[d].inQueue.value
  }

  lemma QueueServesLongest(db: Tables, now: Tables, t: int, answers: Answers)
    requires ValidAnswers(db, answers) && t in now.taxis && db.customers.Keys == now.customers.Keys
    ensures var out := AssignQueueHead(now, t, answers); ServesLongest(db, out.db, t, out.replies)
  {
    if answers.queueHead.Some? {
      var c := answers.queueHead.value;
      assert Queued(db, c);
      assert AssignQueueHead(now, t, answers).replies == [TaxiGoTo(t, now.customers[c].coord), ServiceAccepted(c, t)];
    }
  }

  /** A taxi that becomes available, new, back again or at the end of a service, which it completes first, goes to one
      that has waited longest. */
  lemma LongestWaitingIsServed(db: Tables, central: Text, t: int, coord: Coordinate, answers: Answers)
    requires ValidAnswers(db, answers) && t in db.taxis
    ensures var out := Handle(db, central, NewTaxi(t), answers);
            out == Handle(db, central, TaxiReconnected(t), answers) && ServesLongest(db, out.db, t, out.replies)
    ensures var out := Handle(db, central, TaxiDestinationReached(t, coord), answers);
            CarryingClient(db, t).Some? ==>
              && out.replies != [] && out.replies[0] == ServiceCompleted(CarryingClient(db, t).value)
              && ServesLongest(db, out.db, t, out.replies[1..])
  {
    QueueIsAsked(db, central, t, coord, answers);
    QueueServesLongest(db, db, t, answers);
    if CarryingClient(db, t).Some? {
      var c := CarryingClient(db, t).value;
      var arrived := SetOnboard(Move(db, t, coord), c, t, false);
      MoveKeepsRows(db, t, coord);
      OnboardKeepsRows(Move(db, t, coord), c, t, false);
      QueueServesLongest(db, arrived, t, answers);
    }
  }

  lemma QueueIsAsked(db: Tables, central: Text, t: int, coord: Coordinate, answers: Answers)
    ensures Handle(db, central, NewTaxi(t), answers) == AssignQueueHead(db, t, answers)
    ensures Handle(db, central, TaxiReconnected(t), answers) == AssignQueueHead(db, t, answers)
    ensures CarryingClient(db, t).Some? ==>
              var out := Handle(db, central, TaxiDestinationReached(t, coord), answers);
              out == DropOff(db, t, coord, CarryingClient(db, t).value, answers)
  {
  }

  predicate SameRows(a: Tables, b: Tables) { a.customers.Keys == b.customers.Keys && a.taxis.Keys == b.taxis.Keys }

  lemma MoveKeepsRows(db: Tables, t: int, coord: Coordinate)
    ensures SameRows(db, Move(db, t, coord))
  {
  }

  lemma OnboardKeepsRows(db: Tables, c: Char, t: int, val: bool)
    ensures SameRows(db, SetOnboard(db, c, t, val))
  {
  }

  // ---------------------------------------------------------------- the stored destination over a run

  /** The destination that the customer's row stores, if it has a row and if the row stores one. */
  function Stored(db: Tables, c: Char): Option<Option<Char>> {
    if c in db.customers then Some(db.customers[c].destination) else None
  }

  /** What an event makes of it: an admission starts without one, a deletion takes the row away, and only a request
      that is given a taxi, to a location that exists, stores one. */
  function StoredBy(db: Tables, e: Event, c: Char, before: Option<Option<Char>>): Option<Option<Char>> {
    if !e.Serve? then before
    else
      match e.call
      case NewCustomer(d, _, _) => if d == c && before.None? then Some(None) else before
      case OrderCustomerDisconnect(d) => if d == c && !Carried(db, c) then None else before
      case CustomerServiceRequest(d, service) =>
        if d == c && e.answers.freeTaxi.Some? && service in db.locations && before.Some?
        then Some(Some(service)) else before
      case _ => before
  }

  /** What the events of a run make of the first one, in turn. */
  function LastStored(db: Tables, central: Text, es: seq<Event>, c: Char, first: Option<Option<Char>>): Option<Option<Char>>
    decreases |es|
  {
    if es == [] then first
    else LastStored(Next(db, central, es[0]), central, es[1..], c, StoredBy(db, es[0], c, first))
  }

  lemma AssignStores(db: Tables, t: int, d: Char, c: Char)
    ensures Stored(Assign(db, t, d).db, c) == Stored(db, c)
  {
  }

  lemma MoveStores(db: Tables, t: int, coord: Coordinate, c: Char)
    ensures Stored(Move(db, t, coord), c) == Stored(db, c)
  {
  }

  lemma OnboardStores(db: Tables, d: Char, t: int, val: bool, c: Char)
    ensures Stored(SetOnboard(db, d, t, val), c) == Stored(db, c)
  {
  }

  lemma QueueStores(db: Tables, t: int, answers: Answers, c: Char)
    ensures Stored(AssignQueueHead(db, t, answers).db, c) == Stored(db, c)
  {
    if answers.queueHead.Some? {
      AssignStores(db, t, answers.queueHead.value, c);
    }
  }

  lemma ReachedStores(db: Tables, t: int, coord: Coordinate, answers: Answers, c: Char)
    ensures Stored(Reached(db, t, coord, answers).db, c) == Stored(db, c)
  {
    MoveStores(db, t, coord, c);
    var moved := Move(db, t, coord);
    match CarryingClient(db, t)
    case Some(d) =>
      OnboardStores(moved, d, t, false, c);
      QueueStores(SetOnboard(moved, d, t, false), t, answers, c);
    case None =>
      if GetService(db, t).Some? {
        OnboardStores(moved, GetService(db, t).value, t, true, c);
      }
  }

  lemma RequestStores(db: Tables, d: Char, service: Char, answers: Answers, c: Char)
    ensures Stored(RequestService(db, d, service, answers).db, c)
         == StoredBy(db, Serve(CustomerServiceRequest(d, service), answers), c, Stored(db, c))
  {
    var updated := SetDestination(db, d, service);
    if answers.freeTaxi.Some? && updated.Some? {
      AssignStores(updated.value, answers.freeTaxi.value, d, c);
    }
  }

  lemma PlainCallStores(db: Tables, central: Text, call: Call, answers: Answers, c: Char)
    requires !call.NewTaxi? && !call.TaxiReconnected? && !call.TaxiMove?
    requires !call.TaxiDestinationReached? && !call.CustomerServiceRequest?
    ensures Stored(Handle(db, central, call, answers).db, c) == StoredBy(db, Serve(call, answers), c, Stored(db, c))
  {
  }

  lemma EventStores(db: Tables, central: Text, e: Event, c: Char)
    ensures Stored(Next(db, central, e), c) == StoredBy(db, e, c, Stored(db, c))
  {
    if e.Serve? {
      match e.call
      case NewTaxi(t) => QueueStores(db, t, e.answers, c);
      case TaxiReconnected(t) => QueueStores(db, t, e.answers, c);
      case TaxiMove(t, coord) => MoveStores(db, t, coord, c);
      case TaxiDestinationReached(t, coord) => ReachedStores(db, t, coord, e.answers, c);
      case CustomerServiceRequest(d, service) => RequestStores(db, d, service, e.answers, c);
      case _ => PlainCallStores(db, central, e.call, e.answers, c);
    }
  }

  /** Over every run, the customer's row and the destination it stores are those of the last event that says so. */
  lemma {:induction false} RunStores(db: Tables, central: Text, es: seq<Event>, c: Char)
    ensures Stored(After(db, central, es), c) == LastStored(db, central, es, c, Stored(db, c))
    decreases |es|
  {
    if es != [] {
      EventStores(db, central, es[0], c);
      RunStores(Next(db, central, es[0]), central, es[1..], c);
    }
  }

  lemma EventLeavesLocations(db: Tables, central: Text, e: Event)
    ensures Next(db, central, e).locations.Keys == db.locations.Keys
  {
    if e.Serve? {
      match e.call
      case NewTaxi(t) => QueueLeavesLocations(db, t, e.answers);
      case TaxiReconnected(t) => QueueLeavesLocations(db, t, e.answers);
      case TaxiDestinationReached(t, coord) => ReachedLeavesLocations(db, t, coord, e.answers);
      case CustomerServiceRequest(c, service) => RequestLeavesLocations(db, c, service, e.answers);
      case _ =>
    }
  }

  lemma QueueLeavesLocations(db: Tables, t: int, answers: Answers)
    ensures AssignQueueHead(db, t, answers).db.locations == db.locations
  {
  }

  lemma OnboardLeavesLocations(db: Tables, t: int, coord: Coordinate, c: Char, val: bool)
    ensures SetOnboard(Move(db, t, coord), c, t, val).locations == db.locations
    ensures Move(db, t, coord).locations == db.locations
  {
  }

  lemma ReachedLeavesLocations(db: Tables, t: int, coord: Coordinate, answers: Answers)
    ensures Reached(db, t, coord, answers).db.locations == db.locations
  {
    match CarryingClient(db, t)
    case Some(c) =>
      OnboardLeavesLocations(db, t, coord, c, false);
      QueueLeavesLocations(SetOnboard(Move(db, t, coord), c, t, false), t, answers);
    case None =>
      OnboardLeavesLocations(db, t, coord, if GetService(db, t).Some? then GetService(db, t).value else 'a', true);
  }

  lemma RequestLeavesLocations(db: Tables, c: Char, service: Char, answers: Answers)
    ensures RequestService(db, c, service, answers).db.locations == db.locations
  {
  }

  lemma {:induction false} LocationsStay(db: Tables, central: Text, es: seq<Event>)
    ensures After(db, central, es).locations.Keys == db.locations.Keys
    decreases |es|
  {
    if es != [] {
      EventLeavesLocations(db, central, es[0]);
      LocationsStay(Next(db, central, es[0]), central, es[1..]);
    }
  }

  // ---------------------------------------------------------------- a taxi's assignment over a run

  /** The customer that the event assigns to the taxi. */
  function Given(db: Tables, e: Event, t: int): Option<Char> {
    if !e.Serve? then None
    else
      match e.call
      case NewTaxi(u) => if u == t then GivenFromQueue(db, e.answers) else None
      case TaxiReconnected(u) => if u == t then GivenFromQueue(db, e.answers) else None
      case CustomerServiceRequest(c, service) =>
        if e.answers.freeTaxi == Some(t) && c in db.customers && service in db.locations then Some(c) else None
      case _ => None
  }

  function GivenFromQueue(db: Tables, answers: Answers): Option<Char> {
    if answers.queueHead.Some? && answers.queueHead.value in db.customers then answers.queueHead else None
  }

  /** The last customer that the run assigns to the taxi, or else the first one. */
  function LastGiven(db: Tables, central: Text, es: seq<Event>, t: int, first: Option<Char>): Option<Char>
    decreases |es|
  {
    if es == [] then first
    else
      var given := Given(db, es[0], t);
      LastGiven(Next(db, central, es[0]), central, es[1..], t, if given.Some? then given else first)
  }

  predicate Arrives(e: Event, t: int) { e.Serve? && e.call.TaxiDestinationReached? && e.call.taxiId == t }

  predicate RedirectedBy(e: Event, t: int) {
    e.Serve? && (e.call.OrderTaxiGoTo? || e.call.OrderTaxiReturnToBase?) && e.call.taxiId == t
  }

  predicate Redirected(es: seq<Event>, t: int) { exists e :: e in es && RedirectedBy(e, t) }

  /** Between two of the taxi's arrivals, an event can give it another customer, or an order to drive make it
      forget its passenger; nothing else. */
  ghost predicate Reassigned(a: Tables, b: Tables, t: int, given: Option<Char>, redirected: bool) {
    && t in a.taxis && t in b.taxis
    && b.taxis[t].service == (if given.Some? then given else a.taxis[t].service)
    && b.taxis[t].customer == (if redirected then None else a.taxis[t].customer)
  }

  lemma QueueReassigns(db: Tables, u: int, answers: Answers, t: int)
    requires t in db.taxis
    ensures Reassigned(db, AssignQueueHead(db, u, answers).db, t, if u == t then GivenFromQueue(db, answers) else None, false)
  {
  }

  lemma RequestReassigns(db: Tables, c: Char, service: Char, answers: Answers, t: int)
    requires t in db.taxis
    ensures Reassigned(db, RequestService(db, c, service, answers).db, t,
                       Given(db, Serve(CustomerServiceRequest(c, service), answers), t), false)
  {
  }

  lemma OnboardReassigns(db: Tables, u: int, coord: Coordinate, c: Char, val: bool, t: int)
    requires t in db.taxis && u != t
    ensures Reassigned(db, Move(db, u, coord), t, None, false)
    ensures Reassigned(db, SetOnboard(Move(db, u, coord), c, u, val), t, None, false)
  {
  }

  lemma ReachedReassigns(db: Tables, u: int, coord: Coordinate, answers: Answers, t: int)
    requires t in db.taxis && u != t
    ensures Reassigned(db, Reached(db, u, coord, answers).db, t, None, false)
  {
    match CarryingClient(db, u)
    case Some(c) =>
      OnboardReassigns(db, u, coord, c, false, t);
      QueueReassigns(SetOnboard(Move(db, u, coord), c, u, false), u, answers, t);
    case None =>
      OnboardReassigns(db, u, coord, if GetService(db, u).Some? then GetService(db, u).value else 'a', true, t);
  }

  lemma PlainCallReassigns(db: Tables, central: Text, call: Call, answers: Answers, t: int)
    requires t in db.taxis && !call.NewTaxi? && !call.TaxiReconnected?
    requires !call.TaxiDestinationReached? && !call.CustomerServiceRequest?
    ensures Reassigned(db, Handle(db, central, call, answers).db, t, None, RedirectedBy(Serve(call, answers), t))
  {
  }

  lemma EventReassigns(db: Tables, central: Text, e: Event, t: int)
    requires t in db.taxis && !Arrives(e, t)
    ensures Reassigned(db, Next(db, central, e), t, Given(db, e, t), RedirectedBy(e, t))
  {
    if e.Serve? {
      match e.call
      case NewTaxi(u) => QueueReassigns(db, u, e.answers, t);
      case TaxiReconnected(u) => QueueReassigns(db, u, e.answers, t);
      case TaxiDestinationReached(u, coord) => ReachedReassigns(db, u, coord, e.answers, t);
      case CustomerServiceRequest(c, service) => RequestReassigns(db, c, service, e.answers, t);
      case _ => PlainCallReassigns(db, central, e.call, e.answers, t);
    }
  }

  /** Over every run without an arrival of the taxi: whom it comes for is whom it was given last, and it still
      carries its passenger unless it was redirected. */
  lemma {:induction false} RunReassigns(db: Tables, central: Text, es: seq<Event>, t: int)
    requires t in db.taxis && forall e :: e in es ==> !Arrives(e, t)
    ensures var there := After(db, central, es);
            && GetService(there, t) == LastGiven(db, central, es, t, GetService(db, t))
            && CarryingClient(there, t) == if Redirected(es, t) then None else CarryingClient(db, t)
    decreases |es|
  {
    if es != [] {
      var db1 := Next(db, central, es[0]);
      EventReassigns(db, central, es[0], t);
      RunReassigns(db1, central, es[1..], t);
      RedirectedFirst(es, t);
    }
  }

  lemma RedirectedFirst(es: seq<Event>, t: int)
    requires es != []
    ensures Redirected(es, t) <==> RedirectedBy(es[0], t) || Redirected(es[1..], t)
  {
    if RedirectedBy(es[0], t) {
      assert es[0] in es;
    }
    if Redirected(es[1..], t) {
      var e :| e in es[1..] && RedirectedBy(e, t);
      assert e in es;
    }
    if Redirected(es, t) {
      var e :| e in es && RedirectedBy(e, t);
      assert e == es[0] || e in es[1..];
    }
  }

  // ---------------------------------------------------------------- what becomes of a request

  /** The tables once a request was served and the events after it happened. */
  function AfterRequest(db: Tables, central: Text, c: Char, service: Char, asking: Answers, es: seq<Event>): Tables {
    After(Next(db, central, Serve(CustomerServiceRequest(c, service), asking)), central, es)
  }

  lemma RequestFirst(db: Tables, central: Text, c: Char, service: Char, asking: Answers, es: seq<Event>)
    ensures AfterRequest(db, central, c, service, asking, es)
         == After(RequestService(db, c, service, asking).db, central, es)
  {
  }

  /** The outcome of a taxi's arrival. */
  function Arrival(db: Tables, central: Text, t: int, coord: Coordinate, answers: Answers): Outcome {
    Handle(db, central, TaxiDestinationReached(t, coord), answers)
  }

  lemma ArrivalIs(db: Tables, central: Text, t: int, coord: Coordinate, answers: Answers)
    ensures Arrival(db, central, t, coord, answers) == Reached(db, t, coord, answers)
  {
  }

  /** Where a stored destination is. */
  function PlaceOf(places: map<Char, Coordinate>, stored: Option<Option<Char>>): Option<Coordinate> {
    if stored.Some? && stored.value.Some? && stored.value.value in places then Some(places[stored.value.value]) else None
  }

  lemma PickUpTells(db: Tables, t: int, coord: Coordinate, c: Char, answers: Answers)
    requires CarryingClient(db, t).None? && GetService(db, t) == Some(c)
    ensures var place := PlaceOf(db.locations, Stored(db, c));
            Reached(db, t, coord, answers).replies
            == if place.Some? then [CustomerPickedUp(c), TaxiGoTo(t, place.value)] else [ServiceDenied(c)]
  {
    MoveStores(db, t, coord, c);
  }

  /** A request is queued; whatever happens then, when a taxi comes for the customer, the two are told by the
      destination stored last, before the request or since, and the customer is refused if there is none. So it gets
      what it asked for exactly when that destination is at the same place. */
  lemma QueuedServiceIsHonouredIff(
    db: Tables, central: Text, c: Char, service: Char, asking: Answers, es: seq<Event>,
    t: int, coord: Coordinate, arriving: Answers)
    requires c in db.customers && service in db.locations && asking.freeTaxi.None?
    requires var there := AfterRequest(db, central, c, service, asking, es);
             CarryingClient(there, t).None? && GetService(there, t) == Some(c)
    ensures var there := AfterRequest(db, central, c, service, asking, es);
            var told := Arrival(there, central, t, coord, arriving).replies;
            var asked := RequestService(db, c, service, asking).db;
            var place := PlaceOf(there.locations, LastStored(asked, central, es, c, Stored(db, c)));
            && service in there.locations
            && told == (if place.Some? then [CustomerPickedUp(c), TaxiGoTo(t, place.value)] else [ServiceDenied(c)])
            && (TaxiGoTo(t, there.locations[service]) in told <==> place == Some(there.locations[service]))
  {
    var asked := RequestService(db, c, service, asking).db;
    var there := After(asked, central, es);
    RequestFirst(db, central, c, service, asking, es);
    ArrivalIs(there, central, t, coord, arriving);
    RequestStores(db, c, service, asking, c);
    RunStores(asked, central, es, c);
    LocationsStay(asked, central, es);
    PickUpTells(there, t, coord, c, arriving);
  }

  lemma RequestAssigns(db: Tables, c: Char, service: Char, t: int, asking: Answers)
    requires c in db.customers && service in db.locations && t in db.taxis && asking.freeTaxi == Some(t)
    ensures var asked := RequestService(db, c, service, asking).db;
            && Stored(asked, c) == Some(Some(service)) && asked.locations == db.locations
            && t in asked.taxis && asked.taxis[t].service == Some(c) && asked.taxis[t].customer == db.taxis[t].customer
  {
  }

  /** A destination that a run stored is of a location that exists. */
  lemma {:induction false} StoredExists(db: Tables, central: Text, es: seq<Event>, c: Char, first: Option<Option<Char>>)
    requires first.Some? && first.value.Some? ==> first.value.value in db.locations
    ensures var last := LastStored(db, central, es, c, first);
            last.Some? && last.value.Some? ==> last.value.value in db.locations
    decreases |es|
  {
    if es != [] {
      EventLeavesLocations(db, central, es[0]);
      StoredExists(Next(db, central, es[0]), central, es[1..], c, StoredBy(db, es[0], c, first));
    }
  }

  /** What an arrival comes to: whether the taxi takes the customer aboard, whether it says so, and whose service it
      declares complete instead. */
  predicate Fetches(reached: Outcome, t: int, c: Char, carried: Option<Char>, mine: bool, stored: Option<Option<Char>>) {
    && (Carries(reached.db, t, c) <==> mine && stored.Some?)
    && (CustomerPickedUp(c) in reached.replies <==> mine && stored.Some? && stored.value.Some?)
    && (ServiceDenied(c) in reached.replies <==> mine && !(stored.Some? && stored.value.Some?))
    && (carried.Some? ==> [ServiceCompleted(carried.value)] <= reached.replies)
  }

  lemma FetchedBoards(db: Tables, c: Char, t: int, coord: Coordinate, answers: Answers)
    requires t in db.taxis && db.taxis[t].customer.None? && db.taxis[t].service == Some(c)
    ensures Carries(Reached(db, t, coord, answers).db, t, c) <==> c in db.customers
  {
  }

  lemma OtherBoards(db: Tables, c: Char, t: int, coord: Coordinate, answers: Answers)
    requires t in db.taxis && (db.taxis[t].customer.Some? || db.taxis[t].service != Some(c))
    ensures var reached := Reached(db, t, coord, answers);
            && !Carries(reached.db, t, c)
            && CustomerPickedUp(c) !in reached.replies && ServiceDenied(c) !in reached.replies
            && (db.taxis[t].customer.Some? ==> [ServiceCompleted(db.taxis[t].customer.value)] <= reached.replies)
  {
  }

  lemma ArrivalFetchesIff(db: Tables, c: Char, t: int, coord: Coordinate, answers: Answers)
    requires t in db.taxis
    requires Stored(db, c).Some? && Stored(db, c).value.Some? ==> Stored(db, c).value.value in db.locations
    ensures var row := db.taxis[t];
            Fetches(Reached(db, t, coord, answers), t, c, row.customer,
                    row.customer.None? && row.service == Some(c), Stored(db, c))
  {
    if db.taxis[t].customer.None? && db.taxis[t].service == Some(c) {
      FetchedBoards(db, c, t, coord, answers);
      PickUpTells(db, t, coord, c, answers);
    } else {
      OtherBoards(db, c, t, coord, answers);
    }
  }

  /** A request is given a taxi; whatever happens until that taxi arrives, it takes the customer aboard exactly when
      it carried nobody at the request or an order made it forget its passenger, this customer is the last that it was
      given, and the customer still has a row; it says so exactly when the row still stores a destination. A
      passenger it carries is told instead that its service is complete. */
  lemma RequesterIsFetchedIff(
    db: Tables, central: Text, c: Char, service: Char, t: int, asking: Answers, es: seq<Event>,
    coord: Coordinate, arriving: Answers)
    requires c in db.customers && service in db.locations && t in db.taxis && asking.freeTaxi == Some(t)
    requires forall e :: e in es ==> !Arrives(e, t)
    ensures var asked := RequestService(db, c, service, asking).db;
            var reached := Arrival(AfterRequest(db, central, c, service, asking, es), central, t, coord, arriving);
            var carried := if Redirected(es, t) then None else CarryingClient(db, t);
            var mine := carried.None? && LastGiven(asked, central, es, t, Some(c)) == Some(c);
            Fetches(reached, t, c, carried, mine, LastStored(asked, central, es, c, Some(Some(service))))
  {
    var asked := RequestService(db, c, service, asking).db;
    var there := After(asked, central, es);
    RequestFirst(db, central, c, service, asking, es);
    ArrivalIs(there, central, t, coord, arriving);
    RequestAssigns(db, c, service, t, asking);
    RunReassigns(asked, central, es, t);
    RowStays(asked, central, es, t);
    RunStores(asked, central, es, c);
    LocationsStay(asked, central, es);
    StoredExists(asked, central, es, c, Some(Some(service)));
    ArrivalFetchesIff(there, c, t, coord, arriving);
  }

  lemma {:induction false} RowStays(db: Tables, central: Text, es: seq<Event>, t: int)
    requires t in db.taxis
    ensures t in After(db, central, es).taxis
    decreases |es|
  {
    if es != [] {
      TaxiRowsStay(db, central, es[0]);
      RowStays(Next(db, central, es[0]), central, es[1..], t);
    }
  }

  /** A taxi counts as free while it carries somebody: a request can take it away from its passenger, who is then
      told that the service is complete at the new customer's place. */
  lemma BusyTaxiDropsItsPassenger(db: Tables, t: int, passenger: Char, c: Char, service: Char, now: int)
    requires Carries(db, t, passenger) && c in db.customers && passenger in db.customers && c != passenger
    requires db.taxis[t].connected && service in db.locations && forall d :: !Queued(db, d)
    ensures var answers := Answers(now, Some(t), None);
            var asked := RequestService(db, c, service, answers);
            var there := db.customers[c].coord;
            var reached := Reached(asked.db, t, there, answers);
            && ValidAnswers(db, answers)
            && asked.replies == [TaxiGoTo(t, there), ServiceAccepted(c, t), ServiceAccepted(c, t)]
            && reached.replies == [ServiceCompleted(passenger)]
            && reached.db.customers[passenger].coord == there
            && !Carries(reached.db, t, c)
  {
  }
}
