/** Runs from empty tables, with answers the database would give, that end where nobody would want them to. */
module Mishaps {
  import opened Wrappers
  import opened Bytes
  import opened Protocol
  import opened Database
  import opened Dispatcher
  import opened DispatcherRuns

  /** A map with one location, nobody on it yet. */
  const TOWN := Tables(map['l' := Coordinate(5, 5)], map[], map[])

  const HOME := Coordinate(0, 0)

  /** The run is possible and leads from one state to the other. */
  ghost predicate LeadsTo(db: Tables, central: Text, es: seq<Event>, end: Tables) {
    ValidRun(db, central, es) && After(db, central, es) == end
  }

  lemma OneEvent(db: Tables, central: Text, e: Event)
    requires e.Serve? ==> ValidAnswers(db, e.answers)
    ensures LeadsTo(db, central, [e], Next(db, central, e))
  {
    assert [e][1..] == [];
  }

  lemma InSequence(db: Tables, central: Text, a: seq<Event>, mid: Tables, b: seq<Event>, end: Tables)
    requires LeadsTo(db, central, a, mid) && LeadsTo(mid, central, b, end)
    ensures LeadsTo(db, central, a + b, end)
  {
    RunsInSequence(db, central, a, b);
  }

  // ---------------------------------------------------------------- an order to an empty taxi

  const TAXI_CALLED := NEW_TAXI_ROW.(dest := Some(HOME), service := Some('1'))
  const CALLER := NewCustomerRow(HOME).(destination := Some('l'))

  /** Taxi 2 is sent to customer 1. */
  const CALLED := [InsertTaxi(2)]
    + [Serve(NewCustomer('1', HOME, "u"), Answers(0, Some(2), None))]
    + [Serve(CustomerServiceRequest('1', 'l'), Answers(1, Some(2), None))]

  /** It fetches the customer, and the operator sends taxi 1 away. */
  const REDIRECTED := CALLED
    + [Serve(TaxiDestinationReached(2, HOME), Answers(2, Some(2), None))]
    + [Serve(OrderTaxiGoTo(1, Coordinate(3, 3)), Answers(3, Some(2), None))]

  lemma CustomerIsCalledFor(central: Text)
    ensures LeadsTo(TOWN, central, CALLED, TOWN.(customers := map['1' := CALLER], taxis := map[2 := TAXI_CALLED]))
  {
    var db1 := TOWN.(taxis := map[2 := NEW_TAXI_ROW]);
    var db2 := db1.(customers := map['1' := NewCustomerRow(HOME)]);
    var db3 := TOWN.(customers := map['1' := CALLER], taxis := map[2 := TAXI_CALLED]);
    OneEvent(TOWN, central, CALLED[0]);
    OneEvent(db1, central, CALLED[1]);
    OneEvent(db2, central, CALLED[2]);
    InSequence(TOWN, central, [CALLED[0]], db1, [CALLED[1]], db2);
    InSequence(TOWN, central, [CALLED[0]] + [CALLED[1]], db2, [CALLED[2]], db3);
  }

  lemma CustomerIsAboard(central: Text)
    ensures LeadsTo(TOWN, central, CALLED + [REDIRECTED[3]],
                    TOWN.(customers := map['1' := CALLER.(onboard := true)],
                          taxis := map[2 := TAXI_CALLED.(customer := Some('1'))]))
  {
    var db3 := TOWN.(customers := map['1' := CALLER], taxis := map[2 := TAXI_CALLED]);
    var db4 := TOWN.(customers := map['1' := CALLER.(onboard := true)],
                     taxis := map[2 := TAXI_CALLED.(customer := Some('1'))]);
    CustomerIsCalledFor(central);
    OneEvent(db3, central, REDIRECTED[3]);
    InSequence(TOWN, central, CALLED, db3, [REDIRECTED[3]], db4);
  }

  /** The order clears the onboard flag of the customer with the taxi's number, whom taxi 2 carries. */
  lemma RedirectLosesCarrying(central: Text)
    ensures Carrying(TOWN) && ValidRun(TOWN, central, REDIRECTED)
    ensures var db := After(TOWN, central, REDIRECTED);
            Carries(db, 2, '1') && '1' in db.customers && !db.customers['1'].onboard && !Carrying(db)
  {
    var ordered := REDIRECTED[4];
    var db4 := TOWN.(customers := map['1' := CALLER.(onboard := true)],
                     taxis := map[2 := TAXI_CALLED.(customer := Some('1'))]);
    CustomerIsAboard(central);
    OneEvent(db4, central, ordered);
    InSequence(TOWN, central, CALLED + [REDIRECTED[3]], db4, [ordered], Next(db4, central, ordered));
    assert Carries(After(TOWN, central, REDIRECTED), 2, '1');
  }

  // ---------------------------------------------------------------- a customer served from the queue

  const WAITING := NewCustomerRow(HOME).(inQueue := Some(1))
  const ON_ITS_WAY := NEW_TAXI_ROW.(dest := Some(HOME), service := Some('a'))
  const FETCHED := WAITING.(onboard := true)
  const FETCHING := ON_ITS_WAY.(customer := Some('a'))

  /** Customer a asks while there is no taxi, and is queued. */
  const ASKED := [Serve(NewCustomer('a', HOME, "u"), Answers(0, None, None))]
    + [Serve(CustomerServiceRequest('a', 'l'), Answers(1, None, None))]

  /** Taxi 1 comes and is given the customer. */
  const ASSIGNED := ASKED + [InsertTaxi(1)] + [Serve(NewTaxi(1), Answers(2, Some(1), Some('a')))]

  const PICK_UP := Serve(TaxiDestinationReached(1, HOME), Answers(3, Some(1), Some('a')))

  /** Taxi 2 comes after the pick-up and is given the same customer, who is still queued. */
  const ASSIGNED_TWICE := [InsertTaxi(2)] + [Serve(NewTaxi(2), Answers(4, Some(1), Some('a')))]

  const SECOND_PICK_UP := Serve(TaxiDestinationReached(2, HOME), Answers(5, Some(1), Some('a')))

  function Queue(customer: CustomerRow, taxis: map<int, TaxiRow>): Tables {
    TOWN.(customers := map['a' := customer], taxis := taxis)
  }

  lemma CustomerIsAdmitted(central: Text)
    ensures LeadsTo(TOWN, central, [ASKED[0]], Queue(NewCustomerRow(HOME), map[]))
  {
    OneEvent(TOWN, central, ASKED[0]);
  }

  lemma CustomerIsQueued(central: Text)
    ensures LeadsTo(TOWN, central, ASKED, Queue(WAITING, map[]))
  {
    var db1 := Queue(NewCustomerRow(HOME), map[]);
    CustomerIsAdmitted(central);
    OneEvent(db1, central, ASKED[1]);
    InSequence(TOWN, central, [ASKED[0]], db1, [ASKED[1]], Queue(WAITING, map[]));
  }

  lemma QueuedCustomerIsAssigned(central: Text)
    ensures LeadsTo(TOWN, central, ASSIGNED, Queue(WAITING, map[1 := ON_ITS_WAY]))
  {
    var db2, db3, db4 := Queue(WAITING, map[]), Queue(WAITING, map[1 := NEW_TAXI_ROW]), Queue(WAITING, map[1 := ON_ITS_WAY]);
    CustomerIsQueued(central);
    OneEvent(db2, central, ASSIGNED[2]);
    OneEvent(db3, central, ASSIGNED[3]);
    InSequence(TOWN, central, ASKED, db2, [ASSIGNED[2]], db3);
    InSequence(TOWN, central, ASKED + [ASSIGNED[2]], db3, [ASSIGNED[3]], db4);
  }

  /** It asked for a location that exists and is refused at its pick-up, because nothing was stored. */
  lemma QueuedServiceIsDenied(central: Text)
    ensures LeadsTo(TOWN, central, ASSIGNED + [PICK_UP], Queue(FETCHED, map[1 := FETCHING]))
    ensures Handle(After(TOWN, central, ASSIGNED), central, PICK_UP.call, PICK_UP.answers).replies == [ServiceDenied('a')]
  {
    var db4 := Queue(WAITING, map[1 := ON_ITS_WAY]);
    QueuedCustomerIsAssigned(central);
    OneEvent(db4, central, PICK_UP);
    InSequence(TOWN, central, ASSIGNED, db4, [PICK_UP], Queue(FETCHED, map[1 := FETCHING]));
  }

  lemma CustomerIsAssignedAgain(central: Text)
    ensures LeadsTo(Queue(FETCHED, map[1 := FETCHING]), central, ASSIGNED_TWICE,
                    Queue(FETCHED, map[1 := FETCHING, 2 := ON_ITS_WAY]))
  {
    var db5, db6 := Queue(FETCHED, map[1 := FETCHING]), Queue(FETCHED, map[1 := FETCHING, 2 := NEW_TAXI_ROW]);
    OneEvent(db5, central, ASSIGNED_TWICE[0]);
    OneEvent(db6, central, ASSIGNED_TWICE[1]);
    InSequence(db5, central, [ASSIGNED_TWICE[0]], db6, [ASSIGNED_TWICE[1]],
               Queue(FETCHED, map[1 := FETCHING, 2 := ON_ITS_WAY]));
  }

  lemma CustomerIsFetchedAgain(central: Text)
    ensures LeadsTo(Queue(FETCHED, map[1 := FETCHING, 2 := ON_ITS_WAY]), central, [SECOND_PICK_UP],
                    Queue(FETCHED, map[1 := FETCHING, 2 := FETCHING]))
  {
    OneEvent(Queue(FETCHED, map[1 := FETCHING, 2 := ON_ITS_WAY]), central, SECOND_PICK_UP);
  }

  /** As serving a queued customer leaves it queued, two taxis end up carrying it. */
  lemma TwoTaxisCarryOneCustomer(central: Text)
    ensures var es := ASSIGNED + [PICK_UP] + ASSIGNED_TWICE + [SECOND_PICK_UP];
            var db := After(TOWN, central, es);
            && Carrying(TOWN) && ValidRun(TOWN, central, es)
            && Carries(db, 1, 'a') && Carries(db, 2, 'a') && !Carrying(db)
  {
    var db5 := Queue(FETCHED, map[1 := FETCHING]);
    var db7 := Queue(FETCHED, map[1 := FETCHING, 2 := ON_ITS_WAY]);
    var db8 := Queue(FETCHED, map[1 := FETCHING, 2 := FETCHING]);
    QueuedServiceIsDenied(central);
    CustomerIsAssignedAgain(central);
    CustomerIsFetchedAgain(central);
    InSequence(TOWN, central, ASSIGNED + [PICK_UP], db5, ASSIGNED_TWICE, db7);
    InSequence(TOWN, central, ASSIGNED + [PICK_UP] + ASSIGNED_TWICE, db7, [SECOND_PICK_UP], db8);
    assert Carries(db8, 1, 'a') && Carries(db8, 2, 'a');
  }

  // ---------------------------------------------------------------- an empty taxi given twice

  const AWAY := Coordinate(2, 2)

  /** Customers a and b, and taxi 1. */
  const PRESENT := [InsertTaxi(1)]
    + [Serve(NewCustomer('a', HOME, "u"), Answers(0, Some(1), None))]
    + [Serve(NewCustomer('b', AWAY, "v"), Answers(1, Some(1), None))]

  /** a asks and is given the taxi; before it comes, b asks and is given it too. */
  const STOLEN := PRESENT
    + [Serve(CustomerServiceRequest('a', 'l'), Answers(2, Some(1), None))]
    + [Serve(CustomerServiceRequest('b', 'l'), Answers(3, Some(1), None))]

  const STOLEN_ARRIVAL := Serve(TaxiDestinationReached(1, AWAY), Answers(4, Some(1), None))

  /** The tables with those two customers and that taxi. */
  function Pair(a: CustomerRow, b: CustomerRow, taxi: TaxiRow): Tables {
    TOWN.(customers := map['a' := a, 'b' := b], taxis := map[1 := taxi])
  }

  function Asking(home: Coordinate): CustomerRow { NewCustomerRow(home).(destination := Some('l')) }

  function Heading(coord: Coordinate, c: Char): TaxiRow { NEW_TAXI_ROW.(dest := Some(coord), service := Some(c)) }

  lemma BothArePresent(central: Text)
    ensures LeadsTo(TOWN, central, PRESENT, Pair(NewCustomerRow(HOME), NewCustomerRow(AWAY), NEW_TAXI_ROW))
  {
    var db1 := TOWN.(taxis := map[1 := NEW_TAXI_ROW]);
    var db2 := db1.(customers := map['a' := NewCustomerRow(HOME)]);
    var db3 := Pair(NewCustomerRow(HOME), NewCustomerRow(AWAY), NEW_TAXI_ROW);
    OneEvent(TOWN, central, PRESENT[0]);
    OneEvent(db1, central, PRESENT[1]);
    OneEvent(db2, central, PRESENT[2]);
    InSequence(TOWN, central, [PRESENT[0]], db1, [PRESENT[1]], db2);
    InSequence(TOWN, central, [PRESENT[0]] + [PRESENT[1]], db2, [PRESENT[2]], db3);
  }

  lemma FirstIsPromised(central: Text)
    ensures LeadsTo(TOWN, central, PRESENT + [STOLEN[3]], Pair(Asking(HOME), NewCustomerRow(AWAY), Heading(HOME, 'a')))
    ensures var before := After(TOWN, central, PRESENT);
            ServiceAccepted('a', 1) in Handle(before, central, STOLEN[3].call, STOLEN[3].answers).replies
  {
    var db3 := Pair(NewCustomerRow(HOME), NewCustomerRow(AWAY), NEW_TAXI_ROW);
    BothArePresent(central);
    OneEvent(db3, central, STOLEN[3]);
    InSequence(TOWN, central, PRESENT, db3, [STOLEN[3]], Pair(Asking(HOME), NewCustomerRow(AWAY), Heading(HOME, 'a')));
    assert Handle(db3, central, STOLEN[3].call, STOLEN[3].answers).replies[1] == ServiceAccepted('a', 1);
  }

  lemma SecondTakesItOver(central: Text)
    ensures LeadsTo(TOWN, central, STOLEN, Pair(Asking(HOME), Asking(AWAY), Heading(AWAY, 'b')))
  {
    var db4 := Pair(Asking(HOME), NewCustomerRow(AWAY), Heading(HOME, 'a'));
    FirstIsPromised(central);
    OneEvent(db4, central, STOLEN[4]);
    InSequence(TOWN, central, PRESENT + [STOLEN[3]], db4, [STOLEN[4]], Pair(Asking(HOME), Asking(AWAY), Heading(AWAY, 'b')));
  }

  lemma SecondIsFetched(central: Text)
    ensures LeadsTo(Pair(Asking(HOME), Asking(AWAY), Heading(AWAY, 'b')), central, [STOLEN_ARRIVAL],
                    Pair(Asking(HOME), Asking(AWAY).(onboard := true),
                         Heading(AWAY, 'b').(coord := AWAY, customer := Some('b'))))
  {
    OneEvent(Pair(Asking(HOME), Asking(AWAY), Heading(AWAY, 'b')), central, STOLEN_ARRIVAL);
  }

  /** The taxi carried nobody when it was promised to a, and fetches b: a is neither aboard nor queued. */
  lemma PromisedTaxiIsStolen(central: Text)
    ensures var db := After(TOWN, central, STOLEN + [STOLEN_ARRIVAL]);
            && ValidRun(TOWN, central, STOLEN + [STOLEN_ARRIVAL])
            && CarryingClient(After(TOWN, central, PRESENT), 1).None?
            && Carries(db, 1, 'b') && !Carries(db, 1, 'a') && 'a' in db.customers && !Queued(db, 'a')
    ensures ServiceAccepted('a', 1)
         in Handle(After(TOWN, central, PRESENT), central, STOLEN[3].call, STOLEN[3].answers).replies
  {
    var db5 := Pair(Asking(HOME), Asking(AWAY), Heading(AWAY, 'b'));
    var db6 := Pair(Asking(HOME), Asking(AWAY).(onboard := true), Heading(AWAY, 'b').(coord := AWAY, customer := Some('b')));
    BothArePresent(central);
    FirstIsPromised(central);
    SecondTakesItOver(central);
    SecondIsFetched(central);
    InSequence(TOWN, central, STOLEN, db5, [STOLEN_ARRIVAL], db6);
  }
}
