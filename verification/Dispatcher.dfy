/** What the central server answers to each call, reply by reply, each reply holding only the fields it is about. */
module Dispatcher {
  import opened Wrappers
  import opened Bytes
  import opened Protocol
  import opened Database

  datatype Reply =
    | TaxiGoTo(taxiId: int, coord: Coordinate)
    | TaxiStop(taxiId: int)
    | TaxiContinue(taxiId: int)
    | TaxiDisconnect(taxiId: int)
    | CustomerDisconnect(id: Char)
    | CustomerPriority(id: Char)
    | CustomerPickedUp(id: Char)
    | CustomerEnqueued(id: Char)
    | ServiceCompleted(id: Char)
    | ServiceAccepted(id: Char, taxiId: int)
    | ServiceDenied(id: Char)
    | Accept(session: Text, central: Text)
    | Deny(session: Text)

  /** How a call ends: served, by an exception, or by reading a field of an empty row, which C++ leaves undefined. */
  datatype Fate = Served | Thrown | Undefined

  /** The tables and the replies in order, up to where the call ends. */
  datatype Outcome = Outcome(db: Tables, replies: seq<Reply>, fate: Fate) {
    predicate Crashed() { !fate.Served? }
  }

  function Answered(db: Tables, replies: seq<Reply>): Outcome { Outcome(db, replies, Served) }

  /** Reading the taxi's new destination back: there may be no row, or no number in it. */
  function Assign(db: Tables, t: int, c: Char): Outcome {
    var db1 := AssignTaxi(db, t, c);
    if t in db1.taxis && db1.taxis[t].dest.Some?
    then Answered(db1, [TaxiGoTo(t, db1.taxis[t].dest.value), ServiceAccepted(c, t)])
    else Outcome(db1, [], if t in db1.taxis then Thrown else Undefined)
  }

  function AssignQueueHead(db: Tables, t: int, answers: Answers): Outcome {
    if answers.queueHead.Some? then Assign(db, t, answers.queueHead.value) else Answered(db, [])
  }

  function Move(db: Tables, t: int, coord: Coordinate): Tables {
    var db1 := SetTaxiCoord(db, t, coord);
    if CarryingClient(db, t).Some? then SetCustomerCoord(db1, CarryingClient(db, t).value, coord) else db1
  }

  function DropOff(db: Tables, t: int, coord: Coordinate, c: Char, answers: Answers): Outcome {
    var next := AssignQueueHead(SetOnboard(Move(db, t, coord), c, t, false), t, answers);
    next.(replies := [ServiceCompleted(c)] + next.replies)
  }

  function PickUp(db: Tables, t: int, coord: Coordinate, c: Char): Outcome {
    var db1 := Move(db, t, coord);
    var target := GetDestination(db1, c);
    Answered(SetOnboard(db1, c, t, true),
             if target.Some? then [CustomerPickedUp(c), TaxiGoTo(t, target.value)] else [ServiceDenied(c)])
  }

  function Reached(db: Tables, t: int, coord: Coordinate, answers: Answers): Outcome {
    match CarryingClient(db, t)
    case Some(c) => DropOff(db, t, coord, c, answers)
    case None =>
      match GetService(db, t)
      case Some(c) => PickUp(db, t, coord, c)
      case None => Outcome(Move(db, t, coord), [], Thrown)
  }

  function RequestService(db: Tables, c: Char, service: Char, answers: Answers): Outcome {
    match answers.freeTaxi
    case None => Answered(Enqueue(db, c, answers.now), [CustomerEnqueued(c)])
    case Some(t) =>
      match SetDestination(db, c, service)
      case None => Answered(db, [ServiceDenied(c)])
      case Some(db1) =>
        var next := Assign(db1, t, c);
        if next.Crashed() then next
        else next.(replies := next.replies + [ServiceAccepted(c, t)])
  }

  function Admit(db: Tables, central: Text, c: Char, coord: Coordinate, session: Text): Outcome {
    match InsertCustomer(db, c, coord)
    case Some(db1) => Answered(db1, [Accept(session, central)])
    case None => Answered(db, [Deny(session)])
  }

  function Handle(db: Tables, central: Text, call: Call, answers: Answers): Outcome {
    match call
    case NewTaxi(t) => AssignQueueHead(db, t, answers)
    case TaxiReconnected(t) => AssignQueueHead(db, t, answers)
    case OrderCustomerDisconnect(c) => Answered(DeleteCustomer(db, c), [CustomerDisconnect(c)])
    case OrderTaxiDisconnect(t) => Answered(SetConnected(db, t, false), [TaxiDisconnect(t)])
    case NewCustomer(c, coord, session) => Admit(db, central, c, coord, session)
    case TaxiPing(_) => Answered(db, [])
    case TaxiMove(t, coord) => Answered(Move(db, t, coord), [])
    case TaxiDestinationReached(t, coord) => Reached(db, t, coord, answers)
    case TaxiReady(t) => Answered(UpdateTaxi(db, t, (row: TaxiRow) => row.(ready := true)), [])
    case TaxiNotReady(t) => Answered(UpdateTaxi(db, t, (row: TaxiRow) => row.(ready := false)), [])
    case CustomerPing(_) => Answered(db, [])
    case CustomerServiceRequest(c, service) => RequestService(db, c, service, answers)
    case CustomerUpdateNextRequest(c, seconds) =>
      Answered(UpdateCustomer(db, c, (row: CustomerRow) => row.(nextRequest := seconds)), [])
    case TaxiUpdateWaitTime(t, n) =>
      Answered(UpdateTaxi(db, t, (row: TaxiRow) => row.(waitTime := n, ready := n == 0)), [])
    case OrderTaxiReturnToBase(t) => Answered(Redirect(db, t, Coordinate(0, 0)), [TaxiGoTo(t, Coordinate(0, 0))])
    case OrderTaxiGoTo(t, coord) => Answered(Redirect(db, t, coord), [TaxiGoTo(t, coord)])
    case OrderTaxiStop(t) => Answered(UpdateTaxi(db, t, (row: TaxiRow) => row.(stopped := true)), [TaxiStop(t)])
    case OrderTaxiContinue(t) =>
      Answered(UpdateTaxi(db, t, (row: TaxiRow) => row.(stopped := false)), [TaxiContinue(t)])
    case OrderLocationMove(l, coord) =>
      Answered(if l in db.locations then db.(locations := db.locations[l := coord]) else db, [])
    case OrderCustomerPriority(c) =>
      Answered(UpdateCustomer(db, c, (row: CustomerRow) => row.(inQueue := None)), [CustomerPriority(c)])
  }

  // ---------------------------------------------------------------- when the process survives a call

  /** A taxi can be assigned when it has a row, and a destination either already or from the customer's row. */
  predicate Assignable(db: Tables, t: int, c: Char) {
    t in db.taxis && (c in db.customers || db.taxis[t].dest.Some?)
  }

  /** A condition on the tables before the call, one per branch that can fail. */
  predicate Survivable(db: Tables, call: Call, answers: Answers) {
    match call
    case NewTaxi(t) => answers.queueHead.Some? ==> t in db.taxis
    case TaxiReconnected(t) => answers.queueHead.Some? ==> t in db.taxis
    case TaxiDestinationReached(t, _) =>
      t in db.taxis && (db.taxis[t].customer.Some? || db.taxis[t].service.Some?)
    case CustomerServiceRequest(c, _) =>
      answers.freeTaxi.Some? ==> Assignable(db, answers.freeTaxi.value, c)
    case _ => true
  }

  /** A call is not served exactly when the guard of its branch fails; what C++ leaves undefined is reached
      exactly when a customer waits for a taxi that announces itself without having a row. */
  lemma CrashesIff(db: Tables, central: Text, call: Call, answers: Answers)
    requires ValidAnswers(db, answers)
    ensures Handle(db, central, call, answers).Crashed() <==> !Survivable(db, call, answers)
    ensures Handle(db, central, call, answers).fate.Undefined? <==>
            (call.NewTaxi? || call.TaxiReconnected?) && answers.queueHead.Some? && call.taxiId !in db.taxis
  {
  }

  /** Sending a taxi that never had a customer anywhere ends the server when it arrives. */
  lemma OrderedTaxiCrashesServer(coord: Coordinate)
    ensures var db := Tables(map[], map[], map[1 := NEW_TAXI_ROW]);
            var answers := Answers(0, Some(1), None);
            var ordered := Handle(db, "", OrderTaxiGoTo(1, coord), answers);
            && ordered.replies == [TaxiGoTo(1, coord)]
            && Handle(ordered.db, "", TaxiDestinationReached(1, coord), answers).fate.Thrown?
  {
  }
}
