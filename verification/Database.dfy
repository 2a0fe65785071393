/** The tables of the central server and the statements it runs on them. */
module Database {
  import opened Wrappers
  import opened Bytes
  import opened Protocol

  datatype CustomerRow = CustomerRow(
    coord: Coordinate,
    destination: Option<Char>,
    nextRequest: int,
    onboard: bool,
    inQueue: Option<int>)

  /** customer is whom the taxi carries; service is the customer it was last assigned to. */
  datatype TaxiRow = TaxiRow(
    coord: Coordinate,
    dest: Option<Coordinate>,
    customer: Option<Char>,
    service: Option<Char>,
    connected: bool,
    ready: bool,
    stopped: bool,
    waitTime: int)

  datatype Tables = Tables(
    locations: map<Char, Coordinate>,
    customers: map<Char, CustomerRow>,
    taxis: map<int, TaxiRow>)

  const NEW_TAXI_ROW := TaxiRow(Coordinate(0, 0), None, None, None, true, false, false, 0)

  function NewCustomerRow(coord: Coordinate): CustomerRow {
    CustomerRow(coord, None, 0, false, None)
  }

  /** Updates of a row by key; no row, no effect. */
  function UpdateTaxi(db: Tables, t: int, f: TaxiRow -> TaxiRow): Tables {
    if t in db.taxis then db.(taxis := db.taxis[t := f(db.taxis[t])]) else db
  }

  function UpdateCustomer(db: Tables, c: Char, f: CustomerRow -> CustomerRow): Tables {
    if c in db.customers then db.(customers := db.customers[c := f(db.customers[c])]) else db
  }

  predicate Carries(db: Tables, t: int, c: Char) { t in db.taxis && db.taxis[t].customer == Some(c) }

  predicate Carried(db: Tables, c: Char) { exists t | t in db.taxis :: Carries(db, t, c) }

  function CarryingClient(db: Tables, t: int): Option<Char> {
    if t in db.taxis then db.taxis[t].customer else None
  }

  function GetService(db: Tables, t: int): Option<Char> {
    if t in db.taxis then db.taxis[t].service else None
  }

  function GetDestination(db: Tables, c: Char): Option<Coordinate> {
    if c in db.customers && db.customers[c].destination.Some? && db.customers[c].destination.value in db.locations
    then Some(db.locations[db.customers[c].destination.value])
    else None
  }

  /** Deletion fails while a taxi row refers to the customer. */
  function DeleteCustomer(db: Tables, c: Char): Tables {
    if Carried(db, c) then db else db.(customers := db.customers - {c})
  }

  /** The new row, and its key check. */
  function InsertCustomer(db: Tables, c: Char, coord: Coordinate): Option<Tables> {
    if c in db.customers then None else Some(db.(customers := db.customers[c := NewCustomerRow(coord)]))
  }

  function SetTaxiCoord(db: Tables, t: int, coord: Coordinate): Tables {
    UpdateTaxi(db, t, (row: TaxiRow) => row.(coord := coord))
  }

  function SetCustomerCoord(db: Tables, c: Char, coord: Coordinate): Tables {
    UpdateCustomer(db, c, (row: CustomerRow) => row.(coord := coord))
  }

  function SetCustomerOnboard(db: Tables, c: Char, val: bool): Tables {
    UpdateCustomer(db, c, (row: CustomerRow) => row.(onboard := val))
  }

  /** The foreign key of the carried customer: it must exist. */
  function SetTaxiCustomer(db: Tables, t: int, customer: Option<Char>): Tables {
    if customer.Some? && customer.value !in db.customers then db
    else UpdateTaxi(db, t, (row: TaxiRow) => row.(customer := customer))
  }

  function SetOnboard(db: Tables, c: Char, t: int, val: bool): Tables {
    SetTaxiCustomer(SetCustomerOnboard(db, c, val), t, if val then Some(c) else None)
  }

  /** The foreign key of the destination: when there is a row to change, the location must exist. */
  function SetDestination(db: Tables, c: Char, service: Char): Option<Tables> {
    if c in db.customers && service !in db.locations then None
    else Some(UpdateCustomer(db, c, (row: CustomerRow) => row.(destination := Some(service))))
  }

  function Enqueue(db: Tables, c: Char, now: int): Tables {
    UpdateCustomer(db, c, (row: CustomerRow) => row.(inQueue := Some(now)))
  }

  /** The joined update of an assignment: nothing happens unless both rows exist. */
  function AssignTaxi(db: Tables, t: int, c: Char): Tables {
    if c in db.customers
    then UpdateTaxi(db, t, (row: TaxiRow) => row.(dest := Some(db.customers[c].coord), service := Some(c)))
    else db
  }

  function SetConnected(db: Tables, t: int, val: bool): Tables {
    UpdateTaxi(db, t, (row: TaxiRow) => row.(connected := val))
  }

  /** The customer id that an SQL comparison with the decimal text of a taxi id can match. */
  function DigitOf(taxiId: int): Option<Char> {
    if 0 <= taxiId < 10 then Some(('0' as int + taxiId) as char) else None
  }

  /** The statements of an operator's order to drive: the onboard flag is cleared by the taxi's id. */
  function Redirect(db: Tables, t: int, coord: Coordinate): Tables {
    var db1 := UpdateTaxi(db, t, (row: TaxiRow) => row.(dest := Some(coord), customer := None));
    if DigitOf(t).Some? then SetCustomerOnboard(db1, DigitOf(t).value, false) else db1
  }

  /** What the queries without a total order answered, and the clock. */
  datatype Answers = Answers(now: int, freeTaxi: Option<int>, queueHead: Option<Char>)

  predicate Queued(db: Tables, c: Char) { c in db.customers && db.customers[c].inQueue.Some? }

  ghost predicate ValidAnswers(db: Tables, a: Answers) {
    && (a.freeTaxi.Some? ==> a.freeTaxi.value in db.taxis && db.taxis[a.freeTaxi.value].connected)
    && (a.freeTaxi.None? ==> forall t :: t in db.taxis ==> !db.taxis[t].connected)
    && (a.queueHead.Some? ==>
          && Queued(db, a.queueHead.value)
          && forall c :: Queued(db, c) ==>
               db.customers[a.queueHead.value].inQueue.value <= db.customers[c].inQueue.value)
    && (a.queueHead.None? ==> forall c :: !Queued(db, c))
  }
}
