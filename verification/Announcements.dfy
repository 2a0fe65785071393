/** The authentication server and the central server over one table of taxis: what the one announces, the other finds. */
module Announcements {
  import opened Wrappers
  import opened Bytes
  import opened Protocol
  import opened Database
  import opened Dispatcher
  import Auth = Authentication

  /** The tables, and the petitions with what they have announced. */
  datatype Joint = Joint(db: Tables, auth: Auth.State)

  datatype Event = Petition(action: Auth.Action) | Serve(call: Call, answers: Answers)

  function Column(db: Tables): map<int, bool> { map t | t in db.taxis :: db.taxis[t].connected }

  /** The write of a petition that is past its check, on the table itself. */
  function Written(db: Tables, auth: Auth.State, action: Auth.Action): Tables {
    if !action.Store? then db
    else
      match Auth.PlaceOf(auth, action.petition)
      case Checked(id, reconnect) =>
        if reconnect then SetConnected(db, id, true)
        else if id in db.taxis then db
        else db.(taxis := db.taxis[id := NEW_TAXI_ROW])
      case _ => db
  }

  /** What the event is to the petitions: their own steps, and the server marking a taxi as disconnected. */
  function ActionOf(e: Event): Option<Auth.Action> {
    match e
    case Petition(a) => if a.Disconnect? then None else Some(a)
    case Serve(call, _) => if call.OrderTaxiDisconnect? then Some(Auth.Disconnect(call.taxiId)) else None
  }

  function Next(j: Joint, central: Text, e: Event): Joint {
    var db := match e
      case Petition(a) => Written(j.db, j.auth, a)
      case Serve(call, answers) => Handle(j.db, central, call, answers).db;
    Joint(db, if ActionOf(e).Some? then Auth.Next(j.auth, ActionOf(e).value) else j.auth)
  }

  function Run(db: Tables, central: Text, es: seq<Event>): Joint {
    if es == [] then Joint(db, Auth.EMPTY) else Next(Run(db, central, es[..|es| - 1]), central, es[|es| - 1])
  }

  function Actions(es: seq<Event>): seq<Auth.Action> {
    if es == [] then []
    else
      var last := ActionOf(es[|es| - 1]);
      Actions(es[..|es| - 1]) + if last.Some? then [last.value] else []
  }

  // ---------------------------------------------------------------- the two views of the table agree

  predicate SameColumn(a: Tables, b: Tables) {
    a.taxis.Keys == b.taxis.Keys && forall t :: t in a.taxis ==> a.taxis[t].connected == b.taxis[t].connected
  }

  lemma QueueKeepsColumn(db: Tables, t: int, answers: Answers)
    ensures SameColumn(db, AssignQueueHead(db, t, answers).db)
  {
  }

  lemma MoveAloneKeepsColumn(db: Tables, t: int, coord: Coordinate)
    ensures SameColumn(db, Move(db, t, coord))
  {
  }

  lemma OnboardKeepsColumn(db: Tables, t: int, c: Char, val: bool)
    ensures SameColumn(db, SetOnboard(db, c, t, val))
  {
  }

  lemma MoveKeepsColumn(db: Tables, t: int, coord: Coordinate, c: Char, val: bool)
    ensures SameColumn(db, Move(db, t, coord)) && SameColumn(db, SetOnboard(Move(db, t, coord), c, t, val))
  {
    MoveAloneKeepsColumn(db, t, coord);
    OnboardKeepsColumn(Move(db, t, coord), t, c, val);
  }

  lemma RedirectKeepsColumn(db: Tables, t: int, coord: Coordinate)
    ensures SameColumn(db, Redirect(db, t, coord))
  {
  }

  lemma ReachedKeepsColumn(db: Tables, t: int, coord: Coordinate, answers: Answers)
    ensures SameColumn(db, Reached(db, t, coord, answers).db)
  {
    match CarryingClient(db, t)
    case Some(c) =>
      MoveKeepsColumn(db, t, coord, c, false);
      QueueKeepsColumn(SetOnboard(Move(db, t, coord), c, t, false), t, answers);
    case None =>
      MoveKeepsColumn(db, t, coord, if GetService(db, t).Some? then GetService(db, t).value else 'a', true);
  }

  lemma RequestKeepsColumn(db: Tables, c: Char, service: Char, answers: Answers)
    ensures SameColumn(db, RequestService(db, c, service, answers).db)
  {
  }

  lemma RowKeepsColumn(db: Tables, after: Tables, t: int)
    requires after.taxis.Keys == db.taxis.Keys && (t in db.taxis ==> after.taxis[t].connected == db.taxis[t].connected)
    requires forall u :: u in db.taxis && u != t ==> after.taxis[u] == db.taxis[u]
    ensures SameColumn(db, after)
  {
  }

  predicate TaxiReport(call: Call) {
    call.TaxiReady? || call.TaxiNotReady? || call.TaxiUpdateWaitTime? || call.OrderTaxiStop? || call.OrderTaxiContinue?
  }

  lemma TaxiReportKeepsColumn(db: Tables, central: Text, call: Call, answers: Answers)
    requires TaxiReport(call)
    ensures SameColumn(db, Handle(db, central, call, answers).db)
  {
    RowKeepsColumn(db, Handle(db, central, call, answers).db, call.taxiId);
  }

  lemma CallKeepsColumn(db: Tables, central: Text, call: Call, answers: Answers)
    requires !call.OrderTaxiDisconnect?
    ensures SameColumn(db, Handle(db, central, call, answers).db)
  {
    if TaxiReport(call) {
      TaxiReportKeepsColumn(db, central, call, answers);
    } else {
      match call
      case NewTaxi(t) => QueueKeepsColumn(db, t, answers);
      case TaxiReconnected(t) => QueueKeepsColumn(db, t, answers);
      case TaxiMove(t, coord) => MoveAloneKeepsColumn(db, t, coord);
      case TaxiDestinationReached(t, coord) => ReachedKeepsColumn(db, t, coord, answers);
      case CustomerServiceRequest(c, service) => RequestKeepsColumn(db, c, service, answers);
      case OrderTaxiGoTo(t, coord) => RedirectKeepsColumn(db, t, coord);
      case OrderTaxiReturnToBase(t) => RedirectKeepsColumn(db, t, Coordinate(0, 0));
      case _ =>
    }
  }

  lemma SameColumns(a: Tables, b: Tables)
    requires SameColumn(a, b)
    ensures Column(a) == Column(b)
  {
    forall t ensures t in Column(a) <==> t in Column(b) {
      assert t in a.taxis.Keys <==> t in b.taxis.Keys;
    }
    forall t | t in Column(a) ensures Column(a)[t] == Column(b)[t] {
    }
  }

  lemma ColumnAfterUpdate(db: Tables, t: int, val: bool)
    ensures Column(SetConnected(db, t, val)) == if t in db.taxis then Column(db)[t := val] else Column(db)
  {
    var after := SetConnected(db, t, val);
    forall u | u in db.taxis ensures Column(after)[u] == if u == t then val else Column(db)[u] {
    }
  }

  lemma ColumnAfterInsert(db: Tables, t: int)
    requires t !in db.taxis
    ensures Column(db.(taxis := db.taxis[t := NEW_TAXI_ROW])) == Column(db)[t := true]
  {
    var after := db.(taxis := db.taxis[t := NEW_TAXI_ROW]);
    assert after.taxis[t].connected;
    forall u | u in after.taxis ensures Column(after)[u] == Column(db)[t := true][u] {
    }
  }

  lemma PetitionKeepsColumn(j: Joint, central: Text, a: Auth.Action)
    requires Column(j.db) == j.auth.taxis
    ensures Column(Next(j, central, Petition(a)).db) == Next(j, central, Petition(a)).auth.taxis
  {
    if a.Store? && Auth.PlaceOf(j.auth, a.petition).Checked? {
      var id := Auth.PlaceOf(j.auth, a.petition).id;
      assert id in j.db.taxis <==> id in j.auth.taxis;
      ColumnAfterUpdate(j.db, id, true);
      if id !in j.db.taxis {
        ColumnAfterInsert(j.db, id);
      }
    }
  }

  lemma DisconnectKeepsColumn(db: Tables, auth: Auth.State, t: int)
    requires Column(db) == auth.taxis
    ensures Column(SetConnected(db, t, false)) == Auth.Next(auth, Auth.Disconnect(t)).taxis
  {
    ColumnAfterUpdate(db, t, false);
    assert t in db.taxis <==> t in auth.taxis;
  }

  lemma EventKeepsColumn(j: Joint, central: Text, e: Event)
    requires Column(j.db) == j.auth.taxis
    ensures Column(Next(j, central, e).db) == Next(j, central, e).auth.taxis
  {
    match e
    case Petition(a) => PetitionKeepsColumn(j, central, a);
    case Serve(call, answers) =>
      if call.OrderTaxiDisconnect? {
        DisconnectKeepsColumn(j.db, j.auth, call.taxiId);
      } else {
        CallKeepsColumn(j.db, central, call, answers);
        SameColumns(j.db, Handle(j.db, central, call, answers).db);
      }
  }

  /** Over every run from an empty table of taxis, the petitions see what the server's table holds, and behave as they
      do alone. */
  lemma {:induction false} ViewsAgree(db: Tables, central: Text, es: seq<Event>)
    requires db.taxis == map[]
    ensures var j := Run(db, central, es);
            j.auth == Auth.Run(Auth.EMPTY, Actions(es)) && Column(j.db) == j.auth.taxis
  {
    if es != [] {
      var front, last := es[..|es| - 1], es[|es| - 1];
      ViewsAgree(db, central, front);
      EventKeepsColumn(Run(db, central, front), central, last);
      if ActionOf(last).Some? {
        Auth.RunOneMore(Auth.EMPTY, Actions(front), ActionOf(last).value);
      } else {
        assert Actions(front) + [] == Actions(front);
      }
    }
  }

  // ---------------------------------------------------------------- announced taxis are known

  lemma {:induction false} AnnouncedIsNews(topic: seq<Call>, t: int)
    requires NewTaxi(t) in topic
    ensures Auth.News(topic, t) >= 1
  {
    var front, last := topic[..|topic| - 1], topic[|topic| - 1];
    if last != NewTaxi(t) {
      assert topic == front + [last];
      AnnouncedIsNews(front, t);
    }
  }

  /** At any point of any such run, a taxi that was announced has a row. */
  lemma AnnouncedIsKnown(db: Tables, central: Text, es: seq<Event>, t: int)
    requires db.taxis == map[]
    requires NewTaxi(t) in Run(db, central, es).auth.topic || TaxiReconnected(t) in Run(db, central, es).auth.topic
    ensures t in Run(db, central, es).db.taxis
  {
    var j := Run(db, central, es);
    ViewsAgree(db, central, es);
    Auth.AnnouncedOnce(Actions(es), t);
    if NewTaxi(t) in j.auth.topic {
      AnnouncedIsNews(j.auth.topic, t);
    }
    assert t in j.auth.taxis && t in Column(j.db);
  }

  /** So when the authentication server is the one that announces taxis, no call ever reaches what C++ leaves
      undefined. */
  lemma NothingUndefined(db: Tables, central: Text, es: seq<Event>, call: Call, answers: Answers)
    requires db.taxis == map[] && ValidAnswers(Run(db, central, es).db, answers)
    requires call.NewTaxi? || call.TaxiReconnected? ==> call in Run(db, central, es).auth.topic
    ensures !Handle(Run(db, central, es).db, central, call, answers).fate.Undefined?
  {
    var j := Run(db, central, es);
    CrashesIff(j.db, central, call, answers);
    if call.NewTaxi? || call.TaxiReconnected? {
      AnnouncedIsKnown(db, central, es, call.taxiId);
    }
  }
}
