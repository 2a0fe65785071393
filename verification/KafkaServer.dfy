/** The central server's request loop, with its database, its producer and the one response object it reuses. */
module KafkaServer {
  import opened Wrappers
  import opened Bytes
  import opened Protocol
  import opened Database
  import opened Dispatcher
  import opened DispatcherRuns
  import opened Replies

  /** What the loop meets next: a message or none, or a write of the authentication server in between. */
  datatype Turn =
    | Consumed(request: Message, answers: Answers)
    | NoMessage
    | TaxiInserted(taxiId: int)
    | TaxiConnected(taxiId: int)

  function EventOf(turn: Turn, session: Text): Option<Event> {
    match turn
    case Consumed(request, answers) =>
      var call := Admitted(request, session);
      if call.Some? then Some(Serve(call.value, answers)) else None
    case NoMessage => None
    case TaxiInserted(t) => Some(InsertTaxi(t))
    case TaxiConnected(t) => Some(ConnectTaxi(t))
  }

  function EventsOf(turns: seq<Turn>, session: Text): seq<Event> {
    Somes(seq(|turns|, i requires 0 <= i < |turns| => EventOf(turns[i], session)))
  }

  lemma LastTurn(turns: seq<Turn>, turn: Turn, session: Text)
    ensures var e := EventOf(turn, session);
            EventsOf(turns + [turn], session) == EventsOf(turns, session) + if e.Some? then [e.value] else []
  {
    var all := turns + [turn];
    var events := seq(|turns|, i requires 0 <= i < |turns| => EventOf(turns[i], session));
    assert seq(|all|, i requires 0 <= i < |all| => EventOf(all[i], session)) == events + [EventOf(turn, session)];
    SomesConcat(events, [EventOf(turn, session)]);
    SomesOfOne(EventOf(turn, session));
  }

  /** More of the topic transmits more of what is published. */
  lemma TransmitsMore(before: seq<Message>, published: seq<Stamped>, after: seq<Message>, more: seq<Stamped>)
    requires Transmits(before, published)
    requires |before| <= |after| && after[..|before|] == before && Transmits(after[|before|..], more)
    ensures Transmits(after, published + more)
  {
    forall i | 0 <= i < |after|
      ensures after[i].session == (published + more)[i].tag && Represents(after[i], (published + more)[i].reply)
    {
      if i < |before| {
        assert after[i] == before[i];
      } else {
        assert after[i] == after[|before|..][i - |before|];
      }
    }
  }

  /** What a run depends on and what others see of it: the tables, the response's session, and the topic. */
  datatype View = View(db: Tables, tag: Text, topic: seq<Message>)

  /** One turn leads from a view to another. */
  ghost predicate Leads(before: View, turn: Turn, session: Text, after: View) {
    var e := EventOf(turn, session);
    && after.db == (if e.Some? then Next(before.db, session, e.value) else before.db)
    && after.tag == (if e.Some? then EventTag(before.tag, e.value) else before.tag)
    && |before.topic| <= |after.topic| && after.topic[..|before.topic|] == before.topic
    && Transmits(after.topic[|before.topic|..],
                 if e.Some? then EventReplies(before.db, session, before.tag, e.value) else [])
  }

  /** The view after the turns, from an empty topic: it transmits what the run of their events publishes. */
  ghost predicate Follows(start: View, turns: seq<Turn>, session: Text, now: View) {
    var es := EventsOf(turns, session);
    && now.db == After(start.db, session, es)
    && now.tag == TagsAfter(start.tag, es)
    && Transmits(now.topic, Published(start.db, session, start.tag, es))
  }

  /** How a turn ends for the server. */
  function FateOf(db: Tables, turn: Turn, session: Text): Fate {
    if turn.Consumed? && Admitted(turn.request, session).Some?
    then Handle(db, session, Admitted(turn.request, session).value, turn.answers).fate
    else Served
  }

  /** How the turn at that place ends, after the turns before it. */
  function FateAt(db: Tables, turns: seq<Turn>, i: nat, session: Text): Fate
    requires i < |turns|
  {
    FateOf(After(db, session, EventsOf(turns[..i], session)), turns[i], session)
  }

  ghost predicate AllServed(db: Tables, turns: seq<Turn>, session: Text) {
    forall i: nat :: i < |turns| ==> FateAt(db, turns, i, session).Served?
  }

  lemma OneMoreTurn(start: View, turns: seq<Turn>, session: Text, before: View, turn: Turn, after: View)
    requires Follows(start, turns, session, before) && Leads(before, turn, session, after)
    ensures Follows(start, turns + [turn], session, after)
  {
    var es, e := EventsOf(turns, session), EventOf(turn, session);
    var published := Published(start.db, session, start.tag, es);
    LastTurn(turns, turn, session);
    if e.Some? {
      OneMoreEvent(start.db, session, start.tag, es, e.value);
      TransmitsMore(before.topic, published, after.topic, EventReplies(before.db, session, before.tag, e.value));
    } else {
      assert es + [] == es && published + [] == published;
      TransmitsMore(before.topic, published, after.topic, []);
    }
  }

  lemma OneMoreServed(db: Tables, turns: seq<Turn>, n: nat, session: Text)
    requires n < |turns| && AllServed(db, turns[..n], session)
    ensures FateAt(db, turns, n, session).Served? ==> AllServed(db, turns[..n + 1], session)
  {
    if FateAt(db, turns, n, session).Served? {
      var all := turns[..n + 1];
      forall i: nat | i < |all| ensures FateAt(db, all, i, session).Served? {
        assert all[..i] == turns[..i];
        if i < n {
          assert turns[..n][..i] == turns[..i];
          assert FateAt(db, turns[..n], i, session).Served?;
        }
      }
    }
  }

  /** The turns before that place were served, and its own was not. */
  ghost predicate EndsAt(db: Tables, turns: seq<Turn>, i: nat, fate: Fate, session: Text) {
    i < |turns| && AllServed(db, turns[..i], session) && fate == FateAt(db, turns, i, session)
  }

  /** Where the loop stands after that many turns: either all were served, or all but the last. */
  ghost predicate Stands(start: View, turns: seq<Turn>, taken: nat, fate: Fate, session: Text, now: View) {
    && taken <= |turns|
    && Follows(start, turns[..taken], session, now)
    && if fate.Served? then AllServed(start.db, turns[..taken], session)
       else taken > 0 && EndsAt(start.db, turns, taken - 1, fate, session)
  }

  lemma TurnFollows(start: View, turns: seq<Turn>, n: nat, session: Text, before: View, after: View)
    requires n < |turns| && Follows(start, turns[..n], session, before) && Leads(before, turns[n], session, after)
    ensures Follows(start, turns[..n + 1], session, after)
  {
    OneMoreTurn(start, turns[..n], session, before, turns[n], after);
    assert turns[..n + 1] == turns[..n] + [turns[n]];
  }

  lemma FateIsAt(start: View, turns: seq<Turn>, n: nat, session: Text, before: View)
    requires n < |turns| && Follows(start, turns[..n], session, before)
    ensures FateOf(before.db, turns[n], session) == FateAt(start.db, turns, n, session)
  {
  }

  lemma OneMoreStands(start: View, turns: seq<Turn>, n: nat, session: Text, fate: Fate, now: View)
    requires n < |turns| && AllServed(start.db, turns[..n], session) && fate == FateAt(start.db, turns, n, session)
    requires Follows(start, turns[..n + 1], session, now)
    ensures Stands(start, turns, n + 1, fate, session, now)
  {
    OneMoreServed(start.db, turns, n, session);
    assert EndsAt(start.db, turns, n, fate, session);
  }

  lemma NothingTaken(start: View, turns: seq<Turn>, session: Text)
    requires start.topic == []
    ensures Stands(start, turns, 0, Served, session, start)
  {
    assert turns[..0] == [];
  }

  /** The branches about what a taxi reports, and those that send a taxi somewhere on request. */
  lemma BranchesAre(db: Tables, central: Text, request: Message, answers: Answers)
    requires request.subject.Request?
    ensures var out, s := Handle(db, central, CallOf(request).value, answers), request.subject.request;
            && (s.NEW_TAXI? || s.TAXI_RECONNECTED? ==> out == AssignQueueHead(db, request.taxiId, answers))
            && (s.TAXI_MOVE? ==> out == Answered(Move(db, request.taxiId, request.coord), []))
            && (s.TAXI_DESTINATION_REACHED? ==> out == Reached(db, request.taxiId, request.coord, answers))
            && (s.CUSTOMER_SERVICE_REQUEST? ==> out == RequestService(db, request.id, DataChar(request), answers))
            && (s.ORDER_TAXI_GO_TO? ==>
                  out == Answered(Redirect(db, request.taxiId, request.coord), [TaxiGoTo(request.taxiId, request.coord)]))
            && (s.ORDER_TAXI_RETURN_TO_BASE? ==>
                  out == Answered(Redirect(db, request.taxiId, Coordinate(0, 0)),
                                  [TaxiGoTo(request.taxiId, Coordinate(0, 0))]))
  {
  }

  class Server {
    const session: Text
    var db: Tables
    var response: Message
    /** The responses topic. */
    var responses: seq<Message>
    /** The replies due to all the calls so far. */
    ghost var due: seq<Reply>

    ghost predicate Valid()
      reads this
    {
      |session| == SESSION_SIZE && RepresentsAll(responses, due) && Buildable(due)
    }

    constructor (session: Text, db: Tables)
      requires |session| == SESSION_SIZE
      ensures Valid() && this.session == session && this.db == db
      ensures response == EmptyMessage() && responses == [] && due == []
    {
      this.session, this.db := session, db;
      response, responses, due := EmptyMessage(), [], [];
    }

    /** The messages since then represent the replies and all carry the response's session. */
    ghost predicate Sent(before: seq<Message>, replies: seq<Reply>)
      reads this
    {
      && |responses| == |before| + |replies|
      && responses[..|before|] == before
      && RepresentsAll(responses[|before|..], replies)
      && forall i :: |before| <= i < |responses| ==> responses[i].session == response.session
    }

    /** Publishes the response, which represents the next reply due since then. */
    method Produce(ghost before: seq<Message>, ghost replies: seq<Reply>, ghost reply: Reply)
      requires Sent(before, replies) && Represents(response, reply)
      modifies this`responses
      ensures Sent(before, replies + [reply])
    {
      responses := responses + [response];
      assert responses[|before|..] == old(responses)[|before|..] + [response];
    }

    method SetSubject(subject: ResponseSubject)
      modifies this`response
      ensures response == old(response).(subject := Response(subject))
    {
      response := response.(subject := Response(subject));
    }

    method AssignTo(taxiId: int, customerId: Char) returns (fate: Fate)
      modifies this`db, this`response, this`responses
      ensures var out := Assign(old(db), taxiId, customerId);
              && db == out.db && fate == out.fate && Sent(old(responses), out.replies)
              && (fate.Served? ==> Represents(response, ServiceAccepted(customerId, taxiId)))
      ensures response.session == old(response.session)
    {
      ghost var before := responses;
      db := AssignTaxi(db, taxiId, customerId);
      if taxiId !in db.taxis {
        return Undefined;
      }
      if db.taxis[taxiId].dest.None? {
        return Thrown;
      }
      response := response.(taxiId := taxiId, id := customerId, coord := db.taxis[taxiId].dest.value);
      SetSubject(TAXI_GO_TO);
      ghost var goTo := TaxiGoTo(taxiId, response.coord);
      Produce(before, [], goTo);
      SetSubject(CUSTOMER_SERVICE_ACCEPTED);
      Produce(before, [goTo], ServiceAccepted(customerId, taxiId));
      fate := Served;
    }

    method OnTaxiAvailable(taxiId: int, answers: Answers) returns (fate: Fate)
      modifies this`db, this`response, this`responses
      ensures var out := AssignQueueHead(old(db), taxiId, answers);
              db == out.db && fate == out.fate && Sent(old(responses), out.replies)
      ensures response.session == old(response.session)
    {
      fate := Served;
      if answers.queueHead.Some? {
        fate := AssignTo(taxiId, answers.queueHead.value);
      }
    }

    method OnMoved(taxiId: int, coord: Coordinate) returns (customer: Option<Char>)
      modifies this`db
      ensures db == Move(old(db), taxiId, coord) && customer == CarryingClient(old(db), taxiId)
    {
      customer := CarryingClient(db, taxiId);
      db := SetTaxiCoord(db, taxiId, coord);
      if customer.Some? {
        db := SetCustomerCoord(db, customer.value, coord);
      }
    }

    method OnReached(taxiId: int, coord: Coordinate, answers: Answers) returns (fate: Fate)
      modifies this`db, this`response, this`responses
      ensures var out := Reached(old(db), taxiId, coord, answers);
              db == out.db && fate == out.fate && Sent(old(responses), out.replies)
      ensures response.session == old(response.session)
    {
      ghost var before := responses;
      var customer := OnMoved(taxiId, coord);
      if customer.Some? {
        fate := OnDropOff(taxiId, customer.value, answers);
        return;
      }
      customer := GetService(db, taxiId);
      if customer.None? {
        return Thrown;
      }
      OnPickUp(taxiId, customer.value);
      fate := Served;
    }

    /** The taxi was carrying the customer; its position is already stored. */
    method OnDropOff(taxiId: int, customer: Char, answers: Answers) returns (fate: Fate)
      modifies this`db, this`response, this`responses
      ensures var out := AssignQueueHead(SetOnboard(old(db), customer, taxiId, false), taxiId, answers);
              && db == out.db && fate == out.fate
              && Sent(old(responses), [ServiceCompleted(customer)] + out.replies)
      ensures response.session == old(response.session)
    {
      ghost var before := responses;
      db := SetOnboard(db, customer, taxiId, false);
      response := response.(id := customer);
      SetSubject(CUSTOMER_SERVICE_COMPLETED);
      Produce(before, [], ServiceCompleted(customer));
      ghost var mid := responses;
      fate := OnTaxiAvailable(taxiId, answers);
      assert responses[|before|..] == mid[|before|..] + responses[|mid|..];
    }

    /** The taxi came for the customer; its position is already stored. */
    method OnPickUp(taxiId: int, customer: Char)
      modifies this`db, this`response, this`responses
      ensures var target := GetDestination(old(db), customer);
              && db == SetOnboard(old(db), customer, taxiId, true)
              && Sent(old(responses),
                      if target.Some? then [CustomerPickedUp(customer), TaxiGoTo(taxiId, target.value)]
                      else [ServiceDenied(customer)])
      ensures response.session == old(response.session)
    {
      ghost var before := responses;
      var target := GetDestination(db, customer);
      db := SetOnboard(db, customer, taxiId, true);
      response := response.(id := customer);
      SetSubject(if target.None? then CUSTOMER_SERVICE_DENIED else CUSTOMER_PICKED_UP);
      Produce(before, [], if target.None? then ServiceDenied(customer) else CustomerPickedUp(customer));
      if target.None? {
        return;
      }
      response := response.(taxiId := taxiId);
      SetSubject(TAXI_GO_TO);
      response := response.(coord := target.value);
      Produce(before, [CustomerPickedUp(customer)], TaxiGoTo(taxiId, target.value));
    }

    method OnServiceRequest(id: Char, service: Char, answers: Answers) returns (fate: Fate)
      modifies this`db, this`response, this`responses
      ensures var out := RequestService(old(db), id, service, answers);
              db == out.db && fate == out.fate && Sent(old(responses), out.replies)
      ensures response.session == old(response.session)
    {
      fate := Served;
      ghost var before := responses;
      ghost var replies: seq<Reply>, last := [], CustomerEnqueued(id);
      response := response.(id := id);
      if answers.freeTaxi.None? {
        db := Enqueue(db, id, answers.now);
        SetSubject(CUSTOMER_ENQUEUED);
      } else {
        var updated := SetDestination(db, id, service);
        if updated.None? {
          SetSubject(CUSTOMER_SERVICE_DENIED);
          last := ServiceDenied(id);
        } else {
          db := updated.value;
          replies, last := Assign(db, answers.freeTaxi.value, id).replies, ServiceAccepted(id, answers.freeTaxi.value);
          fate := AssignTo(answers.freeTaxi.value, id);
          if !fate.Served? {
            return;
          }
        }
      }
      Produce(before, replies, last);
    }

    method OnNewCustomer(request: Message)
      requires |session| == SESSION_SIZE
      modifies this`db, this`response, this`responses
      ensures var out := Admit(old(db), session, request.id, request.coord, request.session);
              db == out.db && out.fate.Served? && Sent(old(responses), out.replies)
      ensures response.session == request.session
    {
      ghost var before := responses;
      response := response.(session := request.session);
      var inserted := InsertCustomer(db, request.id, request.coord);
      if inserted.Some? {
        db := inserted.value;
        SetSubject(ACCEPT);
        WithTextReadBack(response, session);
        response := WithText(response, session);
      } else {
        SetSubject(DENY);
      }
      Produce(before, [], if inserted.Some? then Accept(request.session, session) else Deny(request.session));
    }

    method OnRedirect(taxiId: int, coord: Coordinate)
      modifies this`db, this`response, this`responses
      ensures db == Redirect(old(db), taxiId, coord) && Sent(old(responses), [TaxiGoTo(taxiId, coord)])
      ensures response.session == old(response.session)
    {
      ghost var before := responses;
      db := Redirect(db, taxiId, coord);
      response := response.(taxiId := taxiId, coord := coord);
      SetSubject(TAXI_GO_TO);
      Produce(before, [], TaxiGoTo(taxiId, coord));
    }

    method TellTaxi(taxiId: int, subject: ResponseSubject, ghost reply: Reply)
      requires Represents(response.(taxiId := taxiId, subject := Response(subject)), reply)
      modifies this`response, this`responses
      ensures Sent(old(responses), [reply]) && response.session == old(response.session)
    {
      ghost var before := responses;
      response := response.(taxiId := taxiId);
      SetSubject(subject);
      Produce(before, [], reply);
    }

    method TellCustomer(id: Char, subject: ResponseSubject, ghost reply: Reply)
      requires Represents(response.(id := id, subject := Response(subject)), reply)
      modifies this`response, this`responses
      ensures Sent(old(responses), [reply]) && response.session == old(response.session)
    {
      ghost var before := responses;
      response := response.(id := id);
      SetSubject(subject);
      Produce(before, [], reply);
    }

    /** The remaining branches: one statement, and at most one message. */
    method OnPlainRequest(request: Message, answers: Answers)
      requires CallOf(request).Some? && !request.subject.request.NEW_CUSTOMER?
      requires !Traffic(request.subject.request) && !Driving(request.subject.request)
      modifies this`db, this`response, this`responses
      ensures var out := Handle(old(db), session, CallOf(request).value, answers);
              db == out.db && out.fate.Served? && Sent(old(responses), out.replies)
      ensures response.session == old(response.session)
    {
      var taxiId, id, coord := request.taxiId, request.id, request.coord;
      match request.subject.request {
        case ORDER_CUSTOMER_DISCONNECT =>
          db := DeleteCustomer(db, id);
          TellCustomer(id, CUSTOMER_DISCONNECT, CustomerDisconnect(id));
        case ORDER_TAXI_DISCONNECT =>
          db := SetConnected(db, taxiId, false);
          TellTaxi(taxiId, ResponseSubject.TAXI_DISCONNECT, TaxiDisconnect(taxiId));
        case TAXI_PING =>
        case CUSTOMER_PING =>
        case TAXI_READY => db := UpdateTaxi(db, taxiId, (row: TaxiRow) => row.(ready := true));
        case TAXI_NOT_READY => db := UpdateTaxi(db, taxiId, (row: TaxiRow) => row.(ready := false));
        case CUSTOMER_UPDATE_NEXT_REQUEST =>
          var seconds := DataInt(request);
          db := UpdateCustomer(db, id, (row: CustomerRow) => row.(nextRequest := seconds));
        case TAXI_UPDATE_WAIT_TIME =>
          var n := DataInt(request);
          db := UpdateTaxi(db, taxiId, (row: TaxiRow) => row.(waitTime := n, ready := n == 0));
        case ORDER_TAXI_STOP =>
          db := UpdateTaxi(db, taxiId, (row: TaxiRow) => row.(stopped := true));
          TellTaxi(taxiId, TAXI_STOP, TaxiStop(taxiId));
        case ORDER_TAXI_CONTINUE =>
          db := UpdateTaxi(db, taxiId, (row: TaxiRow) => row.(stopped := false));
          TellTaxi(taxiId, TAXI_CONTINUE, TaxiContinue(taxiId));
        case ORDER_LOCATION_MOVE =>
          if id in db.locations {
            db := db.(locations := db.locations[id := coord]);
          }
        case ORDER_CUSTOMER_PRIORITY =>
          db := UpdateCustomer(db, id, (row: CustomerRow) => row.(inQueue := None));
          TellCustomer(id, CUSTOMER_PRIORITY, CustomerPriority(id));
      }
    }

    static predicate Traffic(s: RequestSubject) {
      s.NEW_TAXI? || s.TAXI_RECONNECTED? || s.TAXI_MOVE? || s.TAXI_DESTINATION_REACHED?
    }

    static predicate Driving(s: RequestSubject) {
      s.CUSTOMER_SERVICE_REQUEST? || s.ORDER_TAXI_GO_TO? || s.ORDER_TAXI_RETURN_TO_BASE?
    }

    /** The branches about what a taxi reports. */
    method OnTrafficRequest(request: Message, answers: Answers) returns (fate: Fate)
      requires CallOf(request).Some? && Traffic(request.subject.request)
      modifies this`db, this`response, this`responses
      ensures var out := Handle(old(db), session, CallOf(request).value, answers);
              db == out.db && fate == out.fate && Sent(old(responses), out.replies)
      ensures response.session == old(response.session)
    {
      fate := Served;
      BranchesAre(db, session, request, answers);
      match request.subject.request {
        case NEW_TAXI => fate := OnTaxiAvailable(request.taxiId, answers);
        case TAXI_RECONNECTED => fate := OnTaxiAvailable(request.taxiId, answers);
        case TAXI_MOVE => var _ := OnMoved(request.taxiId, request.coord);
        case TAXI_DESTINATION_REACHED => fate := OnReached(request.taxiId, request.coord, answers);
      }
    }

    /** The branches that send a taxi somewhere on request. */
    method OnDrivingRequest(request: Message, answers: Answers) returns (fate: Fate)
      requires CallOf(request).Some? && Driving(request.subject.request)
      modifies this`db, this`response, this`responses
      ensures var out := Handle(old(db), session, CallOf(request).value, answers);
              db == out.db && fate == out.fate && Sent(old(responses), out.replies)
      ensures response.session == old(response.session)
    {
      fate := Served;
      BranchesAre(db, session, request, answers);
      match request.subject.request {
        case CUSTOMER_SERVICE_REQUEST => fate := OnServiceRequest(request.id, DataChar(request), answers);
        case ORDER_TAXI_RETURN_TO_BASE => OnRedirect(request.taxiId, Coordinate(0, 0));
        case ORDER_TAXI_GO_TO => OnRedirect(request.taxiId, request.coord);
      }
    }

    method Serve(request: Message, answers: Answers) returns (fate: Fate)
      requires |session| == SESSION_SIZE && CallOf(request).Some?
      modifies this`db, this`response, this`responses
      ensures var call := CallOf(request).value;
              var out := Handle(old(db), session, call, answers);
              && db == out.db && fate == out.fate
              && Sent(old(responses), out.replies)
              && response.session == TagAfter(old(response.session), call)
    {
      fate := Served;
      if request.subject.request.NEW_CUSTOMER? {
        OnNewCustomer(request);
      } else if Traffic(request.subject.request) {
        fate := OnTrafficRequest(request, answers);
      } else if Driving(request.subject.request) {
        fate := OnDrivingRequest(request, answers);
      } else {
        OnPlainRequest(request, answers);
      }
    }

    /** One round of the loop, for a consumed message: the new messages represent exactly the replies that
        the call is due, whatever the response object held before. */
    method Process(request: Message, answers: Answers) returns (fate: Fate)
      requires Valid()
      modifies this
      ensures Valid()
      ensures Admitted(request, session).None? ==>
                && db == old(db) && response == old(response) && responses == old(responses)
                && due == old(due) && fate.Served?
      ensures Admitted(request, session).Some? ==>
                var call := Admitted(request, session).value;
                var out := Handle(old(db), session, call, answers);
                && db == out.db && fate == out.fate
                && due == old(due) + out.replies
                && Sent(old(responses), out.replies)
                && response.session == TagAfter(old(response.session), call)
    {
      fate := Served;
      if !request.subject.Request? {
        return;
      }
      if !GreenListed(request.subject.request) && request.session != session {
        return;
      }
      ghost var before := responses;
      ghost var replies := Handle(db, session, CallOf(request).value, answers).replies;
      RepliesAreBuildable(db, session, CallOf(request).value, answers);
      fate := Serve(request, answers);
      RepresentsExtension(before, responses, due, replies);
      due := due + replies;
    }

    function Now(): View
      reads this
    {
      View(db, response.session, responses)
    }

    /** One turn of the loop, as an event of a run. */
    method Take(turn: Turn) returns (fate: Fate)
      requires Valid()
      modifies this
      ensures Valid() && Leads(old(Now()), turn, session, Now())
      ensures fate == FateOf(old(db), turn, session)
    {
      fate := Served;
      match turn {
        case Consumed(request, answers) => fate := Process(request, answers);
        case NoMessage =>
        case TaxiInserted(t) =>
          if t !in db.taxis {
            db := db.(taxis := db.taxis[t := NEW_TAXI_ROW]);
          }
        case TaxiConnected(t) => db := SetConnected(db, t, true);
      }
    }

    /** The loop of a server that starts with an empty topic: it goes on until a call is not served, and takes
        every turn when all are. */
    method Start(turns: seq<Turn>) returns (taken: nat, fate: Fate)
      requires Valid() && responses == []
      modifies this
      ensures Valid() && Stands(old(Now()), turns, taken, fate, session, Now())
      ensures fate.Served? ==> taken == |turns|
    {
      taken, fate := 0, Served;
      ghost var start := Now();
      NothingTaken(start, turns, session);
      while taken < |turns| && fate.Served?
        invariant Valid() && Stands(start, turns, taken, fate, session, Now())
        decreases |turns| - taken
      {
        ghost var before := Now();
        fate := Take(turns[taken]);
        TurnFollows(start, turns, taken, session, before, Now());
        FateIsAt(start, turns, taken, session, before);
        OneMoreStands(start, turns, taken, session, fate, Now());
        taken := taken + 1;
      }
    }

    /** At any time, no taxi and no customer can tell the topic from one built with a new message per reply. */
    lemma ReuseIsInvisible(taxiId: int, id: Char)
      requires Valid()
      ensures Orders(responses, taxiId) == Orders(FreshTopic(due), taxiId) == OrdersOf(due, taxiId)
      ensures Notices(responses, id) == Notices(FreshTopic(due), id) == NoticesOf(due, id)
    {
      FreshTopicRepresents(due);
      RepresentationsLookAlike(responses, FreshTopic(due), due, taxiId, id);
    }

    /** Nor can a customer that shakes hands with a new session, at any point of the loop. */
    lemma ReuseIsInvisibleToHandshakes(start: View, turns: seq<Turn>, uuid: Text)
      requires Valid() && Follows(start, turns, session, Now())
      requires start.tag != uuid && uuid != ""
      ensures Admission(FirstTagged(responses, uuid)) == Admission(FirstTagged(FreshTopic(due), uuid))
    {
      var es := EventsOf(turns, session);
      TransmittedAreDue(responses, Published(start.db, session, start.tag, es), due);
      HandshakeCannotTell(start.db, session, start.tag, es, uuid, responses);
    }
  }
}
