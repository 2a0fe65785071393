/** The customer process: its admission handshake and the wait for the end of a service. */
module Customer {
  import opened Wrappers
  import opened Bytes
  import opened Protocol
  import opened Database
  import opened DispatcherRuns
  import opened Replies

  /** Polls that time out, out of how many the handshake gives up. */
  const TRIES := 5

  /** One poll of the responses topic; None is a timeout. */
  type Poll = Option<Message>

  /** The messages the polls have delivered before that many time-outs. */
  function Received(polls: seq<Poll>, tries: nat): seq<Message>
    decreases |polls|
  {
    if polls == [] || tries == 0 then []
    else if polls[0].None? then Received(polls[1..], tries - 1)
    else [polls[0].value] + Received(polls[1..], tries)
  }

  function TimeOuts(polls: seq<Poll>): nat {
    if polls == [] then 0 else (if polls[0].None? then 1 else 0) + TimeOuts(polls[1..])
  }

  /** How far the polls bring a handshake. */
  datatype Handshaken = Accepted(session: Text) | GivenUp | StillPolling

  /** The verdict comes at that poll: it is the first with the session, and fewer than five polls timed out before. */
  predicate VerdictAt(polls: seq<Poll>, uuid: Text, p: nat) {
    && p < |polls| && polls[p].Some? && polls[p].value.session == uuid
    && TimeOuts(polls[..p]) < 5
    && forall q :: 0 <= q < p && polls[q].Some? ==> polls[q].value.session != uuid
  }

  lemma TimeOutsFirst(poll: Poll, polls: seq<Poll>)
    ensures TimeOuts([poll] + polls) == (if poll.None? then 1 else 0) + TimeOuts(polls)
  {
    assert ([poll] + polls)[1..] == polls;
  }

  /** What is received before that many time-outs, poll by poll. */
  lemma {:induction false} FirstTaggedReceived(polls: seq<Poll>, uuid: Text, tries: nat) returns (p: nat)
    ensures var verdict := FirstTagged(Received(polls, tries), uuid);
            verdict.Some? ==>
              && p < |polls| && polls[p] == verdict && verdict.value.session == uuid && TimeOuts(polls[..p]) < tries
              && forall q :: 0 <= q < p && polls[q].Some? ==> polls[q].value.session != uuid
    decreases |polls|
  {
    p := 0;
    if polls != [] && tries > 0 && !(polls[0].Some? && polls[0].value.session == uuid) {
      var rest, left := polls[1..], if polls[0].None? then tries - 1 else tries;
      if polls[0].Some? {
        assert ([polls[0].value] + Received(rest, left))[1..] == Received(rest, left);
      }
      var q := FirstTaggedReceived(rest, uuid, left);
      p := q + 1;
      if q < |rest| {
        assert polls[..p] == [polls[0]] + rest[..q];
        TimeOutsFirst(polls[0], rest[..q]);
        forall i | 0 <= i < p && polls[i].Some? && FirstTagged(Received(polls, tries), uuid).Some?
          ensures polls[i].value.session != uuid
        {
          assert i > 0 ==> polls[i] == rest[i - 1];
        }
      }
    }
  }

  lemma {:induction false} ReceivedWhenTagged(polls: seq<Poll>, uuid: Text, tries: nat, p: nat)
    requires p < |polls| && polls[p].Some? && polls[p].value.session == uuid && TimeOuts(polls[..p]) < tries
    requires forall q :: 0 <= q < p && polls[q].Some? ==> polls[q].value.session != uuid
    ensures FirstTagged(Received(polls, tries), uuid) == polls[p]
    decreases |polls|
  {
    if p > 0 {
      var rest, left := polls[1..], if polls[0].None? then tries - 1 else tries;
      assert polls[..p] == [polls[0]] + rest[..p - 1];
      TimeOutsFirst(polls[0], rest[..p - 1]);
      if polls[0].Some? {
        assert ([polls[0].value] + Received(rest, left))[1..] == Received(rest, left);
      }
      forall q | 0 <= q < p - 1 && rest[q].Some? ensures rest[q].value.session != uuid {
        assert rest[q] == polls[q + 1];
      }
      ReceivedWhenTagged(rest, uuid, left, p - 1);
    }
  }

  /** The handshake is accepted exactly when the verdict comes at some poll and is an acceptance; it has given up
      exactly when the verdict is something else, or five polls have timed out without one. */
  lemma HandshakeEndsIff(uuid: Text, polls: seq<Poll>, result: Handshaken)
    requires result == HandshakeResult(uuid, polls)
    ensures result.Accepted? <==> exists p: nat :: VerdictAt(polls, uuid, p) && IsAccept(polls[p].value)
    ensures result.GivenUp? <==>
            || (exists p: nat :: VerdictAt(polls, uuid, p) && !IsAccept(polls[p].value))
            || (TimeOuts(polls) >= 5 && forall p: nat :: !VerdictAt(polls, uuid, p))
    ensures forall p: nat :: VerdictAt(polls, uuid, p) && IsAccept(polls[p].value) ==>
              result == Accepted(DataText(polls[p].value))
  {
    var verdict := FirstTagged(Received(polls, TRIES), uuid);
    forall p: nat | VerdictAt(polls, uuid, p) ensures verdict == polls[p] {
      ReceivedWhenTagged(polls, uuid, TRIES, p);
    }
    if verdict.Some? {
      var p := FirstTaggedReceived(polls, uuid, TRIES);
      assert VerdictAt(polls, uuid, p);
    }
  }

  function HandshakeResult(uuid: Text, polls: seq<Poll>): Handshaken {
    var verdict := FirstTagged(Received(polls, TRIES), uuid);
    if verdict.Some? then (if IsAccept(verdict.value) then Accepted(DataText(verdict.value)) else GivenUp)
    else if TimeOuts(polls) >= TRIES then GivenUp
    else StillPolling
  }

  /** The loop that waits for the verdict, over the polls there have been. */
  method Handshake(uuid: Text, polls: seq<Poll>) returns (result: Handshaken)
    ensures result == HandshakeResult(uuid, polls)
    ensures result.Accepted? <==> exists p: nat :: VerdictAt(polls, uuid, p) && IsAccept(polls[p].value)
    ensures result.GivenUp? <==>
            || (exists p: nat :: VerdictAt(polls, uuid, p) && !IsAccept(polls[p].value))
            || (TimeOuts(polls) >= 5 && forall p: nat :: !VerdictAt(polls, uuid, p))
  {
    HandshakeEndsIff(uuid, polls, HandshakeResult(uuid, polls));
    var i, p := 0, 0;
    while i < TRIES && p < |polls|
      invariant 0 <= i <= TRIES && 0 <= p <= |polls|
      invariant FirstTagged(Received(polls, TRIES), uuid) == FirstTagged(Received(polls[p..], TRIES - i), uuid)
      invariant TimeOuts(polls) == i + TimeOuts(polls[p..])
    {
      var opt := polls[p];
      assert polls[p..][1..] == polls[p + 1..];
      p := p + 1;
      if opt.Some? {
        assert Received(polls[p - 1..], TRIES - i) == [opt.value] + Received(polls[p..], TRIES - i);
        if opt.value.session != uuid {
          continue;
        }
        return if IsAccept(opt.value) then Accepted(DataText(opt.value)) else GivenUp;
      }
      i := i + 1;
    }
    return if i == TRIES then GivenUp else StillPolling;
  }

  /** Reading the topic from its start, the verdict is the message at the first tagged place, if read that far. */
  lemma VerdictIsFirstTagged(ms: seq<Message>, received: seq<Message>, uuid: Text, n: nat)
    requires received <= ms && n < |ms| && ms[n].session == uuid
    requires forall i :: 0 <= i < n ==> ms[i].session != uuid
    ensures FirstTagged(received, uuid) == if n < |received| then Some(ms[n]) else None
  {
    forall i | 0 <= i < |received| ensures received[i] == ms[i] {
    }
    if n < |received| {
      FirstTaggedAt(received, uuid, n);
    } else {
      NeverTagged(received, uuid);
    }
  }

  /** A handshake that reads the topic from its start succeeds only by its own insertion, with the server's
      session; and it does succeed when its request inserted the row and the verdict arrives in time. */
  lemma HandshakeIsOwnAdmission(
    db: Tables, central: Text, tag: Text, es: seq<Event>, uuid: Text, k: nat, ms: seq<Message>, polls: seq<Poll>)
    requires tag != uuid && k < |es| && AsksWith(es[k], uuid)
    requires forall j :: 0 <= j < k ==> !AsksWith(es[j], uuid)
    requires Transmits(ms, Published(db, central, tag, es)) && Received(polls, TRIES) <= ms
    ensures var id := es[k].call.id;
            var before, after := After(db, central, es[..k]), After(db, central, es[..k + 1]);
            var verdict := FirstTagged(Received(polls, TRIES), uuid);
            && (verdict.Some? && IsAccept(verdict.value) ==>
                  && DataText(verdict.value) == central
                  && id !in before.customers
                  && id in after.customers && after.customers[id].coord == es[k].call.coord)
            && (id !in before.customers && |Received(polls, TRIES)| > |Published(db, central, tag, es[..k])| ==>
                  verdict.Some? && IsAccept(verdict.value))
  {
    FirstTaggedIsVerdict(db, central, tag, es, uuid, k);
    var published := Published(db, central, tag, es);
    var n := |Published(db, central, tag, es[..k])|;
    assert ms[n].session == published[n].tag && Represents(ms[n], published[n].reply);
    forall i | 0 <= i < n ensures ms[i].session != uuid {
      assert ms[i].session == published[i].tag;
    }
    VerdictIsFirstTagged(ms, Received(polls, TRIES), uuid, n);
  }

  // ---------------------------------------------------------------- waiting for a service

  /** The notices that end the wait, with what the wait returns. */
  function Ending(notice: Notice): Option<bool> {
    match notice
    case Disconnected => Some(false)
    case Completed => Some(true)
    case Denied => Some(true)
    case _ => None
  }

  function Wait(notices: seq<Notice>): Option<bool> {
    if notices == [] then None
    else if Ending(notices[0]).Some? then Ending(notices[0])
    else Wait(notices[1..])
  }

  lemma NextNotice(ms: seq<Message>, id: Char)
    requires ms != []
    ensures var view := NoticeFor(ms[0], id);
            Wait(Notices(ms, id)) ==
            if view.Some? && Ending(view.value).Some? then Ending(view.value) else Wait(Notices(ms[1..], id))
  {
    var views := seq(|ms|, i requires 0 <= i < |ms| => NoticeFor(ms[i], id));
    var rest := ms[1..];
    assert views[1..] == seq(|rest|, i requires 0 <= i < |rest| => NoticeFor(rest[i], id));
    if views[0].Some? {
      assert ([views[0].value] + Notices(rest, id))[1..] == Notices(rest, id);
    } else {
      assert [] + Notices(rest, id) == Notices(rest, id);
    }
  }

  /** The message ends the wait of the customer. */
  predicate EndsWait(m: Message, id: Char) {
    m.id == id && m.subject in [
      Response(CUSTOMER_DISCONNECT), Response(CUSTOMER_SERVICE_COMPLETED), Response(CUSTOMER_SERVICE_DENIED)
    ]
  }

  predicate FirstEnd(ms: seq<Message>, id: Char, i: nat) {
    i < |ms| && EndsWait(ms[i], id) && forall j :: 0 <= j < i ==> !EndsWait(ms[j], id)
  }

  /** The wait ends with the first disconnection, completion or refusal addressed to the customer: the customer quits
      after a disconnection and goes on after the other two. */
  lemma {:induction false} WaitEndsIff(ms: seq<Message>, id: Char)
    ensures Wait(Notices(ms, id)).None? <==> forall i :: 0 <= i < |ms| ==> !EndsWait(ms[i], id)
    ensures forall i: nat :: FirstEnd(ms, id, i) ==>
              Wait(Notices(ms, id)) == Some(ms[i].subject != Response(CUSTOMER_DISCONNECT))
    decreases |ms|
  {
    if ms != [] {
      var rest := ms[1..];
      NextNotice(ms, id);
      WaitEndsIff(rest, id);
      forall i: nat | FirstEnd(ms, id, i)
        ensures Wait(Notices(ms, id)) == Some(ms[i].subject != Response(CUSTOMER_DISCONNECT))
      {
        if i > 0 {
          assert FirstEnd(rest, id, i - 1);
        }
      }
      forall i | 0 <= i < |rest| ensures rest[i] == ms[i + 1] {
      }
    } else {
      assert Notices(ms, id) == [];
    }
  }

  /** The request of a service, in the customer's one request object. */
  method Ask(request: Message, service: Char) returns (asking: Message)
    ensures CallOf(asking) == Some(CustomerServiceRequest(request.id, service))
    ensures asking.session == request.session
  {
    asking := WithChar(request.(subject := Request(CUSTOMER_SERVICE_REQUEST)), service);
    WithCharReadBack(request.(subject := Request(CUSTOMER_SERVICE_REQUEST)), service);
  }

  /** The request for admission. */
  method AskAdmission(request: Message, coord: Coordinate, uuid: Text) returns (asking: Message)
    ensures CallOf(asking) == Some(NewCustomer(request.id, coord, uuid))
  {
    asking := request.(subject := Request(NEW_CUSTOMER), coord := coord, session := uuid);
  }

  /** The loop that waits for the end of a service; None while it is still waiting. */
  method AskService(id: Char, consumed: seq<Message>) returns (result: Option<bool>)
    ensures result == Wait(Notices(consumed, id))
    ensures result.None? <==> forall i :: 0 <= i < |consumed| ==> !EndsWait(consumed[i], id)
    ensures forall i: nat :: FirstEnd(consumed, id, i) ==>
              result == Some(consumed[i].subject != Response(CUSTOMER_DISCONNECT))
  {
    WaitEndsIff(consumed, id);
    var p := 0;
    assert consumed[0..] == consumed;
    while p < |consumed|
      invariant 0 <= p <= |consumed|
      invariant Wait(Notices(consumed, id)) == Wait(Notices(consumed[p..], id))
    {
      assert consumed[p..][1..] == consumed[p + 1..];
      var m := consumed[p];
      NextNotice(consumed[p..], id);
      p := p + 1;
      if m.id != id || !m.subject.Response? {
        continue;
      }
      match m.subject.response {
        case CUSTOMER_DISCONNECT => return Some(false);
        case CUSTOMER_SERVICE_COMPLETED => return Some(true);
        case CUSTOMER_SERVICE_DENIED => return Some(true);
        case _ =>
      }
    }
    return None;
  }
}
