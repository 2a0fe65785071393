/** What the readers of the responses topic see, and why the reused response object does not show. */
module Replies {
  import opened Wrappers
  import opened Bytes
  import opened Protocol
  import opened Database
  import opened Dispatcher
  import opened DispatcherRuns

  /** The message has the reply's subject and the fields the reply is about; the others may be stale. */
  predicate Represents(m: Message, r: Reply) {
    match r
    case TaxiGoTo(t, coord) => m.subject == Response(TAXI_GO_TO) && m.taxiId == t && m.coord == coord
    case TaxiStop(t) => m.subject == Response(TAXI_STOP) && m.taxiId == t
    case TaxiContinue(t) => m.subject == Response(TAXI_CONTINUE) && m.taxiId == t
    case TaxiDisconnect(t) => m.subject == Response(TAXI_DISCONNECT) && m.taxiId == t
    case CustomerDisconnect(c) => m.subject == Response(CUSTOMER_DISCONNECT) && m.id == c
    case CustomerPriority(c) => m.subject == Response(CUSTOMER_PRIORITY) && m.id == c
    case CustomerPickedUp(c) => m.subject == Response(CUSTOMER_PICKED_UP) && m.id == c
    case CustomerEnqueued(c) => m.subject == Response(CUSTOMER_ENQUEUED) && m.id == c
    case ServiceCompleted(c) => m.subject == Response(CUSTOMER_SERVICE_COMPLETED) && m.id == c
    case ServiceAccepted(c, t) => m.subject == Response(CUSTOMER_SERVICE_ACCEPTED) && m.id == c && m.taxiId == t
    case ServiceDenied(c) => m.subject == Response(CUSTOMER_SERVICE_DENIED) && m.id == c
    case Accept(session, central) => m.subject == Response(ACCEPT) && m.session == session && DataText(m) == central
    case Deny(session) => m.subject == Response(DENY) && m.session == session
  }

  predicate RepresentsAll(ms: seq<Message>, rs: seq<Reply>) {
    |ms| == |rs| && forall i :: 0 <= i < |ms| ==> Represents(ms[i], rs[i])
  }

  /** The messages are those of the published replies, each with its session. */
  ghost predicate Transmits(ms: seq<Message>, published: seq<Stamped>) {
    |ms| == |published| &&
    forall i :: 0 <= i < |ms| ==> ms[i].session == published[i].tag && Represents(ms[i], published[i].reply)
  }

  function OrderOf(r: Reply, taxiId: int): Option<Order> {
    match r
    case TaxiGoTo(t, coord) => if t == taxiId then Some(GoTo(coord)) else None
    case TaxiStop(t) => if t == taxiId then Some(Stop) else None
    case TaxiContinue(t) => if t == taxiId then Some(Continue) else None
    case TaxiDisconnect(t) => if t == taxiId then Some(Disconnect) else None
    case _ => None
  }

  function NoticeOf(r: Reply, id: Char): Option<Notice> {
    match r
    case CustomerDisconnect(c) => if c == id then Some(Disconnected) else None
    case CustomerPriority(c) => if c == id then Some(Prioritised) else None
    case CustomerPickedUp(c) => if c == id then Some(PickedUp) else None
    case CustomerEnqueued(c) => if c == id then Some(Enqueued) else None
    case ServiceCompleted(c) => if c == id then Some(Completed) else None
    case ServiceAccepted(c, t) => if c == id then Some(AcceptedBy(t)) else None
    case ServiceDenied(c) => if c == id then Some(Denied) else None
    case _ => None
  }

  /** The message a server would send that started every reply from a new object. */
  function Fresh(r: Reply): Message
    requires r.Accept? ==> |r.central| == SESSION_SIZE
  {
    var m := EmptyMessage();
    match r
    case TaxiGoTo(t, coord) => m.(subject := Response(TAXI_GO_TO), taxiId := t, coord := coord)
    case TaxiStop(t) => m.(subject := Response(TAXI_STOP), taxiId := t)
    case TaxiContinue(t) => m.(subject := Response(TAXI_CONTINUE), taxiId := t)
    case TaxiDisconnect(t) => m.(subject := Response(TAXI_DISCONNECT), taxiId := t)
    case CustomerDisconnect(c) => m.(subject := Response(CUSTOMER_DISCONNECT), id := c)
    case CustomerPriority(c) => m.(subject := Response(CUSTOMER_PRIORITY), id := c)
    case CustomerPickedUp(c) => m.(subject := Response(CUSTOMER_PICKED_UP), id := c)
    case CustomerEnqueued(c) => m.(subject := Response(CUSTOMER_ENQUEUED), id := c)
    case ServiceCompleted(c) => m.(subject := Response(CUSTOMER_SERVICE_COMPLETED), id := c)
    case ServiceAccepted(c, t) => m.(subject := Response(CUSTOMER_SERVICE_ACCEPTED), id := c, taxiId := t)
    case ServiceDenied(c) => m.(subject := Response(CUSTOMER_SERVICE_DENIED), id := c)
    case Accept(session, central) => WithText(m.(subject := Response(ACCEPT), session := session), central)
    case Deny(session) => m.(subject := Response(DENY), session := session)
  }

  lemma FreshRepresents(r: Reply)
    requires r.Accept? ==> |r.central| == SESSION_SIZE
    ensures Represents(Fresh(r), r)
  {
    if r.Accept? {
      WithTextReadBack(EmptyMessage().(subject := Response(ACCEPT), session := r.session), r.central);
    }
  }

  lemma RepresentedViews(m: Message, r: Reply, taxiId: int, id: Char)
    requires Represents(m, r)
    ensures OrderFor(m, taxiId) == OrderOf(r, taxiId)
    ensures NoticeFor(m, id) == NoticeOf(r, id)
  {
  }

  /** All that a taxi obeys, and all that a customer is told, in a stretch of the topic. */
  function Orders(ms: seq<Message>, taxiId: int): seq<Order> {
    Somes(seq(|ms|, i requires 0 <= i < |ms| => OrderFor(ms[i], taxiId)))
  }

  function Notices(ms: seq<Message>, id: Char): seq<Notice> {
    Somes(seq(|ms|, i requires 0 <= i < |ms| => NoticeFor(ms[i], id)))
  }

  function OrdersOf(rs: seq<Reply>, taxiId: int): seq<Order> {
    Somes(seq(|rs|, i requires 0 <= i < |rs| => OrderOf(rs[i], taxiId)))
  }

  function NoticesOf(rs: seq<Reply>, id: Char): seq<Notice> {
    Somes(seq(|rs|, i requires 0 <= i < |rs| => NoticeOf(rs[i], id)))
  }

  /** Two topics that represent the same replies look the same to every taxi and every customer. */
  lemma RepresentationsLookAlike(
    reused: seq<Message>, rebuilt: seq<Message>, rs: seq<Reply>, taxiId: int, id: Char)
    requires RepresentsAll(reused, rs) && RepresentsAll(rebuilt, rs)
    ensures Orders(reused, taxiId) == Orders(rebuilt, taxiId) == OrdersOf(rs, taxiId)
    ensures Notices(reused, id) == Notices(rebuilt, id) == NoticesOf(rs, id)
  {
    RepresentedTopic(reused, rs, taxiId, id);
    RepresentedTopic(rebuilt, rs, taxiId, id);
  }

  lemma RepresentedTopic(ms: seq<Message>, rs: seq<Reply>, taxiId: int, id: Char)
    requires RepresentsAll(ms, rs)
    ensures Orders(ms, taxiId) == OrdersOf(rs, taxiId) && Notices(ms, id) == NoticesOf(rs, id)
  {
    var orders := seq(|ms|, i requires 0 <= i < |ms| => OrderFor(ms[i], taxiId));
    var notices := seq(|ms|, i requires 0 <= i < |ms| => NoticeFor(ms[i], id));
    forall i | 0 <= i < |ms| ensures orders[i] == OrderOf(rs[i], taxiId) && notices[i] == NoticeOf(rs[i], id) {
      RepresentedViews(ms[i], rs[i], taxiId, id);
    }
    assert orders == seq(|rs|, i requires 0 <= i < |rs| => OrderOf(rs[i], taxiId));
    assert notices == seq(|rs|, i requires 0 <= i < |rs| => NoticeOf(rs[i], id));
  }

  /** One reply more. */
  lemma OneMore(rs: seq<Reply>, r: Reply, taxiId: int, id: Char)
    ensures OrdersOf(rs + [r], taxiId)
         == OrdersOf(rs, taxiId) + if OrderOf(r, taxiId).Some? then [OrderOf(r, taxiId).value] else []
    ensures NoticesOf(rs + [r], id)
         == NoticesOf(rs, id) + if NoticeOf(r, id).Some? then [NoticeOf(r, id).value] else []
  {
    var all := rs + [r];
    var orders := seq(|rs|, i requires 0 <= i < |rs| => OrderOf(rs[i], taxiId));
    var notices := seq(|rs|, i requires 0 <= i < |rs| => NoticeOf(rs[i], id));
    assert seq(|all|, i requires 0 <= i < |all| => OrderOf(all[i], taxiId)) == orders + [OrderOf(r, taxiId)];
    assert seq(|all|, i requires 0 <= i < |all| => NoticeOf(all[i], id)) == notices + [NoticeOf(r, id)];
    SomesConcat(orders, [OrderOf(r, taxiId)]);
    SomesConcat(notices, [NoticeOf(r, id)]);
    SomesOfOne(OrderOf(r, taxiId));
    SomesOfOne(NoticeOf(r, id));
  }

  lemma NoticesConcat(a: seq<Reply>, b: seq<Reply>, id: Char)
    ensures NoticesOf(a + b, id) == NoticesOf(a, id) + NoticesOf(b, id)
  {
    var both := a + b;
    var first := seq(|a|, i requires 0 <= i < |a| => NoticeOf(a[i], id));
    var second := seq(|b|, i requires 0 <= i < |b| => NoticeOf(b[i], id));
    assert seq(|both|, i requires 0 <= i < |both| => NoticeOf(both[i], id)) == first + second;
    SomesConcat(first, second);
  }

  lemma OrdersOfConcat(a: seq<Reply>, b: seq<Reply>, taxiId: int)
    ensures OrdersOf(a + b, taxiId) == OrdersOf(a, taxiId) + OrdersOf(b, taxiId)
  {
    var both := a + b;
    var first := seq(|a|, i requires 0 <= i < |a| => OrderOf(a[i], taxiId));
    var second := seq(|b|, i requires 0 <= i < |b| => OrderOf(b[i], taxiId));
    assert seq(|both|, i requires 0 <= i < |both| => OrderOf(both[i], taxiId)) == first + second;
    SomesConcat(first, second);
  }

  /** The acceptances carry a session of the size the messages copy. */
  predicate Buildable(rs: seq<Reply>) {
    forall r :: r in rs && r.Accept? ==> |r.central| == SESSION_SIZE
  }

  function FreshTopic(rs: seq<Reply>): (ms: seq<Message>)
    requires Buildable(rs)
    ensures |ms| == |rs|
  {
    seq(|rs|, i requires 0 <= i < |rs| => Fresh(rs[i]))
  }

  lemma FreshTopicRepresents(rs: seq<Reply>)
    requires Buildable(rs)
    ensures RepresentsAll(FreshTopic(rs), rs)
  {
    forall i | 0 <= i < |rs| ensures Represents(FreshTopic(rs)[i], rs[i]) {
      FreshRepresents(rs[i]);
    }
  }

  lemma RepliesAreBuildable(db: Tables, central: Text, call: Call, answers: Answers)
    requires |central| == SESSION_SIZE
    ensures Buildable(Handle(db, central, call, answers).replies)
  {
  }

  lemma RepresentsExtension(before: seq<Message>, after: seq<Message>, due: seq<Reply>, replies: seq<Reply>)
    requires RepresentsAll(before, due)
    requires |before| <= |after| && after[..|before|] == before && RepresentsAll(after[|before|..], replies)
    ensures RepresentsAll(after, due + replies)
  {
    forall i | 0 <= i < |after| ensures Represents(after[i], (due + replies)[i]) {
      if i < |before| {
        assert after[i] == before[i];
      } else {
        assert after[i] == after[|before|..][i - |before|];
      }
    }
  }

  // ---------------------------------------------------------------- the handshaking customer's view

  /** The first message that carries the session: all that a handshaking customer takes from the topic. */
  function FirstTagged(ms: seq<Message>, uuid: Text): Option<Message> {
    if ms == [] then None else if ms[0].session == uuid then Some(ms[0]) else FirstTagged(ms[1..], uuid)
  }

  predicate IsAccept(m: Message) { m.subject == Response(ACCEPT) }

  lemma {:induction false} FirstTaggedAt(ms: seq<Message>, uuid: Text, n: nat)
    requires n < |ms| && ms[n].session == uuid
    requires forall i :: 0 <= i < n ==> ms[i].session != uuid
    ensures FirstTagged(ms, uuid) == Some(ms[n])
  {
    if n > 0 {
      FirstTaggedAt(ms[1..], uuid, n - 1);
    }
  }

  lemma {:induction false} NeverTagged(ms: seq<Message>, uuid: Text)
    requires forall i :: 0 <= i < |ms| ==> ms[i].session != uuid
    ensures FirstTagged(ms, uuid).None?
  {
    if ms != [] {
      NeverTagged(ms[1..], uuid);
    }
  }

  function RepliesOf(published: seq<Stamped>): (rs: seq<Reply>)
    ensures |rs| == |published|
    ensures forall i :: 0 <= i < |published| ==> rs[i] == published[i].reply
  {
    seq(|published|, i requires 0 <= i < |published| => published[i].reply)
  }

  /** A message represents only one reply. */
  lemma RepresentsOne(m: Message, a: Reply, b: Reply)
    requires Represents(m, a) && Represents(m, b)
    ensures a == b
  {
  }

  lemma TransmittedAreDue(ms: seq<Message>, published: seq<Stamped>, due: seq<Reply>)
    requires Transmits(ms, published) && RepresentsAll(ms, due)
    ensures due == RepliesOf(published)
  {
    forall i | 0 <= i < |ms| ensures due[i] == published[i].reply {
      RepresentsOne(ms[i], due[i], published[i].reply);
    }
  }

  /** A verdict names the session that its message carries. */
  predicate TaggedVerdict(s: Stamped) {
    match s.reply
    case Accept(session, _) => session == s.tag
    case Deny(session) => session == s.tag
    case _ => true
  }

  lemma RepliesTagVerdicts(db: Tables, central: Text, tag: Text, e: Event)
    ensures forall s :: s in EventReplies(db, central, tag, e) ==> TaggedVerdict(s)
  {
    if e.Serve? && e.call.NewCustomer? {
      Verdict(db, central, tag, e, e.call.session);
    } else if e.Serve? {
      OnlyAdmissionsHaveVerdicts(db, central, e.call, e.answers);
      var replies := Handle(db, central, e.call, e.answers).replies;
      forall s | s in EventReplies(db, central, tag, e) ensures s.reply in replies {
      }
    }
  }

  lemma OnlyAdmissionsHaveVerdicts(db: Tables, central: Text, call: Call, answers: Answers)
    requires !call.NewCustomer?
    ensures forall r :: r in Handle(db, central, call, answers).replies ==> !r.Accept? && !r.Deny?
  {
  }

  lemma {:induction false} PublishedTagVerdicts(db: Tables, central: Text, tag: Text, es: seq<Event>)
    ensures forall s :: s in Published(db, central, tag, es) ==> TaggedVerdict(s)
  {
    if es != [] {
      var front, last := es[..|es| - 1], es[|es| - 1];
      PublishedTagVerdicts(db, central, tag, front);
      RepliesTagVerdicts(After(db, central, front), central, TagsAfter(tag, front), last);
    }
  }

  /** The place where a run is first asked with the session, if it is. */
  lemma {:induction false} FirstAsk(es: seq<Event>, uuid: Text) returns (k: nat)
    ensures k <= |es| && forall j :: 0 <= j < k ==> !AsksWith(es[j], uuid)
    ensures k < |es| ==> AsksWith(es[k], uuid)
  {
    if es == [] || AsksWith(es[0], uuid) {
      k := 0;
    } else {
      var rest := FirstAsk(es[1..], uuid);
      k := rest + 1;
      forall j | 0 <= j < k ensures !AsksWith(es[j], uuid) {
        assert j > 0 ==> es[j] == es[1..][j - 1];
      }
    }
  }

  /** What a customer makes of the message: whether it is accepted, and the session it is given. */
  function Admission(m: Option<Message>): Option<(bool, Option<Text>)> {
    if m.None? then None
    else if IsAccept(m.value) then Some((true, Some(DataText(m.value))))
    else Some((false, None))
  }

  /** A new message per reply carries a session only if it is a verdict. */
  lemma FreshIsTagged(s: Stamped, uuid: Text)
    requires uuid != "" && TaggedVerdict(s) && (s.reply.Accept? ==> |s.reply.central| == SESSION_SIZE)
    ensures Fresh(s.reply).session == uuid <==> (s.reply.Accept? || s.reply.Deny?) && s.tag == uuid
  {
  }

  /** With a fresh session, a handshaking customer takes the same verdict from the topic of the reused response as
      from one built with a new message per reply. */
  lemma HandshakeCannotTell(
    db: Tables, central: Text, tag: Text, es: seq<Event>, uuid: Text, ms: seq<Message>)
    requires tag != uuid && uuid != "" && Transmits(ms, Published(db, central, tag, es))
    requires Buildable(RepliesOf(Published(db, central, tag, es)))
    ensures Admission(FirstTagged(ms, uuid))
         == Admission(FirstTagged(FreshTopic(RepliesOf(Published(db, central, tag, es))), uuid))
  {
    var published := Published(db, central, tag, es);
    var rebuilt := FreshTopic(RepliesOf(published));
    PublishedTagVerdicts(db, central, tag, es);
    forall i | 0 <= i < |published|
      ensures rebuilt[i].session == uuid <==> (published[i].reply.Accept? || published[i].reply.Deny?) && published[i].tag == uuid
    {
      assert published[i] in published && RepliesOf(published)[i] in RepliesOf(published);
      FreshIsTagged(published[i], uuid);
    }
    var k := FirstAsk(es, uuid);
    if k == |es| {
      NothingTagged(db, central, tag, es, uuid);
      forall i | 0 <= i < |ms| ensures ms[i].session != uuid && rebuilt[i].session != uuid {
        assert published[i] in published;
      }
      NeverTagged(ms, uuid);
      NeverTagged(rebuilt, uuid);
    } else {
      FirstTaggedIsVerdict(db, central, tag, es, uuid, k);
      var n := |Published(db, central, tag, es[..k])|;
      forall i | 0 <= i < n ensures ms[i].session != uuid && rebuilt[i].session != uuid {
        assert ms[i].session == published[i].tag;
      }
      SameVerdict(ms[n], published[n]);
      FirstTaggedAt(ms, uuid, n);
      FirstTaggedAt(rebuilt, uuid, n);
    }
  }

  lemma SameVerdict(m: Message, s: Stamped)
    requires Represents(m, s.reply) && (s.reply.Accept? || s.reply.Deny?)
    requires s.reply.Accept? ==> |s.reply.central| == SESSION_SIZE
    ensures Admission(Some(m)) == Admission(Some(Fresh(s.reply)))
  {
    FreshRepresents(s.reply);
  }
}
