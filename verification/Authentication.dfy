/** The authentication server: petition threads that check and add taxis over one table. */
module Authentication {
  import Protocol

  /** Where a petition thread stands: idle, past its check, or past its write and about to announce it. */
  datatype Place = Idle | Checked(id: int, reconnect: bool) | Stored(id: int, reconnect: bool)

  /** taxis holds the connected column; topic is what was published; acks are the taxis acknowledged so far. */
  datatype State = State(
    taxis: map<int, bool>,
    petitions: map<int, Place>,
    topic: seq<Protocol.Call>,
    acks: seq<int>)

  const EMPTY := State(map[], map[], [], [])

  /** The locked steps of the petition threads, and the dispatcher marking a taxi as disconnected. */
  datatype Action = Check(petition: int, id: int) | Store(petition: int) | Announce(petition: int) | Disconnect(id: int)

  function PlaceOf(s: State, p: int): Place {
    if p in s.petitions then s.petitions[p] else Idle
  }

  function At(s: State, p: int, place: Place): State {
    s.(petitions := s.petitions[p := place])
  }

  /** The check passes for an unknown taxi and for a disconnected one. */
  predicate Admissible(taxis: map<int, bool>, id: int) { id !in taxis || !taxis[id] }

  predicate Connected(s: State, id: int) { id in s.taxis && s.taxis[id] }

  function Announcement(id: int, reconnect: bool): Protocol.Call {
    if reconnect then Protocol.TaxiReconnected(id) else Protocol.NewTaxi(id)
  }

  function Next(s: State, a: Action): State {
    match a
    case Check(p, id) =>
      if PlaceOf(s, p).Idle? && Admissible(s.taxis, id) then At(s, p, Checked(id, id in s.taxis)) else s
    case Store(p) =>
      (match PlaceOf(s, p)
       case Checked(id, true) =>
         var written := if id in s.taxis then s.(taxis := s.taxis[id := true]) else s;
         At(written, p, Stored(id, true))
       case Checked(id, false) =>
         if id in s.taxis then At(s, p, Idle) else At(s.(taxis := s.taxis[id := true]), p, Stored(id, false))
       case _ => s)
    case Announce(p) =>
      (match PlaceOf(s, p)
       case Stored(id, reconnect) =>
         At(s.(topic := s.topic + [Announcement(id, reconnect)], acks := s.acks + [id]), p, Idle)
       case _ => s)
    case Disconnect(id) => if id in s.taxis then s.(taxis := s.taxis[id := false]) else s
  }

  function Run(s: State, actions: seq<Action>): State {
    if actions == [] then s else Next(Run(s, actions[..|actions| - 1]), actions[|actions| - 1])
  }

  lemma RunOneMore(s: State, actions: seq<Action>, a: Action)
    ensures Run(s, actions + [a]) == Next(Run(s, actions), a)
  {
    assert (actions + [a])[..|actions|] == actions;
  }

  function News(topic: seq<Protocol.Call>, id: int): nat {
    if topic == [] then 0
    else News(topic[..|topic| - 1], id) + if topic[|topic| - 1] == Protocol.NewTaxi(id) then 1 else 0
  }

  lemma NewsAfter(topic: seq<Protocol.Call>, a: Protocol.Call, id: int)
    ensures News(topic + [a], id) == News(topic, id) + if a == Protocol.NewTaxi(id) then 1 else 0
  {
    assert (topic + [a])[..|topic|] == topic;
  }

  // ---------------------------------------------------------------- one announcement per row

  predicate Inserting(s: State, p: int, id: int) { PlaceOf(s, p) == Stored(id, false) }

  /** At most one petition has inserted the row and not announced it yet. */
  ghost predicate OneInserts(s: State, id: int) {
    forall p, q :: Inserting(s, p, id) && Inserting(s, q, id) ==> p == q
  }

  ghost predicate SomeInserts(s: State, id: int) { exists p :: Inserting(s, p, id) }

  /** Each row of the table was announced as new once, or is about to be by one petition. */
  ghost predicate RowAnnounced(s: State, id: int) {
    && OneInserts(s, id)
    && News(s.topic, id) == (if id in s.taxis && !SomeInserts(s, id) then 1 else 0)
    && (SomeInserts(s, id) ==> id in s.taxis)
  }

  /** A step that neither inserts the row nor announces its insertion. */
  lemma SameInsertersKeep(s: State, after: State, id: int)
    requires RowAnnounced(s, id)
    requires forall p :: Inserting(after, p, id) <==> Inserting(s, p, id)
    requires (id in after.taxis <==> id in s.taxis) && News(after.topic, id) == News(s.topic, id)
    ensures RowAnnounced(after, id)
  {
    if SomeInserts(s, id) {
      var p :| Inserting(s, p, id);
      assert Inserting(after, p, id);
    }
    if SomeInserts(after, id) {
      var p :| Inserting(after, p, id);
      assert Inserting(s, p, id);
    }
  }

  lemma InsertKeeps(s: State, p: int, id: int)
    requires RowAnnounced(s, id) && PlaceOf(s, p) == Checked(id, false) && id !in s.taxis
    ensures RowAnnounced(Next(s, Store(p)), id)
  {
    var after := Next(s, Store(p));
    assert Inserting(after, p, id);
    forall q ensures Inserting(after, q, id) <==> q == p {
      assert !Inserting(s, q, id);
      assert q != p ==> PlaceOf(after, q) == PlaceOf(s, q);
    }
  }

  lemma StoreKeeps(s: State, p: int, id: int)
    requires RowAnnounced(s, id)
    ensures RowAnnounced(Next(s, Store(p)), id)
  {
    var after := Next(s, Store(p));
    if PlaceOf(s, p) == Checked(id, false) && id !in s.taxis {
      InsertKeeps(s, p, id);
    } else {
      forall q ensures Inserting(after, q, id) <==> Inserting(s, q, id) {
        assert q != p ==> PlaceOf(after, q) == PlaceOf(s, q);
      }
      SameInsertersKeep(s, after, id);
    }
  }

  lemma AnnounceInsertionKeeps(s: State, p: int, id: int)
    requires RowAnnounced(s, id) && Inserting(s, p, id)
    ensures RowAnnounced(Next(s, Announce(p)), id)
  {
    var after := Next(s, Announce(p));
    NewsAfter(s.topic, Protocol.NewTaxi(id), id);
    forall q ensures !Inserting(after, q, id) {
      assert Inserting(s, q, id) ==> q == p;
      assert q != p ==> PlaceOf(after, q) == PlaceOf(s, q);
    }
  }

  lemma AnnounceKeeps(s: State, p: int, id: int)
    requires RowAnnounced(s, id)
    ensures RowAnnounced(Next(s, Announce(p)), id)
  {
    var after := Next(s, Announce(p));
    if Inserting(s, p, id) {
      AnnounceInsertionKeeps(s, p, id);
    } else {
      if PlaceOf(s, p).Stored? {
        NewsAfter(s.topic, Announcement(PlaceOf(s, p).id, PlaceOf(s, p).reconnect), id);
      }
      forall q ensures Inserting(after, q, id) <==> Inserting(s, q, id) {
        assert q != p ==> PlaceOf(after, q) == PlaceOf(s, q);
      }
      SameInsertersKeep(s, after, id);
    }
  }

  lemma OtherStepsKeep(s: State, a: Action, id: int)
    requires RowAnnounced(s, id) && (a.Check? || a.Disconnect?)
    ensures RowAnnounced(Next(s, a), id)
  {
    var after := Next(s, a);
    forall q ensures Inserting(after, q, id) <==> Inserting(s, q, id) {
      assert a.Disconnect? || q != a.petition ==> PlaceOf(after, q) == PlaceOf(s, q);
    }
    SameInsertersKeep(s, after, id);
  }

  /** Who reconnects a taxi, or did so, reconnects one that has a row. */
  ghost predicate ReconnectsKnown(s: State) {
    && (forall p :: !PlaceOf(s, p).Idle? && PlaceOf(s, p).reconnect ==> PlaceOf(s, p).id in s.taxis)
    && (forall id :: Protocol.TaxiReconnected(id) in s.topic ==> id in s.taxis)
  }

  lemma ActionKeepsReconnects(s: State, a: Action)
    requires ReconnectsKnown(s)
    ensures ReconnectsKnown(Next(s, a)) && s.taxis.Keys <= Next(s, a).taxis.Keys
  {
    var after := Next(s, a);
    forall p | !PlaceOf(after, p).Idle? && PlaceOf(after, p).reconnect ensures PlaceOf(after, p).id in after.taxis {
      assert a.Disconnect? || p != a.petition ==> PlaceOf(after, p) == PlaceOf(s, p);
      assert !PlaceOf(s, p).Idle? && PlaceOf(s, p).reconnect ==> PlaceOf(s, p).id in s.taxis;
    }
  }

  lemma {:induction false} RunKeeps(actions: seq<Action>, id: int)
    ensures RowAnnounced(Run(EMPTY, actions), id) && ReconnectsKnown(Run(EMPTY, actions))
  {
    if actions != [] {
      var front, last := actions[..|actions| - 1], actions[|actions| - 1];
      var s := Run(EMPTY, front);
      RunKeeps(front, id);
      match last {
        case Store(p) => StoreKeeps(s, p, id);
        case Announce(p) => AnnounceKeeps(s, p, id);
        case _ => OtherStepsKeep(s, last, id);
      }
      ActionKeepsReconnects(s, last);
    } else {
      assert forall p :: !Inserting(EMPTY, p, id);
    }
  }

  /** From an empty table, under every interleaving: a taxi is announced as new at most once, and exactly once
      when it has a row and no petition is still about to announce it; a reconnection is of a known row. */
  lemma AnnouncedOnce(actions: seq<Action>, id: int)
    ensures var s := Run(EMPTY, actions);
            && News(s.topic, id) == (if id in s.taxis && !SomeInserts(s, id) then 1 else 0)
            && (SomeInserts(s, id) ==> id in s.taxis)
            && (Protocol.TaxiReconnected(id) in s.topic ==> id in s.taxis)
  {
    RunKeeps(actions, id);
  }

  // ---------------------------------------------------------------- who is let in although it is connected

  /** The action is the write of a petition for the taxi, and succeeds. */
  predicate LetsIn(s: State, a: Action, id: int) {
    && a.Store?
    && PlaceOf(s, a.petition).Checked? && PlaceOf(s, a.petition).id == id
    && (PlaceOf(s, a.petition).reconnect || id !in s.taxis)
  }

  /** The action is a petition's check of the taxi, and passes. */
  predicate PassesCheck(s: State, a: Action, p: int, id: int) {
    a == Check(p, id) && PlaceOf(s, p).Idle? && Admissible(s.taxis, id)
  }

  /** Since the action at k, a write let the taxi in and the dispatcher did not disconnect it afterwards. */
  ghost predicate LetInSince(actions: seq<Action>, k: nat, id: int) {
    exists j: nat :: k < j < |actions| && LetsInAt(actions, j, id) && Disconnect(id) !in actions[j..]
  }

  predicate LetsInAt(actions: seq<Action>, j: nat, id: int)
    requires j < |actions|
  {
    LetsIn(Run(EMPTY, actions[..j]), actions[j], id)
  }

  /** The positions of the run so far look the same from its continuation. */
  lemma EarlierPosition(front: seq<Action>, a: Action, j: nat, id: int)
    requires j < |front|
    ensures LetsInAt(front + [a], j, id) <==> LetsInAt(front, j, id)
    ensures Disconnect(id) in (front + [a])[j..] <==> Disconnect(id) in front[j..] || a == Disconnect(id)
  {
    assert (front + [a])[..j] == front[..j] && (front + [a])[j..] == front[j..] + [a];
  }

  lemma LastPosition(front: seq<Action>, a: Action, id: int)
    ensures LetsInAt(front + [a], |front|, id) <==> LetsIn(Run(EMPTY, front), a, id)
    ensures LetsIn(Run(EMPTY, front), a, id) ==> Disconnect(id) !in (front + [a])[|front|..]
  {
    assert (front + [a])[..|front|] == front && (front + [a])[|front|..] == [a];
  }

  lemma LetInSinceStays(front: seq<Action>, a: Action, k: nat, id: int)
    requires k < |front|
    requires LetsIn(Run(EMPTY, front), a, id) || (LetInSince(front, k, id) && a != Disconnect(id))
    ensures LetInSince(front + [a], k, id)
  {
    var j: nat;
    if LetsIn(Run(EMPTY, front), a, id) {
      j := |front|;
      LastPosition(front, a, id);
    } else {
      j :| k < j < |front| && LetsInAt(front, j, id) && Disconnect(id) !in front[j..];
      EarlierPosition(front, a, j, id);
    }
    assert LetsInAt(front + [a], j, id) && Disconnect(id) !in (front + [a])[j..];
  }

  lemma LetInSinceWas(front: seq<Action>, a: Action, k: nat, id: int)
    requires k < |front| && LetInSince(front + [a], k, id)
    ensures LetsIn(Run(EMPTY, front), a, id) || (LetInSince(front, k, id) && a != Disconnect(id))
  {
    var all := front + [a];
    var j: nat :| k < j < |all| && LetsInAt(all, j, id) && Disconnect(id) !in all[j..];
    if j == |front| {
      LastPosition(front, a, id);
    } else {
      EarlierPosition(front, a, j, id);
    }
  }

  /** A petition's check at k is the one its next write goes by. */
  ghost predicate CheckedAt(actions: seq<Action>, k: nat, p: int, id: int) {
    && k < |actions|
    && PassesCheck(Run(EMPTY, actions[..k]), actions[k], p, id)
    && Store(p) !in actions[k + 1..]
    && (PlaceOf(Run(EMPTY, actions), p).Checked? && PlaceOf(Run(EMPTY, actions), p).reconnect ==>
          (Connected(Run(EMPTY, actions), id) <==> LetInSince(actions, k, id)))
  }

  lemma StaysChecked(front: seq<Action>, a: Action, k: nat, p: int, id: int)
    requires CheckedAt(front, k, p, id) && PlaceOf(Run(EMPTY, front), p).Checked? && PlaceOf(Run(EMPTY, front), p).id == id
    requires a != Store(p)
    ensures PlaceOf(Run(EMPTY, front + [a]), p) == PlaceOf(Run(EMPTY, front), p)
    ensures CheckedAt(front + [a], k, p, id)
  {
    var s, all := Run(EMPTY, front), front + [a];
    RunOneMore(EMPTY, front, a);
    assert all[..k] == front[..k] && all[k + 1..] == front[k + 1..] + [a];
    if PlaceOf(s, p).reconnect {
      RunKeeps(front, id);
      ConnectedOneMore(s, a, id);
      if LetInSince(all, k, id) {
        LetInSinceWas(front, a, k, id);
      }
      if Connected(Next(s, a), id) {
        LetInSinceStays(front, a, k, id);
      }
    }
  }

  lemma ConnectedOneMore(s: State, a: Action, id: int)
    requires id in s.taxis
    ensures Connected(Next(s, a), id) <==> LetsIn(s, a, id) || (Connected(s, id) && a != Disconnect(id))
  {
  }

  /** Every petition that is past its check has made it at some point of the run. */
  lemma {:induction false} CheckIsFound(actions: seq<Action>, p: int, id: int) returns (k: nat)
    requires PlaceOf(Run(EMPTY, actions), p).Checked? && PlaceOf(Run(EMPTY, actions), p).id == id
    ensures CheckedAt(actions, k, p, id)
  {
    var n := |actions| - 1;
    var front, last := actions[..n], actions[n];
    assert actions == front + [last];
    var s := Run(EMPTY, front);
    if PassesCheck(s, last, p, id) {
      k := n;
      assert actions[k + 1..] == [];
    } else {
      assert PlaceOf(s, p) == PlaceOf(Run(EMPTY, actions), p) && last != Store(p);
      k := CheckIsFound(front, p, id);
      StaysChecked(front, last, k, p, id);
    }
  }

  /** From an empty table, under every interleaving: a write that is let in finds its taxi connected already exactly
      when it is a reconnection and, since its petition's check, another write let the taxi in and the dispatcher
      did not disconnect it again. */
  lemma AdmitsConnectedIff(actions: seq<Action>, p: int, id: int) returns (k: nat)
    requires LetsIn(Run(EMPTY, actions), Store(p), id)
    ensures k < |actions| && PassesCheck(Run(EMPTY, actions[..k]), actions[k], p, id) && Store(p) !in actions[k + 1..]
    ensures Connected(Run(EMPTY, actions), id) <==>
            PlaceOf(Run(EMPTY, actions), p).reconnect && LetInSince(actions, k, id)
  {
    k := CheckIsFound(actions, p, id);
  }

  function Count(acks: seq<int>, id: int): nat {
    if acks == [] then 0 else Count(acks[..|acks| - 1], id) + if acks[|acks| - 1] == id then 1 else 0
  }

  /** As long as nobody disconnects the taxi, nobody reconnects it. */
  ghost predicate NeverDropped(s: State, id: int) {
    && (id in s.taxis ==> s.taxis[id])
    && (forall p :: !PlaceOf(s, p).Idle? && PlaceOf(s, p).id == id ==> !PlaceOf(s, p).reconnect)
  }

  lemma ActionKeepsNeverDropped(s: State, a: Action, id: int)
    requires NeverDropped(s, id) && a != Disconnect(id)
    ensures NeverDropped(Next(s, a), id)
  {
    var after := Next(s, a);
    forall p | !PlaceOf(after, p).Idle? && PlaceOf(after, p).id == id ensures !PlaceOf(after, p).reconnect {
      assert a.Disconnect? || p != a.petition ==> PlaceOf(after, p) == PlaceOf(s, p);
    }
  }

  lemma CountAfter(acks: seq<int>, ack: int, id: int)
    ensures Count(acks + [ack], id) == Count(acks, id) + if ack == id then 1 else 0
  {
    assert (acks + [ack])[..|acks|] == acks;
  }

  /** What a step adds to the topic and to the acknowledgements. */
  lemma OnlyAnnouncementsShow(s: State, a: Action)
    ensures var after := Next(s, a);
            if a.Announce? && PlaceOf(s, a.petition).Stored? then
              var place := PlaceOf(s, a.petition);
              && after.acks == s.acks + [place.id]
              && after.topic == s.topic + [Announcement(place.id, place.reconnect)]
            else after.acks == s.acks && after.topic == s.topic
  {
  }

  /** Then each acknowledgement is of its insertion. */
  lemma ActionAcknowledgesNews(s: State, a: Action, id: int)
    requires NeverDropped(s, id) && Count(s.acks, id) == News(s.topic, id)
    ensures Count(Next(s, a).acks, id) == News(Next(s, a).topic, id)
  {
    OnlyAnnouncementsShow(s, a);
    if a.Announce? && PlaceOf(s, a.petition).Stored? {
      var place := PlaceOf(s, a.petition);
      NewsAfter(s.topic, Announcement(place.id, place.reconnect), id);
      CountAfter(s.acks, place.id, id);
      assert place.id == id ==> !place.reconnect;
    }
  }

  lemma {:induction false} RunKeepsNeverDropped(actions: seq<Action>, id: int)
    requires Disconnect(id) !in actions
    ensures NeverDropped(Run(EMPTY, actions), id)
    ensures Count(Run(EMPTY, actions).acks, id) == News(Run(EMPTY, actions).topic, id)
  {
    if actions != [] {
      var front, last := actions[..|actions| - 1], actions[|actions| - 1];
      RunKeepsNeverDropped(front, id);
      ActionKeepsNeverDropped(Run(EMPTY, front), last, id);
      ActionAcknowledgesNews(Run(EMPTY, front), last, id);
    }
  }

  /** A taxi that is never disconnected is acknowledged at most once. */
  lemma AcknowledgedOnce(actions: seq<Action>, id: int)
    requires Disconnect(id) !in actions
    ensures Count(Run(EMPTY, actions).acks, id) <= 1
  {
    RunKeeps(actions, id);
    RunKeepsNeverDropped(actions, id);
  }

  /** How often the taxi was announced as known before. */
  function Reconnections(topic: seq<Protocol.Call>, id: int): nat {
    if topic == [] then 0
    else
      Reconnections(topic[..|topic| - 1], id) + if topic[|topic| - 1] == Protocol.TaxiReconnected(id) then 1 else 0
  }

  lemma ReconnectionsAfter(topic: seq<Protocol.Call>, a: Protocol.Call, id: int)
    ensures Reconnections(topic + [a], id) == Reconnections(topic, id) + if a == Protocol.TaxiReconnected(id) then 1 else 0
  {
    assert (topic + [a])[..|topic|] == topic;
  }

  /** Under every interleaving, each acknowledgement of a taxi goes with one announcement, as new or as reconnected. */
  lemma {:induction false} AcknowledgedIsAnnounced(actions: seq<Action>, id: int)
    ensures var s := Run(EMPTY, actions);
            Count(s.acks, id) == News(s.topic, id) + Reconnections(s.topic, id)
  {
    if actions != [] {
      var front, last := actions[..|actions| - 1], actions[|actions| - 1];
      var s := Run(EMPTY, front);
      AcknowledgedIsAnnounced(front, id);
      OnlyAnnouncementsShow(s, last);
      if last.Announce? && PlaceOf(s, last.petition).Stored? {
        var place := PlaceOf(s, last.petition);
        var a := Announcement(place.id, place.reconnect);
        NewsAfter(s.topic, a, id);
        ReconnectionsAfter(s.topic, a, id);
        CountAfter(s.acks, place.id, id);
      }
    }
  }

  // ---------------------------------------------------------------- a run with two acknowledgements

  /** Taxi 7 is admitted and disconnected. */
  const DISCONNECTED := [Check(1, 7)] + [Store(1)] + [Announce(1)] + [Disconnect(7)]

  /** Two petitions for it pass their checks before either writes. */
  const BOTH_CHECKED := DISCONNECTED + [Check(1, 7)] + [Check(2, 7)]

  const BOTH_LET_IN := BOTH_CHECKED + [Store(1)] + [Store(2)] + [Announce(1)] + [Announce(2)]

  lemma SevenIsDisconnected()
    ensures Run(EMPTY, DISCONNECTED).taxis == map[7 := false] && Run(EMPTY, DISCONNECTED).acks == [7]
    ensures forall p :: PlaceOf(Run(EMPTY, DISCONNECTED), p).Idle?
  {
    RunOneMore(EMPTY, [], Check(1, 7));
    RunOneMore(EMPTY, [Check(1, 7)], Store(1));
    RunOneMore(EMPTY, [Check(1, 7)] + [Store(1)], Announce(1));
    RunOneMore(EMPTY, [Check(1, 7)] + [Store(1)] + [Announce(1)], Disconnect(7));
    assert [] + [Check(1, 7)] == [Check(1, 7)];
  }

  lemma BothPassTheirChecks()
    ensures var s := Run(EMPTY, BOTH_CHECKED);
            && s.taxis == map[7 := false] && s.acks == [7]
            && PlaceOf(s, 1) == Checked(7, true) && PlaceOf(s, 2) == Checked(7, true)
  {
    SevenIsDisconnected();
    var s0 := Run(EMPTY, DISCONNECTED);
    assert PlaceOf(s0, 1).Idle? && PlaceOf(s0, 2).Idle?;
    RunOneMore(EMPTY, DISCONNECTED, Check(1, 7));
    RunOneMore(EMPTY, DISCONNECTED + [Check(1, 7)], Check(2, 7));
  }

  /** So the second write lets in a taxi that is connected already, and both are acknowledged. */
  lemma BothAcknowledged()
    ensures var before := Run(EMPTY, BOTH_CHECKED + [Store(1)]);
            LetsIn(before, Store(2), 7) && Connected(before, 7)
    ensures Run(EMPTY, BOTH_LET_IN).acks == [7, 7, 7]
  {
    BothPassTheirChecks();
    RunOneMore(EMPTY, BOTH_CHECKED, Store(1));
    RunOneMore(EMPTY, BOTH_CHECKED + [Store(1)], Store(2));
    RunOneMore(EMPTY, BOTH_CHECKED + [Store(1)] + [Store(2)], Announce(1));
    RunOneMore(EMPTY, BOTH_CHECKED + [Store(1)] + [Store(2)] + [Announce(1)], Announce(2));
  }

  // ---------------------------------------------------------------- the process

  class AuthServer {
    var taxis: map<int, bool>
    /** The requests topic, as published by this server. */
    var topic: seq<Protocol.Call>

    constructor ()
      ensures taxis == map[] && topic == []
    {
      taxis, topic := map[], [];
    }

    method CheckId(id: int) returns (ok: bool, reconnect: bool)
      ensures ok == Admissible(taxis, id) && reconnect == (id in taxis)
    {
      if id !in taxis {
        return true, false;
      }
      reconnect := true;
      ok := !taxis[id];
    }

    method AddTaxi(id: int, reconnect: bool) returns (added: bool)
      modifies this
      ensures added == (reconnect || id !in old(taxis))
      ensures taxis == (if added && (reconnect ==> id in old(taxis)) then old(taxis)[id := true] else old(taxis))
      ensures topic == old(topic) + if !added then [] else [Announcement(id, reconnect)]
    {
      if reconnect {
        if id in taxis {
          taxis := taxis[id := true];
        }
      } else {
        if id in taxis {
          return false;
        }
        taxis := taxis[id := true];
      }
      topic := topic + [Announcement(id, reconnect)];
      added := true;
    }

    /** A petition that nobody interrupts: acknowledged means not connected before and connected after. */
    method AttendPetition(id: int) returns (ack: bool)
      modifies this
      ensures ack == Admissible(old(taxis), id)
      ensures ack ==> taxis == old(taxis)[id := true]
      ensures ack ==> topic == old(topic) + [Announcement(id, id in old(taxis))]
      ensures !ack ==> taxis == old(taxis) && topic == old(topic)
    {
      var reconnect;
      ack, reconnect := CheckId(id);
      if ack {
        ack := AddTaxi(id, reconnect);
      }
    }
  }
}
