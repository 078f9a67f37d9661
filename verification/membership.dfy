/** Who is connected, who is primary, and what a broadcast that removes clients while
    it runs does to each of them. */
module Membership {
  import opened Protocol
  import opened ConfigCaches
  import opened Model
  import opened Counting
  import CannedMessages

  /** The connected clients are the open connections, and one of them is primary. */
  ghost predicate Members(s: State) {
    && (forall c :: c in s.clients <==> c in s.peers && !s.peers[c].closed)
    && (s.primary == None <==> s.clients == {})
    && (s.primary.Some? ==> s.primary.value in s.clients)
  }

  /** The targets that a delivery disconnects because their queue is full. */
  function Gone(s: State, targets: set<ClientId>): set<ClientId> {
    set c | c in targets && c in s.peers && !s.peers[c].closed && !s.peers[c].Room()
  }

  /** t is s after p was offered once to each target and to nobody else. */
  ghost predicate Delivered(s: State, t: State, targets: set<ClientId>, p: Payload, o: Origin) {
    && t == s.(clients := t.clients, primary := t.primary, peers := t.peers, pending := t.pending,
               abandoned := t.abandoned)
    && Conserves(s, t)
    && t.peers.Keys == s.peers.Keys
    && (forall c :: c in s.peers ==> t.peers[c] == if c in targets then s.peers[c].Offered(p, o) else s.peers[c])
    && t.clients == s.clients - Gone(s, targets)
    && t.pending == DropOwners(s.pending, Gone(s, targets))
    && (s.primary.Some? && s.primary.value in t.clients ==> t.primary == s.primary)
  }

  lemma RemoveMembers(s: State, c: ClientId, promo: ClientId)
    requires c in s.peers
    requires forall d :: d != c ==> (d in s.clients <==> d in s.peers && !s.peers[d].closed)
    requires s.primary.Some? ==> s.primary.value in s.clients
    requires s.primary == None <==> s.clients == {}
    ensures Members(Remove(s, c, promo))
  {
    var t := Remove(s, c, promo);
    if s.primary.Some? && s.primary != Some(c) {
      assert s.primary.value in t.clients;
    }
  }

  lemma RemoveKeepsMembers(s: State, c: ClientId, promo: ClientId)
    requires Members(s) && c in s.peers
    ensures Members(Remove(s, c, promo))
  {
    RemoveMembers(s, c, promo);
  }

  lemma SameMembers(s: State, t: State)
    requires Members(s) && t.clients == s.clients && t.primary == s.primary && t.peers == s.peers
    ensures Members(t)
  {
  }

  /** A change of a connection that leaves it as open or closed as it was. */
  lemma ChangedPeer(s: State, c: ClientId, pr: Peer)
    requires Members(s) && c in s.peers && pr.closed == s.peers[c].closed
    ensures Members(s.With(c, pr))
  {
  }

  lemma SendAccepted(s: State, c: ClientId, p: Payload, o: Origin, promo: ClientId)
    requires Members(s) && c in s.peers && !s.peers[c].closed && s.peers[c].Room()
    ensures Members(Send(s, c, p, o, promo))
    ensures Delivered(s, Send(s, c, p, o, promo), {c}, p, o)
  {
    hide Owned, RequestsOf, Waiting;
    assert Gone(s, {c}) == {};
    assert DropOwners(s.pending, {}) == s.pending;
  }

  lemma SendToClosed(s: State, c: ClientId, p: Payload, o: Origin, promo: ClientId)
    requires Members(s) && c in s.peers && s.peers[c].closed
    ensures Members(Send(s, c, p, o, promo))
    ensures Delivered(s, Send(s, c, p, o, promo), {c}, p, o)
  {
    hide Owned, RequestsOf, Waiting, Members, Remove;
    var t := Send(s, c, p, o, promo);
    assert t == s.With(c, s.peers[c].Refuse(p));
    ChangedPeer(s, c, s.peers[c].Refuse(p));
    assert s.peers[c].Offered(p, o) == t.peers[c];
    assert Gone(s, {c}) == {};
    assert t.clients == s.clients - {};
    assert DropOwners(s.pending, {}) == s.pending;
  }

  lemma SendToFull(s: State, c: ClientId, p: Payload, o: Origin, promo: ClientId)
    requires Members(s) && c in s.peers && !s.peers[c].closed && !s.peers[c].Room()
    ensures Members(Send(s, c, p, o, promo))
    ensures Delivered(s, Send(s, c, p, o, promo), {c}, p, o)
  {
    hide Owned, RequestsOf, Waiting;
    RemoveMembers(s.With(c, s.peers[c].Refuse(p)), c, promo);
    RemoveConserves(s.With(c, s.peers[c].Refuse(p)), c, promo);
    assert Gone(s, {c}) == {c};
    assert Send(s, c, p, o, promo).pending == DropOwners(s.pending, {c});
  }

  lemma SendDelivers(s: State, c: ClientId, p: Payload, o: Origin, promo: ClientId)
    requires Members(s) && c in s.peers
    ensures Members(Send(s, c, p, o, promo))
    ensures Delivered(s, Send(s, c, p, o, promo), {c}, p, o)
  {
    if s.peers[c].closed {
      SendToClosed(s, c, p, o, promo);
    } else if s.peers[c].Room() {
      SendAccepted(s, c, p, o, promo);
    } else {
      SendToFull(s, c, p, o, promo);
    }
  }

  lemma DeliverToOneMore(s: State, t: State, u: State, targets: set<ClientId>, c: ClientId, p: Payload, o: Origin)
    requires Delivered(s, t, targets, p, o) && Delivered(t, u, {c}, p, o)
    requires c !in targets
    ensures Delivered(s, u, targets + {c}, p, o)
  {
    hide Conserves;
    ConservesAgain(s, t, u);
    assert Gone(s, targets + {c}) == Gone(s, targets) + Gone(t, {c});
    var gone, more := Gone(s, targets), Gone(t, {c});
    assert DropOwners(DropOwners(s.pending, gone), more) == DropOwners(s.pending, gone + more);
  }

  function Targets(slots: seq<Slot>, except: Option<ClientId>): set<ClientId> {
    set i | 0 <= i < |slots| && Some(slots[i].c) != except :: slots[i].c
  }

  predicate Distinct(slots: seq<Slot>) {
    forall i, j :: 0 <= i < j < |slots| ==> slots[i].c != slots[j].c
  }

  lemma TargetsGrow(slots: seq<Slot>, except: Option<ClientId>)
    requires slots != [] && Distinct(slots)
    ensures var front, c := slots[..|slots| - 1], slots[|slots| - 1].c;
            && c !in Targets(front, except)
            && Targets(slots, except) == Targets(front, except) + (if Some(c) == except then {} else {c})
  {
    var front, c := slots[..|slots| - 1], slots[|slots| - 1].c;
    forall d | d in Targets(slots, except)
      ensures d in Targets(front, except) + (if Some(c) == except then {} else {c})
    {
      var i :| 0 <= i < |slots| && slots[i].c == d && Some(d) != except;
      if i < |front| {
        assert front[i].c == d;
      }
    }
  }

  /** Whatever the iteration order and however many clients it removes on the way, a
      broadcast offers the payload exactly once to each client but the excluded one. */
  lemma {:induction false} BroadcastDelivers(s: State, p: Payload, o: Origin, slots: seq<Slot>,
      except: Option<ClientId>)
    requires Members(s) && Known(slots, s.peers) && Distinct(slots)
    ensures Members(Broadcast(s, p, o, slots, except))
    ensures Delivered(s, Broadcast(s, p, o, slots, except), Targets(slots, except), p, o)
  {
    hide Send, Delivered, Members, Promote, Gone, DropOwners;
    if slots == [] {
      assert Targets(slots, except) == {};
      DeliveredToNobody(s, p, o);
    } else {
      var front, last := slots[..|slots| - 1], slots[|slots| - 1];
      BroadcastDelivers(s, p, o, front, except);
      TargetsGrow(slots, except);
      var t := Broadcast(s, p, o, front, except);
      if Some(last.c) == except {
        assert Targets(slots, except) == Targets(front, except);
      } else {
        SendDelivers(t, last.c, p, o, last.promo);
        DeliverToOneMore(s, t, Send(t, last.c, p, o, last.promo), Targets(front, except), last.c, p, o);
      }
    }
  }

  lemma DeliveredToNobody(s: State, p: Payload, o: Origin)
    ensures Delivered(s, s, {}, p, o)
  {
    assert Gone(s, {}) == {};
    assert DropOwners(s.pending, {}) == s.pending;
  }

  lemma TargetsOfAll(slots: seq<Slot>, cs: set<ClientId>, except: Option<ClientId>)
    requires Enumerates(slots, cs)
    ensures Targets(slots, except) == set c | c in cs && Some(c) != except
  {
    forall c | c in cs && Some(c) != except
      ensures c in Targets(slots, except)
    {
      var i :| 0 <= i < |slots| && slots[i].c == c;
    }
  }

  /** A broadcast, for each client connected when it starts: one copy or removal, and
      the excluded client's connection is as it was. */
  lemma BroadcastOnceEach(s: State, p: Payload, o: Origin, slots: seq<Slot>, except: Option<ClientId>)
    requires Members(s) && Enumerates(slots, s.clients)
    ensures Known(slots, s.peers)
    ensures var t := Broadcast(s, p, o, slots, except);
            && Members(t)
            && (forall c :: c in s.clients && Some(c) != except && c in t.clients ==>
                  t.peers[c].hist.log == s.peers[c].hist.log + [Entry(p, o)])
            && (forall c :: c in s.clients && Some(c) != except && c !in t.clients ==>
                  !s.peers[c].Room() && t.peers[c].closed && t.peers[c].hist.log == s.peers[c].hist.log)
            && (forall c :: c in s.peers && (c !in s.clients || Some(c) == except) ==> t.peers[c] == s.peers[c])
  {
    hide Owned, RequestsOf;
    BroadcastDelivers(s, p, o, slots, except);
    TargetsOfAll(slots, s.clients, except);
  }

  // ----- closing every connection

  function ClosedBy(slots: seq<Slot>): set<ClientId> {
    set i | 0 <= i < |slots| :: slots[i].c
  }

  /** t is s after removeClient was called on each of cs. */
  ghost predicate Removed(s: State, t: State, cs: set<ClientId>) {
    && t == s.(clients := t.clients, primary := t.primary, peers := t.peers, pending := t.pending,
               abandoned := t.abandoned)
    && Conserves(s, t)
    && t.peers.Keys == s.peers.Keys
    && (forall c :: c in s.peers ==> t.peers[c] == if c in cs then s.peers[c].Close() else s.peers[c])
    && t.clients == s.clients - cs
    && t.pending == DropOwners(s.pending, cs)
  }

  lemma RemoveEffect(s: State, t: State, cs: set<ClientId>, c: ClientId, promo: ClientId)
    requires Removed(s, t, cs) && c in t.peers
    ensures Removed(s, Remove(t, c, promo), cs + {c})
  {
    hide Promote, Conserves;
    RemoveConserves(t, c, promo);
    ConservesAgain(s, t, Remove(t, c, promo));
    assert DropOwner(DropOwners(s.pending, cs), c) == DropOwners(s.pending, cs + {c});
  }

  lemma {:induction false} RemoveAllEffect(s: State, slots: seq<Slot>)
    requires Members(s) && Known(slots, s.peers)
    ensures Members(RemoveAll(s, slots))
    ensures Removed(s, RemoveAll(s, slots), ClosedBy(slots))
  {
    hide Remove, Removed, Members;
    if slots == [] {
      RemovedNobody(s);
      assert ClosedBy(slots) == {};
    } else {
      var front, last := slots[..|slots| - 1], slots[|slots| - 1];
      RemoveAllEffect(s, front);
      RemoveKeepsMembers(RemoveAll(s, front), last.c, last.promo);
      RemoveEffect(s, RemoveAll(s, front), ClosedBy(front), last.c, last.promo);
      assert ClosedBy(slots) == ClosedBy(front) + {last.c};
    }
  }

  lemma RemovedNobody(s: State)
    ensures Removed(s, s, {})
  {
    assert DropOwners(s.pending, {}) == s.pending;
  }

  /** CloseAll leaves no client and no primary. It leaves no pending entry of a client
      exactly when no entry belonged to a connection that was closed before. */
  lemma CloseAllClears(s: State, slots: seq<Slot>)
    requires Members(s) && Enumerates(slots, s.clients)
    ensures Known(slots, s.peers)
    ensures var t := RemoveAll(s, slots);
            && t.clients == {} && t.primary == None
            && (forall c :: c in t.peers ==> t.peers[c].closed)
            && ((forall n :: n in t.pending ==> t.pending[n].owner == None) <==>
                (forall n :: n in s.pending && s.pending[n].owner.Some? ==> s.pending[n].owner.value in s.clients))
  {
    hide Members, RemoveAll, Conserves, DropOwners, Enumerates;
    ClientsAreKnown(s, slots);
    RemoveAllEffect(s, slots);
    ClosedByAll(slots, s.clients);
    ClosedAreClosed(s, RemoveAll(s, slots));
    NoneLeftIff(s.pending, s.clients);
  }

  lemma ClientsAreKnown(s: State, slots: seq<Slot>)
    requires Members(s) && Enumerates(slots, s.clients)
    ensures Known(slots, s.peers)
  {
  }

  lemma ClosedByAll(slots: seq<Slot>, cs: set<ClientId>)
    requires Enumerates(slots, cs)
    ensures ClosedBy(slots) == cs
  {
    forall c | c in cs
      ensures c in ClosedBy(slots)
    {
      var i :| 0 <= i < |slots| && slots[i].c == c;
    }
  }

  lemma ClosedAreClosed(s: State, t: State)
    requires Members(s) && Members(t) && Removed(s, t, s.clients)
    ensures t.clients == {} && t.primary == None && (forall c :: c in t.peers ==> t.peers[c].closed)
  {
    hide Conserves, DropOwners;
  }

  lemma NoneLeftIff(m: Pending, cs: set<ClientId>)
    ensures (forall n :: n in DropOwners(m, cs) ==> DropOwners(m, cs)[n].owner == None) <==>
            (forall n :: n in m && m[n].owner.Some? ==> m[n].owner.value in cs)
  {
    var k := DropOwners(m, cs);
    if forall n :: n in k ==> k[n].owner == None {
      forall n | n in m && m[n].owner.Some?
        ensures m[n].owner.value in cs
      {
        assert m[n].owner.value in cs || n in k;
      }
    }
  }

  /** The run in which CloseAll does leave one: the client sends Disconnect and, in the
      same burst, a WantConfigId that its read loop still handles. */
  lemma CloseAllMayLeaveEntries(cx: Codec, readOnly: bool) returns (es: seq<Event>)
    requires cx.Lawful()
    ensures es != [] && es[|es| - 1].Closing? && Feasible(cx, Initial(readOnly), es)
    ensures After(cx, Initial(readOnly), es).clients == {}
    ensures 5 in After(cx, Initial(readOnly), es).pending
    ensures After(cx, Initial(readOnly), es).pending[5].owner == Some(0)
  {
    hide FromClient, RemoveAll;
    es := DisconnectedRun(cx, readOnly);
    var s := After(cx, Initial(readOnly), es);
    LateRequest(cx, s, 0, 7, 5);
    es := Extend(cx, Initial(readOnly), es, ClientFrame(0, cx.marshalTo(WantConfig(7)), 5, true, [], 0));
    NothingToClose(After(cx, Initial(readOnly), es));
    es := Extend(cx, Initial(readOnly), es, Closing([]));
  }

  /** One client connected, and its Disconnect has been handled. */
  lemma DisconnectedRun(cx: Codec, readOnly: bool) returns (es: seq<Event>)
    requires cx.Lawful()
    ensures Feasible(cx, Initial(readOnly), es)
    ensures var s := After(cx, Initial(readOnly), es);
            && s.clients == {} && s.pending == map[] && s.cache == EMPTY
            && s.peers == map[0 := NewPeer(0).Close()]
  {
    hide FromClient, Connect;
    assert After(cx, Initial(readOnly), []) == Initial(readOnly);
    es := Extend(cx, Initial(readOnly), [], Connecting(0));
    var s := After(cx, Initial(readOnly), es);
    FirstConnects(readOnly);
    OnlyClientLeaves(cx, s, 0);
    es := Extend(cx, Initial(readOnly), es, ClientFrame(0, cx.marshalTo(Disconnect), 5, true, [Slot(0, 0)], 0));
  }

  lemma FirstConnects(readOnly: bool)
    ensures var t := Connect(Initial(readOnly), 0);
            t.clients == {0} && t.peers == map[0 := NewPeer(0)] && t.pending == map[] && t.cache == EMPTY
    ensures Enumerates([Slot(0, 0)], {0})
  {
    assert [Slot(0, 0)][0].c == 0;
  }

  lemma NothingToClose(s: State)
    ensures RemoveAll(s, []) == s
  {
  }

  lemma OnlyClientLeaves(cx: Codec, s: State, c: ClientId)
    requires cx.Lawful()
    requires s.clients == {c} && c in s.peers && s.pending == map[] && s.cache == EMPTY
    ensures var t := FromClient(cx, s, c, cx.marshalTo(Disconnect), 5, true, [], 0);
            && t.clients == {} && t.peers == s.peers[c := s.peers[c].Close()] && t.pending == map[] && t.cache == EMPTY
    ensures FromClient(cx, s, c, cx.marshalTo(Disconnect), 5, true, [Slot(c, 0)], 0)
         == FromClient(cx, s, c, cx.marshalTo(Disconnect), 5, true, [], 0)
  {
  }

  lemma LateRequest(cx: Codec, s: State, c: ClientId, x: u32, nonce: u32)
    requires cx.Lawful()
    requires s.clients == {} && c in s.peers && s.pending == map[] && s.cache == EMPTY
    ensures var t := FromClient(cx, s, c, cx.marshalTo(WantConfig(x)), nonce, true, [], 0);
            t.clients == {} && t.peers.Keys == s.peers.Keys && t.pending == map[nonce := Request(Some(c), x)]
  {
    assert DropOwner(map[], c) == map[];
  }

  /** One more event at the end of a run. */
  lemma Extend(cx: Codec, s: State, es: seq<Event>, e: Event) returns (longer: seq<Event>)
    requires Feasible(cx, s, es) && Enabled(cx, After(cx, s, es), e)
    ensures longer == es + [e]
    ensures Feasible(cx, s, longer)
    ensures After(cx, s, longer) == Step(cx, After(cx, s, es), e)
  {
    hide Enabled, Step;
    longer := es + [e];
    assert longer[..|longer| - 1] == es;
  }

  // ----- every step

  lemma AskRadioMembers(cx: Codec, s: State, c: ClientId, x: u32, nonce: u32, ok: bool)
    requires Members(s) && c in s.peers
    ensures Members(AskRadio(cx, s, c, x, nonce, ok))
  {
    hide Members;
    var t := AskRadio(cx, s, c, x, nonce, ok);
    ChangedPeer(s, c, t.peers[c]);
    SameMembers(s.With(c, t.peers[c]), t);
  }

  lemma BeginReplayMembers(cx: Codec, s: State, c: ClientId, x: u32)
    requires Members(s) && c in s.peers
    ensures Members(BeginReplay(cx, s, c, x))
  {
    hide Members, Script;
    ChangedPeer(s, c, BeginReplay(cx, s, c, x).peers[c]);
  }

  lemma ForwardMembers(cx: Codec, s: State, c: ClientId, p: MeshPacket, ok: bool, slots: seq<Slot>)
    requires Members(s) && Known(slots, s.peers) && Distinct(slots)
    ensures Members(Forward(cx, s, c, p, ok, slots))
  {
    hide Members, Broadcast, Delivered;
    var sent := Note(Put(s, cx.marshalTo(SendPacket(p))), c, p);
    SameMembers(s, s.(down := true));
    SameMembers(s, sent);
    BroadcastDelivers(sent, cx.marshalPacket(p), Synthetic, slots, Some(c));
  }

  lemma PutMembers(s: State, p: Payload, ok: bool)
    requires Members(s)
    ensures Members(PutOrFail(s, p, ok))
  {
    hide Members;
    SameMembers(s, PutOrFail(s, p, ok));
  }

  lemma FromClientMembers(cx: Codec, s: State, c: ClientId, payload: Payload, nonce: u32, ok: bool, slots: seq<Slot>,
      promo: ClientId)
    requires Members(s) && c in s.peers && Known(slots, s.peers) && Distinct(slots)
    ensures Members(FromClient(cx, s, c, payload, nonce, ok, slots, promo))
  {
    hide Members, Forward, Remove, AskRadio, BeginReplay, PutOrFail;
    match cx.parseTo(payload)
    case None => PutMembers(s, payload, ok);
    case Some(WantConfig(x)) =>
      AskRadioMembers(cx, s, c, x, nonce, ok);
      BeginReplayMembers(cx, s, c, x);
    case Some(Disconnect) => RemoveKeepsMembers(s, c, promo);
    case Some(SendPacket(p)) => ForwardMembers(cx, s, c, p, ok, slots);
    case Some(OtherTo(body)) => PutMembers(s, cx.marshalTo(OtherTo(body)), ok);
  }

  lemma {:induction false} ReissueFrame(cx: Codec, s: State, m: Pending, rs: seq<Reissue>)
    requires forall i :: 0 <= i < |rs| ==> rs[i].key in m
    ensures var t := ReissueAll(cx, s, m, rs).state;
            t == s.(pending := t.pending, serial := t.serial, down := t.down)
  {
    hide ClosedOwner;
    if rs != [] {
      ReissueFrame(cx, s, m, rs[..|rs| - 1]);
    }
  }

  lemma TakeFrame(cx: Codec, s: State, p: MeshPacket)
    requires WaitedFor(cx, s, p)
    ensures var t := TakeCanned(cx, s, p); t == s.(canned := t.canned, taken := t.taken)
  {
    hide CannedMessages.Parse;
  }

  lemma RoutePacketMembers(cx: Codec, s: State, p: MeshPacket, payload: Payload, slots: seq<Slot>, promo: ClientId)
    requires Members(s) && Known(slots, s.peers) && Distinct(slots)
    ensures Members(RoutePacket(cx, s, p, payload, slots, promo))
  {
    hide Members, Broadcast, Send, Delivered, OriginOf, WaitedFor, TakeCanned;
    var t := Consume(s, p);
    SameMembers(s, t);
    var origin := OriginOf(s, p);
    if WaitedFor(cx, s, p) {
      TakeFrame(cx, s, p);
      SameMembers(s, TakeCanned(cx, s, p));
    } else if origin == None {
      BroadcastDelivers(t, payload, Live, slots, None);
    } else if origin.value in s.peers {
      SendDelivers(t, origin.value, payload, Reply, promo);
    }
  }

  lemma CompleteMembers(cx: Codec, s: State, id: u32, promo: ClientId)
    requires Members(s)
    ensures Members(Complete(cx, s, id, promo))
  {
    hide Members, Send, Delivered;
    if id in s.pending {
      var req := s.pending[id];
      var t := TakeRequest(s, id);
      SameMembers(s, t);
      if req.owner.Some? && req.owner.value in s.peers {
        SendDelivers(t, req.owner.value, cx.marshalComplete(req.original), Answer, promo);
      }
    }
  }

  lemma FromDeviceMembers(cx: Codec, s: State, e: Event)
    requires Members(s) && e.RadioFrame? && Enabled(cx, s, e)
    ensures Members(Step(cx, s, e))
  {
    hide Members, Broadcast, Delivered, RoutePacket, Complete, ReissueAll;
    var RadioFrame(payload, rs, slots, promo) := e;
    match cx.parseFrom(payload)
    case None =>
    case Some(m) =>
      var t := s.(cache := s.cache.Updated(m, payload), radio := s.radio + [payload]);
      SameMembers(s, t);
      match m
      case ConfigComplete(id) => CompleteMembers(cx, t, id, promo);
      case Rebooted(_) =>
        ReissueFrame(cx, t.(cache := EMPTY, pending := map[]), t.pending, rs);
        SameMembers(t, Reboot(cx, t, rs));
      case Packet(p) => RoutePacketMembers(cx, t, p, payload, slots, promo);
      case _ => BroadcastDelivers(t, payload, Live, slots, None);
  }

  lemma LoopsMembers(cx: Codec, s: State, e: Event)
    requires Members(s) && Enabled(cx, s, e)
    requires e.Replaying? || e.Writing? || e.ReadFailed? || e.WriterStopped?
    ensures Members(Step(cx, s, e))
  {
    hide Members, Remove;
    var t :=
      match e
      case Replaying(c, ok, promo) => AdvanceReplay(s, c, ok)
      case Writing(c, ok, n, promo) => s.With(c, s.peers[c].Drained(ok, n))
      case ReadFailed(c, promo) => s.With(c, s.peers[c].(reading := false))
      case WriterStopped(c, _, _) => s.With(c, s.peers[c].(writing := false))
      case _ => s;
    ChangedPeer(s, e.c, t.peers[e.c]);
    SameMembers(s.With(e.c, t.peers[e.c]), t);
    RemoveKeepsMembers(t, e.c, e.promo);
  }

  /** Membership survives every step. */
  lemma StepMembers(cx: Codec, s: State, e: Event)
    requires Members(s) && Enabled(cx, s, e)
    ensures Members(Step(cx, s, e))
  {
    hide Members, Broadcast, RemoveAll, Removed, Delivered, Remove, FromClient, FromDevice, Drain, ReplayNext,
      Connect, FetchBegin, FetchEnd, BootstrapConfig;
    match e
    case Connecting(c) => ConnectMembers(s, c);
    case ClientFrame(c, payload, nonce, ok, slots, promo) => FromClientMembers(cx, s, c, payload, nonce, ok, slots,
      promo);
    case RadioFrame(_, _, _, _) => FromDeviceMembers(cx, s, e);
    case Replaying(_, _, _) => LoopsMembers(cx, s, e);
    case Writing(_, _, _, _) => LoopsMembers(cx, s, e);
    case ReadFailed(_, _) => LoopsMembers(cx, s, e);
    case WriterStopped(_, _, _) => LoopsMembers(cx, s, e);
    case Texting(packet, ok, slots) =>
      var sent := Put(s, cx.marshalTo(SendPacket(packet)));
      SameMembers(s, sent);
      BroadcastDelivers(sent, cx.marshalPacket(packet), Synthetic, slots, None);
    case Closing(slots) => RemoveAllEffect(s, slots);
    case _ => QuietMembers(cx, s, e);
  }

  lemma FetchFrame(cx: Codec, s: State, f: nat, p: MeshPacket, ok: bool)
    ensures var t := FetchBegin(cx, s, f, p, ok);
            t == s.(canned := t.canned, serial := t.serial, served := t.served, calls := s.calls + {f})
  {
    hide LocalNode, CanWrite, FreshCanned, Register, Unregister;
    var called := s.(calls := s.calls + {f});
    CallFrame(called.(canned := called.canned.(cache := FreshCanned(s.canned, s.now))), f, p.id);
  }

  lemma CallFrame(s: State, f: nat, id: u32)
    ensures var t := Register(s, f, id); t == s.(canned := t.canned) && f in t.canned.fetches
    ensures var t := Unregister(Register(s, f, id), f); t == s.(canned := t.canned)
  {
  }

  lemma FetchEndFrame(s: State, f: nat, take: bool)
    requires f in s.canned.fetches
    ensures var t := FetchEnd(s, f, take); t == s.(canned := t.canned, served := t.served)
  {
  }

  lemma PutFrame(s: State, p: Payload, ok: bool)
    ensures var t := PutOrFail(s, p, ok); t == s.(serial := t.serial, down := t.down) && (s.down ==> t.down)
  {
  }

  lemma BootstrapFrame(cx: Codec, s: State, nonce: u32, ok: bool)
    ensures var t := BootstrapConfig(cx, s, nonce, ok);
            && t == s.(pending := t.pending, serial := t.serial, down := t.down)
            && (s.down ==> t.down)
  {
    hide Want, PutOrFail, Cache.Ready;
    PutFrame(s.(pending := s.pending[nonce := Request(None, BOOTSTRAP_ID)]), Want(cx, nonce), ok);
  }

  lemma QuietMembers(cx: Codec, s: State, e: Event)
    requires Members(s) && Enabled(cx, s, e)
    requires e.Bootstrapping? || e.Fetching? || e.Fetched? || e.Failing? || e.Ticking?
    ensures Members(Step(cx, s, e))
  {
    hide Owned, RequestsOf, Members, FreshNonce, FetchBegin, FetchEnd, BootstrapConfig;
    match e
    case Bootstrapping(nonce, ok) =>
      BootstrapFrame(cx, s, nonce, ok);
      SameMembers(s, BootstrapConfig(cx, s, nonce, ok));
    case Fetching(f, packet, ok) =>
      FetchFrame(cx, s, f, packet, ok);
      SameMembers(s, FetchBegin(cx, s, f, packet, ok));
    case Fetched(f, take) =>
      FetchEndFrame(s, f, take);
      SameMembers(s, FetchEnd(s, f, take));
    case Failing => SameMembers(s, s.(down := true));
    case Ticking(elapsed) => SameMembers(s, s.(now := s.now + elapsed));
    case _ => assert false;
  }

  lemma ConnectMembers(s: State, c: ClientId)
    requires Members(s) && c !in s.peers
    ensures Members(Connect(s, c))
  {
  }
}
