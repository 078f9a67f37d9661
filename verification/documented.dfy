/** Where the program does something else than its comments or its readers may expect: runs
    that show it. What holds instead is here or in Runs. Last, a run for EchoesComeBackOnce. */
module Documented {
  import opened Protocol
  import opened ConfigCaches
  import opened Model
  import opened Counting
  import opened Membership
  import opened Echoes
  import opened Effects
  import opened Account
  import opened Reboots
  import opened Fetches
  import opened Turns
  import Frame

  // ----- a ready cache need not be a complete dump

  /** The run in which a client asks for the configuration and is answered with MyInfo and a
      completion, because nothing else has come from the radio. */
  lemma PartialDump(cx: Codec, readOnly: bool, p: Payload, n: u32, x: u32) returns (es: seq<Event>)
    requires cx.Lawful() && p != [] && cx.parseFrom(p) == Some(MyInfo(n))
    ensures Feasible(cx, Initial(readOnly), es)
    ensures exists i :: 0 <= i < |es| && es[i] == Asking(cx, x)
    ensures var s := After(cx, Initial(readOnly), es);
            && s.radio == [p] && 0 in s.clients && 0 in s.peers
            && s.peers[0].replay == None
            && s.peers[0].queue == [p, cx.marshalComplete(x)]
  {
    hide Feasible, After, Step, Enabled, Asking;
    es := BeingAnswered(cx, readOnly, p, n, x);
    SendsFirst(cx, After(cx, Initial(readOnly), es), p, x);
    es := Extend(cx, Initial(readOnly), es, Replaying(0, true, 0));
    SendsLast(cx, After(cx, Initial(readOnly), es), x);
    es := Extend(cx, Initial(readOnly), es, Replaying(0, true, 0));
    assert es[2] == Asking(cx, x);
  }

  function Asking(cx: Codec, x: u32): Event {
    ClientFrame(0, cx.marshalTo(WantConfig(x)), 0, true, [Slot(0, 0)], 0)
  }

  /** A MyInfo comes, a client connects and asks, and the cache begins to answer. */
  lemma BeingAnswered(cx: Codec, readOnly: bool, p: Payload, n: u32, x: u32) returns (es: seq<Event>)
    requires cx.Lawful() && p != [] && cx.parseFrom(p) == Some(MyInfo(n))
    ensures Feasible(cx, Initial(readOnly), es) && |es| == 3 && es[2] == Asking(cx, x)
    ensures var s := After(cx, Initial(readOnly), es);
            && s.radio == [p] && s.cache == EMPTY.(myInfo := p) && s.clients == {0} && 0 in s.peers
            && s.peers[0].replay == Some(Replay(x, [p, cx.marshalComplete(x)])) && s.peers[0].hist.replays != []
            && s.peers[0].queue == [] && !s.peers[0].closed
            && Enumerates([Slot(0, 0)], {0})
  {
    hide FromDevice, Connect, FromClient, Enumerates;
    var s0 := Initial(readOnly);
    assert After(cx, s0, []) == s0;
    InfoArrives(cx, readOnly, p, n);
    es := Extend(cx, s0, [], RadioFrame(p, [], [], 0));
    var s1 := After(cx, s0, es);
    AskerConnects(s1, p);
    es := Extend(cx, s0, es, Connecting(0));
    var s2 := After(cx, s0, es);
    AskerAsks(cx, s2, p, x);
    es := Extend(cx, s0, es, Asking(cx, x));
  }

  lemma InfoArrives(cx: Codec, readOnly: bool, p: Payload, n: u32)
    requires p != [] && cx.parseFrom(p) == Some(MyInfo(n))
    ensures Enabled(cx, Initial(readOnly), RadioFrame(p, [], [], 0))
    ensures FromDevice(cx, Initial(readOnly), p, [], [], 0) ==
            Initial(readOnly).(cache := EMPTY.(myInfo := p), radio := [p])
  {
  }

  lemma AskerConnects(s: State, p: Payload)
    requires s.peers == map[] && s.clients == {} && s.primary == None
    ensures Connect(s, 0) == s.(clients := {0}, primary := Some(0), peers := map[0 := NewPeer(|s.radio|)])
    ensures Enumerates([Slot(0, 0)], {0})
  {
    assert [Slot(0, 0)][0].c == 0;
  }

  lemma AskerAsks(cx: Codec, s: State, p: Payload, x: u32)
    requires cx.Lawful() && p != [] && s.cache == EMPTY.(myInfo := p) && s.clients == {0} && 0 in s.peers
    requires s.peers[0].reading && s.peers[0].replay == None
    requires Enumerates([Slot(0, 0)], {0})
    ensures Enabled(cx, s, ClientFrame(0, cx.marshalTo(WantConfig(x)), 0, true, [Slot(0, 0)], 0))
    ensures var t := FromClient(cx, s, 0, cx.marshalTo(WantConfig(x)), 0, true, [Slot(0, 0)], 0);
            && t.clients == {0} && t.radio == s.radio && t.cache == s.cache && t.peers.Keys == s.peers.Keys
            && t.peers[0].replay == Some(Replay(x, [p, cx.marshalComplete(x)]))
            && t.peers[0].queue == s.peers[0].queue && t.peers[0].closed == s.peers[0].closed
            && t.peers[0].hist.replays != []
  {
    hide Enumerates;
    SnapshotOfInfo(p);
    assert Script(cx, Cause(x, s.cache)) == [p, cx.marshalComplete(x)];
  }

  lemma SnapshotOfInfo(p: Payload)
    requires p != []
    ensures EMPTY.(myInfo := p).Snapshot().Frames() == [p]
  {
    OrderedEmpty();
  }

  lemma OrderedEmpty()
    ensures Ordered(map[]) == []
  {
  }

  lemma SendsFirst(cx: Codec, s: State, p: Payload, x: u32)
    requires 0 in s.peers && s.peers[0].Room() && s.peers[0].hist.replays != []
    requires s.peers[0].replay == Some(Replay(x, [p, cx.marshalComplete(x)]))
    ensures Enabled(cx, s, Replaying(0, true, 0))
    ensures var t := Step(cx, s, Replaying(0, true, 0));
            && t.clients == s.clients && t.radio == s.radio && t.cache == s.cache && 0 in t.peers
            && t.peers[0].replay == Some(Replay(x, [cx.marshalComplete(x)]))
            && t.peers[0].queue == s.peers[0].queue + [p] && t.peers[0].hist.replays != []
  {
  }

  lemma SendsLast(cx: Codec, s: State, x: u32)
    requires 0 in s.peers && s.peers[0].Room() && s.peers[0].hist.replays != []
    requires s.peers[0].replay == Some(Replay(x, [cx.marshalComplete(x)]))
    ensures Enabled(cx, s, Replaying(0, true, 0))
    ensures var t := Step(cx, s, Replaying(0, true, 0));
            && t.clients == s.clients && t.radio == s.radio && t.cache == s.cache && 0 in t.peers
            && t.peers[0].replay == None && t.peers[0].queue == s.peers[0].queue + [cx.marshalComplete(x)]
  {
  }

  // ----- a cached reply may send a frame that is out of date

  /** The run in which a MyInfo p2 comes while a client is being answered from the cache: it
      is queued live, and the p that it replaced comes after it. */
  lemma StaleFrame(cx: Codec, readOnly: bool, p: Payload, n: u32, p2: Payload, n2: u32, x: u32)
    returns (es: seq<Event>)
    requires cx.Lawful() && p != [] && cx.parseFrom(p) == Some(MyInfo(n))
    requires p2 != [] && cx.parseFrom(p2) == Some(MyInfo(n2))
    ensures Feasible(cx, Initial(readOnly), es)
    ensures var s := After(cx, Initial(readOnly), es);
            && s.radio == [p, p2] && s.cache.Lookup(MyInfoKey) == Some(p2)
            && 0 in s.clients && 0 in s.peers && s.peers[0].replay == None
            && s.peers[0].queue == [p2, p, cx.marshalComplete(x)]
  {
    hide Feasible, After, Step, Enabled, Enumerates;
    var s0 := Initial(readOnly);
    es := BeingAnswered(cx, readOnly, p, n, x);
    NewInfoArrives(cx, After(cx, s0, es), p2, n2);
    es := Extend(cx, s0, es, RadioFrame(p2, [], [Slot(0, 0)], 0));
    SendsFirst(cx, After(cx, s0, es), p, x);
    es := Extend(cx, s0, es, Replaying(0, true, 0));
    SendsLast(cx, After(cx, s0, es), x);
    es := Extend(cx, s0, es, Replaying(0, true, 0));
  }

  lemma NewInfoArrives(cx: Codec, s: State, p: Payload, n: u32)
    requires p != [] && cx.parseFrom(p) == Some(MyInfo(n)) && s.clients == {0}
    requires 0 in s.peers && !s.peers[0].closed && s.peers[0].queue == []
    requires Enumerates([Slot(0, 0)], {0})
    ensures Enabled(cx, s, RadioFrame(p, [], [Slot(0, 0)], 0))
    ensures Step(cx, s, RadioFrame(p, [], [Slot(0, 0)], 0)) ==
            s.(cache := s.cache.(myInfo := p), radio := s.radio + [p],
               peers := s.peers[0 := s.peers[0].Accept(p, Live)])
  {
    hide Enumerates, Remove;
    DeviceBroadcast(cx, s, p, MyInfo(n), [], [Slot(0, 0)], 0);
    var t := s.(cache := s.cache.(myInfo := p), radio := s.radio + [p]);
    assert [Slot(0, 0)][..0] == [];
    assert Broadcast(t, p, Live, [], None) == t;
    assert Broadcast(t, p, Live, [Slot(0, 0)], None) == Send(t, 0, p, Live, 0);
  }

  // ----- a nonce may be drawn again

  const BOTH: seq<Slot> := [Slot(0, 0), Slot(1, 0)]

  predicate Idle(pr: Peer) {
    pr.queue == [] && !pr.closed && pr.reading && pr.replay == None
  }

  /** Two clients, both idle, and a link that works. */
  ghost predicate TwoIdle(s: State) {
    s.clients == {0, 1} && s.peers.Keys == {0, 1} && Idle(s.peers[0]) && Idle(s.peers[1]) && !s.down
  }

  /** The run in which client 0 asks under nonce 5 and client 1 under 6, the radio reboots and
      nonce 5 is drawn again for client 1. The radio's completion e of 5, which may be the late
      answer to client 0's request, is then given to client 1. */
  lemma ReusedNonce(cx: Codec, readOnly: bool, x: u32, y: u32, b: Payload, flag: bool)
    returns (es: seq<Event>, e: Event)
    requires cx.Lawful() && b != [] && cx.parseFrom(b) == Some(Rebooted(flag))
    requires forall n: u32 :: 5 <= n <= 7 ==> |Want(cx, n)| <= Frame.MAX_SIZE
    ensures Feasible(cx, Initial(readOnly), es)
    ensures var s := After(cx, Initial(readOnly), es);
            && Enabled(cx, s, e) && e.RadioFrame? && cx.parseFrom(e.payload) == Some(ConfigComplete(5))
            && !s.down && s.clients == {0, 1} && s.radio == [b]
            && |s.serial| == 4
            && s.serial[0] == Sent(Want(cx, 5), map[5 := Request(Some(0), x)])
            && s.serial[3] == Sent(Want(cx, 5), map[7 := Request(Some(0), x), 5 := Request(Some(1), y)])
            && s.peers.Keys == {0, 1} && s.peers[0].queue == [] && s.peers[1].queue == []
            && var t := Step(cx, s, e);
            && t.peers.Keys == {0, 1} && t.peers[0].queue == [] && t.peers[1].queue == [cx.marshalComplete(y)]
  {
    hide Feasible, After, Step, Enabled, Enumerates, Want, TwoIdle;
    var s0 := Initial(readOnly);
    var r0, r1 := Request(Some(0), x), Request(Some(1), y);
    es := TwoClients(cx, readOnly);
    AsksUnder(cx, After(cx, s0, es), 0, x, 5);
    es := Extend(cx, s0, es, ClientFrame(0, cx.marshalTo(WantConfig(x)), 5, true, BOTH, 0));
    AsksUnder(cx, After(cx, s0, es), 1, y, 6);
    es := Extend(cx, s0, es, ClientFrame(1, cx.marshalTo(WantConfig(y)), 6, true, BOTH, 0));
    Swaps(cx, After(cx, s0, es), b, flag, r0, r1);
    es := Extend(cx, s0, es, RadioFrame(b, [Reissue(5, 7, true), Reissue(6, 5, true)], BOTH, 0));
    IdleQueues(After(cx, s0, es));
    CompletesForOther(cx, After(cx, s0, es), y);
    e := RadioFrame(cx.marshalComplete(5), [], BOTH, 0);
  }

  lemma IdleQueues(s: State)
    requires TwoIdle(s)
    ensures s.clients == {0, 1} && s.peers.Keys == {0, 1} && s.peers[0].queue == [] && s.peers[1].queue == [] && !s.down
  {
  }

  /** Two clients connect; the first is primary. */
  lemma TwoClients(cx: Codec, readOnly: bool) returns (es: seq<Event>)
    ensures Feasible(cx, Initial(readOnly), es)
    ensures var s := After(cx, Initial(readOnly), es);
            && TwoIdle(s) && Enumerates(BOTH, {0, 1})
            && s == Initial(readOnly).(clients := {0, 1}, primary := Some(0),
                                       peers := map[0 := NewPeer(0), 1 := NewPeer(0)])
  {
    hide Feasible, After, Step, Enabled, Enumerates, Idle;
    var s0 := Initial(readOnly);
    es := NoEvents(cx, s0);
    PrimaryConnects(cx, readOnly);
    es := Extend(cx, s0, es, Connecting(0));
    SecondConnects(cx, After(cx, s0, es));
    es := Extend(cx, s0, es, Connecting(1));
  }

  lemma NoEvents(cx: Codec, s: State) returns (es: seq<Event>)
    ensures es == [] && Feasible(cx, s, es) && After(cx, s, es) == s
  {
    es := [];
  }

  lemma PrimaryConnects(cx: Codec, readOnly: bool)
    ensures Enabled(cx, Initial(readOnly), Connecting(0))
    ensures Step(cx, Initial(readOnly), Connecting(0)) ==
            Initial(readOnly).(clients := {0}, primary := Some(0), peers := map[0 := NewPeer(0)])
  {
  }

  lemma SecondConnects(cx: Codec, s: State)
    requires s.clients == {0} && s.primary == Some(0) && s.peers == map[0 := NewPeer(0)] && s.radio == []
    ensures Enabled(cx, s, Connecting(1))
    ensures Step(cx, s, Connecting(1)) == s.(clients := {0, 1}, peers := map[0 := NewPeer(0), 1 := NewPeer(0)])
    ensures Idle(NewPeer(0)) && Enumerates(BOTH, {0, 1})
  {
    assert BOTH[0].c == 0 && BOTH[1].c == 1;
  }

  lemma AsksUnder(cx: Codec, s: State, c: ClientId, x: u32, nonce: u32)
    requires cx.Lawful() && |Want(cx, nonce)| <= Frame.MAX_SIZE
    requires TwoIdle(s) && Enumerates(BOTH, {0, 1}) && c in s.clients && s.cache == EMPTY
    requires FreshNonce(s.pending, nonce) && forall n :: n in s.pending ==> s.pending[n].owner != Some(c)
    ensures Enabled(cx, s, ClientFrame(c, cx.marshalTo(WantConfig(x)), nonce, true, BOTH, 0))
    ensures var t := Step(cx, s, ClientFrame(c, cx.marshalTo(WantConfig(x)), nonce, true, BOTH, 0));
            var table := s.pending[nonce := Request(Some(c), x)];
            && TwoIdle(t)
            && t == s.(peers := t.peers, pending := table, serial := s.serial + [Sent(Want(cx, nonce), table)])
  {
    hide Want, Originals, Enumerates;
    assert DropOwner(s.pending, c) == s.pending;
  }

  lemma Swaps(cx: Codec, s: State, b: Payload, flag: bool, r0: Request, r1: Request)
    requires b != [] && cx.parseFrom(b) == Some(Rebooted(flag))
    requires |Want(cx, 7)| <= Frame.MAX_SIZE && |Want(cx, 5)| <= Frame.MAX_SIZE
    requires TwoIdle(s) && Enumerates(BOTH, {0, 1}) && s.pending == map[5 := r0, 6 := r1]
    requires r0.owner == Some(0) && r1.owner == Some(1)
    ensures Enabled(cx, s, RadioFrame(b, [Reissue(5, 7, true), Reissue(6, 5, true)], BOTH, 0))
    ensures var t := Step(cx, s, RadioFrame(b, [Reissue(5, 7, true), Reissue(6, 5, true)], BOTH, 0));
            && TwoIdle(t) && t.radio == s.radio + [b]
            && t.pending == map[7 := r0, 5 := r1]
            && t.serial == s.serial + [Sent(Want(cx, 7), map[7 := r0]), Sent(Want(cx, 5), map[7 := r0, 5 := r1])]
  {
    hide Want, Enumerates, ReissueAll;
    var rs := [Reissue(5, 7, true), Reissue(6, 5, true)];
    var s1 := s.(radio := s.radio + [b]);
    assert rs[0].key == 5 && rs[1].key == 6;
    assert Covers(s1, rs, s.pending);
    BothReissued(cx, s1.(cache := EMPTY, pending := map[]), r0, r1);
    DeviceReboots(cx, s, b, flag, rs, BOTH, 0);
  }

  lemma BothReissued(cx: Codec, s: State, r0: Request, r1: Request)
    requires |Want(cx, 7)| <= Frame.MAX_SIZE && |Want(cx, 5)| <= Frame.MAX_SIZE
    requires s.pending == map[] && !s.down && !ClosedOwner(s, r0) && !ClosedOwner(s, r1)
    ensures var m, rs := map[5 := r0, 6 := r1], [Reissue(5, 7, true), Reissue(6, 5, true)];
            && rs[0].key in m && rs[1].key in m
            && ReissueAll(cx, s, m, rs) == Reissued(
                 s.(pending := map[7 := r0, 5 := r1],
                    serial := s.serial + [Sent(Want(cx, 7), map[7 := r0]),
                                          Sent(Want(cx, 5), map[7 := r0, 5 := r1])]), false)
  {
    hide Want, ReissueAll, ClosedOwner;
    var m, first, second := map[5 := r0, 6 := r1], Reissue(5, 7, true), Reissue(6, 5, true);
    var t := Put(s.(pending := map[7 := r0]), Want(cx, 7));
    assert [] + [first] == [first] && [first] + [second] == [first, second];
    assert map[][7 := r0] == map[7 := r0] && map[7 := r0][5 := r1] == map[7 := r0, 5 := r1];
    NothingReissued(cx, s, m);
    ReissueOne(cx, s, m, [], first, s);
    SamePeersClosed(s, t, r1);
    ReissueOne(cx, s, m, [first], second, t);
  }

  lemma CompletesForOther(cx: Codec, s: State, y: u32)
    requires cx.Lawful() && TwoIdle(s) && Enumerates(BOTH, {0, 1})
    requires 5 in s.pending && s.pending[5] == Request(Some(1), y)
    ensures Enabled(cx, s, RadioFrame(cx.marshalComplete(5), [], BOTH, 0))
    ensures var t := Step(cx, s, RadioFrame(cx.marshalComplete(5), [], BOTH, 0));
            && t.serial == s.serial && t.radio == s.radio + [cx.marshalComplete(5)] && t.peers.Keys == {0, 1}
            && t.peers[0].queue == [] && t.peers[1].queue == [cx.marshalComplete(y)]
  {
    hide Enumerates, Remove;
  }

  // ----- anyone's request is forwarded

  /** Whether a WantConfigId reaches the radio depends on the cache and the link alone, not on
      which client is primary nor on whether the others are read-only. */
  lemma AnyoneMayAsk(cx: Codec, s: State, e: Event, x: u32)
    requires Enabled(cx, s, e) && e.ClientFrame? && cx.parseTo(e.payload) == Some(WantConfig(x))
    ensures var t, asks := Step(cx, s, e), !s.cache.Ready() && !s.down && e.ok && |Want(cx, e.nonce)| <= Frame.MAX_SIZE;
            && |t.serial| == |s.serial| + (if asks then 1 else 0)
            && t.serial[..|s.serial|] == s.serial
            && (asks ==> t.serial[|s.serial|].payload == Want(cx, e.nonce))
  {
    hide AskRadio, BeginReplay, Want, Enumerates, FreshNonce, Cache.Ready;
    AskSerial(cx, s, e.c, x, e.nonce, e.ok);
  }

  lemma AskSerial(cx: Codec, s: State, c: ClientId, x: u32, nonce: u32, ok: bool)
    requires c in s.peers
    ensures BeginReplay(cx, s, c, x).serial == s.serial
    ensures var t, asks := AskRadio(cx, s, c, x, nonce, ok), !s.down && ok && |Want(cx, nonce)| <= Frame.MAX_SIZE;
            && |t.serial| == |s.serial| + (if asks then 1 else 0)
            && t.serial[..|s.serial|] == s.serial
            && (asks ==> t.serial[|s.serial|].payload == Want(cx, nonce))
  {
    hide Script, Originals, DropOwner, Want;
  }

  /** The run in which a client that is not primary has its WantConfigId sent to the radio,
      even when secondary clients are read-only. */
  lemma SecondaryAsks(cx: Codec, readOnly: bool, x: u32) returns (es: seq<Event>)
    requires cx.Lawful() && |Want(cx, 5)| <= Frame.MAX_SIZE
    ensures Feasible(cx, Initial(readOnly), es)
    ensures es != [] && es[|es| - 1].ClientFrame? && es[|es| - 1].c == 1
    ensures cx.parseTo(es[|es| - 1].payload) == Some(WantConfig(x))
    ensures var s := After(cx, Initial(readOnly), es);
            && s.primary == Some(0) && s.serial == [Sent(Want(cx, 5), map[5 := Request(Some(1), x)])]
            && 5 in s.pending && s.pending[5] == Request(Some(1), x)
  {
    hide Feasible, After, Step, Enabled, Enumerates, TwoIdle, Want;
    es := TwoClients(cx, readOnly);
    AsksUnder(cx, After(cx, Initial(readOnly), es), 1, x, 5);
    es := Extend(cx, Initial(readOnly), es, ClientFrame(1, cx.marshalTo(WantConfig(x)), 5, true, BOTH, 0));
  }

  // ----- a packet and its echoes

  lemma SentQuietly(cx: Codec, s: State, e: Event, p: MeshPacket)
    requires Members(s) && Sends(cx, s, e, p)
    ensures Step(cx, s, e).canned == s.canned
  {
    hide Members, Broadcast, Conserves, Gone, DropOwners, Peer.Offered;
    var noted := Note(Put(s, cx.marshalTo(SendPacket(p))), e.c, p);
    SameMembers(s, noted);
    BroadcastDelivers(noted, cx.marshalPacket(p), Synthetic, e.slots, Some(e.c));
  }

  lemma DeliveredQuietly(s: State, t: State, targets: set<ClientId>, p: Payload, o: Origin)
    requires Delivered(s, t, targets, p, o)
    ensures t.canned == s.canned
  {
    hide Conserves, Gone, DropOwners, Peer.Offered;
  }

  lemma EchoedQuietly(cx: Codec, s: State, e: Event, p: MeshPacket)
    requires Members(s) && Echoed(cx, s, e, p)
    ensures Step(cx, s, e).canned == s.canned
  {
    hide Members, Broadcast, Send, Delivered, RoutePacket, Enumerates;
    var t := s.(cache := s.cache.Updated(Packet(p), e.payload), radio := s.radio + [e.payload]);
    SameMembers(s, t);
    RoutedQuietly(cx, t, p, e.payload, e.slots, e.promo);
  }

  lemma RoutedQuietly(cx: Codec, s: State, p: MeshPacket, payload: Payload, slots: seq<Slot>, promo: ClientId)
    requires Members(s) && Enumerates(slots, s.clients) && Known(slots, s.peers) && !WaitedFor(cx, s, p)
    ensures RoutePacket(cx, s, p, payload, slots, promo).canned == s.canned
  {
    hide Members, Broadcast, Send, Delivered, OriginOf, WaitedFor;
    var t, origin := Consume(s, p), OriginOf(s, p);
    SameMembers(s, t);
    if origin == None {
      BroadcastDelivers(t, payload, Live, slots, None);
      DeliveredQuietly(t, Broadcast(t, payload, Live, slots, None), Targets(slots, None), payload, Live);
    } else if origin.value in s.peers {
      SendDelivers(t, origin.value, payload, Reply, promo);
      DeliveredQuietly(t, Send(t, origin.value, payload, Reply, promo), {origin.value}, payload, Reply);
    }
  }

  /** The packet of a client that may write can go out, and its echo come back twice. */
  lemma EchoesFollow(cx: Codec, s: State, c: ClientId, p: MeshPacket)
    returns (e0: Event, e1: Event, e2: Event, t: State, v: State)
    requires cx.Lawful() && Members(s) && s.canned.waiters == map[] && p.id != 0
    requires c in s.clients && c in s.peers && s.peers[c].reading && s.peers[c].replay == None
    requires (s.primary == Some(c) || !s.readOnly) && !s.down && |cx.marshalTo(SendPacket(p))| <= 65535
    ensures Sends(cx, s, e0, p) && e0.c == c && t == Step(cx, s, e0)
    ensures Echoed(cx, t, e1, p) && c in t.clients && t.now == s.now && v == Step(cx, t, e1)
    ensures Echoed(cx, v, e2, p)
  {
    hide Step, Enabled, Copied, Returned, Awaited;
    e0 := SendsNow(cx, s, c, p);
    t := Step(cx, s, e0);
    PacketCopied(cx, s, e0, p);
    SentQuietly(cx, s, e0, p);
    SenderStays(s, t, c, cx.marshalPacket(p));
    e1 := EchoesNow(cx, t, p);
    v := Step(cx, t, e1);
    EchoToOrigin(cx, t, e1, p, c, s.now + 30_000_000_000);
    EchoedQuietly(cx, t, e1, p);
    e2 := EchoesNow(cx, v, p);
  }

  lemma SendsNow(cx: Codec, s: State, c: ClientId, p: MeshPacket) returns (e: Event)
    requires cx.Lawful() && Members(s) && c in s.peers && s.peers[c].reading && s.peers[c].replay == None
    requires (s.primary == Some(c) || !s.readOnly) && !s.down && |cx.marshalTo(SendPacket(p))| <= 65535
    ensures Sends(cx, s, e, p) && e.c == c
  {
    hide Enumerates;
    e := ClientFrame(c, cx.marshalTo(SendPacket(p)), 0, true, KnownEnumeration(s), 0);
  }

  lemma EchoesNow(cx: Codec, s: State, p: MeshPacket) returns (e: Event)
    requires cx.Lawful() && Members(s) && s.canned.waiters == map[]
    ensures Echoed(cx, s, e, p)
  {
    hide Enumerates;
    e := RadioFrame(cx.marshalPacket(p), [], KnownEnumeration(s), 0);
  }

  lemma SenderStays(s: State, t: State, c: ClientId, copy: Payload)
    requires Members(s) && Members(t) && Copied(s, t, c, copy) && c in s.clients
    ensures c in t.clients
  {
  }

  /** A run of two clients of which the primary's packet is echoed twice. */
  lemma EchoedPacket(cx: Codec, readOnly: bool, p: MeshPacket)
    returns (es: seq<Event>, e0: Event, e1: Event, e2: Event, s: State, t: State, v: State)
    requires cx.Lawful() && p.id != 0 && |cx.marshalTo(SendPacket(p))| <= 65535
    ensures Feasible(cx, Initial(readOnly), es) && s == After(cx, Initial(readOnly), es) && s.clients == {0, 1}
    ensures Sends(cx, s, e0, p) && t == Step(cx, s, e0)
    ensures Feasible(cx, t, []) && After(cx, t, []) == t
    ensures Echoed(cx, t, e1, p) && e0.c in t.clients && t.now <= s.now + 30_000_000_000 && v == Step(cx, t, e1)
    ensures Feasible(cx, v, []) && After(cx, v, []) == v
    ensures Echoed(cx, v, e2, p)
  {
    hide Sends, Echoed, Step, Enumerates;
    es := TwoClients(cx, readOnly);
    s := After(cx, Initial(readOnly), es);
    e0, e1, e2, t, v := EchoesFollow(cx, s, 0, p);
  }

  /** The same two clients, and an echo that comes too late. */
  lemma LateEchoedPacket(cx: Codec, readOnly: bool, p: MeshPacket)
    returns (es: seq<Event>, e0: Event, tick: Event, e1: Event, s: State, t: State, u: State)
    requires cx.Lawful() && p.id != 0 && |cx.marshalTo(SendPacket(p))| <= 65535
    ensures Feasible(cx, Initial(readOnly), es) && s == After(cx, Initial(readOnly), es)
    ensures Sends(cx, s, e0, p) && t == Step(cx, s, e0) && !Touches(cx, tick, p.id)
    ensures Feasible(cx, t, [tick]) && u == After(cx, t, [tick])
    ensures Echoed(cx, u, e1, p) && u.now > s.now + 30_000_000_000
  {
    hide Sends, Echoed, Enumerates, FromClient;
    es := TwoClients(cx, readOnly);
    s := After(cx, Initial(readOnly), es);
    e0, e1, tick, t, u := TooLate(cx, s, p);
  }

  lemma TooLate(cx: Codec, s: State, p: MeshPacket) returns (e0: Event, e1: Event, tick: Event, t: State, u: State)
    requires cx.Lawful() && Members(s) && s.canned.waiters == map[] && p.id != 0
    requires s.primary == Some(0) && 0 in s.clients && 0 in s.peers && s.peers[0].reading && s.peers[0].replay == None
    requires !s.down && |cx.marshalTo(SendPacket(p))| <= 65535
    ensures Sends(cx, s, e0, p) && t == Step(cx, s, e0) && !Touches(cx, tick, p.id)
    ensures Feasible(cx, t, [tick]) && u == After(cx, t, [tick])
    ensures Echoed(cx, u, e1, p) && u.now > s.now + 30_000_000_000
  {
    hide Copied, Echoed, Members, Enumerates, FromClient;
    e0 := SendsNow(cx, s, 0, p);
    tick := Ticking(30_000_000_001);
    t := Step(cx, s, e0);
    PacketCopied(cx, s, e0, p);
    SentQuietly(cx, s, e0, p);
    var none := NoEvents(cx, t);
    var one := Extend(cx, t, none, tick);
    u := After(cx, t, [tick]);
    StepMembers(cx, t, tick);
    e1 := EchoesNow(cx, u, p);
  }

  // ----- a call and its reply

  /** A run in which a call of FetchCannedMessages asks the radio and is told. */
  lemma FetchedList(cx: Codec, readOnly: bool, p: Payload, n: u32, ask: MeshPacket, bytes: Payload, raw: string)
    returns (es: seq<Event>, e0: Event, e1: Event, s: State, t: State, u: State)
    requires cx.Lawful() && p != [] && cx.parseFrom(p) == Some(MyInfo(n)) && n != 0
    requires ask.id != 0 && |cx.marshalTo(SendPacket(ask))| <= 65535 && cx.adminReply(bytes) == Some(raw)
    ensures Leads(cx, Initial(readOnly), es, s) && AsksRadio(cx, s, e0) && e0 == Fetching(0, ask, true)
    ensures Steps(cx, s, e0, t) && Leads(cx, t, [], t)
    ensures Tells(cx, t, e1, ask.id, raw) && Steps(cx, t, e1, u) && Leads(cx, u, [], u)
  {
    hide Step, Enabled;
    es := NoEvents(cx, Initial(readOnly));
    InfoComes(cx, readOnly, p, n);
    es := Extend(cx, Initial(readOnly), es, RadioFrame(p, [], [], 0));
    s := After(cx, Initial(readOnly), es);
    e0, e1 := Fetching(0, ask, true), Telling(cx, ask.id, bytes);
    CanAsk(cx, s, e0, n);
    t := Step(cx, s, e0);
    CanTell(cx, t, ask.id, bytes);
    u := Step(cx, t, e1);
  }

  function Telling(cx: Codec, id: u32, bytes: Payload): Event {
    RadioFrame(cx.marshalPacket(MeshPacket(id, Some(Data(Admin, bytes)), [])), [], [], 0)
  }

  lemma InfoComes(cx: Codec, readOnly: bool, p: Payload, n: u32)
    requires p != [] && cx.parseFrom(p) == Some(MyInfo(n))
    ensures Enabled(cx, Initial(readOnly), RadioFrame(p, [], [], 0))
    ensures Step(cx, Initial(readOnly), RadioFrame(p, [], [], 0)) ==
            Initial(readOnly).(cache := EMPTY.(myInfo := p), radio := [p])
  {
    InfoArrives(cx, readOnly, p, n);
  }

  lemma CanAsk(cx: Codec, s: State, e: Event, n: u32)
    requires e.Fetching? && e.packet.id != 0 && e.ok && |cx.marshalTo(SendPacket(e.packet))| <= 65535
    requires s.calls == {} && s.canned.fetches == map[] && s.taken == [] && !s.down && s.clients == {}
    requires s.cache.myInfo != [] && cx.parseFrom(s.cache.myInfo) == Some(MyInfo(n)) && n != 0
    ensures AsksRadio(cx, s, e) && Step(cx, s, e).clients == {}
  {
    hide FetchBegin;
    FetchFrame(cx, s, e.f, e.packet, e.ok);
  }

  lemma CanTell(cx: Codec, s: State, id: u32, bytes: Payload)
    requires cx.Lawful() && s.clients == {} && cx.adminReply(bytes).Some?
    ensures Tells(cx, s, Telling(cx, id, bytes), id, cx.adminReply(bytes).value)
  {
  }
}
