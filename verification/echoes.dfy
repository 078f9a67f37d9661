/** Outgoing packets and the echoes the radio sends back for them. */
module Echoes {
  import opened Protocol
  import opened ConfigCaches
  import opened Counting
  import opened Model
  import opened Membership

  ghost predicate EchoOK(s: State) {
    forall id :: id in s.outbound ==>
      id != 0 && s.outbound[id].client in s.peers && s.outbound[id].until <= s.now + ECHO_SUPPRESS
  }

  /** Noting a packet sweeps the table: nothing in it has expired. */
  lemma NoteSweeps(s: State, c: ClientId, p: MeshPacket)
    requires p.id != 0
    ensures var t := Note(s, c, p);
            && p.id in t.outbound && t.outbound[p.id] == Echo(c, s.now + ECHO_SUPPRESS)
            && (forall id :: id in t.outbound ==> t.now <= t.outbound[id].until)
  {
  }

  /** The step sends a packet with this id or handles one from the radio. */
  predicate Touches(cx: Codec, e: Event, id: u32) {
    match e
    case ClientFrame(_, payload, _, _, _, _) =>
      (var m := cx.parseTo(payload); m.Some? && m.value.SendPacket? && m.value.packet.id == id)
    case RadioFrame(payload, _, _, _) =>
      (var m := cx.parseFrom(payload); m.Some? && m.value.Packet? && m.value.packet.id == id)
    case _ => false
  }

  /** The fields of the echo table, and the clock, as a step about another id leaves them. */
  ghost predicate KeepsEcho(s: State, t: State, id: u32) {
    && s.now <= t.now
    && (id in t.outbound ==> id in s.outbound && t.outbound[id] == s.outbound[id])
    && (id in s.outbound && t.now <= s.outbound[id].until ==> id in t.outbound)
  }

  lemma SameEcho(s: State, t: State, id: u32)
    requires t.now == s.now && t.outbound == s.outbound
    ensures KeepsEcho(s, t, id)
  {
  }

  lemma DeliveredEcho(s: State, t: State, targets: set<ClientId>, p: Payload, o: Origin)
    requires Delivered(s, t, targets, p, o)
    ensures t.now == s.now && t.outbound == s.outbound
  {
    hide Gone, DropOwners;
  }

  lemma RequestEcho(cx: Codec, s: State, c: ClientId, x: u32, nonce: u32, ok: bool)
    requires c in s.peers
    ensures var t := AskRadio(cx, s, c, x, nonce, ok); t.now == s.now && t.outbound == s.outbound
    ensures var t := BeginReplay(cx, s, c, x); t.now == s.now && t.outbound == s.outbound
  {
    hide Originals, Script, DropOwner, Want, CanWrite;
  }

  lemma ForwardEcho(cx: Codec, s: State, c: ClientId, p: MeshPacket, ok: bool, slots: seq<Slot>, id: u32)
    requires Members(s) && Known(slots, s.peers) && Distinct(slots) && p.id != id
    ensures KeepsEcho(s, Forward(cx, s, c, p, ok, slots), id)
  {
    hide Members, Delivered, Broadcast;
    var bytes := cx.marshalTo(SendPacket(p));
    if CanWrite(s, bytes, ok) {
      var noted := Note(Put(s, bytes), c, p);
      SameMembers(s, noted);
      BroadcastDelivers(noted, cx.marshalPacket(p), Synthetic, slots, Some(c));
      DeliveredEcho(noted, Forward(cx, s, c, p, ok, slots), Targets(slots, Some(c)), cx.marshalPacket(p), Synthetic);
    }
  }

  lemma RemoveEcho(s: State, c: ClientId, promo: ClientId)
    requires c in s.peers
    ensures var t := Remove(s, c, promo); t.now == s.now && t.outbound == s.outbound
  {
    hide Promote, DropOwner, Owned, RequestsOf;
  }

  lemma ClientFrameEcho(cx: Codec, s: State, e: Event, id: u32)
    requires Members(s) && Enabled(cx, s, e) && e.ClientFrame? && !Touches(cx, e, id)
    ensures KeepsEcho(s, Step(cx, s, e), id)
  {
    hide Members, FromClient, KeepsEcho, DropOwner, FreshNonce;
    FromClientEcho(cx, s, e.c, e.payload, e.nonce, e.ok, e.slots, e.promo, id);
  }

  lemma FromClientEcho(cx: Codec, s: State, c: ClientId, payload: Payload, nonce: u32, ok: bool, slots: seq<Slot>,
      promo: ClientId, id: u32)
    requires Members(s) && c in s.peers && Known(slots, s.peers) && Distinct(slots)
    requires var m := cx.parseTo(payload); !(m.Some? && m.value.SendPacket? && m.value.packet.id == id)
    ensures KeepsEcho(s, FromClient(cx, s, c, payload, nonce, ok, slots, promo), id)
  {
    hide Members, Forward, Remove, AskRadio, BeginReplay, PutOrFail;
    SameEcho(s, s, id);
    match cx.parseTo(payload)
    case None => PutFrame(s, payload, ok);
    case Some(WantConfig(x)) => RequestEcho(cx, s, c, x, nonce, ok);
    case Some(Disconnect) => RemoveEcho(s, c, promo);
    case Some(SendPacket(p)) => ForwardEcho(cx, s, c, p, ok, slots, id);
    case Some(OtherTo(body)) => PutFrame(s, cx.marshalTo(OtherTo(body)), ok);
  }

  lemma RouteEcho(cx: Codec, s: State, p: MeshPacket, payload: Payload, slots: seq<Slot>, promo: ClientId, id: u32)
    requires Members(s) && Known(slots, s.peers) && Distinct(slots) && p.id != id
    ensures KeepsEcho(s, RoutePacket(cx, s, p, payload, slots, promo), id)
  {
    hide Members, Delivered, Broadcast, Send, WaitedFor, TakeCanned, OriginOf, Consume, KeepsEcho;
    var t := Consume(s, p);
    ConsumeEcho(s, p, id);
    var u := RoutePacket(cx, s, p, payload, slots, promo);
    SameMembers(s, t);
    var origin := OriginOf(s, p);
    if WaitedFor(cx, s, p) {
      TakeFrame(cx, s, p);
      SameEcho(s, u, id);
    } else if origin == None {
      BroadcastDelivers(t, payload, Live, slots, None);
      DeliveredEcho(t, u, Targets(slots, None), payload, Live);
      KeepsFrom(s, t, u, id);
    } else if !SuppressesOriginEcho(p) && origin.value in s.peers {
      SendDelivers(t, origin.value, payload, Reply, promo);
      DeliveredEcho(t, u, {origin.value}, payload, Reply);
      KeepsFrom(s, t, u, id);
    }
  }

  lemma ConsumeEcho(s: State, p: MeshPacket, id: u32)
    ensures var t := Consume(s, p);
            t == s.(outbound := t.outbound) && (p.id != id ==> KeepsEcho(s, t, id))
  {
  }

  lemma KeepsFrom(s: State, t: State, u: State, id: u32)
    requires KeepsEcho(s, t, id) && u.now == t.now && u.outbound == t.outbound
    ensures KeepsEcho(s, u, id)
  {
  }

  lemma CompleteEcho(cx: Codec, s: State, id: u32, promo: ClientId)
    ensures var t := Complete(cx, s, id, promo); t.now == s.now && t.outbound == s.outbound
  {
    hide Promote, DropOwner, Owned, RequestsOf, Accepts, Peer.Accept, Peer.Refuse, Peer.Close, Peer.Room;
  }

  lemma RadioFrameEcho(cx: Codec, s: State, e: Event, id: u32)
    requires Members(s) && Enabled(cx, s, e) && e.RadioFrame? && !Touches(cx, e, id)
    ensures KeepsEcho(s, Step(cx, s, e), id)
  {
    hide Conserves, Waiting, Owned, RequestsOf, Members, Delivered, Broadcast, ReissueAll, RoutePacket, Complete;
    var RadioFrame(payload, rs, slots, promo) := e;
    match cx.parseFrom(payload)
    case None =>
    case Some(m) =>
      var t := s.(cache := s.cache.Updated(m, payload), radio := s.radio + [payload]);
      SameMembers(s, t);
      match m
      case ConfigComplete(n) => CompleteEcho(cx, t, n, promo);
      case Rebooted(_) => ReissueFrame(cx, t.(cache := EMPTY, pending := map[]), t.pending, rs);
      case Packet(p) => RouteEcho(cx, t, p, payload, slots, promo, id);
      case _ =>
        BroadcastDelivers(t, payload, Live, slots, None);
        DeliveredEcho(t, Step(cx, s, e), Targets(slots, None), payload, Live);
  }

  lemma TextEcho(cx: Codec, s: State, p: MeshPacket, ok: bool, slots: seq<Slot>)
    requires Members(s) && Known(slots, s.peers) && Distinct(slots)
    ensures var t := SendText(cx, s, p, ok, slots); t.now == s.now && t.outbound == s.outbound
  {
    hide Members, Delivered, Broadcast, LocalNode, CanWrite;
    var sent, copy := Put(s, cx.marshalTo(SendPacket(p))), cx.marshalPacket(p);
    SameMembers(s, sent);
    BroadcastDelivers(sent, copy, Synthetic, slots, None);
    DeliveredEcho(sent, Broadcast(sent, copy, Synthetic, slots, None), Targets(slots, None), copy, Synthetic);
  }

  lemma ConnectEcho(s: State, c: ClientId)
    ensures Connect(s, c).now == s.now && Connect(s, c).outbound == s.outbound
  {
  }

  lemma OtherEcho(cx: Codec, s: State, e: Event)
    requires Members(s) && Enabled(cx, s, e) && !e.ClientFrame? && !e.RadioFrame?
    ensures var t := Step(cx, s, e); s.now <= t.now && t.outbound == s.outbound
  {
    hide Members, RemoveAll, Removed, FetchBegin, FetchEnd, Drain, ReplayNext, SendText, Connect,
      BootstrapConfig, Remove,
      FreshNonce;
    match e
    case Connecting(c) => ConnectEcho(s, c);
    case Replaying(c, ok, promo) => LoopEcho(s, e);
    case Writing(c, ok, n, promo) => LoopEcho(s, e);
    case ReadFailed(c, promo) => RemoveEcho(s.With(c, s.peers[c].(reading := false)), c, promo);
    case WriterStopped(c, _, promo) => RemoveEcho(s.With(c, s.peers[c].(writing := false)), c, promo);
    case Bootstrapping(nonce, ok) => BootstrapFrame(cx, s, nonce, ok);
    case Fetching(f, packet, ok) => FetchFrame(cx, s, f, packet, ok);
    case Fetched(f, take) => FetchEndEcho(s, f, take);
    case Texting(packet, ok, slots) => TextEcho(cx, s, packet, ok, slots);
    case Closing(slots) =>
      RemoveAllEffect(s, slots);
      RemovedEcho(s, RemoveAll(s, slots), ClosedBy(slots));
    case _ =>
  }

  lemma FetchEndEcho(s: State, f: nat, take: bool)
    requires f in s.canned.fetches
    ensures var t := FetchEnd(s, f, take); t.now == s.now && t.outbound == s.outbound
  {
  }

  lemma RemovedEcho(s: State, t: State, cs: set<ClientId>)
    requires Removed(s, t, cs)
    ensures t.now == s.now && t.outbound == s.outbound
  {
    hide DropOwners;
  }

  lemma LoopEcho(s: State, e: Event)
    requires e.Replaying? ==>
             e.c in s.peers && s.peers[e.c].replay.Some? && s.peers[e.c].replay.value.rest != [] &&
               s.peers[e.c].hist.replays != []
    requires e.Writing? ==> e.c in s.peers && s.peers[e.c].queue != []
    ensures e.Replaying? ==> var t := ReplayNext(s, e.c, e.ok, e.promo); t.now == s.now && t.outbound == s.outbound
    ensures e.Writing? ==> var t := Drain(s, e.c, e.ok, e.n, e.promo); t.now == s.now && t.outbound == s.outbound
  {
    hide Conserves, Waiting, Owned, RequestsOf, Promote, DropOwner;
  }

  /** A step about another id keeps the entry until it expires, and makes no new one. */
  lemma StepEcho(cx: Codec, s: State, e: Event, id: u32)
    requires Members(s) && Enabled(cx, s, e) && !Touches(cx, e, id)
    ensures KeepsEcho(s, Step(cx, s, e), id)
  {
    hide Members, Step, Enabled;
    match e
    case ClientFrame(_, _, _, _, _, _) => ClientFrameEcho(cx, s, e, id);
    case RadioFrame(_, _, _, _) => RadioFrameEcho(cx, s, e, id);
    case _ => OtherEcho(cx, s, e);
  }

  /** The same over a whole run of steps about other ids. */
  lemma {:induction false} RunEcho(cx: Codec, s: State, es: seq<Event>, id: u32)
    requires Members(s) && Feasible(cx, s, es)
    requires forall i :: 0 <= i < |es| ==> !Touches(cx, es[i], id)
    ensures Members(After(cx, s, es)) && KeepsEcho(s, After(cx, s, es), id)
  {
    hide Members, Step, Enabled, Touches;
    if es != [] {
      var init, e := es[..|es| - 1], es[|es| - 1];
      RunEcho(cx, s, init, id);
      StepMembers(cx, After(cx, s, init), e);
      StepEcho(cx, After(cx, s, init), e, id);
    }
  }

  // ----- one packet, its echo, and a second one

  ghost predicate Sends(cx: Codec, s: State, e: Event, p: MeshPacket) {
    && Enabled(cx, s, e) && e.ClientFrame? && cx.parseTo(e.payload) == Some(SendPacket(p))
    && (s.primary == Some(e.c) || !s.readOnly) && !s.down && e.ok && |cx.marshalTo(SendPacket(p))| <= 65535
  }

  /** Every client but the sender has one more copy in its queue, or had a full queue and was
      removed without one. */
  ghost predicate Copied(s: State, t: State, sender: ClientId, copy: Payload) {
    && t.peers.Keys == s.peers.Keys
    && (forall d :: d in s.clients && d in s.peers && d != sender ==>
          if d in t.clients then t.peers[d].hist.log == s.peers[d].hist.log + [Entry(copy, Synthetic)]
          else |s.peers[d].queue| >= 64 && t.peers[d].closed && t.peers[d].hist.log == s.peers[d].hist.log)
    && (sender in s.peers ==> t.peers[sender] == s.peers[sender])
  }

  /** The three ports whose echo is kept from the sender, one by one. */
  predicate OnChatPort(p: MeshPacket) {
    match p.decoded
    case None => false
    case Some(Data(port, _)) =>
      match port
      case TextMessage => true
      case TextMessageCompressed => true
      case ReplyApp => true
      case Admin => false
      case OtherPort(_) => false
  }

  /** The echo was offered to the sender, or on chat ports to nobody. */
  ghost predicate Returned(s: State, t: State, sender: ClientId, p: MeshPacket, echo: Payload) {
    && t.peers.Keys == s.peers.Keys
    && (forall d :: d in s.peers ==>
          t.peers[d] == if d == sender && !OnChatPort(p) then s.peers[d].Offered(echo, Reply) else s.peers[d])
  }

  /** The frame went to every client that was not removed for a full queue. */
  ghost predicate Spread(s: State, t: State, frame: Payload) {
    && t.peers.Keys == s.peers.Keys
    && (forall d :: d in s.clients && d in s.peers ==>
          if d in t.clients then t.peers[d].hist.log == s.peers[d].hist.log + [Entry(frame, Live)]
          else |s.peers[d].queue| >= 64 && t.peers[d].closed && t.peers[d].hist.log == s.peers[d].hist.log)
  }

  /** The echo of packet id is expected for client c. */
  ghost predicate Expected(s: State, id: u32, c: ClientId, until: int) {
    id in s.outbound && s.outbound[id] == Echo(c, until)
  }

  /** When a client's packet goes out, every other client gets exactly one copy or is
      removed, the sender gets none, and the echo is expected for thirty seconds. */
  lemma PacketCopied(cx: Codec, s: State, e: Event, p: MeshPacket)
    requires Members(s) && Sends(cx, s, e, p) && p.id != 0
    ensures var t := Step(cx, s, e);
            && Members(t) && t.now == s.now
            && Expected(t, p.id, e.c, s.now + 30_000_000_000)
            && (forall id :: id in t.outbound ==> t.now <= t.outbound[id].until)
            && Copied(s, t, e.c, cx.marshalPacket(p))
  {
    hide Conserves, Waiting, Owned, RequestsOf, Members, Broadcast, Delivered;
    var bytes := cx.marshalTo(SendPacket(p));
    var noted := Note(Put(s, bytes), e.c, p);
    NoteSweeps(Put(s, bytes), e.c, p);
    SameMembers(s, noted);
    BroadcastOnceEach(noted, cx.marshalPacket(p), Synthetic, e.slots, Some(e.c));
    BroadcastDelivers(noted, cx.marshalPacket(p), Synthetic, e.slots, Some(e.c));
    DeliveredEcho(noted, Step(cx, s, e), Targets(e.slots, Some(e.c)), cx.marshalPacket(p), Synthetic);
    DeliveredKeys(noted, Step(cx, s, e), Targets(e.slots, Some(e.c)), cx.marshalPacket(p), Synthetic);
  }

  lemma DeliveredKeys(s: State, t: State, targets: set<ClientId>, p: Payload, o: Origin)
    requires Delivered(s, t, targets, p, o)
    ensures t.peers.Keys == s.peers.Keys
  {
  }

  /** A canned reply that a call waits for. */
  predicate Awaited(cx: Codec, s: State, p: MeshPacket) {
    && p.id in s.canned.waiters && p.decoded.Some? && p.decoded.value.port == Admin
    && cx.adminReply(p.decoded.value.payload).Some?
  }

  /** A packet from the radio with this id, which no call takes as its canned reply. */
  ghost predicate Echoed(cx: Codec, s: State, e: Event, p: MeshPacket) {
    && Enabled(cx, s, e) && e.RadioFrame? && cx.parseFrom(e.payload) == Some(Packet(p)) && !Awaited(cx, s, p)
  }

  /** An expected echo goes to its sender only, or on chat ports to nobody. */
  lemma EchoToOrigin(cx: Codec, s: State, e: Event, p: MeshPacket, c: ClientId, until: int)
    requires Members(s) && Echoed(cx, s, e, p) && p.id != 0
    requires Expected(s, p.id, c, until) && s.now <= until && c in s.clients
    ensures var t := Step(cx, s, e);
            Members(t) && p.id !in t.outbound && Returned(s, t, c, p, e.payload)
  {
    hide Broadcast, Conserves, DropOwners, Send, RoutePacket, Consume, Members, Peer.Offered;
    var s1 := s.(cache := s.cache.Updated(Packet(p), e.payload), radio := s.radio + [e.payload]);
    var t := Consume(s1, p);
    ConsumeTakes(s1, p);
    ExpectedRoute(cx, s, s1, p, e.payload, e.slots, e.promo, c, until);
    SameMembers(s, t);
    if !OnChatPort(p) {
      SendDelivers(t, c, e.payload, Reply, e.promo);
    }
  }

  lemma ConsumeTakes(s: State, p: MeshPacket)
    requires p.id != 0
    ensures Consume(s, p) == s.(outbound := s.outbound - {p.id})
  {
  }

  lemma ExpectedRoute(cx: Codec, s: State, t: State, p: MeshPacket, payload: Payload, slots: seq<Slot>, promo: ClientId,
      c: ClientId, until: int)
    requires Members(s) && Known(slots, t.peers) && !Awaited(cx, s, p) && p.id != 0
    requires Expected(s, p.id, c, until) && s.now <= until && c in s.clients
    requires t == s.(cache := t.cache, radio := t.radio)
    ensures c in t.peers
    ensures Consume(t, p).peers == t.peers
    ensures RoutePacket(cx, t, p, payload, slots, promo) ==
            if OnChatPort(p) then Consume(t, p) else Send(Consume(t, p), c, payload, Reply, promo)
  {
    hide Broadcast, Send;
  }

  /** The same port by port. */
  lemma EchoByPort(cx: Codec, s: State, e: Event, p: MeshPacket, c: ClientId, until: int)
    requires Members(s) && Echoed(cx, s, e, p) && p.id != 0
    requires Expected(s, p.id, c, until) && s.now <= until && c in s.clients && c in s.peers
    ensures var t := Step(cx, s, e);
            && (p.decoded == None || p.decoded.value.port == Admin || p.decoded.value.port.OtherPort? ==>
                  t.peers == s.peers[c := s.peers[c].Offered(e.payload, Reply)])
            && (p.decoded.Some? && p.decoded.value.port in {TextMessage, TextMessageCompressed, ReplyApp} ==>
                  t.peers == s.peers)
  {
    hide Members, Expected, Enabled, Step, Awaited, Peer.Offered;
    EchoToOrigin(cx, s, e, p, c, until);
  }

  /** Nobody waits for the packet's echo: there is no entry for it, or it has expired, or its
      client has gone. */
  predicate Unclaimed(s: State, p: MeshPacket) {
    || p.id == 0 || p.id !in s.outbound || s.now > s.outbound[p.id].until
    || (s.outbound[p.id].client in s.peers && s.outbound[p.id].client !in s.clients)
  }

  lemma UnclaimedIsBroadcast(cx: Codec, s: State, p: MeshPacket, payload: Payload, slots: seq<Slot>, promo: ClientId)
    requires Members(s) && Known(slots, s.peers) && !WaitedFor(cx, s, p) && Unclaimed(s, p)
    ensures RoutePacket(cx, s, p, payload, slots, promo) == Broadcast(Consume(s, p), payload, Live, slots, None)
    ensures Consume(s, p) == s.(outbound := Consume(s, p).outbound)
  {
    hide Broadcast, Send;
  }

  /** An echo nobody is waiting for goes to every client. */
  lemma EchoBroadcast(cx: Codec, s: State, e: Event, p: MeshPacket)
    requires Members(s) && Echoed(cx, s, e, p) && Unclaimed(s, p)
    ensures Members(Step(cx, s, e)) && Spread(s, Step(cx, s, e), e.payload)
  {
    hide Broadcast, Members, RoutePacket, Enumerates, WaitedFor, Consume;
    var t := s.(cache := s.cache.Updated(Packet(p), e.payload), radio := s.radio + [e.payload]);
    SameMembers(s, t);
    SameWaiters(cx, s, t, p);
    UnclaimedIsBroadcast(cx, t, p, e.payload, e.slots, e.promo);
    SameMembers(t, Consume(t, p));
    BroadcastOnceEach(Consume(t, p), e.payload, Live, e.slots, None);
  }

  lemma SameWaiters(cx: Codec, s: State, t: State, p: MeshPacket)
    requires t.canned == s.canned
    ensures WaitedFor(cx, t, p) <==> Awaited(cx, s, p)
  {
  }

  /** An echo that comes after thirty seconds, or after its sender has gone, goes to everybody. */
  lemma LateEcho(cx: Codec, s: State, e0: Event, es0: seq<Event>, e1: Event, p: MeshPacket, q: MeshPacket, t: State,
      u: State)
    requires Members(s) && Sends(cx, s, e0, p) && p.id != 0 && q.id == p.id
    requires forall i :: 0 <= i < |es0| ==> !Touches(cx, es0[i], p.id)
    requires t == Step(cx, s, e0) && Feasible(cx, t, es0) && u == After(cx, t, es0) && Echoed(cx, u, e1, q)
    requires u.now > s.now + 30_000_000_000 || (e0.c in u.peers && e0.c !in u.clients)
    ensures Spread(u, Step(cx, u, e1), e1.payload)
  {
    hide Members, Step, Enabled, Touches, Feasible, After, Awaited, Copied, Spread;
    PacketCopied(cx, s, e0, p);
    RunEcho(cx, t, es0, p.id);
    EchoBroadcast(cx, u, e1, q);
  }

  /** The life of one client packet with a non-zero id. e0 sends it; es0, es1 are any
      steps about other ids; e1 is its echo within thirty seconds, while the sender is
      connected; e2 is a second echo. The copies go out at e0, the first echo goes to the
      sender or to nobody, the second is broadcast. */
  lemma EchoOnce(cx: Codec, s: State, e0: Event, es0: seq<Event>, e1: Event, es1: seq<Event>, e2: Event,
                 p: MeshPacket, q: MeshPacket, r: MeshPacket, t: State, u: State, v: State, w: State)
    requires Members(s) && Sends(cx, s, e0, p) && p.id != 0 && q.id == p.id && r.id == p.id
    requires forall i :: 0 <= i < |es0| ==> !Touches(cx, es0[i], p.id)
    requires forall i :: 0 <= i < |es1| ==> !Touches(cx, es1[i], p.id)
    requires t == Step(cx, s, e0) && Feasible(cx, t, es0) && u == After(cx, t, es0)
    requires Echoed(cx, u, e1, q) && e0.c in u.clients && u.now <= s.now + 30_000_000_000
    requires v == Step(cx, u, e1) && Feasible(cx, v, es1) && w == After(cx, v, es1)
    requires Echoed(cx, w, e2, r)
    ensures Copied(s, t, e0.c, cx.marshalPacket(p))
    ensures Returned(u, v, e0.c, q, e1.payload)
    ensures Spread(w, Step(cx, w, e2), e2.payload)
  {
    hide Members, Step, Enabled, Touches, Feasible, After, Awaited, Copied, Returned, Spread;
    PacketCopied(cx, s, e0, p);
    RunEcho(cx, t, es0, p.id);
    EchoToOrigin(cx, u, e1, q, e0.c, s.now + 30_000_000_000);
    RunEcho(cx, v, es1, p.id);
    EchoBroadcast(cx, w, e2, r);
  }
}
