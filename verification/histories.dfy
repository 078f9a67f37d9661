/** What every step leaves of the past: logs only grow, a closed connection is frozen, and
    radio frames, requests, calls and canned replies are recorded exactly when they occur. */
module Histories {
  import opened Protocol
  import opened ConfigCaches
  import opened Counting
  import opened Model
  import opened Membership
  import opened CannedRuns
  import CannedMessages
  import Frame

  /** qr is the same connection as pr at a later moment. */
  ghost predicate Later(pr: Peer, qr: Peer) {
    && pr.hist.log <= qr.hist.log
    && pr.hist.addressed <= qr.hist.addressed
    && pr.hist.written <= qr.hist.written
    && pr.hist.replays <= qr.hist.replays
    && pr.hist.joined == qr.hist.joined
    && pr.conn <= qr.conn
    && (qr.reading ==> pr.reading) && (qr.writing ==> pr.writing)
    && (pr.closed ==> qr.closed && qr.conn == pr.conn && qr.hist.written == pr.hist.written)
  }

  /** Later, without having sent a request. */
  ghost predicate Continues(pr: Peer, qr: Peer) {
    Later(pr, qr) && qr.hist.asked == pr.hist.asked && qr.hist.replays == pr.hist.replays
  }

  /** The calls that wait for a canned reply, and the packet ids they wait for. */
  function Waiters(cn: Canned): map<nat, u32> {
    map f | f in cn.fetches :: cn.fetches[f].id
  }

  /** The records that do not belong to a connection. */
  ghost predicate SameRecords(s: State, t: State) {
    && t.radio == s.radio && t.taken == s.taken && t.served == s.served && t.calls == s.calls
    && Waiters(t.canned) == Waiters(s.canned)
  }

  /** Every connection of s continues in t, those that are new have asked nothing, and nothing
      else is put on record. */
  ghost predicate Evolves(s: State, t: State) {
    && SameRecords(s, t)
    && (forall c :: c in s.peers ==> c in t.peers && Continues(s.peers[c], t.peers[c]))
    && (forall c :: c in t.peers && c !in s.peers ==>
          t.peers[c].hist.asked == multiset{} && t.peers[c].hist.replays == [])
  }

  lemma EvolvesAgain(s: State, t: State, u: State)
    requires Evolves(s, t) && Evolves(t, u) && t.peers.Keys == s.peers.Keys
    ensures Evolves(s, u)
  {
    forall c | c in s.peers
      ensures c in u.peers && Continues(s.peers[c], u.peers[c])
    {
      assert Continues(s.peers[c], t.peers[c]) && Continues(t.peers[c], u.peers[c]);
    }
  }

  lemma SamePeersEvolve(s: State, t: State)
    requires t.peers == s.peers && SameRecords(s, t)
    ensures Evolves(s, t)
  {
  }

  lemma OneEvolves(s: State, t: State, c: ClientId)
    requires c in s.peers && c in t.peers && t.peers == s.peers[c := t.peers[c]]
    requires SameRecords(s, t)
    requires Continues(s.peers[c], t.peers[c])
    ensures Evolves(s, t)
  {
  }

  lemma RemoveEvolves(s: State, c: ClientId, promo: ClientId)
    requires c in s.peers
    ensures Evolves(s, Remove(s, c, promo)) && Remove(s, c, promo).peers.Keys == s.peers.Keys
  {
    hide Promote, DropOwner;
  }

  lemma DeliveredEvolves(s: State, t: State, targets: set<ClientId>, p: Payload, o: Origin)
    requires Delivered(s, t, targets, p, o)
    ensures Evolves(s, t) && t.peers.Keys == s.peers.Keys
  {
    hide Gone, DropOwners;
  }

  lemma BroadcastEvolves(s: State, p: Payload, o: Origin, slots: seq<Slot>, except: Option<ClientId>)
    requires Members(s) && Known(slots, s.peers) && Distinct(slots)
    ensures Evolves(s, Broadcast(s, p, o, slots, except))
  {
    hide Members, Delivered, Broadcast, Evolves;
    BroadcastDelivers(s, p, o, slots, except);
    DeliveredEvolves(s, Broadcast(s, p, o, slots, except), Targets(slots, except), p, o);
  }

  lemma SendEvolves(s: State, c: ClientId, p: Payload, o: Origin, promo: ClientId)
    requires Members(s) && c in s.peers
    ensures Evolves(s, Send(s, c, p, o, promo))
  {
    hide Members, Delivered, Send, Evolves;
    SendDelivers(s, c, p, o, promo);
    DeliveredEvolves(s, Send(s, c, p, o, promo), {c}, p, o);
  }

  lemma EvolvesFrom(s: State, t: State, u: State)
    requires t.peers == s.peers && SameRecords(s, t) && Evolves(t, u)
    ensures Evolves(s, u)
  {
  }

  /** The packet is a canned reply that a waiter is registered for: what is recorded of it. */
  function Intake(cx: Codec, s: State, p: MeshPacket): seq<Taken> {
    if WaitedFor(cx, s, p) then [Taken(p.id, cx.CannedReply(p).value, s.now, s.canned.waiters[p.id])] else []
  }

  /** The connection once it has recorded a request that the cache answers. */
  function Answered(s: State, c: ClientId, x: u32): Peer
    requires c in s.peers
  {
    var pr := s.peers[c].Asked(x);
    pr.(hist := pr.hist.(replays := pr.hist.replays + [Cause(x, s.cache)]))
  }

  /** s once it has recorded what the event brings. */
  ghost function Recorded(cx: Codec, s: State, e: Event): State
    requires (e.ClientFrame? ==> e.c in s.peers) && (e.Fetched? ==> e.f in s.canned.fetches)
  {
    match e
    case ClientFrame(c, payload, _, _, _, _) =>
      (match cx.parseTo(payload)
       case Some(WantConfig(x)) => s.With(c, if s.cache.Ready() then Answered(s, c, x) else s.peers[c].Asked(x))
       case _ => s)
    case RadioFrame(payload, _, _, _) =>
      (match cx.parseFrom(payload)
       case None => s
       case Some(Packet(p)) => s.(radio := s.radio + [payload], taken := s.taken + Intake(cx, s, p))
       case Some(_) => s.(radio := s.radio + [payload]))
    case Fetching(f, packet, ok) => FetchBegin(cx, s, f, packet, ok)
    case Fetched(f, take) => FetchEnd(s, f, take)
    case _ => s
  }

  // ----- client frames

  lemma AskEvolves(cx: Codec, s: State, c: ClientId, x: u32, nonce: u32, ok: bool)
    requires c in s.peers
    ensures Evolves(s.With(c, s.peers[c].Asked(x)), AskRadio(cx, s, c, x, nonce, ok))
  {
    hide Originals, DropOwner, Want, CanWrite;
  }

  lemma BeginEvolves(cx: Codec, s: State, c: ClientId, x: u32)
    requires c in s.peers
    ensures Evolves(s.With(c, Answered(s, c, x)), BeginReplay(cx, s, c, x))
  {
    hide Script;
  }

  lemma ForwardEvolves(cx: Codec, s: State, c: ClientId, p: MeshPacket, ok: bool, slots: seq<Slot>)
    requires Members(s) && Known(slots, s.peers) && Distinct(slots)
    ensures Evolves(s, Forward(cx, s, c, p, ok, slots))
  {
    hide Members, Broadcast, Evolves;
    var bytes := cx.marshalTo(SendPacket(p));
    SamePeersEvolve(s, s.(down := true));
    if CanWrite(s, bytes, ok) {
      var sent := Note(Put(s, bytes), c, p);
      SameMembers(s, sent);
      BroadcastEvolves(sent, cx.marshalPacket(p), Synthetic, slots, Some(c));
      EvolvesFrom(s, sent, Forward(cx, s, c, p, ok, slots));
    }
  }

  lemma ClientFrameEvolves(cx: Codec, s: State, e: Event)
    requires Members(s) && e.ClientFrame? && Enabled(cx, s, e)
    ensures Evolves(Recorded(cx, s, e), FromClient(cx, s, e.c, e.payload, e.nonce, e.ok, e.slots, e.promo))
  {
    hide Members, Evolves, FromClient, Recorded, DropOwner, FreshNonce;
    FromClientEvolves(cx, s, e);
  }

  lemma RecordedRequest(cx: Codec, s: State, e: Event)
    requires e.ClientFrame? && e.c in s.peers
    ensures Recorded(cx, s, e) ==
            match cx.parseTo(e.payload)
            case Some(WantConfig(x)) =>
              s.With(e.c, if s.cache.Ready() then Answered(s, e.c, x) else s.peers[e.c].Asked(x))
            case _ => s
  {
  }

  lemma FromClientEvolves(cx: Codec, s: State, e: Event)
    requires Members(s) && e.ClientFrame? && e.c in s.peers && Known(e.slots, s.peers) && Distinct(e.slots)
    ensures Evolves(Recorded(cx, s, e), FromClient(cx, s, e.c, e.payload, e.nonce, e.ok, e.slots, e.promo))
  {
    hide Members, Evolves, Forward, Remove, AskRadio, BeginReplay, PutOrFail, SameRecords, Recorded, Answered,
      Peer.Asked;
    var ClientFrame(c, payload, nonce, ok, slots, promo) := e;
    RecordedRequest(cx, s, e);
    PutEvolves(s, payload, ok);
    match cx.parseTo(payload)
    case None =>
    case Some(WantConfig(x)) =>
      AskEvolves(cx, s, c, x, nonce, ok);
      BeginEvolves(cx, s, c, x);
    case Some(Disconnect) => RemoveEvolves(s, c, promo);
    case Some(SendPacket(p)) => ForwardEvolves(cx, s, c, p, ok, slots);
    case Some(OtherTo(body)) => PutEvolves(s, cx.marshalTo(OtherTo(body)), ok);
  }

  lemma PutEvolves(s: State, p: Payload, ok: bool)
    ensures Evolves(s, s) && Evolves(s, PutOrFail(s, p, ok))
  {
    SamePeersEvolve(s, s);
    SamePeersEvolve(s, PutOrFail(s, p, ok));
  }

  // ----- radio frames

  lemma CompleteEvolves(cx: Codec, s: State, id: u32, promo: ClientId)
    requires Members(s)
    ensures Evolves(s, Complete(cx, s, id, promo))
  {
    hide Members, Evolves, Send;
    SamePeersEvolve(s, s);
    if id in s.pending {
      var req := s.pending[id];
      var t := TakeRequest(s, id);
      SameMembers(s, t);
      SamePeersEvolve(s, t);
      if req.owner.Some? && req.owner.value in s.peers {
        SendEvolves(t, req.owner.value, cx.marshalComplete(req.original), Answer, promo);
        EvolvesFrom(s, t, Complete(cx, s, id, promo));
      }
    }
  }

  lemma TakeRecorded(cx: Codec, s: State, p: MeshPacket)
    requires WaitedFor(cx, s, p)
    ensures var t := TakeCanned(cx, s, p);
            t.peers == s.peers && SameRecords(s.(taken := s.taken + Intake(cx, s, p)), t)
  {
    hide CannedMessages.Parse;
  }

  lemma RouteEvolves(cx: Codec, s: State, p: MeshPacket, payload: Payload, slots: seq<Slot>, promo: ClientId)
    requires Members(s) && Known(slots, s.peers) && Distinct(slots)
    ensures Evolves(s.(taken := s.taken + Intake(cx, s, p)), RoutePacket(cx, s, p, payload, slots, promo))
  {
    hide Members, Broadcast, Send, Evolves, WaitedFor, TakeCanned, OriginOf;
    assert !WaitedFor(cx, s, p) ==> s.(taken := s.taken + Intake(cx, s, p)) == s;
    var t := Consume(s, p);
    var u := RoutePacket(cx, s, p, payload, slots, promo);
    SameMembers(s, t);
    if WaitedFor(cx, s, p) {
      TakeRecorded(cx, s, p);
      SamePeersEvolve(s.(taken := s.taken + Intake(cx, s, p)), u);
    } else if OriginOf(s, p) == None {
      BroadcastEvolves(t, payload, Live, slots, None);
      EvolvesFrom(s, t, u);
    } else if !SuppressesOriginEcho(p) && OriginOf(s, p).value in s.peers {
      SendEvolves(t, OriginOf(s, p).value, payload, Reply, promo);
      EvolvesFrom(s, t, u);
    } else {
      SamePeersEvolve(s, u);
    }
  }

  lemma RebootEvolves(cx: Codec, s: State, rs: seq<Reissue>)
    requires forall i :: 0 <= i < |rs| ==> rs[i].key in s.pending
    ensures Evolves(s, Reboot(cx, s, rs))
  {
    hide Evolves, ReissueAll;
    ReissueFrame(cx, s.(cache := EMPTY, pending := map[]), s.pending, rs);
    SamePeersEvolve(s, Reboot(cx, s, rs));
  }

  lemma RadioFrameEvolves(cx: Codec, s: State, e: Event)
    requires Members(s) && e.RadioFrame? && Enabled(cx, s, e)
    ensures Evolves(Recorded(cx, s, e), FromDevice(cx, s, e.payload, e.rs, e.slots, e.promo))
  {
    hide Evolves, Recorded, FromDevice, Members, Reissues;
    match cx.parseFrom(e.payload)
    case None => NoiseEvolves(cx, s, e);
    case Some(m) => MessageEvolves(cx, s, e, m);
  }

  lemma NoiseEvolves(cx: Codec, s: State, e: Event)
    requires e.RadioFrame? && cx.parseFrom(e.payload) == None && Known(e.slots, s.peers)
    requires forall i :: 0 <= i < |e.rs| ==> e.rs[i].key in s.pending
    ensures Evolves(Recorded(cx, s, e), FromDevice(cx, s, e.payload, e.rs, e.slots, e.promo))
  {
    SamePeersEvolve(s, s);
  }

  /** The state once the frame is logged, as readSerial sees it and as the records do. */
  lemma LoggedFrame(cx: Codec, s: State, e: Event, m: FromRadio)
    requires e.RadioFrame? && cx.parseFrom(e.payload) == Some(m)
    ensures var t, r := s.(cache := s.cache.Updated(m, e.payload), radio := s.radio + [e.payload]), Recorded(cx, s, e);
            && r.peers == s.peers
            && (!m.Packet? ==> SameRecords(r, t))
            && (m.Packet? ==> SameRecords(r, t.(taken := t.taken + Intake(cx, t, m.packet))))
  {
  }

  lemma MessageEvolves(cx: Codec, s: State, e: Event, m: FromRadio)
    requires Members(s) && e.RadioFrame? && cx.parseFrom(e.payload) == Some(m)
    requires Known(e.slots, s.peers) && Distinct(e.slots)
    requires forall i :: 0 <= i < |e.rs| ==> e.rs[i].key in s.pending
    ensures Evolves(Recorded(cx, s, e), FromDevice(cx, s, e.payload, e.rs, e.slots, e.promo))
  {
    hide Members, Evolves, Broadcast, Complete, RoutePacket, Reboot, ReissueAll, Recorded, SameRecords, Intake;
    var RadioFrame(payload, rs, slots, promo) := e;
    var t := s.(cache := s.cache.Updated(m, payload), radio := s.radio + [payload]);
    SameMembers(s, t);
    LoggedFrame(cx, s, e, m);
    var r, u := Recorded(cx, s, e), FromDevice(cx, s, payload, rs, slots, promo);
    match m
    case ConfigComplete(id) =>
      CompleteEvolves(cx, t, id, promo);
      EvolvesFrom(r, t, u);
    case Rebooted(_) =>
      RebootEvolves(cx, t, rs);
      EvolvesFrom(r, t, u);
    case Packet(p) =>
      RouteEvolves(cx, t, p, payload, slots, promo);
      EvolvesFrom(r, t.(taken := t.taken + Intake(cx, t, p)), u);
    case _ =>
      BroadcastEvolves(t, payload, Live, slots, None);
      EvolvesFrom(r, t, u);
  }

  // ----- the other steps

  lemma AdvanceLater(pr: Peer, ok: bool)
    requires pr.replay.Some? && pr.replay.value.rest != [] && pr.hist.replays != []
    ensures Continues(pr, pr.Advance(ok))
  {
  }

  lemma DrainedLater(pr: Peer, ok: bool, n: nat)
    requires pr.queue != []
    ensures Continues(pr, pr.Drained(ok, n))
  {
    hide Frame.FrameBytes;
  }

  /** A connection changes, and may be removed. */
  lemma ChangedEvolves(s: State, t: State, c: ClientId, promo: ClientId)
    requires c in s.peers && c in t.peers && t.peers == s.peers[c := t.peers[c]]
    requires SameRecords(s, t)
    requires Continues(s.peers[c], t.peers[c])
    ensures Evolves(s, t) && Evolves(s, Remove(t, c, promo))
  {
    hide Remove, Evolves, Continues;
    OneEvolves(s, t, c);
    RemoveEvolves(t, c, promo);
    EvolvesAgain(s, t, Remove(t, c, promo));
  }

  lemma LoopsEvolve(cx: Codec, s: State, e: Event)
    requires Enabled(cx, s, e) && (e.Replaying? || e.Writing? || e.ReadFailed? || e.WriterStopped?)
    ensures Evolves(s, Step(cx, s, e))
  {
    hide Evolves, Remove, Peer.Advance, Peer.Drained, Peer.Writes;
    match e
    case Replaying(c, ok, promo) =>
      AdvanceLater(s.peers[c], ok);
      ChangedEvolves(s, AdvanceReplay(s, c, ok), c, promo);
    case Writing(c, ok, n, promo) =>
      DrainedLater(s.peers[c], ok, n);
      ChangedEvolves(s, s.With(c, s.peers[c].Drained(ok, n)), c, promo);
    case ReadFailed(c, promo) => ChangedEvolves(s, s.With(c, s.peers[c].(reading := false)), c, promo);
    case WriterStopped(c, byBroker, promo) => ChangedEvolves(s, s.With(c, s.peers[c].(writing := false)), c, promo);
    case _ => assert false;
  }

  lemma {:induction false} RemoveAllEvolves(s: State, slots: seq<Slot>)
    requires Known(slots, s.peers)
    ensures Evolves(s, RemoveAll(s, slots))
  {
    hide Evolves, Remove;
    if slots == [] {
      SamePeersEvolve(s, s);
    } else {
      var front, last := slots[..|slots| - 1], slots[|slots| - 1];
      RemoveAllEvolves(s, front);
      RemoveEvolves(RemoveAll(s, front), last.c, last.promo);
      EvolvesAgain(s, RemoveAll(s, front), RemoveAll(s, slots));
    }
  }

  lemma TextEvolves(cx: Codec, s: State, p: MeshPacket, ok: bool, slots: seq<Slot>)
    requires Members(s) && Known(slots, s.peers) && Distinct(slots)
    ensures Evolves(s, SendText(cx, s, p, ok, slots))
  {
    hide Members, Evolves, Broadcast, LocalNode;
    var sent := Put(s, cx.marshalTo(SendPacket(p)));
    SamePeersEvolve(s, s);
    SameMembers(s, sent);
    BroadcastEvolves(sent, cx.marshalPacket(p), Synthetic, slots, None);
    EvolvesFrom(s, sent, Broadcast(sent, cx.marshalPacket(p), Synthetic, slots, None));
  }

  lemma ConnectEvolves(s: State, c: ClientId)
    requires c !in s.peers
    ensures Evolves(s, Connect(s, c))
  {
  }

  lemma QuietEvolves(cx: Codec, s: State, e: Event)
    requires Enabled(cx, s, e) && (e.Bootstrapping? || e.Failing? || e.Ticking? || e.Connecting?)
    ensures Evolves(s, Step(cx, s, e))
  {
    hide Evolves, Connect, BootstrapConfig, FreshNonce;
    match e
    case Connecting(c) => ConnectEvolves(s, c);
    case Bootstrapping(nonce, ok) =>
      BootstrapFrame(cx, s, nonce, ok);
      SamePeersEvolve(s, Step(cx, s, e));
    case Failing => SamePeersEvolve(s, Step(cx, s, e));
    case Ticking(_) => SamePeersEvolve(s, Step(cx, s, e));
    case _ => assert false;
  }

  lemma CallsEvolve(cx: Codec, s: State, e: Event)
    requires Enabled(cx, s, e) && (e.Fetching? || e.Fetched?)
    ensures Recorded(cx, s, e) == Step(cx, s, e) && Evolves(Step(cx, s, e), Step(cx, s, e))
  {
    hide Evolves, FetchBegin, FetchEnd;
    SamePeersEvolve(Step(cx, s, e), Step(cx, s, e));
  }

  /** Every step continues every connection; only a WantConfigId adds to what it asked, and
      nothing goes on record but what the event brings. */
  lemma StepEvolves(cx: Codec, s: State, e: Event)
    requires Members(s) && Enabled(cx, s, e)
    ensures (e.ClientFrame? ==> e.c in s.peers) && (e.Fetched? ==> e.f in s.canned.fetches)
    ensures Evolves(Recorded(cx, s, e), Step(cx, s, e))
  {
    hide Members, Evolves, FromClient, FromDevice, RemoveAll, SendText, Reissues, FetchBegin, FetchEnd;
    match e
    case ClientFrame(_, _, _, _, _, _) => ClientFrameEvolves(cx, s, e);
    case RadioFrame(_, _, _, _) => RadioFrameEvolves(cx, s, e);
    case Texting(packet, ok, slots) => TextEvolves(cx, s, packet, ok, slots);
    case Closing(slots) => RemoveAllEvolves(s, slots);
    case Replaying(_, _, _) => LoopsEvolve(cx, s, e);
    case Writing(_, _, _, _) => LoopsEvolve(cx, s, e);
    case ReadFailed(_, _) => LoopsEvolve(cx, s, e);
    case WriterStopped(_, _, _) => LoopsEvolve(cx, s, e);
    case Fetching(_, _, _) => CallsEvolve(cx, s, e);
    case Fetched(_, _) => CallsEvolve(cx, s, e);
    case _ => QuietEvolves(cx, s, e);
  }

  // ----- whole runs

  lemma LaterStill(pr: Peer, qr: Peer, rr: Peer)
    requires Later(pr, qr) && Later(qr, rr)
    ensures Later(pr, rr)
  {
  }

  lemma StepLater(cx: Codec, s: State, e: Event, c: ClientId)
    requires Members(s) && Enabled(cx, s, e) && c in s.peers
    ensures var t := Step(cx, s, e);
            c in t.peers && Later(s.peers[c], t.peers[c]) && s.radio <= t.radio
  {
    hide Members, Step, Enabled, Recorded, Waiters, AsksFor;
    StepEvolves(cx, s, e);
    RecordedFrame(cx, s, e, c, 0);
  }

  lemma RecordedFrame(cx: Codec, s: State, e: Event, c: ClientId, x: u32)
    requires (e.ClientFrame? ==> e.c in s.peers) && (e.Fetched? ==> e.f in s.canned.fetches)
    ensures var t := Recorded(cx, s, e);
            && t.radio == s.radio + Logged(cx, e) && t.peers.Keys == s.peers.Keys
            && (c in s.peers ==> Adds(cx, s, e, c, x, t.peers[c]))
  {
    hide Recorded, Adds, Logged;
    RecordedLog(cx, s, e);
    if c in s.peers {
      RecordedPeer(cx, s, e, c, x);
    }
  }

  lemma RecordedLog(cx: Codec, s: State, e: Event)
    requires (e.ClientFrame? ==> e.c in s.peers) && (e.Fetched? ==> e.f in s.canned.fetches)
    ensures var t := Recorded(cx, s, e); t.radio == s.radio + Logged(cx, e) && t.peers.Keys == s.peers.Keys
    ensures !e.ClientFrame? ==> Recorded(cx, s, e).peers == s.peers
  {
    hide Intake, Answered, Peer.Asked, FetchBegin, FetchEnd;
    assert s.radio + [] == s.radio;
    match e
    case Fetching(f, packet, ok) => FetchFrame(cx, s, f, packet, ok);
    case Fetched(f, take) => FetchEndFrame(s, f, take);
    case _ =>
  }

  lemma RecordedPeer(cx: Codec, s: State, e: Event, c: ClientId, x: u32)
    requires c in s.peers && (e.ClientFrame? ==> e.c in s.peers) && (e.Fetched? ==> e.f in s.canned.fetches)
    ensures c in Recorded(cx, s, e).peers && Adds(cx, s, e, c, x, Recorded(cx, s, e).peers[c])
  {
    hide Adds, Answered, Peer.Asked, FetchBegin, FetchEnd, Intake;
    RecordedLog(cx, s, e);
    AddsAtMostOne(cx, s, e, c, x);
  }

  /** The radio frame that the event brings, if it parses. */
  function Logged(cx: Codec, e: Event): seq<Payload> {
    if e.RadioFrame? && cx.parseFrom(e.payload).Some? then [e.payload] else []
  }

  /** The event adds at most one request, and at most one reply from the cache, to c. */
  ghost predicate Adds(cx: Codec, s: State, e: Event, c: ClientId, x: u32, pr: Peer)
    requires c in s.peers
  {
    var h := s.peers[c].hist;
    && pr == s.peers[c].(hist := h.(asked := pr.hist.asked, replays := pr.hist.replays))
    && pr.hist.asked[x] == h.asked[x] + (if AsksFor(cx, e, c, x) then 1 else 0)
    && (pr.hist.replays == h.replays || AnswersNow(cx, s, e, c, pr.hist.replays))
  }

  lemma AddsAtMostOne(cx: Codec, s: State, e: Event, c: ClientId, x: u32)
    requires c in s.peers && (e.ClientFrame? ==> e.c in s.peers)
    ensures e.ClientFrame? ==> var m := cx.parseTo(e.payload);
            e.c == c && m.Some? && m.value.WantConfig? ==>
              Adds(cx, s, e, c, x, if s.cache.Ready() then Answered(s, c, m.value.id) else s.peers[c].Asked(m.value.id))
    ensures !(e.ClientFrame? && e.c == c && cx.parseTo(e.payload).Some? && cx.parseTo(e.payload).value.WantConfig?) ==>
              Adds(cx, s, e, c, x, s.peers[c])
  {
  }

  /** The cache, being ready, starts to answer the request of c that e brings. */
  ghost predicate Answers(cx: Codec, s: State, e: Event, c: ClientId, cause: Cause) {
    AsksFor(cx, e, c, cause.original) && s.cache.Ready() && cause.cache == s.cache
  }

  ghost predicate AnswersNow(cx: Codec, s: State, e: Event, c: ClientId, replays: seq<Cause>)
    requires c in s.peers
  {
    && |replays| == |s.peers[c].hist.replays| + 1 && s.peers[c].hist.replays <= replays
    && Answers(cx, s, e, c, replays[|replays| - 1])
  }

  lemma RecordedReply(cx: Codec, s: State, e: Event)
    requires (e.ClientFrame? ==> e.c in s.peers) && (e.Fetched? ==> e.f in s.canned.fetches)
    ensures var t := Recorded(cx, s, e);
            t.taken == s.taken || exists r :: Takes(cx, s, e, r) && t.taken == s.taken + [r]
  {
    hide Intake, Takes, FetchBegin, FetchEnd;
    match e
    case Fetching(f, packet, ok) => FetchFrame(cx, s, f, packet, ok);
    case Fetched(f, take) => FetchEndFrame(s, f, take);
    case RadioFrame(payload, _, _, _) =>
      match cx.parseFrom(payload) {
        case Some(Packet(p)) => IntakeIsReply(cx, s, e, p);
        case _ =>
      }
    case _ =>
  }

  /** The step takes the reply r: a packet of the radio that a waiter is registered for. */
  ghost predicate Takes(cx: Codec, s: State, e: Event, r: Taken) {
    && e.RadioFrame? && IsReply(cx, e.payload, r)
    && r.id in s.canned.waiters && s.canned.waiters[r.id] == r.call && r.at == s.now
  }

  /** The step hands the list v to a caller: from the cache while it is fresh, or from the
      channel of the call. */
  ghost predicate Serves(s: State, e: Event, v: Served) {
    match e
    case Fetching(f, _, _) =>
      v == Served(FreshCanned(s.canned, s.now), FromCache(s.canned.cacheAt), s.now) && v.messages != []
    case Fetched(f, take) =>
      && take && f in s.canned.fetches && s.canned.fetches[f].box == Some(v.messages)
      && v == Served(v.messages, FromReply(f, s.canned.fetches[f].id), s.now)
    case _ => false
  }

  /** What the event adds to the calls, and to the lists served. */
  ghost predicate AddsCall(s: State, e: Event, t: State) {
    && t.calls == s.calls + (if e.Fetching? then {e.f} else {})
    && (forall f :: f in Waiters(t.canned) ==>
          (f in Waiters(s.canned) && Waiters(t.canned)[f] == Waiters(s.canned)[f]) ||
          (e.Fetching? && e.f == f && Waiters(t.canned)[f] == e.packet.id))
    && (t.served == s.served || exists v :: Serves(s, e, v) && t.served == s.served + [v])
  }

  lemma RecordedCall(cx: Codec, s: State, e: Event)
    requires (e.ClientFrame? ==> e.c in s.peers) && (e.Fetched? ==> e.f in s.canned.fetches)
    requires e.Fetching? ==> e.f !in s.canned.fetches
    ensures AddsCall(s, e, Recorded(cx, s, e))
  {
    hide AddsCall, FetchBegin, FetchEnd, Intake;
    match e
    case Fetching(f, packet, ok) => BeginsCall(cx, s, e);
    case Fetched(f, take) => EndsCall(s, e);
    case _ => SameCalls(s, e, Recorded(cx, s, e));
  }

  lemma SameCalls(s: State, e: Event, t: State)
    requires !e.Fetching? && t.calls == s.calls && t.canned == s.canned && t.served == s.served
    ensures AddsCall(s, e, t)
  {
  }

  lemma AskOutcome(cx: Codec, s: State, f: nat, p: MeshPacket, ok: bool)
    requires f !in s.canned.fetches
    ensures var t, held := AskCanned(cx, s, f, p, ok), FreshCanned(s.canned, s.now);
            && t.calls == s.calls
            && t.served == s.served + (if held == [] then [] else [Served(held, FromCache(s.canned.cacheAt), s.now)])
            && (t.canned.fetches == s.canned.fetches || t.canned.fetches == s.canned.fetches[f := Fetch(p.id, None)])
  {
    hide FreshCanned, LocalNode, CanWrite, Register, Unregister;
    var t := s.(canned := s.canned.(cache := FreshCanned(s.canned, s.now)));
    RegisterFrame(t, f, p.id);
  }

  lemma RegisterFrame(s: State, f: nat, id: u32)
    requires f !in s.canned.fetches
    ensures var t := Register(s, f, id);
            && t.calls == s.calls && t.served == s.served && t.canned.fetches == s.canned.fetches[f := Fetch(id, None)]
            && (var u := Unregister(t, f);
                u.calls == s.calls && u.served == s.served && u.canned.fetches == s.canned.fetches)
  {
    assert s.canned.fetches[f := Fetch(id, None)] - {f} == s.canned.fetches;
  }

  lemma BeginsCall(cx: Codec, s: State, e: Event)
    requires e.Fetching? && e.f !in s.canned.fetches
    ensures AddsCall(s, e, FetchBegin(cx, s, e.f, e.packet, e.ok))
  {
    hide FreshCanned, AskCanned;
    AskOutcome(cx, s.(calls := s.calls + {e.f}), e.f, e.packet, e.ok);
    var held := FreshCanned(s.canned, s.now);
    if held != [] {
      assert Serves(s, e, Served(held, FromCache(s.canned.cacheAt), s.now));
    }
  }

  lemma EndsCall(s: State, e: Event)
    requires e.Fetched? && e.f in s.canned.fetches
    ensures AddsCall(s, e, FetchEnd(s, e.f, e.take))
  {
    var Fetch(id, box) := s.canned.fetches[e.f];
    if e.take && box.Some? && box.value != [] {
      assert Serves(s, e, Served(box.value, FromReply(e.f, id), s.now));
    }
  }

  lemma IntakeIsReply(cx: Codec, s: State, e: Event, p: MeshPacket)
    requires e.RadioFrame? && cx.parseFrom(e.payload) == Some(Packet(p))
    ensures Intake(cx, s, p) == [] || exists r :: Takes(cx, s, e, r) && Intake(cx, s, p) == [r]
    ensures s.taken + [] == s.taken
  {
    if WaitedFor(cx, s, p) {
      assert Takes(cx, s, e, Taken(p.id, cx.CannedReply(p).value, s.now, s.canned.waiters[p.id]));
    }
  }

  lemma NoRequests(cx: Codec, c: ClientId, x: u32)
    ensures CountRequests(cx, [], c, x) == 0
  {
  }

  lemma CountGrows(cx: Codec, es: seq<Event>, e: Event, c: ClientId, x: u32)
    ensures CountRequests(cx, es + [e], c, x) == CountRequests(cx, es, c, x) + if AsksFor(cx, e, c, x) then 1 else 0
    ensures AsksFor(cx, e, c, x) ==> e.ClientFrame? && e.c == c
  {
    assert (es + [e])[..|es|] == es;
  }

  /** Over any run from any reachable state, logs grow, and a connection that is closed
      has received its last byte. */
  lemma {:induction false} RunLater(cx: Codec, s: State, es: seq<Event>, c: ClientId)
    requires Members(s) && Feasible(cx, s, es) && c in s.peers
    ensures var t := After(cx, s, es);
            Members(t) && c in t.peers && Later(s.peers[c], t.peers[c]) && s.radio <= t.radio
  {
    hide Members, Step, Enabled, Later;
    if es == [] {
      LaterItself(s.peers[c]);
    } else {
      var init, e := es[..|es| - 1], es[|es| - 1];
      var t := After(cx, s, init);
      RunLater(cx, s, init, c);
      StepMembers(cx, t, e);
      StepLater(cx, t, e, c);
      LaterStill(s.peers[c], t.peers[c], Step(cx, t, e).peers[c]);
    }
  }

  lemma LaterItself(pr: Peer)
    ensures Later(pr, pr)
  {
  }

  /** The event is a WantConfigId with id x from client c. */
  predicate AsksFor(cx: Codec, e: Event, c: ClientId, x: u32) {
    e.ClientFrame? && e.c == c && cx.parseTo(e.payload) == Some(WantConfig(x))
  }

  function CountRequests(cx: Codec, es: seq<Event>, c: ClientId, x: u32): nat {
    if es == [] then 0
    else CountRequests(cx, es[..|es| - 1], c, x) + if AsksFor(cx, es[|es| - 1], c, x) then 1 else 0
  }

  /** What a connection has asked is what the run says its client has sent. */
  lemma {:induction false} AskedIsCounted(cx: Codec, s: State, es: seq<Event>, c: ClientId, x: u32)
    requires Members(s) && s.peers == map[] && Feasible(cx, s, es)
    ensures var t := After(cx, s, es);
            && Members(t)
            && (c in t.peers ==> t.peers[c].hist.asked[x] == CountRequests(cx, es, c, x))
            && (c !in t.peers ==> CountRequests(cx, es, c, x) == 0)
  {
    hide Members, Step, Enabled, Later, AsksFor, Recorded, CountRequests;
    assert CountRequests(cx, [], c, x) == 0 by { NoRequests(cx, c, x); }
    if es != [] {
      var init, e := es[..|es| - 1], es[|es| - 1];
      var t := After(cx, s, init);
      assert es == init + [e];
      AskedIsCounted(cx, s, init, c, x);
      StepMembers(cx, t, e);
      StepEvolves(cx, t, e);
      RecordedFrame(cx, t, e, c, x);
      CountGrows(cx, init, e, c, x);
    }
  }

  /** The k-th event of the run takes the reply r. */
  ghost predicate TakenAt(cx: Codec, s: State, es: seq<Event>, k: nat, r: Taken) {
    k < |es| && Feasible(cx, s, es[..k]) && Takes(cx, After(cx, s, es[..k]), es[k], r)
  }

  /** Every reply on record was taken by a waiter at some moment of the run. */
  lemma {:induction false} TakenInRun(cx: Codec, s: State, es: seq<Event>, r: Taken)
    requires Members(s) && s.taken == [] && Feasible(cx, s, es)
    ensures Members(After(cx, s, es))
    ensures r in After(cx, s, es).taken ==> exists k: nat :: TakenAt(cx, s, es, k, r)
  {
    hide Members, Step, Enabled, Later, Takes, Recorded;
    if es != [] {
      var init, e := es[..|es| - 1], es[|es| - 1];
      var t := After(cx, s, init);
      TakenInRun(cx, s, init, r);
      StepMembers(cx, t, e);
      StepEvolves(cx, t, e);
      RecordedReply(cx, t, e);
      if r in t.taken {
        var k: nat :| TakenAt(cx, s, init, k, r);
        assert init[..k] == es[..k];
        assert TakenAt(cx, s, es, k, r);
      } else if r in Step(cx, t, e).taken {
        assert TakenAt(cx, s, es, |init|, r);
      }
    }
  }

  /** The k-th event of the run is the request that the cache starts to answer. */
  ghost predicate AnsweredAt(cx: Codec, s: State, es: seq<Event>, k: nat, c: ClientId, cause: Cause) {
    k < |es| && Feasible(cx, s, es[..k]) && Answers(cx, After(cx, s, es[..k]), es[k], c, cause)
  }

  /** Every reply from the cache that was not begun before the run was begun by a request at
      some moment of it, with the cache of that moment, which was ready. */
  lemma {:induction false} AnsweredInRun(cx: Codec, s: State, es: seq<Event>, c: ClientId, i: nat)
    requires Members(s) && Feasible(cx, s, es)
    ensures var t := After(cx, s, es);
            && Members(t)
            && (c in t.peers && i < |t.peers[c].hist.replays| && (c in s.peers ==> |s.peers[c].hist.replays| <= i) ==>
                  exists k: nat :: AnsweredAt(cx, s, es, k, c, t.peers[c].hist.replays[i]))
  {
    hide Members, Step, Enabled, Later, Answers, Recorded, AsksFor, SameRecords;
    if es != [] {
      var init, e := es[..|es| - 1], es[|es| - 1];
      var t := After(cx, s, init);
      AnsweredInRun(cx, s, init, c, i);
      StepMembers(cx, t, e);
      StepEvolves(cx, t, e);
      RecordedFrame(cx, t, e, c, 0);
      var u := Step(cx, t, e);
      if c in u.peers && i < |u.peers[c].hist.replays| && (c in s.peers ==> |s.peers[c].hist.replays| <= i) {
        var cause := u.peers[c].hist.replays[i];
        if c in t.peers && i < |t.peers[c].hist.replays| {
          var k: nat :| AnsweredAt(cx, s, init, k, c, cause);
          assert init[..k] == es[..k];
          assert AnsweredAt(cx, s, es, k, c, cause);
        } else {
          assert AnsweredAt(cx, s, es, |init|, c, cause);
        }
      }
    }
  }

  /** What the radio had sent by any moment of the run begins what it has sent at its end. */
  lemma {:induction false} RadioGrows(cx: Codec, s: State, es: seq<Event>, j: nat)
    requires Members(s) && Feasible(cx, s, es) && j <= |es|
    ensures Feasible(cx, s, es[..j]) && Members(After(cx, s, es))
    ensures After(cx, s, es[..j]).radio <= After(cx, s, es).radio
  {
    hide Members, Step, Enabled, Recorded, Logged, Waiters;
    assert es[..|es|] == es;
    if es != [] {
      var init, e := es[..|es| - 1], es[|es| - 1];
      var t := After(cx, s, init);
      RadioGrows(cx, s, init, if j < |es| then j else |init|);
      assert j < |es| ==> init[..j] == es[..j];
      StepMembers(cx, t, e);
      StepEvolves(cx, t, e);
      RecordedFrame(cx, t, e, 0, 0);
    }
  }

  // ----- calls

  /** The radio log is the frames of the run that parse. */
  function RadioLog(cx: Codec, es: seq<Event>): seq<Payload> {
    if es == [] then [] else RadioLog(cx, es[..|es| - 1]) + Logged(cx, es[|es| - 1])
  }

  lemma {:induction false} RadioIsLogged(cx: Codec, s: State, es: seq<Event>)
    requires Members(s) && s.radio == [] && Feasible(cx, s, es)
    ensures Members(After(cx, s, es)) && After(cx, s, es).radio == RadioLog(cx, es)
  {
    hide Members, Step, Enabled, Recorded, Logged, Waiters;
    if es != [] {
      var init, e := es[..|es| - 1], es[|es| - 1];
      var t := After(cx, s, init);
      RadioIsLogged(cx, s, init);
      StepMembers(cx, t, e);
      StepEvolves(cx, t, e);
      RecordedFrame(cx, t, e, 0, 0);
    }
  }

  /** The j-th event of the run begins the call f, whose request has the given id. */
  predicate BegunAt(es: seq<Event>, j: nat, f: nat, id: u32) {
    j < |es| && es[j].Fetching? && es[j].f == f && es[j].packet.id == id
  }

  /** Every call that waits was begun in the run, and every call begun is on record. */
  lemma {:induction false} CallsInRun(cx: Codec, s: State, es: seq<Event>, f: nat)
    requires Members(s) && s.canned.fetches == map[] && Feasible(cx, s, es)
    ensures var t := After(cx, s, es);
            && Members(t)
            && (f in Waiters(t.canned) ==> exists j: nat :: BegunAt(es, j, f, Waiters(t.canned)[f]))
            && (forall j :: 0 <= j < |es| && es[j].Fetching? ==> es[j].f in t.calls)
  {
    hide Members, Step, Enabled, Recorded, Serves;
    if es != [] {
      var init, e := es[..|es| - 1], es[|es| - 1];
      var t := After(cx, s, init);
      CallsInRun(cx, s, init, f);
      StepMembers(cx, t, e);
      StepEvolves(cx, t, e);
      BeginsFresh(cx, t, e);
      RecordedCall(cx, t, e);
      assert forall j :: 0 <= j < |init| ==> es[j] == init[j];
      var u := Step(cx, t, e);
      if f in Waiters(u.canned) {
        if f in Waiters(t.canned) && Waiters(u.canned)[f] == Waiters(t.canned)[f] {
          var j: nat :| BegunAt(init, j, f, Waiters(t.canned)[f]);
          assert BegunAt(es, j, f, Waiters(u.canned)[f]);
        } else {
          assert BegunAt(es, |init|, f, Waiters(u.canned)[f]);
        }
      }
    }
  }

  lemma BeginsFresh(cx: Codec, s: State, e: Event)
    requires Enabled(cx, s, e)
    ensures e.Fetching? ==> e.f !in s.canned.fetches && e.f !in s.calls
  {
  }

  /** The m-th event of the run hands the list v to a caller. */
  ghost predicate ServedAt(cx: Codec, s: State, es: seq<Event>, m: nat, v: Served) {
    m < |es| && Feasible(cx, s, es[..m]) && Serves(After(cx, s, es[..m]), es[m], v)
  }

  lemma {:induction false} ServedInRun(cx: Codec, s: State, es: seq<Event>, v: Served)
    requires Members(s) && s.served == [] && Feasible(cx, s, es)
    ensures Members(After(cx, s, es))
    ensures v in After(cx, s, es).served ==> exists m: nat :: ServedAt(cx, s, es, m, v)
  {
    hide Members, Step, Enabled, Recorded, Serves, Waiters;
    if es != [] {
      var init, e := es[..|es| - 1], es[|es| - 1];
      var t := After(cx, s, init);
      ServedInRun(cx, s, init, v);
      StepMembers(cx, t, e);
      StepEvolves(cx, t, e);
      BeginsFresh(cx, t, e);
      RecordedCall(cx, t, e);
      if v in t.served {
        var m: nat :| ServedAt(cx, s, init, m, v);
        assert init[..m] == es[..m];
        assert ServedAt(cx, s, es, m, v);
      } else if v in Step(cx, t, e).served {
        assert ServedAt(cx, s, es, |init|, v);
      }
    }
  }
}
