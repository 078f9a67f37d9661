/** The invariant of the broker, kept by every step. */
module Invariant {
  import opened Protocol
  import opened ConfigCaches
  import opened Counting
  import opened Model
  import opened Membership
  import opened PendingTable
  import opened Connections
  import opened Ledger
  import opened ColdPath
  import opened Wire
  import opened Echoes
  import opened CannedRuns

  ghost predicate PeersOK(cx: Codec, s: State) {
    forall c :: c in s.peers ==> ConnectionOK(cx, s.peers[c])
  }

  ghost predicate Inv(cx: Codec, s: State) {
    && Members(s)
    && TableOK(s)
    && LedgerOK(cx, s)
    && PeersOK(cx, s)
    && CacheOK(cx, s)
    && HeardOK(cx, s)
    && WireOK(cx, s)
    && EchoOK(s)
    && CannedOK(cx, s)
  }

  lemma InvInitial(cx: Codec, readOnly: bool)
    ensures Inv(cx, Initial(readOnly))
  {
  }

  // ----- parts that a step leaves alone

  lemma SameCache(cx: Codec, s: State, t: State)
    requires CacheOK(cx, s) && t.cache == s.cache && t.radio == s.radio
    ensures CacheOK(cx, t)
  {
  }

  lemma SameEchoes(s: State, t: State)
    requires EchoOK(s) && t.outbound == s.outbound && s.peers.Keys <= t.peers.Keys && s.now <= t.now
    ensures EchoOK(t)
  {
  }

  /** Of all the invariant reads, only these differ: serial, clock, down. */
  lemma SameBooks(cx: Codec, s: State, t: State)
    requires Inv(cx, s) && WireOK(cx, t) && s.now <= t.now && (s.down ==> t.down)
    requires t == s.(serial := t.serial, now := t.now, down := t.down)
    ensures Inv(cx, t)
  {
    hide Members, TableOK, LedgerOK, PeersOK, CacheOK, HeardOK, WireOK, EchoOK, CannedOK;
    SameMembers(s, t);
    SameTable(s, t);
    SameLedger(cx, s, t);
    SamePeers(cx, s, t);
    SameCache(cx, s, t);
    SameHeard(cx, s, t);
    SameEchoes(s, t);
    CannedSame(cx, s, t);
  }

  lemma SameTable(s: State, t: State)
    requires TableOK(s) && t.peers == s.peers && t.pending == s.pending
    ensures TableOK(t)
  {
  }

  lemma SameLedger(cx: Codec, s: State, t: State)
    requires LedgerOK(cx, s) && t.peers == s.peers && t.pending == s.pending && t.abandoned == s.abandoned
    requires s.down ==> t.down
    ensures LedgerOK(cx, t)
  {
    hide LedgerOK, Waiting;
    LedgerSame(cx, s, t);
  }

  lemma SamePeers(cx: Codec, s: State, t: State)
    requires PeersOK(cx, s) && t.peers == s.peers
    ensures PeersOK(cx, t)
  {
  }

  lemma SameHeard(cx: Codec, s: State, t: State)
    requires HeardOK(cx, s) && t.peers == s.peers && t.radio == s.radio
    ensures HeardOK(cx, t)
  {
  }

  // ----- deliveries

  lemma InvDelivered(cx: Codec, s: State, t: State, targets: set<ClientId>, p: Payload, o: Origin)
    requires Inv(cx, s) && Members(t) && Delivered(s, t, targets, p, o)
    requires p != [] && Showable(cx, p) && Plain(cx, p) && !o.Cached? && !(o == Live && Cacheable(cx, p))
    ensures Inv(cx, t)
  {
    hide Members, TableOK, LedgerOK, CacheOK, HeardOK, WireOK, EchoOK, CannedOK, PeersOK, Showable, Plain, Cacheable,
      Gone, DropOwners;
    TableDelivered(s, t, targets, p, o);
    LedgerDelivered(cx, s, t, targets, p, o);
    PeersDelivered(cx, s, t, targets, p, o);
    HeardDelivered(cx, s, t, targets, p, o);
    DeliveredSame(cx, s, t, targets, p, o);
  }

  lemma WireDelivered(cx: Codec, s: State, t: State, targets: set<ClientId>, p: Payload, o: Origin)
    requires WireOK(cx, s) && Delivered(s, t, targets, p, o)
    ensures WireOK(cx, t)
  {
    hide WireOK, Gone, Conserves, Peer.Offered;
    WireSame(cx, s, t);
  }

  lemma PeersDelivered(cx: Codec, s: State, t: State, targets: set<ClientId>, p: Payload, o: Origin)
    requires PeersOK(cx, s) && Delivered(s, t, targets, p, o) && p != [] && Showable(cx, p) && !o.Cached?
    ensures PeersOK(cx, t)
  {
    hide ConnectionOK, Showable, Gone, DropOwners;
    forall c | c in t.peers
      ensures ConnectionOK(cx, t.peers[c])
    {
      OfferedConnection(cx, s.peers[c], p, o);
    }
  }

  lemma InvBroadcast(cx: Codec, s: State, p: Payload, o: Origin, slots: seq<Slot>, except: Option<ClientId>)
    requires Inv(cx, s) && Known(slots, s.peers) && Distinct(slots)
    requires p != [] && Showable(cx, p) && Plain(cx, p) && !o.Cached? && !(o == Live && Cacheable(cx, p))
    ensures Inv(cx, Broadcast(s, p, o, slots, except))
  {
    hide Members, TableOK, LedgerOK, CacheOK, HeardOK, WireOK, EchoOK, CannedOK, PeersOK, Showable, Plain, Cacheable,
      Delivered, Broadcast;
    BroadcastDelivers(s, p, o, slots, except);
    InvDelivered(cx, s, Broadcast(s, p, o, slots, except), Targets(slots, except), p, o);
  }

  // ----- one connection changes

  /** A change to one connection that neither opens nor closes it, and what it gives up. */
  lemma InvPeer(cx: Codec, s: State, c: ClientId, pr: Peer, lost: multiset<Request>)
    requires Inv(cx, s) && c in s.peers && pr.closed == s.peers[c].closed && pr.reading == s.peers[c].reading
    requires ConnectionOK(cx, pr) && Hears(cx, pr, s.radio) && (forall r :: r in lost ==> r.owner == Some(c))
    requires Balanced(cx, c, pr, s.pending, s.abandoned + lost, s.down)
    ensures Inv(cx, s.With(c, pr).(abandoned := s.abandoned + lost))
  {
    hide Members, TableOK, LedgerOK, CacheOK, WireOK, EchoOK, CannedOK, ConnectionOK, Hears, Balanced;
    var t := s.With(c, pr).(abandoned := s.abandoned + lost);
    ChangedPeer(s, c, pr);
    SameMembers(s.With(c, pr), t);
    TableShrinks(s, t);
    LedgerPeer(cx, s, c, pr, lost);
    SameCache(cx, s, t);
    WireSame(cx, s, t);
    SameEchoes(s, t);
    CannedSame(cx, s, t);
  }

  lemma InvPeerOnly(cx: Codec, s: State, c: ClientId, pr: Peer)
    requires Inv(cx, s) && c in s.peers && pr.closed == s.peers[c].closed && pr.reading == s.peers[c].reading
    requires ConnectionOK(cx, pr) && Hears(cx, pr, s.radio)
    requires Balanced(cx, c, pr, s.pending, s.abandoned, s.down)
    ensures Inv(cx, s.With(c, pr))
  {
    hide Inv, ConnectionOK, Hears, Balanced;
    assert s.abandoned + multiset{} == s.abandoned;
    assert s.With(c, pr).(abandoned := s.abandoned) == s.With(c, pr);
    InvPeer(cx, s, c, pr, multiset{});
  }

  /** A change to one connection together with its removal. */
  lemma InvClose(cx: Codec, s: State, c: ClientId, pr: Peer, promo: ClientId)
    requires Inv(cx, s) && c in s.peers && ConnectionOK(cx, pr.Close())
    requires var was := s.peers[c];
             && pr.hist.log == was.hist.log && pr.hist.asked == was.hist.asked && pr.hist.retried == was.hist.retried
             && pr.replay == was.replay
    ensures Inv(cx, Remove(s.With(c, pr), c, promo))
  {
    hide Members, TableOK, LedgerOK, CacheOK, WireOK, EchoOK, CannedOK, ConnectionOK, PeersOK, HeardOK;
    var t := Remove(s.With(c, pr), c, promo);
    CloseMembers(s, c, pr, promo);
    CloseTable(s, c, pr, promo);
    CloseLedger(cx, s, c, pr, promo);
    ClosePeers(cx, s, c, pr, promo);
    SameCache(cx, s, t);
    WireSame(cx, s, t);
    SameEchoes(s, t);
    CannedSame(cx, s, t);
  }

  lemma CloseMembers(s: State, c: ClientId, pr: Peer, promo: ClientId)
    requires Members(s) && c in s.peers
    ensures Members(Remove(s.With(c, pr), c, promo))
  {
    RemoveMembers(s.With(c, pr), c, promo);
  }

  lemma CloseTable(s: State, c: ClientId, pr: Peer, promo: ClientId)
    requires TableOK(s) && c in s.peers
    ensures TableOK(Remove(s.With(c, pr), c, promo))
  {
    hide Promote;
  }

  lemma CloseLedger(cx: Codec, s: State, c: ClientId, pr: Peer, promo: ClientId)
    requires LedgerOK(cx, s) && c in s.peers
    requires var was := s.peers[c];
             && pr.hist.log == was.hist.log && pr.hist.asked == was.hist.asked && pr.hist.retried == was.hist.retried
             && pr.replay == was.replay
    ensures LedgerOK(cx, Remove(s.With(c, pr), c, promo))
  {
    hide Promote, LedgerOK, Waiting, DropOwners, DropOwner, Conserves, Owned, RequestsOf;
    DropOwnerIsDropOwners(s.pending, c);
    WaitingDropOwners(s.pending, {c});
    RemoveConserves(s.With(c, pr), c, promo);
    SameBefore(s, s.With(c, pr), Remove(s.With(c, pr), c, promo));
    LedgerMoves(cx, s, Remove(s.With(c, pr), c, promo));
  }

  lemma SameBefore(s: State, t: State, u: State)
    requires t.pending == s.pending && t.abandoned == s.abandoned && Conserves(t, u)
    ensures Conserves(s, u)
  {
  }

  lemma ClosePeers(cx: Codec, s: State, c: ClientId, pr: Peer, promo: ClientId)
    requires PeersOK(cx, s) && HeardOK(cx, s) && c in s.peers && ConnectionOK(cx, pr.Close())
    ensures var t := Remove(s.With(c, pr), c, promo); PeersOK(cx, t) && HeardOK(cx, t)
  {
    hide Promote, ConnectionOK, Heard, CacheFrames, DropOwner;
  }

  lemma InvRemove(cx: Codec, s: State, c: ClientId, promo: ClientId)
    requires Inv(cx, s) && c in s.peers
    ensures Inv(cx, Remove(s, c, promo))
  {
    hide Members, TableOK, LedgerOK, CacheOK, HeardOK, WireOK, EchoOK, CannedOK, ConnectionOK, Remove;
    ClosedConnection(cx, s.peers[c]);
    InvClose(cx, s, c, s.peers[c], promo);
    assert s.With(c, s.peers[c]) == s;
  }

  lemma {:induction false} InvRemoveAll(cx: Codec, s: State, slots: seq<Slot>)
    requires Inv(cx, s) && Known(slots, s.peers)
    ensures Inv(cx, RemoveAll(s, slots))
  {
    hide Inv, Remove;
    if slots != [] {
      var last := slots[|slots| - 1];
      InvRemoveAll(cx, s, slots[..|slots| - 1]);
      InvRemove(cx, RemoveAll(s, slots[..|slots| - 1]), last.c, last.promo);
    }
  }

  // ----- the loops of a connection

  lemma InvBegin(cx: Codec, s: State, c: ClientId, x: u32)
    requires cx.Lawful() && Inv(cx, s) && c in s.peers && s.peers[c].replay == None
    ensures Inv(cx, BeginReplay(cx, s, c, x))
  {
    hide Members, TableOK, CacheOK, WireOK, EchoOK, CannedOK, ConnectionOK, Hears, Balanced, Script, RestOK;
    var pr := s.peers[c];
    var asked := pr.Asked(x);
    var qr := asked.Begin(x, s.cache, Script(cx, Cause(x, s.cache)));
    ScriptFrames(cx, s, x);
    SameConnection(cx, pr, asked);
    BeginConnection(cx, asked, x, s.cache);
    HearsSame(cx, pr, qr, s.radio);
    BalancedBegin(cx, c, pr, s.pending, s.abandoned, s.down, x, s.cache, Script(cx, Cause(x, s.cache)));
    InvPeerOnly(cx, s, c, qr);
  }

  lemma InvAdvance(cx: Codec, s: State, c: ClientId, ok: bool, promo: ClientId)
    requires cx.Lawful() && Inv(cx, s) && c in s.peers && (ok ==> s.peers[c].Room())
    requires s.peers[c].replay.Some? && s.peers[c].replay.value.rest != [] && s.peers[c].hist.replays != []
    ensures Inv(cx, ReplayNext(s, c, ok, promo))
  {
    hide Inv, Remove, Peer.Advance, AdvanceReplay;
    if ok {
      InvSent(cx, s, c);
    } else if s.peers[c].closed {
      InvRefused(cx, s, c);
    } else {
      InvRemove(cx, s, c, promo);
      RefusedThenRemoved(s, c, promo);
      InvRefused(cx, Remove(s, c, promo), c);
    }
  }

  /** A frame of a cached reply is accepted. */
  lemma InvSent(cx: Codec, s: State, c: ClientId)
    requires cx.Lawful() && Inv(cx, s) && c in s.peers && s.peers[c].Room()
    requires s.peers[c].replay.Some? && s.peers[c].replay.value.rest != [] && s.peers[c].hist.replays != []
    ensures Inv(cx, AdvanceReplay(s, c, true))
  {
    hide Members, TableOK, CacheOK, WireOK, EchoOK, CannedOK, Hears, Balanced, Queued, Replays, RestOK;
    var pr := s.peers[c];
    AdvanceConnection(cx, pr, true);
    HearsAdvance(cx, pr, s.radio, true);
    BalancedAdvance(cx, c, pr, s.pending, s.abandoned, s.down);
    assert s.abandoned + multiset{} == s.abandoned;
    InvPeer(cx, s, c, pr.Advance(true), multiset{});
  }

  /** A cached reply ends early on a closed connection. */
  lemma InvRefused(cx: Codec, s: State, c: ClientId)
    requires cx.Lawful() && Inv(cx, s) && c in s.peers && s.peers[c].closed
    requires s.peers[c].replay.Some? && s.peers[c].replay.value.rest != [] && s.peers[c].hist.replays != []
    ensures Inv(cx, AdvanceReplay(s, c, false))
  {
    hide Members, TableOK, CacheOK, WireOK, EchoOK, CannedOK, Hears, Balanced, Queued, Replays, RestOK;
    var pr := s.peers[c];
    AdvanceConnection(cx, pr, false);
    assert pr.Advance(false).Close() == pr.Advance(false);
    HearsAdvance(cx, pr, s.radio, false);
    BalancedRefused(cx, c, pr, s.pending, s.abandoned, s.down);
    InvPeer(cx, s, c, pr.Advance(false), multiset{Request(Some(c), pr.replay.value.original)});
  }

  lemma AdvanceThenClose(pr: Peer)
    requires pr.replay.Some? && pr.replay.value.rest != [] && pr.hist.replays != []
    ensures pr.Advance(false).Close() == pr.Close().Advance(false) && pr.Close().replay == pr.replay
  {
  }

  /** Ending the reply and then removing the client is the same as the other way round. */
  lemma RefusedThenRemoved(s: State, c: ClientId, promo: ClientId)
    requires c in s.peers
    requires s.peers[c].replay.Some? && s.peers[c].replay.value.rest != [] && s.peers[c].hist.replays != []
    ensures var t := Remove(s, c, promo);
            && c in t.peers && t.peers[c] == s.peers[c].Close()
            && Remove(AdvanceReplay(s, c, false), c, promo) == AdvanceReplay(t, c, false)
  {
    hide Promote, DropOwner, RequestsOf, Owned, Peer.Advance;
    AdvanceThenClose(s.peers[c]);
    var t, lost := Remove(s, c, promo), multiset{Request(Some(c), s.peers[c].replay.value.original)};
    assert s.abandoned + lost + RequestsOf(Owned(s.pending, c)) == s.abandoned + RequestsOf(Owned(s.pending, c)) + lost;
  }

  lemma InvDrain(cx: Codec, s: State, c: ClientId, ok: bool, n: nat, promo: ClientId)
    requires Inv(cx, s) && c in s.peers && s.peers[c].queue != []
    ensures Inv(cx, Drain(s, c, ok, n, promo))
  {
    hide Members, TableOK, CacheOK, WireOK, EchoOK, CannedOK, Hears, Balanced, Remove, ConnectionOK;
    var pr := s.peers[c];
    var qr := pr.Drained(ok, n);
    DrainedConnection(cx, pr, ok, n);
    if pr.Writes(ok) {
      HearsSame(cx, pr, qr, s.radio);
      BalancedSame(cx, c, pr, s.pending, s.abandoned, s.down, qr, s.down);
      InvPeerOnly(cx, s, c, qr);
    } else {
      InvClose(cx, s, c, qr, promo);
    }
  }

  lemma InvReadFailed(cx: Codec, s: State, c: ClientId, promo: ClientId)
    requires Inv(cx, s) && c in s.peers
    ensures Inv(cx, Remove(s.With(c, s.peers[c].(reading := false)), c, promo))
  {
    hide Members, TableOK, CacheOK, WireOK, EchoOK, CannedOK, LedgerOK, HeardOK, Remove, ConnectionOK;
    var qr := s.peers[c].(reading := false);
    SameConnection(cx, s.peers[c], qr);
    ClosedConnection(cx, qr);
    InvClose(cx, s, c, qr, promo);
  }

  lemma InvWriterStopped(cx: Codec, s: State, c: ClientId, byBroker: bool, promo: ClientId)
    requires Inv(cx, s) && Enabled(cx, s, WriterStopped(c, byBroker, promo))
    ensures Inv(cx, Step(cx, s, WriterStopped(c, byBroker, promo)))
  {
    hide Members, TableOK, CacheOK, WireOK, EchoOK, CannedOK, Hears, Balanced, Remove, ConnectionOK;
    var pr := s.peers[c];
    var qr := pr.(writing := false);
    SameConnection(cx, pr, qr);
    if byBroker {
      ClosedConnection(cx, qr);
      InvClose(cx, s, c, qr, promo);
    } else {
      HearsSame(cx, pr, qr, s.radio);
      BalancedSame(cx, c, pr, s.pending, s.abandoned, s.down, qr, s.down);
      InvPeerOnly(cx, s, c, qr);
    }
  }

  lemma InvConnect(cx: Codec, s: State, c: ClientId)
    requires Inv(cx, s) && c !in s.peers
    ensures Inv(cx, Connect(s, c))
  {
    hide Members, TableOK, LedgerOK, CacheOK, HeardOK, WireOK, EchoOK, CannedOK, ConnectionOK;
    var t := Connect(s, c);
    ConnectMembers(s, c);
    TableShrinks(s, t);
    LedgerConnect(cx, s, c);
    NewConnection(cx, |s.radio|);
    SameCache(cx, s, t);
    HeardConnect(cx, s, c);
    WireSame(cx, s, t);
    SameEchoes(s, t);
    CannedSame(cx, s, t);
  }

  // ----- the serial link and the table

  lemma InvPut(cx: Codec, s: State, p: Payload, ok: bool)
    requires Inv(cx, s) && Forwardable(cx, p)
    ensures Inv(cx, PutOrFail(s, p, ok)) && Inv(cx, Put(s, p))
  {
    hide Members, TableOK, LedgerOK, PeersOK, CacheOK, HeardOK, WireOK, EchoOK, CannedOK, Forwardable;
    WirePut(cx, s, p, ok);
    SameBooks(cx, s, PutOrFail(s, p, ok));
    SameBooks(cx, s, Put(s, p));
  }

  lemma AskFrame(cx: Codec, s: State, c: ClientId, x: u32, nonce: u32, ok: bool)
    requires c in s.peers
    ensures var t, h := AskRadio(cx, s, c, x, nonce, ok), s.peers[c].hist;
            && c in t.peers
            && t == s.(peers := t.peers, pending := t.pending, serial := t.serial, down := t.down)
            && t.peers == s.peers[c := s.peers[c].(hist := h.(asked := t.peers[c].hist.asked,
              retried := t.peers[c].hist.retried))]
  {
    hide Originals, DropOwner, Want, CanWrite;
  }

  lemma InvAsk(cx: Codec, s: State, c: ClientId, x: u32, nonce: u32, ok: bool)
    requires cx.Lawful() && Inv(cx, s) && c in s.peers && s.peers[c].reading &&
             FreshNonce(DropOwner(s.pending, c), nonce)
    ensures Inv(cx, AskRadio(cx, s, c, x, nonce, ok))
  {
    hide Members, TableOK, LedgerOK, CacheOK, WireOK, EchoOK, CannedOK, ConnectionOK, Hears, AskRadio;
    var t := AskRadio(cx, s, c, x, nonce, ok);
    AskFrame(cx, s, c, x, nonce, ok);
    AskRadioMembers(cx, s, c, x, nonce, ok);
    TableAsk(cx, s, c, x, nonce, ok);
    LedgerAsk(cx, s, c, x, nonce, ok);
    SameConnection(cx, s.peers[c], t.peers[c]);
    HearsSame(cx, s.peers[c], t.peers[c], s.radio);
    SameCache(cx, s, t);
    WireAsk(cx, s, c, x, nonce, ok);
    SameEchoes(s, t);
    CannedSame(cx, s, t);
  }

  lemma InvBootstrap(cx: Codec, s: State, nonce: u32, ok: bool)
    requires cx.Lawful() && Inv(cx, s) && FreshNonce(s.pending, nonce)
    ensures Inv(cx, BootstrapConfig(cx, s, nonce, ok))
  {
    hide Members, TableOK, LedgerOK, PeersOK, CacheOK, HeardOK, WireOK, EchoOK, CannedOK, BootstrapConfig;
    var t := BootstrapConfig(cx, s, nonce, ok);
    BootstrapFrame(cx, s, nonce, ok);
    SameMembers(s, t);
    TableBootstrap(cx, s, nonce, ok);
    LedgerBootstrap(cx, s, nonce, ok);
    SamePeers(cx, s, t);
    SameCache(cx, s, t);
    SameHeard(cx, s, t);
    WireBootstrap(cx, s, nonce, ok);
    SameEchoes(s, t);
    CannedSame(cx, s, t);
  }

  lemma InvComplete(cx: Codec, s: State, id: u32, promo: ClientId)
    requires cx.Lawful() && Inv(cx, s)
    ensures Inv(cx, Complete(cx, s, id, promo))
  {
    hide Members, TableOK, LedgerOK, PeersOK, CacheOK, HeardOK, WireOK, EchoOK, CannedOK, Send, Delivered;
    if id in s.pending {
      CompleteMembers(cx, s, id, promo);
      LedgerComplete(cx, s, id, promo);
      var t := TakeRequest(s, id);
      SameMembers(s, t);
      TableShrinks(s, t);
      SamePeers(cx, s, t);
      SameHeard(cx, s, t);
      CompleteParts(cx, s, t, id, promo);
      CompleteSame(cx, s, t, id, promo);
    }
  }

  /** The parts that do not read the table, when the completion is sent. */
  lemma CompleteParts(cx: Codec, s: State, t: State, id: u32, promo: ClientId)
    requires cx.Lawful() && id in s.pending && t == TakeRequest(s, id)
    requires Members(t) && TableOK(t) && PeersOK(cx, t) && HeardOK(cx, t)
    ensures var u := Complete(cx, s, id, promo); TableOK(u) && PeersOK(cx, u) && HeardOK(cx, u)
  {
    hide Members, TableOK, PeersOK, HeardOK, Send, Delivered, Cacheable;
    var req := s.pending[id];
    if req.owner.Some? && req.owner.value in s.peers {
      var c, p := req.owner.value, cx.marshalComplete(req.original);
      SendDelivers(t, c, p, Answer, promo);
      TableDelivered(t, Send(t, c, p, Answer, promo), {c}, p, Answer);
      PeersDelivered(cx, t, Send(t, c, p, Answer, promo), {c}, p, Answer);
      HeardDelivered(cx, t, Send(t, c, p, Answer, promo), {c}, p, Answer);
    }
  }

  lemma CompleteSame(cx: Codec, s: State, t: State, id: u32, promo: ClientId)
    requires id in s.pending && t == TakeRequest(s, id) && Members(t)
    requires CacheOK(cx, s) && WireOK(cx, s) && EchoOK(s) && CannedOK(cx, s)
    ensures var u := Complete(cx, s, id, promo); CacheOK(cx, u) && WireOK(cx, u) && EchoOK(u) && CannedOK(cx, u)
  {
    hide Members, CacheOK, WireOK, EchoOK, CannedOK, Send, Delivered;
    WireSame(cx, s, t);
    SameCache(cx, s, t);
    SameEchoes(s, t);
    CannedSame(cx, s, t);
    var req := s.pending[id];
    if req.owner.Some? && req.owner.value in s.peers {
      var c, p := req.owner.value, cx.marshalComplete(req.original);
      SendDelivers(t, c, p, Answer, promo);
      DeliveredSame(cx, t, Send(t, c, p, Answer, promo), {c}, p, Answer);
    }
  }

  /** The parts that a delivery cannot touch. */
  lemma DeliveredSame(cx: Codec, s: State, t: State, targets: set<ClientId>, p: Payload, o: Origin)
    requires Delivered(s, t, targets, p, o)
    requires CacheOK(cx, s) && WireOK(cx, s) && EchoOK(s) && CannedOK(cx, s)
    ensures CacheOK(cx, t) && WireOK(cx, t) && EchoOK(t) && CannedOK(cx, t)
  {
    hide CacheOK, WireOK, EchoOK, CannedOK, Gone, DropOwners, Conserves, Peer.Offered;
    WireDelivered(cx, s, t, targets, p, o);
    SameCache(cx, s, t);
    SameEchoes(s, t);
    CannedSame(cx, s, t);
  }

  // ----- radio frames

  /** A frame that is logged and changes no slot of the cache. */
  lemma InvLogged(cx: Codec, s: State, payload: Payload, m: FromRadio)
    requires Inv(cx, s) && payload != [] && cx.parseFrom(payload) == Some(m) && KeyOf(m) == None && !m.Rebooted?
    ensures Inv(cx, s.(cache := s.cache.Updated(m, payload), radio := s.radio + [payload]))
  {
    hide Members, TableOK, LedgerOK, PeersOK, CacheOK, HeardOK, WireOK, EchoOK, CannedOK;
    var t := s.(cache := s.cache.Updated(m, payload), radio := s.radio + [payload]);
    SameMembers(s, t);
    SameTable(s, t);
    SameLedger(cx, s, t);
    SamePeers(cx, s, t);
    CacheGrows(cx, s, payload, m);
    HeardNoise(cx, s, payload, t.cache);
    WireSame(cx, s, t);
    SameEchoes(s, t);
    CannedSame(cx, s, t);
  }

  lemma InvReboot(cx: Codec, s: State, payload: Payload, m: FromRadio, rs: seq<Reissue>)
    requires cx.Lawful() && Inv(cx, s) && Reissues(cx, s.(radio := s.radio + [payload]), rs)
    requires payload != [] && cx.parseFrom(payload) == Some(m) && m.Rebooted?
    ensures forall i :: 0 <= i < |rs| ==> rs[i].key in s.pending
    ensures Inv(cx, Reboot(cx, s.(radio := s.radio + [payload]), rs))
  {
    hide Members, TableOK, LedgerOK, PeersOK, CacheOK, HeardOK, WireOK, EchoOK, CannedOK, ReissueAll, Waiting;
    var s1 := s.(radio := s.radio + [payload]);
    ReissuesAreKnown(cx, s1, rs);
    var t := Reboot(cx, s1, rs);
    SameMembers(s, s1);
    SameTable(s, s1);
    SameLedger(cx, s, s1);
    WireSame(cx, s, s1);
    ReissueFrame(cx, s1.(cache := EMPTY, pending := map[]), s.pending, rs);
    SameMembers(s1, t);
    RebootTable(cx, s1, rs);
    LedgerReboot(cx, s1, rs);
    WireReboot(cx, s1, rs);
    SamePeers(cx, s, t);
    CacheResets(cx, s, payload);
    SameCache(cx, s.(cache := EMPTY, radio := s.radio + [payload]), t);
    HeardNoise(cx, s, payload, EMPTY);
    SameHeard(cx, s.(cache := EMPTY, radio := s.radio + [payload]), t);
    SameEchoes(s, t);
    CannedSame(cx, s, t);
  }

  /** A frame of the config dump: cached, and broadcast to everyone. */
  lemma InvCacheable(cx: Codec, s: State, payload: Payload, m: FromRadio, slots: seq<Slot>)
    requires Inv(cx, s) && Enumerates(slots, s.clients) && Known(slots, s.peers)
    requires payload != [] && cx.parseFrom(payload) == Some(m) && KeyOf(m).Some?
    ensures Inv(cx,
            Broadcast(s.(cache := s.cache.Updated(m, payload), radio := s.radio + [payload]), payload, Live, slots,
              None))
  {
    hide Members, TableOK, LedgerOK, PeersOK, CacheOK, HeardOK, WireOK, EchoOK, CannedOK, Broadcast, Delivered,
      Enumerates;
    var s1 := s.(cache := s.cache.Updated(m, payload), radio := s.radio + [payload]);
    var t := Broadcast(s1, payload, Live, slots, None);
    DistinctSlots(slots, s.clients);
    SameMembers(s, s1);
    SameTable(s, s1);
    SameLedger(cx, s, s1);
    SamePeers(cx, s, s1);
    CacheGrows(cx, s, payload, m);
    BroadcastDelivers(s1, payload, Live, slots, None);
    TableDelivered(s1, t, s.clients, payload, Live);
    LedgerDelivered(cx, s1, t, s.clients, payload, Live);
    PeersDelivered(cx, s1, t, s.clients, payload, Live);
    HeardBroadcast(cx, s, s1, t, payload);
    CacheableRest(cx, s, s1, t, payload);
  }

  lemma CacheableRest(cx: Codec, s: State, s1: State, t: State, payload: Payload)
    requires Delivered(s1, t, s.clients, payload, Live)
    requires CacheOK(cx, s1) && s1 == s.(cache := s1.cache, radio := s.radio + [payload])
    requires WireOK(cx, s) && EchoOK(s) && CannedOK(cx, s)
    ensures CacheOK(cx, t) && WireOK(cx, t) && EchoOK(t) && CannedOK(cx, t)
  {
    hide CacheOK, WireOK, EchoOK, CannedOK, Delivered;
    WireSame(cx, s, s1);
    SameEchoes(s, s1);
    CannedSame(cx, s, s1);
    DeliveredSame(cx, s1, t, s.clients, payload, Live);
  }

  lemma DistinctSlots(slots: seq<Slot>, cs: set<ClientId>)
    requires Enumerates(slots, cs)
    ensures Distinct(slots) && Targets(slots, None) == cs
  {
    TargetsOfAll(slots, cs, None);
  }

  lemma InvEchoTable(cx: Codec, s: State, t: State)
    requires Inv(cx, s) && t == s.(outbound := t.outbound) && EchoOK(t)
    ensures Inv(cx, t)
  {
    hide Members, TableOK, LedgerOK, PeersOK, CacheOK, HeardOK, WireOK, EchoOK, CannedOK;
    SameMembers(s, t);
    SameTable(s, t);
    SameLedger(cx, s, t);
    SamePeers(cx, s, t);
    SameCache(cx, s, t);
    SameHeard(cx, s, t);
    WireSame(cx, s, t);
    CannedSame(cx, s, t);
  }

  lemma InvCanned(cx: Codec, s: State, t: State)
    requires Inv(cx, s) && CannedOK(cx, t) && WireOK(cx, t)
    requires t == s.(canned := t.canned, taken := t.taken, served := t.served, calls := t.calls, serial := t.serial)
    ensures Inv(cx, t)
  {
    hide Members, TableOK, LedgerOK, PeersOK, CacheOK, HeardOK, WireOK, EchoOK, CannedOK;
    SameMembers(s, t);
    SameTable(s, t);
    SameLedger(cx, s, t);
    SamePeers(cx, s, t);
    SameCache(cx, s, t);
    SameHeard(cx, s, t);
    SameEchoes(s, t);
  }

  lemma NoteEchoOK(s: State, c: ClientId, p: MeshPacket)
    requires EchoOK(s) && c in s.peers
    ensures EchoOK(Note(s, c, p)) && EchoOK(Consume(s, p))
  {
  }

  lemma InvRoute(cx: Codec, s: State, p: MeshPacket, payload: Payload, slots: seq<Slot>, promo: ClientId)
    requires Inv(cx, s) && Enumerates(slots, s.clients) && Known(slots, s.peers)
    requires payload != [] && payload in s.radio && cx.parseFrom(payload) == Some(Packet(p))
    ensures Inv(cx, RoutePacket(cx, s, p, payload, slots, promo))
  {
    hide Inv, Broadcast, Send, Delivered, Enumerates, WaitedFor;
    DistinctSlots(slots, s.clients);
    if WaitedFor(cx, s, p) {
      InvTake(cx, s, p, payload);
    } else {
      var t := Consume(s, p);
      InvConsume(cx, s, p);
      InvBroadcast(cx, t, payload, Live, slots, None);
      var origin := OriginOf(s, p);
      if origin.Some? && origin.value in s.peers {
        InvMembers(cx, t);
        SendDelivers(t, origin.value, payload, Reply, promo);
        InvDelivered(cx, t, Send(t, origin.value, payload, Reply, promo), {origin.value}, payload, Reply);
      }
    }
  }

  lemma InvMembers(cx: Codec, s: State)
    requires Inv(cx, s)
    ensures Members(s)
  {
  }

  lemma InvConsume(cx: Codec, s: State, p: MeshPacket)
    requires Inv(cx, s)
    ensures Inv(cx, Consume(s, p))
  {
    hide Members, TableOK, LedgerOK, PeersOK, CacheOK, HeardOK, WireOK, CannedOK;
    InvEchoTable(cx, s, Consume(s, p));
  }

  lemma InvTake(cx: Codec, s: State, p: MeshPacket, payload: Payload)
    requires Inv(cx, s) && WaitedFor(cx, s, p)
    requires payload in s.radio && cx.parseFrom(payload) == Some(Packet(p))
    ensures Inv(cx, TakeCanned(cx, s, p))
  {
    hide Members, TableOK, LedgerOK, PeersOK, CacheOK, HeardOK, WireOK, EchoOK, CannedOK;
    TakeKeeps(cx, s, p, payload);
    WireSame(cx, s, TakeCanned(cx, s, p));
    InvCanned(cx, s, TakeCanned(cx, s, p));
  }

  lemma InvFromDevice(cx: Codec, s: State, payload: Payload, rs: seq<Reissue>, slots: seq<Slot>, promo: ClientId)
    requires cx.Lawful() && Inv(cx, s) && payload != []
    requires Enumerates(slots, s.clients) && Known(slots, s.peers)
    requires forall i :: 0 <= i < |rs| ==> rs[i].key in s.pending
    requires Announces(cx, payload) ==> Reissues(cx, s.(radio := s.radio + [payload]), rs)
    ensures Inv(cx, FromDevice(cx, s, payload, rs, slots, promo))
  {
    hide Inv, Broadcast, Complete, RoutePacket, Reboot, Enumerates, Reissues;
    match cx.parseFrom(payload)
    case None =>
    case Some(m) =>
      var t := s.(cache := s.cache.Updated(m, payload), radio := s.radio + [payload]);
      match m
      case ConfigComplete(id) =>
        InvLogged(cx, s, payload, m);
        InvComplete(cx, t, id, promo);
      case Rebooted(_) =>
        InvReboot(cx, s, payload, m, rs);
      case Packet(p) =>
        InvLogged(cx, s, payload, m);
        InvRoute(cx, t, p, payload, slots, promo);
      case OtherFrom =>
        InvLogged(cx, s, payload, m);
        DistinctSlots(slots, s.clients);
        InvBroadcast(cx, t, payload, Live, slots, None);
      case _ =>
        InvCacheable(cx, s, payload, m, slots);
  }

  // ----- client frames

  lemma InvForward(cx: Codec, s: State, c: ClientId, p: MeshPacket, ok: bool, slots: seq<Slot>)
    requires cx.Lawful() && Inv(cx, s) && c in s.peers && Enumerates(slots, s.clients) && Known(slots, s.peers)
    ensures Inv(cx, Forward(cx, s, c, p, ok, slots))
  {
    hide Inv, Broadcast, Note, Enumerates;
    DistinctSlots(slots, s.clients);
    var bytes := cx.marshalTo(SendPacket(p));
    InvPut(cx, s, bytes, ok);
    if CanWrite(s, bytes, ok) {
      InvNote(cx, Put(s, bytes), c, p);
      NoteFrame(Put(s, bytes), c, p);
      InvBroadcast(cx, Note(Put(s, bytes), c, p), cx.marshalPacket(p), Synthetic, slots, Some(c));
    }
  }

  lemma NoteFrame(s: State, c: ClientId, p: MeshPacket)
    ensures Note(s, c, p).peers == s.peers
  {
  }

  lemma InvNote(cx: Codec, s: State, c: ClientId, p: MeshPacket)
    requires Inv(cx, s) && c in s.peers
    ensures Inv(cx, Note(s, c, p))
  {
    hide Members, TableOK, LedgerOK, PeersOK, CacheOK, HeardOK, WireOK, CannedOK;
    NoteEchoOK(s, c, p);
    InvEchoTable(cx, s, Note(s, c, p));
  }

  lemma InvFromClient(cx: Codec, s: State, e: Event)
    requires cx.Lawful() && Inv(cx, s) && e.ClientFrame? && Enabled(cx, s, e)
    ensures Inv(cx, Step(cx, s, e))
  {
    hide Inv, Forward, Remove, AskRadio, BeginReplay, PutOrFail, Enumerates, DropOwner, FreshNonce;
    var ClientFrame(c, payload, nonce, ok, slots, promo) := e;
    match cx.parseTo(payload)
    case None => InvPut(cx, s, payload, ok);
    case Some(WantConfig(x)) =>
      if s.cache.Ready() {
        InvBegin(cx, s, c, x);
      } else {
        InvAsk(cx, s, c, x, nonce, ok);
      }
    case Some(Disconnect) => InvRemove(cx, s, c, promo);
    case Some(SendPacket(p)) => InvForward(cx, s, c, p, ok, slots);
    case Some(OtherTo(body)) => InvPut(cx, s, cx.marshalTo(OtherTo(body)), ok);
  }

  // ----- every step

  lemma InvFetchBegin(cx: Codec, s: State, f: nat, p: MeshPacket, ok: bool)
    requires cx.Lawful() && Inv(cx, s) && f !in s.canned.fetches
    ensures Inv(cx, FetchBegin(cx, s, f, p, ok))
  {
    hide Members, TableOK, LedgerOK, PeersOK, CacheOK, HeardOK, WireOK, EchoOK, CannedOK, FetchBegin;
    FetchBeginKeeps(cx, s, f, p, ok);
    FetchFrame(cx, s, f, p, ok);
    FetchTaken(cx, s, f, p, ok);
    FetchWire(cx, s, f, p, ok);
    InvCanned(cx, s, FetchBegin(cx, s, f, p, ok));
  }

  lemma FetchTaken(cx: Codec, s: State, f: nat, p: MeshPacket, ok: bool)
    ensures FetchBegin(cx, s, f, p, ok).taken == s.taken
  {
    hide LocalNode, CanWrite;
  }

  lemma FetchSerial(cx: Codec, s: State, f: nat, p: MeshPacket, ok: bool)
    ensures var t := FetchBegin(cx, s, f, p, ok);
            t.serial == s.serial || t.serial == Put(s, cx.marshalTo(SendPacket(p))).serial
  {
    hide LocalNode, CanWrite, FreshCanned;
  }

  lemma FetchWire(cx: Codec, s: State, f: nat, p: MeshPacket, ok: bool)
    requires cx.Lawful() && WireOK(cx, s)
    ensures WireOK(cx, FetchBegin(cx, s, f, p, ok))
  {
    hide WireOK, FetchBegin;
    var t, bytes := FetchBegin(cx, s, f, p, ok), cx.marshalTo(SendPacket(p));
    FetchFrame(cx, s, f, p, ok);
    FetchSerial(cx, s, f, p, ok);
    WirePut(cx, s, bytes, ok);
    if t.serial == s.serial {
      WireSame(cx, s, t);
    } else {
      WireSame(cx, Put(s, bytes), t);
    }
  }

  lemma InvFetchEnd(cx: Codec, s: State, f: nat, take: bool)
    requires Inv(cx, s) && f in s.canned.fetches
    ensures Inv(cx, FetchEnd(s, f, take))
  {
    hide Members, TableOK, LedgerOK, PeersOK, CacheOK, HeardOK, WireOK, EchoOK, CannedOK;
    FetchEndKeeps(cx, s, f, take);
    WireSame(cx, s, FetchEnd(s, f, take));
    InvCanned(cx, s, FetchEnd(s, f, take));
  }

  lemma InvTexting(cx: Codec, s: State, p: MeshPacket, ok: bool, slots: seq<Slot>)
    requires cx.Lawful() && Inv(cx, s) && Enumerates(slots, s.clients) && Known(slots, s.peers)
    ensures Inv(cx, SendText(cx, s, p, ok, slots))
  {
    hide Inv, Broadcast, Enumerates, LocalNode;
    DistinctSlots(slots, s.clients);
    var bytes := cx.marshalTo(SendPacket(p));
    InvPut(cx, s, bytes, ok);
    InvBroadcast(cx, Put(s, bytes), cx.marshalPacket(p), Synthetic, slots, None);
  }

  lemma InvClock(cx: Codec, s: State, t: State)
    requires Inv(cx, s) && s.now <= t.now && (s.down ==> t.down) && t == s.(now := t.now, down := t.down)
    ensures Inv(cx, t)
  {
    hide Members, TableOK, LedgerOK, PeersOK, CacheOK, HeardOK, WireOK, EchoOK, CannedOK;
    WireSame(cx, s, t);
    SameBooks(cx, s, t);
  }

  lemma InvStep(cx: Codec, s: State, e: Event)
    requires cx.Lawful() && Inv(cx, s) && Enabled(cx, s, e)
    ensures Inv(cx, Step(cx, s, e))
  {
    hide Inv, FromClient, FromDevice, ReplayNext, Drain, Remove, BootstrapConfig, FetchBegin, FetchEnd, SendText,
      RemoveAll, Connect, Enumerates, Reissues;
    match e
    case Connecting(c) => InvConnect(cx, s, c);
    case ClientFrame(_, _, _, _, _, _) => InvFromClient(cx, s, e);
    case RadioFrame(payload, rs, slots, promo) => InvFromDevice(cx, s, payload, rs, slots, promo);
    case Replaying(c, ok, promo) => InvAdvance(cx, s, c, ok, promo);
    case Writing(c, ok, n, promo) => InvDrain(cx, s, c, ok, n, promo);
    case ReadFailed(c, promo) => InvReadFailed(cx, s, c, promo);
    case WriterStopped(c, byBroker, promo) => InvWriterStopped(cx, s, c, byBroker, promo);
    case Bootstrapping(nonce, ok) => InvBootstrap(cx, s, nonce, ok);
    case Fetching(f, packet, ok) => InvFetchBegin(cx, s, f, packet, ok);
    case Fetched(f, take) => InvFetchEnd(cx, s, f, take);
    case Texting(packet, ok, slots) => InvTexting(cx, s, packet, ok, slots);
    case Closing(slots) => InvRemoveAll(cx, s, slots);
    case Failing => InvClock(cx, s, s.(down := true));
    case Ticking(elapsed) => InvClock(cx, s, s.(now := s.now + elapsed));
  }

  /** The invariant holds in every state that any run can reach. */
  lemma {:induction false} Always(cx: Codec, readOnly: bool, es: seq<Event>)
    requires cx.Lawful() && Feasible(cx, Initial(readOnly), es)
    ensures Inv(cx, After(cx, Initial(readOnly), es))
    decreases |es|
  {
    hide Inv, Step, Enabled;
    if es == [] {
      InvInitial(cx, readOnly);
    } else {
      Always(cx, readOnly, es[..|es| - 1]);
      InvStep(cx, After(cx, Initial(readOnly), es[..|es| - 1]), es[|es| - 1]);
    }
  }
}
