/** Facts about single handlers, on values: free nonces, one more turn of each loop over a
    map, and which event of the model each branch is. */
module Turns {
  import opened Protocol
  import opened ConfigCaches
  import opened Model

  /** Some u32 that is not zero is free while the table is not full. */
  lemma FreeNonce(m: Pending)
    requires |m| < 0xFFFF_FFFF
    ensures exists n: u32 :: n != 0 && n !in m
  {
    if forall n: u32 :: n != 0 ==> n in m.Keys {
      NoncesBelow(m.Keys, 0xFFFF_FFFF);
    }
  }

  lemma {:induction false} NoncesBelow(s: set<u32>, k: nat)
    requires k <= 0xFFFF_FFFF && forall n: u32 :: 0 < n <= k ==> n in s
    ensures |s| >= k
  {
    if k > 0 {
      NoncesBelow(s - {k}, k - 1);
    }
  }

  lemma {:induction false} AtMostNonces(s: set<u32>, k: nat)
    requires k <= 0xFFFF_FFFF && forall n :: n in s ==> 0 < n <= k
    ensures |s| <= k
  {
    if k == 0 {
      if forall n :: n !in s { NothingIn(s); }
    } else {
      AtMostNonces(s - {k}, k - 1);
    }
  }

  /** Some order in which a loop over cs could run. */
  ghost function Enumeration(cs: set<ClientId>): (slots: seq<Slot>)
    ensures Enumerates(slots, cs)
  {
    if cs == {} then []
    else
      assert exists c :: c in cs by { if forall c :: c !in cs { NothingIn(cs); } }
      var c :| c in cs;
      var slots := Enumeration(cs - {c});
      EnumerateOneMore(slots, cs - {c}, Slot(c, c));
      assert cs == cs - {c} + {c};
      slots + [Slot(c, c)]
  }

  lemma EnumerateOneMore(slots: seq<Slot>, cs: set<ClientId>, slot: Slot)
    requires Enumerates(slots, cs) && slot.c !in cs
    ensures Enumerates(slots + [slot], cs + {slot.c})
  {
    var more := slots + [slot];
    forall d | d in cs + {slot.c}
      ensures exists i :: 0 <= i < |more| && more[i].c == d
    {
      if d == slot.c {
        assert more[|slots|].c == d;
      } else {
        var i :| 0 <= i < |slots| && slots[i].c == d;
        assert more[i].c == d;
      }
    }
  }

  lemma NoTurns(s: State, p: Payload, o: Origin, except: Option<ClientId>)
    ensures Enumerates([], {}) && Known([], s.peers) && Broadcast(s, p, o, [], except) == s && RemoveAll(s, []) == s
    ensures s.clients - s.clients == {} && s.clients - {} == s.clients
  {
  }

  /** One more turn of the loop of broadcastExcept. */
  lemma OneTurn(s: State, p: Payload, o: Origin, slots: seq<Slot>, slot: Slot, except: Option<ClientId>)
    requires Known(slots, s.peers) && slot.c in s.peers
    ensures Known(slots + [slot], s.peers)
    ensures var t := Broadcast(s, p, o, slots, except);
            Broadcast(s, p, o, slots + [slot], except) ==
              if Some(slot.c) == except then t else Send(t, slot.c, p, o, slot.promo)
  {
    hide Send;
    assert (slots + [slot])[..|slots|] == slots;
  }

  lemma ReplayingSteps(cx: Codec, s: State, c: ClientId, ok: bool, promo: ClientId)
    requires c in s.peers && s.peers[c].replay.Some? && s.peers[c].replay.value.rest != [] &&
             s.peers[c].hist.replays != []
    requires ok ==> s.peers[c].Room()
    ensures var t := AdvanceReplay(s, c, ok);
            Steps(cx, s, Replaying(c, ok, promo), if ok || s.peers[c].closed then t else Remove(t, c, promo))
  {
    hide AdvanceReplay, Remove;
  }

  lemma WritingSteps(cx: Codec, s: State, c: ClientId, ok: bool, n: nat, promo: ClientId)
    requires c in s.peers && s.peers[c].writing && s.peers[c].queue != []
    ensures var pr := s.peers[c];
            var t := s.With(c, pr.Drained(ok, n));
            Steps(cx, s, Writing(c, ok, n, promo), if pr.Writes(ok) then t else Remove(t, c, promo))
  {
    hide Peer.Drained, Peer.Writes, Remove;
  }

  lemma ReadFailedSteps(cx: Codec, s: State, c: ClientId, promo: ClientId)
    requires c in s.peers && s.peers[c].reading && s.peers[c].replay == None
    ensures Steps(cx, s, ReadFailed(c, promo), Remove(s.With(c, s.peers[c].(reading := false)), c, promo))
  {
    hide Remove;
  }

  lemma WriterStoppedSteps(cx: Codec, s: State, c: ClientId, byBroker: bool, promo: ClientId)
    requires c in s.peers && s.peers[c].writing && (if byBroker then s.down else s.peers[c].closed)
    ensures var t := s.With(c, s.peers[c].(writing := false));
            Steps(cx, s, WriterStopped(c, byBroker, promo), if byBroker then Remove(t, c, promo) else t)
  {
    hide Remove;
  }

  /** One more turn of the loop of CloseAll. */
  lemma OneRemoval(s: State, slots: seq<Slot>, slot: Slot)
    requires Known(slots, s.peers) && slot.c in s.peers
    ensures Known(slots + [slot], s.peers)
    ensures RemoveAll(s, slots + [slot]) == Remove(RemoveAll(s, slots), slot.c, slot.promo)
  {
    hide Remove;
    assert (slots + [slot])[..|slots|] == slots;
  }

  lemma ClosingSteps(cx: Codec, s: State, slots: seq<Slot>)
    requires Enumerates(slots, s.clients) && Known(slots, s.peers)
    ensures Steps(cx, s, Closing(slots), RemoveAll(s, slots))
  {
    hide RemoveAll;
  }

  lemma PostedFrame(s: State, f: nat, msgs: seq<string>)
    ensures var t := Posted(s, f, msgs); t == s.(canned := s.canned.(fetches := t.canned.fetches))
  {
  }

  lemma BeginReplayIs(cx: Codec, s: State, c: ClientId, x: u32)
    requires c in s.peers
    ensures var h := s.peers[c].hist;
            var pr := s.peers[c].(replay := Some(Replay(x, s.cache.Snapshot().Frames() + [cx.marshalComplete(x)])));
            BeginReplay(cx, s, c, x) ==
              s.With(c, pr).With(c,
                pr.(hist := h.(asked := h.asked + multiset{x}, replays := h.replays + [Cause(x, s.cache)])))
  {
    hide Cache.Snapshot, CacheSnapshot.Frames;
  }

  lemma ConnectingSteps(cx: Codec, s: State, c: ClientId)
    requires c !in s.peers
    ensures Steps(cx, s, Connecting(c), Connect(s, c))
  {
  }

  lemma FailingSteps(cx: Codec, s: State)
    ensures Steps(cx, s, Failing, s.(down := true))
  {
  }

  lemma TickingSteps(cx: Codec, s: State, elapsed: nat)
    ensures Steps(cx, s, Ticking(elapsed), s.(now := s.now + elapsed))
  {
  }

  lemma BootstrappingSteps(cx: Codec, s: State, nonce: u32, ok: bool)
    requires FreshNonce(s.pending, nonce)
    ensures Steps(cx, s, Bootstrapping(nonce, ok), BootstrapConfig(cx, s, nonce, ok))
  {
    hide BootstrapConfig;
  }

  lemma FetchingSteps(cx: Codec, s: State, f: nat, p: MeshPacket, ok: bool)
    requires f !in s.canned.fetches && f !in s.calls && p.id != 0
    ensures Steps(cx, s, Fetching(f, p, ok), FetchBegin(cx, s, f, p, ok))
    ensures var t, held := FetchBegin(cx, s, f, p, ok), FreshCanned(s.canned, s.now);
            t.served == s.served + if held == [] then [] else [Served(held, FromCache(s.canned.cacheAt), s.now)]
  {
    hide LocalNode, CanWrite, FreshCanned;
  }

  // ----- the cases of a radio frame

  lemma RadioFrameSteps(cx: Codec, s: State, e: Event)
    requires e.RadioFrame? && e.payload != [] && Enumerates(e.slots, s.clients) && Known(e.slots, s.peers)
    requires forall i :: 0 <= i < |e.rs| ==> e.rs[i].key in s.pending
    requires Announces(cx, e.payload) ==> Reissues(cx, s.(radio := s.radio + [e.payload]), e.rs)
    ensures Steps(cx, s, e, FromDevice(cx, s, e.payload, e.rs, e.slots, e.promo))
  {
    hide FromDevice, Enumerates, Reissues, Announces;
  }

  lemma DeviceNoise(cx: Codec, s: State, payload: Payload, rs: seq<Reissue>, slots: seq<Slot>, promo: ClientId)
    requires Known(slots, s.peers) && rs == [] && cx.parseFrom(payload) == None
    ensures !Announces(cx, payload) && FromDevice(cx, s, payload, rs, slots, promo) == s
  {
  }

  lemma DeviceComplete(cx: Codec, s: State, payload: Payload, id: u32, rs: seq<Reissue>, slots: seq<Slot>,
      promo: ClientId)
    requires Known(slots, s.peers) && rs == [] && cx.parseFrom(payload) == Some(ConfigComplete(id))
    ensures !Announces(cx, payload)
    ensures var t := s.(cache := s.cache.Updated(ConfigComplete(id), payload), radio := s.radio + [payload]);
            FromDevice(cx, s, payload, rs, slots, promo) == Complete(cx, t, id, promo)
  {
    hide Complete;
  }

  lemma DeviceReboots(cx: Codec, s: State, payload: Payload, b: bool, rs: seq<Reissue>, slots: seq<Slot>,
      promo: ClientId)
    requires Known(slots, s.peers) && cx.parseFrom(payload) == Some(Rebooted(b))
    requires Reissues(cx, s.(cache := s.cache.Updated(Rebooted(b), payload), radio := s.radio + [payload]), rs)
    ensures forall i :: 0 <= i < |rs| ==> rs[i].key in s.pending
    ensures Reissues(cx, s.(radio := s.radio + [payload]), rs)
    ensures var t := s.(cache := s.cache.Updated(Rebooted(b), payload), radio := s.radio + [payload]);
            FromDevice(cx, s, payload, rs, slots, promo) == Reboot(cx, t, rs)
  {
    hide Reboot;
  }

  lemma DevicePacket(cx: Codec, s: State, payload: Payload, p: MeshPacket, rs: seq<Reissue>, slots: seq<Slot>,
      promo: ClientId)
    requires Known(slots, s.peers) && rs == [] && cx.parseFrom(payload) == Some(Packet(p))
    ensures !Announces(cx, payload)
    ensures var t := s.(cache := s.cache.Updated(Packet(p), payload), radio := s.radio + [payload]);
            FromDevice(cx, s, payload, rs, slots, promo) == RoutePacket(cx, t, p, payload, slots, promo)
  {
    hide RoutePacket;
  }

  lemma DeviceBroadcast(cx: Codec, s: State, payload: Payload, m: FromRadio, rs: seq<Reissue>, slots: seq<Slot>,
      promo: ClientId)
    requires Known(slots, s.peers) && rs == [] && cx.parseFrom(payload) == Some(m)
    requires !m.ConfigComplete? && !m.Rebooted? && !m.Packet?
    ensures !Announces(cx, payload)
    ensures var t := s.(cache := s.cache.Updated(m, payload), radio := s.radio + [payload]);
            FromDevice(cx, s, payload, rs, slots, promo) == Broadcast(t, payload, Live, slots, None)
  {
    hide Broadcast;
  }

  // ----- the cases of a client frame

  lemma ClientFrameSteps(cx: Codec, s: State, e: Event)
    requires e.ClientFrame? && e.c in s.peers && s.peers[e.c].reading && s.peers[e.c].replay == None && e.payload != []
    requires NeedsNonce(cx, s, e.payload) ==> FreshNonce(DropOwner(s.pending, e.c), e.nonce)
    requires Enumerates(e.slots, s.clients) && Known(e.slots, s.peers)
    ensures Steps(cx, s, e, FromClient(cx, s, e.c, e.payload, e.nonce, e.ok, e.slots, e.promo))
  {
    hide FromClient, Enumerates, NeedsNonce, FreshNonce, DropOwner;
  }

  lemma ClientNoise(cx: Codec, s: State, c: ClientId, payload: Payload, nonce: u32, ok: bool, slots: seq<Slot>,
      promo: ClientId)
    requires c in s.peers && Known(slots, s.peers) && cx.parseTo(payload) == None
    ensures !NeedsNonce(cx, s, payload)
    ensures FromClient(cx, s, c, payload, nonce, ok, slots, promo) ==
            if s.primary == Some(c) then PutOrFail(s, payload, ok) else s
  {
  }

  lemma ClientWants(cx: Codec, s: State, c: ClientId, payload: Payload, x: u32, nonce: u32, ok: bool, slots: seq<Slot>,
      promo: ClientId)
    requires c in s.peers && Known(slots, s.peers) && cx.parseTo(payload) == Some(WantConfig(x))
    ensures NeedsNonce(cx, s, payload) == !s.cache.Ready()
    ensures FromClient(cx, s, c, payload, nonce, ok, slots, promo) ==
            if s.cache.Ready() then BeginReplay(cx, s, c, x) else AskRadio(cx, s, c, x, nonce, ok)
  {
    hide BeginReplay, AskRadio;
  }

  lemma ClientLeaves(cx: Codec, s: State, c: ClientId, payload: Payload, nonce: u32, ok: bool, slots: seq<Slot>,
      promo: ClientId)
    requires c in s.peers && Known(slots, s.peers) && cx.parseTo(payload) == Some(Disconnect)
    ensures !NeedsNonce(cx, s, payload) && FromClient(cx, s, c, payload, nonce, ok, slots, promo) == Remove(s, c, promo)
  {
    hide Remove;
  }

  lemma ClientPacket(cx: Codec, s: State, c: ClientId, payload: Payload, p: MeshPacket, nonce: u32, ok: bool,
      slots: seq<Slot>, promo: ClientId)
    requires c in s.peers && Known(slots, s.peers) && cx.parseTo(payload) == Some(SendPacket(p))
    ensures !NeedsNonce(cx, s, payload)
    ensures FromClient(cx, s, c, payload, nonce, ok, slots, promo) ==
            if MayWrite(s, c) then Forward(cx, s, c, p, ok, slots) else s
  {
    hide Forward;
  }

  lemma ClientOther(cx: Codec, s: State, c: ClientId, payload: Payload, body: seq<byte>, nonce: u32, ok: bool,
      slots: seq<Slot>, promo: ClientId)
    requires c in s.peers && Known(slots, s.peers) && cx.parseTo(payload) == Some(OtherTo(body))
    ensures !NeedsNonce(cx, s, payload)
    ensures FromClient(cx, s, c, payload, nonce, ok, slots, promo) ==
            if MayWrite(s, c) then PutOrFail(s, cx.marshalTo(OtherTo(body)), ok) else s
  {
  }

  ghost function KnownEnumeration(s: State): (slots: seq<Slot>)
    requires s.clients <= s.peers.Keys
    ensures Enumerates(slots, s.clients) && Known(slots, s.peers)
  {
    Enumeration(s.clients)
  }

  lemma VisitOne(slots: seq<Slot>, cs: set<ClientId>, todo: set<ClientId>, slot: Slot) returns (more: seq<Slot>)
    requires Enumerates(slots, cs - todo) && todo <= cs && slot.c in todo
    ensures more == slots + [slot] && more[..|more| - 1] == slots
    ensures Enumerates(more, cs - (todo - {slot.c}))
  {
    more := slots + [slot];
    EnumerateOneMore(slots, cs - todo, slot);
    assert cs - todo + {slot.c} == cs - (todo - {slot.c});
  }

  lemma NoWrite(s: State, p: Payload)
    ensures !CanWrite(s, p, false)
  {
  }

  lemma CachedIsHeld(s: State)
    requires FreshCanned(s.canned, s.now) != []
    ensures FreshCanned(s.canned, s.now) == s.canned.cache
  {
  }

  lemma SameLocalNode(cx: Codec, s: State, t: State)
    requires s.cache == t.cache
    ensures LocalNode(cx, s) == LocalNode(cx, t)
  {
  }

  /** The loop of handleRebooted: entries of m in rs are done, those in todo are not. */
  ghost predicate Reissuing(cx: Codec, s0: State, m: Pending, rs: seq<Reissue>, t: State, todo: set<u32>) {
    && todo <= m.Keys && 0 !in m && t.peers == s0.peers
    && Draws(rs, m)
    && (forall i :: 0 <= i < |rs| ==> rs[i].key !in todo && rs[i].nonce in t.pending)
    && (forall n :: n in m.Keys - todo && !ClosedOwner(s0, m[n]) ==> exists i :: 0 <= i < |rs| && rs[i].key == n)
    && ReissueAll(cx, s0, m, rs) == Reissued(t, false)
    && |t.pending| + |todo| <= |m|
  }

  lemma ReissuingStarts(cx: Codec, s0: State, m: Pending)
    requires s0.pending == map[] && 0 !in m
    ensures Reissuing(cx, s0, m, [], s0, m.Keys)
  {
  }

  lemma ReissuingBounds(cx: Codec, s0: State, m: Pending, rs: seq<Reissue>, t: State, todo: set<u32>, n: u32)
    requires Reissuing(cx, s0, m, rs, t, todo) && n in todo
    ensures n in m && |t.pending| < 0xFFFF_FFFF
    ensures todo - {n} + {n} == todo
  {
    hide ClosedOwner, ReissueAll, Draws;
    AtMostNonces(m.Keys, 0xFFFF_FFFF);
  }

  lemma ReissuingSkips(cx: Codec, s0: State, m: Pending, rs: seq<Reissue>, t: State, todo: set<u32>, n: u32)
    requires Reissuing(cx, s0, m, rs, t, todo + {n}) && n !in todo && n in m && ClosedOwner(t, m[n])
    ensures Reissuing(cx, s0, m, rs, t, todo)
  {
    hide ReissueAll, Draws;
    assert |todo + {n}| == |todo| + 1;
  }

  lemma ReissuingGoesOn(cx: Codec, s0: State, m: Pending, rs: seq<Reissue>, before: State, todo: set<u32>, r: Reissue)
    requires Reissuing(cx, s0, m, rs, before, todo + {r.key}) && r.key !in todo && r.key in m &&
             !ClosedOwner(before, m[r.key])
    requires FreshNonce(before.pending, r.nonce)
    requires CanWrite(before.(pending := before.pending[r.nonce := m[r.key]]), Want(cx, r.nonce), r.ok)
    ensures Reissuing(cx, s0, m, rs + [r],
            PutOrFail(before.(pending := before.pending[r.nonce := m[r.key]]), Want(cx, r.nonce), r.ok), todo)
  {
    hide Want, ReissueAll, ClosedOwner, Draws;
    DrawsOneMore(m, rs, r, before.pending);
    ReissueOne(cx, s0, m, rs, r, before);
    CoversOneMore(rs, r, m, todo, s0);
    assert |todo + {r.key}| == |todo| + 1;
  }

  lemma DrawsOneMore(m: Pending, rs: seq<Reissue>, r: Reissue, pending: Pending)
    requires Draws(rs, m) && r.key in m && FreshNonce(pending, r.nonce)
    requires forall i :: 0 <= i < |rs| ==> rs[i].key != r.key && rs[i].nonce in pending
    ensures Draws(rs + [r], m) && (forall i :: 0 <= i < |rs| ==> rs[i].key in m)
  {
  }

  lemma ReissueOne(cx: Codec, s0: State, m: Pending, rs: seq<Reissue>, r: Reissue, before: State)
    requires forall i :: 0 <= i < |rs| ==> rs[i].key in m
    requires r.key in m && !ClosedOwner(before, m[r.key]) && before.peers == s0.peers
    requires ReissueAll(cx, s0, m, rs) == Reissued(before, false)
    ensures forall i :: 0 <= i < |rs + [r]| ==> (rs + [r])[i].key in m
    ensures var t := before.(pending := before.pending[r.nonce := m[r.key]]);
            ReissueAll(cx, s0, m, rs + [r]) ==
              Reissued(PutOrFail(t, Want(cx, r.nonce), r.ok), !CanWrite(t, Want(cx, r.nonce), r.ok))
  {
    hide Want;
    assert (rs + [r])[..|rs|] == rs;
  }

  lemma CoversOneMore(rs: seq<Reissue>, r: Reissue, m: Pending, todo: set<u32>, s: State)
    requires r.key in m && r.key !in todo
    requires forall n :: n in m.Keys - (todo + {r.key}) && !ClosedOwner(s, m[n]) ==>
             exists i :: 0 <= i < |rs| && rs[i].key == n
    ensures forall n :: n in m.Keys - todo && !ClosedOwner(s, m[n]) ==>
            exists i :: 0 <= i < |rs + [r]| && (rs + [r])[i].key == n
  {
    hide ClosedOwner;
    var more := rs + [r];
    forall n | n in m.Keys - todo && !ClosedOwner(s, m[n])
      ensures exists i :: 0 <= i < |more| && more[i].key == n
    {
      if n == r.key {
        assert more[|rs|].key == n;
      } else {
        var i :| 0 <= i < |rs| && rs[i].key == n;
        assert more[i].key == n;
      }
    }
  }

  /** The early return after a failed write. */
  lemma ReissuingHalts(cx: Codec, s: State, m: Pending, rs: seq<Reissue>, before: State, todo: set<u32>, r: Reissue)
    requires m == s.pending && Reissuing(cx, s.(cache := EMPTY, pending := map[]), m, rs, before, todo + {r.key})
    requires r.key !in todo && r.key in m && !ClosedOwner(before, m[r.key]) && FreshNonce(before.pending, r.nonce)
    requires !CanWrite(before.(pending := before.pending[r.nonce := m[r.key]]), Want(cx, r.nonce), r.ok)
    ensures Reissues(cx, s, rs + [r])
    ensures forall i :: 0 <= i < |rs + [r]| ==> (rs + [r])[i].key in s.pending
    ensures RebootRun(cx, s, rs + [r]).state ==
            PutOrFail(before.(pending := before.pending[r.nonce := m[r.key]]), Want(cx, r.nonce), r.ok)
  {
    hide Want, ReissueAll, ClosedOwner, Draws;
    DrawsOneMore(m, rs, r, before.pending);
    ReissueOne(cx, s.(cache := EMPTY, pending := map[]), m, rs, r, before);
  }

  lemma AllCovered(s: State, rs: seq<Reissue>, m: Pending)
    requires forall n :: n in m.Keys - {} && !ClosedOwner(s.(cache := EMPTY, pending := map[]), m[n]) ==>
             exists i :: 0 <= i < |rs| && rs[i].key == n
    ensures Covers(s, rs, m)
  {
  }

  lemma KeysOfDraws(rs: seq<Reissue>, m: Pending)
    requires Draws(rs, m)
    ensures forall i :: 0 <= i < |rs| ==> rs[i].key in m
  {
  }

  lemma ReissuingEnds(cx: Codec, s: State, m: Pending, rs: seq<Reissue>, t: State)
    requires m == s.pending && Reissuing(cx, s.(cache := EMPTY, pending := map[]), m, rs, t, {})
    ensures Reissues(cx, s, rs) && (forall i :: 0 <= i < |rs| ==> rs[i].key in s.pending)
    ensures RebootRun(cx, s, rs).state == t
  {
    hide ReissueAll, ClosedOwner, Draws, Covers;
    AllCovered(s, rs, m);
    KeysOfDraws(rs, m);
  }

  lemma DroppedIsSmaller(m: Pending, c: ClientId)
    ensures |DropOwner(m, c)| <= |m|
  {
    assert m.Keys == DropOwner(m, c).Keys + (m.Keys - DropOwner(m, c).Keys);
  }

  // ----- runs of one loop

  /** The events are the handling of these radio frames, one after the other. */
  predicate Handles(es: seq<Event>, frames: seq<Payload>) {
    |es| == |frames| && forall i :: 0 <= i < |es| ==> es[i].RadioFrame? && es[i].payload == frames[i]
  }

  lemma OneMoreEvent(cx: Codec, s: State, es: seq<Event>, frames: seq<Payload>, e: Event, t: State)
    requires Feasible(cx, s, es) && Steps(cx, After(cx, s, es), e, t)
    requires Handles(es, frames) && e.RadioFrame?
    ensures Feasible(cx, s, es + [e]) && After(cx, s, es + [e]) == t
    ensures Handles(es + [e], frames + [e.payload])
  {
    hide Enabled, Step;
    assert (es + [e])[..|es|] == es;
  }

  lemma TakeOff(done: seq<Payload>, got: seq<Payload>, rest: seq<Payload>, left: seq<Payload>, whole: seq<Payload>)
    requires done + left == whole
    ensures left == [] ==> done == whole
    ensures got + rest == left ==> done + got + rest == whole && done + got <= whole
    ensures got == [] ==> done + got == done
  {
    assert done + (got + rest) == done + got + rest;
  }

  lemma NoEvents(cx: Codec, s: State)
    ensures Feasible(cx, s, []) && After(cx, s, []) == s && Handles([], [])
  {
  }
}
