/** Canned-message replies: who gets them, and where every served list comes from. */
module CannedRuns {
  import opened Protocol
  import opened Model
  import CannedMessages

  /** A radio frame that is the reply recorded. */
  ghost predicate IsReply(cx: Codec, p: Payload, t: Taken) {
    var m := cx.parseFrom(p);
    && m.Some? && m.value.Packet?
    && cx.CannedReply(m.value.packet) == Some(t.raw) && m.value.packet.id == t.id
  }

  ghost predicate TakenOK(cx: Codec, s: State) {
    forall t :: t in s.taken ==> t.at <= s.now && exists p :: p in s.radio && IsReply(cx, p, t)
  }

  /** What is in a call's channel is what some reply says that was taken for this call. */
  ghost predicate FetchOK(taken: seq<Taken>, f: nat, fetch: Fetch) {
    fetch.box.Some? ==>
      exists t :: t in taken && fetch.box.value == CannedMessages.Parse(t.raw) && t.id == fetch.id && t.call == f
  }

  /** The cached list is what the latest reply says, with its time; it is only dropped when
      that reply is too old. */
  ghost predicate HeldOK(s: State) {
    if s.taken == [] then s.canned.cache == []
    else
      var r := s.taken[|s.taken| - 1];
      && s.canned.cacheAt == r.at
      && (s.canned.cache == CannedMessages.Parse(r.raw) || (s.canned.cache == [] && s.now - r.at > CANNED_TTL))
  }

  /** What the latest reply says, if it is at most two minutes old. */
  function LastList(taken: seq<Taken>, now: int): seq<string> {
    if taken == [] || now - taken[|taken| - 1].at > 120_000_000_000 then []
    else CannedMessages.Parse(taken[|taken| - 1].raw)
  }

  /** The cache holds neither more nor less. */
  lemma FreshIsLast(cx: Codec, s: State)
    requires CannedOK(cx, s)
    ensures FreshCanned(s.canned, s.now) == LastList(s.taken, s.now)
    ensures s.taken != [] ==> s.canned.cacheAt == s.taken[|s.taken| - 1].at
    ensures LastList(s.taken, s.now) != [] ==> s.taken != []
  {
    hide FetchOK, ServedOK, IsReply, CannedMessages.Parse;
  }

  /** The reply t is where the list v came from: taken earlier, at most two minutes if it
      was cached, and for the caller itself, under the id of its request, if it was not. */
  ghost predicate Backs(t: Taken, v: Served) {
    && v.messages == CannedMessages.Parse(t.raw)
    && t.at <= v.at
    && match v.source
       case FromCache(storedAt) => t.at == storedAt && v.at - t.at <= CANNED_TTL
       case FromReply(call, id) => t.id == id && t.call == call
  }

  /** A served list is not empty, and some reply taken by a waiter is where it came from. */
  ghost predicate ServedOK(taken: seq<Taken>, v: Served) {
    v.messages != [] && exists t :: t in taken && Backs(t, v)
  }

  ghost predicate CannedOK(cx: Codec, s: State) {
    && TakenOK(cx, s)
    && HeldOK(s)
    && (forall id :: id in s.canned.waiters ==>
          s.canned.waiters[id] in s.canned.fetches && s.canned.fetches[s.canned.waiters[id]].id == id)
    && (forall f :: f in s.canned.fetches ==> f in s.calls && FetchOK(s.taken, f, s.canned.fetches[f]))
    && (forall v :: v in s.served ==> ServedOK(s.taken, v))
  }

  /** The step leaves the canned state alone; time and the radio log may advance. */
  lemma CannedSame(cx: Codec, s: State, t: State)
    requires CannedOK(cx, s)
    requires t.canned == s.canned && t.taken == s.taken && t.served == s.served && t.calls == s.calls
    requires s.now <= t.now && s.radio <= t.radio
    ensures CannedOK(cx, t)
  {
    hide FetchOK, ServedOK;
    forall r | r in t.taken
      ensures r.at <= t.now && exists p :: p in t.radio && IsReply(cx, p, r)
    {
      var p :| p in s.radio && IsReply(cx, p, r);
      var i :| 0 <= i < |s.radio| && s.radio[i] == p;
      assert t.radio[i] == p;
    }
  }

  /** One more reply taken: every list that was accounted for still is. */
  lemma TakenMore(taken: seq<Taken>, r: Taken)
    ensures forall f, fetch :: FetchOK(taken, f, fetch) ==> FetchOK(taken + [r], f, fetch)
    ensures forall v: Served :: ServedOK(taken, v) ==> ServedOK(taken + [r], v)
  {
    hide CannedMessages.Parse, Backs;
    forall f, fetch | FetchOK(taken, f, fetch)
      ensures FetchOK(taken + [r], f, fetch)
    {
      if fetch.box.Some? {
        var t :| t in taken && fetch.box.value == CannedMessages.Parse(t.raw) && t.id == fetch.id && t.call == f;
        assert t in taken + [r];
      }
    }
    forall v: Served | ServedOK(taken, v)
      ensures ServedOK(taken + [r], v)
    {
      var t :| t in taken && Backs(t, v);
      assert t in taken + [r];
    }
  }

  lemma TakenReply(cx: Codec, s: State, p: MeshPacket, payload: Payload)
    requires TakenOK(cx, s) && WaitedFor(cx, s, p)
    requires payload in s.radio && cx.parseFrom(payload) == Some(Packet(p))
    ensures TakenOK(cx, TakeCanned(cx, s, p))
  {
    hide CannedMessages.Parse;
    assert IsReply(cx, payload, Taken(p.id, cx.CannedReply(p).value, s.now, s.canned.waiters[p.id]));
  }

  lemma TakeKeeps(cx: Codec, s: State, p: MeshPacket, payload: Payload)
    requires CannedOK(cx, s) && WaitedFor(cx, s, p)
    requires payload in s.radio && cx.parseFrom(payload) == Some(Packet(p))
    ensures CannedOK(cx, TakeCanned(cx, s, p))
  {
    hide CannedMessages.Parse, ServedOK, TakenOK, FetchOK;
    var t := TakeCanned(cx, s, p);
    var r := t.taken[|t.taken| - 1];
    TakenReply(cx, s, p, payload);
    TakenMore(s.taken, r);
    TakeFetches(cx, s, p);
  }

  lemma TakeFetches(cx: Codec, s: State, p: MeshPacket)
    requires WaitedFor(cx, s, p) && s.canned.waiters[p.id] in s.canned.fetches
    requires s.canned.fetches[s.canned.waiters[p.id]].id == p.id
    requires forall f :: f in s.canned.fetches ==> FetchOK(s.taken, f, s.canned.fetches[f])
    ensures var t := TakeCanned(cx, s, p);
            && t.canned.fetches.Keys == s.canned.fetches.Keys
            && (forall f :: f in t.canned.fetches ==>
                  t.canned.fetches[f].id == s.canned.fetches[f].id && FetchOK(t.taken, f, t.canned.fetches[f]))
  {
    hide CannedMessages.Parse;
    var r := Taken(p.id, cx.CannedReply(p).value, s.now, s.canned.waiters[p.id]);
    var t := TakeCanned(cx, s, p);
    TakenMore(s.taken, r);
    forall f | f in t.canned.fetches
      ensures FetchOK(t.taken, f, t.canned.fetches[f])
    {
      if t.canned.fetches[f] != s.canned.fetches[f] {
        assert r in t.taken;
      }
    }
  }

  lemma ServeKeeps(cx: Codec, s: State, msgs: seq<string>, source: Source)
    requires CannedOK(cx, s) && ServedOK(s.taken, Served(msgs, source, s.now))
    ensures CannedOK(cx, Serve(s, msgs, source))
  {
    hide FetchOK, ServedOK, IsReply, CannedMessages.Parse;
  }

  lemma UnregisterKeeps(cx: Codec, s: State, f: nat)
    requires CannedOK(cx, s) && f in s.canned.fetches
    ensures CannedOK(cx, Unregister(s, f))
  {
    hide FetchOK, ServedOK, IsReply, CannedMessages.Parse;
  }

  lemma FetchEndKeeps(cx: Codec, s: State, f: nat, take: bool)
    requires CannedOK(cx, s) && f in s.canned.fetches
    ensures CannedOK(cx, FetchEnd(s, f, take))
  {
    hide CannedOK;
    var Fetch(id, box) := s.canned.fetches[f];
    var t := Unregister(s, f);
    UnregisterKeeps(cx, s, f);
    if take && box.Some? && box.value != [] {
      BoxServed(cx, s, f);
      ServeKeeps(cx, t, box.value, FromReply(f, id));
    }
  }

  lemma BoxServed(cx: Codec, s: State, f: nat)
    requires CannedOK(cx, s) && f in s.canned.fetches
    requires s.canned.fetches[f].box.Some? && s.canned.fetches[f].box.value != []
    ensures ServedOK(s.taken, Served(s.canned.fetches[f].box.value, FromReply(f, s.canned.fetches[f].id), s.now))
  {
    hide CannedMessages.Parse, IsReply;
    var Fetch(id, box) := s.canned.fetches[f];
    assert FetchOK(s.taken, f, s.canned.fetches[f]);
    var t :| t in s.taken && box.value == CannedMessages.Parse(t.raw) && t.id == id && t.call == f;
    assert Backs(t, Served(box.value, FromReply(f, id), s.now));
  }

  /** What a fetch registers before its request is written. */
  lemma RegisterKeeps(cx: Codec, s: State, f: nat, id: u32)
    requires CannedOK(cx, s) && f !in s.canned.fetches && f in s.calls
    ensures CannedOK(cx, Register(s, f, id))
  {
    hide ServedOK, IsReply, CannedMessages.Parse;
  }

  lemma ExpireKeeps(cx: Codec, s: State)
    requires CannedOK(cx, s)
    ensures CannedOK(cx, s.(canned := s.canned.(cache := FreshCanned(s.canned, s.now))))
    ensures FreshCanned(s.canned, s.now) != [] ==>
            ServedOK(s.taken, Served(FreshCanned(s.canned, s.now), FromCache(s.canned.cacheAt), s.now))
  {
    hide CannedMessages.Parse, IsReply, FetchOK;
    if FreshCanned(s.canned, s.now) != [] {
      var t := s.taken[|s.taken| - 1];
      assert t in s.taken && Backs(t, Served(FreshCanned(s.canned, s.now), FromCache(s.canned.cacheAt), s.now));
    }
  }

  lemma FetchBeginKeeps(cx: Codec, s: State, f: nat, p: MeshPacket, ok: bool)
    requires CannedOK(cx, s) && f !in s.canned.fetches
    ensures CannedOK(cx, FetchBegin(cx, s, f, p, ok))
  {
    hide CannedOK, AskCanned;
    CallKeeps(cx, s, f);
    AskKeeps(cx, s.(calls := s.calls + {f}), f, p, ok);
  }

  lemma CallKeeps(cx: Codec, s: State, f: nat)
    requires CannedOK(cx, s)
    ensures CannedOK(cx, s.(calls := s.calls + {f}))
  {
    hide ServedOK, FetchOK, IsReply, CannedMessages.Parse;
  }

  lemma AskKeeps(cx: Codec, s: State, f: nat, p: MeshPacket, ok: bool)
    requires CannedOK(cx, s) && f !in s.canned.fetches && f in s.calls
    ensures CannedOK(cx, AskCanned(cx, s, f, p, ok))
  {
    hide CannedOK, ServedOK, FreshCanned, LocalNode, CanWrite, Unregister;
    ExpireKeeps(cx, s);
    if FreshCanned(s.canned, s.now) != [] {
      ServeKeeps(cx, s, FreshCanned(s.canned, s.now), FromCache(s.canned.cacheAt));
    } else {
      var t := s.(canned := s.canned.(cache := FreshCanned(s.canned, s.now)));
      var w := Register(t, f, p.id);
      RegisterKeeps(cx, t, f, p.id);
      UnregisterKeeps(cx, w, f);
      CannedSame(cx, w, Put(w, cx.marshalTo(SendPacket(p))));
    }
  }

  /** A canned reply that a waiter is registered for reaches no client at all: it fills
      the waiter's channel and the cache. */
  lemma ReplyIntercepted(cx: Codec, s: State, e: Event, p: MeshPacket)
    requires Enabled(cx, s, e) && e.RadioFrame? && cx.parseFrom(e.payload) == Some(Packet(p)) && WaitedFor(cx, s, p)
    ensures var t := Step(cx, s, e);
            && t.peers == s.peers && t.clients == s.clients && t.outbound == s.outbound
            && t.canned.cache == CannedMessages.Parse(cx.CannedReply(p).value) && t.canned.cacheAt == s.now
            && (var f := s.canned.waiters[p.id];
                f in s.canned.fetches && s.canned.fetches[f].box == None ==>
                  t.canned.fetches[f].box == Some(CannedMessages.Parse(cx.CannedReply(p).value)))
  {
    hide Reboot, Complete, Broadcast, CannedMessages.Parse;
  }

  /** What FetchCannedMessages has ever returned: canonical messages of a reply that the
      radio sent and a waiter took. */
  lemma ServedAreReplies(cx: Codec, s: State, v: Served)
    requires CannedOK(cx, s) && v in s.served
    ensures v.messages != [] && (forall m :: m in v.messages ==> CannedMessages.Canonical(m))
    ensures exists t, p :: t in s.taken && Backs(t, v) && p in s.radio && IsReply(cx, p, t)
  {
    hide CannedMessages.Parse, CannedMessages.Canonical;
    assert ServedOK(s.taken, v);
    var t :| t in s.taken && Backs(t, v);
    CannedMessages.ParsedAreCanonical(t.raw);
    var p :| p in s.radio && IsReply(cx, p, t);
  }
}
