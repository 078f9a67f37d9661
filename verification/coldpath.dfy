/** The cache as a fold of the radio's frames, and what each client has heard of them. */
module ColdPath {
  import opened Protocol
  import opened ConfigCaches
  import opened Counting
  import opened Model
  import opened Membership
  import opened Connections

  /** Every slot holds the last frame for it since the radio last rebooted. */
  ghost predicate CacheOK(cx: Codec, s: State) {
    && (forall p :: p in s.radio ==> p != [])
    && (forall k: Key :: s.cache.Lookup(k) == LastFor(cx, s.radio, k))
  }

  lemma CacheGrows(cx: Codec, s: State, payload: Payload, m: FromRadio)
    requires CacheOK(cx, s) && payload != [] && cx.parseFrom(payload) == Some(m) && !m.Rebooted?
    ensures CacheOK(cx, s.(cache := s.cache.Updated(m, payload), radio := s.radio + [payload]))
  {
    var longer := s.radio + [payload];
    assert longer[..|s.radio|] == s.radio;
    forall k: Key
      ensures s.cache.Updated(m, payload).Lookup(k) == LastFor(cx, longer, k)
    {
      UpdateLookup(s.cache, m, payload, k);
    }
  }

  lemma CacheResets(cx: Codec, s: State, payload: Payload)
    requires CacheOK(cx, s) && payload != []
    requires cx.parseFrom(payload).Some? && cx.parseFrom(payload).value.Rebooted?
    ensures CacheOK(cx, s.(cache := EMPTY, radio := s.radio + [payload]))
  {
  }

  lemma {:induction false} LastForFrame(cx: Codec, log: seq<Payload>, k: Key)
    requires LastFor(cx, log, k).Some?
    ensures var p := LastFor(cx, log, k).value;
            p in log && ForSlot(cx, p, k)
  {
    var p := log[|log| - 1];
    var m := cx.parseFrom(p);
    if !(m.Some? && KeyOf(m.value) == Some(k)) {
      LastForFrame(cx, log[..|log| - 1], k);
    }
  }

  /** A reply from the cache consists of cacheable frames and one completion, its last. */
  lemma ScriptFrames(cx: Codec, s: State, x: u32)
    requires CacheOK(cx, s)
    ensures RestOK(cx, Replay(x, Script(cx, Cause(x, s.cache))))
  {
    hide LastFor;
    var ks, ps := SnapshotKeys(s.cache), s.cache.Snapshot().Frames();
    SnapshotComplete(s.cache);
    forall i | 0 <= i < |ps|
      ensures ps[i] != [] && Cacheable(cx, ps[i])
    {
      assert s.cache.Lookup(ks[i]) == Some(ps[i]);
      LastForFrame(cx, s.radio, ks[i]);
    }
  }

  // ----- what a client hears

  /** The cacheable radio frames in a client's queue log. */
  function Heard(cx: Codec, log: seq<Entry>): seq<Payload> {
    if log == [] then []
    else
      var e := log[|log| - 1];
      Heard(cx, log[..|log| - 1]) + if e.origin == Live && Cacheable(cx, e.payload) then [e.payload] else []
  }

  function CacheFrames(cx: Codec, radio: seq<Payload>): seq<Payload> {
    if radio == [] then []
    else
      var p := radio[|radio| - 1];
      CacheFrames(cx, radio[..|radio| - 1]) + if Cacheable(cx, p) then [p] else []
  }

  /** An open connection has heard every cacheable frame since it was made, in order. */
  ghost predicate Hears(cx: Codec, pr: Peer, radio: seq<Payload>) {
    !pr.closed ==>
      pr.hist.joined <= |radio| && Heard(cx, pr.hist.log) == CacheFrames(cx, radio[pr.hist.joined..])
  }

  ghost predicate HeardOK(cx: Codec, s: State) {
    forall c :: c in s.peers ==> Hears(cx, s.peers[c], s.radio)
  }

  lemma HeardGrow(cx: Codec, log: seq<Entry>, e: Entry)
    ensures Heard(cx, log + [e]) ==
            Heard(cx, log) + if e.origin == Live && Cacheable(cx, e.payload) then [e.payload] else []
  {
    assert (log + [e])[..|log|] == log;
  }

  lemma FramesGrow(cx: Codec, radio: seq<Payload>, p: Payload, from: nat)
    requires from <= |radio|
    ensures CacheFrames(cx, (radio + [p])[from..]) ==
            CacheFrames(cx, radio[from..]) + if Cacheable(cx, p) then [p] else []
  {
    var tail := radio[from..];
    assert (radio + [p])[from..] == tail + [p];
    assert (tail + [p])[..|tail|] == tail;
  }

  lemma HearsOffered(cx: Codec, pr: Peer, radio: seq<Payload>, p: Payload, o: Origin)
    requires Hears(cx, pr, radio) && !(o == Live && Cacheable(cx, p))
    ensures Hears(cx, pr.Offered(p, o), radio)
  {
    hide Heard, CacheFrames, Cacheable;
    HeardGrow(cx, pr.hist.log, Entry(p, o));
  }

  lemma HearsMore(cx: Codec, pr: Peer, radio: seq<Payload>, p: Payload)
    requires Hears(cx, pr, radio)
    ensures !Cacheable(cx, p) ==> Hears(cx, pr, radio + [p])
    ensures Hears(cx, pr.Offered(p, Live), radio + [p])
  {
    hide Heard, CacheFrames, Cacheable;
    if !pr.closed {
      HeardGrow(cx, pr.hist.log, Entry(p, Live));
      FramesGrow(cx, radio, p, pr.hist.joined);
    }
  }

  /** A frame that clients need not hear. */
  lemma HeardNoise(cx: Codec, s: State, payload: Payload, cache: Cache)
    requires HeardOK(cx, s) && !Cacheable(cx, payload)
    ensures HeardOK(cx, s.(cache := cache, radio := s.radio + [payload]))
  {
    hide Hears, Cacheable;
    forall c | c in s.peers
      ensures Hears(cx, s.peers[c], s.radio + [payload])
    {
      HearsMore(cx, s.peers[c], s.radio, payload);
    }
  }

  lemma HeardDelivered(cx: Codec, s: State, t: State, targets: set<ClientId>, p: Payload, o: Origin)
    requires HeardOK(cx, s) && Delivered(s, t, targets, p, o) && !(o == Live && Cacheable(cx, p))
    ensures HeardOK(cx, t)
  {
    hide Hears, Cacheable, Gone, DropOwners;
    forall c | c in t.peers
      ensures Hears(cx, t.peers[c], t.radio)
    {
      HearsOffered(cx, s.peers[c], s.radio, p, o);
    }
  }

  /** A radio frame broadcast to all clients. s1 is the broker once it has logged it. */
  lemma HeardBroadcast(cx: Codec, s: State, s1: State, t: State, payload: Payload)
    requires HeardOK(cx, s) && Members(s) && s1.peers == s.peers && s1.clients == s.clients
    requires s1.radio == s.radio + [payload]
    requires Delivered(s1, t, s1.clients, payload, Live)
    ensures HeardOK(cx, t)
  {
    hide Heard, CacheFrames, Gone, DropOwners;
    forall c | c in t.peers
      ensures Hears(cx, t.peers[c], t.radio)
    {
      HearsMore(cx, s.peers[c], s.radio, payload);
    }
  }

  /** Same log, and closed if it was. */
  lemma HearsSame(cx: Codec, pr: Peer, qr: Peer, radio: seq<Payload>)
    requires Hears(cx, pr, radio) && qr.hist.log == pr.hist.log && qr.hist.joined == pr.hist.joined &&
             (pr.closed ==> qr.closed)
    ensures Hears(cx, qr, radio)
  {
  }

  lemma HearsAdvance(cx: Codec, pr: Peer, radio: seq<Payload>, ok: bool)
    requires Hears(cx, pr, radio) && pr.replay.Some? && pr.replay.value.rest != [] && pr.hist.replays != []
    ensures Hears(cx, pr.Advance(ok), radio)
  {
    hide Heard, CacheFrames, Cacheable;
    if ok {
      HeardGrow(cx, pr.hist.log, Entry(pr.replay.value.rest[0], Cached(|pr.hist.replays| - 1)));
    }
  }

  lemma HeardConnect(cx: Codec, s: State, c: ClientId)
    requires HeardOK(cx, s) && c !in s.peers
    ensures HeardOK(cx, Connect(s, c))
  {
    assert s.radio[|s.radio|..] == [];
    forall d | d in Connect(s, c).peers
      ensures Hears(cx, Connect(s, c).peers[d], s.radio)
    {
      if d != c {
        assert Hears(cx, s.peers[d], s.radio);
      }
    }
  }

  // ----- what follows for a client

  lemma {:induction false} FramesEnd(cx: Codec, a: seq<Payload>, b: seq<Payload>)
    ensures CacheFrames(cx, a + b) == CacheFrames(cx, a) + CacheFrames(cx, b)
  {
    if b == [] {
      assert a + b == a;
    } else {
      assert (a + b)[..|a + b| - 1] == a + b[..|b| - 1];
      FramesEnd(cx, a, b[..|b| - 1]);
    }
  }

  /** The frames since any later moment are the end of what the client has heard. */
  lemma HeardSince(cx: Codec, s: State, c: ClientId, since: nat)
    requires HeardOK(cx, s) && c in s.peers && !s.peers[c].closed
    requires s.peers[c].hist.joined <= since <= |s.radio|
    ensures Ends(Heard(cx, s.peers[c].hist.log), CacheFrames(cx, s.radio[since..]))
  {
    hide CacheFrames, Heard;
    var joined := s.peers[c].hist.joined;
    assert Hears(cx, s.peers[c], s.radio);
    assert s.radio[joined..] == s.radio[joined..since] + s.radio[since..];
    FramesEnd(cx, s.radio[joined..since], s.radio[since..]);
  }

  /** When the radio's completion reaches a client, the client's queue has already been
      given, in order, every cacheable frame the radio sent since any earlier moment
      `since` of the connection, such as the request; the completion comes after them. */
  lemma ColdPathComplete(cx: Codec, s: State, id: u32, promo: ClientId, c: ClientId, since: nat)
    requires HeardOK(cx, s) && Members(s)
    requires id in s.pending && s.pending[id].owner == Some(c) && c in s.clients && s.peers[c].Room()
    requires s.peers[c].hist.joined <= since <= |s.radio|
    ensures Complete(cx, s, id, promo).peers[c].hist.log ==
      s.peers[c].hist.log + [Entry(cx.marshalComplete(s.pending[id].original), Answer)]
    ensures Ends(Heard(cx, s.peers[c].hist.log), CacheFrames(cx, s.radio[since..]))
  {
    hide CacheFrames, Heard, HeardOK;
    HeardSince(cx, s, c, since);
  }

  /** The radio frames since the last Rebooted. */
  function SinceReset(cx: Codec, radio: seq<Payload>): seq<Payload> {
    if radio == [] then []
    else
      var m := cx.parseFrom(radio[|radio| - 1]);
      if m.Some? && m.value.Rebooted? then []
      else SinceReset(cx, radio[..|radio| - 1]) + [radio[|radio| - 1]]
  }

  lemma {:induction false} SinceResetEnds(cx: Codec, radio: seq<Payload>)
    ensures Ends(radio, SinceReset(cx, radio))
  {
    if radio != [] {
      var init, last := radio[..|radio| - 1], radio[|radio| - 1];
      SinceResetEnds(cx, init);
      assert radio == init + [last];
      EndsGrow(init, SinceReset(cx, init), last);
    }
  }

  /** The radio sent a frame for the slot since it last rebooted. */
  ghost predicate Came(cx: Codec, radio: seq<Payload>, k: Key) {
    exists p :: p in SinceReset(cx, radio) && ForSlot(cx, p, k)
  }

  lemma {:induction false} LastForCame(cx: Codec, radio: seq<Payload>, k: Key)
    ensures LastFor(cx, radio, k).Some? <==> Came(cx, radio, k)
  {
    if radio != [] {
      var init, last := radio[..|radio| - 1], radio[|radio| - 1];
      var m := cx.parseFrom(last);
      LastForCame(cx, init, k);
      if !(m.Some? && m.value.Rebooted?) {
        assert SinceReset(cx, radio) == SinceReset(cx, init) + [last];
        if m.Some? && KeyOf(m.value) == Some(k) {
          assert last in SinceReset(cx, radio);
        } else if Came(cx, init, k) {
          var p :| p in SinceReset(cx, init) && ForSlot(cx, p, k);
          assert p in SinceReset(cx, radio);
        }
      }
    }
  }

  lemma LastForGrow(cx: Codec, log: seq<Payload>, p: Payload, k: Key)
    ensures var m := cx.parseFrom(p);
            LastFor(cx, log + [p], k) ==
              if m.Some? && m.value.Rebooted? then None
              else if m.Some? && KeyOf(m.value) == Some(k) then Some(p)
              else LastFor(cx, log, k)
  {
    assert (log + [p])[..|log|] == log;
  }

  lemma NoFrames(cx: Codec, k: Key)
    ensures CacheFrames(cx, []) == [] && LastFor(cx, [], k) == None
  {
  }

  lemma {:induction false} LastForHeard(cx: Codec, radio: seq<Payload>, k: Key)
    ensures LastFor(cx, radio, k) == LastFor(cx, CacheFrames(cx, SinceReset(cx, radio)), k)
  {
    hide LastFor, CacheFrames;
    NoFrames(cx, k);
    if radio != [] {
      var init, p := radio[..|radio| - 1], radio[|radio| - 1];
      LastForHeard(cx, init, k);
      var recent := SinceReset(cx, init);
      var frames := CacheFrames(cx, recent);
      assert radio == init + [p];
      LastForGrow(cx, init, p, k);
      LastForGrow(cx, frames, p, k);
      FramesGrow(cx, recent, p, 0);
      assert recent[0..] == recent && (recent + [p])[0..] == recent + [p];
      assert frames + [] == frames;
    }
  }

  /** A client connected since before the last reset can rebuild the cache from what it
      has heard live: slot by slot, the last frame it heard is the cached one. */
  lemma LiveViewIsCache(cx: Codec, s: State, c: ClientId)
    requires CacheOK(cx, s) && HeardOK(cx, s) && c in s.peers && !s.peers[c].closed
    requires s.peers[c].hist.joined + |SinceReset(cx, s.radio)| <= |s.radio|
    ensures var live := CacheFrames(cx, SinceReset(cx, s.radio));
            && Ends(Heard(cx, s.peers[c].hist.log), live)
            && (forall k: Key :: LastFor(cx, live, k) == s.cache.Lookup(k))
  {
    hide CacheFrames, Heard, LastFor, SinceReset, HeardOK;
    SinceResetEnds(cx, s.radio);
    HeardSince(cx, s, c, |s.radio| - |SinceReset(cx, s.radio)|);
    forall k: Key
      ensures LastFor(cx, CacheFrames(cx, SinceReset(cx, s.radio)), k) == s.cache.Lookup(k)
    {
      LastForHeard(cx, s.radio, k);
    }
  }
}
