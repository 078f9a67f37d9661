/** One connection over a run: its queue, its bytes, and its cached replies. */
module Connections {
  import opened Protocol
  import opened ConfigCaches
  import opened Model
  import Frame
  import Stream

  function Contents(log: seq<Entry>): (ps: seq<Payload>)
    ensures |ps| == |log| && forall i :: 0 <= i < |log| ==> ps[i] == log[i].payload
  {
    if log == [] then [] else Contents(log[..|log| - 1]) + [log[|log| - 1].payload]
  }

  lemma ContentsGrow(log: seq<Entry>, e: Entry)
    ensures Contents(log + [e]) == Contents(log) + [e.payload]
  {
    assert (log + [e])[..|log|] == log;
  }

  // ----- the queue and the bytes

  predicate Ends(a: seq<Payload>, q: seq<Payload>) {
    |q| <= |a| && a[|a| - |q|..] == q
  }

  lemma EndsGrow(a: seq<Payload>, q: seq<Payload>, p: Payload)
    requires Ends(a, q)
    ensures Ends(a + [p], q + [p])
  {
    assert (a + [p])[|a| - |q|..] == a[|a| - |q|..] + [p];
  }

  lemma EndsShrink(a: seq<Payload>, q: seq<Payload>)
    requires Ends(a, q) && q != []
    ensures Ends(a, q[1..])
  {
    assert a[|a| - |q|..][1..] == a[|a| - |q| + 1..];
  }

  /** The connection got its frames in order, and perhaps the start of one more. */
  ghost predicate Cut(conn: seq<byte>, written: seq<Payload>, addressed: seq<Payload>) {
    || conn == Stream.Encode(written)
    || (|written| < |addressed| && Frame.Framable(addressed[|written|])
        && exists n :: 0 <= n <= |Frame.FrameBytes(addressed[|written|])|
                       && conn == Stream.Encode(written) + Frame.FrameBytes(addressed[|written|])[..n])
  }

  /** While a connection is open, what was addressed to it is what was written, then what
      is queued. Whether open or closed, what was written is a prefix of it. */
  ghost predicate Queued(pr: Peer) {
    var accepted := Contents(pr.hist.log);
    && |pr.queue| <= SEND_BUFFER
    && Ends(accepted, pr.queue)
    && pr.hist.written <= pr.hist.addressed
    && (forall p :: p in pr.hist.written ==> Frame.Framable(p))
    && (forall p :: p in pr.hist.addressed ==> p != [])
    && Cut(pr.conn, pr.hist.written, pr.hist.addressed)
    && (!pr.closed ==>
          pr.hist.addressed == accepted == pr.hist.written + pr.queue && pr.conn == Stream.Encode(pr.hist.written))
  }

  lemma CutStays(conn: seq<byte>, written: seq<Payload>, addressed: seq<Payload>, p: Payload)
    requires Cut(conn, written, addressed) && written <= addressed
    ensures Cut(conn, written, addressed + [p])
  {
  }

  lemma AcceptQueued(pr: Peer, p: Payload, o: Origin)
    requires Queued(pr) && pr.Room() && p != []
    ensures Queued(pr.Accept(p, o))
  {
    hide Cut, Contents, Ends;
    ContentsGrow(pr.hist.log, Entry(p, o));
    CutStays(pr.conn, pr.hist.written, pr.hist.addressed, p);
    EndsGrow(Contents(pr.hist.log), pr.queue, p);
    assert pr.hist.written + (pr.queue + [p]) == pr.hist.written + pr.queue + [p];
  }

  lemma RefuseQueued(pr: Peer, p: Payload)
    requires Queued(pr) && p != []
    ensures Queued(pr.Refuse(p).Close())
  {
    hide Cut;
    CutStays(pr.conn, pr.hist.written, pr.hist.addressed, p);
  }

  lemma CloseQueued(pr: Peer)
    requires Queued(pr)
    ensures Queued(pr.Close())
  {
    hide Cut;
  }

  lemma OfferedQueued(pr: Peer, p: Payload, o: Origin)
    requires Queued(pr) && p != []
    ensures Queued(pr.Offered(p, o))
  {
    hide Queued;
    if !pr.closed && pr.Room() {
      AcceptQueued(pr, p, o);
    } else {
      RefuseQueued(pr, p);
    }
  }

  /** Every field that Queued depends on is the same. */
  predicate SameQueue(pr: Peer, qr: Peer) {
    && qr.queue == pr.queue && qr.closed == pr.closed && qr.conn == pr.conn
    && qr.hist.log == pr.hist.log && qr.hist.addressed == pr.hist.addressed && qr.hist.written == pr.hist.written
  }

  lemma SameQueued(pr: Peer, qr: Peer)
    requires Queued(pr) && SameQueue(pr, qr)
    ensures Queued(qr)
  {
    hide Cut, Contents;
  }

  lemma EncodeGrows(written: seq<Payload>, p: Payload)
    ensures Stream.Encode(written + [p]) == Stream.Encode(written) + Frame.FrameBytes(p)
  {
    assert (written + [p])[..|written|] == written;
  }

  lemma WrittenQueued(pr: Peer, n: nat)
    requires Queued(pr) && pr.queue != [] && pr.Writes(true)
    ensures Queued(pr.Drained(true, n))
  {
    hide Contents, Ends, Stream.Encode, Frame.FrameBytes;
    var p := pr.queue[0];
    assert pr.queue == [p] + pr.queue[1..];
    assert pr.hist.written + pr.queue == pr.hist.written + [p] + pr.queue[1..];
    assert pr.hist.addressed[|pr.hist.written|] == p && p in pr.hist.addressed;
    EndsShrink(Contents(pr.hist.log), pr.queue);
    EncodeGrows(pr.hist.written, p);
  }

  lemma CutQueued(pr: Peer, ok: bool, n: nat)
    requires Queued(pr) && pr.queue != [] && !pr.Writes(ok)
    ensures Queued(pr.Drained(ok, n).Close())
  {
    hide Contents, Ends, Stream.Encode, Frame.FrameBytes;
    EndsShrink(Contents(pr.hist.log), pr.queue);
    var p := pr.queue[0];
    if !pr.closed && |p| <= Frame.MAX_SIZE {
      assert pr.hist.addressed[|pr.hist.written|] == p && p in pr.hist.addressed;
      var whole := Frame.FrameBytes(p);
      var k := if n <= |whole| then n else |whole|;
      assert whole[..|whole|] == whole;
      assert pr.Drained(ok, n).conn == Stream.Encode(pr.hist.written) + whole[..k];
    }
  }

  /** The writer's turn. When the write fails the connection is closed with it. */
  lemma DrainedQueued(pr: Peer, ok: bool, n: nat)
    requires Queued(pr) && pr.queue != []
    ensures pr.Writes(ok) ==> Queued(pr.Drained(ok, n))
    ensures !pr.Writes(ok) ==> Queued(pr.Drained(ok, n).Close())
  {
    hide Queued;
    if pr.Writes(ok) {
      WrittenQueued(pr, n);
    } else {
      CutQueued(pr, ok, n);
    }
  }

  /** End to end: the frames a client decodes from its connection are a gap-free prefix
      of the payloads addressed to it, in order. While the connection is open they are,
      together with at most 64 queued payloads, everything addressed to it. */
  lemma DeliveredInOrder(pr: Peer)
    requires Queued(pr)
    ensures Stream.Payloads(Stream.Decode(pr.conn)) <= pr.hist.addressed
    ensures !pr.closed ==> Stream.Payloads(Stream.Decode(pr.conn)) + pr.queue == pr.hist.addressed
    ensures |pr.queue| <= SEND_BUFFER
  {
    hide Stream.Decode, Stream.Encode, Frame.FrameBytes, Frame.Framable, Contents;
    var written := pr.hist.written;
    Stream.RoundTrip(written, []);
    assert Stream.Encode(written) + [] == Stream.Encode(written);
    NothingDecoded();
    if pr.conn != Stream.Encode(written) {
      var p := pr.hist.addressed[|written|];
      var n :| 0 <= n <= |Frame.FrameBytes(p)| && pr.conn == Stream.Encode(written) + Frame.FrameBytes(p)[..n];
      Stream.RoundTrip(written, Frame.FrameBytes(p)[..n]);
      Stream.CutFrame(p, n);
      assert written + [p] <= pr.hist.addressed;
    }
  }

  lemma NothingDecoded()
    ensures Stream.Payloads(Stream.Decode([])) == []
  {
  }

  // ----- cached replies

  /** The payloads of the k-th cached reply that the queue has accepted. */
  function Replayed(log: seq<Entry>, k: nat): seq<Payload> {
    if log == [] then []
    else
      var e := log[|log| - 1];
      Replayed(log[..|log| - 1], k) + if e.origin == Cached(k) then [e.payload] else []
  }

  lemma ReplayedGrow(log: seq<Entry>, e: Entry)
    ensures forall k :: Replayed(log + [e], k) == Replayed(log, k) + if e.origin == Cached(k) then [e.payload] else []
  {
    assert (log + [e])[..|log|] == log;
  }

  /** Each cached reply has enqueued, in order, its whole script, or a proper prefix of it
      on a connection that is closed; one in progress has enqueued all but its rest. */
  ghost predicate Replays(cx: Codec, pr: Peer) {
    && (pr.replay.Some? ==>
          (pr.hist.replays != [] && pr.replay.value.rest != []
           && pr.replay.value.original == pr.hist.replays[|pr.hist.replays| - 1].original))
    && (forall k: nat :: k >= |pr.hist.replays| ==> Replayed(pr.hist.log, k) == [])
    && (forall k: nat :: k < |pr.hist.replays| ==> ReplayState(cx, pr, k))
  }

  ghost predicate ReplayState(cx: Codec, pr: Peer, k: nat)
    requires k < |pr.hist.replays|
  {
    var script := Script(cx, pr.hist.replays[k]);
    if k == |pr.hist.replays| - 1 && pr.replay.Some?
    then Replayed(pr.hist.log, k) + pr.replay.value.rest == script
    else Replayed(pr.hist.log, k) == script || (pr.closed && Replayed(pr.hist.log, k) < script)
  }

  lemma AcceptReplays(cx: Codec, pr: Peer, p: Payload, o: Origin)
    requires Replays(cx, pr) && !o.Cached?
    ensures Replays(cx, pr.Accept(p, o))
  {
    hide Script;
    ReplayedGrow(pr.hist.log, Entry(p, o));
    forall k: nat | k < |pr.hist.replays|
      ensures ReplayState(cx, pr.Accept(p, o), k)
    {
      assert ReplayState(cx, pr, k);
    }
  }

  /** Closing, and any change that leaves the log and the replies alone. */
  lemma SameReplays(cx: Codec, pr: Peer, qr: Peer)
    requires Replays(cx, pr)
    requires qr.hist.log == pr.hist.log && qr.hist.replays == pr.hist.replays && qr.replay == pr.replay
    requires pr.closed ==> qr.closed
    ensures Replays(cx, qr)
  {
    hide Script, Replayed;
    forall k: nat | k < |qr.hist.replays|
      ensures ReplayState(cx, qr, k)
    {
      assert ReplayState(cx, pr, k);
    }
  }

  lemma OfferedReplays(cx: Codec, pr: Peer, p: Payload, o: Origin)
    requires Replays(cx, pr) && !o.Cached?
    ensures Replays(cx, pr.Offered(p, o))
  {
    hide Replays;
    if !pr.closed && pr.Room() {
      AcceptReplays(cx, pr, p, o);
    } else {
      SameReplays(cx, pr, pr.Offered(p, o));
    }
  }

  lemma BeginReplays(cx: Codec, pr: Peer, x: u32, cache: Cache)
    requires Replays(cx, pr) && pr.replay == None
    ensures Replays(cx, pr.Begin(x, cache, Script(cx, Cause(x, cache))))
  {
    hide Replayed;
    var qr := pr.Begin(x, cache, Script(cx, Cause(x, cache)));
    forall k: nat | k < |qr.hist.replays|
      ensures ReplayState(cx, qr, k)
    {
      if k < |pr.hist.replays| {
        assert ReplayState(cx, pr, k);
      } else {
        assert Replayed(pr.hist.log, k) == [];
        assert [] + qr.replay.value.rest == qr.replay.value.rest;
      }
    }
  }

  lemma AdvanceReplays(cx: Codec, pr: Peer)
    requires Replays(cx, pr) && pr.replay.Some?
    ensures Replays(cx, pr.Advance(true))
  {
    hide Script;
    var Replay(x, rest) := pr.replay.value;
    var last := |pr.hist.replays| - 1;
    var qr := pr.Advance(true);
    ReplayedGrow(pr.hist.log, Entry(rest[0], Cached(last)));
    forall k: nat | k < |qr.hist.replays|
      ensures ReplayState(cx, qr, k)
    {
      assert ReplayState(cx, pr, k);
      if k == last {
        assert Replayed(qr.hist.log, k) == Replayed(pr.hist.log, k) + [rest[0]];
        assert Replayed(qr.hist.log, k) + rest[1..] == Replayed(pr.hist.log, k) + rest;
      }
    }
  }

  lemma RefuseReplays(cx: Codec, pr: Peer)
    requires Replays(cx, pr) && pr.replay.Some?
    ensures Replays(cx, pr.Advance(false).Close())
  {
    hide Script, Replayed;
    var qr := pr.Advance(false).Close();
    forall k: nat | k < |qr.hist.replays|
      ensures ReplayState(cx, qr, k)
    {
      assert ReplayState(cx, pr, k);
    }
  }

  /** A cached reply that is over on an open connection has enqueued its whole snapshot in
      order and then, last, the completion with the client's own id. */
  lemma FinishedReply(cx: Codec, pr: Peer, k: nat)
    requires Replays(cx, pr) && k < |pr.hist.replays|
    requires !pr.closed && (k < |pr.hist.replays| - 1 || pr.replay == None)
    ensures Replayed(pr.hist.log, k) ==
      pr.hist.replays[k].cache.Snapshot().Frames() + [cx.marshalComplete(pr.hist.replays[k].original)]
  {
    assert ReplayState(cx, pr, k);
  }

  // ----- what kinds of frames are queued

  predicate Cacheable(cx: Codec, p: Payload) {
    var m := cx.parseFrom(p);
    m.Some? && KeyOf(m.value).Some?
  }

  /** A frame of the slot. */
  predicate ForSlot(cx: Codec, p: Payload, k: Key) {
    Cacheable(cx, p) && KeyOf(cx.parseFrom(p).value) == Some(k)
  }

  /** A frame clients may see: it parses, and it is not a Rebooted. */
  predicate Showable(cx: Codec, p: Payload) {
    var m := cx.parseFrom(p);
    m.Some? && !m.value.Rebooted?
  }

  predicate IsCompletion(cx: Codec, p: Payload, x: u32) {
    cx.parseFrom(p) == Some(ConfigComplete(x))
  }

  /** The frames of a reply in progress: cache frames, then its own completion. */
  predicate RestOK(cx: Codec, r: Replay) {
    && r.rest != []
    && r.rest[|r.rest| - 1] == cx.marshalComplete(r.original)
    && (forall i :: 0 <= i < |r.rest| - 1 ==> r.rest[i] != [] && Cacheable(cx, r.rest[i]))
  }

  ghost predicate Tidy(cx: Codec, pr: Peer) {
    && (forall i :: 0 <= i < |pr.hist.log| ==> Showable(cx, pr.hist.log[i].payload))
    && (pr.replay.Some? ==> RestOK(cx, pr.replay.value))
  }

  lemma OfferedTidy(cx: Codec, pr: Peer, p: Payload, o: Origin)
    requires Tidy(cx, pr) && Showable(cx, p)
    ensures Tidy(cx, pr.Offered(p, o))
  {
    hide RestOK, Showable;
  }

  lemma SameTidy(cx: Codec, pr: Peer, qr: Peer)
    requires Tidy(cx, pr) && qr.hist.log == pr.hist.log && (qr.replay == pr.replay || qr.replay == None)
    ensures Tidy(cx, qr)
  {
  }

  lemma RestFrames(cx: Codec, r: Replay, i: nat)
    requires cx.Lawful() && RestOK(cx, r) && i < |r.rest|
    ensures r.rest[i] != [] && Showable(cx, r.rest[i])
  {
  }

  lemma AdvanceTidy(cx: Codec, pr: Peer)
    requires cx.Lawful() && Tidy(cx, pr) && pr.replay.Some? && pr.hist.replays != []
    ensures Tidy(cx, pr.Advance(true))
  {
    RestFrames(cx, pr.replay.value, 0);
  }

  // ----- all of it

  ghost predicate ConnectionOK(cx: Codec, pr: Peer) {
    Queued(pr) && Replays(cx, pr) && Tidy(cx, pr)
  }

  lemma NewConnection(cx: Codec, joined: nat)
    ensures ConnectionOK(cx, NewPeer(joined))
  {
    assert Contents([]) == [];
  }

  lemma OfferedConnection(cx: Codec, pr: Peer, p: Payload, o: Origin)
    requires ConnectionOK(cx, pr) && p != [] && Showable(cx, p) && !o.Cached?
    ensures ConnectionOK(cx, pr.Offered(p, o))
  {
    hide Queued, Replays, Tidy;
    OfferedQueued(pr, p, o);
    OfferedReplays(cx, pr, p, o);
    OfferedTidy(cx, pr, p, o);
  }

  lemma SameConnection(cx: Codec, pr: Peer, qr: Peer)
    requires ConnectionOK(cx, pr) && SameQueue(pr, qr)
    requires qr.hist.replays == pr.hist.replays && qr.replay == pr.replay
    ensures ConnectionOK(cx, qr)
  {
    hide Queued, Replays, Tidy;
    SameQueued(pr, qr);
    SameReplays(cx, pr, qr);
    SameTidy(cx, pr, qr);
  }

  lemma ClosedConnection(cx: Codec, pr: Peer)
    requires ConnectionOK(cx, pr)
    ensures ConnectionOK(cx, pr.Close())
  {
    hide Queued, Replays, Tidy;
    CloseQueued(pr);
    SameReplays(cx, pr, pr.Close());
    SameTidy(cx, pr, pr.Close());
  }

  lemma BeginConnection(cx: Codec, pr: Peer, x: u32, cache: Cache)
    requires cx.Lawful() && ConnectionOK(cx, pr) && pr.replay == None
    requires RestOK(cx, Replay(x, Script(cx, Cause(x, cache))))
    ensures ConnectionOK(cx, pr.Begin(x, cache, Script(cx, Cause(x, cache))))
  {
    hide Queued, Replays, Script, RestOK;
    var qr := pr.Begin(x, cache, Script(cx, Cause(x, cache)));
    SameQueued(pr, qr);
    BeginReplays(cx, pr, x, cache);
  }

  lemma AdvanceConnection(cx: Codec, pr: Peer, ok: bool)
    requires cx.Lawful() && ConnectionOK(cx, pr) && pr.replay.Some? && pr.hist.replays != [] &&
             pr.replay.value.rest != []
    requires ok ==> pr.Room()
    ensures ok ==> ConnectionOK(cx, pr.Advance(ok))
    ensures !ok ==> ConnectionOK(cx, pr.Advance(ok).Close())
  {
    hide Queued, Replays, RestOK, Showable;
    var p := pr.replay.value.rest[0];
    RestFrames(cx, pr.replay.value, 0);
    if ok {
      var accepted := pr.Accept(p, Cached(|pr.hist.replays| - 1));
      AcceptQueued(pr, p, Cached(|pr.hist.replays| - 1));
      SameQueued(accepted, pr.Advance(ok));
      AdvanceReplays(cx, pr);
      AdvanceTidy(cx, pr);
    } else {
      var refused := pr.Refuse(p).Close();
      RefuseQueued(pr, p);
      SameQueued(refused, pr.Advance(ok).Close());
      RefuseReplays(cx, pr);
      SameTidy(cx, pr, pr.Advance(ok).Close());
    }
  }

  lemma DrainedConnection(cx: Codec, pr: Peer, ok: bool, n: nat)
    requires ConnectionOK(cx, pr) && pr.queue != []
    ensures pr.Writes(ok) ==> ConnectionOK(cx, pr.Drained(ok, n))
    ensures !pr.Writes(ok) ==> ConnectionOK(cx, pr.Drained(ok, n).Close())
  {
    hide Queued, Replays, Tidy;
    DrainedQueued(pr, ok, n);
    SameReplays(cx, pr, pr.Drained(ok, n));
    SameReplays(cx, pr, pr.Drained(ok, n).Close());
    SameTidy(cx, pr, pr.Drained(ok, n));
    SameTidy(cx, pr, pr.Drained(ok, n).Close());
  }
}
