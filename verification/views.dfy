/** What a client was given last for a slot of the cache, whether live or in a cached reply. */
module Views {
  import opened Protocol
  import opened ConfigCaches
  import opened Model
  import opened Connections
  import opened ColdPath

  /** The last entry for the slot in a client's log. */
  function LastSeen(cx: Codec, log: seq<Entry>, k: Key): Option<Entry> {
    if log == [] then None
    else
      var e := log[|log| - 1];
      if (e.origin == Live || e.origin.Cached?) && ForSlot(cx, e.payload, k) then Some(e)
      else LastSeen(cx, log[..|log| - 1], k)
  }

  function Shown(e: Option<Entry>): Option<Payload> {
    if e == None then None else Some(e.value.payload)
  }

  predicate NoReboot(cx: Codec, radio: seq<Payload>, from: nat) {
    forall i :: from <= i < |radio| ==> !Announces(cx, radio[i])
  }

  lemma {:induction false} SeenAppend(cx: Codec, a: seq<Entry>, b: seq<Entry>, k: Key)
    ensures LastSeen(cx, a + b, k) == if LastSeen(cx, b, k) == None then LastSeen(cx, a, k) else LastSeen(cx, b, k)
  {
    if b == [] {
      assert a + b == a;
    } else {
      assert (a + b)[..|a + b| - 1] == a + b[..|b| - 1];
      SeenAppend(cx, a, b[..|b| - 1], k);
    }
  }

  lemma SeenNow(cx: Codec, log: seq<Entry>, e: Entry, k: Key)
    requires ForSlot(cx, e.payload, k) && (e.origin == Live || e.origin.Cached?)
    ensures LastSeen(cx, log + [e], k) == Some(e)
  {
  }

  /** What was seen last is in the log; if it came live it is also what was heard last, and
      if nothing was seen nothing was heard. */
  lemma {:induction false} SeenLive(cx: Codec, log: seq<Entry>, k: Key)
    ensures var e, heard := LastSeen(cx, log, k), LastFor(cx, Heard(cx, log), k);
            && (e.Some? ==>
                  e.value in log && ForSlot(cx, e.value.payload, k)
                  && (e.value.origin == Live || e.value.origin.Cached?))
            && (e.Some? && e.value.origin == Live ==> heard == Some(e.value.payload))
            && (e == None ==> heard == None)
  {
    hide LastFor, Heard;
    if log == [] {
      NothingHeard(cx, k);
    } else {
      var init, e := log[..|log| - 1], log[|log| - 1];
      SeenLive(cx, init, k);
      assert log == init + [e];
      HeardGrow(cx, init, e);
      LastForGrow(cx, Heard(cx, init), e.payload, k);
      assert Heard(cx, init) + [] == Heard(cx, init);
    }
  }

  lemma NothingHeard(cx: Codec, k: Key)
    ensures LastFor(cx, Heard(cx, []), k) == None
  {
  }

  lemma {:induction false} NothingSeen(cx: Codec, log: seq<Entry>, k: Key, e: Entry)
    requires LastSeen(cx, log, k) == None && e in log && e.origin.Cached?
    ensures !ForSlot(cx, e.payload, k)
  {
    if e != log[|log| - 1] {
      NothingSeen(cx, log[..|log| - 1], k, e);
    }
  }

  // ----- the radio log without a reboot

  lemma {:induction false} LastForAppend(cx: Codec, a: seq<Payload>, b: seq<Payload>, k: Key)
    requires NoReboot(cx, b, 0)
    ensures LastFor(cx, a + b, k) == if LastFor(cx, b, k) == None then LastFor(cx, a, k) else LastFor(cx, b, k)
  {
    if b == [] {
      assert a + b == a;
    } else {
      var init, p := b[..|b| - 1], b[|b| - 1];
      assert !Announces(cx, b[|b| - 1]);
      assert (a + b)[..|a + b| - 1] == a + init;
      LastForAppend(cx, a, init, k);
    }
  }

  lemma {:induction false} NothingReset(cx: Codec, radio: seq<Payload>)
    requires NoReboot(cx, radio, 0)
    ensures SinceReset(cx, radio) == radio
  {
    if radio != [] {
      assert !Announces(cx, radio[|radio| - 1]);
      NothingReset(cx, radio[..|radio| - 1]);
    }
  }

  /** Between two moments without a reboot, a slot keeps its frame unless a newer one came. */
  lemma SlotMeanwhile(cx: Codec, was: seq<Payload>, radio: seq<Payload>, k: Key)
    requires was <= radio && NoReboot(cx, radio, |was|)
    ensures var newer := LastFor(cx, CacheFrames(cx, radio[|was|..]), k);
            && LastFor(cx, radio, k) == (if newer == None then LastFor(cx, was, k) else newer)
            && (newer.Some? <==> exists i :: |was| <= i < |radio| && ForSlot(cx, radio[i], k))
  {
    hide LastFor, CacheFrames, ForSlot, SinceReset;
    var tail := radio[|was|..];
    assert forall i :: 0 <= i < |tail| ==> tail[i] == radio[|was| + i];
    assert radio == was + tail;
    LastForAppend(cx, was, tail, k);
    NothingReset(cx, tail);
    LastForHeard(cx, tail, k);
    LastForCame(cx, tail, k);
    if i :| |was| <= i < |radio| && ForSlot(cx, radio[i], k) {
      assert radio[i] == tail[i - |was|];
      assert radio[i] in tail;
    }
  }

  // ----- cached replies

  lemma {:induction false} ReplayedAppend(a: seq<Entry>, b: seq<Entry>, k: nat)
    ensures Replayed(a + b, k) == Replayed(a, k) + Replayed(b, k)
  {
    if b == [] {
      assert a + b == a;
    } else {
      assert (a + b)[..|a + b| - 1] == a + b[..|b| - 1];
      ReplayedAppend(a, b[..|b| - 1], k);
    }
  }

  lemma {:induction false} ReplayedEntries(log: seq<Entry>, k: nat, p: Payload)
    ensures p in Replayed(log, k) <==> Entry(p, Cached(k)) in log
  {
    if log != [] {
      var init, e := log[..|log| - 1], log[|log| - 1];
      ReplayedEntries(log[..|log| - 1], k, p);
      assert log == init + [e];
    }
  }

  /** The cache holds for each slot the last frame of some prefix of the radio log, not
      shorter than `from`. */
  ghost predicate HeldAt(cx: Codec, cache: Cache, radio: seq<Payload>, from: nat) {
    exists n :: from <= n <= |radio| && (forall k: Key :: cache.Lookup(k) == LastFor(cx, radio[..n], k))
  }

  /** Each frame of a snapshot is of its own slot. */
  lemma SnapshotSlots(cx: Codec, cache: Cache, radio: seq<Payload>)
    requires HeldAt(cx, cache, radio, 0)
    ensures var ks, ps := SnapshotKeys(cache), cache.Snapshot().Frames();
            && |ks| == |ps|
            && (forall i :: 0 <= i < |ks| ==> cache.Lookup(ks[i]) == Some(ps[i]) && ForSlot(cx, ps[i], ks[i]))
            && (forall i, j :: 0 <= i < j < |ks| ==> Before(ks[i], ks[j]))
            && (forall k :: cache.Lookup(k).Some? <==> k in ks)
  {
    hide LastFor, SnapshotKeys, Cache.Lookup, Cache.Snapshot, CacheSnapshot.Frames, Before, ForSlot;
    var n :| 0 <= n <= |radio| && forall k: Key :: cache.Lookup(k) == LastFor(cx, radio[..n], k);
    var ks, ps := SnapshotKeys(cache), cache.Snapshot().Frames();
    SnapshotComplete(cache);
    forall i | 0 <= i < |ks|
      ensures ForSlot(cx, ps[i], ks[i])
    {
      assert cache.Lookup(ks[i]) == Some(ps[i]);
      LastForFrame(cx, radio[..n], ks[i]);
    }
  }

  lemma OneSlot(cx: Codec, p: Payload, k: Key, l: Key, x: u32)
    requires ForSlot(cx, p, k)
    ensures ForSlot(cx, p, l) <==> k == l
    ensures cx.Lawful() ==> !ForSlot(cx, cx.marshalComplete(x), l)
  {
  }

  /** The frame that a reply sends for a slot is the one in its cache. */
  lemma ScriptSlot(cx: Codec, cause: Cause, radio: seq<Payload>, p: Payload, k: Key)
    requires cx.Lawful() && HeldAt(cx, cause.cache, radio, 0)
    ensures p in Script(cx, cause) && ForSlot(cx, p, k) <==> cause.cache.Lookup(k) == Some(p)
  {
    hide SnapshotKeys, Cache.Lookup, Cache.Snapshot, CacheSnapshot.Frames, Before, ForSlot, HeldAt;
    var ks, ps := SnapshotKeys(cause.cache), cause.cache.Snapshot().Frames();
    SnapshotSlots(cx, cause.cache, radio);
    if p in Script(cx, cause) && ForSlot(cx, p, k) {
      OneSlot(cx, p, k, k, cause.original);
      var i :| 0 <= i < |ps| && ps[i] == p;
      OneSlot(cx, p, ks[i], k, 0);
    }
    if cause.cache.Lookup(k) == Some(p) {
      var i :| 0 <= i < |ks| && ks[i] == k;
      assert Script(cx, cause)[i] == p;
    }
  }

  // ----- a reply among the live frames

  /** Replies that were over at the first moment add nothing. */
  lemma OldRepliesAreOver(cx: Codec, pr: Peer, qr: Peer)
    requires Replays(cx, pr) && Replays(cx, qr) && !pr.closed && !qr.closed && pr.replay == None
    requires pr.hist.log <= qr.hist.log && pr.hist.replays <= qr.hist.replays
    ensures var n, more := |pr.hist.replays|, qr.hist.log[|pr.hist.log|..];
            forall k: nat :: Replayed(more, k) == if k < n then [] else Replayed(qr.hist.log, k)
  {
    hide Script, Replayed;
    var n, more := |pr.hist.replays|, qr.hist.log[|pr.hist.log|..];
    assert qr.hist.log == pr.hist.log + more;
    forall k: nat
      ensures Replayed(more, k) == if k < n then [] else Replayed(qr.hist.log, k)
    {
      ReplayedAppend(pr.hist.log, more, k);
      if k < n {
        assert ReplayState(cx, pr, k) && ReplayState(cx, qr, k);
        assert Replayed(pr.hist.log, k) == Replayed(pr.hist.log, k) + Replayed(more, k);
      } else {
        assert [] + Replayed(more, k) == Replayed(more, k);
      }
    }
  }

  /** A frame of a reply on an open connection, and every frame of one that is over. */
  lemma ReplayedInScript(cx: Codec, pr: Peer, i: nat, p: Payload)
    requires Replays(cx, pr) && !pr.closed
    ensures p in Replayed(pr.hist.log, i) ==> i < |pr.hist.replays| && p in Script(cx, pr.hist.replays[i])
    ensures i < |pr.hist.replays| && (i < |pr.hist.replays| - 1 || pr.replay == None) ==>
              Replayed(pr.hist.log, i) == Script(cx, pr.hist.replays[i])
  {
    hide Script, Replayed;
    if i < |pr.hist.replays| {
      assert ReplayState(cx, pr, i);
    }
  }

  /** A cache of any moment in between still holds what the slot had, if no frame came. */
  lemma HeldMeanwhile(cx: Codec, cache: Cache, was: seq<Payload>, radio: seq<Payload>, k: Key)
    requires was <= radio && NoReboot(cx, radio, |was|) && HeldAt(cx, cache, radio, |was|)
    requires LastFor(cx, CacheFrames(cx, radio[|was|..]), k) == None
    ensures cache.Lookup(k) == LastFor(cx, was, k)
  {
    hide LastFor, CacheFrames, Cache.Lookup, ForSlot;
    var n :| |was| <= n <= |radio| && forall l: Key :: cache.Lookup(l) == LastFor(cx, radio[..n], l);
    SlotMeanwhile(cx, was, radio, k);
    SlotMeanwhile(cx, was, radio[..n], k);
  }

  /** A connection pr, later qr, to which at least one reply from the cache was sent whole in
      between. What it was given last for the slot is what the slot holds, unless it came
      from a reply and a different frame had come live before. */
  lemma CurrentIff(cx: Codec, pr: Peer, qr: Peer, was: seq<Payload>, radio: seq<Payload>, k: Key)
    requires cx.Lawful() && Replays(cx, pr) && Replays(cx, qr) && !pr.closed && !qr.closed && pr.replay == None
    requires pr.hist.log <= qr.hist.log && pr.hist.replays <= qr.hist.replays
    requires |pr.hist.replays| < |qr.hist.replays| - (if qr.replay == None then 0 else 1)
    requires was <= radio && NoReboot(cx, radio, |was|)
    requires Heard(cx, qr.hist.log[|pr.hist.log|..]) == CacheFrames(cx, radio[|was|..])
    requires forall i :: |pr.hist.replays| <= i < |qr.hist.replays| ==>
               HeldAt(cx, qr.hist.replays[i].cache, radio, |was|)
    ensures var more := qr.hist.log[|pr.hist.log|..];
            var e, heard := LastSeen(cx, more, k), LastFor(cx, Heard(cx, more), k);
            Shown(e) == LastFor(cx, radio, k) <==>
              !(e.Some? && e.value.origin.Cached? && heard.Some? && heard.value != e.value.payload)
  {
    hide LastFor, Heard, CacheFrames, Script, Replayed, Replays, LastSeen, ForSlot, HeldAt, Cache.Lookup;
    var n, more := |pr.hist.replays|, qr.hist.log[|pr.hist.log|..];
    var e, heard := LastSeen(cx, more, k), LastFor(cx, Heard(cx, more), k);
    SlotMeanwhile(cx, was, radio, k);
    SeenLive(cx, more, k);
    OldRepliesAreOver(cx, pr, qr);
    if e.Some? && e.value.origin.Cached? && heard == None {
      var i, p := e.value.origin.k, e.value.payload;
      ReplayedEntries(more, i, p);
      ReplayedInScript(cx, qr, i, p);
      SlotOfReply(cx, qr.hist.replays[i], was, radio, p, k);
    }
    if e == None && LastFor(cx, was, k).Some? {
      var p := LastFor(cx, was, k).value;
      ReplayedInScript(cx, qr, n, p);
      SlotOfReply(cx, qr.hist.replays[n], was, radio, p, k);
      ReplayedEntries(more, n, p);
      NothingSeen(cx, more, k, Entry(p, Cached(n)));
    }
  }

  lemma SlotOfReply(cx: Codec, cause: Cause, was: seq<Payload>, radio: seq<Payload>, p: Payload, k: Key)
    requires cx.Lawful() && was <= radio && NoReboot(cx, radio, |was|) && HeldAt(cx, cause.cache, radio, |was|)
    requires LastFor(cx, CacheFrames(cx, radio[|was|..]), k) == None
    ensures p in Script(cx, cause) && ForSlot(cx, p, k) <==> LastFor(cx, was, k) == Some(p)
  {
    hide LastFor, CacheFrames, Cache.Lookup, ForSlot, Script, SinceReset;
    HeldMeanwhile(cx, cause.cache, was, radio, k);
    ScriptSlot(cx, cause, radio, p, k);
  }

  // ----- one frame of a reply

  /** A reply sends one frame for a slot. */
  lemma OnceInScript(cx: Codec, cause: Cause, radio: seq<Payload>, a: nat, b: nat, k: Key)
    requires cx.Lawful() && HeldAt(cx, cause.cache, radio, 0) && a < b < |Script(cx, cause)|
    requires ForSlot(cx, Script(cx, cause)[a], k)
    ensures !ForSlot(cx, Script(cx, cause)[b], k)
  {
    hide SnapshotKeys, Cache.Lookup, Cache.Snapshot, CacheSnapshot.Frames, ForSlot, HeldAt;
    var ks, ps := SnapshotKeys(cause.cache), cause.cache.Snapshot().Frames();
    SnapshotSlots(cx, cause.cache, radio);
    OneSlot(cx, ps[a], ks[a], k, cause.original);
    if b < |ps| {
      assert Before(ks[a], ks[b]);
      OneSlot(cx, ps[b], ks[b], k, 0);
    }
  }

  /** pr sends a frame of its reply, and becomes qr with `more` behind it in the log. */
  ghost predicate SendsNext(pr: Peer, qr: Peer, more: seq<Entry>) {
    && pr.replay.Some? && pr.replay.value.rest != [] && pr.hist.replays != [] && !pr.closed && !qr.closed
    && qr.hist.replays == pr.hist.replays
    && qr.hist.log == pr.hist.log + [Entry(pr.replay.value.rest[0], Cached(|pr.hist.replays| - 1))] + more
  }

  /** After the reply in progress has sent a frame for the slot, it sends none. */
  lemma NoneLeft(cx: Codec, pr: Peer, qr: Peer, more: seq<Entry>, radio: seq<Payload>, k: Key, e: Entry)
    requires cx.Lawful() && SendsNext(pr, qr, more) && Replays(cx, pr) && Replays(cx, qr)
    requires ForSlot(cx, pr.replay.value.rest[0], k)
    requires HeldAt(cx, pr.hist.replays[|pr.hist.replays| - 1].cache, radio, 0)
    requires e in more && e.origin.Cached?
    ensures !ForSlot(cx, e.payload, k)
  {
    hide Script, Replayed, ForSlot, HeldAt;
    var last, p, i := |pr.hist.replays| - 1, pr.replay.value.rest[0], e.origin.k;
    var sent := [Entry(p, Cached(last))];
    ReplayedAppend(pr.hist.log + sent, more, i);
    ReplayedGrow(pr.hist.log, sent[0]);
    ReplayedEntries(more, i, e.payload);
    assert i <= last ==> ReplayState(cx, pr, i) && ReplayState(cx, qr, i);
    if i == last {
      var cause, before := pr.hist.replays[last], Replayed(pr.hist.log, i);
      var m :| 0 <= m < |Replayed(more, i)| && Replayed(more, i)[m] == e.payload;
      assert Script(cx, cause)[|before|] == p;
      assert Script(cx, cause)[|before| + 1 + m] == e.payload;
      OnceInScript(cx, cause, radio, |before|, |before| + 1 + m, k);
    }
  }

  /** A frame sent from a reply, then entries of which none for the slot is from a reply. */
  lemma SentThenHeard(cx: Codec, sent: seq<Entry>, e: Entry, more: seq<Entry>, was: seq<Payload>, radio: seq<Payload>,
      k: Key)
    requires was <= radio && NoReboot(cx, radio, |was|)
    requires ForSlot(cx, e.payload, k) && e.origin.Cached?
    requires forall d :: d in more && d.origin.Cached? ==> !ForSlot(cx, d.payload, k)
    requires Heard(cx, more) == CacheFrames(cx, radio[|was|..])
    ensures Shown(LastSeen(cx, sent + [e] + more, k)) == LastFor(cx, radio, k) <==>
              LastFor(cx, was, k) == Some(e.payload)
              || exists i :: |was| <= i < |radio| && ForSlot(cx, radio[i], k)
  {
    hide LastFor, LastSeen, Heard, CacheFrames, ForSlot;
    SeenNow(cx, sent, e, k);
    SeenAppend(cx, sent + [e], more, k);
    SeenLive(cx, more, k);
    SlotMeanwhile(cx, was, radio, k);
  }

  /** pr sends the frame p of a cached reply for the slot; later, no other reply begun, it is
      qr. What it was given last for the slot is what the slot holds if and only if p was
      still in the slot when it was sent, or a newer frame came after. */
  lemma StaysCurrentIff(cx: Codec, pr: Peer, qr: Peer, more: seq<Entry>, was: seq<Payload>, radio: seq<Payload>,
      k: Key)
    requires cx.Lawful() && SendsNext(pr, qr, more) && Replays(cx, pr) && Replays(cx, qr)
    requires ForSlot(cx, pr.replay.value.rest[0], k)
    requires HeldAt(cx, pr.hist.replays[|pr.hist.replays| - 1].cache, was, 0)
    requires was <= radio && NoReboot(cx, radio, |was|)
    requires Heard(cx, more) == CacheFrames(cx, radio[|was|..])
    ensures Shown(LastSeen(cx, qr.hist.log, k)) == LastFor(cx, radio, k) <==>
              LastFor(cx, was, k) == Some(pr.replay.value.rest[0])
              || exists i :: |was| <= i < |radio| && ForSlot(cx, radio[i], k)
  {
    hide LastFor, LastSeen, Heard, CacheFrames, Script, Replayed, Replays, ForSlot, HeldAt, NoReboot;
    forall e | e in more && e.origin.Cached?
      ensures !ForSlot(cx, e.payload, k)
    {
      NoneLeft(cx, pr, qr, more, was, k, e);
    }
    SentThenHeard(cx, pr.hist.log, Entry(pr.replay.value.rest[0], Cached(|pr.hist.replays| - 1)), more, was, radio, k);
  }
}
