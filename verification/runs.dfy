/** What holds in every run of the broker, from its start and for any clients, any radio
    and any order of events. */
module Runs {
  import opened Protocol
  import opened ConfigCaches
  import opened Counting
  import opened Model
  import opened Membership
  import opened PendingTable
  import opened Connections
  import opened Ledger
  import opened ColdPath
  import opened Wire
  import opened CannedRuns
  import opened Echoes
  import opened Histories
  import opened Views
  import opened Effects
  import opened Account
  import opened Fetches
  import opened Totals
  import opened Reboots
  import opened Invariant
  import CannedMessages
  import Stream

  lemma Reachable(cx: Codec, readOnly: bool, es: seq<Event>)
    requires cx.Lawful() && Feasible(cx, Initial(readOnly), es)
    ensures var s := After(cx, Initial(readOnly), es);
            && Members(s) && TableOK(s) && LedgerOK(cx, s) && PeersOK(cx, s)
            && CacheOK(cx, s) && HeardOK(cx, s) && WireOK(cx, s) && CannedOK(cx, s)
  {
    hide Members, TableOK, LedgerOK, PeersOK, CacheOK, HeardOK, WireOK, CannedOK;
    Always(cx, readOnly, es);
  }

  /** One handler of the broker object is one more event of the run its state stands for,
      and keeps the invariant. */
  lemma ObjectStep(cx: Codec, readOnly: bool, es: seq<Event>, e: Event, t: State)
    requires cx.Lawful() && Feasible(cx, Initial(readOnly), es)
    requires Steps(cx, After(cx, Initial(readOnly), es), e, t)
    ensures Feasible(cx, Initial(readOnly), es + [e]) && t == After(cx, Initial(readOnly), es + [e])
    ensures Inv(cx, t)
  {
    hide Inv, Enabled, Step;
    var longer := Extend(cx, Initial(readOnly), es, e);
    Always(cx, readOnly, longer);
  }

  /** There is a primary exactly when there are clients; it is one of them; and the
      clients are exactly the connections that are open. */
  lemma PrimaryIsAClient(cx: Codec, readOnly: bool, es: seq<Event>)
    requires cx.Lawful() && Feasible(cx, Initial(readOnly), es)
    ensures var s := After(cx, Initial(readOnly), es);
            && (s.primary == None <==> s.clients == {})
            && (s.primary.Some? ==> s.primary.value in s.clients)
            && (forall c :: c in s.clients <==> c in s.peers && !s.peers[c].closed)
  {
    hide TableOK, LedgerOK, PeersOK, CacheOK, HeardOK, WireOK, CannedOK, Step, Enabled;
    Reachable(cx, readOnly, es);
  }

  // ----- the account of every event

  /** In every reachable state, every event does to the clients, to the wire, to the link, to
      the clock and to the calls what its account says, and nothing else. */
  lemma EveryStep(cx: Codec, readOnly: bool, es: seq<Event>, e: Event)
    requires cx.Lawful() && Feasible(cx, Initial(readOnly), es) && Enabled(cx, After(cx, Initial(readOnly), es), e)
    ensures var s := After(cx, Initial(readOnly), es);
            ClientSide(cx, s, e, Step(cx, s, e)) && LinkSide(cx, s, e, Step(cx, s, e))
  {
    hide Members, EchoOK, CannedOK, After, Feasible, Enabled, Step, ClientSide, LinkSide;
    EveryMoment(cx, readOnly, es);
    StepDoes(cx, After(cx, Initial(readOnly), es), e);
  }

  /** A client's packet, a message the broker does not look into, or bytes that are no message:
      exactly one payload goes out if the client may and the write works, and nothing at all
      happens if it may not. Anyone may, or only the primary if clients are read-only; bytes
      that are no message only the primary may send. */
  lemma WhoMayWrite(cx: Codec, readOnly: bool, es: seq<Event>, e: Event)
    requires cx.Lawful() && Feasible(cx, Initial(readOnly), es) && Enabled(cx, After(cx, Initial(readOnly), es), e)
    requires e.ClientFrame?
    ensures var s := After(cx, Initial(readOnly), es);
            var t, m := Step(cx, s, e), cx.parseTo(e.payload);
            var up := !s.down && e.ok;
            && (m.Some? && (m.value.SendPacket? || m.value.OtherTo?) ==>
                  var may, out := s.primary == Some(e.c) || !readOnly, cx.marshalTo(m.value);
                  && t.serial == s.serial + (if may && up && |out| <= 65535 then [Sent(out, s.pending)] else [])
                  && (t.down <==> s.down || (may && !(up && |out| <= 65535)))
                  && (!may ==> t == s))
            && (m == None ==>
                  var may := s.primary == Some(e.c);
                  && t.serial ==
                     s.serial + (if may && up && |e.payload| <= 65535 then [Sent(e.payload, s.pending)] else [])
                  && (t.down <==> s.down || (may && !(up && |e.payload| <= 65535)))
                  && (!may ==> t == s))
  {
    hide Feasible, After, Enabled, Step, ClientSide, Asks, AboutCalls, Outgoing, Breaks;
    var s := After(cx, Initial(readOnly), es);
    EveryStep(cx, readOnly, es, e);
    RadioHearsExactly(cx, readOnly, es);
    OfClientFrame(cx, s, e);
    if s.primary != Some(e.c) {
      NotAllowed(cx, s, e);
    }
  }

  lemma NotAllowed(cx: Codec, s: State, e: Event)
    requires Enabled(cx, s, e) && e.ClientFrame? && s.primary != Some(e.c)
    ensures var m := cx.parseTo(e.payload);
            m == None || (s.readOnly && (m.value.SendPacket? || m.value.OtherTo?)) ==> Step(cx, s, e) == s
  {
    hide Broadcast, AskRadio, BeginReplay, Remove, Enumerates;
  }

  /** The broker asks by itself if and only if no MyInfo came since the last Rebooted and none of
      its own requests waits; then under the given nonce, with its own id, and else nothing
      happens. */
  lemma BootstrapAsksIff(cx: Codec, readOnly: bool, es: seq<Event>, e: Event)
    requires cx.Lawful() && Feasible(cx, Initial(readOnly), es) && Enabled(cx, After(cx, Initial(readOnly), es), e)
    requires e.Bootstrapping?
    ensures var s := After(cx, Initial(readOnly), es);
            var t, ask := Step(cx, s, e), cx.marshalTo(WantConfig(e.nonce));
            if Came(cx, s.radio, MyInfoKey) || exists n :: n in s.pending && s.pending[n].owner == None
            then t == s
            else && t == s.(pending := s.pending[e.nonce := Request(None, 1)], serial := t.serial, down := t.down)
                 && (if !s.down && e.ok && |ask| <= 65535
                     then t.serial == s.serial + [Sent(ask, t.pending)] && !t.down
                     else t.serial == s.serial && t.down)
  {
    hide Feasible, After, Came;
    CacheAnswersWithWhatCame(cx, readOnly, es);
  }

  /** The completion of the broker's own request takes it from the table, so that it may ask
      again, and goes to nobody. */
  lemma OwnCompletion(cx: Codec, s: State, e: Event, n: u32)
    requires Enabled(cx, s, e) && e.RadioFrame? && cx.parseFrom(e.payload) == Some(ConfigComplete(n))
    requires n in s.pending && s.pending[n].owner == None
    ensures Step(cx, s, e) == s.(pending := s.pending - {n}, radio := s.radio + [e.payload])
  {
    hide Reissues, Enumerates, Send;
  }

  // ----- requests

  /** Across any number of reboots, retries, replays and removals, every WantConfigId(x) that
      a client has sent is in exactly one place: answered, waiting for the radio, being
      answered from the cache, replaced by the client itself, or abandoned. So completions
      never outnumber requests; and while the client is connected and the link is up, none
      is abandoned. */
  lemma RequestsAccountedFor(cx: Codec, readOnly: bool, es: seq<Event>, c: ClientId, x: u32)
    requires cx.Lawful() && Feasible(cx, Initial(readOnly), es)
    ensures var s := After(cx, Initial(readOnly), es);
            c in s.peers ==>
              var pr, r := s.peers[c], Request(Some(c), x);
              && CountRequests(cx, es, c, x) ==
                 Completions(cx, pr.hist.log, x) + Waiting(s.pending, r) + InReplay(pr, x)
                 + pr.hist.retried[x] + s.abandoned[r]
              && (c in s.clients && !s.down ==> s.abandoned[r] == 0)
  {
    hide Members, TableOK, LedgerOK, PeersOK, CacheOK, HeardOK, WireOK, CannedOK, Completions, Waiting, InReplay,
      CountRequests, Step, Enabled;
    Reachable(cx, readOnly, es);
    var s := After(cx, Initial(readOnly), es);
    InitialMembers(readOnly);
    AskedIsCounted(cx, Initial(readOnly), es, c, x);
    if c in s.peers {
      EveryRequest(cx, s, c, x);
      ClientsAreOpen(s, c);
    }
  }

  lemma ClientsAreOpen(s: State, c: ClientId)
    requires Members(s) && c in s.peers
    ensures c in s.clients <==> !s.peers[c].closed
  {
  }

  lemma InitialMembers(readOnly: bool)
    ensures Members(Initial(readOnly)) && Initial(readOnly).peers == map[] && Initial(readOnly).taken == []
  {
  }

  /** The table holds one request for each client at most and one of the broker, under
      nonces that are not zero; its size is bounded by the read loops still running. */
  lemma TableStaysSmall(cx: Codec, readOnly: bool, es: seq<Event>)
    requires cx.Lawful() && Feasible(cx, Initial(readOnly), es)
    ensures var s := After(cx, Initial(readOnly), es);
            && (forall n, k :: n in s.pending && k in s.pending && s.pending[n].owner == s.pending[k].owner ==> n == k)
            && (forall n :: n in s.pending ==>
              n != 0 && (s.pending[n].owner.Some? ==> s.pending[n].owner.value in Readers(s)))
            && |s.pending| <= |Readers(s)| + 1
  {
    hide Members, LedgerOK, PeersOK, CacheOK, HeardOK, WireOK, CannedOK, Step, Enabled;
    Reachable(cx, readOnly, es);
    TableBound(After(cx, Initial(readOnly), es));
  }

  /** A reboot in any reachable state whose writes succeed: the cache is emptied, every
      request keeps waiting exactly as it did unless its client is closed, and the radio is
      asked exactly once for each, under distinct nonces that are not zero. */
  lemma RebootKeepsWork(cx: Codec, readOnly: bool, es: seq<Event>, e: Event)
    requires cx.Lawful() && Feasible(cx, Initial(readOnly), es)
    requires Enabled(cx, After(cx, Initial(readOnly), es), e) && e.RadioFrame? && Announces(cx, e.payload)
    requires !After(cx, Initial(readOnly), es).down && AllWork(cx, e.rs)
    ensures var s := After(cx, Initial(readOnly), es);
            var t := Step(cx, s, e);
            && t.cache == EMPTY && !t.down && 0 !in t.pending
            && (forall r: Request :: Waiting(t.pending, r) ==
                  if r.owner == None || r.owner.value in s.clients then Waiting(s.pending, r) else 0)
            && s.serial <= t.serial && AsksOnceEach(cx, t.serial, |s.serial|, t.pending)
            && t.peers == s.peers && t.clients == s.clients
  {
    hide Members, LedgerOK, PeersOK, CacheOK, HeardOK, WireOK, CannedOK, Step, Enabled, After, Waiting, AsksOnceEach,
      AllWork;
    Reachable(cx, readOnly, es);
    var s := After(cx, Initial(readOnly), es);
    RebootStep(cx, s, e);
    var logged := s.(radio := s.radio + [e.payload]);
    RebootConserves(cx, logged, e.rs);
    forall r: Request
      ensures Waiting(Step(cx, s, e).pending, r) ==
              if r.owner == None || r.owner.value in s.clients then Waiting(s.pending, r) else 0
    {
      WaitsForClient(s, r);
    }
  }

  /** A reboot in any reachable state, whether its writes work or not, and in any order: the
      requests of the broker and of connected clients enter the table one by one under their
      new nonces, and each is written, up to and including the first whose write fails, which
      is not; those after it do not enter, and nothing else does. */
  lemma RebootExactly(cx: Codec, readOnly: bool, es: seq<Event>, e: Event)
    requires cx.Lawful() && Feasible(cx, Initial(readOnly), es)
    requires Enabled(cx, After(cx, Initial(readOnly), es), e) && e.RadioFrame? && Announces(cx, e.payload)
    ensures var s := After(cx, Initial(readOnly), es);
            var t := Step(cx, s, e);
            && (forall i :: 0 <= i < |e.rs| ==> e.rs[i].key in s.pending)
            && LeftTable(cx, s, s.pending, e.rs, |e.rs|, t.pending)
            && OnTheWire(t.serial) == OnTheWire(s.serial) + Rewrites(cx, s, s.pending, e.rs, |e.rs|)
  {
    hide Members, EchoOK, CannedOK, OwnersKnown, After, Feasible, Step, Enabled, LeftTable, ReissueAll, Renewed,
      Rewritten;
    EveryMoment(cx, readOnly, es);
    var s := After(cx, Initial(readOnly), es);
    RebootStep(cx, s, e);
    var s0 := s.(radio := s.radio + [e.payload], cache := EMPTY, pending := map[]);
    SameMembers(s, s0);
    SameOwners(s, s0, s.pending);
    assert e.rs[..|e.rs|] == e.rs;
    ReissueLeaves(cx, s0, s.pending, e.rs, |e.rs|);
    SameLeft(cx, s, s0, s.pending, e.rs, |e.rs|, Step(cx, s, e).pending);
  }

  lemma SameOwners(s: State, t: State, m: Pending)
    requires t.peers == s.peers && OwnersKnown(s, m)
    ensures OwnersKnown(t, m)
  {
  }

  lemma WaitsForClient(s: State, r: Request)
    requires Members(s) && TableOK(s)
    ensures Waiting(s.pending, r) != 0 ==> (ClosedOwner(s, r) <==> r.owner.Some? && r.owner.value !in s.clients)
    ensures ClosedOwner(s, r) ==> r.owner.Some? && r.owner.value !in s.clients
  {
    if forall n :: n in s.pending ==> s.pending[n] != r {
      assert Holders(s.pending, r) == {};
    }
  }

  lemma RebootStep(cx: Codec, s: State, e: Event)
    requires Enabled(cx, s, e) && e.RadioFrame? && Announces(cx, e.payload)
    ensures Reissues(cx, s.(radio := s.radio + [e.payload]), e.rs)
    ensures forall i :: 0 <= i < |e.rs| ==> e.rs[i].key in s.pending
    ensures Step(cx, s, e) == Reboot(cx, s.(radio := s.radio + [e.payload]), e.rs)
  {
    hide ReissueAll, Enumerates, Covers, Draws;
  }

  // ----- deliveries

  /** What a client decodes from its connection is a gap-free prefix of what was addressed
      to it, in order; while it is open, only the queue of at most 64 is missing. */
  lemma ConnectionsDeliver(cx: Codec, readOnly: bool, es: seq<Event>, c: ClientId)
    requires cx.Lawful() && Feasible(cx, Initial(readOnly), es)
    ensures var s := After(cx, Initial(readOnly), es);
            c in s.peers ==>
              var pr := s.peers[c];
              && Stream.Payloads(Stream.Decode(pr.conn)) <= pr.hist.addressed
              && |pr.queue| <= 64
              && (c in s.clients ==> Stream.Payloads(Stream.Decode(pr.conn)) + pr.queue == pr.hist.addressed)
  {
    hide TableOK, LedgerOK, CacheOK, HeardOK, WireOK, CannedOK, Queued, Replays, Tidy, Stream.Payloads, Stream.Decode,
      Step, Enabled;
    Reachable(cx, readOnly, es);
    var s := After(cx, Initial(readOnly), es);
    if c in s.peers {
      DeliveredInOrder(s.peers[c]);
    }
  }

  /** What a connected client has decoded, and then its queue, is exactly what the events of the
      run gave it, in order. */
  lemma ClientsDecodeWhatTheyAreGiven(cx: Codec, readOnly: bool, es: seq<Event>, c: ClientId)
    requires cx.Lawful() && Feasible(cx, Initial(readOnly), es)
    ensures var s := After(cx, Initial(readOnly), es);
            c in s.clients ==>
              && c in s.peers
              && Stream.Payloads(Stream.Decode(s.peers[c].conn)) + s.peers[c].queue ==
                 GivenIn(cx, Initial(readOnly), es, c)
  {
    hide Feasible, After, Stream.Payloads, Stream.Decode;
    ConnectionsDeliver(cx, readOnly, es, c);
    ClientsAreGivenExactly(cx, readOnly, es, c);
  }

  /** A refused payload closes its connection, and a closed connection has received its
      last byte, whatever happens afterwards. */
  lemma RefusalIsFinal(cx: Codec, readOnly: bool, es: seq<Event>, fs: seq<Event>, c: ClientId)
    requires cx.Lawful() && Feasible(cx, Initial(readOnly), es)
    requires Feasible(cx, After(cx, Initial(readOnly), es), fs)
    ensures var s := After(cx, Initial(readOnly), es);
            var t := After(cx, s, fs);
            c in s.peers ==>
              && (s.peers[c].hist.addressed != Contents(s.peers[c].hist.log) ==> s.peers[c].closed && c !in s.clients)
              && c in t.peers
              && (s.peers[c].closed ==> t.peers[c].closed && t.peers[c].conn == s.peers[c].conn)
              && s.peers[c].conn <= t.peers[c].conn
  {
    hide TableOK, LedgerOK, CacheOK, HeardOK, WireOK, CannedOK, Replays, Tidy, Cut, Contents, Step, Enabled;
    Reachable(cx, readOnly, es);
    var s := After(cx, Initial(readOnly), es);
    if c in s.peers {
      RunLater(cx, s, fs, c);
    }
  }

  // ----- the cache

  /** Every slot of the cache holds the last radio frame for it since the last Rebooted. */
  lemma CacheIsFold(cx: Codec, readOnly: bool, es: seq<Event>, k: Key)
    requires cx.Lawful() && Feasible(cx, Initial(readOnly), es)
    ensures var s := After(cx, Initial(readOnly), es);
            s.cache.Lookup(k) == LastFor(cx, s.radio, k)
  {
    hide Members, TableOK, LedgerOK, PeersOK, HeardOK, WireOK, CannedOK, Step, Enabled, LastFor;
    Reachable(cx, readOnly, es);
  }

  /** A reply from the cache that is over has put its whole snapshot and then the
      completion with the client's own id into the queue, in that order; or it was cut
      short before the completion, and then its client has been removed. */
  lemma RepliesAreWhole(cx: Codec, readOnly: bool, es: seq<Event>, c: ClientId, k: nat)
    requires cx.Lawful() && Feasible(cx, Initial(readOnly), es)
    ensures var s := After(cx, Initial(readOnly), es);
            c in s.peers && k < |s.peers[c].hist.replays| &&
              (k < |s.peers[c].hist.replays| - 1 || s.peers[c].replay == None) ==>
              var pr := s.peers[c];
              var Cause(original, cache) := pr.hist.replays[k];
              var script := cache.Snapshot().Frames() + [cx.marshalComplete(original)];
              || Replayed(pr.hist.log, k) == script
              || (Replayed(pr.hist.log, k) < script && c !in s.clients)
  {
    hide TableOK, LedgerOK, CacheOK, HeardOK, WireOK, CannedOK, Queued, Tidy, Replayed, Step, Enabled,
      Cache.Snapshot, CacheSnapshot.Frames;
    Reachable(cx, readOnly, es);
    var s := After(cx, Initial(readOnly), es);
    if c in s.peers && k < |s.peers[c].hist.replays| &&
       (k < |s.peers[c].hist.replays| - 1 || s.peers[c].replay == None) {
      if s.peers[c].closed {
        assert ReplayState(cx, s.peers[c], k);
      } else {
        FinishedReply(cx, s.peers[c], k);
      }
    }
  }

  /** The cache answers exactly when a MyInfo came since the last Rebooted, whatever else did:
      it holds the slots for which a frame came, and no others. */
  lemma CacheAnswersWithWhatCame(cx: Codec, readOnly: bool, es: seq<Event>)
    requires cx.Lawful() && Feasible(cx, Initial(readOnly), es)
    ensures var s := After(cx, Initial(readOnly), es);
            && (s.cache.Ready() <==> Came(cx, s.radio, MyInfoKey))
            && (forall k: Key :: k in SnapshotKeys(s.cache) <==> Came(cx, s.radio, k))
  {
    hide Members, TableOK, LedgerOK, PeersOK, HeardOK, WireOK, CannedOK, Step, Enabled, LastFor, Came, SnapshotKeys;
    Reachable(cx, readOnly, es);
    var s := After(cx, Initial(readOnly), es);
    SnapshotComplete(s.cache);
    forall k: Key
      ensures s.cache.Lookup(k).Some? <==> Came(cx, s.radio, k)
    {
      LastForCame(cx, s.radio, k);
    }
    assert s.cache.Ready() <==> s.cache.Lookup(MyInfoKey).Some?;
  }

  /** Every reply from the cache was begun by a request of its client at some moment j of the
      run, and sends the frames that were the last for their slots at that moment, for each
      slot a frame had come for since the last Rebooted, MyInfo among them. */
  lemma RepliesAreFolds(cx: Codec, readOnly: bool, es: seq<Event>, c: ClientId, cause: Cause) returns (j: nat)
    requires cx.Lawful() && Feasible(cx, Initial(readOnly), es)
    requires c in After(cx, Initial(readOnly), es).peers
    requires cause in After(cx, Initial(readOnly), es).peers[c].hist.replays
    ensures j < |es| && Feasible(cx, Initial(readOnly), es[..j]) && AsksFor(cx, es[j], c, cause.original)
    ensures var radio := After(cx, Initial(readOnly), es[..j]).radio;
            var ks, ps := SnapshotKeys(cause.cache), cause.cache.Snapshot().Frames();
            && |ks| == |ps|
            && (forall i :: 0 <= i < |ks| ==> LastFor(cx, radio, ks[i]) == Some(ps[i]))
            && (forall k: Key :: k in ks <==> Came(cx, radio, k))
            && MyInfoKey in ks
  {
    hide Members, Step, Enabled, LastFor, Came, SnapshotKeys, AsksFor, Cache.Lookup, Cache.Ready,
      Cache.Snapshot, CacheSnapshot.Frames;
    InitialMembers(readOnly);
    var i :| 0 <= i < |After(cx, Initial(readOnly), es).peers[c].hist.replays|
             && After(cx, Initial(readOnly), es).peers[c].hist.replays[i] == cause;
    AnsweredInRun(cx, Initial(readOnly), es, c, i);
    j :| AnsweredAt(cx, Initial(readOnly), es, j, c, cause);
    var s := After(cx, Initial(readOnly), es[..j]);
    CacheAnswersWithWhatCame(cx, readOnly, es[..j]);
    SnapshotComplete(s.cache);
    var ks := SnapshotKeys(s.cache);
    forall n | 0 <= n < |ks|
      ensures LastFor(cx, s.radio, ks[n]) == s.cache.Lookup(ks[n])
    {
      CacheIsFold(cx, readOnly, es[..j], ks[n]);
    }
  }

  // ----- what clients hear

  lemma {:induction false} HeardAppend(cx: Codec, a: seq<Entry>, b: seq<Entry>)
    ensures Heard(cx, a + b) == Heard(cx, a) + Heard(cx, b)
  {
    if b == [] {
      assert a + b == a;
    } else {
      assert (a + b)[..|a + b| - 1] == a + b[..|b| - 1];
      HeardAppend(cx, a, b[..|b| - 1]);
    }
  }

  lemma HeardMeanwhile(cx: Codec, s: State, t: State, c: ClientId)
    requires HeardOK(cx, s) && HeardOK(cx, t) && c in s.peers && c in t.peers && !t.peers[c].closed
    requires Later(s.peers[c], t.peers[c]) && s.radio <= t.radio
    ensures Heard(cx, t.peers[c].hist.log[|s.peers[c].hist.log|..]) == CacheFrames(cx, t.radio[|s.radio|..])
  {
    hide Heard, CacheFrames;
    var was, log := s.peers[c].hist.log, t.peers[c].hist.log;
    var joined := s.peers[c].hist.joined;
    assert Hears(cx, s.peers[c], s.radio) && Hears(cx, t.peers[c], t.radio);
    assert log == was + log[|was|..];
    HeardAppend(cx, was, log[|was|..]);
    assert t.radio[joined..] == s.radio[joined..] + t.radio[|s.radio|..];
    FramesEnd(cx, s.radio[joined..], t.radio[|s.radio|..]);
    SameTail(Heard(cx, was), Heard(cx, log[|was|..]), CacheFrames(cx, t.radio[|s.radio|..]));
  }

  lemma SameTail(a: seq<Payload>, b: seq<Payload>, c: seq<Payload>)
    requires a + b == a + c
    ensures b == c
  {
    assert (a + b)[|a|..] == b && (a + c)[|a|..] == c;
  }

  /** Between any two moments of a run, a client that is still connected at the later one
      was given exactly the cacheable frames that the radio sent meanwhile, in order. */
  lemma ClientsHearEverything(cx: Codec, readOnly: bool, es: seq<Event>, fs: seq<Event>, c: ClientId, s: State,
      t: State)
    requires cx.Lawful() && Feasible(cx, Initial(readOnly), es) && s == After(cx, Initial(readOnly), es)
    requires Feasible(cx, s, fs) && t == After(cx, s, fs)
    requires c in s.peers && c in t.clients
    ensures c in t.peers && s.peers[c].hist.log <= t.peers[c].hist.log && s.radio <= t.radio
    ensures Heard(cx, t.peers[c].hist.log[|s.peers[c].hist.log|..]) == CacheFrames(cx, t.radio[|s.radio|..])
  {
    hide TableOK, LedgerOK, PeersOK, CacheOK, HeardOK, WireOK, CannedOK, Heard, CacheFrames, Step, Enabled, After,
      Feasible;
    Reachable(cx, readOnly, es);
    RunLater(cx, s, fs, c);
    AfterBoth(cx, Initial(readOnly), es, fs);
    Reachable(cx, readOnly, es + fs);
    HeardMeanwhile(cx, s, t, c);
  }

  /** The cache that a reply is made from is the cache of a moment since s. */
  lemma RepliesAreHeld(cx: Codec, readOnly: bool, es: seq<Event>, fs: seq<Event>, c: ClientId, i: nat, s: State,
      t: State)
    requires cx.Lawful() && Feasible(cx, Initial(readOnly), es) && s == After(cx, Initial(readOnly), es)
    requires Feasible(cx, s, fs) && t == After(cx, s, fs)
    requires c in t.peers && i < |t.peers[c].hist.replays| && (c in s.peers ==> |s.peers[c].hist.replays| <= i)
    ensures HeldAt(cx, t.peers[c].hist.replays[i].cache, t.radio, |s.radio|)
  {
    hide Members, TableOK, LedgerOK, PeersOK, HeardOK, WireOK, CannedOK, Step, Enabled, After, Feasible, LastFor,
      Cache.Lookup, AsksFor;
    Reachable(cx, readOnly, es);
    AnsweredInRun(cx, s, fs, c, i);
    var j: nat :| AnsweredAt(cx, s, fs, j, c, t.peers[c].hist.replays[i]);
    var m := After(cx, s, fs[..j]);
    RadioGrows(cx, s, fs, j);
    RadioGrows(cx, s, fs[..j], 0);
    AfterBoth(cx, Initial(readOnly), es, fs[..j]);
    Reachable(cx, readOnly, es + fs[..j]);
    StartsHere(cx, s, fs[..j]);
    assert t.radio[..|m.radio|] == m.radio;
  }

  lemma StartsHere(cx: Codec, s: State, es: seq<Event>)
    requires Feasible(cx, s, es[..0])
    ensures After(cx, s, es[..0]) == s
  {
  }

  /** A client that asked after s and has been answered from the cache since, the radio not
      having rebooted: the frame it was given last for a slot, live or in a reply, is the one
      in the cache, unless it came in a reply behind a different one that came live. */
  lemma RepliesLeaveTheCacheIff(cx: Codec, readOnly: bool, es: seq<Event>, fs: seq<Event>, c: ClientId, k: Key,
      s: State, t: State)
    requires cx.Lawful() && Feasible(cx, Initial(readOnly), es) && s == After(cx, Initial(readOnly), es)
    requires Feasible(cx, s, fs) && t == After(cx, s, fs)
    requires c in s.peers && s.peers[c].replay == None && c in t.clients && c in t.peers
    requires |s.peers[c].hist.replays| < |t.peers[c].hist.replays| - (if t.peers[c].replay == None then 0 else 1)
    requires NoReboot(cx, t.radio, |s.radio|)
    ensures s.peers[c].hist.log <= t.peers[c].hist.log
    ensures var since := t.peers[c].hist.log[|s.peers[c].hist.log|..];
            var e, heard := LastSeen(cx, since, k), LastFor(cx, Heard(cx, since), k);
            Shown(e) == t.cache.Lookup(k) <==>
              !(e.Some? && e.value.origin.Cached? && heard.Some? && heard.value != e.value.payload)
  {
    hide TableOK, LedgerOK, CacheOK, HeardOK, WireOK, CannedOK, Queued, Tidy, Replays, Heard, CacheFrames, LastFor,
      LastSeen, HeldAt, Step, Enabled, After, Feasible;
    Reachable(cx, readOnly, es);
    ClientsHearEverything(cx, readOnly, es, fs, c, s, t);
    RunLater(cx, s, fs, c);
    AfterBoth(cx, Initial(readOnly), es, fs);
    Reachable(cx, readOnly, es + fs);
    CacheIsFold(cx, readOnly, es + fs, k);
    forall i | |s.peers[c].hist.replays| <= i < |t.peers[c].hist.replays|
      ensures HeldAt(cx, t.peers[c].hist.replays[i].cache, t.radio, |s.radio|)
    {
      RepliesAreHeld(cx, readOnly, es, fs, c, i, s, t);
    }
    CurrentIff(cx, s.peers[c], t.peers[c], s.radio, t.radio, k);
  }

  /** At s a reply from the cache sends its client a frame for the slot. At any later moment
      before the client's next reply, the radio not having rebooted, the frame the client was
      given last for the slot is the one in the cache if and only if the frame sent was still
      in the cache when it was sent, or the radio has sent another for the slot since. */
  lemma CachedFrameIsCurrentIff(cx: Codec, readOnly: bool, es: seq<Event>, e: Event, fs: seq<Event>, c: ClientId,
      k: Key, s: State, t: State)
    requires cx.Lawful() && Feasible(cx, Initial(readOnly), es) && s == After(cx, Initial(readOnly), es)
    requires Enabled(cx, s, e) && e.Replaying? && e.c == c && e.ok
    requires ForSlot(cx, s.peers[c].replay.value.rest[0], k)
    requires Feasible(cx, Step(cx, s, e), fs) && t == After(cx, Step(cx, s, e), fs)
    requires c in t.clients && c in t.peers && |t.peers[c].hist.replays| == |s.peers[c].hist.replays|
    requires NoReboot(cx, t.radio, |s.radio|)
    ensures Shown(LastSeen(cx, t.peers[c].hist.log, k)) == t.cache.Lookup(k) <==>
              s.cache.Lookup(k) == Some(s.peers[c].replay.value.rest[0])
              || exists i :: |s.radio| <= i < |t.radio| && ForSlot(cx, t.radio[i], k)
  {
    hide Members, TableOK, LedgerOK, CacheOK, HeardOK, WireOK, CannedOK, Queued, Tidy, Replays, Heard, CacheFrames,
      LastFor, LastSeen, HeldAt, After, Feasible, Step, Enabled, Peer.Advance, ForSlot;
    SendStep(cx, s, e);
    var u, pr := Step(cx, s, e), s.peers[c];
    var longer := Extend(cx, Initial(readOnly), es, e);
    Reachable(cx, readOnly, es);
    Reachable(cx, readOnly, longer);
    ClientsHearEverything(cx, readOnly, longer, fs, c, u, t);
    RunLater(cx, u, fs, c);
    AfterBoth(cx, Initial(readOnly), longer, fs);
    Reachable(cx, readOnly, longer + fs);
    ClientsAreOpen(t, c);
    CacheIsFold(cx, readOnly, es, k);
    CacheIsFold(cx, readOnly, longer + fs, k);
    NothingYet(cx, readOnly, es);
    RepliesAreHeld(cx, readOnly, [], es, c, |pr.hist.replays| - 1, Initial(readOnly), s);
    var more := t.peers[c].hist.log[|u.peers[c].hist.log|..];
    assert t.peers[c].hist.log == u.peers[c].hist.log + more;
    StaysCurrentIff(cx, pr, t.peers[c], more, s.radio, t.radio, k);
  }

  lemma SendStep(cx: Codec, s: State, e: Event)
    requires Enabled(cx, s, e) && e.Replaying? && e.ok
    ensures e.c in s.peers && s.peers[e.c].replay.Some? && s.peers[e.c].replay.value.rest != []
    ensures s.peers[e.c].hist.replays != []
    ensures Step(cx, s, e) == s.With(e.c, s.peers[e.c].Advance(true))
    ensures s.peers[e.c].Advance(true).closed == s.peers[e.c].closed
    ensures s.peers[e.c].Advance(true).hist.replays == s.peers[e.c].hist.replays
    ensures s.peers[e.c].Advance(true).hist.log ==
            s.peers[e.c].hist.log + [Entry(s.peers[e.c].replay.value.rest[0], Cached(|s.peers[e.c].hist.replays| - 1))]
  {
    assert s.abandoned + multiset{} == s.abandoned;
  }

  lemma NothingYet(cx: Codec, readOnly: bool, es: seq<Event>)
    requires Feasible(cx, Initial(readOnly), es)
    ensures Feasible(cx, Initial(readOnly), []) && After(cx, Initial(readOnly), []) == Initial(readOnly)
    ensures Initial(readOnly).radio == [] && Initial(readOnly).peers == map[]
  {
  }

  /** When the radio completes a request of a connected client, the client has been given,
      in order, every cacheable frame the radio sent since any earlier moment s, such as
      the moment of the request, and the completion comes next. */
  lemma CompletionComesLast(cx: Codec, readOnly: bool, es: seq<Event>, fs: seq<Event>, e: Event, c: ClientId, id: u32,
      s: State, t: State)
    requires cx.Lawful() && Feasible(cx, Initial(readOnly), es) && s == After(cx, Initial(readOnly), es)
    requires Feasible(cx, s, fs) && t == After(cx, s, fs) && Enabled(cx, t, e)
    requires c in s.peers && c in t.clients && c in t.peers && t.peers[c].Room()
    requires e.RadioFrame? && cx.parseFrom(e.payload) == Some(ConfigComplete(id))
    requires id in t.pending && t.pending[id].owner == Some(c)
    ensures s.peers[c].hist.log <= t.peers[c].hist.log && s.radio <= t.radio
    ensures Heard(cx, t.peers[c].hist.log[|s.peers[c].hist.log|..]) == CacheFrames(cx, t.radio[|s.radio|..])
    ensures c in Step(cx, t, e).peers
    ensures Step(cx, t, e).peers[c].hist.log ==
            t.peers[c].hist.log + [Entry(cx.marshalComplete(t.pending[id].original), Answer)]
  {
    hide TableOK, LedgerOK, PeersOK, CacheOK, HeardOK, WireOK, CannedOK, Heard, CacheFrames, Step, Enabled, After,
      Feasible;
    ClientsHearEverything(cx, readOnly, es, fs, c, s, t);
    AfterBoth(cx, Initial(readOnly), es, fs);
    Reachable(cx, readOnly, es + fs);
    CompletionStep(cx, t, e, c, id);
  }

  lemma CompletionStep(cx: Codec, t: State, e: Event, c: ClientId, id: u32)
    requires c in t.peers && !t.peers[c].closed && t.peers[c].Room()
    requires Enabled(cx, t, e) && e.RadioFrame? && cx.parseFrom(e.payload) == Some(ConfigComplete(id))
    requires id in t.pending && t.pending[id].owner == Some(c)
    ensures c in Step(cx, t, e).peers
    ensures Step(cx, t, e).peers[c].hist.log ==
            t.peers[c].hist.log + [Entry(cx.marshalComplete(t.pending[id].original), Answer)]
  {
    hide Remove, Reissues, Enumerates;
  }

  /** Two runs one after the other are one run. */
  lemma {:induction false} AfterBoth(cx: Codec, s: State, es: seq<Event>, fs: seq<Event>)
    requires Feasible(cx, s, es) && Feasible(cx, After(cx, s, es), fs)
    ensures Feasible(cx, s, es + fs) && After(cx, s, es + fs) == After(cx, After(cx, s, es), fs)
    decreases |fs|
  {
    hide Step, Enabled;
    if fs == [] {
      assert es + fs == es;
    } else {
      var both := es + fs;
      assert both[..|both| - 1] == es + fs[..|fs| - 1];
      AfterBoth(cx, s, es, fs[..|fs| - 1]);
    }
  }

  /** A client connected since before the last reset can rebuild the cache from what it has
      heard live: slot by slot, the last frame it heard is the cached one. */
  lemma ClientsCanRebuildTheCache(cx: Codec, readOnly: bool, es: seq<Event>, c: ClientId)
    requires cx.Lawful() && Feasible(cx, Initial(readOnly), es)
    ensures var s := After(cx, Initial(readOnly), es);
            c in s.clients && c in s.peers && s.peers[c].hist.joined + |SinceReset(cx, s.radio)| <= |s.radio| ==>
              var live := CacheFrames(cx, SinceReset(cx, s.radio));
              && Ends(Heard(cx, s.peers[c].hist.log), live)
              && (forall k: Key :: LastFor(cx, live, k) == s.cache.Lookup(k))
  {
    hide Members, TableOK, LedgerOK, PeersOK, CacheOK, HeardOK, WireOK, CannedOK, Step, Enabled, LastFor, SinceReset,
      CacheFrames, Heard, Ends;
    Reachable(cx, readOnly, es);
    var s := After(cx, Initial(readOnly), es);
    if c in s.clients && c in s.peers && s.peers[c].hist.joined + |SinceReset(cx, s.radio)| <= |s.radio| {
      ClientsAreOpen(s, c);
      LiveViewIsCache(cx, s, c);
    }
  }

  // ----- closing

  /** CloseAll in any reachable state: no client, no primary and no open connection is left;
      no client's request is left if and only if none belonged to a connection that was
      closed before. */
  lemma CloseAllClearsTheRest(cx: Codec, readOnly: bool, es: seq<Event>, e: Event)
    requires cx.Lawful() && Feasible(cx, Initial(readOnly), es)
    requires e.Closing? && Enabled(cx, After(cx, Initial(readOnly), es), e)
    ensures var s := After(cx, Initial(readOnly), es);
            var t := Step(cx, s, e);
            && t.clients == {} && t.primary == None && (forall c :: c in t.peers ==> t.peers[c].closed)
            && ((forall n :: n in t.pending ==> t.pending[n].owner == None) <==>
                (forall n :: n in s.pending && s.pending[n].owner.Some? ==> s.pending[n].owner.value in s.clients))
  {
    hide Members, TableOK, LedgerOK, PeersOK, CacheOK, HeardOK, WireOK, CannedOK, After, RemoveAll, Enumerates;
    Reachable(cx, readOnly, es);
    CloseAllClears(After(cx, Initial(readOnly), es), e.slots);
  }

  // ----- the loops of a connection

  /** After a read of the connection failed no frame comes from it any more, and after its
      writer stopped nothing is written to it, whatever else happens. */
  lemma EndedLoopsStayEnded(cx: Codec, readOnly: bool, es: seq<Event>, e: Event, fs: seq<Event>, i: nat)
    requires cx.Lawful() && Feasible(cx, Initial(readOnly), es) && Enabled(cx, After(cx, Initial(readOnly), es), e)
    requires Feasible(cx, Step(cx, After(cx, Initial(readOnly), es), e), fs) && i < |fs|
    ensures e.ReadFailed? ==> !(fs[i].ClientFrame? && fs[i].c == e.c) && !(fs[i].ReadFailed? && fs[i].c == e.c)
    ensures e.WriterStopped? ==> !(fs[i].Writing? && fs[i].c == e.c) && !(fs[i].WriterStopped? && fs[i].c == e.c)
  {
    hide Members, Step, Enabled, After, Feasible, TableOK, LedgerOK, PeersOK, CacheOK, HeardOK, WireOK, CannedOK;
    var s := After(cx, Initial(readOnly), es);
    var t := Step(cx, s, e);
    if e.ReadFailed? || e.WriterStopped? {
      Reachable(cx, readOnly, es);
      StepMembers(cx, s, e);
      EndsLoop(cx, s, e);
      StepAt(cx, t, fs, i);
      RunLater(cx, t, fs[..i], e.c);
      NeedsLoop(cx, After(cx, t, fs[..i]), fs[i], e.c);
    }
  }

  lemma EndsLoop(cx: Codec, s: State, e: Event)
    requires Enabled(cx, s, e) && (e.ReadFailed? || e.WriterStopped?)
    ensures e.c in Step(cx, s, e).peers
    ensures e.ReadFailed? ==> !Step(cx, s, e).peers[e.c].reading
    ensures e.WriterStopped? ==> !Step(cx, s, e).peers[e.c].writing
  {
    hide Promote, DropOwner, RequestsOf, Owned;
  }

  lemma NeedsLoop(cx: Codec, s: State, e: Event, c: ClientId)
    requires Enabled(cx, s, e) && c in s.peers
    ensures (e.ClientFrame? || e.ReadFailed?) && e.c == c ==> s.peers[c].reading
    ensures (e.Writing? || e.WriterStopped?) && e.c == c ==> s.peers[c].writing
  {
    hide Enumerates, NeedsNonce, FreshNonce;
  }

  // ----- echoes

  /** The life of one client packet, from any moment s of any run: e0 sends it, and it goes out, e1 is its echo
      within thirty seconds while the sender is connected, e2 is a second echo, and any
      events about other packets come in between. Each other client gets one copy or had a
      full queue and is removed; the first echo goes to the sender, on chat ports to nobody;
      the second goes to everybody. */
  lemma EchoesComeBackOnce(cx: Codec, readOnly: bool, es: seq<Event>, e0: Event, es0: seq<Event>, e1: Event,
      es1: seq<Event>, e2: Event, p: MeshPacket, q: MeshPacket, r: MeshPacket,
      s: State, t: State, u: State, v: State, w: State)
    requires cx.Lawful() && Feasible(cx, Initial(readOnly), es) && s == After(cx, Initial(readOnly), es)
    requires Sends(cx, s, e0, p) && p.id != 0 && q.id == p.id && r.id == p.id
    requires forall i :: 0 <= i < |es0| ==> !Touches(cx, es0[i], p.id)
    requires forall i :: 0 <= i < |es1| ==> !Touches(cx, es1[i], p.id)
    requires t == Step(cx, s, e0) && Feasible(cx, t, es0) && u == After(cx, t, es0)
    requires Echoed(cx, u, e1, q) && e0.c in u.clients && u.now <= s.now + 30_000_000_000
    requires v == Step(cx, u, e1) && Feasible(cx, v, es1) && w == After(cx, v, es1)
    requires Echoed(cx, w, e2, r)
    ensures t.serial == s.serial + [Sent(cx.marshalTo(SendPacket(p)), s.pending)]
    ensures Copied(s, t, e0.c, cx.marshalPacket(p))
    ensures Returned(u, v, e0.c, q, e1.payload)
    ensures Spread(w, Step(cx, w, e2), e2.payload)
  {
    hide *;
    Reachable(cx, readOnly, es);
    SentIsWritten(cx, readOnly, es, e0, p);
    EchoOnce(cx, s, e0, es0, e1, es1, e2, p, q, r, t, u, v, w);
  }

  lemma SentIsWritten(cx: Codec, readOnly: bool, es: seq<Event>, e: Event, p: MeshPacket)
    requires cx.Lawful() && Feasible(cx, Initial(readOnly), es) && Sends(cx, After(cx, Initial(readOnly), es), e, p)
    ensures var s := After(cx, Initial(readOnly), es);
            Step(cx, s, e).serial == s.serial + [Sent(cx.marshalTo(SendPacket(p)), s.pending)]
  {
    hide Feasible, After, Enabled, Step;
    WhoMayWrite(cx, readOnly, es, e);
    RadioHearsExactly(cx, readOnly, es);
  }

  /** The echo of a packet that comes more than thirty seconds after it, or after its sender has
      gone, goes to everybody. */
  lemma LateEchoesAreForAll(cx: Codec, readOnly: bool, es: seq<Event>, e0: Event, es0: seq<Event>, e1: Event,
      p: MeshPacket, q: MeshPacket, s: State, t: State, u: State)
    requires cx.Lawful() && Feasible(cx, Initial(readOnly), es) && s == After(cx, Initial(readOnly), es)
    requires Sends(cx, s, e0, p) && p.id != 0 && q.id == p.id
    requires forall i :: 0 <= i < |es0| ==> !Touches(cx, es0[i], p.id)
    requires t == Step(cx, s, e0) && Feasible(cx, t, es0) && u == After(cx, t, es0) && Echoed(cx, u, e1, q)
    requires u.now > s.now + 30_000_000_000 || (e0.c in u.peers && e0.c !in u.clients)
    ensures Spread(u, Step(cx, u, e1), e1.payload)
  {
    hide *;
    Reachable(cx, readOnly, es);
    LateEcho(cx, s, e0, es0, e1, p, q, t, u);
  }

  // ----- frames that go nowhere

  /** No queue, no cached reply and no cache slot ever holds a Rebooted frame. */
  lemma NoRebootedFrames(cx: Codec, readOnly: bool, es: seq<Event>)
    requires cx.Lawful() && Feasible(cx, Initial(readOnly), es)
    ensures var s := After(cx, Initial(readOnly), es);
            && (forall c, i :: c in s.peers && 0 <= i < |s.peers[c].queue| ==> Showable(cx, s.peers[c].queue[i]))
            && (forall c, i :: c in s.peers && s.peers[c].replay.Some? && 0 <= i < |s.peers[c].replay.value.rest| ==>
                  Showable(cx, s.peers[c].replay.value.rest[i]))
            && (forall k: Key :: s.cache.Lookup(k).Some? ==> Showable(cx, s.cache.Lookup(k).value))
  {
    hide Members, TableOK, LedgerOK, HeardOK, WireOK, CannedOK, Showable, Queued, Replays, RestOK, LastFor,
      Step, Enabled;
    Reachable(cx, readOnly, es);
    var s := After(cx, Initial(readOnly), es);
    forall c, i | c in s.peers && 0 <= i < |s.peers[c].queue|
      ensures Showable(cx, s.peers[c].queue[i])
    {
      QueueIsShowable(cx, s.peers[c], i);
    }
    forall c, i | c in s.peers && s.peers[c].replay.Some? && 0 <= i < |s.peers[c].replay.value.rest|
      ensures Showable(cx, s.peers[c].replay.value.rest[i])
    {
      RestFrames(cx, s.peers[c].replay.value, i);
    }
    forall k: Key | s.cache.Lookup(k).Some?
      ensures Showable(cx, s.cache.Lookup(k).value)
    {
      LastForFrame(cx, s.radio, k);
      CacheableIsShowable(cx, s.cache.Lookup(k).value);
    }
  }

  lemma CacheableIsShowable(cx: Codec, p: Payload)
    requires Cacheable(cx, p)
    ensures Showable(cx, p)
  {
  }

  lemma QueueIsShowable(cx: Codec, pr: Peer, i: nat)
    requires Queued(pr) && Tidy(cx, pr) && i < |pr.queue|
    ensures Showable(cx, pr.queue[i])
  {
    hide Showable, Cut, RestOK;
    var accepted := Contents(pr.hist.log);
    assert accepted[|accepted| - |pr.queue|..][i] == accepted[|accepted| - |pr.queue| + i];
  }

  /** The radio is never sent a Disconnect, and a WantConfigId only under a nonce that was
      in the table when it was written. */
  lemma RadioIsAskedByNonce(cx: Codec, readOnly: bool, es: seq<Event>, i: nat)
    requires cx.Lawful() && Feasible(cx, Initial(readOnly), es)
    ensures var s := After(cx, Initial(readOnly), es);
            i < |s.serial| ==>
              && cx.parseTo(s.serial[i].payload) != Some(Disconnect)
              && (forall n :: cx.parseTo(s.serial[i].payload) == Some(WantConfig(n)) ==> n in s.serial[i].table)
  {
    hide Members, TableOK, LedgerOK, PeersOK, CacheOK, HeardOK, CannedOK, Step, Enabled;
    Reachable(cx, readOnly, es);
    var s := After(cx, Initial(readOnly), es);
    if i < |s.serial| {
      assert Sendable(cx, s.serial[i].payload, s.serial[i].table);
    }
  }

  /** The last of the WantConfigIds written under n, of which the i-th payload is one. */
  lemma {:induction false} LastWrite(cx: Codec, serial: seq<Sent>, i: nat, n: u32) returns (j: nat)
    requires i < |serial| && IsAsk(cx, serial[i].payload, n)
    requires forall k :: 0 <= k < |serial| ==> Sendable(cx, serial[k].payload, serial[k].table)
    ensures i <= j < |serial| && IsAsk(cx, serial[j].payload, n)
    ensures forall k :: j < k < |serial| ==> !IsAsk(cx, serial[k].payload, n)
    ensures n in serial[i].table && n in serial[j].table
    ensures LastAsk(cx, serial, n) == Some(serial[j].table[n])
  {
    assert Sendable(cx, serial[i].payload, serial[i].table);
    j := |serial| - 1;
    assert Sendable(cx, serial[j].payload, serial[j].table);
    if !IsAsk(cx, serial[j].payload, n) {
      j := LastWrite(cx, serial[..j], i, n);
    }
  }

  /** Nonces may be drawn again after a reboot. While the link is up, the radio's completion of
      n answers the request x of client c, for which the i-th payload asked under n, if and
      only if n is still pending and the last WantConfigId under n asked for the same request:
      always, for instance, if n was written once. */
  lemma AnswersItsRequestIff(cx: Codec, readOnly: bool, es: seq<Event>, e: Event, i: nat, n: u32, c: ClientId, x: u32,
      s: State) returns (j: nat)
    requires cx.Lawful() && Feasible(cx, Initial(readOnly), es) && s == After(cx, Initial(readOnly), es) && !s.down
    requires i < |s.serial| && IsAsk(cx, s.serial[i].payload, n)
    requires n in s.serial[i].table && s.serial[i].table[n] == Request(Some(c), x)
    requires Enabled(cx, s, e) && e.RadioFrame? && cx.parseFrom(e.payload) == Some(ConfigComplete(n))
    requires c in s.clients && c in s.peers && s.peers[c].Room()
    ensures i <= j < |s.serial| && IsAsk(cx, s.serial[j].payload, n) && n in s.serial[j].table
    ensures forall k :: j < k < |s.serial| ==> !IsAsk(cx, s.serial[k].payload, n)
    ensures c in Step(cx, s, e).peers
    ensures Step(cx, s, e).peers[c].hist.log == s.peers[c].hist.log + [Entry(cx.marshalComplete(x), Answer)] <==>
              n in s.pending && s.serial[j].table[n] == Request(Some(c), x)
  {
    hide TableOK, LedgerOK, PeersOK, CacheOK, HeardOK, CannedOK, IsAsk, Sendable, LastAsk, Step, Enabled, After,
      Feasible;
    Reachable(cx, readOnly, es);
    j := LastWrite(cx, s.serial, i, n);
    AnswerStep(cx, s, e, n, c, x);
  }

  lemma AnswerStep(cx: Codec, s: State, e: Event, n: u32, c: ClientId, x: u32)
    requires cx.Lawful() && c in s.peers && !s.peers[c].closed && s.peers[c].Room()
    requires Enabled(cx, s, e) && e.RadioFrame? && cx.parseFrom(e.payload) == Some(ConfigComplete(n))
    ensures c in Step(cx, s, e).peers
    ensures Step(cx, s, e).peers[c].hist.log == s.peers[c].hist.log + [Entry(cx.marshalComplete(x), Answer)] <==>
              n in s.pending && s.pending[n] == Request(Some(c), x)
  {
    hide Complete, Reissues, Enumerates;
    var logged := s.(cache := s.cache.Updated(ConfigComplete(n), e.payload), radio := s.radio + [e.payload]);
    CompleteLog(cx, logged, n, e.promo, c);
    var log, more := s.peers[c].hist.log, Entry(cx.marshalComplete(x), Answer);
    assert (log + [more])[|log|] == more;
    if n in s.pending {
      var other := Entry(cx.marshalComplete(s.pending[n].original), Answer);
      assert (log + [other])[|log|] == other;
      SameCompletion(cx, x, s.pending[n].original);
    }
  }

  lemma CompleteLog(cx: Codec, s: State, n: u32, promo: ClientId, c: ClientId)
    requires c in s.peers && !s.peers[c].closed && s.peers[c].Room()
    ensures var t := Complete(cx, s, n, promo);
            && c in t.peers
            && t.peers[c].hist.log == s.peers[c].hist.log +
                 if n in s.pending && s.pending[n].owner == Some(c)
                 then [Entry(cx.marshalComplete(s.pending[n].original), Answer)] else []
  {
    hide Promote, DropOwner, Owned, RequestsOf;
    assert s.peers[c].hist.log + [] == s.peers[c].hist.log;
  }

  lemma SameCompletion(cx: Codec, x: u32, y: u32)
    requires cx.Lawful()
    ensures cx.marshalComplete(x) == cx.marshalComplete(y) ==> x == y
  {
    assert cx.parseFrom(cx.marshalComplete(x)) == Some(ConfigComplete(x));
  }

  // ----- canned messages

  /** A call that waits was begun before, once. */
  lemma CallBegins(cx: Codec, readOnly: bool, es: seq<Event>, k: nat, f: nat) returns (j: nat)
    requires Feasible(cx, Initial(readOnly), es) && k <= |es| && Feasible(cx, Initial(readOnly), es[..k])
    requires f in After(cx, Initial(readOnly), es[..k]).canned.fetches
    ensures j < k && BegunAt(es, j, f, After(cx, Initial(readOnly), es[..k]).canned.fetches[f].id)
    ensures forall i, id :: BegunAt(es, i, f, id) ==> i == j
  {
    hide Members, Step, Enabled, After, Feasible;
    InitialMembers(readOnly);
    CallsInRun(cx, Initial(readOnly), es[..k], f);
    var id := After(cx, Initial(readOnly), es[..k]).canned.fetches[f].id;
    j :| 0 <= j && BegunAt(es[..k], j, f, id);
    forall i, id' | BegunAt(es, i, f, id')
      ensures i == j
    {
      BegunOnce(cx, readOnly, es, i, j, f);
      BegunOnce(cx, readOnly, es, j, i, f);
    }
  }

  lemma BegunOnce(cx: Codec, readOnly: bool, es: seq<Event>, i: nat, j: nat, f: nat)
    requires Feasible(cx, Initial(readOnly), es) && i < |es| && j < |es|
    requires es[i].Fetching? && es[j].Fetching? && es[i].f == f && es[j].f == f
    ensures j <= i
  {
    hide Members, Step, Enabled, After, Waiters;
    if i < j {
      assert es[..j][i] == es[i];
      InitialMembers(readOnly);
      StepAt(cx, Initial(readOnly), es, j);
      CallsInRun(cx, Initial(readOnly), es[..j], f);
      BeginsFresh(cx, After(cx, Initial(readOnly), es[..j]), es[j]);
    }
  }

  /** Each event of a run was enabled when it came. */
  lemma {:induction false} StepAt(cx: Codec, s: State, es: seq<Event>, j: nat)
    requires Feasible(cx, s, es) && j < |es|
    ensures Feasible(cx, s, es[..j]) && Enabled(cx, After(cx, s, es[..j]), es[j])
  {
    hide Step, Enabled;
    if j < |es| - 1 {
      StepAt(cx, s, es[..|es| - 1], j);
      assert es[..|es| - 1][..j] == es[..j];
    }
  }

  /** Every list that FetchCannedMessages returned was returned at a moment m of the run, and
      is the non-empty parse of a canned reply r that the radio sent at an earlier moment k,
      when a call was waiting for it that had begun at the moment j, and at no other, with a
      request under the id that r carries. If the list was served from the cache, r was stored
      then, at most two minutes before. If not, that call is the one that returns it. */
  lemma ServedListsAreReplies(cx: Codec, readOnly: bool, es: seq<Event>, v: Served)
    returns (r: Taken, j: nat, k: nat, m: nat)
    requires cx.Lawful() && Feasible(cx, Initial(readOnly), es) && v in After(cx, Initial(readOnly), es).served
    ensures ServedAt(cx, Initial(readOnly), es, m, v) && k < m && TakenAt(cx, Initial(readOnly), es, k, r)
    ensures v.messages != [] && v.messages == CannedMessages.Parse(r.raw) && r.at <= v.at
    ensures forall w :: w in v.messages ==> CannedMessages.Canonical(w)
    ensures v.source.FromCache? ==> r.at == v.source.storedAt && v.at - r.at <= 120_000_000_000
    ensures v.source.FromReply? ==> r.call == v.source.call && r.id == v.source.id
    ensures j < k && BegunAt(es, j, r.call, r.id) && forall i, id :: BegunAt(es, i, r.call, id) ==> i == j
  {
    hide Members, TableOK, LedgerOK, PeersOK, CacheOK, HeardOK, WireOK, CannedMessages.Parse, CannedMessages.Canonical,
      Step, Enabled, After, Feasible, Serves, Takes;
    InitialMembers(readOnly);
    ServedInRun(cx, Initial(readOnly), es, v);
    m :| 0 <= m && ServedAt(cx, Initial(readOnly), es, m, v);
    Reachable(cx, readOnly, es);
    ServedAreReplies(cx, After(cx, Initial(readOnly), es), v);
    Reachable(cx, readOnly, es[..m]);
    r := SourceOf(cx, After(cx, Initial(readOnly), es[..m]), es[m], v);
    CannedMessages.ParsedAreCanonical(r.raw);
    TakenInRun(cx, Initial(readOnly), es[..m], r);
    k :| 0 <= k && TakenAt(cx, Initial(readOnly), es[..m], k, r);
    assert es[..m][..k] == es[..k];
    Reachable(cx, readOnly, es[..k]);
    WaiterCalls(cx, After(cx, Initial(readOnly), es[..k]), es[k], r);
    j := CallBegins(cx, readOnly, es, k, r.call);
  }

  lemma WaiterCalls(cx: Codec, s: State, e: Event, r: Taken)
    requires CannedOK(cx, s) && Takes(cx, s, e, r)
    ensures r.call in s.canned.fetches && s.canned.fetches[r.call].id == r.id
  {
  }

  /** The reply that a list handed out at s came from. */
  lemma SourceOf(cx: Codec, s: State, e: Event, v: Served) returns (r: Taken)
    requires CannedOK(cx, s) && Serves(s, e, v) && v.messages != []
    ensures r in s.taken && v.messages == CannedMessages.Parse(r.raw) && r.at <= v.at
    ensures v.source.FromCache? ==> r.at == v.source.storedAt && v.at - r.at <= 120_000_000_000
    ensures v.source.FromReply? ==> r.call == v.source.call && r.id == v.source.id
  {
    hide CannedMessages.Parse, IsReply, ServedOK;
    if e.Fetching? {
      r := s.taken[|s.taken| - 1];
    } else {
      assert FetchOK(s.taken, e.f, s.canned.fetches[e.f]);
      r :| r in s.taken && v.messages == CannedMessages.Parse(r.raw) && r.id == s.canned.fetches[e.f].id
        && r.call == e.f;
    }
  }

  lemma {:induction false} WaitsOn(cx: Codec, readOnly: bool, es: seq<Event>, fs: seq<Event>, f: nat, id: u32, s: State)
    requires cx.Lawful() && Feasible(cx, Initial(readOnly), es) && s == After(cx, Initial(readOnly), es)
    requires Feasible(cx, s, fs) && Waits(s, f, id)
    requires forall i :: 0 <= i < |fs| ==> !Disturbs(cx, fs[i], f, id)
    ensures Waits(After(cx, s, fs), f, id)
  {
    hide Members, EchoOK, CannedOK, Step, Enabled, Waits, Disturbs;
    if fs != [] {
      var init, e := fs[..|fs| - 1], fs[|fs| - 1];
      WaitsOn(cx, readOnly, es, init, f, id, s);
      AfterBoth(cx, Initial(readOnly), es, init);
      EveryMoment(cx, readOnly, es + init);
      StillWaits(cx, After(cx, s, init), e, f, id);
    }
  }

  lemma {:induction false} HoldsOn(cx: Codec, readOnly: bool, es: seq<Event>, fs: seq<Event>, f: nat, id: u32,
      ms: seq<string>, s: State)
    requires cx.Lawful() && Feasible(cx, Initial(readOnly), es) && s == After(cx, Initial(readOnly), es)
    requires Feasible(cx, s, fs) && Holds(s, f, id, ms)
    requires forall i :: 0 <= i < |fs| ==> !(fs[i].Fetched? && fs[i].f == f)
    ensures Holds(After(cx, s, fs), f, id, ms)
  {
    hide Members, EchoOK, CannedOK, Step, Enabled, Holds;
    if fs != [] {
      var init, e := fs[..|fs| - 1], fs[|fs| - 1];
      HoldsOn(cx, readOnly, es, init, f, id, ms, s);
      AfterBoth(cx, Initial(readOnly), es, init);
      EveryMoment(cx, readOnly, es + init);
      StillHolds(cx, After(cx, s, init), e, f, id, ms);
    }
  }

  /** The last canned reply that was taken, while it is at most two minutes old and its list is
      not empty, is what a call returns, without asking the radio; otherwise the call returns
      nothing yet, and asks if the radio's number is known and the write works. */
  lemma FreshListsAreServed(cx: Codec, readOnly: bool, es: seq<Event>, e: Event)
    requires cx.Lawful() && Feasible(cx, Initial(readOnly), es) && Enabled(cx, After(cx, Initial(readOnly), es), e)
    requires e.Fetching?
    ensures var s := After(cx, Initial(readOnly), es);
            var t, ask := Step(cx, s, e), cx.marshalTo(SendPacket(e.packet));
            if s.taken != [] && s.now - s.taken[|s.taken| - 1].at <= 120_000_000_000
               && CannedMessages.Parse(s.taken[|s.taken| - 1].raw) != []
            then var r := s.taken[|s.taken| - 1];
                 && t.served == s.served + [Served(CannedMessages.Parse(r.raw), FromCache(r.at), s.now)]
                 && t.serial == s.serial
            else && t.served == s.served
                 && t.serial == s.serial + if NodeNumber(cx, s.cache) != 0 && !s.down && e.ok && |ask| <= 65535
                                           then [Sent(ask, s.pending)] else []
  {
    hide Members, EchoOK, CannedOK, Feasible, After, Enabled, Step, ClientSide, NodeNumber, CannedMessages.Parse;
    EveryMoment(cx, readOnly, es);
    EveryStep(cx, readOnly, es, e);
    FetchBegins(cx, After(cx, Initial(readOnly), es), e);
  }

  /** The life of a call that asks the radio, from any moment s of any run. e0 begins it, under a
      packet id that no other call waits for; e1 is a canned reply with that id; es0 is anything
      but the call's end, a call under that id or a canned reply with it; es1 is anything but
      the call's end. The request goes out at e0; the reply reaches no client; and when the call
      takes it, it returns what the reply says, unless that is nothing. */
  lemma CallsReturnTheirReply(cx: Codec, readOnly: bool, es: seq<Event>, e0: Event, es0: seq<Event>, e1: Event,
      es1: seq<Event>, id: u32, raw: string, s: State, t: State, u: State, v: State, w: State)
    requires cx.Lawful() && Leads(cx, Initial(readOnly), es, s)
    requires AsksRadio(cx, s, e0) && e0.Fetching? && e0.packet.id == id
    requires forall i :: 0 <= i < |es0| ==> !Disturbs(cx, es0[i], e0.f, id)
    requires Steps(cx, s, e0, t) && Leads(cx, t, es0, u)
    requires Tells(cx, u, e1, id, raw)
    requires forall i :: 0 <= i < |es1| ==> !(es1[i].Fetched? && es1[i].f == e0.f)
    requires Steps(cx, u, e1, v) && Leads(cx, v, es1, w)
    ensures t.serial == s.serial + [Sent(cx.marshalTo(SendPacket(e0.packet)), s.pending)]
    ensures v.peers == u.peers && v.taken == u.taken + [Taken(id, raw, u.now, e0.f)]
    ensures Enabled(cx, w, Fetched(e0.f, true))
    ensures var list, x := CannedMessages.Parse(raw), Step(cx, w, Fetched(e0.f, true));
            x.served == w.served + if list == [] then [] else [Served(list, FromReply(e0.f, id), w.now)]
  {
    hide *;
    var run0 := CallGoesOut(cx, readOnly, es, e0, s, t);
    var run1 := ReplyIsHeld(cx, readOnly, run0, es0, e1, e0.f, id, raw, t, u, v);
    HeldToTheEnd(cx, readOnly, run1, es1, e0.f, id, CannedMessages.Parse(raw), v, w);
  }

  lemma HeldToTheEnd(cx: Codec, readOnly: bool, es: seq<Event>, fs: seq<Event>, f: nat, id: u32, list: seq<string>,
      s: State, t: State)
    requires cx.Lawful() && Leads(cx, Initial(readOnly), es, s)
    requires Leads(cx, s, fs, t) && Holds(s, f, id, list)
    requires forall i :: 0 <= i < |fs| ==> !(fs[i].Fetched? && fs[i].f == f)
    ensures Enabled(cx, t, Fetched(f, true))
    ensures Step(cx, t, Fetched(f, true)).served ==
            t.served + if list == [] then [] else [Served(list, FromReply(f, id), t.now)]
  {
    hide Feasible, After, Step, Enabled, Holds;
    HoldsOn(cx, readOnly, es, fs, f, id, list, s);
    HeldIsReturned(cx, t, f, id, list);
  }

  lemma CallGoesOut(cx: Codec, readOnly: bool, es: seq<Event>, e: Event, s: State, t: State)
    returns (longer: seq<Event>)
    requires cx.Lawful() && Leads(cx, Initial(readOnly), es, s)
    requires AsksRadio(cx, s, e) && Steps(cx, s, e, t)
    ensures Leads(cx, Initial(readOnly), longer, t)
    ensures t.serial == s.serial + [Sent(cx.marshalTo(SendPacket(e.packet)), s.pending)]
    ensures Waits(t, e.f, e.packet.id)
  {
    hide Members, EchoOK, CannedOK, Feasible, After, Step, Enabled, ClientSide, Outgoing, Waits;
    EveryMoment(cx, readOnly, es);
    EveryStep(cx, readOnly, es, e);
    CallWaits(cx, s, e);
    longer := Extend(cx, Initial(readOnly), es, e);
  }

  lemma ReplyIsHeld(cx: Codec, readOnly: bool, es: seq<Event>, fs: seq<Event>, e: Event, f: nat, id: u32, raw: string,
      s: State, t: State, u: State) returns (longer: seq<Event>)
    requires cx.Lawful() && Leads(cx, Initial(readOnly), es, s)
    requires Waits(s, f, id) && (forall i :: 0 <= i < |fs| ==> !Disturbs(cx, fs[i], f, id))
    requires Leads(cx, s, fs, t) && Tells(cx, t, e, id, raw) && Steps(cx, t, e, u)
    ensures Leads(cx, Initial(readOnly), longer, u)
    ensures Holds(u, f, id, CannedMessages.Parse(raw))
    ensures u.peers == t.peers && u.taken == t.taken + [Taken(id, raw, t.now, f)]
  {
    hide Members, EchoOK, CannedOK, Feasible, After, Step, Enabled, Waits, Holds, Disturbs, CannedMessages.Parse;
    WaitsOn(cx, readOnly, es, fs, f, id, s);
    AfterBoth(cx, Initial(readOnly), es, fs);
    EveryMoment(cx, readOnly, es + fs);
    ReplyHeld(cx, t, e, f, id, raw);
    longer := Extend(cx, Initial(readOnly), es + fs, e);
  }

  lemma HeldIsReturned(cx: Codec, s: State, f: nat, id: u32, list: seq<string>)
    requires Holds(s, f, id, list)
    ensures Enabled(cx, s, Fetched(f, true))
    ensures Step(cx, s, Fetched(f, true)).served ==
            s.served + if list == [] then [] else [Served(list, FromReply(f, id), s.now)]
  {
    FetchEnds(cx, s, Fetched(f, true));
  }
}
