/** Every WantConfigId is accounted for: answered, waiting for the radio, being answered
    from the cache, given up for a newer one, or abandoned with its client or the link. */
module Ledger {
  import opened Protocol
  import opened ConfigCaches
  import opened Counting
  import opened Model
  import opened Membership
  import opened PendingTable
  import opened Connections

  /** The completions with id x that were put into the client's queue. */
  function Completions(cx: Codec, log: seq<Entry>, x: u32): nat {
    if log == [] then 0
    else Completions(cx, log[..|log| - 1], x) + if IsCompletion(cx, log[|log| - 1].payload, x) then 1 else 0
  }

  function InReplay(pr: Peer, x: u32): nat {
    if pr.replay.Some? && pr.replay.value.original == x then 1 else 0
  }

  /** Where the client's requests with id x are. */
  function Accounted(cx: Codec, c: ClientId, pr: Peer, m: Pending, gone: multiset<Request>, x: u32): nat {
    Completions(cx, pr.hist.log, x) + pr.hist.retried[x] + Waiting(m, Request(Some(c), x)) + InReplay(pr, x)
    + gone[Request(Some(c), x)]
  }

  /** Every request is accounted for exactly once, and none is abandoned while the client is
      connected and the radio link is up. */
  ghost predicate Balanced(cx: Codec, c: ClientId, pr: Peer, m: Pending, gone: multiset<Request>, down: bool) {
    forall x: u32 ::
      && Accounted(cx, c, pr, m, gone, x) == pr.hist.asked[x]
      && (!pr.closed && !down ==> gone[Request(Some(c), x)] == 0)
  }

  /** Nothing is on the books of a client that never connected. */
  ghost predicate NoStrangers(s: State) {
    forall c, x: u32 :: c !in s.peers ==>
      s.abandoned[Request(Some(c), x)] == 0 && Waiting(s.pending, Request(Some(c), x)) == 0
  }

  ghost predicate LedgerOK(cx: Codec, s: State) {
    && NoStrangers(s)
    && (forall c :: c in s.peers ==> Balanced(cx, c, s.peers[c], s.pending, s.abandoned, s.down))
  }

  lemma CompletionsGrow(cx: Codec, log: seq<Entry>, e: Entry)
    ensures forall x ::
              Completions(cx, log + [e], x) ==
              Completions(cx, log, x) + if IsCompletion(cx, e.payload, x) then 1 else 0
  {
    assert (log + [e])[..|log|] == log;
  }

  /** Not a completion of anything. */
  predicate Plain(cx: Codec, p: Payload) {
    var m := cx.parseFrom(p);
    m.Some? ==> !m.value.ConfigComplete?
  }

  // ----- one client

  /** Entries that vanish are given up, which takes a closed client or a link that is down. */
  lemma BalancedMoves(cx: Codec, c: ClientId, pr: Peer, qr: Peer, s: State, t: State)
    requires Balanced(cx, c, pr, s.pending, s.abandoned, s.down) && Conserves(s, t)
    requires qr.hist.log == pr.hist.log && qr.hist.asked == pr.hist.asked && qr.hist.retried == pr.hist.retried
    requires qr.replay == pr.replay && (pr.closed ==> qr.closed) && (s.down ==> t.down)
    requires !qr.closed && !t.down ==>
             forall x: u32 :: Waiting(t.pending, Request(Some(c), x)) == Waiting(s.pending, Request(Some(c), x))
    ensures Balanced(cx, c, qr, t.pending, t.abandoned, t.down)
  {
    hide Completions, Waiting;
    forall x: u32
      ensures Accounted(cx, c, qr, t.pending, t.abandoned, x) == qr.hist.asked[x]
      ensures !qr.closed && !t.down ==> t.abandoned[Request(Some(c), x)] == 0
    {
      var r := Request(Some(c), x);
      assert Accounted(cx, c, pr, s.pending, s.abandoned, x) == pr.hist.asked[x];
      assert t.abandoned[r] + Waiting(t.pending, r) == s.abandoned[r] + Waiting(s.pending, r);
    }
  }

  lemma BalancedSame(cx: Codec, c: ClientId, pr: Peer, m: Pending, gone: multiset<Request>, down: bool,
      qr: Peer, down': bool)
    requires Balanced(cx, c, pr, m, gone, down)
    requires qr.hist.log == pr.hist.log && qr.hist.asked == pr.hist.asked && qr.hist.retried == pr.hist.retried
    requires qr.replay == pr.replay && (pr.closed ==> qr.closed) && (down ==> down')
    ensures Balanced(cx, c, qr, m, gone, down')
  {
    hide Completions, Waiting;
    forall x: u32
      ensures Accounted(cx, c, qr, m, gone, x) == qr.hist.asked[x]
      ensures !qr.closed && !down' ==> gone[Request(Some(c), x)] == 0
    {
      assert Accounted(cx, c, pr, m, gone, x) == pr.hist.asked[x];
    }
  }

  lemma BalancedOffered(cx: Codec, c: ClientId, pr: Peer, m: Pending, gone: multiset<Request>, down: bool,
      p: Payload, o: Origin)
    requires Balanced(cx, c, pr, m, gone, down) && Plain(cx, p)
    ensures Balanced(cx, c, pr.Offered(p, o), m, gone, down)
  {
    hide Completions, Waiting;
    CompletionsGrow(cx, pr.hist.log, Entry(p, o));
    var qr := pr.Offered(p, o);
    forall x: u32
      ensures Accounted(cx, c, qr, m, gone, x) == qr.hist.asked[x]
      ensures !qr.closed && !down ==> gone[Request(Some(c), x)] == 0
    {
      assert Accounted(cx, c, pr, m, gone, x) == pr.hist.asked[x];
    }
  }

  /** A request taken from the table is answered if its client's queue accepts the
      completion, and abandoned if not. */
  lemma BalancedAnswer(cx: Codec, c: ClientId, s: State, id: u32)
    requires cx.Lawful() && c in s.peers && Balanced(cx, c, s.peers[c], s.pending, s.abandoned, s.down)
    requires id in s.pending && s.pending[id].owner == Some(c)
    ensures var t := TakeRequest(s, id);
            var pr := s.peers[c].Offered(cx.marshalComplete(s.pending[id].original), Answer);
            Balanced(cx, c, pr, t.pending, t.abandoned, t.down)
  {
    hide Completions, Waiting;
    var pr, req, t := s.peers[c], s.pending[id], TakeRequest(s, id);
    var p := cx.marshalComplete(req.original);
    var qr := pr.Offered(p, Answer);
    CompletionsGrow(cx, pr.hist.log, Entry(p, Answer));
    WaitingRemove(s.pending, id);
    forall x: u32
      ensures Accounted(cx, c, qr, t.pending, t.abandoned, x) == qr.hist.asked[x]
      ensures !qr.closed && !t.down ==> t.abandoned[Request(Some(c), x)] == 0
    {
      var r := Request(Some(c), x);
      assert Accounted(cx, c, pr, s.pending, s.abandoned, x) == pr.hist.asked[x];
      assert Waiting(s.pending, r) == Waiting(t.pending, r) + if req == r then 1 else 0;
    }
  }

  lemma BalancedAsked(cx: Codec, c: ClientId, pr: Peer, m: Pending, gone: multiset<Request>, down: bool,
      x: u32, nonce: u32)
    requires Balanced(cx, c, pr, m, gone, down) && nonce !in DropOwner(m, c)
    ensures var asked := pr.Asked(x);
            Balanced(cx, c, asked.(hist := asked.hist.(retried := asked.hist.retried + Originals(m, c))),
                     DropOwner(m, c)[nonce := Request(Some(c), x)], gone, down)
  {
    hide RequestsOf, Completions, Waiting, Originals, DropOwners;
    var asked := pr.Asked(x);
    var qr := asked.(hist := asked.hist.(retried := asked.hist.retried + Originals(m, c)));
    var dropped := DropOwner(m, c);
    OriginalsCount(m, c);
    DropOwnerIsDropOwners(m, c);
    WaitingDropOwners(m, {c});
    WaitingInsert(dropped, nonce, Request(Some(c), x));
    var k := dropped[nonce := Request(Some(c), x)];
    forall y: u32
      ensures Accounted(cx, c, qr, k, gone, y) == qr.hist.asked[y]
      ensures !qr.closed && !down ==> gone[Request(Some(c), y)] == 0
    {
      assert Accounted(cx, c, pr, m, gone, y) == pr.hist.asked[y];
      assert Waiting(dropped, Request(Some(c), y)) == 0;
      assert Waiting(k, Request(Some(c), y)) == if x == y then 1 else 0;
    }
  }

  lemma BalancedBegin(cx: Codec, c: ClientId, pr: Peer, m: Pending, gone: multiset<Request>, down: bool,
      x: u32, cache: Cache, frames: seq<Payload>)
    requires Balanced(cx, c, pr, m, gone, down) && pr.replay == None
    ensures Balanced(cx, c, pr.Asked(x).Begin(x, cache, frames), m, gone, down)
  {
    hide Completions, Waiting;
    var qr := pr.Asked(x).Begin(x, cache, frames);
    forall y: u32
      ensures Accounted(cx, c, qr, m, gone, y) == qr.hist.asked[y]
      ensures !qr.closed && !down ==> gone[Request(Some(c), y)] == 0
    {
      assert Accounted(cx, c, pr, m, gone, y) == pr.hist.asked[y];
    }
  }

  /** The last frame of a cached reply is its completion, and no other is. */
  lemma BalancedAdvance(cx: Codec, c: ClientId, pr: Peer, m: Pending, gone: multiset<Request>, down: bool)
    requires cx.Lawful() && Balanced(cx, c, pr, m, gone, down)
    requires pr.replay.Some? && pr.hist.replays != [] && RestOK(cx, pr.replay.value)
    ensures Balanced(cx, c, pr.Advance(true), m, gone, down)
  {
    hide Completions, Waiting;
    var Replay(x, rest) := pr.replay.value;
    var qr := pr.Advance(true);
    CompletionsGrow(cx, pr.hist.log, Entry(rest[0], Cached(|pr.hist.replays| - 1)));
    assert |rest| > 1 ==> Cacheable(cx, rest[0]);
    forall y: u32
      ensures Accounted(cx, c, qr, m, gone, y) == qr.hist.asked[y]
      ensures !qr.closed && !down ==> gone[Request(Some(c), y)] == 0
    {
      assert Accounted(cx, c, pr, m, gone, y) == pr.hist.asked[y];
      assert IsCompletion(cx, rest[0], y) <==> |rest| == 1 && x == y;
    }
  }

  /** A cached reply that ends early on a closed connection. */
  lemma BalancedRefused(cx: Codec, c: ClientId, pr: Peer, m: Pending, gone: multiset<Request>, down: bool)
    requires Balanced(cx, c, pr, m, gone, down) && pr.closed
    requires pr.replay.Some? && pr.replay.value.rest != [] && pr.hist.replays != []
    ensures Balanced(cx, c, pr.Advance(false), m, gone + multiset{Request(Some(c), pr.replay.value.original)}, down)
  {
    hide Completions, Waiting;
    var lost := multiset{Request(Some(c), pr.replay.value.original)};
    var qr := pr.Advance(false);
    forall y: u32
      ensures Accounted(cx, c, qr, m, gone + lost, y) == qr.hist.asked[y]
    {
      assert Accounted(cx, c, pr, m, gone, y) == pr.hist.asked[y];
    }
  }

  // ----- the broker

  /** Steps that close connections or take the link down, and give up what they drop. */
  lemma LedgerMoves(cx: Codec, s: State, t: State)
    requires LedgerOK(cx, s) && t.peers.Keys == s.peers.Keys && (s.down ==> t.down) && Conserves(s, t)
    requires forall c :: c in s.peers ==>
      && t.peers[c].hist.log == s.peers[c].hist.log && t.peers[c].hist.asked == s.peers[c].hist.asked
      && t.peers[c].hist.retried == s.peers[c].hist.retried && t.peers[c].replay == s.peers[c].replay
      && (s.peers[c].closed ==> t.peers[c].closed)
    requires forall c, x: u32 :: c in s.peers && !t.peers[c].closed && !t.down ==>
      Waiting(t.pending, Request(Some(c), x)) == Waiting(s.pending, Request(Some(c), x))
    ensures LedgerOK(cx, t)
  {
    hide Balanced, Waiting, Conserves, NoStrangers;
    StrangersStay(s, t);
    forall c | c in t.peers
      ensures Balanced(cx, c, t.peers[c], t.pending, t.abandoned, t.down)
    {
      BalancedMoves(cx, c, s.peers[c], t.peers[c], s, t);
    }
  }

  lemma StrangersStay(s: State, t: State)
    requires NoStrangers(s) && Conserves(s, t) && t.peers.Keys == s.peers.Keys
    ensures NoStrangers(t)
  {
    hide Waiting;
    forall c, x: u32 | c !in t.peers
      ensures t.abandoned[Request(Some(c), x)] == 0 && Waiting(t.pending, Request(Some(c), x)) == 0
    {
      var r := Request(Some(c), x);
      assert t.abandoned[r] + Waiting(t.pending, r) == s.abandoned[r] + Waiting(s.pending, r);
    }
  }

  /** Only one client's books change. */
  lemma LedgerOneClient(cx: Codec, s: State, t: State, c: ClientId)
    requires LedgerOK(cx, s) && c in s.peers && (s.down ==> t.down)
    requires t.peers.Keys == s.peers.Keys
    requires forall d :: d in s.peers && d != c ==> t.peers[d] == s.peers[d]
    requires forall d, x: u32 :: d != c ==>
             Waiting(t.pending, Request(Some(d), x)) == Waiting(s.pending, Request(Some(d), x))
             && t.abandoned[Request(Some(d), x)] == s.abandoned[Request(Some(d), x)]
    requires Balanced(cx, c, t.peers[c], t.pending, t.abandoned, t.down)
    ensures LedgerOK(cx, t)
  {
    hide Waiting, Balanced;
    forall d | d in t.peers
      ensures Balanced(cx, d, t.peers[d], t.pending, t.abandoned, t.down)
    {
      if d != c {
        BalancedElsewhere(cx, d, s.peers[d], s, t);
      }
    }
  }

  lemma BalancedElsewhere(cx: Codec, d: ClientId, pr: Peer, s: State, t: State)
    requires Balanced(cx, d, pr, s.pending, s.abandoned, s.down) && (s.down ==> t.down)
    requires forall x: u32 ::
             Waiting(t.pending, Request(Some(d), x)) == Waiting(s.pending, Request(Some(d), x))
             && t.abandoned[Request(Some(d), x)] == s.abandoned[Request(Some(d), x)]
    ensures Balanced(cx, d, pr, t.pending, t.abandoned, t.down)
  {
    hide Waiting, Completions;
    forall x: u32
      ensures Accounted(cx, d, pr, t.pending, t.abandoned, x) == pr.hist.asked[x]
      ensures !pr.closed && !t.down ==> t.abandoned[Request(Some(d), x)] == 0
    {
      assert Accounted(cx, d, pr, s.pending, s.abandoned, x) == pr.hist.asked[x];
    }
  }

  lemma LedgerDelivered(cx: Codec, s: State, t: State, targets: set<ClientId>, p: Payload, o: Origin)
    requires LedgerOK(cx, s) && Delivered(s, t, targets, p, o) && Plain(cx, p)
    ensures LedgerOK(cx, t)
  {
    hide Balanced, Waiting, Plain, DropOwners, Conserves, NoStrangers;
    StrangersStay(s, t);
    WaitingDropOwners(s.pending, Gone(s, targets));
    forall c | c in t.peers
      ensures Balanced(cx, c, t.peers[c], t.pending, t.abandoned, t.down)
    {
      BalancedOffered(cx, c, s.peers[c], s.pending, s.abandoned, s.down, p, o);
      var pr := if c in targets then s.peers[c].Offered(p, o) else s.peers[c];
      assert c in Gone(s, targets) ==> pr.closed;
      BalancedMoves(cx, c, pr, t.peers[c], s, t);
    }
  }

  lemma LedgerAsk(cx: Codec, s: State, c: ClientId, x: u32, nonce: u32, ok: bool)
    requires LedgerOK(cx, s) && c in s.peers && nonce !in DropOwner(s.pending, c)
    ensures LedgerOK(cx, AskRadio(cx, s, c, x, nonce, ok))
  {
    hide LedgerOK, Waiting, DropOwners, Balanced, Originals, Want, CanWrite;
    var t := AskRadio(cx, s, c, x, nonce, ok);
    LedgerOf(cx, s, c);
    BalancedAsked(cx, c, s.peers[c], s.pending, s.abandoned, s.down, x, nonce);
    BalancedSame(cx, c, t.peers[c], t.pending, t.abandoned, s.down, t.peers[c], t.down);
    DropOwnerIsDropOwners(s.pending, c);
    WaitingDropOwners(s.pending, {c});
    WaitingInsert(DropOwner(s.pending, c), nonce, Request(Some(c), x));
    LedgerOneClient(cx, s, t, c);
  }

  lemma LedgerOf(cx: Codec, s: State, c: ClientId)
    requires LedgerOK(cx, s) && c in s.peers
    ensures Balanced(cx, c, s.peers[c], s.pending, s.abandoned, s.down)
  {
  }

  /** One connection changes, and what it gives up with it. */
  lemma LedgerPeer(cx: Codec, s: State, c: ClientId, pr: Peer, lost: multiset<Request>)
    requires LedgerOK(cx, s) && c in s.peers && (forall r :: r in lost ==> r.owner == Some(c))
    requires Balanced(cx, c, pr, s.pending, s.abandoned + lost, s.down)
    ensures LedgerOK(cx, s.With(c, pr).(abandoned := s.abandoned + lost))
  {
    hide LedgerOK, Balanced, Waiting;
    LedgerOneClient(cx, s, s.With(c, pr).(abandoned := s.abandoned + lost), c);
  }

  /** The books of every client are as they were. */
  lemma LedgerSame(cx: Codec, s: State, t: State)
    requires LedgerOK(cx, s) && t.peers == s.peers && (s.down ==> t.down)
    requires forall c, x: u32 ::
             Waiting(t.pending, Request(Some(c), x)) == Waiting(s.pending, Request(Some(c), x))
             && t.abandoned[Request(Some(c), x)] == s.abandoned[Request(Some(c), x)]
    ensures LedgerOK(cx, t)
  {
    hide Waiting, Balanced;
    forall c | c in t.peers
      ensures Balanced(cx, c, t.peers[c], t.pending, t.abandoned, t.down)
    {
      BalancedElsewhere(cx, c, s.peers[c], s, t);
    }
  }

  lemma LedgerComplete(cx: Codec, s: State, id: u32, promo: ClientId)
    requires cx.Lawful() && LedgerOK(cx, s) && TableOK(s) && Members(s) && id in s.pending
    ensures LedgerOK(cx, Complete(cx, s, id, promo))
  {
    hide Waiting, DropOwners, Send, Members, LedgerOK;
    if s.pending[id].owner == None {
      WaitingRemove(s.pending, id);
      LedgerSame(cx, s, TakeRequest(s, id));
    } else {
      LedgerAnswer(cx, s, id, promo);
    }
  }

  lemma LedgerAnswer(cx: Codec, s: State, id: u32, promo: ClientId)
    requires cx.Lawful() && LedgerOK(cx, s) && Members(s) && id in s.pending
    requires s.pending[id].owner.Some? && s.pending[id].owner.value in s.peers
    ensures LedgerOK(cx, Complete(cx, s, id, promo))
  {
    hide Waiting, Balanced, DropOwners, Send, Members, LedgerOK, Gone;
    var req := s.pending[id];
    var c, p := req.owner.value, cx.marshalComplete(req.original);
    var s1, t := TakeRequest(s, id), Complete(cx, s, id, promo);
    SameMembers(s, s1);
    SendDelivers(s1, c, p, Answer, promo);
    LedgerOf(cx, s, c);
    BalancedAnswer(cx, c, s, id);
    WaitingRemove(s.pending, id);
    WaitingDropOwners(s1.pending, Gone(s1, {c}));
    GoneIsClosed(s1, c, p);
    BalancedMoves(cx, c, t.peers[c], t.peers[c], s1, t);
    forall d, x: u32 | d != c
      ensures Waiting(t.pending, Request(Some(d), x)) == Waiting(s.pending, Request(Some(d), x))
      ensures t.abandoned[Request(Some(d), x)] == s.abandoned[Request(Some(d), x)]
    {
      var r := Request(Some(d), x);
      assert t.abandoned[r] + Waiting(t.pending, r) == s1.abandoned[r] + Waiting(s1.pending, r);
    }
    LedgerOneClient(cx, s, t, c);
  }

  lemma GoneIsClosed(s: State, c: ClientId, p: Payload)
    requires c in s.peers
    ensures Gone(s, {c}) <= {c}
    ensures c in Gone(s, {c}) ==> s.peers[c].Offered(p, Answer).closed
  {
  }

  lemma LedgerReboot(cx: Codec, s: State, rs: seq<Reissue>)
    requires LedgerOK(cx, s) && TableOK(s) && Reissues(cx, s, rs)
    ensures LedgerOK(cx, Reboot(cx, s, rs))
  {
    hide Waiting, LedgerOK, TableOK, Reissues, ReissueAll, Conserves, RequestsOf;
    var s0 := s.(cache := EMPTY, pending := map[]);
    RebootTable(cx, s, rs);
    ReissuesAreKnown(cx, s, rs);
    ReissueFrame(cx, s0, s.pending, rs);
    ReissueHalts(cx, s0, s.pending, rs);
    LedgerMoves(cx, s, Reboot(cx, s, rs));
  }

  lemma ReissuesAreKnown(cx: Codec, s: State, rs: seq<Reissue>)
    requires Reissues(cx, s, rs)
    ensures forall i :: 0 <= i < |rs| ==> rs[i].key in s.pending
  {
  }

  lemma LedgerPut(cx: Codec, s: State, p: Payload, ok: bool)
    requires LedgerOK(cx, s)
    ensures LedgerOK(cx, PutOrFail(s, p, ok))
  {
    hide LedgerOK, Waiting;
    LedgerSame(cx, s, PutOrFail(s, p, ok));
  }

  lemma LedgerReserve(cx: Codec, s: State, nonce: u32)
    requires LedgerOK(cx, s) && nonce !in s.pending
    ensures LedgerOK(cx, s.(pending := s.pending[nonce := Request(None, BOOTSTRAP_ID)]))
  {
    hide Waiting, LedgerOK;
    WaitingInsert(s.pending, nonce, Request(None, BOOTSTRAP_ID));
    LedgerSame(cx, s, s.(pending := s.pending[nonce := Request(None, BOOTSTRAP_ID)]));
  }

  lemma LedgerBootstrap(cx: Codec, s: State, nonce: u32, ok: bool)
    requires LedgerOK(cx, s) && FreshNonce(s.pending, nonce)
    ensures LedgerOK(cx, BootstrapConfig(cx, s, nonce, ok))
  {
    hide LedgerOK, PutOrFail;
    LedgerReserve(cx, s, nonce);
    LedgerPut(cx, s.(pending := s.pending[nonce := Request(None, BOOTSTRAP_ID)]), Want(cx, nonce), ok);
  }

  /** A new connection has asked for nothing, and nothing is on its books. */
  lemma LedgerConnect(cx: Codec, s: State, c: ClientId)
    requires LedgerOK(cx, s) && c !in s.peers
    ensures LedgerOK(cx, Connect(s, c))
  {
    hide Waiting;
    var t := Connect(s, c);
    assert Balanced(cx, c, t.peers[c], t.pending, t.abandoned, t.down);
    forall d | d in t.peers
      ensures Balanced(cx, d, t.peers[d], t.pending, t.abandoned, t.down)
    {
      if d != c {
        assert Balanced(cx, d, s.peers[d], s.pending, s.abandoned, s.down);
      }
    }
  }

  // ----- what a client can rely on

  /** Requests are exactly the completions, those waiting, the one being replayed, those
      the client replaced itself and those abandoned; and none is abandoned while the
      client is connected and the link is up. */
  lemma EveryRequest(cx: Codec, s: State, c: ClientId, x: u32)
    requires LedgerOK(cx, s) && c in s.peers
    ensures var pr, r := s.peers[c], Request(Some(c), x);
            && pr.hist.asked[x] == Completions(cx, pr.hist.log, x) + Waiting(s.pending, r) + InReplay(pr, x)
                                   + pr.hist.retried[x] + s.abandoned[r]
            && (!pr.closed && !s.down ==> s.abandoned[r] == 0)
  {
    hide Completions, Waiting;
    assert Balanced(cx, c, s.peers[c], s.pending, s.abandoned, s.down);
    assert Accounted(cx, c, s.peers[c], s.pending, s.abandoned, x) == s.peers[c].hist.asked[x];
  }
}
