/** The table of WantConfigId requests waiting for the radio. */
module PendingTable {
  import opened Protocol
  import opened ConfigCaches
  import opened Model
  import opened Counting
  import opened Membership

  /** No two entries have the same owner; in particular the broker owns at most one. */
  predicate OneEach(m: Pending) {
    forall n, k :: n in m && k in m && m[n].owner == m[k].owner ==> n == k
  }

  /** Nonces are not zero, and the client that waits can still read the answer's request. */
  ghost predicate TableOK(s: State) {
    && 0 !in s.pending
    && OneEach(s.pending)
    && (forall n :: n in s.pending && s.pending[n].owner.Some? ==>
          s.pending[n].owner.value in s.peers && s.peers[s.pending[n].owner.value].reading)
  }

  // ----- the size of the table

  function Readers(s: State): set<ClientId> {
    set c | c in s.peers && s.peers[c].reading
  }

  lemma {:induction false} OwnersInjective(m: Pending, owners: set<Option<ClientId>>)
    requires OneEach(m) && forall n :: n in m ==> m[n].owner in owners
    ensures |m| <= |owners|
    decreases |m|
  {
    if m.Keys != {} {
      if forall n :: n !in m.Keys { NothingIn(m.Keys); }
      var n :| n in m;
      assert m.Keys == (m - {n}).Keys + {n};
      OwnersInjective(m - {n}, owners - {m[n].owner});
    } else {
      assert m == map[];
    }
  }

  function Owners(cs: set<ClientId>): set<Option<ClientId>> {
    set c | c in cs :: Some(c)
  }

  lemma {:induction false} SizeOfOwners(cs: set<ClientId>)
    ensures |Owners(cs)| == |cs|
  {
    if cs != {} {
      if forall c :: c !in cs { NothingIn(cs); }
      var c :| c in cs;
      SizeOfOwners(cs - {c});
      assert Owners(cs) == Owners(cs - {c}) + {Some(c)};
    } else {
      assert Owners(cs) == {};
    }
  }

  /** The table never holds more than one entry for each live read loop, plus one. */
  lemma TableBound(s: State)
    requires TableOK(s)
    ensures |s.pending| <= |Readers(s)| + 1
  {
    var owners := Owners(Readers(s)) + {None};
    SizeOfOwners(Readers(s));
    OwnersInjective(s.pending, owners);
  }

  // ----- the reboot

  /** The part of the old table that rs has visited. */
  function Visited(m: Pending, rs: seq<Reissue>): Pending {
    map n | n in m && (exists i :: 0 <= i < |rs| && rs[i].key == n) :: m[n]
  }

  /** Each new entry is one of the visited requests, under the nonce drawn for it. */
  ghost predicate DrawnFrom(s: State, built: Pending, m: Pending, rs: seq<Reissue>) {
    forall n :: n in built ==>
      exists i :: 0 <= i < |rs| && rs[i].nonce == n && rs[i].key in m && built[n] == m[rs[i].key] &&
        !ClosedOwner(s, built[n])
  }

  lemma {:induction false} ReissueDraws(cx: Codec, s: State, m: Pending, rs: seq<Reissue>)
    requires Draws(rs, m) && s.pending == map[]
    ensures DrawnFrom(s, ReissueAll(cx, s, m, rs).state.pending, m, rs)
  {
    hide ClosedOwner, Want;
    if rs != [] {
      var front, r := rs[..|rs| - 1], rs[|rs| - 1];
      ReissueDraws(cx, s, m, front);
      var before := ReissueAll(cx, s, m, front).state.pending;
      var after := ReissueAll(cx, s, m, rs).state.pending;
      forall n | n in after
        ensures exists i ::
                  0 <= i < |rs| && rs[i].nonce == n && rs[i].key in m && after[n] == m[rs[i].key] &&
                  !ClosedOwner(s, after[n])
      {
        if n in before && after[n] == before[n] {
          var i :| 0 <= i < |front| && front[i].nonce == n && front[i].key in m && before[n] == m[front[i].key] &&
            !ClosedOwner(s, before[n]);
          assert rs[i] == front[i];
        } else {
          assert rs[|rs| - 1].nonce == n;
        }
      }
    }
  }

  lemma VisitedGrows(m: Pending, rs: seq<Reissue>)
    requires rs != [] && Draws(rs, m)
    ensures var front, r := rs[..|rs| - 1], rs[|rs| - 1];
            && r.key !in Visited(m, front)
            && Visited(m, rs) == Visited(m, front)[r.key := m[r.key]]
  {
    var front, r := rs[..|rs| - 1], rs[|rs| - 1];
    forall n | n in Visited(m, front)
      ensures n in Visited(m, rs) && n != r.key
    {
      var i :| 0 <= i < |front| && front[i].key == n;
      assert rs[i] == front[i];
    }
    assert rs[|rs| - 1].key == r.key;
    forall n | n in Visited(m, rs) && n != r.key
      ensures n in Visited(m, front)
    {
      var i :| 0 <= i < |rs| && rs[i].key == n;
      assert front[i] == rs[i];
    }
  }

  /** The visited requests that a reboot does not give up. */
  function Surviving(s: State, m: Pending, rs: seq<Reissue>, r: Request): nat {
    if ClosedOwner(s, r) then 0 else Waiting(Visited(m, rs), r)
  }

  lemma {:induction false} ReissueCounts(cx: Codec, s: State, m: Pending, rs: seq<Reissue>)
    requires Draws(rs, m) && s.pending == map[]
    ensures var t := ReissueAll(cx, s, m, rs);
            && (forall r :: Waiting(t.state.pending, r) <= Surviving(s, m, rs, r))
            && (!t.halted ==> forall r :: Waiting(t.state.pending, r) == Surviving(s, m, rs, r))
  {
    hide ClosedOwner, Want, CanWrite, Waiting, Visited, DrawnFrom;
    if rs == [] {
      NothingWaits();
      NoneVisited(m);
    } else {
      var front, r := rs[..|rs| - 1], rs[|rs| - 1];
      ReissueCounts(cx, s, m, front);
      VisitedGrows(m, rs);
      WaitingInsert(Visited(m, front), r.key, m[r.key]);
      var t := ReissueAll(cx, s, m, front);
      NonceIsNew(cx, s, m, rs);
      WaitingInsert(t.state.pending, r.nonce, m[r.key]);
      forall q
        ensures Surviving(s, m, rs, q) ==
                Surviving(s, m, front, q) + if q == m[r.key] && !ClosedOwner(s, q) then 1 else 0
      {
        assert Waiting(Visited(m, rs), q) == Waiting(Visited(m, front), q) + if m[r.key] == q then 1 else 0;
      }
      if !t.halted && !ClosedOwner(s, m[r.key]) {
        assert ReissueAll(cx, s, m, rs).state.pending == t.state.pending[r.nonce := m[r.key]];
      } else {
        assert ReissueAll(cx, s, m, rs) == t;
      }
    }
  }

  lemma NoneVisited(m: Pending)
    ensures Visited(m, []) == map[]
  {
  }

  lemma NothingWaits()
    ensures forall r :: Waiting(map[], r) == 0
  {
    forall r
      ensures Waiting(map[], r) == 0
    {
      assert Holders(map[], r) == {};
    }
  }

  lemma NonceIsNew(cx: Codec, s: State, m: Pending, rs: seq<Reissue>)
    requires rs != [] && Draws(rs, m) && s.pending == map[]
    ensures rs[|rs| - 1].nonce !in ReissueAll(cx, s, m, rs[..|rs| - 1]).state.pending
  {
    hide ReissueAll, ClosedOwner;
    ReissueDraws(cx, s, m, rs[..|rs| - 1]);
  }

  lemma VisitedWaits(s: State, m: Pending, rs: seq<Reissue>)
    ensures forall r :: Waiting(Visited(m, rs), r) <= Waiting(m, r)
    ensures Covers(s, rs, m) ==> forall r :: !ClosedOwner(s, r) ==> Waiting(Visited(m, rs), r) == Waiting(m, r)
  {
    hide ClosedOwner;
    forall r
      ensures Waiting(Visited(m, rs), r) <= Waiting(m, r)
      ensures Covers(s, rs, m) && !ClosedOwner(s, r) ==> Waiting(Visited(m, rs), r) == Waiting(m, r)
    {
      Fewer(Holders(Visited(m, rs), r), Holders(m, r));
      if Covers(s, rs, m) && !ClosedOwner(s, r) {
        assert Holders(Visited(m, rs), r) == Holders(m, r);
      }
    }
  }

  lemma Fewer<T>(a: set<T>, b: set<T>)
    requires a <= b
    ensures |a| <= |b|
  {
    assert b == a + (b - a);
  }

  /** What handleRebooted does to the table, for any order and any fresh nonces: it may
      lose entries of closed clients, and others only when a write fails. */
  lemma RebootTable(cx: Codec, s: State, rs: seq<Reissue>)
    requires TableOK(s) && Reissues(cx, s, rs)
    ensures var t := Reboot(cx, s, rs);
            && TableOK(t) && Conserves(s, t)
            && (forall r :: Waiting(t.pending, r) <= if ClosedOwner(s, r) then 0 else Waiting(s.pending, r))
            && (!t.down ==> forall r :: Waiting(t.pending, r) == if ClosedOwner(s, r) then 0 else Waiting(s.pending, r))
  {
    hide Waiting, DrawnFrom, ReissueAll, Visited, RequestsOf;
    var s0 := s.(cache := EMPTY, pending := map[]);
    var m := s.pending;
    var t := Reboot(cx, s, rs);
    ReissueFrame(cx, s0, m, rs);
    ReissueDraws(cx, s0, m, rs);
    ReissueCounts(cx, s0, m, rs);
    ReissueHalts(cx, s0, m, rs);
    VisitedWaits(s0, m, rs);
    DrawnOneEach(s0, t.pending, m, rs);
    DrawnAreLive(s, s0, t.pending, rs);
    GiveUpConserves(RebootRun(cx, s, rs).state, m);
  }

  lemma GiveUpConserves(s: State, before: Pending)
    requires forall r :: Waiting(s.pending, r) <= Waiting(before, r)
    ensures forall r :: GiveUp(s, before).abandoned[r] + Waiting(s.pending, r) == s.abandoned[r] + Waiting(before, r)
  {
    hide Waiting, RequestsOf;
    RequestsCount(before);
    RequestsCount(s.pending);
  }

  lemma DrawnAreLive(s: State, s0: State, built: Pending, rs: seq<Reissue>)
    requires TableOK(s) && Draws(rs, s.pending) && s0.peers == s.peers && DrawnFrom(s0, built, s.pending, rs)
    ensures forall n :: n in built ==> n != 0 && (built[n].owner.Some? ==>
              built[n].owner.value in s.peers && s.peers[built[n].owner.value].reading)
  {
  }

  lemma {:induction false} ReissueHalts(cx: Codec, s: State, m: Pending, rs: seq<Reissue>)
    requires forall i :: 0 <= i < |rs| ==> rs[i].key in m
    ensures ReissueAll(cx, s, m, rs).halted ==> ReissueAll(cx, s, m, rs).state.down
    ensures s.down ==> ReissueAll(cx, s, m, rs).state.down
    ensures !s.down && (forall i :: 0 <= i < |rs| ==> rs[i].ok && |Want(cx, rs[i].nonce)| <= Frame.MAX_SIZE) ==>
            !ReissueAll(cx, s, m, rs).state.down
  {
    hide ClosedOwner, Want;
    if rs != [] {
      ReissueHalts(cx, s, m, rs[..|rs| - 1]);
    }
  }

  lemma DrawnOneEach(s: State, built: Pending, m: Pending, rs: seq<Reissue>)
    requires OneEach(m) && Draws(rs, m) && DrawnFrom(s, built, m, rs)
    ensures OneEach(built)
  {
    forall n, k | n in built && k in built && built[n].owner == built[k].owner
      ensures n == k
    {
      var i :| 0 <= i < |rs| && rs[i].nonce == n && rs[i].key in m && built[n] == m[rs[i].key] &&
        !ClosedOwner(s, built[n]);
      var j :| 0 <= j < |rs| && rs[j].nonce == k && rs[j].key in m && built[k] == m[rs[j].key] &&
        !ClosedOwner(s, built[k]);
      assert rs[i].key == rs[j].key;
    }
  }

  // ----- the reboot on the wire

  predicate AllWork(cx: Codec, rs: seq<Reissue>) {
    forall i :: 0 <= i < |rs| ==> rs[i].ok && |Want(cx, rs[i].nonce)| <= Frame.MAX_SIZE
  }

  /** The writes after position `from` ask once under each nonce of the table. */
  ghost predicate AsksOnceEach(cx: Codec, serial: seq<Sent>, from: nat, m: Pending) {
    && |serial| == from + |m|
    && (forall n :: n in m ==> exists i :: from <= i < |serial| && serial[i].payload == Want(cx, n))
  }

  lemma AskOneMore(cx: Codec, serial: seq<Sent>, from: nat, m: Pending, n: u32, q: Request, sent: Sent)
    requires AsksOnceEach(cx, serial, from, m) && n !in m && sent.payload == Want(cx, n)
    ensures AsksOnceEach(cx, serial + [sent], from, m[n := q])
  {
    var longer := serial + [sent];
    forall k | k in m[n := q]
      ensures exists i :: from <= i < |longer| && longer[i].payload == Want(cx, k)
    {
      if k == n {
        assert longer[|serial|].payload == Want(cx, k);
      } else {
        var i :| from <= i < |serial| && serial[i].payload == Want(cx, k);
        assert longer[i].payload == Want(cx, k);
      }
    }
  }

  lemma {:induction false} ReissueWrites(cx: Codec, s: State, m: Pending, rs: seq<Reissue>)
    requires Draws(rs, m) && s.pending == map[] && !s.down && AllWork(cx, rs)
    ensures var t := ReissueAll(cx, s, m, rs);
            && !t.halted && !t.state.down && s.serial <= t.state.serial
            && AsksOnceEach(cx, t.state.serial, |s.serial|, t.state.pending)
  {
    hide ClosedOwner, Want, AsksOnceEach;
    if rs == [] {
      NothingAsked(cx, s.serial);
    } else {
      var front, r := rs[..|rs| - 1], rs[|rs| - 1];
      ReissueWrites(cx, s, m, front);
      NonceIsNew(cx, s, m, rs);
      var t := ReissueAll(cx, s, m, front).state;
      var table := t.pending[r.nonce := m[r.key]];
      AskOneMore(cx, t.serial, |s.serial|, t.pending, r.nonce, m[r.key], Sent(Want(cx, r.nonce), table));
    }
  }

  lemma NothingAsked(cx: Codec, serial: seq<Sent>)
    ensures AsksOnceEach(cx, serial, |serial|, map[])
  {
  }

  /** Handling Rebooted conserves work when the link is up: the cache is empty, every
      request waits exactly as before except those of closed connections, and the radio
      is asked once for each, whatever the iteration order and the nonces. */
  lemma RebootConserves(cx: Codec, s: State, rs: seq<Reissue>)
    requires TableOK(s) && Reissues(cx, s, rs) && !s.down && AllWork(cx, rs)
    ensures var t := Reboot(cx, s, rs);
            && t.cache == EMPTY && TableOK(t) && !t.down
            && (forall r :: Waiting(t.pending, r) == if ClosedOwner(s, r) then 0 else Waiting(s.pending, r))
            && s.serial <= t.serial
            && AsksOnceEach(cx, t.serial, |s.serial|, t.pending)
            && t.peers == s.peers && t.clients == s.clients && t.primary == s.primary && t.outbound == s.outbound
  {
    hide Waiting, AsksOnceEach, TableOK, ClosedOwner;
    RebootTable(cx, s, rs);
    var s0 := s.(cache := EMPTY, pending := map[]);
    ReissueFrame(cx, s0, s.pending, rs);
    ReissueWrites(cx, s0, s.pending, rs);
  }

  // ----- the steps

  /** Dropping entries keeps the table in order. */
  lemma TableShrinks(s: State, t: State)
    requires TableOK(s)
    requires forall n :: n in t.pending ==> n in s.pending && t.pending[n] == s.pending[n]
    requires forall c :: c in s.peers ==> c in t.peers && t.peers[c].reading == s.peers[c].reading
    ensures TableOK(t)
  {
  }

  lemma TableDelivered(s: State, t: State, targets: set<ClientId>, p: Payload, o: Origin)
    requires TableOK(s) && Delivered(s, t, targets, p, o)
    ensures TableOK(t)
  {
    hide TableOK, Gone;
    TableShrinks(s, t);
  }

  /** A request enters under a new nonce, its owner having no other. */
  lemma TableEnters(m: Pending, t: State, nonce: u32, r: Request)
    requires FreshNonce(m, nonce) && t.pending == m[nonce := r] && TableOK(t.(pending := m))
    requires forall n :: n in m ==> m[n].owner != r.owner
    requires r.owner.Some? ==> r.owner.value in t.peers && t.peers[r.owner.value].reading
    ensures TableOK(t)
  {
  }

  lemma TableAsk(cx: Codec, s: State, c: ClientId, x: u32, nonce: u32, ok: bool)
    requires TableOK(s) && c in s.peers && s.peers[c].reading && FreshNonce(DropOwner(s.pending, c), nonce)
    ensures TableOK(AskRadio(cx, s, c, x, nonce, ok))
  {
    hide TableOK, FreshNonce, Originals, Want, CanWrite;
    var t := AskRadio(cx, s, c, x, nonce, ok);
    TableShrinks(s, t.(pending := DropOwner(s.pending, c)));
    TableEnters(DropOwner(s.pending, c), t, nonce, Request(Some(c), x));
  }

  lemma TableBootstrap(cx: Codec, s: State, nonce: u32, ok: bool)
    requires TableOK(s) && FreshNonce(s.pending, nonce)
    ensures TableOK(BootstrapConfig(cx, s, nonce, ok))
  {
  }
}
