/** What a reboot leaves, entry by entry, whether or not its writes work. */
module Reboots {
  import opened Protocol
  import opened ConfigCaches
  import opened Model
  import opened Membership
  import opened Effects
  import opened Account

  /** The loop gets as far as its i-th entry, which is the broker's or a connected client's. */
  ghost predicate Renewed(cx: Codec, s: State, m: Pending, rs: seq<Reissue>, i: nat)
    requires i < |rs| && forall j :: 0 <= j < |rs| ==> rs[j].key in m
  {
    Wanted(s, m[rs[i].key]) && !Halts(cx, s, m, rs[..i])
  }

  /** And its WantConfigId is written. */
  ghost predicate Rewritten(cx: Codec, s: State, m: Pending, rs: seq<Reissue>, i: nat)
    requires i < |rs| && forall j :: 0 <= j < |rs| ==> rs[j].key in m
  {
    Renewed(cx, s, m, rs, i) && Works(s, cx.marshalTo(WantConfig(rs[i].nonce)), rs[i].ok)
  }

  /** The nonces asked under by the first n entries, in order. */
  ghost function Rewrites(cx: Codec, s: State, m: Pending, rs: seq<Reissue>, n: nat): seq<Payload>
    requires n <= |rs| && forall j :: 0 <= j < |rs| ==> rs[j].key in m
  {
    if n == 0 then []
    else
      Rewrites(cx, s, m, rs, n - 1) +
      if Rewritten(cx, s, m, rs, n - 1) then [cx.marshalTo(WantConfig(rs[n - 1].nonce))] else []
  }

  function OnTheWire(serial: seq<Sent>): (ps: seq<Payload>)
    ensures |ps| == |serial|
  {
    if serial == [] then [] else OnTheWire(serial[..|serial| - 1]) + [serial[|serial| - 1].payload]
  }

  lemma WireGrows(serial: seq<Sent>, w: Sent)
    ensures OnTheWire(serial + [w]) == OnTheWire(serial) + [w.payload]
  {
    assert (serial + [w])[..|serial|] == serial;
  }

  /** The table that the first n entries leave of an empty one. */
  ghost predicate LeftTable(cx: Codec, s: State, m: Pending, rs: seq<Reissue>, n: nat, table: Pending)
    requires n <= |rs| && forall j :: 0 <= j < |rs| ==> rs[j].key in m
  {
    && (forall i :: 0 <= i < n ==> (rs[i].nonce in table <==> Renewed(cx, s, m, rs, i)))
    && (forall i :: 0 <= i < n && Renewed(cx, s, m, rs, i) ==> table[rs[i].nonce] == m[rs[i].key])
    && (forall k :: k in table ==> exists i :: 0 <= i < n && rs[i].nonce == k && Renewed(cx, s, m, rs, i))
  }

  lemma TableGrows(cx: Codec, s: State, m: Pending, rs: seq<Reissue>, n: nat, table: Pending)
    requires Draws(rs, m) && n < |rs| && LeftTable(cx, s, m, rs, n, table)
    ensures LeftTable(cx, s, m, rs, n + 1,
              if Renewed(cx, s, m, rs, n) then table[rs[n].nonce := m[rs[n].key]] else table)
  {
    hide Renewed;
    var u := if Renewed(cx, s, m, rs, n) then table[rs[n].nonce := m[rs[n].key]] else table;
    forall k | k in u
      ensures exists i :: 0 <= i < n + 1 && rs[i].nonce == k && Renewed(cx, s, m, rs, i)
    {
      if k in table {
        var i :| 0 <= i < n && rs[i].nonce == k && Renewed(cx, s, m, rs, i);
      }
    }
  }

  lemma {:induction false} ReissueLeaves(cx: Codec, s: State, m: Pending, rs: seq<Reissue>, n: nat)
    requires cx.Lawful() && Members(s) && OwnersKnown(s, m) && Draws(rs, m) && s.pending == map[] && n <= |rs|
    ensures var t := ReissueAll(cx, s, m, rs[..n]).state;
            && LeftTable(cx, s, m, rs, n, t.pending)
            && OnTheWire(t.serial) == OnTheWire(s.serial) + Rewrites(cx, s, m, rs, n)
  {
    hide Members, Rewritten, Renewed, Wanted, Works, Halts, ClosedOwner, ReissueAll, OwnersKnown, OnTheWire, Draws;
    if n == 0 {
      NothingReissued(cx, s, m);
      assert rs[..0] == [];
    } else {
      ReissueLeaves(cx, s, m, rs, n - 1);
      OneMoreReissue(cx, s, m, rs, n - 1);
      NextTable(cx, s, m, rs, n - 1);
      NextWrite(cx, s, m, rs, n - 1);
    }
  }

  lemma NothingReissued(cx: Codec, s: State, m: Pending)
    ensures ReissueAll(cx, s, m, []) == Reissued(s, false)
  {
  }

  lemma NextTable(cx: Codec, s: State, m: Pending, rs: seq<Reissue>, n: nat)
    requires cx.Lawful() && Members(s) && OwnersKnown(s, m) && Draws(rs, m) && n < |rs|
    requires LeftTable(cx, s, m, rs, n, ReissueAll(cx, s, m, rs[..n]).state.pending)
    ensures LeftTable(cx, s, m, rs, n + 1, ReissueAll(cx, s, m, rs[..n + 1]).state.pending)
  {
    hide Members, Rewritten, Renewed, ReissueAll, OwnersKnown, LeftTable;
    OneMoreReissue(cx, s, m, rs, n);
    TableGrows(cx, s, m, rs, n, ReissueAll(cx, s, m, rs[..n]).state.pending);
  }

  lemma NextWrite(cx: Codec, s: State, m: Pending, rs: seq<Reissue>, n: nat)
    requires cx.Lawful() && Members(s) && OwnersKnown(s, m) && Draws(rs, m) && n < |rs|
    ensures OnTheWire(ReissueAll(cx, s, m, rs[..n + 1]).state.serial) ==
            OnTheWire(ReissueAll(cx, s, m, rs[..n]).state.serial)
            + if Rewritten(cx, s, m, rs, n) then [cx.marshalTo(WantConfig(rs[n].nonce))] else []
  {
    hide Members, Rewritten, Renewed, ReissueAll, OwnersKnown, OnTheWire;
    var t, u := ReissueAll(cx, s, m, rs[..n]).state, ReissueAll(cx, s, m, rs[..n + 1]).state;
    OneMoreReissue(cx, s, m, rs, n);
    if Rewritten(cx, s, m, rs, n) {
      WireGrows(t.serial, u.serial[|t.serial|]);
    } else {
      assert u.serial == t.serial;
    }
  }

  lemma OneMoreReissue(cx: Codec, s: State, m: Pending, rs: seq<Reissue>, n: nat)
    requires cx.Lawful() && Members(s) && OwnersKnown(s, m) && Draws(rs, m) && n < |rs|
    ensures var t, u := ReissueAll(cx, s, m, rs[..n]).state, ReissueAll(cx, s, m, rs[..n + 1]).state;
            var w := cx.marshalTo(WantConfig(rs[n].nonce));
            && u.pending == (if Renewed(cx, s, m, rs, n) then t.pending[rs[n].nonce := m[rs[n].key]] else t.pending)
            && u.serial == t.serial + if Rewritten(cx, s, m, rs, n) then [Sent(w, u.pending)] else []
  {
    hide Members, OwnersKnown, Halts, ClosedOwner, Wanted;
    var front := rs[..n];
    assert rs[..n + 1] == front + [rs[n]];
    assert (front + [rs[n]])[..n] == front;
    ReissueWants(cx, s, m, front);
    OwnerOf(s, m, rs[n].key);
    WantedOrClosed(s, m[rs[n].key]);
    SamePeersClosed(s, ReissueAll(cx, s, m, front).state, m[rs[n].key]);
    NotDown(cx, s, m, front, rs[n]);
  }

  lemma OwnerOf(s: State, m: Pending, n: u32)
    requires OwnersKnown(s, m) && n in m
    ensures m[n].owner.Some? ==> m[n].owner.value in s.peers
  {
  }

  /** Until it halts, the loop finds the link as it was. */
  lemma NotDown(cx: Codec, s: State, m: Pending, front: seq<Reissue>, r: Reissue)
    requires cx.Lawful() && Members(s) && OwnersKnown(s, m)
    requires forall i :: 0 <= i < |front| ==> front[i].key in m
    ensures !Halts(cx, s, m, front) ==> ReissueAll(cx, s, m, front).state.down == s.down
  {
    hide Members, OwnersKnown, Halts;
    ReissueWants(cx, s, m, front);
  }

  /** Only who is connected and whether the link is up matters. */
  lemma SameLeft(cx: Codec, s: State, t: State, m: Pending, rs: seq<Reissue>, n: nat, table: Pending)
    requires n <= |rs| && forall j :: 0 <= j < |rs| ==> rs[j].key in m
    requires t.clients == s.clients && t.down == s.down && LeftTable(cx, t, m, rs, n, table)
    ensures LeftTable(cx, s, m, rs, n, table) && Rewrites(cx, s, m, rs, n) == Rewrites(cx, t, m, rs, n)
  {
    hide Halts;
    forall i | 0 <= i < n
      ensures Renewed(cx, s, m, rs, i) == Renewed(cx, t, m, rs, i)
      ensures Rewritten(cx, s, m, rs, i) == Rewritten(cx, t, m, rs, i)
    {
      SameHalts(cx, s, t, m, rs[..i]);
    }
    SameRewrites(cx, s, t, m, rs, n);
  }

  lemma {:induction false} SameRewrites(cx: Codec, s: State, t: State, m: Pending, rs: seq<Reissue>, n: nat)
    requires n <= |rs| && forall j :: 0 <= j < |rs| ==> rs[j].key in m
    requires forall i :: 0 <= i < n ==> Rewritten(cx, s, m, rs, i) == Rewritten(cx, t, m, rs, i)
    ensures Rewrites(cx, s, m, rs, n) == Rewrites(cx, t, m, rs, n)
  {
    hide Rewritten;
    if n != 0 {
      SameRewrites(cx, s, t, m, rs, n - 1);
    }
  }
}
