/** How many entries of the table are a given request, and what dropping entries costs. */
module Counting {
  import opened Protocol
  import opened Model

  function Holders(m: Pending, r: Request): set<u32> {
    set n | n in m && m[n] == r
  }

  /** How many entries of the table are the request r. */
  function Waiting(m: Pending, r: Request): nat {
    |Holders(m, r)|
  }

  function DropOwners(m: Pending, gone: set<ClientId>): Pending {
    map n | n in m && !(m[n].owner.Some? && m[n].owner.value in gone) :: m[n]
  }

  lemma WaitingInsert(m: Pending, n: u32, q: Request)
    requires n !in m
    ensures forall r :: Waiting(m[n := q], r) == Waiting(m, r) + if q == r then 1 else 0
  {
    forall r
      ensures Waiting(m[n := q], r) == Waiting(m, r) + if q == r then 1 else 0
    {
      assert Holders(m[n := q], r) == if q == r then Holders(m, r) + {n} else Holders(m, r);
    }
  }

  lemma WaitingRemove(m: Pending, n: u32)
    requires n in m
    ensures forall r :: Waiting(m, r) == Waiting(m - {n}, r) + if m[n] == r then 1 else 0
  {
    WaitingInsert(m - {n}, n, m[n]);
    assert (m - {n})[n := m[n]] == m;
  }

  lemma WaitingDropOwners(m: Pending, gone: set<ClientId>)
    ensures forall r ::
              Waiting(DropOwners(m, gone), r) ==
              (if r.owner.Some? && r.owner.value in gone then 0 else Waiting(m, r))
  {
    forall r
      ensures Waiting(DropOwners(m, gone), r) == if r.owner.Some? && r.owner.value in gone then 0 else Waiting(m, r)
    {
      assert Holders(DropOwners(m, gone), r) == if r.owner.Some? && r.owner.value in gone then {} else Holders(m, r);
    }
  }

  lemma DropOwnerIsDropOwners(m: Pending, c: ClientId)
    ensures DropOwner(m, c) == DropOwners(m, {c})
  {
  }

  lemma {:induction false} OriginalsCount(m: Pending, c: ClientId)
    ensures forall x: u32 :: Originals(m, c)[x] == Waiting(m, Request(Some(c), x))
    decreases |m|
  {
    if exists n :: n in m && m[n].owner == Some(c) {
      var n :| n in m && m[n].owner == Some(c)
        && Originals(m, c) == multiset{m[n].original} + Originals(m - {n}, c);
      assert m.Keys == (m - {n}).Keys + {n};
      OriginalsCount(m - {n}, c);
      WaitingRemove(m, n);
    } else {
      forall x: u32
        ensures Waiting(m, Request(Some(c), x)) == 0
      {
        assert Holders(m, Request(Some(c), x)) == {};
      }
    }
  }

  lemma {:induction false} RequestsCount(m: Pending)
    ensures forall r :: RequestsOf(m)[r] == Waiting(m, r)
    decreases |m|
  {
    if exists n :: n in m {
      var n :| n in m && RequestsOf(m) == multiset{m[n]} + RequestsOf(m - {n});
      assert m.Keys == (m - {n}).Keys + {n};
      RequestsCount(m - {n});
      WaitingRemove(m, n);
    } else {
      forall r
        ensures Waiting(m, r) == 0
      {
        assert Holders(m, r) == {};
      }
    }
  }

  /** No request leaves the table without being given up, and none twice. */
  ghost predicate Conserves(s: State, t: State) {
    forall r :: t.abandoned[r] + Waiting(t.pending, r) == s.abandoned[r] + Waiting(s.pending, r)
  }

  lemma ConservesAgain(s: State, t: State, u: State)
    requires Conserves(s, t) && Conserves(t, u)
    ensures Conserves(s, u)
  {
    hide Waiting;
    forall r
      ensures u.abandoned[r] + Waiting(u.pending, r) == s.abandoned[r] + Waiting(s.pending, r)
    {
      assert t.abandoned[r] + Waiting(t.pending, r) == s.abandoned[r] + Waiting(s.pending, r);
    }
  }

  lemma OwnerCount(m: Pending, c: ClientId, r: Request)
    ensures Waiting(m, r) == Waiting(DropOwner(m, c), r) + RequestsOf(Owned(m, c))[r]
  {
    RequestsCount(Owned(m, c));
    assert Holders(m, r) == Holders(DropOwner(m, c), r) + Holders(Owned(m, c), r);
    assert Holders(DropOwner(m, c), r) !! Holders(Owned(m, c), r);
  }

  lemma RemoveConserves(s: State, c: ClientId, promo: ClientId)
    requires c in s.peers
    ensures Conserves(s, Remove(s, c, promo))
  {
    hide Waiting, DropOwner, Owned, Promote, RequestsOf;
    forall r
      ensures var t := Remove(s, c, promo);
              t.abandoned[r] + Waiting(t.pending, r) == s.abandoned[r] + Waiting(s.pending, r)
    {
      OwnerCount(s.pending, c, r);
    }
  }
}
