/** What reaches the radio, for whom, and the frames that must reach nobody. */
module Wire {
  import opened Protocol
  import opened ConfigCaches
  import opened Model

  /** Never a Disconnect, and a WantConfigId only under a nonce pending when written. */
  predicate Sendable(cx: Codec, p: Payload, table: Pending) {
    match cx.parseTo(p)
    case Some(Disconnect) => false
    case Some(WantConfig(n)) => n in table
    case _ => true
  }

  predicate IsAsk(cx: Codec, p: Payload, n: u32) {
    cx.parseTo(p) == Some(WantConfig(n))
  }

  /** The request for which the radio was last asked under the nonce n. */
  function LastAsk(cx: Codec, serial: seq<Sent>, n: u32): Option<Request> {
    if serial == [] then None
    else
      var w := serial[|serial| - 1];
      if IsAsk(cx, w.payload, n) then (if n in w.table then Some(w.table[n]) else None)
      else LastAsk(cx, serial[..|serial| - 1], n)
  }

  /** While the link is up, each entry of the table is the request that the radio was last
      asked for under its nonce. */
  ghost predicate AskedFor(cx: Codec, s: State) {
    !s.down ==> forall n :: n in s.pending ==> LastAsk(cx, s.serial, n) == Some(s.pending[n])
  }

  ghost predicate WireOK(cx: Codec, s: State) {
    && (forall i :: 0 <= i < |s.serial| ==> Sendable(cx, s.serial[i].payload, s.serial[i].table))
    && AskedFor(cx, s)
  }

  lemma LastAskGrows(cx: Codec, serial: seq<Sent>, w: Sent)
    ensures forall n :: LastAsk(cx, serial + [w], n) ==
              if !IsAsk(cx, w.payload, n) then LastAsk(cx, serial, n)
              else if n in w.table then Some(w.table[n]) else None
  {
    assert (serial + [w])[..|serial|] == serial;
  }

  /** Nothing new on the wire, no new entry in the table. */
  lemma WireSame(cx: Codec, s: State, t: State)
    requires WireOK(cx, s) && t.serial == s.serial && (s.down ==> t.down)
    requires forall n :: n in t.pending ==> n in s.pending && t.pending[n] == s.pending[n]
    ensures WireOK(cx, t)
  {
  }

  /** Neither a WantConfigId nor a Disconnect. */
  predicate Forwardable(cx: Codec, p: Payload) {
    match cx.parseTo(p)
    case Some(Disconnect) => false
    case Some(WantConfig(_)) => false
    case _ => true
  }

  lemma ForwardableIsSendable(cx: Codec, p: Payload)
    requires Forwardable(cx, p)
    ensures (forall m: Pending :: Sendable(cx, p, m)) && (forall n :: !IsAsk(cx, p, n))
  {
  }

  lemma WirePut(cx: Codec, s: State, p: Payload, ok: bool)
    requires WireOK(cx, s) && Forwardable(cx, p)
    ensures WireOK(cx, PutOrFail(s, p, ok)) && WireOK(cx, Put(s, p))
  {
    hide Sendable, IsAsk, LastAsk, Forwardable;
    ForwardableIsSendable(cx, p);
    LastAskGrows(cx, s.serial, Sent(p, s.pending));
  }

  lemma WantParses(cx: Codec, nonce: u32)
    requires cx.Lawful()
    ensures forall n :: IsAsk(cx, Want(cx, nonce), n) <==> n == nonce
    ensures forall m: Pending :: nonce in m ==> Sendable(cx, Want(cx, nonce), m)
  {
  }

  /** A request enters the table and is written, or the link goes down. */
  lemma WireWant(cx: Codec, s: State, nonce: u32, r: Request, ok: bool)
    requires cx.Lawful() && WireOK(cx, s)
    ensures WireOK(cx, PutOrFail(s.(pending := s.pending[nonce := r]), Want(cx, nonce), ok))
  {
    hide Sendable, IsAsk, LastAsk, Want;
    WantParses(cx, nonce);
    LastAskGrows(cx, s.serial, Sent(Want(cx, nonce), s.pending[nonce := r]));
  }

  lemma WireAsk(cx: Codec, s: State, c: ClientId, x: u32, nonce: u32, ok: bool)
    requires cx.Lawful() && WireOK(cx, s) && c in s.peers
    ensures WireOK(cx, AskRadio(cx, s, c, x, nonce, ok))
  {
    hide WireOK, PutOrFail, Originals;
    var pr := s.peers[c].Asked(x);
    var pr' := pr.(hist := pr.hist.(retried := pr.hist.retried + Originals(s.pending, c)));
    var t := s.With(c, pr').(pending := DropOwner(s.pending, c));
    WireSame(cx, s, t);
    WireWant(cx, t, nonce, Request(Some(c), x), ok);
  }

  lemma WireBootstrap(cx: Codec, s: State, nonce: u32, ok: bool)
    requires cx.Lawful() && WireOK(cx, s)
    ensures WireOK(cx, BootstrapConfig(cx, s, nonce, ok))
  {
    hide WireOK, PutOrFail;
    WireWant(cx, s, nonce, Request(None, BOOTSTRAP_ID), ok);
  }

  lemma {:induction false} WireReissue(cx: Codec, s: State, m: Pending, rs: seq<Reissue>)
    requires cx.Lawful() && WireOK(cx, s)
    requires forall i :: 0 <= i < |rs| ==> rs[i].key in m
    ensures WireOK(cx, ReissueAll(cx, s, m, rs).state)
  {
    hide WireOK, PutOrFail, ClosedOwner;
    if rs != [] {
      var front, r := rs[..|rs| - 1], rs[|rs| - 1];
      WireReissue(cx, s, m, front);
      WireWant(cx, ReissueAll(cx, s, m, front).state, r.nonce, m[r.key], r.ok);
    }
  }

  lemma WireReboot(cx: Codec, s: State, rs: seq<Reissue>)
    requires cx.Lawful() && WireOK(cx, s)
    requires forall i :: 0 <= i < |rs| ==> rs[i].key in s.pending
    ensures WireOK(cx, Reboot(cx, s, rs))
  {
    hide WireOK, ReissueAll;
    var s0 := s.(cache := EMPTY, pending := map[]);
    WireSame(cx, s, s0);
    WireReissue(cx, s0, s.pending, rs);
    WireSame(cx, RebootRun(cx, s, rs).state, Reboot(cx, s, rs));
  }
}
