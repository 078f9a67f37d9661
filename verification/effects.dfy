/** What each event does, told from the state and the event alone, without the handlers:
    what goes to the radio, what each client is given, who leaves, whether the link breaks.
    Numbers are written out. The theorems say that every step does this and nothing else. */
module Effects {
  import opened Protocol
  import opened ConfigCaches
  import opened Counting
  import opened Model
  import opened Membership
  import opened Echoes
  import opened CannedRuns
  import Frame

  // ----- the account

  /** The write of p works. */
  predicate Works(s: State, p: Payload, ok: bool) {
    !s.down && ok && |p| <= 65535
  }

  /** The connected client that sent the packet in the last thirty seconds. */
  function Sender(s: State, p: MeshPacket): Option<ClientId> {
    if p.id != 0 && p.id in s.outbound && s.now <= s.outbound[p.id].until && s.outbound[p.id].client in s.clients
    then Some(s.outbound[p.id].client) else None
  }

  /** The radio's own number, as its last MyInfo says it; zero if none came. */
  function NodeNumber(cx: Codec, cache: Cache): u32 {
    match cache.Lookup(MyInfoKey)
    case None => 0
    case Some(p) =>
      match cx.parseFrom(p)
      case Some(MyInfo(n)) => n
      case _ => 0
  }

  predicate HasInfo(cache: Cache) {
    cache.Lookup(MyInfoKey) != None
  }

  /** What a client's frame asks to be written to the radio, if the client may. */
  function Passed(cx: Codec, s: State, c: ClientId, payload: Payload): Option<Payload> {
    match cx.parseTo(payload)
    case None => if s.primary == Some(c) then Some(payload) else None
    case Some(WantConfig(_)) => None
    case Some(Disconnect) => None
    case Some(m) => if s.primary == Some(c) || !s.readOnly then Some(cx.marshalTo(m)) else None
  }

  /** What the event puts on the wire, other than a WantConfigId. */
  function Outgoing(cx: Codec, s: State, e: Event): Option<Payload> {
    match e
    case ClientFrame(c, payload, _, ok, _, _) =>
      var m := Passed(cx, s, c, payload);
      if m.Some? && Works(s, m.value, ok) then m else None
    case Texting(packet, ok, _) =>
      var m := cx.marshalTo(SendPacket(packet));
      if NodeNumber(cx, s.cache) != 0 && Works(s, m, ok) then Some(m) else None
    case Fetching(_, packet, ok) =>
      var m := cx.marshalTo(SendPacket(packet));
      if LastList(s.taken, s.now) == [] && NodeNumber(cx, s.cache) != 0 && Works(s, m, ok) then Some(m) else None
    case _ => None
  }

  /** What a radio frame gives to the connected client c. */
  function FromTheRadio(cx: Codec, s: State, payload: Payload, c: ClientId): Option<Entry> {
    match cx.parseFrom(payload)
    case None => None
    case Some(Rebooted(_)) => None
    case Some(ConfigComplete(n)) =>
      if n in s.pending && s.pending[n].owner == Some(c)
      then Some(Entry(cx.marshalComplete(s.pending[n].original), Answer)) else None
    case Some(Packet(p)) =>
      if Awaited(cx, s, p) then None
      else if Sender(s, p) == None then Some(Entry(payload, Live))
      else if Sender(s, p) == Some(c) && !OnChatPort(p) then Some(Entry(payload, Reply))
      else None
    case Some(_) => Some(Entry(payload, Live))
  }

  /** What the event gives to the connected client c. */
  function Given(cx: Codec, s: State, e: Event, c: ClientId): Option<Entry> {
    match e
    case ClientFrame(d, payload, _, _, _, _) =>
      var m := cx.parseTo(payload);
      if m.Some? && m.value.SendPacket? && Outgoing(cx, s, e).Some? && c != d
      then Some(Entry(cx.marshalPacket(m.value.packet), Synthetic)) else None
    case Texting(packet, _, _) =>
      if Outgoing(cx, s, e).Some? then Some(Entry(cx.marshalPacket(packet), Synthetic)) else None
    case RadioFrame(payload, _, _, _) => FromTheRadio(cx, s, payload, c)
    case Replaying(d, _, _) =>
      if d == c && c in s.peers && s.peers[c].replay.Some? && s.peers[c].replay.value.rest != []
         && s.peers[c].hist.replays != []
      then Some(Entry(s.peers[c].replay.value.rest[0], Cached(|s.peers[c].hist.replays| - 1))) else None
    case _ => None
  }

  /** The client does not take what it is given: its queue is full, or stays full too long. */
  predicate Refused(cx: Codec, s: State, e: Event, c: ClientId)
    requires c in s.peers
  {
    Given(cx, s, e, c).Some? && if e.Replaying? then !e.ok else |s.peers[c].queue| >= 64
  }

  /** The client goes, whatever it is given. */
  predicate Goes(cx: Codec, s: State, e: Event, c: ClientId)
    requires c in s.peers
  {
    match e
    case ClientFrame(d, payload, _, _, _, _) => d == c && cx.parseTo(payload) == Some(Disconnect)
    case Writing(d, ok, _, _) => d == c && !(ok && s.peers[c].queue != [] && |s.peers[c].queue[0]| <= 65535)
    case ReadFailed(d, _) => d == c
    case WriterStopped(d, byBroker, _) => d == c && byBroker
    case Closing(_) => true
    case _ => false
  }

  /** The request is the broker's own, or that of a connected client. */
  predicate Wanted(s: State, req: Request) {
    req.owner == None || req.owner.value in s.clients
  }

  /** A write of the event fails that takes the link down. */
  ghost predicate Breaks(cx: Codec, s: State, e: Event)
    requires e.RadioFrame? ==> forall i :: 0 <= i < |e.rs| ==> e.rs[i].key in s.pending
  {
    match e
    case Failing => true
    case ClientFrame(c, payload, nonce, ok, _, _) =>
      || (Passed(cx, s, c, payload).Some? && !Works(s, Passed(cx, s, c, payload).value, ok))
      || (cx.parseTo(payload).Some? && cx.parseTo(payload).value.WantConfig? && !HasInfo(s.cache)
          && !Works(s, cx.marshalTo(WantConfig(nonce)), ok))
    case Bootstrapping(nonce, ok) =>
      !HasInfo(s.cache) && (forall n :: n in s.pending ==> s.pending[n].owner != None)
      && !Works(s, cx.marshalTo(WantConfig(nonce)), ok)
    case RadioFrame(payload, rs, _, _) =>
      Announces(cx, payload) &&
      exists i :: 0 <= i < |rs| && Wanted(s, s.pending[rs[i].key])
                  && !Works(s, cx.marshalTo(WantConfig(rs[i].nonce)), rs[i].ok)
    case _ => false
  }

  /** The events that may write WantConfigIds, and those that are not the radio's business. */
  predicate Asks(cx: Codec, e: Event) {
    || e.Bootstrapping?
    || (e.ClientFrame? && cx.parseTo(e.payload).Some? && cx.parseTo(e.payload).value.WantConfig?)
    || (e.RadioFrame? && Announces(cx, e.payload))
  }

  // ----- the theorems' shape

  /** One client before and after: what it is given, whether it refuses it, whether it goes
      anyway, and whether its writer takes the head of the queue. */
  ghost predicate Handed(pr: Peer, qr: Peer, g: Option<Entry>, refused: bool, goes: bool, drained: bool) {
    var taken := if g.Some? && !refused then [g.value] else [];
    && qr.hist.addressed == pr.hist.addressed + (if g.Some? then [g.value.payload] else [])
    && qr.hist.log == pr.hist.log + taken
    && (qr.closed <==> goes || refused)
    && (!qr.closed ==>
          if drained
          then pr.queue != [] && qr.queue == pr.queue[1..] && qr.conn == pr.conn + Frame.FrameBytes(pr.queue[0])
          else qr.queue == pr.queue + Bodies(taken) && qr.conn == pr.conn)
  }

  function Bodies(log: seq<Entry>): seq<Payload> {
    if log == [] then [] else [log[0].payload] + Bodies(log[1..])
  }

  ghost predicate ClientSide(cx: Codec, s: State, e: Event, t: State) {
    && s.clients <= s.peers.Keys
    && t.peers.Keys == s.peers.Keys + (if e.Connecting? then {e.c} else {})
    && (e.Connecting? ==> e.c !in s.peers && t.peers[e.c] == NewPeer(|s.radio|))
    && (forall c :: c in s.clients ==>
          Handed(s.peers[c], t.peers[c], Given(cx, s, e, c), Refused(cx, s, e, c), Goes(cx, s, e, c),
                 e.Writing? && e.c == c))
    && (forall c :: c in t.clients <==>
          (c in s.clients && !Goes(cx, s, e, c) && !Refused(cx, s, e, c)) || e == Connecting(c))
    && (s.primary.Some? && s.primary.value in t.clients ==> t.primary == s.primary)
    && (s.primary == None && e.Connecting? ==> t.primary == Some(e.c))
  }

  ghost predicate LinkSide(cx: Codec, s: State, e: Event, t: State) {
    && (e.RadioFrame? ==> forall i :: 0 <= i < |e.rs| ==> e.rs[i].key in s.pending)
    && (!Asks(cx, e) ==>
          t.serial == s.serial + if Outgoing(cx, s, e) == None then [] else [Sent(Outgoing(cx, s, e).value, s.pending)])
    && (Asks(cx, e) ==>
          && Outgoing(cx, s, e) == None && s.serial <= t.serial
          && forall i :: |s.serial| <= i < |t.serial| ==> IsWant(cx, t.serial[i].payload))
    && (t.down <==> s.down || Breaks(cx, s, e))
    && t.now == s.now + (if e.Ticking? then e.elapsed else 0)
    && t.readOnly == s.readOnly
    && (AboutCalls(cx, s, e) || SameCalls(s, t))
  }

  /** The event is about a call that asks for the canned messages. */
  predicate AboutCalls(cx: Codec, s: State, e: Event) {
    e.Fetching? || e.Fetched? || (e.RadioFrame? && Replies(cx, s, e.payload))
  }

  predicate Replies(cx: Codec, s: State, payload: Payload) {
    var m := cx.parseFrom(payload);
    m.Some? && m.value.Packet? && Awaited(cx, s, m.value.packet)
  }

  /** The calls, the list held for them, and what is on record of them. */
  predicate SameCalls(s: State, t: State) {
    t.canned == s.canned && t.taken == s.taken && t.served == s.served
  }

  predicate IsWant(cx: Codec, p: Payload) {
    var m := cx.parseTo(p);
    m.Some? && m.value.WantConfig?
  }

  // ----- steps that offer one payload to some clients

  /** The step offers p to the connected clients among the targets, and nothing to the others. */
  ghost predicate Plan(cx: Codec, s: State, e: Event, targets: set<ClientId>, p: Payload, o: Origin) {
    && (forall c :: c in s.clients ==> Given(cx, s, e, c) == if c in targets then Some(Entry(p, o)) else None)
    && (forall c :: c in s.clients && c in s.peers ==> !Goes(cx, s, e, c))
    && !e.Replaying? && !e.Connecting? && !e.Writing?
  }

  lemma OfferedHand(pr: Peer, p: Payload, o: Origin)
    requires !pr.closed
    ensures Handed(pr, pr.Offered(p, o), Some(Entry(p, o)), |pr.queue| >= 64, false, false)
    ensures Handed(pr, pr, None, false, false, false)
  {
    assert pr.queue + [] == pr.queue;
    assert Bodies([Entry(p, o)]) == [p];
  }

  lemma PlanOfClient(cx: Codec, s: State, e: Event, targets: set<ClientId>, p: Payload, o: Origin, c: ClientId)
    requires Plan(cx, s, e, targets, p, o) && c in s.clients && c in s.peers
    ensures Given(cx, s, e, c) == if c in targets then Some(Entry(p, o)) else None
    ensures !Goes(cx, s, e, c) && (Refused(cx, s, e, c) <==> c in targets && |s.peers[c].queue| >= 64)
  {
    hide Given, Goes;
  }

  /** s1 is s with the clients' side untouched. */
  lemma DeliveredSide(cx: Codec, s: State, e: Event, s1: State, t: State, targets: set<ClientId>, p: Payload, o: Origin)
    requires Members(s) && s1.clients == s.clients && s1.peers == s.peers && s1.primary == s.primary
    requires Delivered(s1, t, targets, p, o) && Plan(cx, s, e, targets, p, o)
    ensures ClientSide(cx, s, e, t)
  {
    hide Given, Goes, Handed, Refused, Conserves, DropOwners, Peer.Offered;
    forall c | c in s.clients
      ensures Given(cx, s, e, c) == if c in targets then Some(Entry(p, o)) else None
      ensures !Goes(cx, s, e, c) && (Refused(cx, s, e, c) <==> c in targets && |s.peers[c].queue| >= 64)
      ensures Handed(s.peers[c], t.peers[c], Given(cx, s, e, c), Refused(cx, s, e, c), false, false)
    {
      PlanOfClient(cx, s, e, targets, p, o, c);
      OfferedHand(s.peers[c], p, o);
    }
  }

  /** What a client can see is the same. */
  predicate SameLine(pr: Peer, qr: Peer) {
    && qr.queue == pr.queue && qr.conn == pr.conn && qr.closed == pr.closed
    && qr.hist.log == pr.hist.log && qr.hist.addressed == pr.hist.addressed
  }

  lemma SameHand(pr: Peer, qr: Peer, goes: bool)
    requires !pr.closed && qr.queue == pr.queue && qr.conn == pr.conn && (qr.closed ==> goes)
    requires qr.hist.log == pr.hist.log && qr.hist.addressed == pr.hist.addressed
    ensures Handed(pr, qr, None, false, goes && qr.closed, false)
  {
    assert pr.queue + [] == pr.queue;
  }

  /** Nobody is given anything; some may go. */
  lemma QuietSide(cx: Codec, s: State, e: Event, t: State, gone: set<ClientId>)
    requires Members(s) && !e.Replaying? && !e.Connecting? && !e.Writing?
    requires forall c :: c in s.clients && c in s.peers ==>
               Given(cx, s, e, c) == None && (Goes(cx, s, e, c) <==> c in gone)
    requires t.clients == s.clients - gone && t.peers.Keys == s.peers.Keys
    requires s.primary.Some? && s.primary.value in t.clients ==> t.primary == s.primary
    requires forall c :: c in s.clients ==> SameLine(if c in gone then s.peers[c].Close() else s.peers[c], t.peers[c])
    ensures ClientSide(cx, s, e, t)
  {
    hide Given, Goes, Handed;
    forall c | c in s.clients
      ensures Handed(s.peers[c], t.peers[c], None, false, c in gone, false)
    {
      SameHand(s.peers[c], t.peers[c], c in gone);
    }
  }
}
