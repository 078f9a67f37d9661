/** The broker as a transition system. Every handler is one step, except that a cached
    config reply sends one frame a step. Map iteration order, nonces, write outcomes
    and the client promoted to primary are choices carried by the event. */
module Model {
  import opened Protocol
  import opened ConfigCaches
  import Frame
  import CannedMessages

  const SEND_BUFFER: nat := 64
  const ECHO_SUPPRESS: nat := 30_000_000_000
  const CANNED_TTL: nat := 120_000_000_000
  const BOOTSTRAP_ID: u32 := 1

  // ----- one connection

  /** Why a payload was put into a client's queue. */
  datatype Origin =
    | Live                // broadcast of a radio frame
    | Reply               // the radio's echo, to the client that sent the packet
    | Synthetic           // the broker's own copy of an outgoing packet
    | Cached(k: nat)      // frame of the client's k-th answer from the cache
    | Answer              // completion of a request that went to the radio

  datatype Entry = Entry(payload: Payload, origin: Origin)

  /** A cached config reply in progress: the frames not enqueued yet, completion last. */
  datatype Replay = Replay(original: u32, rest: seq<Payload>)

  /** A request that was answered from the cache, and the cache at that moment. */
  datatype Cause = Cause(original: u32, cache: Cache)

  /** What happened on a connection so far; the program keeps none of this. */
  datatype History = History(
    log: seq<Entry>,            // accepted by the queue
    addressed: seq<Payload>,    // offered to the queue, accepted or not
    written: seq<Payload>,      // written completely to the connection
    asked: multiset<u32>,       // WantConfigId ids received
    retried: multiset<u32>,     // of those, given up because the client asked again
    replays: seq<Cause>,
    joined: nat)                // radio frames handled before it connected

  datatype Peer = Peer(
    queue: seq<Payload>,
    closed: bool,
    reading: bool,
    writing: bool,
    replay: Option<Replay>,
    conn: seq<byte>,
    hist: History)
  {
    predicate Room() {
      |queue| < SEND_BUFFER
    }

    function Accept(p: Payload, o: Origin): Peer {
      this.(queue := queue + [p],
            hist := hist.(log := hist.log + [Entry(p, o)], addressed := hist.addressed + [p]))
    }

    function Refuse(p: Payload): Peer {
      this.(hist := hist.(addressed := hist.addressed + [p]))
    }

    function Close(): Peer {
      this.(closed := true)
    }

    /** What an attempt to send does to the connection: refusal closes it. */
    function Offered(p: Payload, o: Origin): Peer {
      if !closed && Room() then Accept(p, o) else Refuse(p).Close()
    }

    function Asked(x: u32): Peer {
      this.(hist := hist.(asked := hist.asked + multiset{x}))
    }

    function Begin(x: u32, cache: Cache, frames: seq<Payload>): Peer {
      this.(replay := Some(Replay(x, frames)), hist := hist.(replays := hist.replays + [Cause(x, cache)]))
    }

    /** One enqueueWithTimeout of a cached reply. */
    function Advance(ok: bool): Peer
      requires replay.Some? && replay.value.rest != [] && hist.replays != []
    {
      var Replay(x, rest) := replay.value;
      if ok then
        Accept(rest[0], Cached(|hist.replays| - 1)).(replay := if |rest| == 1 then None else Some(Replay(x, rest[1..])))
      else
        Refuse(rest[0]).(replay := None)
    }

    /** The writer takes the head of the queue; n bytes reach the connection if it fails. */
    function Drained(ok: bool, n: nat): Peer
      requires queue != []
    {
      var p := queue[0];
      var taken := this.(queue := queue[1..]);
      var whole := Frame.FrameBytes(p);
      if closed || |p| > Frame.MAX_SIZE then taken.(writing := false)
      else if ok then taken.(conn := conn + whole, hist := hist.(written := hist.written + [p]))
      else taken.(conn := conn + if n <= |whole| then whole[..n] else whole, writing := false)
    }

    /** The write of the head frame succeeds. */
    predicate Writes(ok: bool)
      requires queue != []
    {
      !closed && |queue[0]| <= Frame.MAX_SIZE && ok
    }
  }

  function NewPeer(joined: nat): Peer {
    Peer([], false, true, true, None, [], History([], [], [], multiset{}, multiset{}, [], joined))
  }

  // ----- the whole broker

  /** A WantConfigId sent to the radio; the owner None is the broker itself. */
  datatype Request = Request(owner: Option<ClientId>, original: u32)

  type Pending = map<u32, Request>

  datatype Echo = Echo(client: ClientId, until: int)

  /** A payload written to the serial link, with the requests pending at that moment. */
  datatype Sent = Sent(payload: Payload, table: Pending)

  /** A FetchCannedMessages call waiting for its reply; `box` is its channel. */
  datatype Fetch = Fetch(id: u32, box: Option<seq<string>>)

  datatype Canned = Canned(waiters: map<u32, nat>, fetches: map<nat, Fetch>, cache: seq<string>, cacheAt: int)

  /** A reply that a waiter took, and the call that waits. */
  datatype Taken = Taken(id: u32, raw: string, at: int, call: nat)

  /** A list handed to a caller: from the cache, with the time it was stored, or straight
      from the radio, with the call it is for and the id of that call's request. */
  datatype Source = FromCache(storedAt: int) | FromReply(call: nat, id: u32)

  datatype Served = Served(messages: seq<string>, source: Source, at: int)

  datatype State = State(
    clients: set<ClientId>,
    primary: Option<ClientId>,
    peers: map<ClientId, Peer>,     // every connection there ever was
    cache: Cache,
    pending: Pending,
    outbound: map<u32, Echo>,
    canned: Canned,
    now: int,
    down: bool,                     // b.done is closed
    readOnly: bool,
    radio: seq<Payload>,            // history: every radio frame that parsed
    serial: seq<Sent>,              // history: what was written to the radio
    taken: seq<Taken>,
    served: seq<Served>,
    calls: set<nat>,                // history: the FetchCannedMessages calls made
    abandoned: multiset<Request>)   // history: requests dropped unanswered, except for a newer one
  {
    function With(c: ClientId, pr: Peer): State {
      this.(peers := peers[c := pr])
    }
  }

  function Initial(readOnly: bool): State {
    State({}, None, map[], EMPTY, map[], map[], Canned(map[], map[], [], 0), 0, false, readOnly, [], [], [], [],
      {}, multiset{})
  }

  // ----- clients

  /** The promoted client: `promo` if it is still connected, else any other. */
  ghost function Promote(rest: set<ClientId>, promo: ClientId): (p: Option<ClientId>)
    ensures p == None <==> rest == {}
    ensures p.Some? ==> p.value in rest
  {
    if rest == {} then None
    else if promo in rest then Some(promo)
    else
      assert exists c :: c in rest by { if forall c :: c !in rest { NothingIn(rest); } }
      var c :| c in rest; Some(c)
  }

  function DropOwner(m: Pending, c: ClientId): Pending {
    map n | n in m && m[n].owner != Some(c) :: m[n]
  }

  function Owned(m: Pending, c: ClientId): Pending {
    map n | n in m && m[n].owner == Some(c) :: m[n]
  }

  /** The requests of a table. */
  ghost function RequestsOf(m: Pending): multiset<Request>
    decreases |m|
  {
    if n :| n in m then
      assert |m - {n}| < |m| by { assert m.Keys == (m - {n}).Keys + {n}; }
      multiset{m[n]} + RequestsOf(m - {n})
    else multiset{}
  }

  /** removeClient. */
  ghost function Remove(s: State, c: ClientId, promo: ClientId): State
    requires c in s.peers
  {
    var rest := s.clients - {c};
    s.(clients := rest,
       primary := if s.primary == Some(c) then Promote(rest, promo) else s.primary,
       pending := DropOwner(s.pending, c),
       peers := s.peers[c := s.peers[c].Close()],
       abandoned := s.abandoned + RequestsOf(Owned(s.pending, c)))
  }

  /** sendToClient. */
  ghost function Send(s: State, c: ClientId, p: Payload, o: Origin, promo: ClientId): State
    requires c in s.peers
  {
    var pr := s.peers[c];
    if !pr.closed && pr.Room() then s.With(c, pr.Accept(p, o))
    else if pr.closed then s.With(c, pr.Refuse(p))
    else Remove(s.With(c, pr.Refuse(p)), c, promo)
  }

  /** One turn of a loop over the clients, with the promotion it may cause. */
  datatype Slot = Slot(c: ClientId, promo: ClientId)

  predicate Known(slots: seq<Slot>, peers: map<ClientId, Peer>) {
    forall i :: 0 <= i < |slots| ==> slots[i].c in peers
  }

  /** slots visits each element of cs exactly once. */
  predicate Enumerates(slots: seq<Slot>, cs: set<ClientId>) {
    && (forall i :: 0 <= i < |slots| ==> slots[i].c in cs)
    && (forall i, j :: 0 <= i < j < |slots| ==> slots[i].c != slots[j].c)
    && (forall c :: c in cs ==> exists i :: 0 <= i < |slots| && slots[i].c == c)
  }

  /** broadcastExcept, over the clients in the order given. */
  ghost function Broadcast(s: State, p: Payload, o: Origin, slots: seq<Slot>, except: Option<ClientId>): (t: State)
    requires Known(slots, s.peers)
    ensures t.peers.Keys == s.peers.Keys
  {
    if slots == [] then s
    else
      var front, last := slots[..|slots| - 1], slots[|slots| - 1];
      var t := Broadcast(s, p, o, front, except);
      if Some(last.c) == except then t else Send(t, last.c, p, o, last.promo)
  }

  /** CloseAll. */
  ghost function RemoveAll(s: State, slots: seq<Slot>): (t: State)
    requires Known(slots, s.peers)
    ensures t.peers.Keys == s.peers.Keys
  {
    if slots == [] then s
    else
      var last := slots[|slots| - 1];
      Remove(RemoveAll(s, slots[..|slots| - 1]), last.c, last.promo)
  }

  // ----- the serial link

  predicate CanWrite(s: State, p: Payload, ok: bool) {
    !s.down && ok && |p| <= Frame.MAX_SIZE
  }

  function Put(s: State, p: Payload): State {
    s.(serial := s.serial + [Sent(p, s.pending)])
  }

  /** A serial write whose failure takes the broker down. */
  function PutOrFail(s: State, p: Payload, ok: bool): State {
    if CanWrite(s, p, ok) then Put(s, p) else s.(down := true)
  }

  function Want(cx: Codec, nonce: u32): Payload {
    cx.marshalTo(WantConfig(nonce))
  }

  // ----- the pending table

  /** The ids a client gives up when its entries are dropped. */
  ghost function Originals(m: Pending, c: ClientId): multiset<u32>
    decreases |m|
  {
    if n :| n in m && m[n].owner == Some(c) then
      assert |m - {n}| < |m| by { assert m.Keys == (m - {n}).Keys + {n}; }
      multiset{m[n].original} + Originals(m - {n}, c)
    else multiset{}
  }

  predicate FreshNonce(m: Pending, nonce: u32) {
    nonce != 0 && nonce !in m
  }

  /** A WantConfigId that finds no ready cache. */
  ghost function AskRadio(cx: Codec, s: State, c: ClientId, x: u32, nonce: u32, ok: bool): State
    requires c in s.peers
  {
    var pr := s.peers[c].Asked(x);
    var pr' := pr.(hist := pr.hist.(retried := pr.hist.retried + Originals(s.pending, c)));
    var table := DropOwner(s.pending, c)[nonce := Request(Some(c), x)];
    PutOrFail(s.With(c, pr').(pending := table), Want(cx, nonce), ok)
  }

  /** The frames of a cached reply. */
  ghost function Script(cx: Codec, cause: Cause): seq<Payload> {
    cause.cache.Snapshot().Frames() + [cx.marshalComplete(cause.original)]
  }

  /** A WantConfigId that the cache answers. */
  ghost function BeginReplay(cx: Codec, s: State, c: ClientId, x: u32): State
    requires c in s.peers
  {
    s.With(c, s.peers[c].Asked(x).Begin(x, s.cache, Script(cx, Cause(x, s.cache))))
  }

  /** One send of a cached reply; a refused one ends the reply and gives the request up. */
  function AdvanceReplay(s: State, c: ClientId, ok: bool): State
    requires c in s.peers && s.peers[c].replay.Some? && s.peers[c].replay.value.rest != []
    requires s.peers[c].hist.replays != []
  {
    var lost := if ok then multiset{} else multiset{Request(Some(c), s.peers[c].replay.value.original)};
    s.With(c, s.peers[c].Advance(ok)).(abandoned := s.abandoned + lost)
  }

  ghost function ReplayNext(s: State, c: ClientId, ok: bool, promo: ClientId): State
    requires c in s.peers && s.peers[c].replay.Some? && s.peers[c].replay.value.rest != [] &&
             s.peers[c].hist.replays != []
  {
    var t := AdvanceReplay(s, c, ok);
    if ok || s.peers[c].closed then t else Remove(t, c, promo)
  }

  /** The client's queue accepts a payload now. */
  predicate Accepts(s: State, c: ClientId) {
    c in s.peers && !s.peers[c].closed && s.peers[c].Room()
  }

  /** takeConfigRequest, and the books of an answer that its client will refuse. */
  function TakeRequest(s: State, id: u32): State
    requires id in s.pending
  {
    var req := s.pending[id];
    var lost := if req.owner == None || Accepts(s, req.owner.value) then multiset{} else multiset{req};
    s.(pending := s.pending - {id}, abandoned := s.abandoned + lost)
  }

  /** handleConfigComplete. */
  ghost function Complete(cx: Codec, s: State, id: u32, promo: ClientId): State {
    if id !in s.pending then s
    else
      var req := s.pending[id];
      var t := TakeRequest(s, id);
      if req.owner == None || req.owner.value !in s.peers then t
      else Send(t, req.owner.value, cx.marshalComplete(req.original), Answer, promo)
  }

  /** One entry of the old table, the nonce drawn for it and whether the write works. */
  datatype Reissue = Reissue(key: u32, nonce: u32, ok: bool)

  /** `halted` is the early return of handleRebooted after a failed write. */
  datatype Reissued = Reissued(state: State, halted: bool)

  predicate ClosedOwner(s: State, req: Request) {
    req.owner.Some? && req.owner.value in s.peers && s.peers[req.owner.value].closed
  }

  function ReissueAll(cx: Codec, s: State, m: Pending, rs: seq<Reissue>): Reissued
    requires forall i :: 0 <= i < |rs| ==> rs[i].key in m
  {
    if rs == [] then Reissued(s, false)
    else
      var r := rs[|rs| - 1];
      var front := ReissueAll(cx, s, m, rs[..|rs| - 1]);
      if front.halted || ClosedOwner(s, m[r.key]) then front
      else
        var t := front.state.(pending := front.state.pending[r.nonce := m[r.key]]);
        Reissued(PutOrFail(t, Want(cx, r.nonce), r.ok), !CanWrite(t, Want(cx, r.nonce), r.ok))
  }

  /** Entries of the old table, no two the same, and nonces that are new when drawn. */
  predicate Draws(rs: seq<Reissue>, m: Pending) {
    && (forall i :: 0 <= i < |rs| ==> rs[i].key in m && rs[i].nonce != 0)
    && (forall i, j :: 0 <= i < j < |rs| ==> rs[i].key != rs[j].key && rs[i].nonce != rs[j].nonce)
  }

  /** Every entry whose client is still open is visited. */
  predicate Covers(s: State, rs: seq<Reissue>, m: Pending) {
    forall n :: n in m && !ClosedOwner(s, m[n]) ==> exists i :: 0 <= i < |rs| && rs[i].key == n
  }

  function RebootRun(cx: Codec, s: State, rs: seq<Reissue>): Reissued
    requires forall i :: 0 <= i < |rs| ==> rs[i].key in s.pending
  {
    ReissueAll(cx, s.(cache := EMPTY, pending := map[]), s.pending, rs)
  }

  /** rs is the loop of handleRebooted over the old table, cut short if a write failed. */
  predicate Reissues(cx: Codec, s: State, rs: seq<Reissue>) {
    Draws(rs, s.pending) && (Covers(s, rs, s.pending) || RebootRun(cx, s, rs).halted)
  }

  /** handleRebooted. Requests that are not issued again are given up. */
  ghost function Reboot(cx: Codec, s: State, rs: seq<Reissue>): State
    requires forall i :: 0 <= i < |rs| ==> rs[i].key in s.pending
  {
    GiveUp(RebootRun(cx, s, rs).state, s.pending)
  }

  /** The requests of the old table that the new one does not have are given up. */
  ghost function GiveUp(s: State, before: Pending): State {
    s.(abandoned := s.abandoned + (RequestsOf(before) - RequestsOf(s.pending)))
  }

  /** bootstrapConfig. */
  function BootstrapConfig(cx: Codec, s: State, nonce: u32, ok: bool): State {
    if s.cache.Ready() || exists n :: n in s.pending && s.pending[n].owner == None then s
    else PutOrFail(s.(pending := s.pending[nonce := Request(None, BOOTSTRAP_ID)]), Want(cx, nonce), ok)
  }

  // ----- outgoing packets and their echoes

  function Unexpired(s: State): map<u32, Echo> {
    map id | id in s.outbound && s.now <= s.outbound[id].until :: s.outbound[id]
  }

  /** noteOutboundPacket. */
  function Note(s: State, c: ClientId, p: MeshPacket): State {
    if p.id == 0 then s
    else s.(outbound := Unexpired(s)[p.id := Echo(c, s.now + ECHO_SUPPRESS)])
  }

  /** consumeOutboundOrigin: the client the echo belongs to, if there is one. */
  function OriginOf(s: State, p: MeshPacket): Option<ClientId> {
    if p.id == 0 || p.id !in s.outbound then None
    else
      var e := s.outbound[p.id];
      if s.now > e.until || (e.client in s.peers && s.peers[e.client].closed) then None else Some(e.client)
  }

  function Consume(s: State, p: MeshPacket): State {
    if p.id == 0 then s else s.(outbound := s.outbound - {p.id})
  }

  // ----- canned messages

  /** A reply that a registered waiter takes. */
  predicate WaitedFor(cx: Codec, s: State, p: MeshPacket) {
    cx.CannedReply(p).Some? && p.id in s.canned.waiters
  }

  /** The send on a waiter's channel. A full channel keeps what it has. */
  function Posted(s: State, f: nat, msgs: seq<string>): State {
    if f in s.canned.fetches && s.canned.fetches[f].box == None
    then s.(canned := s.canned.(fetches := s.canned.fetches[f := s.canned.fetches[f].(box := Some(msgs))]))
    else s
  }

  /** tryDeliverCanned, when there is a waiter. */
  function TakeCanned(cx: Codec, s: State, p: MeshPacket): State
    requires WaitedFor(cx, s, p)
  {
    var raw := cx.CannedReply(p).value;
    var msgs := CannedMessages.Parse(raw);
    var t := Posted(s, s.canned.waiters[p.id], msgs);
    t.(canned := t.canned.(cache := msgs, cacheAt := s.now),
       taken := s.taken + [Taken(p.id, raw, s.now, s.canned.waiters[p.id])])
  }

  /** cachedCanned, which also drops a list that is too old. */
  function FreshCanned(cn: Canned, now: int): seq<string> {
    if now - cn.cacheAt > CANNED_TTL then [] else cn.cache
  }

  function LocalNode(cx: Codec, s: State): u32 {
    match cx.parseFrom(s.cache.myInfo)
    case Some(MyInfo(num)) => if s.cache.myInfo == [] then 0 else num
    case _ => 0
  }

  function Serve(s: State, msgs: seq<string>, source: Source): State {
    s.(served := s.served + [Served(msgs, source, s.now)])
  }

  function Register(s: State, f: nat, id: u32): State {
    s.(canned := s.canned.(waiters := s.canned.waiters[id := f], fetches := s.canned.fetches[f := Fetch(id, None)]))
  }

  /** FetchCannedMessages up to the point where it waits; f is the call. */
  function FetchBegin(cx: Codec, s: State, f: nat, p: MeshPacket, ok: bool): State {
    AskCanned(cx, s.(calls := s.calls + {f}), f, p, ok)
  }

  function AskCanned(cx: Codec, s: State, f: nat, p: MeshPacket, ok: bool): State {
    var held := FreshCanned(s.canned, s.now);
    if held != [] then Serve(s, held, FromCache(s.canned.cacheAt))
    else
      var t := s.(canned := s.canned.(cache := held));
      if s.down || LocalNode(cx, s) == 0 then t
      else
        var w := Register(t, f, p.id);
        var bytes := cx.marshalTo(SendPacket(p));
        if CanWrite(w, bytes, ok) then Put(w, bytes) else Unregister(w, f)
  }

  function Unregister(s: State, f: nat): State
    requires f in s.canned.fetches
  {
    s.(canned := s.canned.(waiters := s.canned.waiters - {s.canned.fetches[f].id}, fetches := s.canned.fetches - {f}))
  }

  /** The wait ends, with the reply if `take`, else by timeout, cancellation or shutdown. */
  function FetchEnd(s: State, f: nat, take: bool): State
    requires f in s.canned.fetches
  {
    var Fetch(id, box) := s.canned.fetches[f];
    var t := Unregister(s, f);
    if take && box.Some? && box.value != [] then Serve(t, box.value, FromReply(f, id)) else t
  }

  // ----- the handlers

  predicate MayWrite(s: State, c: ClientId) {
    s.primary == Some(c) || !s.readOnly
  }

  /** A packet on its way to the radio, copied to the other clients. */
  ghost function Forward(cx: Codec, s: State, c: ClientId, p: MeshPacket, ok: bool, slots: seq<Slot>): State
    requires Known(slots, s.peers)
  {
    var bytes := cx.marshalTo(SendPacket(p));
    if CanWrite(s, bytes, ok)
    then Broadcast(Note(Put(s, bytes), c, p), cx.marshalPacket(p), Synthetic, slots, Some(c))
    else s.(down := true)
  }

  /** handleClientPayload. */
  ghost function FromClient(cx: Codec, s: State, c: ClientId, payload: Payload, nonce: u32, ok: bool, slots: seq<Slot>,
      promo: ClientId): State
    requires c in s.peers && Known(slots, s.peers)
  {
    match cx.parseTo(payload)
    case None => if s.primary == Some(c) then PutOrFail(s, payload, ok) else s
    case Some(WantConfig(x)) => if s.cache.Ready() then BeginReplay(cx, s, c, x) else AskRadio(cx, s, c, x, nonce, ok)
    case Some(Disconnect) => Remove(s, c, promo)
    case Some(SendPacket(p)) => if MayWrite(s, c) then Forward(cx, s, c, p, ok, slots) else s
    case Some(OtherTo(body)) => if MayWrite(s, c) then PutOrFail(s, cx.marshalTo(OtherTo(body)), ok) else s
  }

  /** A radio packet: taken by a canned waiter, returned to its sender, or broadcast. */
  ghost function RoutePacket(cx: Codec, s: State, p: MeshPacket, payload: Payload, slots: seq<Slot>,
      promo: ClientId): State
    requires Known(slots, s.peers)
  {
    if WaitedFor(cx, s, p) then TakeCanned(cx, s, p)
    else
      var origin := OriginOf(s, p);
      var t := Consume(s, p);
      if origin == None then Broadcast(t, payload, Live, slots, None)
      else if SuppressesOriginEcho(p) || origin.value !in s.peers then t
      else Send(t, origin.value, payload, Reply, promo)
  }

  /** One frame of readSerial. */
  ghost function FromDevice(cx: Codec, s: State, payload: Payload, rs: seq<Reissue>, slots: seq<Slot>,
      promo: ClientId): State
    requires Known(slots, s.peers)
    requires forall i :: 0 <= i < |rs| ==> rs[i].key in s.pending
  {
    match cx.parseFrom(payload)
    case None => s
    case Some(m) =>
      var t := s.(cache := s.cache.Updated(m, payload), radio := s.radio + [payload]);
      match m
      case ConfigComplete(id) => Complete(cx, t, id, promo)
      case Rebooted(_) => Reboot(cx, t, rs)
      case Packet(p) => RoutePacket(cx, t, p, payload, slots, promo)
      case _ => Broadcast(t, payload, Live, slots, None)
  }

  /** AddClient. */
  function Connect(s: State, c: ClientId): State {
    s.(clients := s.clients + {c},
       primary := if s.primary == None then Some(c) else s.primary,
       peers := s.peers[c := NewPeer(|s.radio|)])
  }

  /** One turn of writeLoop that takes a payload. */
  ghost function Drain(s: State, c: ClientId, ok: bool, n: nat, promo: ClientId): State
    requires c in s.peers && s.peers[c].queue != []
  {
    var pr := s.peers[c];
    var t := s.With(c, pr.Drained(ok, n));
    if pr.Writes(ok) then t else Remove(t, c, promo)
  }

  /** SendTextMessage, once the text has been checked. */
  ghost function SendText(cx: Codec, s: State, p: MeshPacket, ok: bool, slots: seq<Slot>): State
    requires Known(slots, s.peers)
  {
    var bytes := cx.marshalTo(SendPacket(p));
    if s.down || LocalNode(cx, s) == 0 || !CanWrite(s, bytes, ok) then s
    else Broadcast(Put(s, bytes), cx.marshalPacket(p), Synthetic, slots, None)
  }

  // ----- events and runs

  datatype Event =
    | Connecting(c: ClientId)
    | ClientFrame(c: ClientId, payload: Payload, nonce: u32, ok: bool, slots: seq<Slot>, promo: ClientId)
    | RadioFrame(payload: Payload, rs: seq<Reissue>, slots: seq<Slot>, promo: ClientId)
    | Replaying(c: ClientId, ok: bool, promo: ClientId)
    | Writing(c: ClientId, ok: bool, n: nat, promo: ClientId)
    | ReadFailed(c: ClientId, promo: ClientId)
    | WriterStopped(c: ClientId, byBroker: bool, promo: ClientId)
    | Bootstrapping(nonce: u32, ok: bool)
    | Fetching(f: nat, packet: MeshPacket, ok: bool)
    | Fetched(f: nat, take: bool)
    | Texting(packet: MeshPacket, ok: bool, slots: seq<Slot>)
    | Closing(slots: seq<Slot>)
    | Failing
    | Ticking(elapsed: nat)

  /** The frame makes the broker draw a nonce. */
  predicate NeedsNonce(cx: Codec, s: State, payload: Payload) {
    var m := cx.parseTo(payload);
    m.Some? && m.value.WantConfig? && !s.cache.Ready()
  }

  /** The frame says that the radio rebooted. */
  predicate Announces(cx: Codec, payload: Payload) {
    var m := cx.parseFrom(payload);
    m.Some? && m.value.Rebooted?
  }

  ghost predicate Enabled(cx: Codec, s: State, e: Event) {
    match e
    case Connecting(c) => c !in s.peers
    case ClientFrame(c, payload, nonce, _, slots, _) =>
      && c in s.peers && s.peers[c].reading && s.peers[c].replay == None && payload != []
      && (NeedsNonce(cx, s, payload) ==> FreshNonce(DropOwner(s.pending, c), nonce))
      && Enumerates(slots, s.clients) && Known(slots, s.peers)
    case RadioFrame(payload, rs, slots, _) =>
      && payload != [] && Enumerates(slots, s.clients) && Known(slots, s.peers)
      && (forall i :: 0 <= i < |rs| ==> rs[i].key in s.pending)
      && (Announces(cx, payload) ==> Reissues(cx, s.(radio := s.radio + [payload]), rs))
    case Replaying(c, ok, _) =>
      && c in s.peers && s.peers[c].replay.Some? && s.peers[c].replay.value.rest != [] && s.peers[c].hist.replays != []
      && (ok ==> s.peers[c].Room())
    case Writing(c, _, _, _) => c in s.peers && s.peers[c].writing && s.peers[c].queue != []
    case ReadFailed(c, _) => c in s.peers && s.peers[c].reading && s.peers[c].replay == None
    case WriterStopped(c, byBroker, _) =>
      c in s.peers && s.peers[c].writing && (if byBroker then s.down else s.peers[c].closed)
    case Bootstrapping(nonce, _) => FreshNonce(s.pending, nonce)
    case Fetching(f, packet, _) => f !in s.calls && f !in s.canned.fetches && packet.id != 0
    case Fetched(f, _) => f in s.canned.fetches
    case Texting(_, _, slots) => Enumerates(slots, s.clients) && Known(slots, s.peers)
    case Closing(slots) => Enumerates(slots, s.clients) && Known(slots, s.peers)
    case Failing => true
    case Ticking(_) => true
  }

  ghost function Step(cx: Codec, s: State, e: Event): State
    requires Enabled(cx, s, e)
  {
    match e
    case Connecting(c) => Connect(s, c)
    case ClientFrame(c, payload, nonce, ok, slots, promo) => FromClient(cx, s, c, payload, nonce, ok, slots, promo)
    case RadioFrame(payload, rs, slots, promo) => FromDevice(cx, s, payload, rs, slots, promo)
    case Replaying(c, ok, promo) => ReplayNext(s, c, ok, promo)
    case Writing(c, ok, n, promo) => Drain(s, c, ok, n, promo)
    case ReadFailed(c, promo) => Remove(s.With(c, s.peers[c].(reading := false)), c, promo)
    case WriterStopped(c, byBroker, promo) =>
      var t := s.With(c, s.peers[c].(writing := false));
      if byBroker then Remove(t, c, promo) else t
    case Bootstrapping(nonce, ok) => BootstrapConfig(cx, s, nonce, ok)
    case Fetching(f, packet, ok) => FetchBegin(cx, s, f, packet, ok)
    case Fetched(f, take) => FetchEnd(s, f, take)
    case Texting(packet, ok, slots) => SendText(cx, s, packet, ok, slots)
    case Closing(slots) => RemoveAll(s, slots)
    case Failing => s.(down := true)
    case Ticking(elapsed) => s.(now := s.now + elapsed)
  }

  /** Event e can happen in s, and leads to t. */
  ghost predicate Steps(cx: Codec, s: State, e: Event, t: State) {
    Enabled(cx, s, e) && t == Step(cx, s, e)
  }

  /** The events can happen one after another from s. */
  ghost predicate Feasible(cx: Codec, s: State, es: seq<Event>)
    decreases |es|, 0
  {
    es != [] ==> Feasible(cx, s, es[..|es| - 1]) && Enabled(cx, After(cx, s, es[..|es| - 1]), es[|es| - 1])
  }

  ghost function After(cx: Codec, s: State, es: seq<Event>): State
    requires Feasible(cx, s, es)
    decreases |es|, 1
  {
    if es == [] then s else Step(cx, After(cx, s, es[..|es| - 1]), es[|es| - 1])
  }
}
