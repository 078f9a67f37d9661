/** Every step does what the account of its event says, and nothing else. */
module Account {
  import opened Protocol
  import opened ConfigCaches
  import opened Counting
  import opened Model
  import opened Membership
  import opened Echoes
  import opened CannedRuns
  import opened Effects
  import opened Turns
  import CannedMessages

  /** The account's words and the model's. */
  lemma SameWords(cx: Codec, s: State)
    ensures LocalNode(cx, s) == NodeNumber(cx, s.cache)
    ensures HasInfo(s.cache) <==> s.cache.Ready()
  {
  }

  lemma SameRoute(cx: Codec, s: State, p: MeshPacket)
    requires Members(s) && EchoOK(s)
    ensures WaitedFor(cx, s, p) <==> Awaited(cx, s, p)
    ensures OriginOf(s, p) == Sender(s, p)
    ensures SuppressesOriginEcho(p) <==> OnChatPort(p)
  {
  }

  ghost predicate Does(cx: Codec, s: State, e: Event, t: State) {
    ClientSide(cx, s, e, t) && LinkSide(cx, s, e, t)
  }

  // ----- client frames

  /** The account of a client frame. */
  lemma OfClientFrame(cx: Codec, s: State, e: Event)
    requires e.ClientFrame?
    ensures var m, out := cx.parseTo(e.payload), Passed(cx, s, e.c, e.payload);
            && Outgoing(cx, s, e) == (if out.Some? && Works(s, out.value, e.ok) then out else None)
            && (Asks(cx, e) <==> m.Some? && m.value.WantConfig?)
            && (forall c :: Given(cx, s, e, c) ==
                  if m.Some? && m.value.SendPacket? && Outgoing(cx, s, e).Some? && c != e.c
                  then Some(Entry(cx.marshalPacket(m.value.packet), Synthetic)) else None)
            && (forall c :: c in s.peers ==> (Goes(cx, s, e, c) <==> c == e.c && m == Some(Disconnect)))
            && (Breaks(cx, s, e) <==>
                  || (out.Some? && !Works(s, out.value, e.ok))
                  || (Asks(cx, e) && !HasInfo(s.cache) && !Works(s, cx.marshalTo(WantConfig(e.nonce)), e.ok)))
  {
  }

  lemma ClientsStay(cx: Codec, s: State, e: Event, t: State)
    requires Members(s) && !e.Replaying? && !e.Connecting? && !e.Writing?
    requires forall c :: c in s.clients && c in s.peers ==> Given(cx, s, e, c) == None && !Goes(cx, s, e, c)
    requires t.clients == s.clients && t.primary == s.primary && t.peers.Keys == s.peers.Keys
    requires forall c :: c in s.clients && c in s.peers ==> SameLine(s.peers[c], t.peers[c])
    ensures ClientSide(cx, s, e, t)
  {
    hide Given, Goes, Handed, SameLine, ClientSide;
    QuietSide(cx, s, e, t, {});
  }

  /** A payload that is written if `allowed`, a failure taking the link down. */
  lemma PutLink(cx: Codec, s: State, e: Event, m: Payload, ok: bool, allowed: bool)
    requires !e.RadioFrame? && !e.Ticking? && !Asks(cx, e)
    requires Outgoing(cx, s, e) == if allowed && Works(s, m, ok) then Some(m) else None
    requires Breaks(cx, s, e) <==> allowed && !Works(s, m, ok)
    ensures LinkSide(cx, s, e, if allowed then PutOrFail(s, m, ok) else s)
  {
    hide Asks, Outgoing, Breaks;
    assert s.serial + [] == s.serial;
  }

  lemma SamePut(s: State, m: Payload, ok: bool)
    ensures var t := PutOrFail(s, m, ok); t.clients == s.clients && t.primary == s.primary && t.peers == s.peers
    ensures forall pr: Peer :: SameLine(pr, pr)
  {
  }

  /** Bytes that are no message, and messages the broker does not look into. */
  lemma PassedDoes(cx: Codec, s: State, e: Event)
    requires Members(s) && e.ClientFrame? && e.c in s.peers && Known(e.slots, s.peers)
    requires cx.parseTo(e.payload) == None || cx.parseTo(e.payload).value.OtherTo?
    ensures Does(cx, s, e, FromClient(cx, s, e.c, e.payload, e.nonce, e.ok, e.slots, e.promo))
  {
    hide Members, Given, Goes, Outgoing, Breaks, Asks, ClientSide, LinkSide, FromClient, PutOrFail, Works, SameLine;
    var ClientFrame(c, payload, nonce, ok, slots, promo) := e;
    OfClientFrame(cx, s, e);
    match cx.parseTo(payload)
    case None =>
      ClientNoise(cx, s, c, payload, nonce, ok, slots, promo);
      SamePut(s, payload, ok);
      PutLink(cx, s, e, payload, ok, s.primary == Some(c));
      ClientsStay(cx, s, e, FromClient(cx, s, c, payload, nonce, ok, slots, promo));
    case Some(OtherTo(body)) =>
      var m := cx.marshalTo(OtherTo(body));
      ClientOther(cx, s, c, payload, body, nonce, ok, slots, promo);
      SamePut(s, m, ok);
      PutLink(cx, s, e, m, ok, s.primary == Some(c) || !s.readOnly);
      ClientsStay(cx, s, e, FromClient(cx, s, c, payload, nonce, ok, slots, promo));
  }

  lemma WantDoes(cx: Codec, s: State, e: Event, x: u32)
    requires cx.Lawful() && Members(s) && e.ClientFrame? && e.c in s.peers && Known(e.slots, s.peers)
    requires cx.parseTo(e.payload) == Some(WantConfig(x))
    ensures Does(cx, s, e, FromClient(cx, s, e.c, e.payload, e.nonce, e.ok, e.slots, e.promo))
  {
    hide Members, Given, Goes, Outgoing, Breaks, Asks, ClientSide, LinkSide, FromClient, BeginReplay, AskRadio;
    var ClientFrame(c, payload, nonce, ok, slots, promo) := e;
    OfClientFrame(cx, s, e);
    SameWords(cx, s);
    ClientWants(cx, s, c, payload, x, nonce, ok, slots, promo);
    if s.cache.Ready() {
      BeginLines(cx, s, c, x);
      QuietLink(cx, s, e, BeginReplay(cx, s, c, x));
    } else {
      AskLines(cx, s, c, x, nonce, ok);
      AskLink(cx, s, e, AskRadio(cx, s, c, x, nonce, ok), nonce, ok);
    }
    ClientsStay(cx, s, e, FromClient(cx, s, c, payload, nonce, ok, slots, promo));
  }

  ghost predicate SameLines(s: State, t: State) {
    && t.clients == s.clients && t.primary == s.primary && t.peers.Keys == s.peers.Keys
    && (forall c :: c in s.peers ==> SameLine(s.peers[c], t.peers[c]))
  }

  /** The link as it was, but perhaps for a clock. */
  ghost predicate SameLink(s: State, t: State) {
    t.serial == s.serial && t.down == s.down && t.now == s.now && t.readOnly == s.readOnly
  }

  lemma QuietLink(cx: Codec, s: State, e: Event, t: State)
    requires !e.RadioFrame? && !e.Ticking? && SameLink(s, t) && Outgoing(cx, s, e) == None && !Breaks(cx, s, e)
    requires AboutCalls(cx, s, e) || SameCalls(s, t)
    ensures LinkSide(cx, s, e, t)
  {
    hide Asks, Outgoing, Breaks;
    assert s.serial + [] == s.serial;
  }

  /** A WantConfigId written, or the link down. */
  lemma AskLink(cx: Codec, s: State, e: Event, t: State, nonce: u32, ok: bool)
    requires cx.Lawful() && !e.RadioFrame? && !e.Ticking? && Asks(cx, e) && Outgoing(cx, s, e) == None
    requires t.now == s.now && t.readOnly == s.readOnly
    requires var w := cx.marshalTo(WantConfig(nonce));
             && (Breaks(cx, s, e) <==> !Works(s, w, ok))
             && (Works(s, w, ok) ==> t.serial == s.serial + [Sent(w, t.pending)] && !t.down)
             && (!Works(s, w, ok) ==> t.serial == s.serial && t.down)
    requires AboutCalls(cx, s, e) || SameCalls(s, t)
    ensures LinkSide(cx, s, e, t)
  {
    hide Asks, Outgoing, Breaks;
  }

  lemma BeginLines(cx: Codec, s: State, c: ClientId, x: u32)
    requires c in s.peers
    ensures var t := BeginReplay(cx, s, c, x); SameLines(s, t) && SameLink(s, t) && SameCalls(s, t)
  {
    hide Script;
  }

  lemma AskLines(cx: Codec, s: State, c: ClientId, x: u32, nonce: u32, ok: bool)
    requires c in s.peers
    ensures var t, w := AskRadio(cx, s, c, x, nonce, ok), cx.marshalTo(WantConfig(nonce));
            && SameLines(s, t) && t.now == s.now && t.readOnly == s.readOnly && SameCalls(s, t)
            && (Works(s, w, ok) ==> t.serial == s.serial + [Sent(w, t.pending)] && !t.down)
            && (!Works(s, w, ok) ==> t.serial == s.serial && t.down)
  {
    hide Originals, DropOwner, PutOrFail, Works;
    var pr := s.peers[c].Asked(x);
    var pr' := pr.(hist := pr.hist.(retried := pr.hist.retried + Originals(s.pending, c)));
    var u := s.With(c, pr').(pending := DropOwner(s.pending, c)[nonce := Request(Some(c), x)]);
    PutOutcome(u, cx.marshalTo(WantConfig(nonce)), ok);
    SameWorks(s, u, cx.marshalTo(WantConfig(nonce)), ok);
  }

  lemma SameWorks(s: State, t: State, m: Payload, ok: bool)
    requires t.down == s.down
    ensures Works(t, m, ok) == Works(s, m, ok)
  {
  }

  lemma PutOutcome(s: State, m: Payload, ok: bool)
    ensures var t := PutOrFail(s, m, ok);
            && t == s.(serial := t.serial, down := t.down)
            && (Works(s, m, ok) ==> t.serial == s.serial + [Sent(m, s.pending)] && !t.down)
            && (!Works(s, m, ok) ==> t.serial == s.serial && t.down)
  {
  }

  lemma LeavingDoes(cx: Codec, s: State, e: Event)
    requires Members(s) && e.ClientFrame? && e.c in s.peers && Known(e.slots, s.peers)
    requires cx.parseTo(e.payload) == Some(Disconnect)
    ensures Does(cx, s, e, FromClient(cx, s, e.c, e.payload, e.nonce, e.ok, e.slots, e.promo))
  {
    hide Given, Goes, Outgoing, Breaks, Asks, ClientSide, LinkSide, FromClient, Remove, SameLine;
    var ClientFrame(c, payload, nonce, ok, slots, promo) := e;
    OfClientFrame(cx, s, e);
    ClientLeaves(cx, s, c, payload, nonce, ok, slots, promo);
    RemoveLines(s, c, promo);
    QuietLink(cx, s, e, Remove(s, c, promo));
    QuietSide(cx, s, e, Remove(s, c, promo), {c});
  }

  lemma RemoveLines(s: State, c: ClientId, promo: ClientId)
    requires c in s.peers
    ensures var t := Remove(s, c, promo);
            && SameLink(s, t) && SameCalls(s, t)
            && t.clients == s.clients - {c} && t.peers == s.peers[c := s.peers[c].Close()]
            && (s.primary.Some? && s.primary.value in t.clients ==> t.primary == s.primary)
    ensures forall pr: Peer :: SameLine(pr, pr)
  {
    hide Promote, DropOwner, RequestsOf, Owned;
  }

  lemma PacketDoes(cx: Codec, s: State, e: Event, p: MeshPacket)
    requires Members(s) && e.ClientFrame? && e.c in s.peers && Known(e.slots, s.peers) && Enumerates(e.slots, s.clients)
    requires cx.parseTo(e.payload) == Some(SendPacket(p))
    ensures Does(cx, s, e, FromClient(cx, s, e.c, e.payload, e.nonce, e.ok, e.slots, e.promo))
  {
    hide Members, Given, Goes, Outgoing, Breaks, Asks, ClientSide, LinkSide, FromClient, Broadcast, Delivered,
      Enumerates, Note;
    var ClientFrame(c, payload, nonce, ok, slots, promo) := e;
    OfClientFrame(cx, s, e);
    ClientPacket(cx, s, c, payload, p, nonce, ok, slots, promo);
    var m, copy := cx.marshalTo(SendPacket(p)), cx.marshalPacket(p);
    var t := FromClient(cx, s, c, payload, nonce, ok, slots, promo);
    if Outgoing(cx, s, e).Some? {
      NoteLines(s, m, c, p);
      var sent, targets := Note(Put(s, m), c, p), Targets(slots, Some(c));
      SentToAll(s, sent, copy, slots, Some(c));
      DeliveredSide(cx, s, e, sent, t, targets, copy, Synthetic);
      DeliveredLink(sent, t, targets, copy, Synthetic);
      WrittenLink(cx, s, e, t, m);
    } else {
      DroppedLink(cx, s, e, t);
      ClientsStay(cx, s, e, t);
    }
  }

  lemma NoteLines(s: State, m: Payload, c: ClientId, p: MeshPacket)
    ensures var t := Note(Put(s, m), c, p);
            && t.clients == s.clients && t.peers == s.peers && t.primary == s.primary && SameCalls(s, t)
            && t.serial == s.serial + [Sent(m, s.pending)] && t.down == s.down && t.now == s.now
            && t.readOnly == s.readOnly
  {
  }

  /** A broadcast of the broker's own copy. */
  lemma SentToAll(s: State, sent: State, copy: Payload, slots: seq<Slot>, except: Option<ClientId>)
    requires Members(s) && Known(slots, s.peers) && Enumerates(slots, s.clients)
    requires sent.clients == s.clients && sent.peers == s.peers && sent.primary == s.primary
    ensures Delivered(sent, Broadcast(sent, copy, Synthetic, slots, except), Targets(slots, except), copy, Synthetic)
    ensures Targets(slots, except) == set c | c in s.clients && Some(c) != except
  {
    hide Members, Broadcast, Delivered;
    SameMembers(s, sent);
    BroadcastDelivers(sent, copy, Synthetic, slots, except);
    TargetsOfAll(slots, s.clients, except);
  }

  lemma WrittenLink(cx: Codec, s: State, e: Event, t: State, m: Payload)
    requires !e.RadioFrame? && !e.Ticking? && !Asks(cx, e) && Outgoing(cx, s, e) == Some(m)
    requires t.serial == s.serial + [Sent(m, s.pending)] && t.now == s.now && t.readOnly == s.readOnly
    requires t.down == s.down && !Breaks(cx, s, e)
    requires AboutCalls(cx, s, e) || SameCalls(s, t)
    ensures LinkSide(cx, s, e, t)
  {
    hide Asks, Outgoing, Breaks;
  }

  /** Nothing is written, and the link may go down. */
  lemma DroppedLink(cx: Codec, s: State, e: Event, t: State)
    requires !e.RadioFrame? && !e.Ticking? && !Asks(cx, e) && Outgoing(cx, s, e) == None
    requires t.serial == s.serial && t.now == s.now && t.readOnly == s.readOnly
    requires t.down <==> s.down || Breaks(cx, s, e)
    requires AboutCalls(cx, s, e) || SameCalls(s, t)
    ensures LinkSide(cx, s, e, t)
  {
    hide Asks, Outgoing, Breaks;
    assert s.serial + [] == s.serial;
  }

  lemma DeliveredLink(s: State, t: State, targets: set<ClientId>, p: Payload, o: Origin)
    requires Delivered(s, t, targets, p, o)
    ensures SameLink(s, t) && SameCalls(s, t)
  {
    hide Gone, DropOwners, Conserves, Peer.Offered;
  }

  lemma ClientFrameDoes(cx: Codec, s: State, e: Event)
    requires cx.Lawful() && Members(s) && Enabled(cx, s, e) && e.ClientFrame?
    ensures Does(cx, s, e, Step(cx, s, e))
  {
    hide Members, Does, FromClient, NeedsNonce, FreshNonce;
    match cx.parseTo(e.payload)
    case None => PassedDoes(cx, s, e);
    case Some(OtherTo(_)) => PassedDoes(cx, s, e);
    case Some(WantConfig(x)) => WantDoes(cx, s, e, x);
    case Some(Disconnect) => LeavingDoes(cx, s, e);
    case Some(SendPacket(p)) => PacketDoes(cx, s, e, p);
  }

  // ----- radio frames

  /** The account of a radio frame. */
  lemma OfRadioFrame(cx: Codec, s: State, e: Event)
    requires e.RadioFrame? && forall i :: 0 <= i < |e.rs| ==> e.rs[i].key in s.pending
    ensures Outgoing(cx, s, e) == None && (Asks(cx, e) <==> Announces(cx, e.payload))
    ensures forall c :: Given(cx, s, e, c) == FromTheRadio(cx, s, e.payload, c)
    ensures forall c :: c in s.peers ==> !Goes(cx, s, e, c)
    ensures Breaks(cx, s, e) <==> Announces(cx, e.payload) && Halts(cx, s, s.pending, e.rs)
  {
  }

  ghost predicate Halts(cx: Codec, s: State, m: Pending, rs: seq<Reissue>)
    requires forall i :: 0 <= i < |rs| ==> rs[i].key in m
  {
    exists i :: 0 <= i < |rs| && Wanted(s, m[rs[i].key])
                && !Works(s, cx.marshalTo(WantConfig(rs[i].nonce)), rs[i].ok)
  }

  /** A frame after which the link is as it was. */
  lemma RadioLink(cx: Codec, s: State, e: Event, t: State)
    requires e.RadioFrame? && !Announces(cx, e.payload) && SameLink(s, t)
    requires forall i :: 0 <= i < |e.rs| ==> e.rs[i].key in s.pending
    requires Replies(cx, s, e.payload) || SameCalls(s, t)
    ensures LinkSide(cx, s, e, t)
  {
    hide Asks, Outgoing, Breaks, Announces;
    OfRadioFrame(cx, s, e);
    assert s.serial + [] == s.serial;
  }

  /** The state once the frame is logged. */
  function Noted(s: State, m: FromRadio, payload: Payload): State {
    s.(cache := s.cache.Updated(m, payload), radio := s.radio + [payload])
  }

  lemma BroadcastDoes(cx: Codec, s: State, e: Event, s1: State)
    requires Members(s) && e.RadioFrame? && Known(e.slots, s.peers) && Enumerates(e.slots, s.clients)
    requires forall i :: 0 <= i < |e.rs| ==> e.rs[i].key in s.pending
    requires s1.clients == s.clients && s1.peers == s.peers && s1.primary == s.primary && SameLink(s, s1)
    requires SameCalls(s, s1)
    requires !Announces(cx, e.payload)
    requires forall c :: FromTheRadio(cx, s, e.payload, c) == Some(Entry(e.payload, Live))
    ensures Does(cx, s, e, Broadcast(s1, e.payload, Live, e.slots, None))
  {
    hide Members, Given, Goes, FromTheRadio, ClientSide, LinkSide, Broadcast, Delivered, Announces;
    var t, targets := Broadcast(s1, e.payload, Live, e.slots, None), Targets(e.slots, None);
    OfRadioFrame(cx, s, e);
    SameMembers(s, s1);
    BroadcastDelivers(s1, e.payload, Live, e.slots, None);
    TargetsOfAll(e.slots, s.clients, None);
    DeliveredSide(cx, s, e, s1, t, targets, e.payload, Live);
    DeliveredLink(s1, t, targets, e.payload, Live);
    RadioLink(cx, s, e, t);
  }

  lemma SendDoes(cx: Codec, s: State, e: Event, s1: State, c: ClientId, p: Payload, o: Origin)
    requires Members(s) && e.RadioFrame? && c in s.peers
    requires forall i :: 0 <= i < |e.rs| ==> e.rs[i].key in s.pending
    requires s1.clients == s.clients && s1.peers == s.peers && s1.primary == s.primary && SameLink(s, s1)
    requires SameCalls(s, s1)
    requires !Announces(cx, e.payload)
    requires forall d :: d in s.clients ==>
               FromTheRadio(cx, s, e.payload, d) == if d == c then Some(Entry(p, o)) else None
    ensures Does(cx, s, e, Send(s1, c, p, o, e.promo))
  {
    hide Members, Given, Goes, FromTheRadio, ClientSide, LinkSide, Send, Delivered, Announces;
    var t := Send(s1, c, p, o, e.promo);
    OfRadioFrame(cx, s, e);
    SameMembers(s, s1);
    SendDelivers(s1, c, p, o, e.promo);
    DeliveredSide(cx, s, e, s1, t, {c}, p, o);
    DeliveredLink(s1, t, {c}, p, o);
    RadioLink(cx, s, e, t);
  }

  lemma NobodyDoes(cx: Codec, s: State, e: Event, t: State)
    requires Members(s) && e.RadioFrame? && !Announces(cx, e.payload)
    requires forall i :: 0 <= i < |e.rs| ==> e.rs[i].key in s.pending
    requires SameLines(s, t) && SameLink(s, t)
    requires Replies(cx, s, e.payload) || SameCalls(s, t)
    requires forall d :: d in s.clients ==> FromTheRadio(cx, s, e.payload, d) == None
    ensures Does(cx, s, e, t)
  {
    hide Members, Given, Goes, FromTheRadio, ClientSide, LinkSide, Announces, SameLine;
    OfRadioFrame(cx, s, e);
    ClientsStay(cx, s, e, t);
    RadioLink(cx, s, e, t);
  }

  lemma CompletionDoes(cx: Codec, s: State, e: Event, n: u32)
    requires Members(s) && e.RadioFrame? && cx.parseFrom(e.payload) == Some(ConfigComplete(n))
    requires forall i :: 0 <= i < |e.rs| ==> e.rs[i].key in s.pending
    ensures Does(cx, s, e, Complete(cx, Noted(s, ConfigComplete(n), e.payload), n, e.promo))
  {
    hide Members, Does, Send;
    var s1 := Noted(s, ConfigComplete(n), e.payload);
    if n !in s.pending {
      NobodyDoes(cx, s, e, s1);
    } else {
      var req, t := s.pending[n], TakeRequest(s1, n);
      if req.owner == None || req.owner.value !in s.peers {
        ClientsHavePeers(s);
        NobodyDoes(cx, s, e, t);
      } else {
        SendDoes(cx, s, e, t, req.owner.value, cx.marshalComplete(req.original), Answer);
      }
    }
  }

  lemma ClientsHavePeers(s: State)
    requires Members(s)
    ensures s.clients <= s.peers.Keys
  {
  }

  lemma PacketFromRadioDoes(cx: Codec, s: State, e: Event, p: MeshPacket)
    requires Members(s) && EchoOK(s) && e.RadioFrame? && cx.parseFrom(e.payload) == Some(Packet(p))
    requires Known(e.slots, s.peers) && Enumerates(e.slots, s.clients)
    requires forall i :: 0 <= i < |e.rs| ==> e.rs[i].key in s.pending
    ensures Does(cx, s, e, RoutePacket(cx, Noted(s, Packet(p), e.payload), p, e.payload, e.slots, e.promo))
  {
    hide Members, EchoOK, Does, Send, Broadcast, Enumerates, WaitedFor, Awaited, TakeCanned, OriginOf, Sender,
      OnChatPort, SuppressesOriginEcho, Consume;
    var s1 := Noted(s, Packet(p), e.payload);
    SameRoute(cx, s, p);
    SameRouteLogged(cx, s, s1, p);
    ConsumeLines(s1, p);
    ClientsHavePeers(s);
    if WaitedFor(cx, s1, p) {
      TakeLines(cx, s1, p);
      NobodyDoes(cx, s, e, TakeCanned(cx, s1, p));
    } else if Sender(s, p) == None {
      BroadcastDoes(cx, s, e, Consume(s1, p));
    } else if OnChatPort(p) {
      NobodyDoes(cx, s, e, Consume(s1, p));
    } else {
      SenderIsClient(s, p);
      SendDoes(cx, s, e, Consume(s1, p), Sender(s, p).value, e.payload, Reply);
    }
  }

  lemma SenderIsClient(s: State, p: MeshPacket)
    ensures Sender(s, p).Some? ==> Sender(s, p).value in s.clients
  {
  }

  lemma SameRouteLogged(cx: Codec, s: State, t: State, p: MeshPacket)
    requires t.canned == s.canned && t.outbound == s.outbound && t.now == s.now && t.peers == s.peers
    ensures WaitedFor(cx, s, p) == WaitedFor(cx, t, p) && OriginOf(s, p) == OriginOf(t, p)
  {
  }

  lemma ConsumeLines(s: State, p: MeshPacket)
    ensures Consume(s, p) == s.(outbound := Consume(s, p).outbound)
    ensures SameLines(s, Consume(s, p))
  {
  }

  lemma TakeLines(cx: Codec, s: State, p: MeshPacket)
    requires WaitedFor(cx, s, p)
    ensures SameLines(s, TakeCanned(cx, s, p)) && SameLink(s, TakeCanned(cx, s, p))
  {
    hide CannedMessages.Parse;
  }

  // ----- reboots

  /** Who waits in the table has, or had, a connection. */
  predicate OwnersKnown(s: State, m: Pending) {
    forall n :: n in m && m[n].owner.Some? ==> m[n].owner.value in s.peers
  }

  lemma WantedOrClosed(s: State, req: Request)
    requires Members(s) && (req.owner.Some? ==> req.owner.value in s.peers)
    ensures Wanted(s, req) <==> !ClosedOwner(s, req)
  {
  }

  /** The WantConfigIds of a reboot, and what a failing one does. */
  lemma {:induction false} ReissueWants(cx: Codec, s: State, m: Pending, rs: seq<Reissue>)
    requires cx.Lawful() && Members(s) && OwnersKnown(s, m) && forall i :: 0 <= i < |rs| ==> rs[i].key in m
    ensures var t := ReissueAll(cx, s, m, rs);
            && t.state == s.(pending := t.state.pending, serial := t.state.serial, down := t.state.down)
            && s.serial <= t.state.serial
            && (forall i :: |s.serial| <= i < |t.state.serial| ==> IsWant(cx, t.state.serial[i].payload))
            && (t.state.down <==> s.down || Halts(cx, s, m, rs))
            && (t.halted <==> Halts(cx, s, m, rs))
  {
    hide ClosedOwner, Members, Wanted;
    if rs != [] {
      var front, r := rs[..|rs| - 1], rs[|rs| - 1];
      ReissueWants(cx, s, m, front);
      var t := ReissueAll(cx, s, m, front);
      HaltsGrow(cx, s, m, front, r);
      assert front + [r] == rs;
      WantedOrClosed(s, m[r.key]);
      SamePeersClosed(s, t.state, m[r.key]);
    }
  }

  lemma SamePeersClosed(s: State, t: State, r: Request)
    requires t.peers == s.peers
    ensures ClosedOwner(t, r) == ClosedOwner(s, r)
  {
  }

  lemma HaltsGrow(cx: Codec, s: State, m: Pending, rs: seq<Reissue>, r: Reissue)
    requires r.key in m && forall i :: 0 <= i < |rs| ==> rs[i].key in m
    ensures Halts(cx, s, m, rs + [r]) ==
            (Halts(cx, s, m, rs) || (Wanted(s, m[r.key]) && !Works(s, cx.marshalTo(WantConfig(r.nonce)), r.ok)))
  {
    hide Wanted, Works;
    var longer := rs + [r];
    assert longer[|rs|] == r;
    if i :| 0 <= i < |rs| && Wanted(s, m[rs[i].key])
            && !Works(s, cx.marshalTo(WantConfig(rs[i].nonce)), rs[i].ok) {
      assert longer[i] == rs[i];
    }
  }

  lemma RebootDoes(cx: Codec, s: State, e: Event, flag: bool)
    requires cx.Lawful() && Members(s) && e.RadioFrame? && cx.parseFrom(e.payload) == Some(Rebooted(flag))
    requires OwnersKnown(s, s.pending) && forall i :: 0 <= i < |e.rs| ==> e.rs[i].key in s.pending
    ensures Does(cx, s, e, Reboot(cx, Noted(s, Rebooted(flag), e.payload), e.rs))
  {
    hide Members, Given, Goes, Outgoing, Breaks, Asks, ClientSide, ReissueAll, SameLine, Halts;
    var s1 := Noted(s, Rebooted(flag), e.payload);
    var s2 := s1.(cache := EMPTY, pending := map[]);
    var t := Reboot(cx, s1, e.rs);
    OfRadioFrame(cx, s, e);
    SameMembers(s, s2);
    ReissueWants(cx, s2, s.pending, e.rs);
    SameHalts(cx, s, s2, s.pending, e.rs);
    SamePut(s, [], true);
    ClientsStay(cx, s, e, t);
  }

  lemma SameHalts(cx: Codec, s: State, t: State, m: Pending, rs: seq<Reissue>)
    requires t.clients == s.clients && t.down == s.down && forall i :: 0 <= i < |rs| ==> rs[i].key in m
    ensures Halts(cx, t, m, rs) <==> Halts(cx, s, m, rs)
  {
  }

  lemma LoggedLines(s: State, payload: Payload)
    ensures SameLink(s, s) && SameCalls(s, s) && SameLines(s, s)
    ensures forall m :: SameLink(s, Noted(s, m, payload)) && SameCalls(s, Noted(s, m, payload))
  {
  }

  lemma FromDeviceDoes(cx: Codec, s: State, e: Event)
    requires cx.Lawful() && Members(s) && EchoOK(s) && OwnersKnown(s, s.pending) && e.RadioFrame?
    requires Known(e.slots, s.peers) && Enumerates(e.slots, s.clients)
    requires forall i :: 0 <= i < |e.rs| ==> e.rs[i].key in s.pending
    ensures Does(cx, s, e, FromDevice(cx, s, e.payload, e.rs, e.slots, e.promo))
  {
    hide Members, EchoOK, Does, Complete, Reboot, RoutePacket, Broadcast, Enumerates, SameLine, SameLink, SameCalls,
      Replies;
    LoggedLines(s, e.payload);
    match cx.parseFrom(e.payload)
    case None => NobodyDoes(cx, s, e, s);
    case Some(ConfigComplete(n)) => CompletionDoes(cx, s, e, n);
    case Some(Rebooted(flag)) => RebootDoes(cx, s, e, flag);
    case Some(Packet(p)) => PacketFromRadioDoes(cx, s, e, p);
    case Some(m) => BroadcastDoes(cx, s, e, Noted(s, m, e.payload));
  }

  lemma RadioFrameDoes(cx: Codec, s: State, e: Event)
    requires cx.Lawful() && Members(s) && EchoOK(s) && OwnersKnown(s, s.pending) && Enabled(cx, s, e) && e.RadioFrame?
    ensures Does(cx, s, e, Step(cx, s, e))
  {
    hide Members, EchoOK, Does, FromDevice, Reissues, Enumerates, Announces;
    FromDeviceDoes(cx, s, e);
  }

  // ----- the loops of a connection

  lemma OneSide(cx: Codec, s: State, e: Event, t: State, c: ClientId)
    requires Members(s) && c in s.peers && c in t.peers && t.peers == s.peers[c := t.peers[c]] && !e.Connecting?
    requires forall d :: d in s.clients && d in s.peers && d != c ==>
               Given(cx, s, e, d) == None && !Goes(cx, s, e, d) && !(e.Writing? && e.c == d)
    requires c in s.clients ==>
               Handed(s.peers[c], t.peers[c], Given(cx, s, e, c), Refused(cx, s, e, c), Goes(cx, s, e, c),
                      e.Writing? && e.c == c)
    requires t.clients == if c in s.clients && t.peers[c].closed then s.clients - {c} else s.clients
    requires s.primary.Some? && s.primary.value in t.clients ==> t.primary == s.primary
    ensures ClientSide(cx, s, e, t)
  {
    hide Given, Goes;
    forall d | d in s.clients
      ensures Handed(s.peers[d], t.peers[d], Given(cx, s, e, d), Refused(cx, s, e, d), Goes(cx, s, e, d),
                     e.Writing? && e.c == d)
      ensures d != c ==> !Refused(cx, s, e, d)
    {
      if d != c {
        assert Given(cx, s, e, d) == None && !Goes(cx, s, e, d);
        SameHand(s.peers[d], t.peers[d], false);
      }
    }
  }

  /** The account of the loops' events. */
  lemma OfLoops(cx: Codec, s: State, e: Event)
    requires Enabled(cx, s, e) && (e.Replaying? || e.Writing? || e.ReadFailed? || e.WriterStopped?)
    ensures e.c in s.peers && Outgoing(cx, s, e) == None && !Breaks(cx, s, e) && !Asks(cx, e)
    ensures forall d :: d in s.peers && d != e.c ==> Given(cx, s, e, d) == None && !Goes(cx, s, e, d)
    ensures Refused(cx, s, e, e.c) <==> e.Replaying? && !e.ok
    ensures Goes(cx, s, e, e.c) <==>
              || (e.Writing? && !(e.ok && |s.peers[e.c].queue[0]| <= 65535))
              || e.ReadFailed? || (e.WriterStopped? && e.byBroker)
    ensures !e.Replaying? ==> Given(cx, s, e, e.c) == None
    ensures e.Replaying? ==>
              var pr := s.peers[e.c];
              Given(cx, s, e, e.c) == Some(Entry(pr.replay.value.rest[0], Cached(|pr.hist.replays| - 1)))
  {
  }

  lemma ReplayingDoes(cx: Codec, s: State, e: Event)
    requires Members(s) && Enabled(cx, s, e) && e.Replaying?
    ensures Does(cx, s, e, Step(cx, s, e))
  {
    hide Given, Goes, Refused, Outgoing, Breaks, Asks, ReplayNext, ClientSide, LinkSide, Handed, Peer.Advance;
    var c, t := e.c, Step(cx, s, e);
    OfLoops(cx, s, e);
    ReplayLines(s, c, e.ok, e.promo);
    AdvanceHand(s.peers[c], e.ok);
    QuietLink(cx, s, e, t);
    ClientIsOpen(s, c);
    OneSide(cx, s, e, t, c);
  }

  lemma ClientIsOpen(s: State, c: ClientId)
    requires Members(s)
    ensures c in s.clients <==> c in s.peers && !s.peers[c].closed
  {
  }

  lemma ReplayLines(s: State, c: ClientId, ok: bool, promo: ClientId)
    requires c in s.peers && s.peers[c].replay.Some? && s.peers[c].replay.value.rest != []
    requires s.peers[c].hist.replays != []
    ensures var t, pr := ReplayNext(s, c, ok, promo), s.peers[c].Advance(ok);
            && SameLink(s, t) && SameCalls(s, t)
            && t.peers == s.peers[c := if ok || s.peers[c].closed then pr else pr.Close()]
            && t.clients == (if ok || s.peers[c].closed then s.clients else s.clients - {c})
            && (s.primary.Some? && s.primary.value in t.clients ==> t.primary == s.primary)
  {
    hide Remove, Peer.Advance;
    RemoveLines(AdvanceReplay(s, c, ok), c, promo);
  }

  lemma AdvanceHand(pr: Peer, ok: bool)
    requires pr.replay.Some? && pr.replay.value.rest != [] && pr.hist.replays != []
    ensures var g := Some(Entry(pr.replay.value.rest[0], Cached(|pr.hist.replays| - 1)));
            && pr.Advance(ok).closed == pr.closed
            && (!pr.closed && ok ==> Handed(pr, pr.Advance(ok), g, false, false, false))
            && (!pr.closed && !ok ==> Handed(pr, pr.Advance(ok).Close(), g, true, false, false))
  {
    var g := Entry(pr.replay.value.rest[0], Cached(|pr.hist.replays| - 1));
    assert Bodies([g]) == [g.payload];
    assert pr.hist.log + [] == pr.hist.log;
  }

  lemma WritingDoes(cx: Codec, s: State, e: Event)
    requires Members(s) && Enabled(cx, s, e) && e.Writing?
    ensures Does(cx, s, e, Step(cx, s, e))
  {
    hide Given, Goes, Refused, Outgoing, Breaks, Asks, Remove, ClientSide, LinkSide, Handed, Peer.Drained;
    var c, t := e.c, Step(cx, s, e);
    OfLoops(cx, s, e);
    RemoveLines(s.With(c, s.peers[c].Drained(e.ok, e.n)), c, e.promo);
    DrainedHand(s.peers[c], e.ok, e.n);
    QuietLink(cx, s, e, t);
    OneSide(cx, s, e, t, c);
  }

  lemma DrainedHand(pr: Peer, ok: bool, n: nat)
    requires pr.queue != []
    ensures pr.Drained(ok, n).closed == pr.closed
    ensures !pr.closed && ok && |pr.queue[0]| <= 65535 ==>
              Handed(pr, pr.Drained(ok, n), None, false, false, true)
    ensures !pr.closed && !(ok && |pr.queue[0]| <= 65535) ==>
              Handed(pr, pr.Drained(ok, n).Close(), None, false, true, true)
  {
    hide Frame.FrameBytes;
  }

  lemma ReadFailedDoes(cx: Codec, s: State, e: Event)
    requires Members(s) && Enabled(cx, s, e) && e.ReadFailed?
    ensures Does(cx, s, e, Step(cx, s, e))
  {
    hide Given, Goes, Refused, Outgoing, Breaks, Asks, Remove, ClientSide, LinkSide, Handed;
    var c, t := e.c, Step(cx, s, e);
    OfLoops(cx, s, e);
    RemoveLines(s.With(c, s.peers[c].(reading := false)), c, e.promo);
    QuietLink(cx, s, e, t);
    if c in s.clients {
      SameHand(s.peers[c], t.peers[c], true);
    }
    OneSide(cx, s, e, t, c);
  }

  lemma WriterStoppedDoes(cx: Codec, s: State, e: Event)
    requires Members(s) && Enabled(cx, s, e) && e.WriterStopped?
    ensures Does(cx, s, e, Step(cx, s, e))
  {
    hide Given, Goes, Refused, Outgoing, Breaks, Asks, Remove, ClientSide, LinkSide, Handed;
    var c, t := e.c, Step(cx, s, e);
    OfLoops(cx, s, e);
    RemoveLines(s.With(c, s.peers[c].(writing := false)), c, e.promo);
    QuietLink(cx, s, e, t);
    if c in s.clients {
      SameHand(s.peers[c], t.peers[c], e.byBroker);
    }
    OneSide(cx, s, e, t, c);
  }

  // ----- the rest

  lemma ConnectingDoes(cx: Codec, s: State, e: Event)
    requires Members(s) && Enabled(cx, s, e) && e.Connecting?
    ensures Does(cx, s, e, Step(cx, s, e))
  {
    hide Handed;
    QuietLink(cx, s, e, Step(cx, s, e));
    forall c | c in s.clients
      ensures Handed(s.peers[c], s.peers[c], None, false, false, false)
    {
      SameHand(s.peers[c], s.peers[c], false);
    }
  }

  lemma ClosingDoes(cx: Codec, s: State, e: Event)
    requires Members(s) && Enabled(cx, s, e) && e.Closing?
    ensures Does(cx, s, e, Step(cx, s, e))
  {
    hide RemoveAll, DropOwners, Conserves;
    var t := Step(cx, s, e);
    RemoveAllEffect(s, e.slots);
    TargetsOfAll(e.slots, s.clients, None);
    assert ClosedBy(e.slots) == Targets(e.slots, None);
    QuietLink(cx, s, e, t);
    QuietSide(cx, s, e, t, s.clients);
  }

  lemma TextingDoes(cx: Codec, s: State, e: Event)
    requires Members(s) && Enabled(cx, s, e) && e.Texting?
    ensures Does(cx, s, e, Step(cx, s, e))
  {
    hide Members, ClientSide, LinkSide, Broadcast, Delivered, NodeNumber, LocalNode;
    var t, m, copy := Step(cx, s, e), cx.marshalTo(SendPacket(e.packet)), cx.marshalPacket(e.packet);
    SameWords(cx, s);
    if Outgoing(cx, s, e).Some? {
      var targets := Targets(e.slots, None);
      SentToAll(s, Put(s, m), copy, e.slots, None);
      DeliveredSide(cx, s, e, Put(s, m), t, targets, copy, Synthetic);
      DeliveredLink(Put(s, m), t, targets, copy, Synthetic);
      WrittenLink(cx, s, e, t, m);
    } else {
      DroppedLink(cx, s, e, t);
      SamePut(s, [], true);
      ClientsStay(cx, s, e, t);
    }
  }

  lemma BootstrappingDoes(cx: Codec, s: State, e: Event)
    requires cx.Lawful() && Members(s) && Enabled(cx, s, e) && e.Bootstrapping?
    ensures Does(cx, s, e, Step(cx, s, e))
  {
    hide Members, ClientSide, LinkSide, PutOrFail, Works;
    var t := Step(cx, s, e);
    SameWords(cx, s);
    PutOutcome(s.(pending := s.pending[e.nonce := Request(None, BOOTSTRAP_ID)]), Want(cx, e.nonce), e.ok);
    SameWorks(s, s.(pending := s.pending[e.nonce := Request(None, BOOTSTRAP_ID)]), Want(cx, e.nonce), e.ok);
    if HasInfo(s.cache) || exists n :: n in s.pending && s.pending[n].owner == None {
      QuietLink(cx, s, e, t);
    } else {
      AskLink(cx, s, e, t, e.nonce, e.ok);
    }
    SamePut(s, [], true);
    ClientsStay(cx, s, e, t);
  }

  /** What a call writes, and when. */
  lemma FetchWrites(cx: Codec, s: State, f: nat, p: MeshPacket, ok: bool)
    requires CannedOK(cx, s)
    ensures var m := cx.marshalTo(SendPacket(p));
            var asks := LastList(s.taken, s.now) == [] && NodeNumber(cx, s.cache) != 0 && Works(s, m, ok);
            FetchBegin(cx, s, f, p, ok).serial == s.serial + if asks then [Sent(m, s.pending)] else []
  {
    hide CannedOK, LastList, FreshCanned, NodeNumber, LocalNode, Register, Unregister;
    SameWords(cx, s);
    FreshIsLast(cx, s);
    var called := s.(calls := s.calls + {f});
    var t := called.(canned := called.canned.(cache := FreshCanned(s.canned, s.now)));
    CallFrame(t, f, p.id);
    SameNode(cx, s, called);
    assert s.serial + [] == s.serial;
  }

  lemma SameNode(cx: Codec, s: State, t: State)
    requires t.cache == s.cache
    ensures LocalNode(cx, t) == LocalNode(cx, s)
  {
  }

  lemma FetchingDoes(cx: Codec, s: State, e: Event)
    requires Members(s) && CannedOK(cx, s) && Enabled(cx, s, e) && (e.Fetching? || e.Fetched?)
    ensures Does(cx, s, e, Step(cx, s, e))
  {
    hide Members, ClientSide, LinkSide, CannedOK, LastList, NodeNumber, FetchBegin, FetchEnd, SameLine;
    var t := Step(cx, s, e);
    match e {
      case Fetching(f, packet, ok) =>
        FetchFrame(cx, s, f, packet, ok);
        FetchWrites(cx, s, f, packet, ok);
      case Fetched(f, take) => FetchEndFrame(s, f, take);
      case _ => assert false;
    }
    SamePut(s, [], true);
    ClientsStay(cx, s, e, t);
    if Outgoing(cx, s, e).Some? {
      WrittenLink(cx, s, e, t, Outgoing(cx, s, e).value);
    } else {
      assert s.serial + [] == s.serial;
      DroppedLink(cx, s, e, t);
    }
  }

  lemma ClockDoes(cx: Codec, s: State, e: Event)
    requires Members(s) && (e.Failing? || e.Ticking?)
    ensures Does(cx, s, e, Step(cx, s, e))
  {
    hide Members, ClientSide;
    assert s.serial + [] == s.serial;
    SamePut(s, [], true);
    ClientsStay(cx, s, e, Step(cx, s, e));
  }

  /** What the accounts need of a state; every reachable state has it. */
  ghost predicate Sound(cx: Codec, s: State) {
    Members(s) && EchoOK(s) && CannedOK(cx, s) && OwnersKnown(s, s.pending)
  }

  /** Every step does to the clients and to the radio what its account says. */
  lemma StepDoes(cx: Codec, s: State, e: Event)
    requires cx.Lawful() && Sound(cx, s) && Enabled(cx, s, e)
    ensures ClientSide(cx, s, e, Step(cx, s, e)) && LinkSide(cx, s, e, Step(cx, s, e))
  {
    hide Members, EchoOK, CannedOK, Enabled, Step, ClientSide, LinkSide;
    match e
    case Connecting(_) => ConnectingDoes(cx, s, e);
    case ClientFrame(_, _, _, _, _, _) => ClientFrameDoes(cx, s, e);
    case RadioFrame(_, _, _, _) => RadioFrameDoes(cx, s, e);
    case Replaying(_, _, _) => ReplayingDoes(cx, s, e);
    case Writing(_, _, _, _) => WritingDoes(cx, s, e);
    case ReadFailed(_, _) => ReadFailedDoes(cx, s, e);
    case WriterStopped(_, _, _) => WriterStoppedDoes(cx, s, e);
    case Bootstrapping(_, _) => BootstrappingDoes(cx, s, e);
    case Fetching(_, _, _) => FetchingDoes(cx, s, e);
    case Fetched(_, _) => FetchingDoes(cx, s, e);
    case Texting(_, _, _) => TextingDoes(cx, s, e);
    case Closing(_) => ClosingDoes(cx, s, e);
    case Failing => ClockDoes(cx, s, e);
    case Ticking(_) => ClockDoes(cx, s, e);
  }
}
