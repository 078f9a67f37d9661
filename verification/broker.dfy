/** The broker object. Each handler is proved to be one step of the model; the event it
    returns as ghost result records how map iteration, nonces and writes turned out. */
module Brokers {
  import opened Protocol
  import opened ConfigCaches
  import opened Model
  import opened Clients
  import opened Turns
  import Frame
  import Stream
  import CannedMessages

  /** No two connections share an object. */
  ghost predicate Separate(table: map<ClientId, Client>, repr: set<object>) {
    forall c :: c in table ==>
      table[c] in repr && table[c].conn in repr && table[c].id == c && table[c].conn.name == c
  }

  lemma SeparateWith(table: map<ClientId, Client>, repr: set<object>, c: ClientId, cl: Client)
    requires Separate(table, repr) && cl.id == c && cl.conn.name == c
    ensures Separate(table[c := cl], repr + {cl, cl.conn})
  {
  }

  class Broker {
    const codec: Codec
    const readOnlyClients: bool
    const serial: Frame.Sink
    const cache: ConfigCache
    var table: map<ClientId, Client>          // every connection accepted so far
    var clients: set<ClientId>
    var primary: Option<ClientId>
    var pendingConfig: Pending
    var outboundByPacket: map<u32, Echo>
    var cannedWaiters: map<u32, nat>
    var cannedFetches: map<nat, Fetch>        // the channels of the waiting calls
    var cannedCache: seq<string>
    var cannedCacheAt: int
    var now: int                              // the clock
    var done: bool
    ghost var peers: map<ClientId, Peer>      // what the connections look like
    ghost var repr: set<object>               // the objects they consist of
    ghost var radio: seq<Payload>
    ghost var trace: seq<Sent>
    ghost var taken: seq<Taken>
    ghost var served: seq<Served>
    ghost var calls: set<nat>
    ghost var abandoned: multiset<Request>

    ghost predicate Apart()
      reads this`table, this`repr
    {
      Separate(table, repr)
    }

    ghost predicate Mirrored()
      requires Apart()
      reads this`table, this`peers, this`repr, repr
    {
      table.Keys == peers.Keys && forall c :: c in table ==> peers[c] == table[c].View()
    }

    ghost predicate Valid()
      reads this`table, this`clients, this`pendingConfig, this`peers, this`repr, repr
    {
      && clients <= table.Keys == peers.Keys
      && 0 !in pendingConfig
      && this !in repr && cache !in repr && serial !in repr
      && Apart() && Mirrored()
    }

    /** The object as a state of the model. */
    ghost function View(): State
      reads this`clients, this`primary, this`peers, this`pendingConfig, this`outboundByPacket, this`cannedWaiters
      reads this`cannedFetches, this`cannedCache, this`cannedCacheAt, this`now, this`done, this`radio, this`trace
      reads this`taken, this`served, this`calls, this`abandoned, cache
    {
      State(clients, primary, peers, cache.Value(), pendingConfig, outboundByPacket,
            Canned(cannedWaiters, cannedFetches, cannedCache, cannedCacheAt), now, done,
            readOnlyClients, radio, trace, taken, served, calls, abandoned)
    }

    constructor (codec: Codec, serial: Frame.Sink, readOnlyClients: bool)
      ensures Valid() && fresh(cache)
      ensures this.codec == codec && this.serial == serial
      ensures View() == Initial(readOnlyClients)
    {
      this.codec, this.serial, this.readOnlyClients := codec, serial, readOnlyClients;
      cache := new ConfigCache();
      table, clients, primary := map[], {}, None;
      pendingConfig, outboundByPacket := map[], map[];
      cannedWaiters, cannedFetches, cannedCache, cannedCacheAt := map[], map[], [], 0;
      now, done := 0, false;
      peers, repr := map[], {};
      radio, trace, taken, served, calls, abandoned := [], [], [], [], {}, multiset{};
    }

    /** Connection c as the model sees it. */
    lemma Mirror(c: ClientId)
      requires Valid() && c in table
      ensures c in View().peers && View().peers[c] == table[c].View()
      ensures var cl, pr := table[c], table[c].View();
              && pr.queue == cl.queue && pr.closed == cl.closed && pr.reading == cl.reading && pr.writing == cl.writing
              && pr.replay == cl.replay && pr.hist == cl.hist
      ensures table[c] in repr && table[c].conn in repr && this !in repr
      ensures View().pending == pendingConfig && View().down == done
    {
    }

    /** Requests are given up. */
    ghost method GivesUp(more: multiset<Request>)
      requires Valid()
      modifies this`abandoned
      ensures Valid()
      ensures View() == old(View()).(abandoned := old(View()).abandoned + more)
    {
      hide Apart, Mirrored;
      abandoned := abandoned + more;
    }

    // ----- one client

    /** Valid, but for the mirror of connection c. */
    ghost predicate AllBut(c: ClientId)
      reads this`table, this`clients, this`pendingConfig, this`peers, this`repr, repr
    {
      && c in table && clients <= table.Keys == peers.Keys + {c}
      && 0 !in pendingConfig
      && this !in repr && cache !in repr && serial !in repr
      && Apart()
      && (forall d :: d in table && d != c ==> peers[d] == table[d].View())
    }

    /** Connection c is all that changed. */
    twostate lemma OnlyOneChanged(c: ClientId)
      requires old(Valid()) && c in table
      requires unchanged(this) && unchanged(cache) && unchanged(repr - {table[c], table[c].conn})
      ensures AllBut(c) && View() == old(View())
    {
      hide Client.View, View;
    }

    /** Bring the mirror of one changed connection up to date. */
    ghost method Sync(c: ClientId)
      requires AllBut(c)
      modifies this`peers
      ensures Valid()
      ensures View() == old(View()).With(c, table[c].View())
    {
      hide Client.View, Apart;
      peers := peers[c := table[c].View()];
    }

    /** A change of what the history says about a connection. */
    ghost method Record(c: ClientId, h: History)
      requires Valid() && c in table
      modifies this`peers, repr
      ensures Valid()
      ensures c in old(View()).peers && View() == old(View()).With(c, old(View()).peers[c].(hist := h))
    {
      hide Valid, AllBut, Client.View, View, State.With;
      ghost var s := View();
      Mirror(c);
      table[c].Record(h);
      OnlyOneChanged(c);
      Sync(c);
    }

    method SetReplay(c: ClientId, r: Option<Replay>)
      requires Valid() && c in table
      modifies this`peers, repr
      ensures Valid()
      ensures c in old(View()).peers && View() == old(View()).With(c, old(View()).peers[c].(replay := r))
    {
      hide Valid, AllBut, Client.View, View, State.With;
      ghost var s := View();
      Mirror(c);
      table[c].SetReplay(r);
      OnlyOneChanged(c);
      Sync(c);
    }

    method StopReading(c: ClientId)
      requires Valid() && c in table
      modifies this`peers, repr
      ensures Valid()
      ensures c in old(View()).peers && View() == old(View()).With(c, old(View()).peers[c].(reading := false))
    {
      hide Valid, AllBut, Client.View, View, State.With;
      ghost var s := View();
      Mirror(c);
      table[c].StopReading();
      OnlyOneChanged(c);
      Sync(c);
    }

    method StopWriting(c: ClientId)
      requires Valid() && c in table
      modifies this`peers, repr
      ensures Valid()
      ensures c in old(View()).peers && View() == old(View()).With(c, old(View()).peers[c].(writing := false))
    {
      hide Valid, AllBut, Client.View, View, State.With;
      ghost var s := View();
      Mirror(c);
      table[c].StopWriting();
      OnlyOneChanged(c);
      Sync(c);
    }

    method SendNextCached(c: ClientId) returns (ok: bool)
      requires Valid() && c in table && table[c].replay.Some?
      requires table[c].replay.value.rest != [] && table[c].hist.replays != []
      modifies this`peers, this`abandoned, repr
      ensures Valid()
      ensures var s := old(View());
              && c in s.peers && s.peers[c].replay.Some? && s.peers[c].replay.value.rest != [] &&
                s.peers[c].hist.replays != []
              && (ok ==> s.peers[c].Room())
              && View() == AdvanceReplay(s, c, ok)
    {
      hide Valid, AllBut, Client.View, Peer.Advance, Peer.Room, View;
      Mirror(c);
      ghost var s := View();
      ok := table[c].SendNextCached();
      OnlyOneChanged(c);
      Sync(c);
      GivesUp(if ok then multiset{} else multiset{Request(Some(c), s.peers[c].replay.value.original)});
    }

    method WriteHead(c: ClientId) returns (ok: bool, ghost n: nat)
      requires Valid() && c in table && table[c].queue != []
      modifies this`peers, repr
      ensures Valid()
      ensures var s := old(View());
              && c in s.peers && s.peers[c].queue != [] && ok == s.peers[c].Writes(ok)
              && View() == s.With(c, s.peers[c].Drained(ok, n))
    {
      hide Valid, AllBut, Client.View, Peer.Drained, Peer.Writes, View, State.With;
      Mirror(c);
      ghost var s := View();
      ok, n := table[c].WriteNext();
      OnlyOneChanged(c);
      Sync(c);
    }

    /** Client.enqueue, called on behalf of the broker. */
    method Offer(c: ClientId, payload: Payload, ghost o: Origin) returns (ok: bool)
      requires Valid() && c in table
      modifies this`peers, repr
      ensures Valid()
      ensures c in old(View()).peers && ok == (!old(View()).peers[c].closed && old(View()).peers[c].Room())
      ensures var pr := old(View()).peers[c];
              View() == old(View()).With(c, if ok then pr.Accept(payload, o) else pr.Refuse(payload))
    {
      hide Valid, AllBut, Client.View, Peer.Accept, Peer.Refuse, Peer.Room, View, State.With;
      ghost var s := View();
      Mirror(c);
      ok := table[c].Enqueue(payload, o);
      OnlyOneChanged(c);
      Sync(c);
    }

    /** Client.close, called on behalf of the broker. */
    method Shut(c: ClientId)
      requires Valid() && c in table
      modifies this`peers, repr
      ensures Valid()
      ensures c in old(View()).peers && View() == old(View()).With(c, old(View()).peers[c].Close())
    {
      hide Valid, AllBut, Client.View, Peer.Close, View, State.With;
      ghost var s := View();
      Mirror(c);
      table[c].Close();
      OnlyOneChanged(c);
      Sync(c);
    }

    method DropPendingForClient(c: ClientId)
      requires Valid()
      modifies this`pendingConfig
      ensures Valid()
      ensures View() == old(View()).(pending := DropOwner(old(View()).pending, c))
    {
      hide Apart, Mirrored;
      ghost var m := pendingConfig;
      var todo := pendingConfig.Keys;
      while todo != {}
        invariant Valid() && todo <= m.Keys
        invariant pendingConfig == map n | n in m && (n in todo || m[n].owner != Some(c)) :: m[n]
        decreases todo
      {
        if forall n :: n !in todo { NothingIn(todo); }
        var n :| n in todo;
        if pendingConfig[n].owner == Some(c) {
          pendingConfig := pendingConfig - {n};
        }
        todo := todo - {n};
      }
    }

    /** The clients set and the primary as removeClient leaves them. */
    method Forget(c: ClientId) returns (ghost promo: ClientId)
      requires Valid()
      modifies this`clients, this`primary
      ensures Valid()
      ensures var s, rest := old(View()), old(View()).clients - {c};
              View() == s.(clients := rest, primary := if s.primary == Some(c) then Promote(rest, promo) else s.primary)
    {
      hide Apart, Mirrored;
      promo := 0;
      clients := clients - {c};
      if primary == Some(c) {
        primary := None;
        if clients != {} {
          if forall d :: d !in clients { NothingIn(clients); }
          var candidate :| candidate in clients;
          primary := Some(candidate);
          promo := candidate;
        }
      }
    }

    method RemoveClient(c: ClientId) returns (ghost promo: ClientId)
      requires Valid() && c in table
      modifies this`clients, this`primary, this`pendingConfig, this`abandoned, this`peers, repr
      ensures Valid()
      ensures c in old(View()).peers && View() == Remove(old(View()), c, promo)
    {
      hide Promote, Valid, View, DropOwner, RequestsOf, Owned;
      ghost var s := View();
      promo := Forget(c);
      GivesUp(RequestsOf(Owned(s.pending, c)));
      DropPendingForClient(c);
      Shut(c);
    }

    method SendToClient(c: ClientId, payload: Payload, ghost o: Origin) returns (ghost promo: ClientId)
      requires Valid() && c in table
      modifies this`clients, this`primary, this`pendingConfig, this`abandoned, this`peers, repr
      ensures Valid()
      ensures c in old(View()).peers && View() == Send(old(View()), c, payload, o, promo)
    {
      hide Remove, Valid, View, Peer.Accept;
      var wasClosed := table[c].closed;
      Mirror(c);
      promo := 0;
      var ok := Offer(c, payload, o);
      if !ok && !wasClosed {
        promo := RemoveClient(c);
      }
    }

    /** Any loop over the clients visits known connections. */
    lemma KnownClients()
      requires Valid()
      ensures View().clients == clients && View().peers.Keys == table.Keys && clients <= table.Keys && this !in repr
    {
    }

    method BroadcastExcept(payload: Payload, except: Option<ClientId>, ghost o: Origin) returns (ghost slots: seq<Slot>)
      requires Valid()
      modifies this`clients, this`primary, this`pendingConfig, this`abandoned, this`peers, repr
      ensures Valid()
      ensures Enumerates(slots, old(View()).clients) && Known(slots, old(View()).peers)
      ensures View() == Broadcast(old(View()), payload, o, slots, except)
    {
      hide View, Valid, Broadcast, Enumerates;
      KnownClients();
      slots := [];
      ghost var s := View();
      NoTurns(s, payload, o, except);
      var todo := clients;
      while todo != {}
        invariant Valid() && todo <= s.clients
        invariant Enumerates(slots, s.clients - todo) && Known(slots, s.peers)
        invariant View() == Broadcast(s, payload, o, slots, except)
        decreases todo
      {
        if forall c :: c !in todo { NothingIn(todo); }
        var c :| c in todo;
        ghost var promo := 0;
        KnownClients();
        if Some(c) != except {
          promo := SendToClient(c, payload, o);
        }
        OneTurn(s, payload, o, slots, Slot(c, promo), except);
        slots := VisitOne(slots, s.clients, todo, Slot(c, promo));
        todo := todo - {c};
      }
      assert s.clients - todo == s.clients;
    }

    // ----- the serial link and the table

    method WriteSerial(payload: Payload) returns (ok: bool)
      requires Valid()
      modifies serial, this`trace
      ensures Valid()
      ensures ok ==> CanWrite(old(View()), payload, true) && View() == Put(old(View()), payload)
      ensures !ok ==> View() == old(View())
    {
      hide Apart, Mirrored;
      if done {
        return false;
      }
      ok := Frame.WriteFrame(serial, payload);
      if ok {
        trace := trace + [Sent(payload, pendingConfig)];
      }
    }

    /** A write whose failure is passed to fail. */
    method WriteOrFail(payload: Payload) returns (ok: bool)
      requires Valid()
      modifies serial, this`trace, this`done
      ensures Valid()
      ensures ok == CanWrite(old(View()), payload, ok)
      ensures View() == PutOrFail(old(View()), payload, ok)
    {
      hide Apart, Mirrored;
      ok := WriteSerial(payload);
      if !ok {
        done := true;
      }
    }

    /** A write that only some clients may cause. */
    method WriteIf(allowed: bool, payload: Payload) returns (ok: bool)
      requires Valid()
      modifies serial, this`trace, this`done
      ensures Valid()
      ensures View() == if allowed then PutOrFail(old(View()), payload, ok) else old(View())
    {
      hide Valid, View, PutOrFail, CanWrite;
      ok := true;
      if allowed {
        ok := WriteOrFail(payload);
      }
    }

    method ReserveConfigRequest(owner: Option<ClientId>, original: u32) returns (id: u32)
      requires Valid() && |View().pending| < 0xFFFF_FFFF
      modifies this`pendingConfig
      ensures Valid()
      ensures FreshNonce(old(View()).pending, id)
      ensures View() == old(View()).(pending := old(View()).pending[id := Request(owner, original)])
    {
      hide Apart, Mirrored;
      FreeNonce(pendingConfig);
      id :| id != 0 && id !in pendingConfig;
      pendingConfig := pendingConfig[id := Request(owner, original)];
    }

    method TakeConfigRequest(id: u32) returns (req: Option<Request>)
      requires Valid()
      modifies this`pendingConfig
      ensures Valid()
      ensures req == if id in old(View()).pending then Some(old(View()).pending[id]) else None
      ensures View() == old(View()).(pending := old(View()).pending - {id})
    {
      hide Apart, Mirrored;
      if id !in pendingConfig {
        assert pendingConfig == pendingConfig - {id};
        return None;
      }
      req := Some(pendingConfig[id]);
      pendingConfig := pendingConfig - {id};
    }

    method HandleConfigComplete(id: u32) returns (ghost promo: ClientId)
      requires Valid()
      modifies this`clients, this`primary, this`pendingConfig, this`abandoned, this`peers, repr
      ensures Valid()
      ensures View() == Complete(codec, old(View()), id, promo)
    {
      hide Valid, View, Send;
      KnownClients();
      promo := 0;
      ghost var s := View();
      var req := TakeConfigRequest(id);
      if req == None {
        assert s.pending - {id} == s.pending;
        return;
      }
      GivesUp(if req.value.owner == None || Accepts(s, req.value.owner.value) then multiset{} else multiset{req.value});
      assert View() == TakeRequest(s, id);
      if req.value.owner == None || req.value.owner.value !in table {
        return;
      }
      promo := SendToClient(req.value.owner.value, codec.marshalComplete(req.value.original), Answer);
    }

    /** The start of handleRebooted: the cache and the table are emptied. */
    method ResetConfig() returns (m: Pending)
      requires Valid()
      modifies this`pendingConfig, cache
      ensures Valid()
      ensures m == old(View()).pending && 0 !in m
      ensures View() == old(View()).(cache := EMPTY, pending := map[])
    {
      hide Apart, Mirrored;
      cache.Reset();
      m := pendingConfig;
      pendingConfig := map[];
    }

    method OwnerClosed(req: Request) returns (closed: bool)
      requires Valid()
      ensures closed == ClosedOwner(View(), req)
    {
      closed := req.owner.Some? && req.owner.value in table && table[req.owner.value].closed;
    }

    /** The loop of handleRebooted. */
    method ReissuePending() returns (ghost rs: seq<Reissue>)
      requires Valid()
      modifies this`pendingConfig, this`trace, this`done, cache, serial
      ensures Valid()
      ensures Reissues(codec, old(View()), rs)
      ensures forall i :: 0 <= i < |rs| ==> rs[i].key in old(View()).pending
      ensures View() == RebootRun(codec, old(View()), rs).state
    {
      hide Valid, View, CanWrite, PutOrFail, Reissuing, Reissues, RebootRun, ClosedOwner;
      rs := [];
      ghost var s := View();
      var m := ResetConfig();
      ghost var s0 := View();
      ReissuingStarts(codec, s0, m);
      var todo := m.Keys;
      while todo != {}
        invariant Valid() && Reissuing(codec, s0, m, rs, View(), todo)
        decreases todo
      {
        if forall n :: n !in todo { NothingIn(todo); }
        var n :| n in todo;
        ReissuingBounds(codec, s0, m, rs, View(), todo, n);
        var req := m[n];
        todo := todo - {n};
        var skip := OwnerClosed(req);
        ghost var before := View();
        if skip {
          ReissuingSkips(codec, s0, m, rs, before, todo, n);
          continue;
        }
        var newID := ReserveConfigRequest(req.owner, req.original);
        var ok := WriteOrFail(Want(codec, newID));
        ghost var r := Reissue(n, newID, ok);
        if !ok {
          ReissuingHalts(codec, s, m, rs, before, todo, r);
          rs := rs + [r];
          return;
        }
        ReissuingGoesOn(codec, s0, m, rs, before, todo, r);
        rs := rs + [r];
      }
      ReissuingEnds(codec, s, m, rs, View());
    }

    method HandleRebooted() returns (ghost rs: seq<Reissue>)
      requires Valid()
      modifies this`pendingConfig, this`abandoned, this`trace, this`done, cache, serial
      ensures Valid()
      ensures Reissues(codec, old(View()), rs)
      ensures forall i :: 0 <= i < |rs| ==> rs[i].key in old(View()).pending
      ensures View() == Reboot(codec, old(View()), rs)
    {
      hide Valid, View, Reissues, RebootRun, RequestsOf;
      ghost var s := View();
      rs := ReissuePending();
      GivesUp(RequestsOf(s.pending) - RequestsOf(View().pending));
    }

    // ----- packets

    /** The sweep of noteOutboundPacket: deleting while iterating. */
    method SweepOutbound()
      requires Valid()
      modifies this`outboundByPacket
      ensures Valid()
      ensures View() == old(View()).(outbound := Unexpired(old(View())))
    {
      hide Apart, Mirrored;
      ghost var m := outboundByPacket;
      var todo := outboundByPacket.Keys;
      while todo != {}
        invariant Valid() && todo <= m.Keys
        invariant outboundByPacket == map id | id in m && (id in todo || now <= m[id].until) :: m[id]
        decreases todo
      {
        if forall id :: id !in todo { NothingIn(todo); }
        var id :| id in todo;
        if now > outboundByPacket[id].until {
          outboundByPacket := outboundByPacket - {id};
        }
        todo := todo - {id};
      }
    }

    method EnterOutbound(c: ClientId, id: u32)
      requires Valid()
      modifies this`outboundByPacket
      ensures Valid()
      ensures var s := old(View()); View() == s.(outbound := s.outbound[id := Echo(c, s.now + ECHO_SUPPRESS)])
    {
      hide Apart, Mirrored;
      outboundByPacket := outboundByPacket[id := Echo(c, now + ECHO_SUPPRESS)];
    }

    method NoteOutboundPacket(c: ClientId, p: MeshPacket)
      requires Valid()
      modifies this`outboundByPacket
      ensures Valid()
      ensures View() == Note(old(View()), c, p)
    {
      hide Valid, View, Unexpired;
      if p.id == 0 {
        return;
      }
      SweepOutbound();
      EnterOutbound(c, p.id);
    }

    method ConsumeOutboundOrigin(p: MeshPacket) returns (origin: Option<ClientId>)
      requires Valid()
      modifies this`outboundByPacket
      ensures Valid()
      ensures origin == OriginOf(old(View()), p)
      ensures View() == Consume(old(View()), p)
    {
      if p.id == 0 {
        return None;
      }
      if p.id !in outboundByPacket {
        assert outboundByPacket - {p.id} == outboundByPacket;
        return None;
      }
      var entry := outboundByPacket[p.id];
      outboundByPacket := outboundByPacket - {p.id};
      if now > entry.until || (entry.client in table && table[entry.client].closed) {
        return None;
      }
      origin := Some(entry.client);
    }

    method CannedWaiter(id: u32) returns (f: Option<nat>)
      requires Valid()
      ensures f == if id in View().canned.waiters then Some(View().canned.waiters[id]) else None
    {
      f := if id in cannedWaiters then Some(cannedWaiters[id]) else None;
    }

    /** The non-blocking send on a waiter's channel, which has room for one list. */
    method Post(f: nat, msgs: seq<string>)
      requires Valid()
      modifies this`cannedFetches
      ensures Valid()
      ensures View() == Posted(old(View()), f, msgs)
    {
      hide Apart, Mirrored;
      if f in cannedFetches && cannedFetches[f].box == None {
        cannedFetches := cannedFetches[f := cannedFetches[f].(box := Some(msgs))];
      }
    }

    method StoreCannedCache(msgs: seq<string>)
      requires Valid()
      modifies this`cannedCache, this`cannedCacheAt
      ensures Valid()
      ensures View() == old(View()).(canned := old(View()).canned.(cache := msgs, cacheAt := old(View()).now))
    {
      hide Apart, Mirrored;
      cannedCache, cannedCacheAt := msgs, now;
    }

    ghost method RecordTaken(id: u32, raw: string, call: nat)
      requires Valid()
      modifies this`taken
      ensures Valid()
      ensures View() == old(View()).(taken := old(View()).taken + [Taken(id, raw, old(View()).now, call)])
    {
      hide Apart, Mirrored;
      taken := taken + [Taken(id, raw, now, call)];
    }

    method TryDeliverCanned(p: MeshPacket) returns (delivered: bool)
      requires Valid()
      modifies this`cannedFetches, this`cannedCache, this`cannedCacheAt, this`taken
      ensures Valid()
      ensures delivered == WaitedFor(codec, old(View()), p)
      ensures View() == if delivered then TakeCanned(codec, old(View()), p) else old(View())
    {
      hide Valid, View, CannedMessages.Parse, Posted;
      var raw := codec.CannedReply(p);
      var f := CannedWaiter(p.id);
      if raw == None || f == None {
        return false;
      }
      ghost var s := View();
      var msgs := CannedMessages.ParseCannedMessages(raw.value);
      Post(f.value, msgs);
      PostedFrame(s, f.value, msgs);
      StoreCannedCache(msgs);
      RecordTaken(p.id, raw.value, f.value);
      delivered := true;
    }

    method RouteRadioPacket(p: MeshPacket, payload: Payload) returns (ghost slots: seq<Slot>, ghost promo: ClientId)
      requires Valid()
      modifies this`clients, this`primary, this`pendingConfig, this`abandoned, this`outboundByPacket
      modifies this`cannedFetches, this`cannedCache, this`cannedCacheAt, this`taken, this`peers, repr
      ensures Valid()
      ensures Enumerates(slots, old(View()).clients) && Known(slots, old(View()).peers)
      ensures View() == RoutePacket(codec, old(View()), p, payload, slots, promo)
    {
      hide Valid, View, Send, Broadcast, WaitedFor, TakeCanned, OriginOf, Enumerates;
      KnownClients();
      slots, promo := KnownEnumeration(View()), 0;
      var delivered := TryDeliverCanned(p);
      if delivered {
        return;
      }
      var origin := ConsumeOutboundOrigin(p);
      if origin == None {
        slots := BroadcastExcept(payload, None, Live);
      } else if !SuppressesOriginEcho(p) && origin.value in table {
        promo := SendToClient(origin.value, payload, Reply);
      }
    }

    // ----- one frame from the radio

    /** The cache update of readSerial. */
    method LogFrame(m: FromRadio, payload: Payload)
      requires Valid()
      modifies this`radio, cache
      ensures Valid()
      ensures var s := old(View()); View() == s.(cache := s.cache.Updated(m, payload), radio := s.radio + [payload])
    {
      hide Apart, Mirrored, Cache.Updated;
      cache.Update(m, payload);
      radio := radio + [payload];
    }

    method ProcessRadioPayload(payload: Payload)
      returns (ghost rs: seq<Reissue>, ghost slots: seq<Slot>, ghost promo: ClientId)
      requires Valid()
      modifies this`clients, this`primary, this`pendingConfig, this`abandoned, this`outboundByPacket
      modifies this`trace, this`done, this`radio
      modifies this`cannedFetches, this`cannedCache, this`cannedCacheAt, this`taken, this`peers, repr, cache, serial
      ensures Valid()
      ensures Enumerates(slots, old(View()).clients) && Known(slots, old(View()).peers)
      ensures forall i :: 0 <= i < |rs| ==> rs[i].key in old(View()).pending
      ensures Announces(codec, payload) ==> Reissues(codec, old(View()).(radio := old(View()).radio + [payload]), rs)
      ensures View() == FromDevice(codec, old(View()), payload, rs, slots, promo)
    {
      hide Valid, View, Complete, Broadcast, RoutePacket, Reboot, Reissues, Enumerates, FromDevice, Announces;
      KnownClients();
      ghost var s := View();
      rs, slots, promo := [], KnownEnumeration(s), 0;
      var msg := codec.parseFrom(payload);
      if msg == None {
        DeviceNoise(codec, s, payload, rs, slots, promo);
        return;
      }
      LogFrame(msg.value, payload);
      match msg.value {
        case ConfigComplete(id) =>
          promo := HandleConfigComplete(id);
          DeviceComplete(codec, s, payload, id, rs, slots, promo);
        case Rebooted(b) =>
          rs := HandleRebooted();
          DeviceReboots(codec, s, payload, b, rs, slots, promo);
        case Packet(p) =>
          slots, promo := RouteRadioPacket(p, payload);
          DevicePacket(codec, s, payload, p, rs, slots, promo);
        case _ =>
          slots := BroadcastExcept(payload, None, Live);
          DeviceBroadcast(codec, s, payload, msg.value, rs, slots, promo);
      }
    }

    /** One iteration of readSerial on a payload that ReadFrame returned. */
    method HandleRadioPayload(payload: Payload) returns (ghost e: Event)
      requires Valid() && payload != []
      modifies this`clients, this`primary, this`pendingConfig, this`abandoned, this`outboundByPacket
      modifies this`trace, this`done, this`radio
      modifies this`cannedFetches, this`cannedCache, this`cannedCacheAt, this`taken, this`peers, repr, cache, serial
      ensures Valid()
      ensures e.RadioFrame? && e.payload == payload
      ensures Steps(codec, old(View()), e, View())
    {
      hide Valid, View, FromDevice, Reissues, Enumerates, Announces, Steps;
      ghost var s := View();
      ghost var rs, slots, promo;
      rs, slots, promo := ProcessRadioPayload(payload);
      e := RadioFrame(payload, rs, slots, promo);
      RadioFrameSteps(codec, s, e);
    }

    /** One turn of the loop of readSerial; `got` is the frame handled, if there was one. */
    method SerialTurn(r: Frame.Reader) returns (more: bool, ghost got: seq<Payload>, ghost e: Event)
      requires Valid() && r !in repr
      modifies this`clients, this`primary, this`pendingConfig, this`abandoned, this`outboundByPacket
      modifies this`trace, this`done, this`radio
      modifies this`cannedFetches, this`cannedCache, this`cannedCacheAt, this`taken, this`peers, repr, cache, serial, r
      ensures Valid()
      ensures !more ==> View().down || Stream.Payloads(Stream.Decode(old(r.rest))) == []
      ensures more ==> |r.rest| < |old(r.rest)|
      ensures more ==> got + Stream.Payloads(Stream.Decode(r.rest)) == Stream.Payloads(Stream.Decode(old(r.rest)))
      ensures got == [] ==> View() == old(View())
      ensures got != [] ==> more && e.RadioFrame? && got == [e.payload] && Steps(codec, old(View()), e, View())
    {
      hide Valid, View, Steps, Frame.Next, Stream.Decode, Stream.Payloads;
      more, got, e := false, [], Failing;
      var stopped := IsDone();
      if stopped {
        return;
      }
      Stream.Progress(r.rest);
      Stream.OneRead(r.rest);
      var read := Frame.ReadFrame(r);
      match read {
        case End =>
        case Invalid =>
          more := true;
        case Good(payload) =>
          more, got := true, [payload];
          e := HandleRadioPayload(payload);
      }
    }

    /** readSerial on what the link delivers before its read error. The frames handled are
        those that the bytes decode to, in order, and all of them unless the link is taken
        down; invalid headers are skipped. */
    method ReadSerial(r: Frame.Reader) returns (ghost es: seq<Event>, ghost frames: seq<Payload>)
      requires Valid() && r !in repr
      modifies this`clients, this`primary, this`pendingConfig, this`abandoned, this`outboundByPacket
      modifies this`trace, this`done, this`radio
      modifies this`cannedFetches, this`cannedCache, this`cannedCacheAt, this`taken, this`peers, repr, cache, serial, r
      ensures Valid()
      ensures Feasible(codec, old(View()), es) && View() == After(codec, old(View()), es)
      ensures Handles(es, frames) && frames <= Stream.Payloads(Stream.Decode(old(r.rest)))
      ensures !View().down ==> frames == Stream.Payloads(Stream.Decode(old(r.rest)))
    {
      hide *;
      KnownClients();
      ghost var s, whole := View(), Stream.Payloads(Stream.Decode(r.rest));
      es, frames := [], [];
      NoEvents(codec, s);
      var more := true;
      while more
        invariant Valid() && r !in repr
        invariant frames <= whole
        invariant more ==> frames + Stream.Payloads(Stream.Decode(r.rest)) == whole
        invariant !more && !View().down ==> frames == whole
        invariant Feasible(codec, s, es) && View() == After(codec, s, es) && Handles(es, frames)
        decreases more, |r.rest|
      {
        ghost var left := Stream.Payloads(Stream.Decode(r.rest));
        ghost var got, e;
        more, got, e := SerialTurn(r);
        TakeOff(frames, got, Stream.Payloads(Stream.Decode(r.rest)), left, whole);
        if got != [] {
          OneMoreEvent(codec, s, es, frames, e, View());
          es, frames := es + [e], frames + [e.payload];
        }
      }
    }

    // ----- one frame from a client

    /** The books of a client that asks the radio. */
    ghost method RecordAsked(c: ClientId, x: u32)
      requires Valid() && c in table
      modifies this`peers, repr
      ensures Valid()
      ensures var s := old(View());
              && c in s.peers
              && (var h := s.peers[c].hist;
                  View() == s.With(c,
                    s.peers[c].(hist := h.(asked := h.asked + multiset{x},
                      retried := h.retried + Originals(s.pending, c)))))
    {
      hide Valid, View, Client.View, Originals;
      Mirror(c);
      var s := View();
      var h := s.peers[c].hist;
      Record(c, h.(asked := h.asked + multiset{x}, retried := h.retried + Originals(s.pending, c)));
    }

    method AskTheRadio(c: ClientId, x: u32) returns (nonce: u32, ok: bool)
      requires Valid() && c in table && |View().pending| < 0xFFFF_FFFF
      modifies this`pendingConfig, this`trace, this`done, this`peers, serial, repr
      ensures Valid()
      ensures c in old(View()).peers && FreshNonce(DropOwner(old(View()).pending, c), nonce)
      ensures View() == AskRadio(codec, old(View()), c, x, nonce, ok)
    {
      hide Valid, View, Originals, DropOwner, FreshNonce, PutOrFail, CanWrite;
      DroppedIsSmaller(View().pending, c);
      RecordAsked(c, x);
      DropPendingForClient(c);
      nonce := ReserveConfigRequest(Some(c), x);
      ok := WriteOrFail(Want(codec, nonce));
    }

    method TakeSnapshot() returns (snap: CacheSnapshot)
      requires Valid()
      ensures snap == View().cache.Snapshot()
    {
      snap := cache.Snapshot();
    }

    /** sendCachedConfig up to its first send: the frames it is going to send. */
    method StartCachedConfig(c: ClientId, x: u32)
      requires Valid() && c in table
      modifies this`peers, repr
      ensures Valid()
      ensures c in old(View()).peers && View() == BeginReplay(codec, old(View()), c, x)
    {
      hide Valid, View, Client.View, Cache.Snapshot, CacheSnapshot.Frames, BeginReplay;
      Mirror(c);
      ghost var s := View();
      BeginReplayIs(codec, s, c, x);
      var snap := TakeSnapshot();
      var rest := snap.Frames() + [codec.marshalComplete(x)];
      SetReplay(c, Some(Replay(x, rest)));
      ghost var h := s.peers[c].hist;
      Record(c, h.(asked := h.asked + multiset{x}, replays := h.replays + [Cause(x, s.cache)]));
    }

    method ForwardPacket(c: ClientId, p: MeshPacket) returns (ok: bool, ghost slots: seq<Slot>)
      requires Valid()
      modifies this`clients, this`primary, this`pendingConfig, this`abandoned, this`outboundByPacket
      modifies this`trace, this`done, this`peers, serial, repr
      ensures Valid()
      ensures Enumerates(slots, old(View()).clients) && Known(slots, old(View()).peers)
      ensures View() == Forward(codec, old(View()), c, p, ok, slots)
    {
      hide Valid, View, Broadcast, Enumerates;
      KnownClients();
      slots := KnownEnumeration(View());
      ok := WriteOrFail(codec.marshalTo(SendPacket(p)));
      if !ok {
        return;
      }
      NoteOutboundPacket(c, p);
      slots := BroadcastExcept(codec.marshalPacket(p), Some(c), Synthetic);
    }

    method CacheReady() returns (ready: bool)
      requires Valid()
      ensures ready == View().cache.Ready()
    {
      ready := cache.Ready();
    }

    /** isPrimary, and whether the client may write to the radio. */
    method Rights(c: ClientId) returns (isPrimary: bool, mayWrite: bool)
      requires Valid()
      ensures isPrimary == (View().primary == Some(c)) && mayWrite == MayWrite(View(), c)
    {
      isPrimary := primary == Some(c);
      mayWrite := isPrimary || !readOnlyClients;
    }

    /** The branch of handleClientPayload for WantConfigId. */
    method AnswerWantConfig(c: ClientId, x: u32) returns (nonce: u32, ok: bool)
      requires Valid() && c in table && |View().pending| < 0xFFFF_FFFF
      modifies this`pendingConfig, this`trace, this`done, this`peers, serial, repr
      ensures Valid()
      ensures c in old(View()).peers
      ensures !old(View()).cache.Ready() ==> FreshNonce(DropOwner(old(View()).pending, c), nonce)
      ensures var s := old(View());
              View() == if s.cache.Ready() then BeginReplay(codec, s, c, x) else AskRadio(codec, s, c, x, nonce, ok)
    {
      hide Valid, View, AskRadio, BeginReplay, FreshNonce, DropOwner, Cache.Ready;
      var ready := CacheReady();
      nonce, ok := 0, true;
      if !ready {
        nonce, ok := AskTheRadio(c, x);
      } else {
        StartCachedConfig(c, x);
      }
    }

    method ProcessClientPayload(c: ClientId, payload: Payload)
      returns (ghost nonce: u32, ghost ok: bool, ghost slots: seq<Slot>, ghost promo: ClientId)
      requires Valid() && c in table && |View().pending| < 0xFFFF_FFFF
      modifies this`clients, this`primary, this`pendingConfig, this`abandoned, this`outboundByPacket
      modifies this`trace, this`done, this`peers, serial, repr
      ensures Valid()
      ensures c in old(View()).peers && Enumerates(slots, old(View()).clients) && Known(slots, old(View()).peers)
      ensures NeedsNonce(codec, old(View()), payload) ==> FreshNonce(DropOwner(old(View()).pending, c), nonce)
      ensures View() == FromClient(codec, old(View()), c, payload, nonce, ok, slots, promo)
    {
      hide Valid, View, Forward, AskRadio, BeginReplay, Remove, PutOrFail, Enumerates, MayWrite, FreshNonce, DropOwner,
        CanWrite;
      hide Cache.Ready, FromClient, NeedsNonce;
      KnownClients();
      ghost var s := View();
      nonce, ok, slots, promo := 0, true, KnownEnumeration(s), 0;
      var isPrimary, mayWrite := Rights(c);
      match codec.parseTo(payload) {
        case None =>
          ok := WriteIf(isPrimary, payload);
          ClientNoise(codec, s, c, payload, nonce, ok, slots, promo);
        case Some(WantConfig(x)) =>
          nonce, ok := AnswerWantConfig(c, x);
          ClientWants(codec, s, c, payload, x, nonce, ok, slots, promo);
        case Some(Disconnect) =>
          promo := RemoveClient(c);
          ClientLeaves(codec, s, c, payload, nonce, ok, slots, promo);
        case Some(SendPacket(p)) =>
          if mayWrite {
            ok, slots := ForwardPacket(c, p);
          }
          ClientPacket(codec, s, c, payload, p, nonce, ok, slots, promo);
        case Some(OtherTo(body)) =>
          ok := WriteIf(mayWrite, codec.marshalTo(OtherTo(body)));
          ClientOther(codec, s, c, payload, body, nonce, ok, slots, promo);
      }
    }

    /** handleClientPayload, called by the read loop of client c. */
    method HandleClientPayload(c: ClientId, payload: Payload) returns (ghost e: Event)
      requires Valid() && c in table && payload != []
      requires table[c].reading && table[c].replay == None
      requires |pendingConfig| < 0xFFFF_FFFF
      modifies this`clients, this`primary, this`pendingConfig, this`abandoned, this`outboundByPacket
      modifies this`trace, this`done, this`peers, serial, repr
      ensures Valid()
      ensures e.ClientFrame? && e.c == c && e.payload == payload
      ensures Steps(codec, old(View()), e, View())
    {
      hide Valid, View, FromClient, Enumerates, NeedsNonce, FreshNonce, DropOwner, Steps;
      Mirror(c);
      ghost var s := View();
      ghost var nonce: u32, ok, slots, promo;
      nonce, ok, slots, promo := ProcessClientPayload(c, payload);
      e := ClientFrame(c, payload, nonce, ok, slots, promo);
      ClientFrameSteps(codec, s, e);
    }

    // ----- connections

    /** The table takes in a new connection. */
    method Enlist(c: ClientId, cl: Client)
      requires Valid() && c !in table && cl.id == c && cl.conn.name == c && serial != cl.conn
      modifies this`table, this`repr
      ensures AllBut(c) && View() == old(View())
      ensures table == old(table)[c := cl] && repr == old(repr) + {cl, cl.conn}
    {
      hide Client.View, View, Separate;
      SeparateWith(table, repr, c, cl);
      table := table[c := cl];
      repr := repr + {cl, cl.conn};
    }

    /** And so does its mirror. */
    method Admit(c: ClientId, cl: Client)
      requires Valid() && c !in table && cl.id == c && cl.conn.name == c && serial != cl.conn
      modifies this`table, this`peers, this`repr
      ensures Valid() && table == old(table)[c := cl] && repr == old(repr) + {cl, cl.conn}
      ensures View() == old(View()).With(c, cl.View())
    {
      hide Client.View, View, Valid, AllBut, State.With;
      Enlist(c, cl);
      Sync(c);
    }

    /** The clients set and the primary as AddClient leaves them. */
    method Enter(c: ClientId)
      requires Valid() && c in table
      modifies this`clients, this`primary
      ensures Valid()
      ensures var s := old(View());
              View() ==
              s.(clients := s.clients + {c}, primary := if s.primary == None then Some(c) else s.primary)
    {
      hide Apart, Mirrored;
      clients := clients + {c};
      if primary == None {
        primary := Some(c);
      }
    }

    method AddClient(c: ClientId) returns (ghost e: Event)
      requires Valid() && c !in table
      modifies this`table, this`clients, this`primary, this`peers, this`repr
      ensures Valid() && table.Keys == old(table.Keys) + {c} && repr == old(repr) + {table[c], table[c].conn} &&
              fresh(table[c]) && fresh(table[c].conn)
      ensures e == Connecting(c)
      ensures Steps(codec, old(View()), e, View())
    {
      hide Valid, View, Client.View, Steps;
      KnownClients();
      e := Connecting(c);
      ghost var s := View();
      var cl := new Client(c, |View().radio|);
      Admit(c, cl);
      Enter(c);
      ConnectingSteps(codec, s, c);
    }

    /** One sendToClientBlocking of the cached reply that client c's read loop is sending. */
    method ReplayTurn(c: ClientId) returns (ghost e: Event)
      requires Valid() && c in table && table[c].replay.Some?
      requires table[c].replay.value.rest != [] && table[c].hist.replays != []
      modifies this`clients, this`primary, this`pendingConfig, this`abandoned, this`peers, repr
      ensures Valid()
      ensures e.Replaying? && e.c == c
      ensures Steps(codec, old(View()), e, View())
    {
      hide Valid, View, Client.View, AdvanceReplay, Peer.Room, Remove, Steps;
      var wasClosed := table[c].closed;
      Mirror(c);
      ghost var s, promo := View(), 0;
      var ok := SendNextCached(c);
      if !ok && !wasClosed {
        promo := RemoveClient(c);
      }
      e := Replaying(c, ok, promo);
      ReplayingSteps(codec, s, c, ok, promo);
    }

    /** One turn of client c's write loop. */
    method WriterTurn(c: ClientId) returns (ghost e: Event)
      requires Valid() && c in table && table[c].writing && table[c].queue != []
      modifies this`clients, this`primary, this`pendingConfig, this`abandoned, this`peers, repr
      ensures Valid()
      ensures e.Writing? && e.c == c
      ensures Steps(codec, old(View()), e, View())
    {
      hide Valid, View, Client.View, Peer.Drained, Peer.Writes, Remove, Steps;
      Mirror(c);
      ghost var s, promo := View(), 0;
      var ok;
      ghost var n;
      ok, n := WriteHead(c);
      if !ok {
        promo := RemoveClient(c);
      }
      e := Writing(c, ok, n, promo);
      WritingSteps(codec, s, c, ok, n, promo);
    }

    /** The read error that ends client c's read loop. */
    method ReadLoopEnds(c: ClientId) returns (ghost e: Event)
      requires Valid() && c in table && table[c].reading && table[c].replay == None
      modifies this`clients, this`primary, this`pendingConfig, this`abandoned, this`peers, repr
      ensures Valid()
      ensures e.ReadFailed? && e.c == c
      ensures Steps(codec, old(View()), e, View())
    {
      hide Valid, View, Client.View, Remove, Steps;
      Mirror(c);
      ghost var s := View();
      StopReading(c);
      ghost var promo := RemoveClient(c);
      e := ReadFailed(c, promo);
      ReadFailedSteps(codec, s, c, promo);
    }

    /** The write loop sees b.done or c.done. */
    method WriterStops(c: ClientId, byBroker: bool) returns (ghost e: Event)
      requires Valid() && c in table && table[c].writing && (if byBroker then done else table[c].closed)
      modifies this`clients, this`primary, this`pendingConfig, this`abandoned, this`peers, repr
      ensures Valid()
      ensures e.WriterStopped? && e.c == c && e.byBroker == byBroker
      ensures Steps(codec, old(View()), e, View())
    {
      hide Valid, View, Client.View, Remove, Steps;
      Mirror(c);
      ghost var s, promo := View(), 0;
      StopWriting(c);
      if byBroker {
        promo := RemoveClient(c);
      }
      e := WriterStopped(c, byBroker, promo);
      WriterStoppedSteps(codec, s, c, byBroker, promo);
    }

    /** The search of bootstrapConfig for an entry of the broker itself. */
    method BrokerIsWaiting() returns (waiting: bool)
      requires Valid()
      ensures waiting == exists n :: n in View().pending && View().pending[n].owner == None
    {
      hide Apart, Mirrored;
      var todo := pendingConfig.Keys;
      while todo != {}
        invariant todo <= pendingConfig.Keys
        invariant forall n :: n in pendingConfig.Keys - todo ==> pendingConfig[n].owner != None
        decreases todo
      {
        if forall n :: n !in todo { NothingIn(todo); }
        var n :| n in todo;
        if pendingConfig[n].owner == None {
          assert n in View().pending;
          return true;
        }
        todo := todo - {n};
      }
      waiting := false;
    }

    method BootstrapConfig() returns (ghost e: Event)
      requires Valid() && |View().pending| < 0xFFFF_FFFF
      modifies this`pendingConfig, this`trace, this`done, serial
      ensures Valid()
      ensures e.Bootstrapping?
      ensures Steps(codec, old(View()), e, View())
    {
      hide Valid, View, PutOrFail, CanWrite, Cache.Ready, Steps;
      ghost var s := View();
      FreeNonce(s.pending);
      ghost var unused: u32 :| unused != 0 && unused !in s.pending;
      BootstrappingSteps(codec, s, unused, true);
      e := Bootstrapping(unused, true);
      var ready := CacheReady();
      if ready {
        return;
      }
      var waiting := BrokerIsWaiting();
      if waiting {
        return;
      }
      var newID := ReserveConfigRequest(None, BOOTSTRAP_ID);
      var ok := WriteOrFail(Want(codec, newID));
      BootstrappingSteps(codec, s, newID, ok);
      e := Bootstrapping(newID, ok);
    }

    method CloseAll() returns (ghost e: Event)
      requires Valid()
      modifies this`clients, this`primary, this`pendingConfig, this`abandoned, this`peers, repr
      ensures Valid()
      ensures e.Closing?
      ensures Steps(codec, old(View()), e, View())
    {
      hide View, Valid, RemoveAll, Enumerates, Steps;
      KnownClients();
      ghost var slots := [];
      ghost var s := View();
      NoTurns(s, [], Live, None);
      var todo := clients;
      while todo != {}
        invariant Valid() && todo <= s.clients
        invariant Enumerates(slots, s.clients - todo) && Known(slots, s.peers)
        invariant View() == RemoveAll(s, slots)
        decreases todo
      {
        if forall c :: c !in todo { NothingIn(todo); }
        var c :| c in todo;
        KnownClients();
        ghost var promo := RemoveClient(c);
        OneRemoval(s, slots, Slot(c, promo));
        slots := VisitOne(slots, s.clients, todo, Slot(c, promo));
        todo := todo - {c};
      }
      assert s.clients - todo == s.clients;
      e := Closing(slots);
      ClosingSteps(codec, s, slots);
    }

    method Fail() returns (ghost e: Event)
      requires Valid()
      modifies this`done
      ensures Valid() && e == Failing
      ensures Steps(codec, old(View()), e, View())
    {
      hide Apart, Mirrored, Steps;
      FailingSteps(codec, View());
      done := true;
      e := Failing;
    }

    /** Time passes. */
    method Tick(elapsed: nat) returns (ghost e: Event)
      requires Valid()
      modifies this`now
      ensures Valid() && e == Ticking(elapsed)
      ensures Steps(codec, old(View()), e, View())
    {
      hide Apart, Mirrored, Steps;
      TickingSteps(codec, View(), elapsed);
      now := now + elapsed;
      e := Ticking(elapsed);
    }

    // ----- canned messages and text

    method LocalNodeNum() returns (num: u32)
      requires Valid()
      ensures num == LocalNode(codec, View())
    {
      hide Apart, Mirrored;
      if cache.myInfo == [] {
        return 0;
      }
      match codec.parseFrom(cache.myInfo)
      case Some(MyInfo(n)) => num := n;
      case _ => num := 0;
    }

    /** cachedCanned. */
    method CachedCanned() returns (msgs: seq<string>)
      requires Valid()
      modifies this`cannedCache
      ensures Valid()
      ensures msgs == FreshCanned(old(View()).canned, old(View()).now)
      ensures View() == old(View()).(canned := old(View()).canned.(cache := msgs))
    {
      hide Apart, Mirrored;
      if cannedCache != [] && now - cannedCacheAt > CANNED_TTL {
        cannedCache := [];
      }
      msgs := cannedCache;
    }

    /** A list goes to a caller. */
    ghost method RecordServed(msgs: seq<string>, source: Source)
      requires Valid()
      modifies this`served
      ensures Valid() && View() == Serve(old(View()), msgs, source)
    {
      hide Apart, Mirrored;
      served := served + [Served(msgs, source, now)];
    }

    method RegisterCannedWait(f: nat, id: u32)
      requires Valid()
      modifies this`cannedWaiters, this`cannedFetches
      ensures Valid()
      ensures View() == Register(old(View()), f, id)
    {
      hide Apart, Mirrored;
      cannedWaiters := cannedWaiters[id := f];
      cannedFetches := cannedFetches[f := Fetch(id, None)];
    }

    method UnregisterCannedWait(f: nat) returns (box: Option<seq<string>>)
      requires Valid() && f in View().canned.fetches
      modifies this`cannedWaiters, this`cannedFetches
      ensures Valid()
      ensures box == old(View()).canned.fetches[f].box
      ensures View() == Unregister(old(View()), f)
    {
      hide Apart, Mirrored;
      box := cannedFetches[f].box;
      cannedWaiters := cannedWaiters - {cannedFetches[f].id};
      cannedFetches := cannedFetches - {f};
    }

    method IsDone() returns (d: bool)
      requires Valid()
      ensures d == View().down
    {
      d := done;
    }

    ghost method RecordCall(f: nat)
      requires Valid()
      modifies this`calls
      ensures Valid() && View() == old(View()).(calls := old(View()).calls + {f})
    {
      hide Apart, Mirrored;
      calls := calls + {f};
    }

    /** FetchCannedMessages until it waits; p is the request packet it has built. A list
        from the cache is returned at once. */
    method StartFetch(f: nat, p: MeshPacket) returns (ok: bool, cached: seq<string>)
      requires Valid()
      modifies this`cannedCache, this`cannedWaiters, this`cannedFetches, this`served, this`trace, serial
      ensures Valid()
      ensures View() == AskCanned(codec, old(View()), f, p, ok)
      ensures cached == FreshCanned(old(View()).canned, old(View()).now)
    {
      hide Valid, View, FreshCanned, LocalNode, CanWrite, Unregister;
      ok := true;
      ghost var s := View();
      cached := CachedCanned();
      if cached != [] {
        CachedIsHeld(s);
        RecordServed(cached, FromCache(s.canned.cacheAt));
        return;
      }
      var d := IsDone();
      var from := LocalNodeNum();
      SameLocalNode(codec, s, View());
      if d || from == 0 {
        return;
      }
      RegisterCannedWait(f, p.id);
      ghost var w := View();
      ok := WriteSerial(codec.marshalTo(SendPacket(p)));
      if !ok {
        NoWrite(w, codec.marshalTo(SendPacket(p)));
        var box := UnregisterCannedWait(f);
      }
    }

    method FetchCannedBegin(f: nat, p: MeshPacket) returns (cached: seq<string>, ghost e: Event)
      requires Valid() && f !in cannedFetches && f !in calls && p.id != 0
      modifies this`cannedCache, this`cannedWaiters, this`cannedFetches, this`served, this`calls, this`trace, serial
      ensures Valid()
      ensures e.Fetching? && e.f == f && e.packet == p
      ensures Steps(codec, old(View()), e, View())
      ensures cached == [] ==> View().served == old(View()).served
      ensures cached != [] ==>
              View().served == old(View()).served
                               + [Served(cached, FromCache(old(View()).canned.cacheAt), old(View()).now)]
    {
      assert f !in View().canned.fetches && f !in View().calls;
      hide Valid, View, AskCanned, FreshCanned, Steps;
      ghost var s := View();
      var ok;
      RecordCall(f);
      ok, cached := StartFetch(f, p);
      e := Fetching(f, p, ok);
      FetchingSteps(codec, s, f, p, ok);
    }

    /** The end of the wait, with the reply in the channel if `take` and there is one. */
    method FetchCannedEnd(f: nat, take: bool) returns (msgs: Option<seq<string>>, ghost e: Event)
      requires Valid() && f in View().canned.fetches
      modifies this`cannedWaiters, this`cannedFetches, this`served
      ensures Valid()
      ensures e == Fetched(f, take)
      ensures Steps(codec, old(View()), e, View())
      ensures msgs == if take && old(View()).canned.fetches[f].box != Some([])
                      then old(View()).canned.fetches[f].box else None
      ensures msgs == None ==> View().served == old(View()).served
      ensures msgs.Some? ==>
              View().served == old(View()).served
                               + [Served(msgs.value, FromReply(f, old(View()).canned.fetches[f].id), old(View()).now)]
    {
      hide Valid, View;
      e := Fetched(f, take);
      ghost var id := View().canned.fetches[f].id;
      var box := UnregisterCannedWait(f);
      msgs := None;
      if take && box.Some? && box.value != [] {
        msgs := box;
        RecordServed(box.value, FromReply(f, id));
      }
    }

    /** SendTextMessage once the text has been checked and p built from it. */
    method StartText(p: MeshPacket) returns (sent: bool, ghost slots: seq<Slot>)
      requires Valid()
      modifies this`clients, this`primary, this`pendingConfig, this`abandoned, this`trace, this`peers, serial, repr
      ensures Valid()
      ensures Enumerates(slots, old(View()).clients) && Known(slots, old(View()).peers)
      ensures View() == SendText(codec, old(View()), p, sent, slots)
    {
      hide Valid, View, LocalNode, Broadcast, Enumerates, CanWrite;
      KnownClients();
      slots, sent := KnownEnumeration(View()), false;
      NoWrite(View(), codec.marshalTo(SendPacket(p)));
      var d := IsDone();
      var from := LocalNodeNum();
      if d || from == 0 {
        return;
      }
      sent := WriteSerial(codec.marshalTo(SendPacket(p)));
      if sent {
        slots := BroadcastExcept(codec.marshalPacket(p), None, Synthetic);
      }
    }

    method SendTextMessage(p: MeshPacket) returns (sent: bool, ghost e: Event)
      requires Valid()
      modifies this`clients, this`primary, this`pendingConfig, this`abandoned, this`trace, this`peers, serial, repr
      ensures Valid()
      ensures e.Texting? && e.packet == p
      ensures Steps(codec, old(View()), e, View())
    {
      hide Valid, View, SendText, Enumerates;
      ghost var slots;
      sent, slots := StartText(p);
      e := Texting(p, sent, slots);
    }
  }
}
