/** FetchCannedMessages: what each of its steps does, and that a call which waits gets the
    reply that comes for it. */
module Fetches {
  import opened Protocol
  import opened Model
  import opened Membership
  import opened Echoes
  import opened CannedRuns
  import opened Effects
  import opened Account
  import opened Histories
  import CannedMessages

  /** A call begins: it is served the last list if that is young enough, else it waits if the
      request could be written. */
  lemma FetchBegins(cx: Codec, s: State, e: Event)
    requires CannedOK(cx, s) && Enabled(cx, s, e) && e.Fetching?
    ensures var t, list := Step(cx, s, e), LastList(s.taken, s.now);
            && t.taken == s.taken
            && t.served == s.served + (if list == [] then [] else [Served(list, FromCache(LastAt(s.taken)), s.now)])
            && (if Outgoing(cx, s, e).Some?
                then && t.canned.fetches == s.canned.fetches[e.f := Fetch(e.packet.id, None)]
                     && t.canned.waiters == s.canned.waiters[e.packet.id := e.f]
                else && t.canned.fetches == s.canned.fetches
                     && t.canned.waiters - {e.packet.id} == s.canned.waiters - {e.packet.id})
  {
    hide CannedOK, LastList, FreshCanned, NodeNumber, LocalNode, Register, Unregister;
    var called := s.(calls := s.calls + {e.f});
    var t := called.(canned := called.canned.(cache := FreshCanned(s.canned, s.now)));
    SameWords(cx, s);
    FreshIsLast(cx, s);
    SameNode(cx, s, called);
    RegisteredCall(t, e.f, e.packet.id);
    assert s.served + [] == s.served;
  }

  function LastAt(taken: seq<Taken>): int {
    if taken == [] then 0 else taken[|taken| - 1].at
  }

  lemma RegisteredCall(s: State, f: nat, id: u32)
    requires f !in s.canned.fetches
    ensures var t := Register(s, f, id);
            && t == s.(canned := t.canned)
            && t.canned.fetches == s.canned.fetches[f := Fetch(id, None)]
            && t.canned.waiters == s.canned.waiters[id := f]
            && var u := Unregister(t, f);
            && u == s.(canned := u.canned)
            && u.canned.fetches == s.canned.fetches && u.canned.waiters - {id} == s.canned.waiters - {id}
  {
    assert s.canned.fetches[f := Fetch(id, None)] - {f} == s.canned.fetches;
    assert s.canned.waiters[id := f] - {id} - {id} == s.canned.waiters - {id};
  }

  /** A call ends: it returns what its channel holds, if it takes it and it is not empty. */
  lemma FetchEnds(cx: Codec, s: State, e: Event)
    requires Enabled(cx, s, e) && e.Fetched?
    ensures var t, Fetch(id, box) := Step(cx, s, e), s.canned.fetches[e.f];
            && t.served == s.served + (if e.take && box.Some? && box.value != []
                                       then [Served(box.value, FromReply(e.f, id), s.now)] else [])
            && t.taken == s.taken
            && t.canned.fetches == s.canned.fetches - {e.f} && t.canned.waiters == s.canned.waiters - {id}
  {
    assert s.served + [] == s.served;
  }

  /** A canned reply comes for a call: it goes into the call's channel if that is empty, and to
      no client. */
  lemma ReplyComes(cx: Codec, s: State, e: Event, p: MeshPacket)
    requires CannedOK(cx, s) && Enabled(cx, s, e) && e.RadioFrame?
    requires cx.parseFrom(e.payload) == Some(Packet(p)) && Awaited(cx, s, p)
    ensures var t, f, raw := Step(cx, s, e), s.canned.waiters[p.id], cx.adminReply(p.decoded.value.payload).value;
            && f in s.canned.fetches && s.canned.fetches[f].id == p.id
            && t.taken == s.taken + [Taken(p.id, raw, s.now, f)] && t.served == s.served
            && t.peers == s.peers && t.canned.waiters == s.canned.waiters
            && t.canned.fetches ==
               if s.canned.fetches[f].box == None
               then s.canned.fetches[f := Fetch(p.id, Some(CannedMessages.Parse(raw)))] else s.canned.fetches
  {
    hide CannedOK, Enabled, Step, TakeCanned, WaitedFor, Awaited, CannedMessages.Parse;
    WaiterOfReply(cx, s, p);
    ReplyRoute(cx, s, e, p);
    TakeFills(cx, Noted(s, Packet(p), e.payload), p);
  }

  lemma ReplyRoute(cx: Codec, s: State, e: Event, p: MeshPacket)
    requires Enabled(cx, s, e) && e.RadioFrame?
    requires cx.parseFrom(e.payload) == Some(Packet(p)) && Awaited(cx, s, p)
    ensures WaitedFor(cx, Noted(s, Packet(p), e.payload), p)
    ensures Step(cx, s, e) == TakeCanned(cx, Noted(s, Packet(p), e.payload), p)
  {
    hide TakeCanned, Complete, Reboot, Broadcast, Send, Reissues, Enumerates, OriginOf;
  }

  lemma WaiterOfReply(cx: Codec, s: State, p: MeshPacket)
    requires CannedOK(cx, s) && Awaited(cx, s, p)
    ensures p.decoded.Some? && cx.adminReply(p.decoded.value.payload).Some? && p.id in s.canned.waiters
    ensures s.canned.waiters[p.id] in s.canned.fetches && s.canned.fetches[s.canned.waiters[p.id]].id == p.id
  {
  }

  lemma TakeFills(cx: Codec, s: State, p: MeshPacket)
    requires WaitedFor(cx, s, p)
    requires s.canned.waiters[p.id] in s.canned.fetches && s.canned.fetches[s.canned.waiters[p.id]].id == p.id
    ensures var t, f, raw := TakeCanned(cx, s, p), s.canned.waiters[p.id], cx.adminReply(p.decoded.value.payload).value;
            && t.taken == s.taken + [Taken(p.id, raw, s.now, f)] && t.served == s.served
            && t.peers == s.peers && t.canned.waiters == s.canned.waiters
            && t.canned.fetches ==
               if s.canned.fetches[f].box == None
               then s.canned.fetches[f := Fetch(p.id, Some(CannedMessages.Parse(raw)))] else s.canned.fetches
  {
    hide CannedMessages.Parse;
  }

  // ----- over a run

  /** The events can happen from s, and lead to t. */
  ghost predicate Leads(cx: Codec, s: State, es: seq<Event>, t: State) {
    Feasible(cx, s, es) && t == After(cx, s, es)
  }

  /** A call begins that has to ask the radio, can, and is the only one under its packet id. */
  ghost predicate AsksRadio(cx: Codec, s: State, e: Event) {
    && Enabled(cx, s, e) && e.Fetching? && LastList(s.taken, s.now) == [] && NodeNumber(cx, s.cache) != 0
    && Works(s, cx.marshalTo(SendPacket(e.packet)), e.ok)
    && forall g :: g in s.canned.fetches ==> s.canned.fetches[g].id != e.packet.id
  }

  /** The radio sends the canned messages, in a packet with this id on the admin port. */
  ghost predicate Tells(cx: Codec, s: State, e: Event, id: u32, raw: string) {
    && Enabled(cx, s, e) && e.RadioFrame?
    && match cx.parseFrom(e.payload)
       case Some(Packet(MeshPacket(n, Some(Data(Admin, bytes)), _))) => n == id && cx.adminReply(bytes) == Some(raw)
       case _ => false
  }

  /** The call f waits for a reply to its packet id, and no other call does. */
  ghost predicate Waits(s: State, f: nat, id: u32) {
    && f in s.canned.fetches && s.canned.fetches[f] == Fetch(id, None) && f in s.calls
    && id in s.canned.waiters && s.canned.waiters[id] == f
    && forall g :: g in s.canned.fetches && s.canned.fetches[g].id == id ==> g == f
  }

  /** The call's channel holds this list. */
  predicate Holds(s: State, f: nat, id: u32, ms: seq<string>) {
    f in s.canned.fetches && s.canned.fetches[f] == Fetch(id, Some(ms)) && f in s.calls
  }

  /** The event is the end of the call, another call under its id, or a canned reply to it. */
  predicate Disturbs(cx: Codec, e: Event, f: nat, id: u32) {
    match e
    case Fetched(g, _) => g == f
    case Fetching(_, packet, _) => packet.id == id
    case RadioFrame(payload, _, _, _) =>
      (match cx.parseFrom(payload)
       case Some(Packet(MeshPacket(n, Some(Data(Admin, bytes)), _))) => n == id && cx.adminReply(bytes).Some?
       case _ => false)
    case _ => false
  }

  /** The calls on record only grow. */
  lemma CallsGrow(cx: Codec, s: State, e: Event)
    requires Members(s) && Enabled(cx, s, e)
    ensures s.calls <= Step(cx, s, e).calls
  {
    hide Members, Recorded, Waiters, FetchBegin, FetchEnd, Intake, Step, Enabled;
    StepEvolves(cx, s, e);
    FreshCalls(cx, s, e);
    RecordedCall(cx, s, e);
  }

  lemma FreshCalls(cx: Codec, s: State, e: Event)
    requires Enabled(cx, s, e)
    ensures e.Fetching? ==> e.f !in s.canned.fetches && e.f !in s.calls
  {
  }

  lemma StillWaits(cx: Codec, s: State, e: Event, f: nat, id: u32)
    requires cx.Lawful() && Sound(cx, s) && Enabled(cx, s, e)
    requires Waits(s, f, id) && !Disturbs(cx, e, f, id)
    ensures Waits(Step(cx, s, e), f, id)
  {
    hide Members, EchoOK, CannedOK, OwnersKnown, Enabled, Step, ClientSide, LastList, Outgoing, CannedMessages.Parse;
    StepDoes(cx, s, e);
    CallsGrow(cx, s, e);
    FreshCalls(cx, s, e);
    if e.Fetching? {
      FetchBegins(cx, s, e);
      assert id in s.canned.waiters - {e.packet.id};
      assert id in Step(cx, s, e).canned.waiters - {e.packet.id};
    } else if e.Fetched? {
      EndsOne(cx, s, e);
      FetchEnds(cx, s, e);
    } else if AboutCalls(cx, s, e) {
      ReplyComes(cx, s, e, cx.parseFrom(e.payload).value.packet);
    }
  }

  lemma EndsOne(cx: Codec, s: State, e: Event)
    requires Enabled(cx, s, e)
    ensures e.Fetched? ==> e.f in s.canned.fetches
  {
  }

  lemma StillHolds(cx: Codec, s: State, e: Event, f: nat, id: u32, ms: seq<string>)
    requires cx.Lawful() && Sound(cx, s) && Enabled(cx, s, e)
    requires Holds(s, f, id, ms) && !(e.Fetched? && e.f == f)
    ensures Holds(Step(cx, s, e), f, id, ms)
  {
    hide Members, EchoOK, CannedOK, OwnersKnown, Enabled, Step, ClientSide, LastList, Outgoing, CannedMessages.Parse;
    StepDoes(cx, s, e);
    CallsGrow(cx, s, e);
    FreshCalls(cx, s, e);
    if e.Fetching? {
      FetchBegins(cx, s, e);
    } else if e.Fetched? {
      EndsOne(cx, s, e);
      FetchEnds(cx, s, e);
    } else if AboutCalls(cx, s, e) {
      ReplyComes(cx, s, e, cx.parseFrom(e.payload).value.packet);
    }
  }

  /** The reply comes for the call that waits. */
  lemma ReplyHeld(cx: Codec, s: State, e: Event, f: nat, id: u32, raw: string)
    requires Members(s) && CannedOK(cx, s) && Tells(cx, s, e, id, raw) && Waits(s, f, id)
    ensures var t := Step(cx, s, e);
            && Holds(t, f, id, CannedMessages.Parse(raw)) && t.peers == s.peers
            && t.taken == s.taken + [Taken(id, raw, s.now, f)]
  {
    hide Members, CannedOK, Enabled, Step, CannedMessages.Parse;
    ReplyComes(cx, s, e, cx.parseFrom(e.payload).value.packet);
    CallsGrow(cx, s, e);
  }

  /** A call that goes out waits. */
  lemma CallWaits(cx: Codec, s: State, e: Event)
    requires Members(s) && CannedOK(cx, s) && AsksRadio(cx, s, e)
    ensures Outgoing(cx, s, e) == Some(cx.marshalTo(SendPacket(e.packet)))
    ensures Waits(Step(cx, s, e), e.f, e.packet.id)
  {
    hide Members, CannedOK, Enabled, Step, LastList, Recorded, Serves;
    FetchBegins(cx, s, e);
    StepEvolves(cx, s, e);
    FreshCalls(cx, s, e);
    RecordedCall(cx, s, e);
  }
}
