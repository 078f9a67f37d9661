/** What the accounts of the events of a run add up to: all that the radio was sent, all that
    a client was given, and whether the link is down. */
module Totals {
  import opened Protocol
  import opened Model
  import opened Membership
  import opened Echoes
  import opened CannedRuns
  import opened Effects
  import opened Account
  import opened Histories
  import opened Invariant

  lemma EveryMoment(cx: Codec, readOnly: bool, es: seq<Event>)
    requires cx.Lawful() && Feasible(cx, Initial(readOnly), es)
    ensures Sound(cx, After(cx, Initial(readOnly), es))
  {
    hide Members, EchoOK, CannedOK, After, Feasible;
    Always(cx, readOnly, es);
  }

  // ----- the radio

  /** The payloads on the wire that are not WantConfigIds. */
  function Unasked(cx: Codec, serial: seq<Sent>): seq<Payload> {
    if serial == [] then []
    else
      var p := serial[|serial| - 1].payload;
      Unasked(cx, serial[..|serial| - 1]) + if IsWant(cx, p) then [] else [p]
  }

  /** What the events of the run put on the wire, one after the other. */
  ghost function OutgoingIn(cx: Codec, s: State, es: seq<Event>): seq<Payload>
    requires Feasible(cx, s, es)
  {
    if es == [] then []
    else
      var init, e := es[..|es| - 1], es[|es| - 1];
      var p := Outgoing(cx, After(cx, s, init), e);
      OutgoingIn(cx, s, init) + if p == None then [] else [p.value]
  }

  lemma {:induction false} UnaskedWants(cx: Codec, serial: seq<Sent>, more: seq<Sent>)
    requires forall i :: 0 <= i < |more| ==> IsWant(cx, more[i].payload)
    ensures Unasked(cx, serial + more) == Unasked(cx, serial)
  {
    if more == [] {
      assert serial + more == serial;
    } else {
      assert (serial + more)[..|serial + more| - 1] == serial + more[..|more| - 1];
      UnaskedWants(cx, serial, more[..|more| - 1]);
    }
  }

  lemma OutgoingIsNoWant(cx: Codec, s: State, e: Event)
    requires cx.Lawful() && Outgoing(cx, s, e).Some?
    ensures !IsWant(cx, Outgoing(cx, s, e).value)
    ensures e.ClientFrame? || e.Texting? || e.Fetching?
    ensures e.ClientFrame? && s.readOnly ==> s.primary == Some(e.c)
  {
  }

  lemma UnaskedGrows(cx: Codec, s: State, e: Event, t: State)
    requires cx.Lawful() && LinkSide(cx, s, e, t)
    ensures Unasked(cx, t.serial) ==
            Unasked(cx, s.serial) + if Outgoing(cx, s, e) == None then [] else [Outgoing(cx, s, e).value]
    ensures t.readOnly == s.readOnly
  {
    hide Outgoing, Asks, Breaks, IsWant, AboutCalls;
    var more := t.serial[|s.serial|..];
    if Asks(cx, e) {
      assert t.serial == s.serial + more;
      UnaskedWants(cx, s.serial, more);
    } else if Outgoing(cx, s, e).Some? {
      OutgoingIsNoWant(cx, s, e);
      assert t.serial[..|s.serial|] == s.serial;
    } else {
      assert t.serial == s.serial;
    }
  }

  /** Over any run, what is on the wire but the WantConfigIds is exactly what the frames of the
      clients that may write, the texts and the calls put there, in order. */
  lemma {:induction false} RadioHearsExactly(cx: Codec, readOnly: bool, es: seq<Event>)
    requires cx.Lawful() && Feasible(cx, Initial(readOnly), es)
    ensures var s := After(cx, Initial(readOnly), es);
            Unasked(cx, s.serial) == OutgoingIn(cx, Initial(readOnly), es) && s.readOnly == readOnly
  {
    hide Sound, Enabled, Step, ClientSide, LinkSide, Outgoing;
    if es != [] {
      var init, e := es[..|es| - 1], es[|es| - 1];
      var s := After(cx, Initial(readOnly), init);
      RadioHearsExactly(cx, readOnly, init);
      EveryMoment(cx, readOnly, init);
      StepDoes(cx, s, e);
      UnaskedGrows(cx, s, e, Step(cx, s, e));
    }
  }

  /** The i-th payload on the wire that is not a WantConfigId was put there by the k-th event;
      if that is a client's frame and clients are read-only, the client was primary then. */
  lemma {:induction false} OnlyThePrimaryWrites(cx: Codec, readOnly: bool, es: seq<Event>, i: nat) returns (k: nat)
    requires cx.Lawful() && Feasible(cx, Initial(readOnly), es)
    requires i < |Unasked(cx, After(cx, Initial(readOnly), es).serial)|
    ensures k < |es| && Feasible(cx, Initial(readOnly), es[..k])
    ensures Outgoing(cx, After(cx, Initial(readOnly), es[..k]), es[k]) ==
            Some(Unasked(cx, After(cx, Initial(readOnly), es).serial)[i])
    ensures es[k].ClientFrame? || es[k].Texting? || es[k].Fetching?
    ensures readOnly && es[k].ClientFrame? ==> After(cx, Initial(readOnly), es[..k]).primary == Some(es[k].c)
  {
    hide Enabled, Step, Outgoing, Unasked;
    RadioHearsExactly(cx, readOnly, es);
    assert es != [];
    var init := es[..|es| - 1];
    RadioHearsExactly(cx, readOnly, init);
    if i < |OutgoingIn(cx, Initial(readOnly), init)| {
      k := OnlyThePrimaryWrites(cx, readOnly, init, i);
      assert init[..k] == es[..k];
    } else {
      k := |es| - 1;
      OutgoingIsNoWant(cx, After(cx, Initial(readOnly), init), es[k]);
    }
  }

  // ----- the link

  ghost predicate BreaksAt(cx: Codec, s: State, es: seq<Event>, k: nat) {
    && k < |es| && Feasible(cx, s, es[..k]) && Enabled(cx, After(cx, s, es[..k]), es[k])
    && Breaks(cx, After(cx, s, es[..k]), es[k])
  }

  /** The link is down exactly if it failed, or a write failed whose failure counts. */
  lemma {:induction false} LinkIsDownIff(cx: Codec, readOnly: bool, es: seq<Event>)
    requires cx.Lawful() && Feasible(cx, Initial(readOnly), es)
    ensures After(cx, Initial(readOnly), es).down <==> exists k: nat :: BreaksAt(cx, Initial(readOnly), es, k)
  {
    hide Sound, Enabled, Step, ClientSide, Outgoing, Breaks, Asks, AboutCalls;
    if es != [] {
      var init, e := es[..|es| - 1], es[|es| - 1];
      var s := After(cx, Initial(readOnly), init);
      LinkIsDownIff(cx, readOnly, init);
      EveryMoment(cx, readOnly, init);
      StepDoes(cx, s, e);
      if s.down {
        var k: nat :| BreaksAt(cx, Initial(readOnly), init, k);
        assert init[..k] == es[..k];
        assert BreaksAt(cx, Initial(readOnly), es, k);
      } else if Breaks(cx, s, e) {
        assert BreaksAt(cx, Initial(readOnly), es, |init|);
      }
      if k: nat :| BreaksAt(cx, Initial(readOnly), es, k) {
        if k < |init| {
          assert init[..k] == es[..k];
          assert BreaksAt(cx, Initial(readOnly), init, k);
        }
      }
    }
  }

  // ----- a client

  /** What the events of the run give to client c while it is connected. */
  ghost function GivenIn(cx: Codec, s: State, es: seq<Event>, c: ClientId): seq<Payload>
    requires Feasible(cx, s, es)
  {
    if es == [] then []
    else
      var init, e := es[..|es| - 1], es[|es| - 1];
      var t := After(cx, s, init);
      var g := Given(cx, t, e, c);
      GivenIn(cx, s, init, c) + if c in t.clients && g.Some? then [g.value.payload] else []
  }

  lemma GivenStep(cx: Codec, s: State, e: Event, t: State, c: ClientId)
    requires ClientSide(cx, s, e, t)
    ensures c in s.clients ==>
              c in s.peers && c in t.peers
              && t.peers[c].hist.addressed ==
                 s.peers[c].hist.addressed
                 + if Given(cx, s, e, c).Some? then [Given(cx, s, e, c).value.payload] else []
    ensures c in s.peers && c !in s.clients ==> c !in t.clients
    ensures c !in s.peers && c in t.peers ==> t.peers[c].hist.addressed == []
    ensures c !in s.peers ==> c !in s.clients
    ensures c in t.clients ==> c in t.peers
  {
    hide Given, Goes;
  }

  /** Over any run, what a connected client was addressed is exactly what the events gave it, in
      order; for one that has gone that is the beginning of it. */
  lemma {:induction false} ClientsAreGivenExactly(cx: Codec, readOnly: bool, es: seq<Event>, c: ClientId)
    requires cx.Lawful() && Feasible(cx, Initial(readOnly), es)
    ensures var s, given := After(cx, Initial(readOnly), es), GivenIn(cx, Initial(readOnly), es, c);
            && (c in s.clients ==> c in s.peers && s.peers[c].hist.addressed == given)
            && (c in s.peers ==> given <= s.peers[c].hist.addressed)
            && (c !in s.peers ==> given == [])
  {
    hide Members, EchoOK, CannedOK, OwnersKnown, Enabled, Step, ClientSide, LinkSide, Given;
    if es != [] {
      var init, e := es[..|es| - 1], es[|es| - 1];
      var s := After(cx, Initial(readOnly), init);
      ClientsAreGivenExactly(cx, readOnly, init, c);
      EveryMoment(cx, readOnly, init);
      StepDoes(cx, s, e);
      GivenStep(cx, s, e, Step(cx, s, e), c);
      if c in s.peers {
        StepLater(cx, s, e, c);
      }
    }
  }
}
