/** What ReadFrame makes of whole byte streams: noise, resynchronisation, prefixes. */
module Stream {
  import opened Protocol
  import opened Frame

  /** Where ReadFrame stands after a call: strictly further on, and by how much. */
  lemma Progress(s: seq<byte>)
    ensures Next(s).read.Good? ==> Framable(Next(s).read.payload) && |Next(s).rest| + 4 + |Next(s).read.payload| <= |s|
    ensures Next(s).read.Invalid? ==> |Next(s).rest| + 4 <= |s|
    ensures Next(s).read.End? ==> Next(s).rest == []
  {
    var i := FirstLock(s, 0);
    if i < |s| {
      assert i > 0;
    }
  }

  /** Everything repeated ReadFrame calls return on s before the read error. */
  function Decode(s: seq<byte>): (items: seq<Read>)
    ensures End !in items
    decreases |s|
  {
    var parsed := Next(s);
    Progress(s);
    if parsed.read == End then [] else [parsed.read] + Decode(parsed.rest)
  }

  /** The frames among them: what a reader that skips invalid headers delivers. */
  function Payloads(items: seq<Read>): seq<Payload> {
    if items == [] then []
    else (if items[0].Good? then [items[0].payload] else []) + Payloads(items[1..])
  }

  lemma OneRead(s: seq<byte>)
    ensures var Parsed(read, rest) := Next(s);
            Payloads(Decode(s)) ==
              if read == End then []
              else (if read.Good? then [read.payload] else []) + Payloads(Decode(rest))
  {
    hide Next;
    var Parsed(read, rest) := Next(s);
    if read != End {
      Progress(s);
      assert ([read] + Decode(rest))[1..] == Decode(rest);
    }
  }

  /** The resynchronising loop of readSerial, up to the read error that ends it. */
  method ReadUntilError(r: Reader) returns (frames: seq<Payload>, invalid: nat)
    modifies r
    ensures frames == Payloads(Decode(old(r.rest)))
    ensures 5 * |frames| + 4 * invalid <= |old(r.rest)|
  {
    hide Next, Decode, Payloads;
    ghost var whole := Payloads(Decode(r.rest));
    frames, invalid := [], 0;
    while true
      invariant frames + Payloads(Decode(r.rest)) == whole
      invariant 5 * |frames| + 4 * invalid + |r.rest| <= |old(r.rest)|
      decreases |r.rest|
    {
      Progress(r.rest);
      OneRead(r.rest);
      var read := ReadFrame(r);
      match read
      case End =>
        return;
      case Invalid =>
        invalid := invalid + 1;
      case Good(payload) =>
        frames := frames + [payload];
    }
  }

  // ----- extending a stream

  lemma {:induction false} RunOfPrefix(s: seq<byte>, t: seq<byte>, i: nat)
    requires i <= |s|
    ensures Run(s + t, i) == Run(s, i)
    decreases i
  {
    if i > 0 && s[i - 1] == MAGIC0 {
      RunOfPrefix(s, t, i - 1);
    }
  }

  lemma LockOfPrefix(s: seq<byte>, t: seq<byte>)
    ensures forall i :: 0 <= i < |s| ==> LocksAt(s + t, i) == LocksAt(s, i)
  {
    forall i | 0 <= i < |s|
      ensures LocksAt(s + t, i) == LocksAt(s, i)
    {
      RunOfPrefix(s, t, i);
    }
  }

  /** The first lock is the only position with a lock and none before it. */
  lemma FirstLockIs(s: seq<byte>, from: nat, i: nat)
    requires from <= i <= |s|
    requires forall j :: from <= j < i ==> !LocksAt(s, j)
    requires i < |s| ==> LocksAt(s, i)
    ensures FirstLock(s, from) == i
  {
    assert FirstLock(s, from) >= i;
  }

  /** What ReadFrame has returned does not depend on bytes that come later. */
  lemma NextOfPrefix(s: seq<byte>, t: seq<byte>)
    requires Next(s).read != End
    ensures Next(s + t) == Parsed(Next(s).read, Next(s).rest + t)
  {
    var i := FirstLock(s, 0);
    LockOfPrefix(s, t);
    FirstLockIs(s + t, 0, i);
    var length: nat := s[i + 1] as int * 0x100 + s[i + 2];
    assert (s + t)[i + 3..] == s[i + 3..] + t;
    if length > 0 {
      assert (s + t)[i + 3..i + 3 + length] == s[i + 3..i + 3 + length];
      assert (s + t)[i + 3 + length..] == s[i + 3 + length..] + t;
    }
  }

  /** Streaming is monotone: more input never changes what was already decoded. */
  lemma {:induction false} DecodeMonotone(s: seq<byte>, t: seq<byte>)
    ensures Decode(s) <= Decode(s + t)
    decreases |s|
  {
    Progress(s);
    if Next(s).read != End {
      NextOfPrefix(s, t);
      DecodeMonotone(Next(s).rest, t);
    }
  }

  /** Payloads of a prefix of the results are a prefix of the payloads. */
  lemma {:induction false} PayloadsSplit(a: seq<Read>, b: seq<Read>)
    ensures Payloads(a + b) == Payloads(a) + Payloads(b)
  {
    if a == [] {
      assert a + b == b;
    } else {
      assert (a + b)[0] == a[0] && (a + b)[1..] == a[1..] + b;
      PayloadsSplit(a[1..], b);
      var head := if a[0].Good? then [a[0].payload] else [];
      assert Payloads(a + b) == head + Payloads(a[1..] + b);
      assert Payloads(a) == head + Payloads(a[1..]);
    }
  }

  lemma FramesMonotone(s: seq<byte>, t: seq<byte>)
    ensures Payloads(Decode(s)) <= Payloads(Decode(s + t))
  {
    DecodeMonotone(s, t);
    var tail := Decode(s + t)[|Decode(s)|..];
    assert Decode(s + t) == Decode(s) + tail;
    PayloadsSplit(Decode(s), tail);
  }

  // ----- noise

  /** Bytes that hold no lock and do not leave the scanner waiting for a MAGIC1. */
  predicate Harmless(noise: seq<byte>) {
    && (forall i :: 0 <= i < |noise| ==> !LocksAt(noise, i))
    && Run(noise, |noise|) % 2 == 0
  }

  lemma HeaderAfter(noise: seq<byte>, p: Payload, t: seq<byte>)
    ensures var s := noise + FrameBytes(p) + t;
            && Run(s, |noise|) == Run(noise, |noise|)
            && Run(s, |noise| + 1) == 1 + Run(noise, |noise|)
            && s[|noise| + 1] == MAGIC1
            && (forall i :: 0 <= i < |noise| ==> LocksAt(s, i) == LocksAt(noise, i))
  {
    var s := noise + FrameBytes(p) + t;
    assert s == noise + (FrameBytes(p) + t);
    RunOfPrefix(noise, FrameBytes(p) + t, |noise|);
    LockOfPrefix(noise, FrameBytes(p) + t);
    assert s[|noise|] == MAGIC0;
  }

  lemma HarmlessNoiseIsSkipped(noise: seq<byte>, p: Payload, t: seq<byte>)
    requires Framable(p) && Harmless(noise)
    ensures Next(noise + FrameBytes(p) + t) == Parsed(Good(p), t)
  {
    var s := noise + FrameBytes(p) + t;
    var i := |noise| + 1;
    HeaderAfter(noise, p, t);
    FirstLockIs(s, 0, i);
    assert s[i + 1] == |p| / 0x100 && s[i + 2] == |p| % 0x100;
    assert s[i + 3..i + 3 + |p|] == p;
    assert s[i + 3 + |p|..] == t;
  }

  /** Noise before a frame is harmless exactly when it holds no lock and does not end
      in an odd run of MAGIC0: otherwise that frame is not what ReadFrame consumes. */
  lemma NoiseHarmlessIff(noise: seq<byte>, p: Payload, t: seq<byte>)
    requires Framable(p)
    ensures Harmless(noise) <==> Next(noise + FrameBytes(p) + t) == Parsed(Good(p), t)
  {
    var s := noise + FrameBytes(p) + t;
    if Harmless(noise) {
      HarmlessNoiseIsSkipped(noise, p, t);
    } else if Next(s) == Parsed(Good(p), t) {
      // The rest being t pins the lock to the header, which the noise prevents.
      HeaderAfter(noise, p, t);
      assert false;
    }
  }

  // ----- round trips

  /** A frame and the line noise that came before it. */
  datatype Chunk = Chunk(noise: seq<byte>, payload: Payload)

  function Lay(chunks: seq<Chunk>): seq<byte> {
    if chunks == [] then []
    else chunks[0].noise + FrameBytes(chunks[0].payload) + Lay(chunks[1..])
  }

  predicate Readable(chunks: seq<Chunk>) {
    forall i :: 0 <= i < |chunks| ==> Framable(chunks[i].payload) && Harmless(chunks[i].noise)
  }

  function Carried(chunks: seq<Chunk>): seq<Payload> {
    if chunks == [] then [] else [chunks[0].payload] + Carried(chunks[1..])
  }

  function Goods(ps: seq<Payload>): seq<Read> {
    if ps == [] then [] else [Good(ps[0])] + Goods(ps[1..])
  }

  lemma DecodeFirst(noise: seq<byte>, p: Payload, rest: seq<byte>)
    requires Framable(p) && Harmless(noise)
    ensures Decode(noise + FrameBytes(p) + rest) == [Good(p)] + Decode(rest)
  {
    HarmlessNoiseIsSkipped(noise, p, rest);
  }

  /** Frames on a noisy line come back exactly, and nothing else does; what follows
      them is decoded as if it stood alone. */
  lemma {:induction false} NoisyRoundTrip(chunks: seq<Chunk>, tail: seq<byte>)
    requires Readable(chunks)
    ensures Decode(Lay(chunks) + tail) == Goods(Carried(chunks)) + Decode(tail)
  {
    hide Next, Decode;
    if chunks == [] {
      assert Lay(chunks) + tail == tail;
    } else {
      var p, rest := chunks[0].payload, Lay(chunks[1..]) + tail;
      assert Lay(chunks) + tail == chunks[0].noise + FrameBytes(p) + rest;
      DecodeFirst(chunks[0].noise, p, rest);
      NoisyRoundTrip(chunks[1..], tail);
      assert Carried(chunks)[1..] == Carried(chunks[1..]);
    }
  }

  /** The bytes of successive WriteFrame calls. */
  function Encode(ps: seq<Payload>): seq<byte> {
    if ps == [] then [] else Encode(ps[..|ps| - 1]) + FrameBytes(ps[|ps| - 1])
  }

  function Quiet(ps: seq<Payload>): seq<Chunk> {
    seq(|ps|, i requires 0 <= i < |ps| => Chunk([], ps[i]))
  }

  lemma {:induction false} LaySplit(a: seq<Chunk>, b: seq<Chunk>)
    ensures Lay(a + b) == Lay(a) + Lay(b)
  {
    if a == [] {
      assert a + b == b;
    } else {
      assert (a + b)[1..] == a[1..] + b;
      LaySplit(a[1..], b);
    }
  }

  lemma {:induction false} EncodeIsLay(ps: seq<Payload>)
    ensures Encode(ps) == Lay(Quiet(ps))
  {
    if ps != [] {
      var init, last := ps[..|ps| - 1], ps[|ps| - 1];
      EncodeIsLay(init);
      assert Quiet(ps) == Quiet(init) + [Chunk([], last)];
      LaySplit(Quiet(init), [Chunk([], last)]);
      assert [Chunk([], last)][1..] == [];
      assert Lay([Chunk([], last)]) == FrameBytes(last);
    }
  }

  lemma {:induction false} QuietChunks(ps: seq<Payload>)
    ensures Carried(Quiet(ps)) == ps
    ensures Payloads(Goods(ps)) == ps
  {
    if ps != [] {
      QuietChunks(ps[1..]);
      assert Quiet(ps)[1..] == Quiet(ps[1..]);
      assert Goods(ps)[1..] == Goods(ps[1..]);
    }
  }

  lemma QuietIsReadable(ps: seq<Payload>)
    requires forall p | p in ps :: Framable(p)
    ensures Readable(Quiet(ps))
  {
  }

  /** What was written frame by frame is what the other end reads, whatever follows. */
  lemma RoundTrip(ps: seq<Payload>, tail: seq<byte>)
    requires forall p | p in ps :: Framable(p)
    ensures Payloads(Decode(Encode(ps) + tail)) == ps + Payloads(Decode(tail))
  {
    hide Decode, Next, Lay, Harmless, Framable;
    EncodeIsLay(ps);
    QuietChunks(ps);
    QuietIsReadable(ps);
    NoisyRoundTrip(Quiet(ps), tail);
    PayloadsSplit(Goods(ps), Decode(tail));
  }

  /** A write that failed part of the way through a frame adds at most that frame. */
  lemma CutFrame(p: Payload, n: nat)
    requires Framable(p) && n <= |FrameBytes(p)|
    ensures Payloads(Decode(FrameBytes(p)[..n])) <= [p]
  {
    var cut, rest := FrameBytes(p)[..n], FrameBytes(p)[n..];
    assert cut + rest == FrameBytes(p) == Encode([]) + FrameBytes(p) == Encode([p]) + [];
    RoundTrip([p], []);
    assert Payloads(Decode([])) == [];
    FramesMonotone(cut, rest);
    assert Encode([p]) == FrameBytes(p) by {
      assert [p][..0] == [];
    }
  }

  /** A zero-length payload is written but never read back. */
  lemma EmptyPayloadIsLost(t: seq<byte>)
    ensures Next(FrameBytes([]) + t) == Parsed(Invalid, t)
  {
    var s := FrameBytes([]) + t;
    assert s == [] + FrameBytes([]) + t;
    HeaderAfter([], [], t);
    FirstLockIs(s, 0, 1);
    assert s[4..] == t;
  }

  /** Of the payloads WriteFrame accepts, exactly the empty one does not come back. */
  lemma ComesBackIffNotEmpty(p: Payload, t: seq<byte>)
    requires |p| <= 65535
    ensures Next(FrameBytes(p) + t) == Parsed(Good(p), t) <==> p != []
  {
    if p == [] {
      EmptyPayloadIsLost(t);
    } else {
      HarmlessNoiseIsSkipped([], p, t);
      assert [] + FrameBytes(p) + t == FrameBytes(p) + t;
    }
  }

  /** In 94 94 C3 nothing locks, so a stray 94 costs the frame that follows it. */
  lemma DoubledMagicIsSkipped(p: Payload, t: seq<byte>)
    requires Framable(p)
    ensures !LocksAt([0x94, 0x94, 0xC3], 2) && Next([0x94, 0x94, 0xC3]) == Parsed(End, [])
    ensures Next([0x94] + FrameBytes(p) + t) != Parsed(Good(p), t)
  {
    var s := [MAGIC0, MAGIC0, MAGIC1];
    assert Run(s, 0) == 0 && Run(s, 1) == 1 && Run(s, 2) == 2;
    FirstLockIs(s, 0, 3);
    assert Run([MAGIC0], 1) == 1;
    NoiseHarmlessIff([MAGIC0], p, t);
  }
}
