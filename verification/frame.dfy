/** The serial and TCP framing: 0x94 0xC3, a big-endian length, then the payload. */
module Frame {
  import opened Protocol

  const MAGIC0: byte := 0x94
  const MAGIC1: byte := 0xC3
  const MAX_SIZE := 0xFFFF

  /** The outcome of one ReadFrame; `End` is any read error. */
  datatype Read = Good(payload: Payload) | Invalid | End

  datatype Parsed = Parsed(read: Read, rest: seq<byte>)

  /** How many MAGIC0 bytes stand immediately before position i. */
  function Run(s: seq<byte>, i: nat): nat
    requires i <= |s|
  {
    if i > 0 && s[i - 1] == MAGIC0 then 1 + Run(s, i - 1) else 0
  }

  /** The scanner takes position i as the end of a magic pair: a MAGIC1 after an odd run. */
  predicate LocksAt(s: seq<byte>, i: nat) {
    i < |s| && s[i] == MAGIC1 && Run(s, i) % 2 == 1
  }

  /** The first lock at or after `from`, or |s| when there is none. */
  function FirstLock(s: seq<byte>, from: nat): (i: nat)
    requires from <= |s|
    ensures from <= i <= |s|
    ensures forall j :: from <= j < i ==> !LocksAt(s, j)
    ensures i < |s| ==> LocksAt(s, i)
    decreases |s| - from
  {
    if from == |s| || LocksAt(s, from) then from else FirstLock(s, from + 1)
  }

  /** What ReadFrame returns on the byte stream s, and what it leaves unread. */
  function Next(s: seq<byte>): Parsed {
    var i := FirstLock(s, 0);
    if i + 3 > |s| then Parsed(End, [])
    else
      var length: nat := s[i + 1] as int * 0x100 + s[i + 2];
      if length == 0 then Parsed(Invalid, s[i + 3..])
      else if i + 3 + length > |s| then Parsed(End, [])
      else Parsed(Good(s[i + 3..i + 3 + length]), s[i + 3 + length..])
  }

  predicate Framable(p: Payload) {
    0 < |p| <= MAX_SIZE
  }

  /** The header WriteFrame builds; `% 0x100` is the truncation of uint16(len). */
  function Header(p: Payload): seq<byte> {
    [MAGIC0, MAGIC1, |p| / 0x100 % 0x100, |p| % 0x100]
  }

  function FrameBytes(p: Payload): seq<byte> {
    Header(p) + p
  }

  /** A bufio.Reader: the bytes not read yet. Running out stands for every read error. */
  class Reader {
    var rest: seq<byte>

    constructor (bytes: seq<byte>)
      ensures rest == bytes
    {
      rest := bytes;
    }

    method ReadByte() returns (b: Option<byte>)
      modifies this
      ensures old(rest) == [] ==> b == None && rest == []
      ensures old(rest) != [] ==> b == Some(old(rest)[0]) && rest == old(rest)[1..]
    {
      if rest == [] {
        return None;
      }
      b := Some(rest[0]);
      rest := rest[1..];
    }

    /** io.ReadFull: exactly n bytes, or an error after using up what there was. */
    method ReadFull(n: nat) returns (buf: Option<seq<byte>>)
      modifies this
      ensures n <= |old(rest)| ==> buf == Some(old(rest)[..n]) && rest == old(rest)[n..]
      ensures n > |old(rest)| ==> buf == None && rest == []
    {
      if n > |rest| {
        rest := [];
        return None;
      }
      buf := Some(rest[..n]);
      rest := rest[n..];
    }
  }

  method ReadFrame(r: Reader) returns (read: Read)
    modifies r
    ensures Parsed(read, r.rest) == Next(old(r.rest))
  {
    ghost var s := r.rest;
    ghost var i := 0;
    while true
      invariant i <= |s| && r.rest == s[i..]
      invariant forall j :: 0 <= j < i ==> !LocksAt(s, j)
      invariant Run(s, i) % 2 == 0
      decreases |r.rest|
    {
      var b := r.ReadByte();
      if b == None {
        return End;
      }
      i := i + 1;
      if b.value != MAGIC0 {
        continue;
      }
      assert Run(s, i) == Run(s, i - 1) + 1;
      b := r.ReadByte();
      if b == None {
        return End;
      }
      i := i + 1;
      if b.value != MAGIC1 {
        continue;
      }
      assert LocksAt(s, i - 1) && FirstLock(s, 0) == i - 1;
      var lenBuf := r.ReadFull(2);
      if lenBuf == None {
        return End;
      }
      var length: nat := lenBuf.value[0] as int * 0x100 + lenBuf.value[1];
      if length == 0 || length > MAX_SIZE {
        return Invalid;
      }
      var payload := r.ReadFull(length);
      if payload == None {
        return End;
      }
      assert payload.value == s[i + 2..i + 2 + length];
      assert r.rest == s[i + 2 + length..];
      return Good(payload.value);
    }
  }

  /** An io.Writer. Each Write takes any number of the bytes offered, and may fail. */
  class Sink {
    ghost const name: nat             // tells sinks apart
    var bytes: seq<byte>

    constructor (ghost name: nat)
      ensures bytes == [] && this.name == name
    {
      this.name := name;
      bytes := [];
    }

    method Write(buf: seq<byte>) returns (n: nat, failed: bool)
      modifies this
      ensures n <= |buf| && bytes == old(bytes) + buf[..n]
    {
      n :| n <= |buf|;
      failed := *;
      bytes := bytes + buf[..n];
    }
  }

  /** A failed write leaves the sink with some prefix of buf. */
  method WriteAll(dst: Sink, buf: seq<byte>) returns (ok: bool)
    modifies dst
    ensures ok ==> dst.bytes == old(dst.bytes) + buf
    ensures exists n :: 0 <= n <= |buf| && dst.bytes == old(dst.bytes) + buf[..n]
  {
    var todo := buf;
    ghost var done := 0;
    assert dst.bytes == old(dst.bytes) + buf[..0];
    while |todo| > 0
      invariant 0 <= done <= |buf| && todo == buf[done..]
      invariant dst.bytes == old(dst.bytes) + buf[..done]
      decreases |todo|
    {
      var n, failed := dst.Write(todo);
      assert buf[..done] + todo[..n] == buf[..done + n];
      done := done + n;
      if failed || n == 0 {
        return false;
      }
      todo := todo[n..];
    }
    assert buf[..done] == buf;
    ok := true;
  }

  method WriteFrame(w: Sink, payload: Payload) returns (ok: bool)
    modifies w
    ensures ok ==> |payload| <= 65535 && w.bytes == old(w.bytes) + FrameBytes(payload)
    ensures ok ==> FrameBytes(payload) == [0x94, 0xC3, |payload| / 256, |payload| % 256] + payload
    ensures |payload| > 65535 ==> !ok && w.bytes == old(w.bytes)
    ensures exists n :: 0 <= n <= |FrameBytes(payload)| && w.bytes == old(w.bytes) + FrameBytes(payload)[..n]
  {
    ghost var start := w.bytes;
    ghost var whole := FrameBytes(payload);
    if |payload| > MAX_SIZE {
      assert w.bytes == start + whole[..0];
      return false;
    }
    ok := WriteAll(w, Header(payload));
    ghost var n :| 0 <= n <= 4 && w.bytes == start + Header(payload)[..n];
    assert Header(payload)[..n] == whole[..n];
    if !ok {
      return;
    }
    assert Header(payload)[..4] == Header(payload);
    ok := WriteAll(w, payload);
    ghost var m :| 0 <= m <= |payload| && w.bytes == start + Header(payload) + payload[..m];
    assert Header(payload) + payload[..m] == whole[..4 + m];
    assert w.bytes == start + whole[..4 + m];
  }
}
