/** The pipe-separated canned-message blob and its canonical form. */
module CannedMessages {

  /** The code points strings.TrimSpace removes: Unicode White_Space. */
  predicate IsSpace(c: char) {
    || '\t' <= c <= '\r'
    || c == ' ' || c == '\U{85}' || c == '\U{A0}' || c == '\U{1680}'
    || '\U{2000}' <= c <= '\U{200A}'
    || c == '\U{2028}' || c == '\U{2029}' || c == '\U{202F}' || c == '\U{205F}' || c == '\U{3000}'
  }

  function TrimLeft(s: string): string {
    if s != [] && IsSpace(s[0]) then TrimLeft(s[1..]) else s
  }

  function TrimRight(s: string): string {
    if s != [] && IsSpace(s[|s| - 1]) then TrimRight(s[..|s| - 1]) else s
  }

  /** strings.TrimSpace. */
  function Trim(s: string): string {
    TrimRight(TrimLeft(s))
  }

  /** strings.Split(s, "|"). */
  function Split(s: string): (parts: seq<string>)
    ensures parts != []
  {
    if s == [] then [[]]
    else
      var parts := Split(s[1..]);
      if s[0] == '|' then [[]] + parts else [[s[0]] + parts[0]] + parts[1..]
  }

  function Join(ms: seq<string>): string {
    if ms == [] then []
    else if |ms| == 1 then ms[0]
    else ms[0] + "|" + Join(ms[1..])
  }

  /** The parts trimmed, empty ones dropped. */
  function Kept(parts: seq<string>): seq<string> {
    if parts == [] then []
    else
      var front, m := Kept(parts[..|parts| - 1]), Trim(parts[|parts| - 1]);
      if m == [] then front else front + [m]
  }

  /** What a blob says, without the outer trim the program makes first. */
  function Parse(raw: string): seq<string> {
    Kept(Split(raw))
  }

  /** A message in canonical form. */
  predicate Canonical(m: string) {
    m != [] && Trim(m) == m && '|' !in m
  }

  method ParseCannedMessages(blob: string) returns (out: seq<string>)
    ensures out == Parse(blob)
  {
    OuterTrimRedundant(blob);
    var raw := Trim(blob);
    if raw == [] {
      return [];
    }
    var parts := Split(raw);
    out := [];
    for i := 0 to |parts|
      invariant out == Kept(parts[..i])
    {
      assert parts[..i + 1][..i] == parts[..i];
      var p := Trim(parts[i]);
      if p == [] {
        continue;
      }
      out := out + [p];
    }
    assert parts[..|parts|] == parts;
  }

  // ----- trimming

  lemma {:induction false} TrimDropsLast(s: string, c: char)
    requires IsSpace(c)
    ensures Trim(s + [c]) == Trim(s)
  {
    if s == [] {
      assert ([] + [c])[1..] == [];
    } else if IsSpace(s[0]) {
      assert (s + [c])[1..] == s[1..] + [c];
      TrimDropsLast(s[1..], c);
    } else {
      assert (s + [c])[..|s|] == s;
    }
  }

  lemma {:induction false} TrimRightEnds(s: string)
    ensures TrimRight(s) <= s
    ensures TrimRight(s) != [] ==> !IsSpace(TrimRight(s)[|TrimRight(s)| - 1])
  {
    if s != [] && IsSpace(s[|s| - 1]) {
      TrimRightEnds(s[..|s| - 1]);
    }
  }

  lemma {:induction false} TrimLeftEnds(s: string)
    ensures TrimLeft(s) != [] ==> !IsSpace(TrimLeft(s)[0])
    ensures forall c :: c in TrimLeft(s) ==> c in s
  {
    if s != [] && IsSpace(s[0]) {
      TrimLeftEnds(s[1..]);
    }
  }

  /** Trimming keeps only characters of s, and trimming twice changes nothing. */
  lemma TrimIdempotent(s: string)
    ensures Trim(Trim(s)) == Trim(s)
    ensures forall c :: c in Trim(s) ==> c in s
  {
    TrimLeftEnds(s);
    TrimRightEnds(TrimLeft(s));
  }

  /** Unicode's White_Space, code point by code point. */
  const WHITE_SPACE: set<int> :=
    {9, 10, 11, 12, 13, 32, 133, 160, 5760, 8192, 8193, 8194, 8195, 8196, 8197, 8198, 8199, 8200, 8201, 8202, 8232,
     8233, 8239, 8287, 12288}

  predicate AllWhite(s: string) {
    forall i :: 0 <= i < |s| ==> s[i] as int in WHITE_SPACE
  }

  predicate WhiteEnds(s: string) {
    s != [] && (s[0] as int in WHITE_SPACE || s[|s| - 1] as int in WHITE_SPACE)
  }

  lemma SpaceIsWhite(c: char)
    ensures IsSpace(c) <==> c as int in WHITE_SPACE
  {
  }

  lemma {:induction false} TrimLeftIs(front: string, rest: string)
    requires AllWhite(front) && (rest == [] || rest[0] as int !in WHITE_SPACE)
    ensures TrimLeft(front + rest) == rest
  {
    if front == [] {
      assert front + rest == rest;
      if rest != [] {
        SpaceIsWhite(rest[0]);
      }
    } else {
      SpaceIsWhite(front[0]);
      assert (front + rest)[1..] == front[1..] + rest;
      TrimLeftIs(front[1..], rest);
    }
  }

  lemma {:induction false} TrimRightIs(m: string, back: string)
    requires AllWhite(back) && (m == [] || m[|m| - 1] as int !in WHITE_SPACE)
    ensures TrimRight(m + back) == m
  {
    if back == [] {
      assert m + back == m;
      if m != [] {
        SpaceIsWhite(m[|m| - 1]);
      }
    } else {
      SpaceIsWhite(back[|back| - 1]);
      assert (m + back)[..|m + back| - 1] == m + back[..|back| - 1];
      TrimRightIs(m, back[..|back| - 1]);
    }
  }

  /** Trimming takes away white space at both ends, all of it, and nothing else. */
  lemma TrimIsExact(front: string, m: string, back: string)
    requires AllWhite(front) && AllWhite(back) && !WhiteEnds(m)
    ensures Trim(front + m + back) == m
  {
    hide TrimLeft, TrimRight, IsSpace;
    if m == [] {
      TrimLeftIs(front + back, []);
      assert front + m + back == front + back + [];
      TrimRightIs(m, []);
      assert m + [] == m;
    } else {
      assert front + m + back == front + (m + back);
      TrimLeftIs(front, m + back);
      TrimRightIs(m, back);
    }
  }

  // ----- the outer trim

  lemma {:induction false} KeptSplit(a: seq<string>, b: seq<string>)
    ensures Kept(a + b) == Kept(a) + Kept(b)
  {
    if b == [] {
      assert a + b == a;
    } else {
      assert (a + b)[..|a + b| - 1] == a + b[..|b| - 1];
      KeptSplit(a, b[..|b| - 1]);
    }
  }

  /** Only the trimmed form of each part matters. */
  lemma KeptAround(front: seq<string>, p: string, q: string, back: seq<string>)
    requires Trim(p) == Trim(q)
    ensures Kept(front + [p] + back) == Kept(front + [q] + back)
  {
    KeptSplit(front + [p], back);
    KeptSplit(front + [q], back);
    KeptSplit(front, [p]);
    KeptSplit(front, [q]);
    assert [p][..0] == [] == [q][..0];
  }

  lemma LeadingSpace(s: string)
    requires s != [] && IsSpace(s[0])
    ensures Parse(s) == Parse(s[1..])
  {
    var parts := Split(s[1..]);
    var p, q := [s[0]] + parts[0], parts[0];
    assert Split(s) == [p] + parts[1..];
    assert p[1..] == q;
    KeptAround([], p, q, parts[1..]);
    assert [] + [p] + parts[1..] == [p] + parts[1..];
    assert [] + [q] + parts[1..] == parts;
  }

  lemma {:induction false} LeftTrimRedundant(s: string)
    ensures Parse(TrimLeft(s)) == Parse(s)
  {
    hide Parse, IsSpace;
    if s != [] && IsSpace(s[0]) {
      LeftTrimRedundant(s[1..]);
      LeadingSpace(s);
    }
  }

  function ExtendFirst(c: char, parts: seq<string>): seq<string>
    requires parts != []
  {
    [[c] + parts[0]] + parts[1..]
  }

  function ExtendLast(parts: seq<string>, c: char): seq<string>
    requires parts != []
  {
    parts[..|parts| - 1] + [parts[|parts| - 1] + [c]]
  }

  lemma ExtendBothEnds(b: char, parts: seq<string>, c: char)
    requires parts != []
    ensures ExtendLast(ExtendFirst(b, parts), c) == ExtendFirst(b, ExtendLast(parts, c))
    ensures ExtendLast([[]] + parts, c) == [[]] + ExtendLast(parts, c)
  {
    if |parts| == 1 {
      assert [b] + (parts[0] + [c]) == [b] + parts[0] + [c];
    }
  }

  lemma {:induction false} SplitLast(s: string, c: char)
    requires c != '|'
    ensures Split(s + [c]) == ExtendLast(Split(s), c)
  {
    if s == [] {
      assert [c][1..] == [];
      assert [c] + s == s + [c] == [c];
      assert Split([c]) == [[c] + s];
      assert Split(s) == [s] && ExtendLast([s], c) == [s + [c]];
    } else {
      assert (s + [c])[1..] == s[1..] + [c];
      SplitLast(s[1..], c);
      ExtendBothEnds(s[0], Split(s[1..]), c);
    }
  }

  lemma TrailingSpace(s: string, c: char)
    requires IsSpace(c)
    ensures Parse(s + [c]) == Parse(s)
  {
    SplitLast(s, c);
    var parts := Split(s);
    var front, last := parts[..|parts| - 1], parts[|parts| - 1];
    TrimDropsLast(last, c);
    KeptAround(front, last + [c], last, []);
    assert front + [last] + [] == parts;
    assert front + [last + [c]] + [] == Split(s + [c]);
  }

  lemma {:induction false} RightTrimRedundant(s: string)
    ensures Parse(TrimRight(s)) == Parse(s)
  {
    hide Parse, IsSpace;
    if s != [] && IsSpace(s[|s| - 1]) {
      var init := s[..|s| - 1];
      RightTrimRedundant(init);
      assert s == init + [s[|s| - 1]];
      TrailingSpace(init, s[|s| - 1]);
    }
  }

  lemma OuterTrimRedundant(s: string)
    ensures Parse(Trim(s)) == Parse(s)
    ensures Parse([]) == []
  {
    LeftTrimRedundant(s);
    RightTrimRedundant(TrimLeft(s));
    assert Split([])[..0] == [];
  }

  // ----- canonical form

  lemma {:induction false} SplitParts(s: string)
    ensures forall p :: p in Split(s) ==> '|' !in p
  {
    if s != [] {
      SplitParts(s[1..]);
    }
  }

  lemma {:induction false} KeptCanonical(parts: seq<string>)
    requires forall p :: p in parts ==> '|' !in p
    ensures forall m :: m in Kept(parts) ==> Canonical(m)
  {
    if parts != [] {
      KeptCanonical(parts[..|parts| - 1]);
      TrimIdempotent(parts[|parts| - 1]);
    }
  }

  /** Every message parsed from any blob is trimmed, not empty, and free of pipes. */
  lemma ParsedAreCanonical(raw: string)
    ensures forall m :: m in Parse(raw) ==> Canonical(m)
  {
    SplitParts(raw);
    KeptCanonical(Split(raw));
  }

  lemma {:induction false} SplitAtPipe(m: string, t: string)
    requires '|' !in m
    ensures Split(m) == [m]
    ensures Split(m + "|" + t) == [m] + Split(t)
  {
    if m == [] {
      assert m + "|" + t == "|" + t;
    } else {
      assert (m + "|" + t)[1..] == m[1..] + "|" + t;
      SplitAtPipe(m[1..], t);
      assert [m[0]] + m[1..] == m;
    }
  }

  /** Split is the splitting on '|': the only pipe-free parts whose join is the string. */
  lemma SplitIsUnique(s: string, parts: seq<string>)
    requires parts != [] && forall p :: p in parts ==> '|' !in p
    ensures Join(parts) == s <==> parts == Split(s)
  {
    SplitOfJoin(parts);
    JoinOfSplit(s);
  }

  lemma {:induction false} SplitOfJoin(parts: seq<string>)
    requires parts != [] && forall p :: p in parts ==> '|' !in p
    ensures Split(Join(parts)) == parts
  {
    SplitAtPipe(parts[0], if |parts| == 1 then [] else Join(parts[1..]));
    if |parts| > 1 {
      SplitOfJoin(parts[1..]);
    }
  }

  lemma {:induction false} JoinOfSplit(s: string)
    ensures Join(Split(s)) == s
  {
    hide IsSpace;
    if s != [] {
      JoinOfSplit(s[1..]);
      var rest := Split(s[1..]);
      if s[0] == '|' {
        assert Split(s)[1..] == rest;
      } else {
        assert Split(s)[1..] == rest[1..];
      }
    }
  }

  /** Joining canonical messages and parsing the result returns them. */
  lemma {:induction false} ParseJoin(ms: seq<string>)
    requires forall m :: m in ms ==> Canonical(m)
    ensures Parse(Join(ms)) == ms
  {
    if ms == [] {
      OuterTrimRedundant([]);
    } else {
      assert Canonical(ms[0]);
      SplitAtPipe(ms[0], Join(ms[1..]));
      assert [ms[0]][..0] == [];
      assert Kept([ms[0]]) == [ms[0]];
      if |ms| > 1 {
        ParseJoin(ms[1..]);
        KeptSplit([ms[0]], Split(Join(ms[1..])));
      }
    }
  }

  /** The join of a parse is a canonical form: it parses to the same messages. */
  lemma ParseJoinParse(raw: string)
    ensures Parse(Join(Parse(raw))) == Parse(raw)
  {
    ParsedAreCanonical(raw);
    ParseJoin(Parse(raw));
  }
}
