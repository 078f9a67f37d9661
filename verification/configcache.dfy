/** The keyed cache of the radio's config dump and the ordered snapshot taken of it. */
module ConfigCaches {
  import opened Protocol

  /** The slots of the cache. */
  datatype Key =
    | MyInfoKey
    | ConfigKey(kind: int)
    | ModuleKey(kind: int)
    | ChannelKey(index: int)
    | NodeKey(num: int)
    | MetadataKey
    | DeviceUIKey

  /** The slot a message belongs to; None for the messages that are not cached. */
  function KeyOf(m: FromRadio): Option<Key> {
    match m
    case MyInfo(_) => Some(MyInfoKey)
    case NodeInfo(num) => Some(NodeKey(num))
    case Config(kind) => Some(ConfigKey(kind))
    case ModuleConfig(kind) => Some(ModuleKey(kind))
    case Channel(index) => Some(ChannelKey(index))
    case Metadata => Some(MetadataKey)
    case DeviceUI => Some(DeviceUIKey)
    case _ => None
  }

  type Slots = map<int, Payload>

  /** The cache's contents. An empty byte string is the nil slice of an unset field. */
  datatype Cache = Cache(
    myInfo: Payload,
    nodeInfo: Slots,
    config: Slots,
    moduleConfig: Slots,
    channels: Slots,
    metadata: Payload,
    deviceUI: Payload)
  {
    function Updated(m: FromRadio, payload: Payload): Cache {
      match m
      case MyInfo(_) => this.(myInfo := payload)
      case NodeInfo(num) => this.(nodeInfo := nodeInfo[num as int := payload])
      case Config(kind) => this.(config := config[kind := payload])
      case ModuleConfig(kind) => this.(moduleConfig := moduleConfig[kind := payload])
      case Channel(index) => this.(channels := channels[index := payload])
      case Metadata => this.(metadata := payload)
      case DeviceUI => this.(deviceUI := payload)
      case _ => this
    }

    function Lookup(k: Key): Option<Payload> {
      match k
      case MyInfoKey => Set(myInfo)
      case ConfigKey(kind) => Held(config, kind)
      case ModuleKey(kind) => Held(moduleConfig, kind)
      case ChannelKey(index) => Held(channels, index)
      case NodeKey(num) => Held(nodeInfo, num)
      case MetadataKey => Set(metadata)
      case DeviceUIKey => Set(deviceUI)
    }

    /** What a WantConfigId is answered from the cache with. */
    predicate Ready() {
      myInfo != []
    }

    ghost function Snapshot(): CacheSnapshot {
      CacheSnapshot(myInfo, Ordered(config), Ordered(moduleConfig), Ordered(channels), Ordered(nodeInfo), metadata,
        deviceUI)
    }
  }

  const EMPTY: Cache := Cache([], map[], map[], map[], map[], [], [])

  function Set(p: Payload): Option<Payload> {
    if p == [] then None else Some(p)
  }

  function Held(m: Slots, k: int): Option<Payload> {
    if k in m then Some(m[k]) else None
  }

  datatype CacheSnapshot = CacheSnapshot(
    myInfo: Payload,
    configs: seq<Payload>,
    moduleConfig: seq<Payload>,
    channels: seq<Payload>,
    nodeInfo: seq<Payload>,
    metadata: Payload,
    deviceUI: Payload)
  {
    /** The order in which sendCachedConfig sends a snapshot. */
    function Frames(): seq<Payload> {
      Single(myInfo) + configs + moduleConfig + channels + nodeInfo + Single(metadata) + Single(deviceUI)
    }
  }

  function Single(p: Payload): seq<Payload> {
    if p == [] then [] else [p]
  }

  // ----- ascending keys

  predicate Ascending(ks: seq<int>) {
    forall i, j :: 0 <= i < j < |ks| ==> ks[i] < ks[j]
  }

  /** Ascending enumerations of one set are equal, so map iteration order cannot show. */
  lemma {:induction false} AscendingUnique(a: seq<int>, b: seq<int>)
    requires Ascending(a) && Ascending(b)
    requires forall k :: k in a <==> k in b
    ensures a == b
  {
    HeadIsElement(a);
    HeadIsElement(b);
    if a != [] && b != [] {
      assert a[0] == b[0];
      forall k
        ensures k in a[1..] <==> k in b[1..]
      {
        assert k in a[1..] <==> k in a && k != a[0];
        assert k in b[1..] <==> k in b && k != b[0];
      }
      AscendingUnique(a[1..], b[1..]);
    }
  }

  lemma HeadIsElement<T>(s: seq<T>)
    ensures s == [] || s[0] in s
  {
  }

  lemma {:induction false} Minimum(s: set<int>) returns (m: int)
    requires s != {}
    ensures m in s && forall k :: k in s ==> m <= k
  {
    if forall k :: k !in s { NothingIn(s); }
    m :| m in s;
    if s != {m} {
      var n := Minimum(s - {m});
      assert s == (s - {m}) + {m};
      m := if n < m then n else m;
    }
  }

  ghost function Sorted(s: set<int>): (ks: seq<int>)
    ensures Ascending(ks) && forall k :: k in ks <==> k in s
  {
    if s == {} then []
    else
      assert exists m :: m in s && forall k :: k in s ==> m <= k by { var m := Minimum(s); }
      var m :| m in s && forall k :: k in s ==> m <= k;
      [m] + Sorted(s - {m})
  }

  ghost function Pick(m: Slots, ks: seq<int>): (ps: seq<Payload>)
    requires forall i :: 0 <= i < |ks| ==> ks[i] in m
    ensures |ps| == |ks| && forall i :: 0 <= i < |ks| ==> ps[i] == m[ks[i]]
  {
    if ks == [] then [] else Pick(m, ks[..|ks| - 1]) + [m[ks[|ks| - 1]]]
  }

  /** A map's payloads by ascending key. */
  ghost function Ordered(m: Slots): seq<Payload> {
    Pick(m, Sorted(m.Keys))
  }

  /** sort.Strings and sort.Slice, on keys that are pairwise different. */
  method SortKeys(keys: seq<int>) returns (ks: seq<int>)
    requires forall i, j :: 0 <= i < j < |keys| ==> keys[i] != keys[j]
    ensures Ascending(ks) && forall k :: k in ks <==> k in keys
  {
    ks := [];
    for i := 0 to |keys|
      invariant Ascending(ks) && forall k :: k in ks <==> k in keys[..i]
    {
      assert keys[i] !in keys[..i];
      var j := 0;
      while j < |ks| && ks[j] < keys[i]
        invariant 0 <= j <= |ks| && forall h :: 0 <= h < j ==> ks[h] < keys[i]
      {
        j := j + 1;
      }
      assert keys[..i + 1] == keys[..i] + [keys[i]];
      assert forall k :: k in ks <==> k in ks[..j] || k in ks[j..];
      ks := ks[..j] + [keys[i]] + ks[j..];
    }
  }

  /** The keys of a map, each once, in whatever order the iteration visits them. */
  method CollectKeys(m: Slots) returns (keys: seq<int>)
    ensures forall k :: k in keys <==> k in m
    ensures forall i, j :: 0 <= i < j < |keys| ==> keys[i] != keys[j]
  {
    keys := [];
    var todo := m.Keys;
    while todo != {}
      invariant todo <= m.Keys && forall k :: k in keys <==> k in m.Keys - todo
      invariant forall i, j :: 0 <= i < j < |keys| ==> keys[i] != keys[j]
      decreases todo
    {
      if forall k :: k !in todo { NothingIn(todo); }
      var k :| k in todo;
      assert k !in keys;
      assert forall x :: x in keys + [k] <==> x in keys || x == k;
      keys := keys + [k];
      todo := todo - {k};
    }
  }

  method CopyKeys(m: Slots, ks: seq<int>) returns (out: seq<Payload>)
    requires forall i :: 0 <= i < |ks| ==> ks[i] in m
    ensures out == Pick(m, ks)
  {
    out := [];
    for i := 0 to |ks|
      invariant out == Pick(m, ks[..i])
    {
      assert ks[..i + 1][..i] == ks[..i];
      out := out + [m[ks[i]]];
    }
    assert ks[..|ks|] == ks;
  }

  /** The payloads of one map, whatever order the iteration visits its keys in. */
  method CopyOrdered(m: Slots) returns (out: seq<Payload>)
    ensures out == Ordered(m)
  {
    var keys := CollectKeys(m);
    var sorted := SortKeys(keys);
    AscendingUnique(sorted, Sorted(m.Keys));
    out := CopyKeys(m, sorted);
  }

  class ConfigCache {
    var myInfo: Payload
    var nodeInfo: Slots
    var config: Slots
    var moduleConfig: Slots
    var channels: Slots
    var metadata: Payload
    var deviceUI: Payload

    function Value(): Cache
      reads this
    {
      Cache(myInfo, nodeInfo, config, moduleConfig, channels, metadata, deviceUI)
    }

    constructor ()
      ensures Value() == EMPTY
    {
      myInfo, metadata, deviceUI := [], [], [];
      nodeInfo, config, moduleConfig, channels := map[], map[], map[], map[];
    }

    method Update(frame: FromRadio, payload: Payload)
      modifies this
      ensures Value() == old(Value()).Updated(frame, payload)
    {
      match frame
      case MyInfo(_) => myInfo := payload;
      case NodeInfo(num) => nodeInfo := nodeInfo[num as int := payload];
      case Config(kind) => config := config[kind := payload];
      case ModuleConfig(kind) => moduleConfig := moduleConfig[kind := payload];
      case Channel(index) => channels := channels[index := payload];
      case Metadata => metadata := payload;
      case DeviceUI => deviceUI := payload;
      case _ =>
    }

    method Snapshot() returns (snap: CacheSnapshot)
      ensures snap == Value().Snapshot()
    {
      var configs := CopyOrdered(config);
      var modules := CopyOrdered(moduleConfig);
      var chans := CopyOrdered(channels);
      var nodes := CopyOrdered(nodeInfo);
      snap := CacheSnapshot(myInfo, configs, modules, chans, nodes, metadata, deviceUI);
    }

    method Ready() returns (ready: bool)
      ensures ready == Value().Ready()
    {
      ready := myInfo != [];
    }

    method Reset()
      modifies this
      ensures Value() == EMPTY
    {
      myInfo, metadata, deviceUI := [], [], [];
      nodeInfo, config, moduleConfig, channels := map[], map[], map[], map[];
    }
  }

  // ----- what the cache means

  /** The most recent payload logged for slot k since the radio last rebooted. */
  function LastFor(cx: Codec, log: seq<Payload>, k: Key): Option<Payload> {
    if log == [] then None
    else
      var p := log[|log| - 1];
      match cx.parseFrom(p)
      case Some(Rebooted(_)) => None
      case Some(m) => if KeyOf(m) == Some(k) then Some(p) else LastFor(cx, log[..|log| - 1], k)
      case None => LastFor(cx, log[..|log| - 1], k)
  }

  /** An update touches its own slot only. */
  lemma UpdateLookup(c: Cache, m: FromRadio, payload: Payload, k: Key)
    requires payload != []
    ensures c.Updated(m, payload).Lookup(k) == if KeyOf(m) == Some(k) then Some(payload) else c.Lookup(k)
  {
  }

  /** The message is not cached. */
  predicate Passing(m: FromRadio) {
    m.ConfigComplete? || m.Rebooted? || m.Packet? || m.OtherFrom?
  }

  /** Two messages of one kind, and with one number where the kind has several slots. */
  predicate SameSlot(m: FromRadio, n: FromRadio) {
    match m
    case MyInfo(_) => n.MyInfo?
    case NodeInfo(num) => n.NodeInfo? && n.num == num
    case Config(kind) => n.Config? && n.kind == kind
    case ModuleConfig(kind) => n.ModuleConfig? && n.kind == kind
    case Channel(index) => n.Channel? && n.index == index
    case Metadata => n.Metadata?
    case DeviceUI => n.DeviceUI?
    case _ => false
  }

  lemma SlotKeys(m: FromRadio, n: FromRadio)
    ensures Passing(m) <==> KeyOf(m) == None
    ensures SameSlot(m, n) <==> KeyOf(m).Some? && KeyOf(m) == KeyOf(n)
    ensures forall k: Key :: EMPTY.Lookup(k) == None
  {
  }

  lemma PassingIsSkipped(c: Cache, m: FromRadio, p: Payload)
    ensures Passing(m) ==> c.Updated(m, p) == c
  {
  }

  lemma SameSlotReplaces(c: Cache, m: FromRadio, p: Payload, n: FromRadio, q: Payload)
    ensures SameSlot(m, n) ==> c.Updated(m, p).Updated(n, q) == c.Updated(n, q)
  {
  }

  /** Every kind but those that pass is cached, and a frame replaces exactly the earlier ones
      of its kind and number. */
  lemma NewerReplaces(c: Cache, m: FromRadio, p: Payload, n: FromRadio, q: Payload)
    requires p != [] && q != []
    ensures EMPTY.Updated(m, p) == EMPTY <==> Passing(m)
    ensures Passing(m) ==> c.Updated(m, p) == c
    ensures EMPTY.Updated(m, p).Updated(n, q) == EMPTY.Updated(n, q) <==> Passing(m) || SameSlot(m, n)
    ensures SameSlot(m, n) ==> c.Updated(m, p).Updated(n, q) == c.Updated(n, q)
  {
    hide Cache.Updated, Cache.Lookup, KeyOf, Passing, SameSlot;
    SlotKeys(m, n);
    PassingIsSkipped(c, m, p);
    PassingIsSkipped(EMPTY, m, p);
    SameSlotReplaces(c, m, p, n, q);
    SameSlotReplaces(EMPTY, m, p, n, q);
    if KeyOf(m).Some? {
      UpdateLookup(EMPTY, m, p, KeyOf(m).value);
      UpdateLookup(EMPTY, n, q, KeyOf(m).value);
      UpdateLookup(EMPTY.Updated(m, p), n, q, KeyOf(m).value);
    }
  }

  /** The kinds in the order in which they are sent, and the numbers within a kind. */
  lemma SendingOrder(a: int, b: int)
    ensures Before(MyInfoKey, ConfigKey(a)) && Before(ConfigKey(a), ModuleKey(b)) && Before(ModuleKey(a), ChannelKey(b))
    ensures Before(ChannelKey(a), NodeKey(b)) && Before(NodeKey(a), MetadataKey) && Before(MetadataKey, DeviceUIKey)
    ensures Before(ConfigKey(a), ConfigKey(b)) <==> a < b
    ensures Before(ModuleKey(a), ModuleKey(b)) <==> a < b
    ensures Before(ChannelKey(a), ChannelKey(b)) <==> a < b
    ensures Before(NodeKey(a), NodeKey(b)) <==> a < b
    ensures forall j, k, l :: Before(j, k) && Before(k, l) ==> Before(j, l)
  {
  }

  /** The strict order in which slots are sent. */
  predicate Before(a: Key, b: Key) {
    || Rank(a) < Rank(b)
    || (Rank(a) == Rank(b) && Number(a) < Number(b))
  }

  function Rank(k: Key): nat {
    match k
    case MyInfoKey => 0
    case ConfigKey(_) => 1
    case ModuleKey(_) => 2
    case ChannelKey(_) => 3
    case NodeKey(_) => 4
    case MetadataKey => 5
    case DeviceUIKey => 6
  }

  function Number(k: Key): int {
    match k
    case ConfigKey(kind) => kind
    case ModuleKey(kind) => kind
    case ChannelKey(index) => index
    case NodeKey(num) => num
    case _ => 0
  }

  function MakeKey(rank: nat, n: int): Key {
    match rank
    case 0 => MyInfoKey
    case 1 => ConfigKey(n)
    case 2 => ModuleKey(n)
    case 3 => ChannelKey(n)
    case 4 => NodeKey(n)
    case 5 => MetadataKey
    case _ => DeviceUIKey
  }

  /** The slots of one rank as a map from their numbers. */
  function RankSlots(c: Cache, rank: nat): Slots {
    match rank
    case 0 => if c.myInfo == [] then map[] else map[0 := c.myInfo]
    case 1 => c.config
    case 2 => c.moduleConfig
    case 3 => c.channels
    case 4 => c.nodeInfo
    case 5 => if c.metadata == [] then map[] else map[0 := c.metadata]
    case _ => if c.deviceUI == [] then map[] else map[0 := c.deviceUI]
  }

  ghost function KeysOf(rank: nat, ns: seq<int>): (ks: seq<Key>)
    ensures |ks| == |ns| && forall i :: 0 <= i < |ns| ==> ks[i] == MakeKey(rank, ns[i])
  {
    seq(|ns|, i requires 0 <= i < |ns| => MakeKey(rank, ns[i]))
  }

  /** The filled slots of rank below `rank`, in the order a snapshot sends them. */
  ghost function KeysBelow(c: Cache, rank: nat): seq<Key> {
    if rank == 0 then []
    else KeysBelow(c, rank - 1) + KeysOf(rank - 1, Sorted(RankSlots(c, rank - 1).Keys))
  }

  ghost function FramesBelow(c: Cache, rank: nat): seq<Payload> {
    if rank == 0 then []
    else FramesBelow(c, rank - 1) + Ordered(RankSlots(c, rank - 1))
  }

  ghost function SnapshotKeys(c: Cache): seq<Key> {
    KeysBelow(c, 7)
  }

  /** ks lists the filled slots of rank below `rank`, in order, and ps their payloads. */
  ghost predicate Lists(c: Cache, rank: nat, ks: seq<Key>, ps: seq<Payload>) {
    && |ks| == |ps|
    && (forall i :: 0 <= i < |ks| ==> Rank(ks[i]) < rank && c.Lookup(ks[i]) == Some(ps[i]))
    && (forall i, j :: 0 <= i < j < |ks| ==> Before(ks[i], ks[j]))
    && (forall k :: Rank(k) < rank && c.Lookup(k).Some? ==> k in ks)
  }

  lemma KeyParts(c: Cache, k: Key)
    ensures Rank(k) < 7 && k == MakeKey(Rank(k), Number(k))
    ensures c.Lookup(k) == Held(RankSlots(c, Rank(k)), Number(k))
  {
  }

  lemma PartsKey(c: Cache, rank: nat, n: int)
    requires rank < 7 && n in RankSlots(c, rank)
    ensures Rank(MakeKey(rank, n)) == rank && Number(MakeKey(rank, n)) == n
  {
  }

  lemma RankGroup(c: Cache, rank: nat)
    requires rank < 7
    ensures var m := RankSlots(c, rank);
            var ks := KeysOf(rank, Sorted(m.Keys));
            && (forall i :: 0 <= i < |ks| ==> Rank(ks[i]) == rank && c.Lookup(ks[i]) == Some(Ordered(m)[i]))
            && (forall i, j :: 0 <= i < j < |ks| ==> Before(ks[i], ks[j]))
            && (forall k :: Rank(k) == rank && c.Lookup(k).Some? ==> k in ks)
  {
    var m := RankSlots(c, rank);
    var ns := Sorted(m.Keys);
    var ks := KeysOf(rank, ns);
    forall i | 0 <= i < |ns|
      ensures Rank(ks[i]) == rank && Number(ks[i]) == ns[i] && c.Lookup(ks[i]) == Some(Ordered(m)[i])
    {
      assert ns[i] in ns;
      PartsKey(c, rank, ns[i]);
      KeyParts(c, ks[i]);
    }
    forall k | Rank(k) == rank && c.Lookup(k).Some?
      ensures k in ks
    {
      KeyParts(c, k);
      assert Number(k) in ns;
      var i :| 0 <= i < |ns| && ns[i] == Number(k);
      assert ks[i] == k;
    }
  }

  lemma {:induction false} ListsBelow(c: Cache, rank: nat)
    requires rank <= 7
    ensures Lists(c, rank, KeysBelow(c, rank), FramesBelow(c, rank))
  {
    if rank > 0 {
      ListsBelow(c, rank - 1);
      RankGroup(c, rank - 1);
      var front, fp := KeysBelow(c, rank - 1), FramesBelow(c, rank - 1);
      var m := RankSlots(c, rank - 1);
      var group, gp := KeysOf(rank - 1, Sorted(m.Keys)), Ordered(m);
      assert KeysBelow(c, rank) == front + group && FramesBelow(c, rank) == fp + gp;
      forall i, j | 0 <= i < j < |front + group|
        ensures Before((front + group)[i], (front + group)[j])
      {
        if i < |front| <= j {
          assert Rank(front[i]) < Rank(group[j - |front|]);
        }
      }
    }
  }

  lemma SingleIsOrdered(p: Payload)
    ensures Ordered(if p == [] then map[] else map[0 := p]) == Single(p)
  {
    var m: Slots := if p == [] then map[] else map[0 := p];
    AscendingUnique(Sorted(m.Keys), if p == [] then [] else [0]);
  }

  lemma NextRank(c: Cache, rank: nat) returns (front: seq<Payload>)
    ensures front == FramesBelow(c, rank)
    ensures FramesBelow(c, rank + 1) == front + Ordered(RankSlots(c, rank))
  {
    front := FramesBelow(c, rank);
  }

  lemma FramesAreBelow(c: Cache)
    ensures c.Snapshot().Frames() == FramesBelow(c, 7)
  {
    var f0 := NextRank(c, 0);
    var f1 := NextRank(c, 1);
    var f2 := NextRank(c, 2);
    var f3 := NextRank(c, 3);
    var f4 := NextRank(c, 4);
    var f5 := NextRank(c, 5);
    var f6 := NextRank(c, 6);
    SingleIsOrdered(c.myInfo);
    SingleIsOrdered(c.metadata);
    SingleIsOrdered(c.deviceUI);
    assert f1 == Single(c.myInfo);
  }

  /** A snapshot sends every filled slot exactly once, strictly in slot order: its
      payloads are those of the slots, and no filled slot is missing. */
  lemma SnapshotComplete(c: Cache)
    ensures var ks, ps := SnapshotKeys(c), c.Snapshot().Frames();
            && |ks| == |ps|
            && (forall i :: 0 <= i < |ks| ==> c.Lookup(ks[i]) == Some(ps[i]))
            && (forall i, j :: 0 <= i < j < |ks| ==> Before(ks[i], ks[j]))
            && (forall k :: c.Lookup(k).Some? <==> k in ks)
  {
    var ks, ps := SnapshotKeys(c), c.Snapshot().Frames();
    ListsBelow(c, 7);
    FramesAreBelow(c);
    forall k
      ensures c.Lookup(k).Some? <==> k in ks
    {
      KeyParts(c, k);
      if k in ks {
        var i :| 0 <= i < |ks| && ks[i] == k;
      }
    }
  }
}
