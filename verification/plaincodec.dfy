/** A codec that obeys the laws the other modules ask of the protobuf library, so that
    what they prove about every lawful codec is not about none. Numbers are in unary. */
module PlainCodec {
  import opened Protocol

  datatype Piece<T> = Piece(value: T, rest: seq<byte>) | Broken

  function PutNat(n: nat): seq<byte> {
    if n == 0 then [0] else [1] + PutNat(n - 1)
  }

  function TakeNat(s: seq<byte>): (p: Piece<nat>)
    ensures p.Piece? ==> |p.rest| < |s|
  {
    if s == [] then Broken
    else if s[0] == 0 then Piece(0, s[1..])
    else
      match TakeNat(s[1..])
      case Piece(n, rest) => Piece(n + 1, rest)
      case Broken => Broken
  }

  lemma {:induction false} NatBack(n: nat, rest: seq<byte>)
    ensures TakeNat(PutNat(n) + rest) == Piece(n, rest)
  {
    if n > 0 {
      NatBack(n - 1, rest);
      assert (PutNat(n) + rest)[1..] == PutNat(n - 1) + rest;
    }
  }

  function PutBytes(p: Payload): seq<byte> {
    PutNat(|p|) + p
  }

  function TakeBytes(s: seq<byte>): Piece<Payload> {
    match TakeNat(s)
    case Piece(n, rest) => if n <= |rest| then Piece(rest[..n], rest[n..]) else Broken
    case Broken => Broken
  }

  lemma BytesBack(p: Payload, rest: seq<byte>)
    ensures TakeBytes(PutBytes(p) + rest) == Piece(p, rest)
  {
    NatBack(|p|, p + rest);
    assert PutBytes(p) + rest == PutNat(|p|) + (p + rest);
  }

  function PortNumber(port: Port): nat {
    match port
    case TextMessage => 0
    case TextMessageCompressed => 1
    case ReplyApp => 2
    case Admin => 3
    case OtherPort(n) => 4 + n
  }

  function PortOf(n: nat): Port {
    if n == 0 then TextMessage
    else if n == 1 then TextMessageCompressed
    else if n == 2 then ReplyApp
    else if n == 3 then Admin
    else OtherPort(Low(n - 4))
  }

  function Low(n: nat): u32 {
    n % 0x1_0000_0000
  }

  function PutPacket(p: MeshPacket): seq<byte> {
    PutNat(p.id) + PutBytes(p.fields) +
    (if p.decoded == None then [] else PutNat(PortNumber(p.decoded.value.port)) + PutBytes(p.decoded.value.payload))
  }

  function TakePacket(s: seq<byte>): Option<MeshPacket> {
    match TakeNat(s)
    case Broken => None
    case Piece(id, afterId) =>
      match TakeBytes(afterId)
      case Broken => None
      case Piece(fields, rest) =>
        if rest == [] then Some(MeshPacket(Low(id), None, fields))
        else
          match TakeNat(rest)
          case Broken => None
          case Piece(port, body) =>
            match TakeBytes(body)
            case Broken => None
            case Piece(payload, _) => Some(MeshPacket(Low(id), Some(Data(PortOf(port), payload)), fields))
  }

  lemma PacketBack(p: MeshPacket)
    ensures TakePacket(PutPacket(p)) == Some(p)
  {
    hide TakeNat, PutNat, PutBytes, TakeBytes;
    var data :=
      if p.decoded == None then []
      else PutNat(PortNumber(p.decoded.value.port)) + PutBytes(p.decoded.value.payload);
    assert PutPacket(p) == PutNat(p.id) + (PutBytes(p.fields) + data);
    NatBack(p.id, PutBytes(p.fields) + data);
    BytesBack(p.fields, data);
    if p.decoded.Some? {
      var d := p.decoded.value;
      NatBack(PortNumber(d.port), PutBytes(d.payload));
      BytesBack(d.payload, []);
      assert PutBytes(d.payload) + [] == PutBytes(d.payload);
      NatIsSome(PortNumber(d.port));
    }
  }

  lemma NatIsSome(n: nat)
    ensures PutNat(n) != []
  {
  }

  // ----- config keys and text

  function PutInt(k: int): seq<byte> {
    if k < 0 then [1] + PutNat(-k) else [0] + PutNat(k)
  }

  function TakeInt(s: seq<byte>): int {
    if s == [] then 0
    else
      match TakeNat(s[1..])
      case Piece(n, _) => if s[0] == 1 then 0 - n as int else n as int
      case Broken => 0
  }

  lemma IntBack(k: int)
    ensures TakeInt(PutInt(k)) == k
  {
    var n := if k < 0 then -k else k;
    NatBack(n, []);
    assert PutInt(k)[1..] == PutNat(n) == PutNat(n) + [];
  }

  function PutText(text: string): seq<byte> {
    if text == [] then [] else PutNat(text[0] as int) + PutText(text[1..])
  }

  function TakeText(s: seq<byte>): Option<string>
    decreases |s|
  {
    if s == [] then Some([])
    else
      match TakeNat(s)
      case Broken => None
      case Piece(n, rest) =>
        if 0xD800 <= n < 0xE000 || n >= 0x11_0000 then None
        else
          match TakeText(rest)
          case Some(text) => Some([n as char] + text)
          case None => None
  }

  lemma {:induction false} TextBack(text: string)
    ensures TakeText(PutText(text)) == Some(text)
  {
    if text != [] {
      NatIsSome(text[0] as int);
      NatBack(text[0] as int, PutText(text[1..]));
      TextBack(text[1..]);
      assert [text[0]] + text[1..] == text;
    }
  }

  // ----- the codec

  function PutFrom(m: FromRadio): seq<byte> {
    match m
    case ConfigComplete(id) => [0] + PutNat(id)
    case Packet(p) => [1] + PutPacket(p)
    case MyInfo(num) => [2] + PutNat(num)
    case NodeInfo(num) => [3] + PutNat(num)
    case Config(kind) => [4] + PutInt(kind)
    case ModuleConfig(kind) => [5] + PutInt(kind)
    case Channel(index) => [6] + PutInt(index)
    case Metadata => [7]
    case DeviceUI => [8]
    case Rebooted(flag) => if flag then [9, 1] else [9]
    case OtherFrom => [10]
  }

  function TakeNumber(s: seq<byte>): Option<u32> {
    match TakeNat(s)
    case Piece(n, _) => Some(Low(n))
    case Broken => None
  }

  function TakeFrom(s: seq<byte>): Option<FromRadio> {
    if s == [] then None
    else
      var body := s[1..];
      match s[0]
      case 0 => (match TakeNumber(body) case Some(n) => Some(ConfigComplete(n)) case None => None)
      case 1 => (match TakePacket(body) case Some(p) => Some(Packet(p)) case None => None)
      case 2 => (match TakeNumber(body) case Some(n) => Some(MyInfo(n)) case None => None)
      case 3 => (match TakeNumber(body) case Some(n) => Some(NodeInfo(n)) case None => None)
      case 4 => Some(Config(TakeInt(body)))
      case 5 => Some(ModuleConfig(TakeInt(body)))
      case 6 => Some(Channel(TakeInt(body)))
      case 7 => Some(Metadata)
      case 8 => Some(DeviceUI)
      case 9 => Some(Rebooted(body != []))
      case 10 => Some(OtherFrom)
      case _ => None
  }

  lemma NumberBack(n: u32)
    ensures TakeNumber(PutNat(n)) == Some(n)
  {
    hide PutNat, TakeNat;
    NatBack(n, []);
    assert PutNat(n) + [] == PutNat(n);
  }

  lemma FromBack(m: FromRadio)
    ensures PutFrom(m) != [] && TakeFrom(PutFrom(m)) == Some(m)
  {
    hide TakeNat, PutNat, PutPacket, TakePacket, PutInt, TakeInt, TakeNumber;
    match m
    case ConfigComplete(id) => NumberBack(id);
    case Packet(p) => PacketBack(p);
    case MyInfo(num) => NumberBack(num);
    case NodeInfo(num) => NumberBack(num);
    case Config(kind) => IntBack(kind);
    case ModuleConfig(kind) => IntBack(kind);
    case Channel(index) => IntBack(index);
    case _ =>
  }

  function PutTo(m: ToRadio): seq<byte> {
    match m
    case WantConfig(x) => [0] + PutNat(x)
    case SendPacket(p) => [1] + PutPacket(p)
    case Disconnect => [2]
    case OtherTo(body) => [3] + body
  }

  function TakeTo(s: seq<byte>): Option<ToRadio> {
    if s == [] then None
    else
      var body := s[1..];
      match s[0]
      case 0 => (match TakeNumber(body) case Some(n) => Some(WantConfig(n)) case None => None)
      case 1 => (match TakePacket(body) case Some(p) => Some(SendPacket(p)) case None => None)
      case 2 => Some(Disconnect)
      case _ => Some(OtherTo(body))
  }

  lemma ToBack(m: ToRadio)
    ensures PutTo(m) != [] && TakeTo(PutTo(m)) == Some(m)
  {
    hide TakeNat, PutNat, PutPacket, TakePacket, TakeNumber;
    match m
    case WantConfig(x) => NumberBack(x);
    case SendPacket(p) => PacketBack(p);
    case _ =>
  }

  const PLAIN: Codec := Codec(
    s => TakeFrom(s),
    s => TakeTo(s),
    x => PutFrom(ConfigComplete(x)),
    p => PutFrom(Packet(p)),
    m => PutTo(m),
    s => TakeText(s))

  /** The laws can be met. */
  lemma PlainIsLawful()
    ensures PLAIN.Lawful()
  {
    hide TakeFrom, PutFrom, TakeTo, PutTo;
    forall m: FromRadio
      ensures PutFrom(m) != [] && TakeFrom(PutFrom(m)) == Some(m)
    {
      FromBack(m);
    }
    forall m: ToRadio
      ensures PutTo(m) != [] && TakeTo(PutTo(m)) == Some(m)
    {
      ToBack(m);
    }
  }

  /** Under this codec the radio can send every message: cacheable ones, Rebooted, and all. */
  lemma RadioCanSay(m: FromRadio) returns (p: Payload)
    ensures p != [] && PLAIN.parseFrom(p) == Some(m)
  {
    p := PutFrom(m);
    FromBack(m);
  }

  /** And it can answer every request with every canned-message text. */
  lemma RadioCanReply(id: u32, raw: string) returns (p: MeshPacket)
    ensures p.id == id && PLAIN.CannedReply(p) == Some(raw)
  {
    p := MeshPacket(id, Some(Data(Admin, PutText(raw))), []);
    TextBack(raw);
  }
}
