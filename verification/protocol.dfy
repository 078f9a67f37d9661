/** The values the broker handles: bytes, the protobuf messages it looks into, and
    the protobuf library itself, which is a parameter of everything that needs it. */
module Protocol {

  type byte = x: int | 0 <= x < 0x100
  type u32 = x: int | 0 <= x < 0x1_0000_0000
  type Payload = seq<byte>

  /** The identity of a connection. Two connections never share one. */
  type ClientId = nat

  datatype Option<+T> = None | Some(value: T)

  /** The port numbers the broker tells apart. */
  datatype Port = TextMessage | TextMessageCompressed | ReplyApp | Admin | OtherPort(number: u32)

  datatype Data = Data(port: Port, payload: Payload)

  /** `decoded` is None for encrypted packets; `fields` stands for all other fields. */
  datatype MeshPacket = MeshPacket(id: u32, decoded: Option<Data>, fields: Payload)

  /** What the radio sends. Config variants are told apart by an ordered key. */
  datatype FromRadio =
    | MyInfo(nodeNum: u32)
    | NodeInfo(num: u32)
    | Config(kind: int)
    | ModuleConfig(kind: int)
    | Channel(index: int)
    | Metadata
    | DeviceUI
    | ConfigComplete(id: u32)
    | Rebooted(flag: bool)
    | Packet(packet: MeshPacket)
    | OtherFrom

  /** What a client sends. `OtherTo` is every variant the broker forwards unread. */
  datatype ToRadio =
    | WantConfig(id: u32)
    | Disconnect
    | SendPacket(packet: MeshPacket)
    | OtherTo(body: Payload)

  /** The protobuf library, as the functions the broker calls. */
  datatype Codec = Codec(
    parseFrom: Payload -> Option<FromRadio>,
    parseTo: Payload -> Option<ToRadio>,
    marshalComplete: u32 -> Payload,
    marshalPacket: MeshPacket -> Payload,
    marshalTo: ToRadio -> Payload,
    adminReply: Payload -> Option<string>)
  {
    /** Marshalled messages parse back to themselves, and a FromRadio is never empty. */
    ghost predicate Lawful() {
      && (forall x: u32 :: parseFrom(marshalComplete(x)) == Some(ConfigComplete(x)))
      && (forall x: u32 :: marshalComplete(x) != [])
      && (forall p: MeshPacket :: parseFrom(marshalPacket(p)) == Some(Packet(p)))
      && (forall p: MeshPacket :: marshalPacket(p) != [])
      && (forall m: ToRadio :: parseTo(marshalTo(m)) == Some(m))
      && (forall m: ToRadio :: !m.OtherTo? ==> marshalTo(m) != [])
    }

    /** The canned-message blob an admin reply carries, if the packet is one. */
    function CannedReply(p: MeshPacket): Option<string> {
      if p.decoded.Some? && p.decoded.value.port == Admin
      then adminReply(p.decoded.value.payload)
      else None
    }
  }

  /** Chat-style ports, whose radio echo is kept from the sender. */
  predicate SuppressesOriginEcho(p: MeshPacket) {
    && p.decoded.Some?
    && p.decoded.value.port in {TextMessage, TextMessageCompressed, ReplyApp}
  }

  /** A set in which nothing is found is the empty set. */
  lemma NothingIn<T>(s: set<T>)
    requires forall x :: x !in s
    ensures s == {}
  {
    assert s == {};
  }
}
