/**
 Messages, their encoding, and the packets the daemon builds from them.

 A property list is the record of the items the daemon looks at plus all the others; turning
 one into text and back is a parameter, `Codec`, assumed lossless (`Lossless`).
 */
module Protocol {
  import opened Base
  import opened Wire
  import opened DeviceTable

  const MESSAGE_RESULT: nat := 1
  const MESSAGE_CONNECT: nat := 2
  const MESSAGE_LISTEN: nat := 3
  const MESSAGE_DEVICE_ADD: nat := 4
  const MESSAGE_DEVICE_REMOVE: nat := 5
  const MESSAGE_PLIST: nat := 8

  const RESULT_OK: nat := 0
  const RESULT_BADCOMMAND: nat := 1
  const RESULT_BADDEV: nat := 2
  const RESULT_CONNREFUSED: nat := 3
  const RESULT_BADVERSION: nat := 6

  /** The items of a "Properties" dictionary. */
  datatype Props = Props(device: Option<nat>, serial: Option<string>, location: Option<nat>, product: Option<nat>)

  datatype Message = Message(
    kind: Option<string>,    // MessageType
    device: Option<nat>,     // DeviceID
    port: Option<nat>,       // PortNumber
    number: Option<nat>,     // Number
    record: Option<string>,  // PairRecordID
    host: Option<string>,    // HostAddress
    props: Option<Props>,    // Properties
    rest: map<string, string>)

  const NO_ITEMS: Message := Message(None, None, None, None, None, None, None, map[])

  /** The items every request of the daemon's own carries. */
  const OWN_ITEMS: map<string, string> :=
    map["BundleID" := "com.corellium.usbfluxd", "ProgName" := "usbfluxd", "kLibUSBMuxVersion" := "3"]

  function OwnRequest(kind: string): Message { NO_ITEMS.(kind := Some(kind), rest := OWN_ITEMS) }

  function SerialOf(m: Message): Option<string> { if m.props.Some? then m.props.value.serial else None }

  /** One entry of the instance report. */
  datatype Instance = Instance(id: nat, isUnix: bool, service: string, host: string, port: nat, count: nat,
      serials: seq<string>)

  /** The answers of the query commands. */
  datatype Report = DeviceList(devices: Table<Message>) | ListenerList(slots: seq<nat>) | Instances(entries: seq<Instance>)

  datatype Codec = Codec(enc: Message -> seq<byte>, dec: seq<byte> -> Option<Message>, report: Report -> seq<byte>)

  ghost predicate Lossless(w: Codec) {
    forall m :: w.dec(w.enc(m)) == Some(m)
  }

  function PlistPacket(w: Codec, version: nat, tag: nat, m: Message): Packet {
    Packet(version, MESSAGE_PLIST, tag, w.enc(m))
  }

  /** The answer to a command, in the protocol version the client speaks. */
  function ResultPacket(w: Codec, version: nat, tag: nat, result: nat): Packet {
    if version == 1 then PlistPacket(w, 1, tag, NO_ITEMS.(kind := Some("Result"), number := Some(result)))
    else Packet(version, MESSAGE_RESULT, tag, EncodeWord(result))
  }

  function Zeros(n: nat): (b: seq<byte>)
    ensures |b| == n
  {
    seq(n, _ => 0)
  }

  function Bytes(s: string): (b: seq<byte>)
    ensures |b| == |s|
  {
    seq(|s|, i requires 0 <= i < |s| => s[i] as int % 256)
  }

  /** The fixed-size device record of the binary protocol. */
  function DeviceRecord(m: Message): (b: seq<byte>)
    ensures |b| == 268
  {
    var p := if m.props.Some? then m.props.value else Props(None, None, None, None);
    var serial := if p.serial.Some? then Bytes(p.serial.value) else [];
    var text := if |serial| <= 255 then serial else serial[..255];
    EncodeWord(if m.device.Some? then m.device.value else 0)
    + EncodeWord(if p.product.Some? then p.product.value else 0)[..2]
    + text + Zeros(256 - |text|) + Zeros(2)
    + EncodeWord(if p.location.Some? then p.location.value else 0)
  }

  function DetachedMessage(id: nat): Message { NO_ITEMS.(kind := Some("Detached"), device := Some(id)) }

  /** What a listener speaking `version` is sent for a device. */
  function DeviceBody(w: Codec, version: nat, m: Message): seq<byte> {
    if version == 1 then w.enc(m) else DeviceRecord(m)
  }

  function BodyFor(w: Codec, version: nat): Message -> seq<byte> { m => DeviceBody(w, version, m) }

  function NotePacket(w: Codec, version: nat, n: Note<Message>): Packet {
    match n
    case Attached(e) => Packet(version, if version == 1 then MESSAGE_PLIST else MESSAGE_DEVICE_ADD, 0,
        DeviceBody(w, version, e.body))
    case Detached(id) =>
      if version == 1 then PlistPacket(w, 1, 0, DetachedMessage(id))
      else Packet(version, MESSAGE_DEVICE_REMOVE, 0, EncodeWord(id))
  }

  function NotePackets(w: Codec, version: nat, ns: seq<Note<Message>>): (ps: seq<Packet>)
    ensures |ps| == |ns|
  {
    if ns == [] then [] else NotePackets(w, version, ns[..|ns| - 1]) + [NotePacket(w, version, ns[|ns| - 1])]
  }

  /** How a client reads a packet as a change of its own table; None when it is something else. */
  function ReadNote(w: Codec, p: Packet): Option<Note<seq<byte>>> {
    if p.message == MESSAGE_DEVICE_ADD && |p.payload| >= 4 then
      Some(Attached(Entry(DecodeWord(p.payload), p.payload)))
    else if p.message == MESSAGE_DEVICE_REMOVE && |p.payload| >= 4 then Some(Detached(DecodeWord(p.payload)))
    else if p.message == MESSAGE_PLIST && w.dec(p.payload).Some? && w.dec(p.payload).value.device.Some? then
      var m := w.dec(p.payload).value;
      if m.kind == Some("Attached") then Some(Attached(Entry(m.device.value, p.payload)))
      else if m.kind == Some("Detached") then Some(Detached(m.device.value))
      else None
    else None
  }

  function ReadNotes(w: Codec, ps: seq<Packet>): seq<Note<seq<byte>>> {
    if ps == [] then []
    else
      var front := ReadNotes(w, ps[..|ps| - 1]);
      match ReadNote(w, ps[|ps| - 1])
      case None => front
      case Some(n) => front + [n]
  }

  /** An entry as it is stored: under its own id, and announced as attached. */
  predicate EntryOk(e: Entry<Message>) {
    e.id < WORD && e.body.device == Some(e.id) && e.body.kind == Some("Attached")
  }

  predicate NoteOk(n: Note<Message>) {
    match n
    case Attached(e) => EntryOk(e)
    case Detached(id) => id < WORD
  }

  lemma ReadNotePacket(w: Codec, version: nat, n: Note<Message>)
    requires Lossless(w) && NoteOk(n)
    ensures ReadNote(w, NotePacket(w, version, n)) == Some(ProjectNote(BodyFor(w, version), n))
  {
    if version != 1 {
      match n
      case Attached(e) =>
        var b := DeviceRecord(e.body);
        DecodeEncodeWord(e.id, b[4..]);
        assert b == EncodeWord(e.id) + b[4..];
      case Detached(id) =>
        DecodeEncodeWord(id, []);
        assert EncodeWord(id) + [] == EncodeWord(id);
    }
  }

  /** A client that decodes the packets built from notifications gets those notifications. */
  lemma {:induction false} ReadNotePackets(w: Codec, version: nat, ns: seq<Note<Message>>)
    requires Lossless(w) && forall n | n in ns :: NoteOk(n)
    ensures ReadNotes(w, NotePackets(w, version, ns)) == ProjectNotes(BodyFor(w, version), ns)
  {
    if ns != [] {
      var front, n := ns[..|ns| - 1], ns[|ns| - 1];
      ReadNotePackets(w, version, front);
      ReadNotePacket(w, version, n);
      var ps := NotePackets(w, version, ns);
      assert ps[..|ps| - 1] == NotePackets(w, version, front);
    }
  }

  /** The request a binary CONNECT packet stands for. */
  function BinaryConnect(p: Packet): Message
    requires |p.payload| >= 8
  {
    NO_ITEMS.(kind := Some("Connect"), device := Some(DecodeWord(p.payload)), port := Some(Port(p.payload[4], p.payload[5])))
  }

  function Port(low: byte, high: byte): nat { low + 256 * high }

  /** The Connect request a packet carries, if it carries a complete one. */
  function ConnectRequest(w: Codec, p: Packet): Option<Message> {
    if p.message == MESSAGE_PLIST && w.dec(p.payload).Some? then
      var m := w.dec(p.payload).value;
      if m.kind == Some("Connect") && m.device.Some? && m.port.Some? then Some(m) else None
    else if p.message == MESSAGE_CONNECT && |p.payload| >= 8 then Some(BinaryConnect(p))
    else None
  }

  /** The result word of an upstream's answer. */
  function ResultOf(w: Codec, p: Packet): nat {
    if p.message == MESSAGE_RESULT && |p.payload| >= 4 then DecodeWord(p.payload)
    else if p.message == MESSAGE_PLIST && w.dec(p.payload).Some? then
      var m := w.dec(p.payload).value;
      if m.kind == Some("Result") && m.number.Some? then m.number.value % WORD else 0xbaad
    else 0xbaad
  }
}
