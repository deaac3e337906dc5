/**
 How the other end of a socket reads what the daemon sends it, and what it means by what it
 sends: byte by byte and item by item, with the numbers of the protocol written out. What the
 daemon builds or recognizes is compared with these readings.
 */
module Reading {
  import opened Base
  import opened Wire
  import opened DeviceTable
  import opened Protocol

  // ---- numbers in bytes, the low byte first

  function WordAt(b: seq<byte>, k: nat): (n: nat)
    requires k + 4 <= |b|
  {
    var b0: int, b1: int, b2: int, b3: int := b[k], b[k + 1], b[k + 2], b[k + 3];
    b0 + 0x100 * b1 + 0x1_0000 * b2 + 0x100_0000 * b3
  }

  function HalfAt(b: seq<byte>, k: nat): (n: nat)
    requires k + 2 <= |b|
  {
    var low: int, high: int := b[k], b[k + 1];
    low + 0x100 * high
  }

  lemma EncodedWord(n: nat)
    ensures WordAt(EncodeWord(n), 0) == n % 0x1_0000_0000 && HalfAt(EncodeWord(n), 0) == n % 0x1_0000
  {
    TwoBytes(n);
    LowByte(n % 256, n / 256);
    var n1 := n / 256;
    var n2 := n1 / 256;
    var n3 := n2 / 256;
    assert n == n % 256 + 256 * n1 && n1 == n1 % 256 + 256 * n2 && n2 == n2 % 256 + 256 * n3;
    assert n3 == n3 % 256 + 256 * (n3 / 256);
    assert EncodeWord(n) == [n % 256, n1 % 256, n2 % 256, n3 % 256];
    assert n == WordAt(EncodeWord(n), 0) + 0x1_0000_0000 * (n3 / 256);
    assert n == HalfAt(EncodeWord(n), 0) + 0x1_0000 * n2;
  }

  lemma DecodedWord(b: seq<byte>)
    requires |b| >= 4
    ensures DecodeWord(b) == WordAt(b, 0)
  {
  }

  lemma WordShifted(a: seq<byte>, b: seq<byte>, c: seq<byte>, k: nat)
    requires k == |a| && |b| >= 4
    ensures WordAt(a + b + c, k) == WordAt(b, 0) && HalfAt(a + b + c, k) == HalfAt(b, 0)
  {
    var d := a + b + c;
    assert d[k] == b[0] && d[k + 1] == b[1] && d[k + 2] == b[2] && d[k + 3] == b[3];
  }

  // ---- packets

  /** The bytes are a packet: its length, version, message number, tag and payload. */
  predicate IsPacket(b: seq<byte>, version: nat, message: nat, tag: nat, payload: seq<byte>) {
    && |b| == 16 + |payload| && b[16..] == payload && (|b| < 0x1_0000_0000 ==> WordAt(b, 0) == |b|)
    && WordAt(b, 4) == version && WordAt(b, 8) == message && WordAt(b, 12) == tag
  }

  lemma FourWords(a: seq<byte>, b: seq<byte>, c: seq<byte>, d: seq<byte>, rest: seq<byte>)
    requires |a| == 4 && |b| == 4 && |c| == 4 && |d| == 4
    ensures var f := a + b + c + d + rest;
            && |f| == 16 + |rest| && f[16..] == rest
            && WordAt(f, 0) == WordAt(a, 0) && WordAt(f, 4) == WordAt(b, 0)
            && WordAt(f, 8) == WordAt(c, 0) && WordAt(f, 12) == WordAt(d, 0)
  {
    var f := a + b + c + d + rest;
    hide WordAt, HalfAt;
    assert f == [] + a + (b + c + d + rest) && f == a + b + (c + d + rest) && f == (a + b) + c + (d + rest);
    WordShifted([], a, b + c + d + rest, 0);
    WordShifted(a, b, c + d + rest, 4);
    WordShifted(a + b, c, d + rest, 8);
    WordShifted(a + b + c, d, rest, 12);
  }

  /** What the daemon writes for a packet is read as that packet. */
  lemma FrameReads(p: Packet)
    requires p.version < WORD && p.message < WORD && p.tag < WORD
    ensures IsPacket(Frame(p), p.version, p.message, p.tag, p.payload)
  {
    hide EncodeWord, WordAt, HalfAt;
    EncodedWord(HEADER + |p.payload|);
    EncodedWord(p.version);
    EncodedWord(p.message);
    EncodedWord(p.tag);
    FourWords(EncodeWord(HEADER + |p.payload|), EncodeWord(p.version), EncodeWord(p.message), EncodeWord(p.tag), p.payload);
  }

  /** And what it reads is what was written. */
  lemma UnframeReads(b: seq<byte>)
    requires |b| >= 16
    ensures var p := Unframe(b); WordAt(b, 0) == |b| ==> IsPacket(b, p.version, p.message, p.tag, p.payload)
  {
  }

  /** The packet is a property list that says m. */
  predicate Carries(w: Codec, p: Packet, m: Message) { p.message == 8 && w.dec(p.payload) == Some(m) }

  /** The bytes are one property-list packet that says m, as upstreams are sent them. */
  predicate Requests(w: Codec, b: seq<byte>, tag: nat, m: Message) {
    |b| >= 16 && IsPacket(b, 1, 8, tag, b[16..]) && w.dec(b[16..]) == Some(m)
  }

  lemma RequestReads(w: Codec, tag: nat, m: Message)
    requires Lossless(w) && tag < WORD
    ensures Requests(w, Frame(PlistPacket(w, 1, tag, m)), tag, m)
  {
    hide Frame, IsPacket, WordAt;
    var p := PlistPacket(w, 1, tag, m);
    FrameReads(p);
    assert Frame(p)[16..] == p.payload by { PayloadOf(p); }
  }

  lemma PayloadOf(p: Packet)
    ensures Frame(p)[16..] == p.payload
  {
  }

  // ---- results

  predicate PlistResult(w: Codec, p: Packet, n: nat) {
    && p.message == 8 && w.dec(p.payload).Some?
    && w.dec(p.payload).value.kind == Some("Result") && w.dec(p.payload).value.number == Some(n)
  }

  predicate BinaryResult(p: Packet, n: nat) { p.message == 1 && |p.payload| >= 4 && WordAt(p.payload, 0) == n }

  /** The number of an upstream's answer: that of a Result, binary or property list, in 32 bits, and a failure otherwise. */
  lemma ResultReads(w: Codec, p: Packet, n: nat)
    ensures PlistResult(w, p, n) ==> ResultOf(w, p) == n % 0x1_0000_0000
    ensures BinaryResult(p, n) ==> ResultOf(w, p) == n
  {
  }

  lemma NoResultReads(w: Codec, p: Packet)
    requires forall n :: !PlistResult(w, p, n) && !BinaryResult(p, n)
    ensures ResultOf(w, p) == 0xbaad
  {
    if p.message == 1 && |p.payload| >= 4 {
      assert BinaryResult(p, WordAt(p.payload, 0));
    }
    if p.message == 8 && w.dec(p.payload).Some? && w.dec(p.payload).value.number.Some? {
      assert !PlistResult(w, p, w.dec(p.payload).value.number.value);
    }
  }

  /** The upstream agrees. */
  predicate Agrees(w: Codec, p: Packet) {
    || (p.message == 1 && |p.payload| >= 4 && p.payload[..4] == [0, 0, 0, 0])
    || (p.message == 8 && w.dec(p.payload).Some? && w.dec(p.payload).value.kind == Some("Result")
        && w.dec(p.payload).value.number.Some? && w.dec(p.payload).value.number.value % 0x1_0000_0000 == 0)
  }

  lemma AgreesReads(w: Codec, p: Packet)
    ensures Agrees(w, p) <==> ResultOf(w, p) == RESULT_OK
  {
    if p.message == 1 && |p.payload| >= 4 {
      DecodedWord(p.payload);
      assert p.payload[..4] == [p.payload[0], p.payload[1], p.payload[2], p.payload[3]];
    }
  }

  /** A client that speaks this version reads the packet as the answer with that tag and number, and nothing else. */
  predicate SaysResult(w: Codec, version: nat, p: Packet, tag: nat, n: nat) {
    && p.version == version && p.tag == tag
    && if version == 1 then Carries(w, p, Message(Some("Result"), None, None, Some(n), None, None, None, map[]))
       else p.message == 1 && |p.payload| == 4 && WordAt(p.payload, 0) == n
  }

  lemma ResultPacketReads(w: Codec, version: nat, tag: nat, n: nat)
    requires Lossless(w) && n < WORD
    ensures SaysResult(w, version, ResultPacket(w, version, tag, n), tag, n)
    ensures ResultOf(w, ResultPacket(w, version, tag, n)) == n
  {
    EncodedWord(n);
    DecodedWord(EncodeWord(n));
    hide EncodeWord, DecodeWord, WordAt, HalfAt;
  }

  // ---- requests

  /** A message of the daemon's own: its type, the record it is about, and the items all of them carry. */
  function DaemonSays(kind: string, record: Option<string>): Message {
    Message(Some(kind), None, None, None, record, None, None,
            map["BundleID" := "com.corellium.usbfluxd", "ProgName" := "usbfluxd", "kLibUSBMuxVersion" := "3"])
  }

  predicate HasSerial(m: Message, serial: string) { m.props.Some? && m.props.value.serial == Some(serial) }

  /** What a client asks for with the packet: a property list that is passed on as it is, or device and port in binary. */
  predicate AsksToConnect(w: Codec, p: Packet, m: Message) {
    || (Carries(w, p, m) && m.kind == Some("Connect") && m.device.Some? && m.port.Some?)
    || (p.message == 2 && |p.payload| >= 8
        && m == Message(Some("Connect"), Some(WordAt(p.payload, 0)), Some(HalfAt(p.payload, 4)),
                        None, None, None, None, map[]))
  }

  lemma BinaryIs(p: Packet)
    requires |p.payload| >= 8
    ensures BinaryConnect(p) == Message(Some("Connect"), Some(WordAt(p.payload, 0)), Some(HalfAt(p.payload, 4)),
                                        None, None, None, None, map[])
  {
    DecodedWord(p.payload);
    hide DecodeWord, WordAt;
  }

  lemma ConnectReads(w: Codec, p: Packet, m: Message)
    ensures AsksToConnect(w, p, m) <==> ConnectRequest(w, p) == Some(m)
  {
    hide BinaryConnect, WordAt, HalfAt;
    if |p.payload| >= 8 {
      BinaryIs(p);
    }
  }

  /** The binary form of a request: device and port, both with the low byte first. */
  lemma BinaryConnectReads(w: Codec, p: Packet, device: nat, port: nat)
    requires p.message == 2 && device < 0x1_0000_0000 && port < 0x1_0000
    requires p.payload == EncodeWord(device) + EncodeWord(port)
    ensures AsksToConnect(w, p, Message(Some("Connect"), Some(device), Some(port), None, None, None, None, map[]))
  {
    EncodedWord(device);
    EncodedWord(port);
    hide EncodeWord, WordAt, HalfAt;
    var d, q := EncodeWord(device), EncodeWord(port);
    assert d + q == [] + d + q && d + q == d + q + [];
    WordShifted([], d, q, 0);
    WordShifted(d, q, [], 4);
  }

  // ---- notifications

  /** The binary record of a device: its number, product, serial number, padded with zeros or cut, and location. */
  predicate RecordSays(b: seq<byte>, id: nat, product: nat, serial: string, location: nat) {
    && |b| == 268 && WordAt(b, 0) == id && HalfAt(b, 4) == product
    && (forall k :: 0 <= k < 256 ==> b[6 + k] == if k < 255 && k < |serial| then serial[k] as int % 256 else 0)
    && b[262] == 0 && b[263] == 0 && WordAt(b, 264) == location
  }

  /** The record describes the device; what a property list leaves out is 0 or empty. */
  predicate Depicts(b: seq<byte>, m: Message) {
    var device := if m.device.Some? then m.device.value else 0;
    if m.props.None? then RecordSays(b, device % 0x1_0000_0000, 0, "", 0)
    else
      var p := m.props.value;
      RecordSays(b, device % 0x1_0000_0000, (if p.product.Some? then p.product.value else 0) % 0x1_0000,
                 if p.serial.Some? then p.serial.value else "",
                 (if p.location.Some? then p.location.value else 0) % 0x1_0000_0000)
  }

  /** The fields of a record one after the other. */
  function Fields(device: nat, product: nat, serial: string, location: nat): (b: seq<byte>) {
    var text := if |serial| <= 255 then Bytes(serial) else Bytes(serial)[..255];
    EncodeWord(device) + EncodeWord(product)[..2] + text + Zeros(256 - |text|) + Zeros(2) + EncodeWord(location)
  }

  lemma FieldsRead(device: nat, product: nat, serial: string, location: nat)
    ensures RecordSays(Fields(device, product, serial, location),
                       device % 0x1_0000_0000, product % 0x1_0000, serial, location % 0x1_0000_0000)
  {
    EncodedWord(device);
    EncodedWord(product);
    EncodedWord(location);
    var d, q, l := EncodeWord(device), EncodeWord(product), EncodeWord(location);
    hide EncodeWord;
    var text := if |serial| <= 255 then Bytes(serial) else Bytes(serial)[..255];
    var b := d + q[..2] + text + Zeros(256 - |text|) + Zeros(2) + l;
    assert b == Fields(device, product, serial, location);
    assert b[0] == d[0] && b[1] == d[1] && b[2] == d[2] && b[3] == d[3];
    assert b[4] == q[0] && b[5] == q[1];
    assert b[264] == l[0] && b[265] == l[1] && b[266] == l[2] && b[267] == l[3];
    forall k | 0 <= k < 256
      ensures b[6 + k] == if k < 255 && k < |serial| then serial[k] as int % 256 else 0
    {
      if k < |text| {
        assert b[6 + k] == text[k];
      } else {
        assert b[6 + k] == Zeros(256 - |text|)[k - |text|];
      }
    }
  }

  lemma RecordIs(m: Message, p: Props)
    requires p == if m.props.Some? then m.props.value else Props(None, None, None, None)
    ensures DeviceRecord(m) == Fields(if m.device.Some? then m.device.value else 0,
                                      if p.product.Some? then p.product.value else 0,
                                      if p.serial.Some? then p.serial.value else "",
                                      if p.location.Some? then p.location.value else 0)
  {
    hide EncodeWord, Zeros;
    assert Bytes("") == [];
  }

  /** Every device record says what the property list it was made from says. */
  lemma RecordReads(m: Message)
    ensures Depicts(DeviceRecord(m), m)
  {
    var p := if m.props.Some? then m.props.value else Props(None, None, None, None);
    hide RecordSays, DeviceRecord, Fields;
    RecordIs(m, p);
    FieldsRead(if m.device.Some? then m.device.value else 0, if p.product.Some? then p.product.value else 0,
               if p.serial.Some? then p.serial.value else "", if p.location.Some? then p.location.value else 0);
  }

  /** A listener that speaks this version reads the body as that device: the property list itself, or its record. */
  predicate BodySays(w: Codec, version: nat, body: seq<byte>, m: Message) {
    if version == 1 then w.dec(body) == Some(m) else Depicts(body, m)
  }

  lemma BodyReads(w: Codec, version: nat, m: Message)
    requires Lossless(w)
    ensures BodySays(w, version, DeviceBody(w, version, m), m)
  {
    RecordReads(m);
    hide Depicts, DeviceRecord;
  }

  /** The packet announces the change to a listener that speaks this version. */
  predicate Tells(w: Codec, version: nat, p: Packet, n: Note<Message>) {
    && p.version == version && p.tag == 0
    && match n
       case Attached(e) => p.message == (if version == 1 then 8 else 4) && BodySays(w, version, p.payload, e.body)
       case Detached(id) =>
         if version == 1 then Carries(w, p, Message(Some("Detached"), Some(id), None, None, None, None, None, map[]))
         else p.message == 5 && |p.payload| == 4 && WordAt(p.payload, 0) == id
  }

  /** A notification says which device comes, and everything the client can know of it, or which goes. */
  lemma NoteReads(w: Codec, version: nat, n: Note<Message>)
    requires Lossless(w) && NoteOk(n)
    ensures Tells(w, version, NotePacket(w, version, n), n)
  {
    hide Depicts, DeviceRecord, EncodeWord, WordAt, HalfAt;
    match n
    case Attached(e) => BodyReads(w, version, e.body);
    case Detached(id) => EncodedWord(id);
  }
}
