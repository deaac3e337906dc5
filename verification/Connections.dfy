/**
 The two connection records and the steps that touch one client, one upstream, or one pair:
 queueing, partial sends and receives, the switch from packets to raw bytes, and the masks.

 Besides the fields of the C structures the records carry histories: every byte read from
 and written to each socket, the packets consumed and queued, the raw bytes relayed.
 */
module Connections {
  import opened Base
  import opened Wire
  import opened DeviceTable
  import opened Protocol

  const CLIENT_IB: nat := 0x1_0000
  const REMOTE_IB: nat := 0x8_0000
  const REPLY_BUF: nat := 0x1_0000

  datatype Mask = Mask(pin: bool, pout: bool)

  /** `|` on masks. */
  function Either(a: Mask, b: Mask): Mask { Mask(a.pin || b.pin, a.pout || b.pout) }

  datatype ClientState = Command | Listen | Connecting1 | Connecting2 | Connected

  datatype Client = Client(
    fd: int, state: ClientState, events: Mask, devents: Mask,
    ob: seq<byte>, obCap: nat, obFreed: bool, ib: seq<byte>, ibFreed: bool,
    version: nat, connectTag: nat, connectDevice: nat, remote: Option<nat>,
    // histories of what was read: the Connect request that was forwarded, all bytes, packets consumed,
    // bytes dropped at the handoff, raw bytes, and whether a whole packet is in the buffer
    request: Option<Message>, rx: seq<byte>, commands: seq<Packet>, dropped: seq<byte>, up: seq<byte>, held: bool,
    // histories of what was written: all bytes, packets queued, raw bytes
    tx: seq<byte>, out: seq<Packet>, down: seq<byte>,
    // notifications queued since Listen, where they begin in `out`, and whether a packet that only looks like
    // one came between
    notes: seq<Note<Message>>, mark: nat, mixed: bool)

  datatype RemoteState = RCommand | RListen | RConnecting1 | RConnecting2 | RConnected | RDead

  datatype LastCommand = NoCommand | ListenCmd | Forwarded

  /** The other end: the renamed local socket, or a host and port. */
  datatype Peer = Local | Host(name: string, port: nat)

  datatype Remote = Remote(
    fd: int, id: nat, state: RemoteState, last: LastCommand, events: Mask, devents: Mask,
    ob: seq<byte>, obCap: nat, ib: seq<byte>,
    listener: bool, service: string, peer: Peer, client: Option<nat>,
    // histories: the packet sent first, the Connect request in it, bytes written, raw bytes taken from
    // the client, bytes read, packets dispatched, raw bytes read and handed to the client, raw mode entered
    first: Packet, asked: Option<Message>, tx: seq<byte>, up: seq<byte>,
    rx: seq<byte>, packets: seq<Packet>, raw: seq<byte>, down: seq<byte>, rawMode: bool)

  // ---- queues

  /** Capacity after making room for `len` more bytes, in multiples of a page. */
  function Grown(cap: nat, size: nat, len: nat): (r: nat)
    requires size <= cap
    ensures r >= cap && r >= size + len
  {
    if cap - size < len then (cap + len + 4096) / 4096 * 4096 else cap
  }

  function AppendC(c: Client, b: seq<byte>): Client
    requires |c.ob| <= c.obCap
  {
    c.(ob := c.ob + b, obCap := Grown(c.obCap, |c.ob|, |b|), events := c.events.(pout := true))
  }

  /** `send_pkt`: header and payload in one go. */
  function QueuePacket(c: Client, p: Packet): Client
    requires |c.ob| <= c.obCap
  {
    AppendC(c, Frame(p)).(out := c.out + [p])
  }

  /** An answer of the daemon's own. */
  function QueueReply(w: Codec, c: Client, p: Packet): Client
    requires |c.ob| <= c.obCap
  {
    QueuePacket(c, p).(mixed := c.mixed || Misleads(w, c, p))
  }

  /** A packet among a listener's notifications that is none, but reads as one. */
  predicate Misleads(w: Codec, c: Client, p: Packet) { c.state == Listen && ReadNote(w, p).Some? }

  /** `client_send_packet_data`: an upstream's answer passed on, header first. */
  function PassOn(w: Codec, c: Client, p: Packet): Client
    requires |c.ob| <= c.obCap
  {
    AppendC(AppendC(c, Frame(p)[..HEADER]), p.payload).(out := c.out + [p], mixed := c.mixed || Misleads(w, c, p))
  }

  function QueueNote(w: Codec, c: Client, n: Note<Message>): Client
    requires |c.ob| <= c.obCap
  {
    QueuePacket(c, NotePacket(w, c.version, n)).(notes := c.notes + [n])
  }

  /** A fresh upstream connection with its first packet queued. */
  function NewRemote(fd: int, peer: Peer, first: Packet): Remote {
    var b := Frame(first);
    Remote(fd, 0, RCommand, NoCommand, Mask(true, true), Mask(false, false),
           b, Grown(REPLY_BUF, 0, |b|), [], false, "", peer, None,
           first, None, [], [], [], [], [], [], false)
  }

  function NewClient(fd: int): Client {
    Client(fd, Command, Mask(true, false), Mask(false, false), [], REPLY_BUF, false, [], false, 0, 0, 0, None,
           None, [], [], [], [], false, [], [], [], [], 0, false)
  }

  // ---- client steps

  /** `client_or_events`: the masks only change once the connection is established. */
  function OrEvents(c: Client, m: Mask): Client {
    if c.state != Connected && c.state != Connecting2 then c
    else
      var d := c.(devents := Either(c.devents, m));
      if c.state == Connected then d.(events := Either(c.events, m)) else d
  }

  /** `client_notify_connect`. */
  function NotifyConnect(w: Codec, c: Client, result: nat): Client
    requires |c.ob| <= c.obCap
  {
    if c.state != Connecting1 then c
    else
      var d := QueueReply(w, c, ResultPacket(w, c.version, c.connectTag, result));
      if result == RESULT_OK then
        d.(state := Connecting2, events := Mask(false, true), ib := [], ibFreed := true, dropped := c.ib)
      else d.(state := Command)
  }

  /** `process_send` after a send that accepted n bytes. */
  function Sent(c: Client, n: nat): Client
    requires n <= |c.ob|
  {
    var d := c.(ob := c.ob[n..], tx := c.tx + c.ob[..n]);
    if n < |c.ob| then d else Emptied(d)
  }

  /** The last byte has gone out; if that ends the Result packet, the connection is raw from now on. */
  function Emptied(c: Client): Client {
    var d := c.(events := c.events.(pout := false));
    if c.state == Connecting2 then d.(state := Connected, events := c.devents.(pin := true), obFreed := true) else d
  }

  /** Bytes of a packet under assembly. */
  function Got(c: Client, data: seq<byte>): Client { c.(ib := c.ib + data, rx := c.rx + data) }

  // ---- upstream steps

  function RemoteSent(r: Remote, n: nat): Remote
    requires n <= |r.ob|
  {
    var d := r.(ob := r.ob[n..], tx := r.tx + r.ob[..n]);
    if n < |r.ob| then d
    else
      var e := d.(events := d.events.(pout := false));
      if r.state == RConnecting2 then e.(state := RConnected, events := r.devents.(pin := true)) else e
  }

  function RemoteGot(r: Remote, data: seq<byte>): Remote { r.(ib := r.ib + data, rx := r.rx + data) }

  /** The answer to Connect, on the upstream's side. */
  function ConnectAnswered(r: Remote, result: nat): Remote {
    if result == RESULT_OK then r.(state := RConnected, events := Mask(true, true), rawMode := true) else r
  }

  /** The packet in the buffer is done with. */
  function Consumed(r: Remote, p: Packet): Remote { r.(ib := [], last := NoCommand, packets := r.packets + [p]) }

  // ---- relay steps on a connected pair

  /** Bytes read from the client go straight into the upstream's output buffer. */
  function UpC(c: Client, data: seq<byte>): Client {
    c.(rx := c.rx + data, up := c.up + data, events := c.events.(pin := false))
  }

  function UpR(r: Remote, data: seq<byte>): Remote {
    r.(ob := r.ob + data, up := r.up + data, events := r.events.(pout := true))
  }

  /** Bytes written to the client come straight from the upstream's input buffer. */
  function DownC(c: Client, r: Remote, n: nat): Client
    requires n <= |r.ib|
  {
    var d := c.(tx := c.tx + r.ib[..n], down := c.down + r.ib[..n]);
    if n == |r.ib| then d.(events := Mask(true, false)) else d
  }

  function DownR(r: Remote, n: nat): Remote
    requires n <= |r.ib|
  {
    r.(ib := r.ib[n..], down := r.down + r.ib[..n])
  }

  function RawRead(r: Remote, data: seq<byte>): Remote {
    r.(ib := r.ib + data, rx := r.rx + data, raw := r.raw + data)
  }

  // ---- what holds of every connection, and of every pair

  ghost predicate AllSized(ps: seq<Packet>) { forall p | p in ps :: WellSized(p) }

  /** The connection has left the packet protocol. */
  predicate Handed(c: Client) { c.state == Connecting2 || c.state == Connected }

  ghost predicate ClientBuffers(c: Client) {
    && (c.ibFreed <==> Handed(c)) && (c.obFreed <==> c.state == Connected)
    && |c.ob| <= c.obCap && |c.ib| <= CLIENT_IB
    && (c.state == Connected ==> c.ob == [])
    && (c.ibFreed ==> c.ib == [])
  }

  ghost predicate ClientMasks(c: Client) {
    && (c.state != Connected && c.ob != [] ==> c.events.pout)
    && (c.state == Connecting2 ==> c.events == Mask(false, true) && c.ob != [])
    && (!Handed(c) ==> c.events.pin && c.devents == Mask(false, false))
  }

  ghost predicate ClientStreams(w: Codec, c: Client) {
    && c.version <= 1
    && AllSized(c.commands)
    && (forall p | p in c.commands :: HEADER + |p.payload| <= CLIENT_IB)
    && (c.state != Connected ==> c.tx + c.ob == Frames(c.out))
    && (c.state == Connected ==> c.tx == Frames(c.out) + c.down)
    && (!Handed(c) ==> c.rx == Frames(c.commands) + c.ib && c.dropped == [] && c.up == [] && c.down == [])
    && (!Handed(c) ==> if c.held then Whole(c.ib) else Partial(c.ib, CLIENT_IB))
    && (Handed(c) ==>
          && c.rx == Frames(c.commands) + c.dropped + c.up
          && c.out != [] && c.out[|c.out| - 1] == ResultPacket(w, c.version, c.connectTag, RESULT_OK))
    && (c.state == Connecting2 ==> c.up == [] && c.down == [])
  }

  ghost predicate ClientNotes(w: Codec, c: Client) {
    && (c.state != Listen ==> c.notes == [])
    && (forall n | n in c.notes :: NoteOk(n))
    && (c.state == Listen && !c.mixed ==>
          c.mark <= |c.out| && ReadNotes(w, c.out[c.mark..]) == ProjectNotes(BodyFor(w, c.version), c.notes))
  }

  /** The last packet a client sent before it became a tunnel is the Connect request that was forwarded. */
  ghost predicate ClientRequest(w: Codec, c: Client) {
    c.state == Connecting1 || Handed(c) ==>
      && !c.held && c.commands != []
      && var p := c.commands[|c.commands| - 1];
         && ConnectRequest(w, p).Some? && c.request == ConnectRequest(w, p)
         && c.connectTag == p.tag && c.connectDevice == c.request.value.device.value % WORD
  }

  ghost predicate ClientOk(w: Codec, c: Client) {
    ClientBuffers(c) && ClientMasks(c) && ClientStreams(w, c) && ClientNotes(w, c) && ClientRequest(w, c)
  }

  ghost predicate RemoteStates(r: Remote) {
    && r.state != RConnecting2 && r.devents == Mask(false, false)
    && (r.listener ==> r.client == None && r.state in {RCommand, RListen, RDead} && r.last != Forwarded)
    && (!r.listener ==> r.client.Some? && r.state != RListen && r.last != ListenCmd)
    && (r.state == RListen ==> r.ob == [])
    && (r.state == RConnected ==> r.rawMode)
    && (r.rawMode ==> r.state in {RConnected, RDead})
    && (r.state == RConnecting1 ==> r.last == NoCommand)
  }

  ghost predicate RemoteBuffers(r: Remote) {
    && |r.ob| <= r.obCap && |r.ib| <= REMOTE_IB && (r.ob != [] ==> r.events.pout)
    && (!r.rawMode ==> r.events.pin)
  }

  ghost predicate RemoteStreams(w: Codec, r: Remote) {
    && AllSized(r.packets) && (forall p | p in r.packets :: HEADER + |p.payload| <= REMOTE_IB)
    && r.tx + r.ob == Frame(r.first) + r.up
    && (r.asked.Some? ==> r.first == PlistPacket(w, 1, 0, r.asked.value))
    && (!r.rawMode ==> r.rx == Frames(r.packets) + r.ib && r.up == [] && r.raw == [] && r.down == [])
    && (!r.rawMode ==> Partial(r.ib, REMOTE_IB) || (r.state == RDead && BadHead(r.ib, REMOTE_IB)))
    && (r.rawMode ==>
          && r.rx == Frames(r.packets) + r.raw && r.raw == r.down + r.ib
          && r.packets != [] && ResultOf(w, r.packets[|r.packets| - 1]) == RESULT_OK)
  }

  ghost predicate RemoteOk(w: Codec, r: Remote) {
    RemoteStates(r) && RemoteBuffers(r) && RemoteStreams(w, r)
  }

  /** What ties a client to the upstream connection made for it. */
  ghost predicate PairOk(c: Client, r: Remote) {
    && (c.state == Connecting1 ==> r.state in {RConnecting1, RDead} && !r.rawMode)
    && (c.state == Connecting1 || Handed(c) ==>
          && r.id == OwnerOf(c.connectDevice) && c.request.Some?
          && r.asked == Some(c.request.value.(device := Some(c.connectDevice % OWNER_UNIT))))
    && (Handed(c) ==> r.state in {RConnected, RDead} && r.rawMode && c.up == r.up && c.down == r.down)
    && (!Handed(c) ==> r.up == [] && r.down == [])
    && (c.state == Connecting2 ==> (c.devents.pout <==> r.ib != []))
    && (c.state == Connected ==> (c.events.pout <==> r.ib != []) && (c.events.pin || r.events.pout))
  }
}
