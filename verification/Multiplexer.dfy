/**
 The multiplexer as a state machine: both connection lists, the device table, the id map,
 and every handler the poll loop calls. A pointer to a connection is the number of its slot.

 `fds` records who owns each descriptor ever opened. `fault` is set, for good, by a handler
 that would touch freed memory, follow a null or dangling pointer, or close a descriptor twice.
 */
module Multiplexer {
  import opened Base
  import opened Wire
  import opened DeviceTable
  import opened Protocol
  import opened Connections
  import opened Collections
  import DeviceKey
  import IdMap

  datatype Handle = OpenClient(slot: nat) | OpenRemote(slot: nat) | Closed

  datatype State = State(
    wire: Codec, clients: seq<Slot<Client>>, remotes: seq<Slot<Remote>>,
    devices: Table<Message>, used: set<nat>, fds: map<int, Handle>, fault: bool)

  function Fault(s: State): State { s.(fault := true) }

  predicate HasC(s: State, i: nat) { i < |s.clients| && s.clients[i].Full? }

  predicate HasR(s: State, j: nat) { j < |s.remotes| && s.remotes[j].Full? }

  function C(s: State, i: nat): Client
    requires HasC(s, i)
  {
    s.clients[i].item
  }

  function R(s: State, j: nat): Remote
    requires HasR(s, j)
  {
    s.remotes[j].item
  }

  function SetC(s: State, i: nat, c: Client): State
    requires HasC(s, i)
  {
    s.(clients := s.clients[i := Full(c)])
  }

  function SetR(s: State, j: nat, r: Remote): State
    requires HasR(s, j)
  {
    s.(remotes := s.remotes[j := Full(r)])
  }

  /** A descriptor the kernel may hand out now. */
  predicate Fresh(s: State, conn: Option<int>) { conn.Some? && conn.value !in s.fds }

  function CloseFd(s: State, fd: int): State {
    if fd in s.fds && s.fds[fd] != Closed then s.(fds := s.fds[fd := Closed]) else Fault(s)
  }

  function AddClient(s: State, c: Client): State {
    s.(clients := AddSlot(s.clients, c), fds := s.fds[c.fd := OpenClient(FirstEmpty(s.clients))])
  }

  function AddRemote(s: State, r: Remote): State {
    s.(remotes := AddSlot(s.remotes, r), fds := s.fds[r.fd := OpenRemote(FirstEmpty(s.remotes))])
  }

  /** An answer queued to the client of slot i. */
  function Reply(s: State, i: nat, p: Packet): State {
    if HasC(s, i) && !C(s, i).obFreed && |C(s, i).ob| <= C(s, i).obCap
    then SetC(s, i, QueueReply(s.wire, C(s, i), p)) else Fault(s)
  }

  function ReplyResult(s: State, i: nat, tag: nat, result: nat): State {
    if HasC(s, i) then Reply(s, i, ResultPacket(s.wire, C(s, i).version, tag, result)) else Fault(s)
  }

  // ---- announcing changes of the table

  function Told(w: Codec, slot: Slot<Client>, n: Note<Message>): Slot<Client> {
    if slot.Full? && slot.item.state == Listen && |slot.item.ob| <= slot.item.obCap
    then Full(QueueNote(w, slot.item, n)) else slot
  }

  /** `client_device_add` and `client_device_remove`: every listening client is told. */
  function TellAll(w: Codec, cs: seq<Slot<Client>>, n: Note<Message>): (r: seq<Slot<Client>>)
    ensures |r| == |cs| && forall i :: 0 <= i < |cs| ==> r[i] == Told(w, cs[i], n)
  {
    seq(|cs|, i requires 0 <= i < |cs| => Told(w, cs[i], n))
  }

  /** A listening client whose output buffer cannot take a packet. */
  predicate Deaf(slot: Slot<Client>) {
    slot.Full? && slot.item.state == Listen && (slot.item.obFreed || |slot.item.ob| > slot.item.obCap)
  }

  function Announce(s: State, n: Note<Message>): State {
    s.(clients := TellAll(s.wire, s.clients, n), devices := Apply(s.devices, n),
       fault := s.fault || exists i :: 0 <= i < |s.clients| && Deaf(s.clients[i]))
  }

  function Withdraw(s: State, ids: seq<nat>): State
    decreases |ids|
  {
    if ids == [] then s else Withdraw(Announce(s, Detached(ids[0])), ids[1..])
  }

  // ---- closing

  /** `remote_close`. */
  function RemoteClose(s: State, j: nat): State {
    if !HasR(s, j) then Fault(s)
    else
      var t := CloseFd(s, R(s, j).fd);
      t.(remotes := t.remotes[j := Empty])
  }

  /** `client_close`: the upstream made for the client goes with it. */
  function ClientClose(s: State, i: nat): State {
    if !HasC(s, i) then Fault(s)
    else
      var c := C(s, i);
      var t := CloseFd(s, c.fd);
      var u := match c.remote
        case None => t
        case Some(j) => if HasR(t, j) then RemoteClose(SetR(t, j, R(t, j).(client := None)), j) else Fault(t);
      u.(clients := u.clients[i := Empty])
  }

  /** `usbmux_remote_close`. */
  function UpstreamClose(s: State, j: nat): State {
    if !HasR(s, j) then Fault(s)
    else match R(s, j).client
      case Some(i) => ClientClose(s, i)
      case None => RemoteClose(s, j)
  }

  /** `usbmux_remote_dispose`: its devices are withdrawn and its client is closed. */
  function Dispose(s: State, j: nat): State {
    if !HasR(s, j) then Fault(s)
    else
      var r := R(s, j);
      var t := Withdraw(CloseFd(s, r.fd), OwnedIds(s.devices, r.id));
      if !HasR(t, j) then Fault(t)
      else
        var u := t.(remotes := t.remotes[j := Empty]);
        var v := match r.client
          case None => u
          case Some(i) => if HasC(u, i) then ClientClose(SetC(u, i, C(u, i).(remote := None)), i) else Fault(u);
        if r.listener && r.peer.Host? then v.(used := v.used - {r.id}) else v
  }

  // ---- death and reaping

  function Killed(slot: Slot<Remote>, id: nat): Slot<Remote> {
    if slot.Full? && slot.item.id == id then Full(slot.item.(state := RDead)) else slot
  }

  function KillId(rs: seq<Slot<Remote>>, id: nat): (r: seq<Slot<Remote>>)
    ensures |r| == |rs| && forall j :: 0 <= j < |rs| ==> r[j] == Killed(rs[j], id)
  {
    seq(|rs|, j requires 0 <= j < |rs| => Killed(rs[j], id))
  }

  predicate Live(slot: Slot<Remote>) { slot.Full? && slot.item.state != RDead }

  /** Slot of the first upstream that is not dead, or the length. */
  function FirstLive(rs: seq<Slot<Remote>>): (j: nat)
    ensures j <= |rs| && (j < |rs| ==> Live(rs[j])) && forall k :: 0 <= k < j ==> !Live(rs[k])
  {
    if rs == [] || Live(rs[0]) then 0 else 1 + FirstLive(rs[1..])
  }

  /** Disposal of every upstream from slot k on. */
  function DisposeFrom(s: State, k: nat): State
    decreases if k <= |s.remotes| then |s.remotes| - k else 0
  {
    if k >= |s.remotes| then s
    else
      var t := if s.remotes[k].Full? then Dispose(s, k) else s;
      if |t.remotes| != |s.remotes| then Fault(t) else DisposeFrom(t, k + 1)
  }

  /** `remote_mark_dead`. */
  function MarkDead(s: State, j: nat): State {
    if !HasR(s, j) then Fault(s)
    else
      var t := s.(remotes := KillId(s.remotes, R(s, j).id));
      var k := FirstLive(t.remotes);
      if k < |t.remotes| then SetR(t, k, R(t, k).(events := R(t, k).events.(pout := true)))
      else DisposeFrom(t, 0)
  }

  // ---- adding and removing upstreams

  predicate Listening(slot: Slot<Remote>) { slot.Full? && slot.item.listener && slot.item.peer.Host? }

  predicate SameService(slot: Slot<Remote>, service: string, host: Host) {
    Listening(slot) && (slot.item.service == service || slot.item.peer == host)
  }

  predicate Known(rs: seq<Slot<Remote>>, service: string, host: Host) {
    exists j :: 0 <= j < |rs| && SameService(rs[j], service, host)
  }

  type Host = p: Peer | p.Host? witness Host("", 0)

  /** `remote_mux_service_add`: 0 when added, -2 for a duplicate, -1 otherwise. */
  function ServiceAdd(s: State, service: string, host: Host, conn: Option<int>): (State, int) {
    if Known(s.remotes, service, host) then (s, -2)
    else if !Fresh(s, conn) then (s, -1)
    else
      var id := IdMap.LeastFree(s.used);
      if id == 0 then (s.(fds := s.fds[conn.value := Closed]), -1)
      else
        var r := NewRemote(conn.value, host, PlistPacket(s.wire, 1, 0, OwnRequest("Listen")))
                 .(id := id, listener := true, service := service, last := ListenCmd);
        (AddRemote(s, r).(used := s.used + {id}), 0)
  }

  predicate Named(slot: Slot<Remote>, service: Option<string>, host: Option<Host>) {
    Listening(slot) && (service == Some(slot.item.service) || (host.Some? && host.value == slot.item.peer))
  }

  function FirstNamed(rs: seq<Slot<Remote>>, service: Option<string>, host: Option<Host>): (j: nat)
    ensures j <= |rs| && (j < |rs| ==> Named(rs[j], service, host))
    ensures forall k :: 0 <= k < j ==> !Named(rs[k], service, host)
  {
    if rs == [] || Named(rs[0], service, host) then 0 else 1 + FirstNamed(rs[1..], service, host)
  }

  /** `remote_mux_service_remove`. */
  function ServiceRemove(s: State, service: Option<string>, host: Option<Host>): (State, int) {
    var j := FirstNamed(s.remotes, service, host);
    if j < |s.remotes| then (MarkDead(s, j), 0) else (s, -1)
  }

  // ---- forwarding a client's request

  predicate Routes(slot: Slot<Remote>, id: nat) { slot.Full? && slot.item.id == id && slot.item.state == RListen }

  function FirstRoute(rs: seq<Slot<Remote>>, id: nat): (j: nat)
    ensures j <= |rs| && (j < |rs| ==> Routes(rs[j], id)) && forall k :: 0 <= k < j ==> !Routes(rs[k], id)
  {
    if rs == [] || Routes(rs[0], id) then 0 else 1 + FirstRoute(rs[1..], id)
  }

  /** Where requests for the devices of upstream `id` go. */
  function Route(s: State, id: nat): Option<Peer> {
    if id == 0 then Some(Local)
    else
      var j := FirstRoute(s.remotes, id);
      if j < |s.remotes| then Some(R(s, j).peer) else None
  }

  function Attach(s: State, i: nat, r: Remote): State
    requires HasC(s, i)
  {
    SetC(AddRemote(s, r.(client := Some(i))), i, C(s, i).(remote := Some(FirstEmpty(s.remotes))))
  }

  /** `usbmux_remote_connect` and the client's side of it. */
  function Connect(s: State, i: nat, device: nat, request: Message, tag: nat, conn: Option<int>): State {
    if !HasC(s, i) then Fault(s)
    else
      var peer := Route(s, OwnerOf(device));
      if peer.None? || !Fresh(s, conn) then ReplyResult(s, i, tag, RESULT_BADCOMMAND)
      else
        var asked := request.(device := Some(device % OWNER_UNIT));
        var r := NewRemote(conn.value, peer.value, PlistPacket(s.wire, 1, 0, asked))
                 .(id := OwnerOf(device), state := RConnecting1, asked := Some(asked));
        var t := Attach(s, i, r);
        SetC(t, i, C(t, i).(state := Connecting1, connectTag := tag, connectDevice := device, request := Some(request)))
  }

  /** The id of the first device with that serial number, or 0. */
  function IdOfSerial(t: Table<Message>, serial: string): nat {
    if t == [] then 0 else if SerialOf(t[0].body) == Some(serial) then t[0].id else IdOfSerial(t[1..], serial)
  }

  predicate AnySerial(t: Table<Message>) { exists k :: 0 <= k < |t| && SerialOf(t[k].body).Some? }

  /**
   A pair-record request without a record: the missing string is compared with every serial
   number in the table and, unless the request is passed on whole, copied into the new request.
   */
  predicate Nameless(s: State, kind: string, m: Message, conn: Option<int>) {
    m.record.None? && (AnySerial(s.devices) || (kind != "SavePairRecord" && Fresh(s, conn)))
  }

  /** The upstream a pair-record request is for; the local one when nothing in the table matches. */
  function RecordOwner(t: Table<Message>, m: Message): nat {
    if m.record.Some? then OwnerOf(IdOfSerial(t, m.record.value)) else 0
  }

  /** `usbmux_remote_read_buid` and the pair-record functions: the answer will be passed on. */
  function Forward(s: State, i: nat, owner: nat, first: Packet, conn: Option<int>): (State, int) {
    var peer := Route(s, owner);
    if !HasC(s, i) then (Fault(s), -1)
    else if peer.None? || !Fresh(s, conn) then (s, -1)
    else (Attach(s, i, NewRemote(conn.value, peer.value, first).(last := Forwarded)), 0)
  }

  // ---- commands of a client

  function StartListen(s: State, i: nat, tag: nat): (State, int) {
    var t := ReplyResult(s, i, tag, RESULT_OK);
    if t.fault || !HasC(t, i) then (Fault(t), -1)
    else
      var c := C(t, i);
      (SetC(t, i, Told0(t.wire, c.(state := Listen, notes := [], mark := |c.out|, mixed := false), t.devices)), |t.devices|)
  }

  /** The snapshot a client is sent when it starts to listen. */
  function Told0(w: Codec, c: Client, devices: Table<Message>): Client {
    if devices == [] then c
    else
      var d := Told0(w, c, devices[..|devices| - 1]);
      if |d.ob| <= d.obCap then QueueNote(w, d, Attached(devices[|devices| - 1])) else d
  }

  function ListeningSlots(cs: seq<Slot<Client>>): seq<nat> {
    if cs == [] then []
    else
      var n := |cs| - 1;
      ListeningSlots(cs[..n]) + (if cs[n].Full? && cs[n].item.state == Listen then [n] else [])
  }

  function SerialsOf(t: Table<Message>, owner: nat): seq<string> {
    if t == [] then []
    else
      (if OwnerOf(t[0].id) == owner && SerialOf(t[0].body).Some? then [SerialOf(t[0].body).value] else [])
      + SerialsOf(t[1..], owner)
  }

  predicate Reported(slot: Slot<Remote>) { slot.Full? && slot.item.listener && slot.item.state == RListen }

  /** `usbmux_remote_copy_instances`. */
  function InstanceReport(rs: seq<Slot<Remote>>, devices: Table<Message>): seq<Instance> {
    if rs == [] then []
    else
      var n := |rs| - 1;
      InstanceReport(rs[..n], devices) +
      if Reported(rs[n]) then
        var r, serials := rs[n].item, SerialsOf(devices, rs[n].item.id);
        [Instance(r.id, r.peer.Local?, r.service, if r.peer.Host? then r.peer.name else "",
                  if r.peer.Host? then r.peer.port else 0, |serials|, serials)]
      else []
  }

  function PlistCommand(s: State, i: nat, m: Message, p: Packet, conn: Option<int>): (State, int)
    requires m.kind.Some?
  {
    var kind, w, tag := m.kind.value, s.wire, p.tag;
    if kind == "Listen" then StartListen(s, i, tag)
    else if kind == "Connect" then
      if m.device.None? then (ReplyResult(s, i, tag, RESULT_BADDEV), 0)
      else if m.port.None? then (ReplyResult(s, i, tag, RESULT_BADCOMMAND), 0)
      else (Connect(s, i, m.device.value % WORD, m, tag, conn), 0)
    else if kind == "ListDevices" then
      (Reply(s, i, Packet(1, MESSAGE_PLIST, tag, w.report(DeviceList(s.devices)))), 0)
    else if kind == "ListListeners" then
      (Reply(s, i, Packet(1, MESSAGE_PLIST, tag, w.report(ListenerList(ListeningSlots(s.clients))))), 0)
    else if kind == "Instances" then
      (Reply(s, i, Packet(1, MESSAGE_PLIST, tag, w.report(Instances(InstanceReport(s.remotes, s.devices))))), 0)
    else if kind == "ReadBUID" then
      var owner := if s.devices == [] then 0 else OwnerOf(s.devices[0].id);
      (Forward(s, i, owner, PlistPacket(w, 1, tag, OwnRequest("ReadBUID")), conn).0, 0)
    else if kind == "ReadPairRecord" || kind == "DeletePairRecord" || kind == "SavePairRecord" then
      if Nameless(s, kind, m, conn) then (Fault(s), -1)
      else
        var request := if kind == "SavePairRecord" then m else OwnRequest(kind).(record := m.record);
        Forward(s, i, RecordOwner(s.devices, m), PlistPacket(w, 1, tag, request), conn)
    else if kind == "AddInstance" then
      if m.host.None? || m.port.None? then (ReplyResult(s, i, tag, RESULT_BADCOMMAND), 0)
      else
        var (t, res) := ServiceAdd(s, m.host.value, Host(m.host.value, m.port.value % 0x1_0000), conn);
        (ReplyResult(t, i, tag, if res == 0 then RESULT_OK else if res == -2 then RESULT_BADDEV else RESULT_CONNREFUSED), 0)
    else if kind == "RemoveInstance" then
      if m.host.None? || m.port.None? then (ReplyResult(s, i, tag, RESULT_BADCOMMAND), 0)
      else
        var (t, res) := ServiceRemove(s, None, Some(Host(m.host.value, m.port.value % 0x1_0000)));
        (ReplyResult(t, i, tag, if res == 0 then RESULT_OK else RESULT_BADDEV), 0)
    else (ReplyResult(s, i, tag, RESULT_BADCOMMAND), 0)
  }

  /** `client_command`; the second component is its return value. */
  function ClientCommand(s: State, i: nat, p: Packet, conn: Option<int>): (State, int)
    requires HasC(s, i)
  {
    var c := C(s, i);
    if c.state != Command then (ClientClose(ReplyResult(s, i, p.tag, RESULT_BADCOMMAND), i), -1)
    else if p.version != 0 && p.version != 1 then (ReplyResult(s, i, p.tag, RESULT_BADVERSION), 0)
    else if p.message == MESSAGE_PLIST then
      var t, m := SetC(s, i, c.(version := 1)), s.wire.dec(p.payload);
      if m.None? || m.value.kind.None? then (t, -1) else PlistCommand(t, i, m.value, p, conn)
    else if p.message == MESSAGE_LISTEN then StartListen(s, i, p.tag)
    else if p.message == MESSAGE_CONNECT && |p.payload| >= 8 then
      (Connect(s, i, DecodeWord(p.payload), BinaryConnect(p), p.tag, conn), 0)
    else (ReplyResult(s, i, p.tag, RESULT_BADCOMMAND), 0)
  }

  // ---- socket events of a client

  /** The buffer is emptied only when the handler returned 0. */
  function Finish(s: State, i: nat, ret: int, p: Packet): State {
    if ret != 0 then s
    else if !HasC(s, i) then Fault(s)
    else SetC(s, i, C(s, i).(ib := [], commands := C(s, i).commands + [p], held := false))
  }

  /** `process_recv`. */
  function ClientRecv(s: State, i: nat, io: Io, conn: Option<int>): State
    requires HasC(s, i)
  {
    var c := C(s, i);
    if c.ibFreed then Fault(s)
    else match Receive(c.ib, CLIENT_IB, io)
      case Gone => ClientClose(s, i)
      case BadLength(_) => ClientClose(s, i)
      case More(data) => SetC(s, i, Got(c, data))
      case Ready(data, p) =>
        var (t, ret) := ClientCommand(SetC(s, i, Got(c, data).(held := true)), i, p, conn);
        Finish(t, i, ret, p)
  }

  /** `process_send`. */
  function ClientSend(s: State, i: nat, io: Io): State
    requires HasC(s, i)
  {
    var c := C(s, i);
    if c.ob == [] then SetC(s, i, c.(events := c.events.(pout := false)))
    else if c.obFreed || (c.state == Connecting2 && !(c.remote.Some? && HasR(s, c.remote.value))) then Fault(s)
    else
      var n := Accepted(io, |c.ob|);
      if n == 0 then ClientClose(s, i) else SetC(s, i, Sent(c, n))
  }

  function FindClient(cs: seq<Slot<Client>>, fd: int): (i: nat)
    ensures i <= |cs| && (i < |cs| ==> cs[i].Full? && cs[i].item.fd == fd)
    ensures forall k :: 0 <= k < i && cs[k].Full? ==> cs[k].item.fd != fd
  {
    if cs == [] || (cs[0].Full? && cs[0].item.fd == fd) then 0 else 1 + FindClient(cs[1..], fd)
  }

  /** Events poll reports: the two requested ones, hang-up or error, and an invalid descriptor. */
  datatype Revents = Revents(pin: bool, pout: bool, hup: bool, nval: bool)

  /** The relay half of `client_process`. */
  function RelayClient(s: State, i: nat, ev: Revents, io: Io): State
    requires HasC(s, i)
  {
    var c := C(s, i);
    if !(c.remote.Some? && HasR(s, c.remote.value)) then (if ev.pin || ev.pout then Fault(s) else s)
    else
      var j := c.remote.value;
      var r := R(s, j);
      if ev.pin then
        if |r.ob| >= r.obCap then s // no room: try again in the next iteration
        else
          var data := Taken(io, r.obCap - |r.ob|);
          if data == [] then ClientClose(s, i) else SetR(SetC(s, i, UpC(c, data)), j, UpR(r, data))
      else if ev.pout && r.ib != [] then
        var n := Accepted(io, |r.ib|);
        if n == 0 then ClientClose(s, i) else SetR(SetC(s, i, DownC(c, r, n)), j, DownR(r, n))
      else s
  }

  /** `client_process`. */
  function ClientProcess(s: State, fd: int, ev: Revents, io: Io, conn: Option<int>): State {
    var i := FindClient(s.clients, fd);
    if i == |s.clients| then s
    else if C(s, i).state == Connected then RelayClient(s, i, ev, io)
    else if ev.pin then ClientRecv(s, i, io, conn)
    else if ev.pout then ClientSend(s, i, io)
    else s
  }

  // ---- socket events of an upstream

  /** The change of the table an upstream's packet announces, renamed into the shared id space. */
  function NoteOf(w: Codec, owner: nat, p: Packet): Option<Note<Message>> {
    if p.message == MESSAGE_DEVICE_REMOVE && |p.payload| >= 4 then
      Some(Detached(DeviceKey.Renamed(owner, DecodeWord(p.payload))))
    else if p.message == MESSAGE_PLIST && w.dec(p.payload).Some? then
      var m := w.dec(p.payload).value;
      var id := if m.device.Some? then DeviceKey.Renamed(owner, m.device.value % WORD) else 0;
      if m.kind == Some("Attached") then Some(Attached(Entry(id, Stored(m, id))))
      else if m.kind == Some("Detached") then Some(Detached(id))
      else None
    else None
  }

  function Stored(m: Message, id: nat): Message {
    m.(device := Some(id), props := if m.props.Some? then Some(m.props.value.(device := Some(id))) else None)
  }

  /** `remote_handle_command_result`. */
  function HandleResult(s: State, j: nat, p: Packet): State
    requires HasR(s, j)
  {
    var r, w := R(s, j), s.wire;
    if p.version != 0 && p.version != 1 then s
    else match r.state
      case RCommand =>
        if r.last == ListenCmd then (if ResultOf(w, p) == RESULT_OK then SetR(s, j, r.(state := RListen)) else s)
        else if r.last == Forwarded then
          if r.client.Some? && HasC(s, r.client.value) && !C(s, r.client.value).obFreed
             && |C(s, r.client.value).ob| <= C(s, r.client.value).obCap
          then SetC(s, r.client.value, PassOn(w, C(s, r.client.value), p)) else Fault(s)
        else s
      case RListen =>
        var n := NoteOf(w, r.id, p);
        if n.Some? then Announce(s, n.value) else s
      case RConnecting1 =>
        var result := ResultOf(w, p);
        if r.client.Some? && HasC(s, r.client.value) && !C(s, r.client.value).obFreed
           && |C(s, r.client.value).ob| <= C(s, r.client.value).obCap
        then SetR(SetC(s, r.client.value, NotifyConnect(w, C(s, r.client.value), result)), j, ConnectAnswered(r, result))
        else Fault(s)
      case _ => s
  }

  /** `remote_process_recv`. */
  function RemoteRecv(s: State, j: nat, io: Io): State
    requires HasR(s, j)
  {
    var r := R(s, j);
    match Receive(r.ib, REMOTE_IB, io)
    case Gone => MarkDead(s, j)
    case BadLength(data) => MarkDead(SetR(s, j, RemoteGot(r, data)), j)
    case More(data) => SetR(s, j, RemoteGot(r, data))
    case Ready(data, p) =>
      var t := HandleResult(SetR(s, j, RemoteGot(r, data)), j, p);
      if HasR(t, j) then SetR(t, j, Consumed(R(t, j), p)) else Fault(t)
  }

  /** `remote_process_send`; the second component tells whether the upstream survived. */
  function RemoteSend(s: State, j: nat, io: Io): (State, bool)
    requires HasR(s, j)
  {
    var r := R(s, j);
    if r.ob == [] then (SetR(s, j, r.(events := r.events.(pout := false))), true)
    else
      var n := Accepted(io, |r.ob|);
      if n == 0 then (UpstreamClose(s, j), false) else (SetR(s, j, RemoteSent(r, n)), true)
  }

  function OrClient(s: State, client: Option<nat>, m: Mask): State {
    if client.Some? && HasC(s, client.value) then SetC(s, client.value, OrEvents(C(s, client.value), m)) else Fault(s)
  }

  /** The relay half of `usbmux_remote_process`. */
  function RelayRemote(s: State, j: nat, ev: Revents, io: Io): State
    requires HasR(s, j)
  {
    var r := R(s, j);
    if ev.pin then
      if |r.ib| >= REMOTE_IB then s // full: try again in the next iteration
      else if io.Read? then
        var data := Taken(io, REMOTE_IB - |r.ib|);
        if data == [] then SetR(s, j, r.(events := r.events.(pin := false)))
        else OrClient(SetR(s, j, RawRead(r, data)), r.client, Mask(false, true))
      else UpstreamClose(s, j)
    else if ev.pout then
      var (t, alive) := RemoteSend(s, j, io);
      if alive then OrClient(t, r.client, Mask(true, false)) else t
    else UpstreamClose(s, j)
  }

  /** The scan of `usbmux_remote_process` from slot k on: reap the dead, find the descriptor. */
  function Reap(s: State, k: nat, fd: int, invalid: bool, found: Option<nat>): (State, Option<nat>)
    decreases if k <= |s.remotes| then |s.remotes| - k else 0
  {
    if k >= |s.remotes| then (s, found)
    else if s.remotes[k].Empty? then Reap(s, k + 1, fd, invalid, found)
    else if s.remotes[k].item.state == RDead || (s.remotes[k].item.fd == fd && invalid) then
      var t := Dispose(s, k);
      var f := if s.remotes[k].item.state == RDead then found else None;
      if |t.remotes| != |s.remotes| then (Fault(t), None) else Reap(t, k + 1, fd, invalid, f)
    else Reap(s, k + 1, fd, invalid, if s.remotes[k].item.fd == fd then Some(k) else found)
  }

  /** `usbmux_remote_process`. */
  function RemoteProcess(s: State, fd: int, ev: Revents, io: Io): State {
    var (t, found) := Reap(s, 0, fd, ev == Revents(false, false, false, true), None);
    if found.None? then t
    else if !HasR(t, found.value) then Fault(t)
    else
      var j := found.value;
      var r := R(t, j);
      if r.state == RConnected then RelayRemote(t, j, ev, io)
      else if ev.pin then
        if r.state == RConnecting2 then SetR(t, j, r.(state := RConnected, events := r.devents.(pin := true)))
        else RemoteRecv(t, j, io)
      else if ev.pout then RemoteSend(t, j, io).0
      else t
  }

  // ---- start

  function Start(w: Codec, local: Option<int>): State {
    var s := State(w, NoSlots(CAPACITY_STEP), NoSlots(CAPACITY_STEP), [], {}, map[], false);
    if local.None? then s
    else
      var r := NewRemote(local.value, Local, PlistPacket(w, 1, 0, OwnRequest("Listen")))
               .(listener := true, last := ListenCmd);
      AddRemote(s, r).(used := {0})
  }
}
