/** Every socket event of a client keeps the invariant. */
module ClientEvents {
  import opened Base
  import opened Wire
  import opened DeviceTable
  import opened Protocol
  import opened Connections
  import opened Collections
  import opened Multiplexer
  import opened Invariant
  import opened Steps
  import opened Upkeep
  import opened Teardown
  import opened Reaping
  import opened Commands

  lemma HoldsTransitive(s: State, i: nat, t: State, u: State)
    requires Calm(s, t) && HasC(s, i) && HasC(t, i) && Holds(t, i, u)
    requires C(t, i).fd == C(s, i).fd && C(t, i).ib == C(s, i).ib && C(t, i).held == C(s, i).held
    ensures Holds(s, i, u)
  {
    hide Inv;
  }

  lemma VersionOk(w: Codec, c: Client)
    requires ClientOk(w, c) && c.state == Command
    ensures ClientOk(w, c.(version := 1)) && forall r | PairOk(c, r) :: PairOk(c.(version := 1), r)
  {
    hide Frames;
  }

  lemma Spoken(s: State, i: nat)
    requires Inv(s) && HasC(s, i) && C(s, i).state == Command
    ensures Holds(s, i, SetC(s, i, C(s, i).(version := 1)))
            && C(SetC(s, i, C(s, i).(version := 1)), i).remote == C(s, i).remote
  {
    hide Inv, RemoteOk, Replay;
    ClientFacts(s, i);
    var c := C(s, i);
    VersionOk(s.wire, c);
    hide ClientOk;
    SetClient(s, i, c.(version := 1));
  }

  lemma IdOfSerialSmall(t: Table<Message>, serial: string)
    requires forall e | e in t :: EntryOk(e)
    ensures IdOfSerial(t, serial) < WORD
  {
    if t != [] {
      assert t[0] in t;
    }
  }

  lemma EntriesOk(s: State)
    requires Inv(s)
    ensures forall e | e in s.devices :: EntryOk(e)
  {
    hide ClientsOk, RemotesOk, FdsOk, ListenersOk, Owned;
  }

  /** A query is answered with one packet. */
  lemma QueryKeeps(s: State, i: nat, tag: nat, answer: Report)
    requires Inv(s) && HasC(s, i) && C(s, i).state == Command
    ensures Holds(s, i, Reply(s, i, Packet(1, MESSAGE_PLIST, tag, s.wire.report(answer))))
  {
    ClientFacts(s, i);
    hide Inv;
    ReplyKeeps(s, i, Packet(1, MESSAGE_PLIST, tag, s.wire.report(answer)));
  }

  lemma AddInstanceKeeps(s: State, i: nat, host: Host, tag: nat, conn: Option<int>)
    requires Inv(s) && HasC(s, i) && C(s, i).state == Command
    ensures var (t, res) := ServiceAdd(s, host.name, host, conn);
            var code := if res == 0 then RESULT_OK else if res == -2 then RESULT_BADDEV else RESULT_CONNREFUSED;
            Holds(s, i, ReplyResult(t, i, tag, code))
  {
    hide Inv, ReplyResult, ServiceAdd;
    ServiceAddKeeps(s, host.name, host, conn);
    var (t, res) := ServiceAdd(s, host.name, host, conn);
    var code := if res == 0 then RESULT_OK else if res == -2 then RESULT_BADDEV else RESULT_CONNREFUSED;
    ReplyResultKeeps(t, i, tag, code);
    HoldsTransitive(s, i, t, ReplyResult(t, i, tag, code));
  }

  /** RemoveInstance is answered unless it takes away the upstream of the client that asks. */
  lemma RemoveInstanceKeeps(s: State, i: nat, host: Host, tag: nat)
    requires Inv(s) && HasC(s, i) && C(s, i).state == Command
    requires var j := FirstNamed(s.remotes, None, Some(host));
             j < |s.remotes| ==> C(s, i).remote.None? || LiveElsewhere(s.remotes, s.remotes[j].item.id)
    ensures var (t, res) := ServiceRemove(s, None, Some(host));
            Holds(s, i, ReplyResult(t, i, tag, if res == 0 then RESULT_OK else RESULT_BADDEV))
  {
    hide Inv, ReplyResult, MarkDead, Calm, LiveElsewhere;
    var j := FirstNamed(s.remotes, None, Some(host));
    ServiceRemoveKeeps(s, None, Some(host));
    var (t, res) := ServiceRemove(s, None, Some(host));
    if j < |s.remotes| {
      assert HasR(s, j);
      RequesterLeft(s, i, j);
    }
    var code := if res == 0 then RESULT_OK else RESULT_BADDEV;
    ReplyResultKeeps(t, i, tag, code);
    HoldsTransitive(s, i, t, ReplyResult(t, i, tag, code));
  }

  /** Every property-list command but Connect. */
  lemma OtherCommandKeeps(s: State, i: nat, m: Message, p: Packet, conn: Option<int>)
    requires Inv(s) && HasC(s, i) && C(s, i).state == Command && m.kind.Some? && m.kind != Some("Connect")
    requires MessageRule(s, i, m, conn)
    ensures Holds(s, i, PlistCommand(s, i, m, p, conn).0)
  {
    hide Inv, Holds, StartListen, Connect, Forward, Reply, ReplyResult, ServiceAdd, ServiceRemove, PlistPacket,
         Calm, Lossless, Route, LiveElsewhere, AnySerial;
    var kind, tag := m.kind.value, p.tag;
    if kind == "Listen" {
      StartListenKeeps(s, i, tag);
    } else if kind == "ListDevices" {
      QueryKeeps(s, i, tag, DeviceList(s.devices));
    } else if kind == "ListListeners" {
      QueryKeeps(s, i, tag, ListenerList(ListeningSlots(s.clients)));
    } else if kind == "Instances" {
      QueryKeeps(s, i, tag, Instances(InstanceReport(s.remotes, s.devices)));
    } else if kind == "ReadBUID" {
      EntriesOk(s);
      var owner := if s.devices == [] then 0 else OwnerOf(s.devices[0].id);
      assert owner < 256 by { if s.devices != [] { assert s.devices[0] in s.devices; } }
      ForwardKeeps(s, i, owner, PlistPacket(s.wire, 1, tag, OwnRequest("ReadBUID")), conn);
    } else if kind == "ReadPairRecord" || kind == "DeletePairRecord" || kind == "SavePairRecord" {
      EntriesOk(s);
      var request := if kind == "SavePairRecord" then m else OwnRequest(kind).(record := m.record);
      assert RecordOwner(s.devices, m) < 256 by {
        if m.record.Some? { IdOfSerialSmall(s.devices, m.record.value); }
      }
      ForwardKeeps(s, i, RecordOwner(s.devices, m), PlistPacket(s.wire, 1, tag, request), conn);
    } else if kind == "AddInstance" && m.host.Some? && m.port.Some? {
      AddInstanceKeeps(s, i, Host(m.host.value, m.port.value % 0x1_0000), tag, conn);
    } else if kind == "RemoveInstance" && m.host.Some? && m.port.Some? {
      RemoveInstanceKeeps(s, i, Host(m.host.value, m.port.value % 0x1_0000), tag);
    } else {
      ReplyResultKeeps(s, i, tag, RESULT_BADCOMMAND);
    }
  }

  lemma PlistCommandKeeps(s: State, i: nat, m: Message, p: Packet, conn: Option<int>)
    requires Inv(s) && HasC(s, i) && InBuffer(C(s, i), p) && m.kind.Some? && p.message == MESSAGE_PLIST
    requires s.wire.dec(p.payload) == Some(m) && MessageRule(s, i, m, conn)
    ensures var (t, ret) := PlistCommand(s, i, m, p, conn); Done(s, i, t, ret, p)
  {
    hide Inv, Done, Holds, Connect, ReplyResult, Calm, Route, Frame;
    if m.kind != Some("Connect") {
      hide PlistCommand, MessageRule;
      OtherCommandKeeps(s, i, m, p, conn);
      HoldsDone(s, i, PlistCommand(s, i, m, p, conn).0, PlistCommand(s, i, m, p, conn).1, p);
    } else if m.device.None? {
      ReplyResultKeeps(s, i, p.tag, RESULT_BADDEV);
      HoldsDone(s, i, ReplyResult(s, i, p.tag, RESULT_BADDEV), 0, p);
    } else if m.port.None? {
      ReplyResultKeeps(s, i, p.tag, RESULT_BADCOMMAND);
      HoldsDone(s, i, ReplyResult(s, i, p.tag, RESULT_BADCOMMAND), 0, p);
    } else {
      ConnectKeeps(s, i, m.device.value % WORD, m, p, conn);
    }
  }

  lemma PlistPacketKeeps(s: State, i: nat, p: Packet, conn: Option<int>)
    requires Inv(s) && HasC(s, i) && InBuffer(C(s, i), p) && p.message == MESSAGE_PLIST
    requires (p.version == 0 || p.version == 1) && CommandRule(s, i, p, conn)
    ensures var (t, ret) := ClientCommand(s, i, p, conn); Done(s, i, t, ret, p)
  {
    hide Inv, PlistCommand, Calm, Frame, MessageRule;
    Spoken(s, i);
    var t, m := SetC(s, i, C(s, i).(version := 1)), s.wire.dec(p.payload);
    if m.Some? && m.value.kind.Some? {
      SameRule(s, t, i, m.value, conn);
      PlistCommandKeeps(t, i, m.value, p, conn);
      var (u, ret) := PlistCommand(t, i, m.value, p, conn);
      CalmTransitive(s, t, Finish(u, i, ret, p));
    }
  }

  lemma BinaryConnectKeeps(s: State, i: nat, p: Packet, conn: Option<int>)
    requires Inv(s) && HasC(s, i) && InBuffer(C(s, i), p) && p.message == MESSAGE_CONNECT && |p.payload| >= 8
    requires (p.version == 0 || p.version == 1) && CommandRule(s, i, p, conn)
    ensures Done(s, i, Connect(s, i, DecodeWord(p.payload), BinaryConnect(p), p.tag, conn), 0, p)
  {
    hide Inv, Connect, Calm, Frame, Done, Route;
    var m := BinaryConnect(p);
    assert m.device == Some(DecodeWord(p.payload)) && m.kind == Some("Connect") && m.port.Some?;
    assert DecodeWord(p.payload) % WORD == DecodeWord(p.payload);
    hide BinaryConnect, DecodeWord;
    ConnectKeeps(s, i, DecodeWord(p.payload), m, p, conn);
  }

  /** Every command keeps the invariant, its packet consumed or not as the return value says. */
  lemma ClientCommandKeeps(s: State, i: nat, p: Packet, conn: Option<int>)
    requires Inv(s) && HasC(s, i) && InBuffer(C(s, i), p) && CommandRule(s, i, p, conn)
    ensures var (t, ret) := ClientCommand(s, i, p, conn); Done(s, i, t, ret, p)
  {
    hide Inv, StartListen, Connect, ReplyResult, PlistCommand, Calm, ClientClose, Done, Frame, CommandRule;
    if p.version != 0 && p.version != 1 {
      ReplyResultKeeps(s, i, p.tag, RESULT_BADVERSION);
      HoldsDone(s, i, ReplyResult(s, i, p.tag, RESULT_BADVERSION), 0, p);
    } else if p.message == MESSAGE_PLIST {
      PlistPacketKeeps(s, i, p, conn);
    } else if p.message == MESSAGE_LISTEN {
      StartListenKeeps(s, i, p.tag);
      HoldsDone(s, i, StartListen(s, i, p.tag).0, StartListen(s, i, p.tag).1, p);
    } else if p.message == MESSAGE_CONNECT && |p.payload| >= 8 {
      BinaryConnectKeeps(s, i, p, conn);
    } else {
      ReplyResultKeeps(s, i, p.tag, RESULT_BADCOMMAND);
      HoldsDone(s, i, ReplyResult(s, i, p.tag, RESULT_BADCOMMAND), 0, p);
    }
  }

  /** A packet that arrives in any other state is refused, and the client closed. */
  lemma BusyIs(s: State, i: nat, d: Client, p: Packet, conn: Option<int>)
    requires HasC(s, i) && SameClient(C(s, i), d) && d.state != Command && !d.obFreed && |d.ob| <= d.obCap
    ensures ClientCommand(SetC(s, i, d), i, p, conn) == (ClientClose(s, i), -1)
  {
    hide QueueReply, ResultPacket, RemoteClose;
    var e := QueueReply(s.wire, d, ResultPacket(s.wire, d.version, p.tag, RESULT_BADCOMMAND));
    ReplySame(s.wire, d, ResultPacket(s.wire, d.version, p.tag, RESULT_BADCOMMAND));
    assert s.clients[i := Full(d)][i := Full(e)] == s.clients[i := Full(e)];
    CloseIgnores(s, i, e);
  }

  lemma ReplySame(w: Codec, c: Client, p: Packet)
    requires |c.ob| <= c.obCap
    ensures SameClient(c, QueueReply(w, c, p))
  {
  }

  /** Closing a client looks only at its descriptor and its upstream. */
  lemma CloseIgnores(s: State, i: nat, d: Client)
    requires HasC(s, i) && SameClient(C(s, i), d)
    ensures ClientClose(SetC(s, i, d), i) == ClientClose(s, i)
  {
    hide CloseFd, RemoteClose;
    var cs := s.clients[i := Full(d)];
    assert cs[i := Empty] == s.clients[i := Empty];
    CloseFdAlone(s, d.fd, cs);
    if d.remote.Some? && HasR(s, d.remote.value) {
      var t := CloseFd(s, d.fd);
      RemoteCloseAlone(SetR(t, d.remote.value, R(t, d.remote.value).(client := None)), d.remote.value, cs);
    }
  }

  lemma CloseFdAlone(s: State, fd: int, cs: seq<Slot<Client>>)
    ensures CloseFd(s.(clients := cs), fd) == CloseFd(s, fd).(clients := cs)
    ensures CloseFd(s, fd).remotes == s.remotes && CloseFd(s, fd).clients == s.clients
  {
  }

  lemma RemoteCloseAlone(s: State, j: nat, cs: seq<Slot<Client>>)
    ensures RemoteClose(s.(clients := cs), j) == RemoteClose(s, j).(clients := cs)
    ensures RemoteClose(s, j).clients == s.clients
  {
  }


  /** The packet this event would complete obeys the rule. */
  predicate ReceiveRule(s: State, i: nat, io: Io, conn: Option<int>)
    requires HasC(s, i)
  {
    var r := Receive(C(s, i).ib, CLIENT_IB, io);
    r.Ready? ==> CommandRule(s, i, r.packet, conn)
  }

  /** A packet has just been completed, and is handled with itself still in the buffer. */
  lemma HeldKeeps(s: State, i: nat, d: Client)
    requires Inv(s) && HasC(s, i) && C(s, i).state == Command
    requires d == C(s, i).(ib := d.ib, rx := d.rx, held := true) && ClientOk(s.wire, d)
    ensures Inv(SetC(s, i, d)) && Calm(s, SetC(s, i, d))
  {
    ClientFacts(s, i);
    hide Inv, Calm, ClientOk, RemoteOk;
    SetClient(s, i, d);
  }

  /** The command of a packet that has just been completed. */
  lemma ReadyKeeps(s: State, i: nat, d: Client, p: Packet, conn: Option<int>)
    requires Inv(s) && HasC(s, i) && C(s, i).state == Command
    requires d == C(s, i).(ib := d.ib, rx := d.rx, held := true)
    requires ClientOk(s.wire, d) && d.ib == Frame(p) && WellSized(p) && CommandRule(s, i, p, conn)
    ensures var (t, ret) := ClientCommand(SetC(s, i, d), i, p, conn); Done(s, i, t, ret, p)
  {
    hide Inv, ClientCommand, Calm, ClientOk, Frame, MessageRule;
    HeldKeeps(s, i, d);
    var h := SetC(s, i, d);
    if MessageIn(s.wire, p).Some? {
      SameRule(s, h, i, MessageIn(s.wire, p).value, conn);
    }
    ClientCommandKeeps(h, i, p, conn);
    var (t, ret) := ClientCommand(h, i, p, conn);
    CalmTransitive(s, h, Finish(t, i, ret, p));
  }

  lemma DoneKeeps(s: State, i: nat, result: (State, int), p: Packet)
    requires Done(s, i, result.0, result.1, p)
    ensures Inv(Finish(result.0, i, result.1, p)) && Calm(s, Finish(result.0, i, result.1, p))
  {
  }

  lemma ClientRecvKeeps(s: State, i: nat, io: Io, conn: Option<int>)
    requires Inv(s) && HasC(s, i) && !Handed(C(s, i)) && ReceiveRule(s, i, io, conn)
    ensures Inv(ClientRecv(s, i, io, conn)) && Calm(s, ClientRecv(s, i, io, conn))
  {
    hide Inv, ClientClose, ClientCommand, Calm, Receive, Frame, RemoteOk, ClientMasks, ClientStreams, ClientNotes,
         ClientRequest, CommandRule;
    var c := C(s, i);
    ClientFacts(s, i);
    match Receive(c.ib, CLIENT_IB, io)
    case Gone => ClientCloseIs(s, i);
    case BadLength(_) => ClientCloseIs(s, i);
    case More(data) =>
      GotOk(s.wire, c, io);
      hide ClientOk;
      SetClient(s, i, Got(c, data));
    case Ready(data, p) => CompletedKeeps(s, i, io, conn);
  }

  lemma CompletedKeeps(s: State, i: nat, io: Io, conn: Option<int>)
    requires Inv(s) && HasC(s, i) && !Handed(C(s, i)) && ReceiveRule(s, i, io, conn)
    requires Receive(C(s, i).ib, CLIENT_IB, io).Ready?
    ensures Inv(ClientRecv(s, i, io, conn)) && Calm(s, ClientRecv(s, i, io, conn))
  {
    hide Inv, ClientClose, ClientCommand, Calm, Receive, Frame, ClientMasks, ClientStreams, ClientNotes, ClientRequest,
         CommandRule, Done, PairOk, RemoteOk, Finish;
    var c, r := C(s, i), Receive(C(s, i).ib, CLIENT_IB, io);
    ClientFacts(s, i);
    var d := Got(c, r.data).(held := true);
    if c.state == Command {
      HeldOk(s.wire, c, io);
      ClientReady(s.wire, c, io);
      hide ClientOk;
      ReadyKeeps(s, i, d, r.packet, conn);
      DoneKeeps(s, i, ClientCommand(SetC(s, i, d), i, r.packet, conn), r.packet);
    } else {
      BusyIs(s, i, d, r.packet, conn);
      hide ClientOk;
      Unfinished(ClientClose(s, i), i, -1, r.packet);
      ClientCloseIs(s, i);
    }
  }

  lemma ClientReady(w: Codec, c: Client, io: Io)
    requires ClientOk(w, c) && !Handed(c) && Receive(c.ib, CLIENT_IB, io).Ready?
    ensures WellSized(Receive(c.ib, CLIENT_IB, io).packet)
  {
    ClientReceipt(w, c, io);
  }

  lemma Unfinished(t: State, i: nat, ret: int, p: Packet)
    requires ret != 0
    ensures Finish(t, i, ret, p) == t
  {
  }

  lemma ClientSendKeeps(s: State, i: nat, io: Io)
    requires Inv(s) && HasC(s, i) && C(s, i).state != Connected
    ensures Inv(ClientSend(s, i, io)) && Calm(s, ClientSend(s, i, io))
  {
    hide Inv, Calm, ClientClose, RemoteOk, Frames, ResultPacket, ReadNotes, ProjectNotes, ConnectRequest, Replay, Sent;
    var c := C(s, i);
    ClientFacts(s, i);
    if c.ob == [] {
      var d := c.(events := c.events.(pout := false));
      Unarmed(s.wire, c);
      hide ClientOk, PairOk;
      SetClient(s, i, d);
    } else {
      var n := Accepted(io, |c.ob|);
      if n == 0 {
        ClientCloseIs(s, i);
      } else {
        AfterSend(s.wire, s, c, n);
        hide ClientOk, PairOk;
        SetClient(s, i, Sent(c, n));
      }
    }
  }

  lemma Unarmed(w: Codec, c: Client)
    requires ClientOk(w, c) && c.ob == [] && c.state != Connected
    ensures var d := c.(events := c.events.(pout := false)); ClientOk(w, d) && forall r | PairOk(c, r) :: PairOk(d, r)
  {
    hide Frames, ResultPacket, ReadNotes, ProjectNotes, ConnectRequest;
  }

  lemma AfterSend(w: Codec, s: State, c: Client, n: nat)
    requires ClientOk(w, c) && ViewOk(s, c) && 0 < n <= |c.ob| && c.state != Connected
    ensures ClientOk(w, Sent(c, n)) && ViewOk(s, Sent(c, n)) && SameClient(c, Sent(c, n))
    ensures Sent(c, n).state == Connecting2 ==> c.state == Connecting2
    ensures Handed(Sent(c, n)) == Handed(c) && (Sent(c, n).state == Connecting1 <==> c.state == Connecting1)
    ensures forall r | PairOk(c, r) :: PairOk(Sent(c, n), r)
  {
    SentOk(w, c, n);
    forall r | PairOk(c, r) ensures PairOk(Sent(c, n), r) { SentPair(c, n, r); }
  }

  lemma UpSame(c: Client, r: Remote, data: seq<byte>)
    ensures SameClient(c, UpC(c, data)) && SameRemote(r, UpR(r, data)) && UpC(c, data).state == c.state
            && UpR(r, data).state == r.state
  {
  }

  lemma DownSame(c: Client, r: Remote, n: nat)
    requires n <= |r.ib|
    ensures SameClient(c, DownC(c, r, n)) && SameRemote(r, DownR(r, n)) && DownC(c, r, n).state == c.state
            && DownR(r, n).state == r.state
  {
  }

  lemma RelayClientKeeps(s: State, i: nat, ev: Revents, io: Io)
    requires Inv(s) && HasC(s, i) && C(s, i).state == Connected
    ensures Inv(RelayClient(s, i, ev, io)) && Calm(s, RelayClient(s, i, ev, io))
  {
    hide Inv, ClientClose, Calm, ClientBuffers, ClientMasks, ClientStreams, ClientNotes, RemoteStreams, UpC, UpR,
        DownC, DownR;
    var c := C(s, i);
    ClientFacts(s, i);
    var j := c.remote.value;
    var r := R(s, j);
    assert |r.ob| <= r.obCap;
    hide ClientOk, RemoteOk, PairOk, RemoteStates, RemoteBuffers;
    if ev.pin && |r.ob| < r.obCap {
      var data := Taken(io, r.obCap - |r.ob|);
      if data == [] {
        ClientCloseIs(s, i);
      } else {
        UpOk(s.wire, c, r, data);
        UpSame(c, r, data);
        SetPair(s, i, UpC(c, data), j, UpR(r, data));
      }
    } else if !ev.pin && ev.pout && r.ib != [] {
      var n := Accepted(io, |r.ib|);
      if n == 0 {
        ClientCloseIs(s, i);
      } else {
        DownOk(s.wire, c, r, n);
        DownSame(c, r, n);
        SetPair(s, i, DownC(c, r, n), j, DownR(r, n));
      }
    } else {
      CalmReflexive(s);
    }
  }

  /** `client_process`: readable events are not delivered to a client whose result packet is going out. */
  lemma ClientProcessKeeps(s: State, fd: int, ev: Revents, io: Io, conn: Option<int>)
    requires Inv(s)
    requires forall i: nat | HasC(s, i) && C(s, i).fd == fd ::
      && (ev.pin ==> C(s, i).state != Connecting2)
      && (ev.pin && !Handed(C(s, i)) ==> ReceiveRule(s, i, io, conn))
    ensures var t := ClientProcess(s, fd, ev, io, conn); Inv(t) && Calm(s, t)
  {
    hide Inv, ClientRecv, ClientSend, RelayClient, Calm, ReceiveRule;
    var i := FindClient(s.clients, fd);
    if i == |s.clients| {
      CalmReflexive(s);
    } else {
      assert HasC(s, i) && C(s, i).fd == fd;
      if C(s, i).state == Connected {
        RelayClientKeeps(s, i, ev, io);
      } else if ev.pin {
        ClientRecvKeeps(s, i, io, conn);
      } else if ev.pout {
        ClientSendKeeps(s, i, io);
      } else {
        CalmReflexive(s);
      }
    }
  }
}
