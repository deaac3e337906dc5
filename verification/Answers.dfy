/**
 What each command of a client is answered, and what is sent upstream for it, read from the packets
 themselves: which Result under which tag, which request with which items, to which upstream.
 */
module Answers {
  import opened Base
  import opened Wire
  import opened DeviceTable
  import opened Protocol
  import opened Reading
  import opened Connections
  import opened Collections
  import opened Multiplexer
  import opened Invariant
  import opened Upkeep
  import opened Commands
  import opened RemoteEvents
  import opened Theorems

  // ---- what a client is sent

  /** The client is queued one more packet, asks for output, and is otherwise as it was. */
  ghost predicate Queued(c: Client, d: Client, p: Packet) {
    && d.out == c.out + [p] && d.ob == c.ob + Frame(p) && d.events == Mask(c.events.pin, true)
    && d.(out := c.out, ob := c.ob, obCap := c.obCap, events := c.events, mixed := c.mixed) == c
  }

  /** Nothing happens but that client i, which is c by now, is queued that packet. */
  ghost predicate Sends(s: State, t: State, i: nat, c: Client, p: Packet) {
    HasC(s, i) && HasC(t, i) && t == s.(clients := s.clients[i := t.clients[i]]) && Queued(c, C(t, i), p)
  }

  /** Nothing happens but that it is sent the Result with that number, under that tag. */
  ghost predicate Results(s: State, t: State, i: nat, c: Client, tag: nat, n: nat) {
    exists p :: Sends(s, t, i, c, p) && SaysResult(s.wire, c.version, p, tag, n)
  }

  /** The client speaks version 1 from its first property list on. */
  function Speaking(c: Client, p: Packet): Client { if p.message == 8 then c.(version := 1) else c }

  /** A client whose command is about to be handled, in a version the daemon knows. */
  ghost predicate AtCommand(s: State, i: nat, p: Packet) {
    Inv(s) && HasC(s, i) && C(s, i).state == Command && (p.version == 0 || p.version == 1) && p.tag < 0x1_0000_0000
  }

  lemma Writable(s: State, i: nat)
    requires Inv(s) && HasC(s, i) && C(s, i).state == Command
    ensures Lossless(s.wire) && !C(s, i).obFreed && |C(s, i).ob| <= C(s, i).obCap
  {
    hide Inv, ClientStreams, ClientNotes, ClientRequest, RemoteOk, PairOk;
    ClientFacts(s, i);
  }

  lemma QueuedIs(w: Codec, c: Client, p: Packet)
    requires |c.ob| <= c.obCap
    ensures Queued(c, QueueReply(w, c, p), p)
  {
    hide Frame, Grown, Misleads;
  }

  lemma ReplySends(s: State, i: nat, p: Packet)
    requires HasC(s, i) && !C(s, i).obFreed && |C(s, i).ob| <= C(s, i).obCap
    ensures Sends(s, Reply(s, i, p), i, C(s, i), p)
  {
    hide QueueReply, Queued;
    QueuedIs(s.wire, C(s, i), p);
  }

  lemma ReplyResults(s: State, i: nat, tag: nat, n: nat)
    requires HasC(s, i) && !C(s, i).obFreed && |C(s, i).ob| <= C(s, i).obCap && Lossless(s.wire) && n < WORD
    ensures Results(s, ReplyResult(s, i, tag, n), i, C(s, i), tag, n)
  {
    hide Reply, Sends, ResultPacket, SaysResult;
    var p := ResultPacket(s.wire, C(s, i).version, tag, n);
    ReplySends(s, i, p);
    ResultPacketReads(s.wire, C(s, i).version, tag, n);
  }

  /** The state in which a property list is handled. */
  function InVersion1(s: State, i: nat): State
    requires HasC(s, i)
  {
    SetC(s, i, C(s, i).(version := 1))
  }

  lemma SendsSpoken(s: State, t: State, i: nat, p: Packet)
    requires HasC(s, i) && Sends(InVersion1(s, i), t, i, C(InVersion1(s, i), i), p)
    ensures Sends(s, t, i, C(s, i).(version := 1), p)
  {
    hide Queued;
  }

  lemma ResultsSpoken(s: State, t: State, i: nat, tag: nat, n: nat)
    requires HasC(s, i) && Results(InVersion1(s, i), t, i, C(InVersion1(s, i), i), tag, n)
    ensures Results(s, t, i, C(s, i).(version := 1), tag, n)
  {
    hide Sends, SaysResult;
    var p :| Sends(InVersion1(s, i), t, i, C(InVersion1(s, i), i), p) && SaysResult(s.wire, 1, p, tag, n);
    SendsSpoken(s, t, i, p);
  }

  lemma VersionOnly(s: State, i: nat)
    requires HasC(s, i)
    ensures var u := InVersion1(s, i);
            && HasC(u, i) && u.wire == s.wire && u.remotes == s.remotes && u.devices == s.devices
            && u.fds == s.fds && u.used == s.used && u.fault == s.fault
            && C(u, i).obFreed == C(s, i).obFreed && C(u, i).ob == C(s, i).ob && C(u, i).obCap == C(s, i).obCap
  {
  }

  // ---- refusals

  /** A packet in a version the daemon does not know is answered with 6, one it does not understand with 1. */
  lemma NotUnderstood(s: State, i: nat, p: Packet, conn: Option<int>)
    requires Inv(s) && HasC(s, i) && C(s, i).state == Command
    requires (p.version != 0 && p.version != 1) || (p.message != 8 && p.message != 3 && (p.message != 2 || |p.payload| < 8))
    ensures var (t, ret) := ClientCommand(s, i, p, conn);
            ret == 0 && Results(s, t, i, C(s, i), p.tag, if p.version != 0 && p.version != 1 then 6 else 1)
  {
    hide Inv, ReplyResult, Results;
    Writable(s, i);
    ReplyResults(s, i, p.tag, 6);
    ReplyResults(s, i, p.tag, 1);
  }

  /** A property list that cannot be read, or has no type, stays in the buffer unanswered. */
  lemma Unreadable(s: State, i: nat, p: Packet, conn: Option<int>)
    requires AtCommand(s, i, p) && p.message == 8
    requires s.wire.dec(p.payload).None? || s.wire.dec(p.payload).value.kind.None?
    ensures ClientCommand(s, i, p, conn) == (s.(clients := s.clients[i := Full(C(s, i).(version := 1))]), -1)
  {
  }

  lemma PlistHandled(s: State, i: nat, p: Packet, m: Message, conn: Option<int>)
    requires HasC(s, i) && C(s, i).state == Command && (p.version == 0 || p.version == 1)
    requires Carries(s.wire, p, m) && m.kind.Some?
    ensures ClientCommand(s, i, p, conn) == PlistCommand(InVersion1(s, i), i, m, p, conn)
  {
    hide PlistCommand;
  }

  predicate Understood(kind: string) {
    kind in {"Listen", "Connect", "ListDevices", "ListListeners", "Instances", "ReadBUID", "ReadPairRecord",
             "DeletePairRecord", "SavePairRecord", "AddInstance", "RemoveInstance"}
  }

  /** Unknown types, and requests without the items they need, are answered at once: 2 for a missing device, or else 1. */
  lemma Incomplete(s: State, i: nat, p: Packet, m: Message, conn: Option<int>)
    requires AtCommand(s, i, p) && Carries(s.wire, p, m) && m.kind.Some?
    requires || !Understood(m.kind.value)
             || (m.kind.value == "Connect" && (m.device.None? || m.port.None?))
             || (m.kind.value in {"AddInstance", "RemoveInstance"} && (m.host.None? || m.port.None?))
    ensures var (t, ret) := ClientCommand(s, i, p, conn);
            && ret == 0
            && Results(s, t, i, C(s, i).(version := 1), p.tag, if m.kind.value == "Connect" && m.device.None? then 2 else 1)
  {
    hide Inv, ReplyResult, Results, StartListen, Connect, Forward, ServiceAdd, ServiceRemove, Nameless;
    Writable(s, i);
    VersionOnly(s, i);
    PlistHandled(s, i, p, m, conn);
    var n := if m.kind.value == "Connect" && m.device.None? then 2 else 1;
    ReplyResults(InVersion1(s, i), i, p.tag, n);
    ResultsSpoken(s, ReplyResult(InVersion1(s, i), i, p.tag, n), i, p.tag, n);
  }
  // ---- queries

  /** The slots of the clients that listen, in list order. */
  lemma {:induction false} ListeningSlotsAre(cs: seq<Slot<Client>>)
    ensures var slots := ListeningSlots(cs);
            && (forall a, b :: 0 <= a < b < |slots| ==> slots[a] < slots[b])
            && (forall i: nat :: i in slots <==> i < |cs| && cs[i].Full? && cs[i].item.state == Listen)
  {
    if cs != [] {
      var n := |cs| - 1;
      ListeningSlotsAre(cs[..n]);
      var front := ListeningSlots(cs[..n]);
      forall a | 0 <= a < |front|
        ensures front[a] < n
      {
        assert front[a] in front;
      }
      forall i: nat
        ensures i in ListeningSlots(cs) <==> i < |cs| && cs[i].Full? && cs[i].item.state == Listen
      {
        if i < n {
          assert cs[..n][i] == cs[i];
        }
      }
    }
  }

  /** The report a query asks for. */
  function ReportFor(s: State, kind: string): Report {
    if kind == "ListDevices" then DeviceList(s.devices)
    else if kind == "ListListeners" then ListenerList(ListeningSlots(s.clients))
    else Instances(InstanceReport(s.remotes, s.devices))
  }

  /** A query is answered with the report it asks for: devices, listening clients, or instances. */
  lemma QueryAnswered(s: State, i: nat, p: Packet, m: Message, conn: Option<int>)
    requires AtCommand(s, i, p) && Carries(s.wire, p, m)
    requires m.kind in {Some("ListDevices"), Some("ListListeners"), Some("Instances")}
    ensures var (t, ret) := ClientCommand(s, i, p, conn);
            && ret == 0
            && Sends(s, t, i, C(s, i).(version := 1), Packet(1, 8, p.tag, s.wire.report(ReportFor(s, m.kind.value))))
  {
    hide Inv, Reply, Sends, InstanceReport, ListeningSlots;
    Writable(s, i);
    VersionOnly(s, i);
    PlistHandled(s, i, p, m, conn);
    var q := Packet(1, 8, p.tag, s.wire.report(ReportFor(s, m.kind.value)));
    SameListening(s, i);
    ReplySends(InVersion1(s, i), i, q);
    SendsSpoken(s, Reply(InVersion1(s, i), i, q), i, q);
  }

  lemma SameListening(s: State, i: nat)
    requires HasC(s, i)
    ensures ListeningSlots(InVersion1(s, i).clients) == ListeningSlots(s.clients)
  {
    SameSlotsListen(s.clients, InVersion1(s, i).clients);
  }

  lemma {:induction false} SameSlotsListen(a: seq<Slot<Client>>, b: seq<Slot<Client>>)
    requires |a| == |b|
    requires forall k :: 0 <= k < |a| ==> a[k].Full? == b[k].Full? && (a[k].Full? ==> a[k].item.state == b[k].item.state)
    ensures ListeningSlots(a) == ListeningSlots(b)
  {
    if a != [] {
      SameSlotsListen(a[..|a| - 1], b[..|b| - 1]);
    }
  }

  // ---- Listen

  predicate AsksToListen(w: Codec, p: Packet) {
    p.message == 3 || (p.message == 8 && w.dec(p.payload).Some? && w.dec(p.payload).value.kind == Some("Listen"))
  }

  /** What a client that starts to listen is queued: the Result, then every device of the table, in order. */
  ghost predicate Welcomed(w: Codec, c: Client, d: Client, tag: nat, devices: Table<Message>) {
    && |d.out| == |c.out| + 1 + |devices| && d.out[..|c.out|] == c.out
    && SaysResult(w, c.version, d.out[|c.out|], tag, 0)
    && (forall k :: 0 <= k < |devices| ==> Tells(w, c.version, d.out[|c.out| + 1 + k], Attached(devices[k])))
    && d.ob == c.ob + Frames(d.out[|c.out|..]) && d.events == Mask(c.events.pin, true) && d.state == Listen
    && d.(out := c.out, ob := c.ob, obCap := c.obCap, events := c.events, state := c.state, notes := c.notes,
          mark := c.mark, mixed := c.mixed) == c
  }

  /** Client c, after it has been queued one notification for each of these devices, in order. */
  ghost predicate Snapshots(w: Codec, c: Client, d: Client, devices: Table<Message>) {
    && |d.out| == |c.out| + |devices| && d.out[..|c.out|] == c.out
    && (forall k :: 0 <= k < |devices| ==> Tells(w, c.version, d.out[|c.out| + k], Attached(devices[k])))
    && d.ob == c.ob + Frames(d.out[|c.out|..])
    && d.events == (if devices == [] then c.events else Mask(c.events.pin, true))
    && d.(out := c.out, ob := c.ob, obCap := c.obCap, events := c.events, notes := c.notes) == c
  }

  lemma SnapshotBegins(w: Codec, c: Client)
    ensures Snapshots(w, c, c, [])
  {
    hide Tells;
    assert c.out[|c.out|..] == [] && c.ob + [] == c.ob;
  }

  lemma SnapshotGrows(w: Codec, c: Client, d: Client, front: Table<Message>, e: Entry<Message>, p: Packet)
    requires Snapshots(w, c, d, front) && |d.ob| <= d.obCap && p == NotePacket(w, c.version, Attached(e))
    requires Tells(w, c.version, p, Attached(e))
    ensures Snapshots(w, c, QueueNote(w, d, Attached(e)), front + [e])
  {
    hide Frame, Frames, Grown, Tells, NotePacket;
    var f := QueueNote(w, d, Attached(e));
    assert f.out == d.out + [p] && f.ob == d.ob + Frame(p);
    assert f.out[|c.out|..] == d.out[|c.out|..] + [p];
    FramesAppend(d.out[|c.out|..], p);
    assert c.ob + (Frames(d.out[|c.out|..]) + Frame(p)) == (c.ob + Frames(d.out[|c.out|..])) + Frame(p);
  }

  lemma {:induction false} SnapshotQueued(w: Codec, c: Client, devices: Table<Message>)
    requires |c.ob| <= c.obCap && Lossless(w) && forall e | e in devices :: EntryOk(e)
    ensures |Told0(w, c, devices).ob| <= Told0(w, c, devices).obCap && Snapshots(w, c, Told0(w, c, devices), devices)
  {
    hide Snapshots, Tells, NotePacket, EntryOk;
    if devices == [] {
      SnapshotBegins(w, c);
    } else {
      var front, e := devices[..|devices| - 1], devices[|devices| - 1];
      assert e in devices && forall x | x in front :: x in devices;
      SnapshotQueued(w, c, front);
      var d := Told0(w, c, front);
      assert NoteOk(Attached(e)) by { assert EntryOk(e); }
      NoteReads(w, c.version, Attached(e));
      SnapshotGrows(w, c, d, front, e, NotePacket(w, c.version, Attached(e)));
      assert front + [e] == devices;
      hide Frame, Grown;
    }
  }

  lemma WelcomedIs(w: Codec, c: Client, p: Packet, tag: nat, devices: Table<Message>)
    requires |c.ob| <= c.obCap && Lossless(w) && SaysResult(w, c.version, p, tag, 0) && forall e | e in devices :: EntryOk(e)
    ensures var b := QueueReply(w, c, p);
            && |b.ob| <= b.obCap
            && Welcomed(w, c, Told0(w, b.(state := Listen, notes := [], mark := |b.out|, mixed := false), devices),
                        tag, devices)
  {
    hide Frame, Grown, Tells, SaysResult, EntryOk, Misleads, Told0;
    var b := QueueReply(w, c, p);
    var a := b.(state := Listen, notes := [], mark := |b.out|, mixed := false);
    SnapshotQueued(w, a, devices);
    var d := Told0(w, a, devices);
    assert d.out[..|c.out| + 1] == c.out + [p];
    assert d.out[|c.out|] == d.out[..|c.out| + 1][|c.out|] == p;
    assert d.out[..|c.out|] == d.out[..|c.out| + 1][..|c.out|] == c.out;
    assert d.out[|c.out|..] == [p] + d.out[|c.out| + 1..];
    FramesFirst(p, d.out[|c.out| + 1..]);
    assert c.ob + (Frame(p) + Frames(d.out[|c.out| + 1..])) == (c.ob + Frame(p)) + Frames(d.out[|c.out| + 1..]);
  }

  lemma {:induction false} FramesFirst(p: Packet, ps: seq<Packet>)
    ensures Frames([p] + ps) == Frame(p) + Frames(ps)
  {
    hide Frame;
    if ps == [] {
      assert [p] + ps == [p] && [p][..0] == [];
      assert Frames([p]) == Frames([p][..0]) + Frame(p) == [] + Frame(p);
      assert Frame(p) + [] == Frame(p) == [] + Frame(p);
    } else {
      var front, q := ps[..|ps| - 1], ps[|ps| - 1];
      FramesFirst(p, front);
      assert ([p] + ps)[..|ps|] == [p] + front;
      assert Frame(p) + (Frames(front) + Frame(q)) == (Frame(p) + Frames(front)) + Frame(q);
    }
  }

  /** Listen is answered with the Result 0 under its own tag, and then with the whole table, in the client's version. */
  lemma ListenAnswered(s: State, i: nat, p: Packet, conn: Option<int>)
    requires AtCommand(s, i, p) && AsksToListen(s.wire, p)
    ensures var (t, ret) := ClientCommand(s, i, p, conn);
            && ret == |s.devices| && HasC(t, i) && t == s.(clients := s.clients[i := t.clients[i]])
            && Welcomed(s.wire, Speaking(C(s, i), p), C(t, i), p.tag, s.devices)
  {
    hide Inv, StartListen, Welcomed;
    Writable(s, i);
    NotFaulty(s);
    if p.message == 8 {
      VersionOnly(s, i);
      PlistHandled(s, i, p, s.wire.dec(p.payload).value, conn);
      assert forall e | e in s.devices :: EntryOk(e) by { TableFacts(s); }
      ListenStarts(InVersion1(s, i), i, p.tag);
    } else {
      assert forall e | e in s.devices :: EntryOk(e) by { TableFacts(s); }
      ListenStarts(s, i, p.tag);
    }
  }

  lemma ListenStarts(s: State, i: nat, tag: nat)
    requires HasC(s, i) && !C(s, i).obFreed && |C(s, i).ob| <= C(s, i).obCap && Lossless(s.wire) && !s.fault
    requires forall e | e in s.devices :: EntryOk(e)
    ensures var (t, ret) := StartListen(s, i, tag);
            && ret == |s.devices| && HasC(t, i) && t == s.(clients := s.clients[i := t.clients[i]])
            && Welcomed(s.wire, C(s, i), C(t, i), tag, s.devices)
  {
    hide QueueReply, ResultPacket, Told0, Welcomed, EntryOk, SaysResult;
    var p := ResultPacket(s.wire, C(s, i).version, tag, 0);
    ResultPacketReads(s.wire, C(s, i).version, tag, 0);
    WelcomedIs(s.wire, C(s, i), p, tag, s.devices);
    StartListenIs(s, i, tag);
  }

  lemma StartListenIs(s: State, i: nat, tag: nat)
    requires HasC(s, i) && !C(s, i).obFreed && |C(s, i).ob| <= C(s, i).obCap && !s.fault
    ensures var b := QueueReply(s.wire, C(s, i), ResultPacket(s.wire, C(s, i).version, tag, 0));
            StartListen(s, i, tag) ==
              (SetC(s, i, Told0(s.wire, b.(state := Listen, notes := [], mark := |b.out|, mixed := false), s.devices)),
               |s.devices|)
  {
    hide QueueReply, ResultPacket, Told0;
    assert forall x: Client, y: Client :: s.clients[i := Full(x)][i := Full(y)] == s.clients[i := Full(y)];
  }
  // ---- requests that are passed on

  /** The upstream of slot j listens under that id. */
  ghost predicate ListensAs(s: State, j: nat, id: nat) { HasR(s, j) && R(s, j).state == RListen && R(s, j).id == id }

  /** Requests for id 0 go to the local socket, those for another id to the address of the upstream that listens under it. */
  ghost predicate Leads(s: State, id: nat, peer: Peer) {
    if id == 0 then peer == Local else exists j: nat :: ListensAs(s, j, id) && R(s, j).peer == peer
  }

  lemma RouteLeads(s: State, id: nat)
    ensures Route(s, id).Some? <==> exists peer :: Leads(s, id, peer)
    ensures Route(s, id).Some? ==> Leads(s, id, Route(s, id).value)
  {
    var k := FirstRoute(s.remotes, id);
    if id == 0 {
      assert Leads(s, id, Local);
    } else if k < |s.remotes| {
      assert ListensAs(s, k, id);
      assert Leads(s, id, R(s, k).peer);
    } else {
      assert forall j: nat | HasR(s, j) :: !Routes(s.remotes[j], id);
    }
  }

  /**
   The upstream of slot n is new: a connection to that address, made for client i, with one request
   queued and nothing read or written; all other connections, the table and the ids are as before.
   */
  ghost predicate Opened(s: State, t: State, i: nat, n: nat, fd: int, peer: Peer, tag: nat, m: Message) {
    && t == s.(clients := t.clients, remotes := t.remotes, fds := s.fds[fd := OpenRemote(n)])
    && HasC(s, i) && HasC(t, i) && t.clients == s.clients[i := t.clients[i]]
    && !HasR(s, n) && HasR(t, n)
    && (forall k: nat {:trigger HasR(t, k)} {:trigger HasR(s, k)} :: HasR(t, k) <==> HasR(s, k) || k == n)
    && (forall k: nat | HasR(s, k) :: R(t, k) == R(s, k))
    && var r := R(t, n);
       && r.fd == fd && r.peer == peer && r.client == Some(i) && !r.listener && r.events == Mask(true, true)
       && r.tx == [] && r.rx == [] && r.ib == [] && !r.rawMode && Requests(s.wire, r.ob, tag, m)
  }

  lemma OpenedIs(s: State, i: nat, r: Remote, d: Client, tag: nat, m: Message)
    requires HasC(s, i) && !r.listener && !r.rawMode && r.tx == [] && r.rx == [] && r.ib == []
    requires r.events == Mask(true, true)
    requires Requests(s.wire, r.ob, tag, m)
    ensures Opened(s, SetC(Attach(s, i, r), i, d), i, FirstEmpty(s.remotes), r.fd, r.peer, tag, m)
    ensures R(SetC(Attach(s, i, r), i, d), FirstEmpty(s.remotes)) == r.(client := Some(i))
    ensures C(SetC(Attach(s, i, r), i, d), i) == d
  {
    hide AddSlot, FirstEmpty, Requests;
    var u := AddRemote(s, r.(client := Some(i)));
    var t := SetC(Attach(s, i, r), i, d);
    AddedRemote(s, u, r.(client := Some(i)));
    assert t == SetC(u, i, d);
    assert forall k: nat {:trigger HasR(t, k)} {:trigger HasR(u, k)} :: HasR(t, k) == HasR(u, k);
  }

  lemma NewRemoteAsks(w: Codec, fd: int, peer: Peer, tag: nat, m: Message)
    requires Lossless(w) && tag < WORD
    ensures var r := NewRemote(fd, peer, PlistPacket(w, 1, tag, m));
            && !r.listener && !r.rawMode && r.tx == [] && r.rx == [] && r.ib == [] && r.events == Mask(true, true)
            && Requests(w, r.ob, tag, m) && r.fd == fd && r.peer == peer && r.state == RCommand && r.id == 0
  {
    hide Frame, Requests, PlistPacket;
    RequestReads(w, tag, m);
  }

  /** A client that waits for the answer to the Connect it has just sent. */
  function WaitingFor(c: Client, n: nat, tag: nat, device: nat, m: Message): Client {
    c.(remote := Some(n), state := Connecting1, connectTag := tag, connectDevice := device, request := Some(m))
  }

  /** Client i, until now c, waits for upstream n, which has just been made for its Connect. */
  ghost predicate WaitsOn(s: State, t: State, i: nat, n: nat, fd: int, peer: Peer, c: Client, tag: nat, m: Message) {
    var device := (if m.device.Some? then m.device.value else 0) % 0x1_0000_0000;
    && Opened(s, t, i, n, fd, peer, 0, m.(device := Some(device % 0x100_0000)))
    && R(t, n).state == RConnecting1 && R(t, n).id == device / 0x100_0000
    && C(t, i) == WaitingFor(c, n, tag, device, m)
  }

  /**
   What becomes of a Connect, in either form: a new upstream, at the address the high byte of the
   device leads to, is sent the client's own request under the low 24 bits; or the client is answered 1.
   */
  ghost predicate ConnectOutcome(s: State, t: State, i: nat, c: Client, tag: nat, m: Message, conn: Option<int>) {
    var device := (if m.device.Some? then m.device.value else 0) % 0x1_0000_0000;
    if (exists peer :: Leads(s, device / 0x100_0000, peer)) && Fresh(s, conn) then
      exists n: nat, peer :: Leads(s, device / 0x100_0000, peer) && WaitsOn(s, t, i, n, conn.value, peer, c, tag, m)
    else Results(s, t, i, c, tag, 1)
  }

  lemma ConnectHandled(s: State, i: nat, device: nat, m: Message, tag: nat, conn: Option<int>)
    requires HasC(s, i) && !C(s, i).obFreed && |C(s, i).ob| <= C(s, i).obCap && Lossless(s.wire)
    requires m.device.Some? && device == m.device.value % 0x1_0000_0000
    ensures ConnectOutcome(s, Connect(s, i, device, m, tag, conn), i, C(s, i), tag, m, conn)
  {
    hide Results, ReplyResult, Leads, Route, Frame, Grown, AddSlot, FirstEmpty, PlistPacket, NewRemote, Opened, Requests,
         Attach;
    RouteLeads(s, OwnerOf(device));
    assert OwnerOf(device) == device / 0x100_0000;
    if Route(s, OwnerOf(device)).None? || !Fresh(s, conn) {
      ReplyResults(s, i, tag, 1);
    } else {
      var peer, asked := Route(s, OwnerOf(device)).value, m.(device := Some(device % OWNER_UNIT));
      NewRemoteAsks(s.wire, conn.value, peer, 0, asked);
      var r := Asked(s.wire, conn.value, peer, device, m);
      var t, n := Connect(s, i, device, m, tag, conn), FirstEmpty(s.remotes);
      OpenedIs(s, i, r, WaitingFor(C(s, i), n, tag, device, m), 0, asked);
      ConnectState(s, i, device, m, tag, conn);
      assert Leads(s, device / 0x100_0000, peer);
      assert WaitsOn(s, t, i, n, conn.value, peer, C(s, i), tag, m);
    }
  }

  lemma ConnectState(s: State, i: nat, device: nat, m: Message, tag: nat, conn: Option<int>)
    requires HasC(s, i) && Route(s, OwnerOf(device)).Some? && Fresh(s, conn)
    ensures Connect(s, i, device, m, tag, conn) ==
            SetC(Attach(s, i, Asked(s.wire, conn.value, Route(s, OwnerOf(device)).value, device, m)), i,
                 WaitingFor(C(s, i), FirstEmpty(s.remotes), tag, device, m))
  {
    hide Route, AddSlot, FirstEmpty, NewRemote, PlistPacket;
    assert forall x: Client, y: Client :: s.clients[i := Full(x)][i := Full(y)] == s.clients[i := Full(y)];
  }
  lemma OpenedSpoken(s: State, t: State, i: nat, n: nat, fd: int, peer: Peer, tag: nat, m: Message)
    requires HasC(s, i) && Opened(InVersion1(s, i), t, i, n, fd, peer, tag, m)
    ensures Opened(s, t, i, n, fd, peer, tag, m)
  {
    hide Requests;
    var u := InVersion1(s, i);
    assert forall k: nat {:trigger HasR(u, k)} {:trigger HasR(s, k)} :: HasR(u, k) == HasR(s, k);
    assert u.clients[i := t.clients[i]] == s.clients[i := t.clients[i]];
  }

  lemma LeadsSpoken(s: State, i: nat, id: nat, peer: Peer)
    requires HasC(s, i)
    ensures Leads(InVersion1(s, i), id, peer) <==> Leads(s, id, peer)
  {
    var u := InVersion1(s, i);
    assert forall k: nat {:trigger ListensAs(u, k, id)} {:trigger ListensAs(s, k, id)} ::
      ListensAs(u, k, id) == ListensAs(s, k, id);
  }

  lemma ConnectSpoken(s: State, t: State, i: nat, tag: nat, m: Message, conn: Option<int>)
    requires HasC(s, i) && ConnectOutcome(InVersion1(s, i), t, i, C(InVersion1(s, i), i), tag, m, conn)
    ensures ConnectOutcome(s, t, i, C(s, i).(version := 1), tag, m, conn)
  {
    hide Results, Opened, Leads;
    var u, device := InVersion1(s, i), (if m.device.Some? then m.device.value else 0) % 0x1_0000_0000;
    forall peer
      ensures Leads(u, device / 0x100_0000, peer) <==> Leads(s, device / 0x100_0000, peer)
    {
      LeadsSpoken(s, i, device / 0x100_0000, peer);
    }
    if (exists peer :: Leads(s, device / 0x100_0000, peer)) && Fresh(s, conn) {
      var n: nat, peer :| Leads(u, device / 0x100_0000, peer) && WaitsOn(u, t, i, n, conn.value, peer, C(u, i), tag, m);
      OpenedSpoken(s, t, i, n, conn.value, peer, 0, m.(device := Some(device % 0x100_0000)));
      assert Leads(s, device / 0x100_0000, peer) && WaitsOn(s, t, i, n, conn.value, peer, C(u, i), tag, m);
    } else {
      ResultsSpoken(s, t, i, tag, 1);
    }
  }

  /** A Connect, as a property list or binary, is obeyed or answered 1. */
  lemma ConnectObeyed(s: State, i: nat, p: Packet, m: Message, conn: Option<int>)
    requires AtCommand(s, i, p) && AsksToConnect(s.wire, p, m)
    ensures var (t, ret) := ClientCommand(s, i, p, conn);
            ret == 0 && ConnectOutcome(s, t, i, Speaking(C(s, i), p), p.tag, m, conn)
  {
    hide Inv, Connect, ConnectOutcome, DecodeWord;
    Writable(s, i);
    ConnectReads(s.wire, p, m);
    var device := m.device.value % 0x1_0000_0000;
    if p.message == 8 {
      VersionOnly(s, i);
      PlistHandled(s, i, p, m, conn);
      ConnectHandled(InVersion1(s, i), i, device, m, p.tag, conn);
      ConnectSpoken(s, Connect(InVersion1(s, i), i, device, m, p.tag, conn), i, p.tag, m, conn);
    } else {
      assert DecodeWord(p.payload) == device by { WordSmall(p.payload); }
      ConnectHandled(s, i, device, m, p.tag, conn);
    }
  }

  lemma WordSmall(b: seq<byte>)
    requires |b| >= 4
    ensures DecodeWord(b) % 0x1_0000_0000 == DecodeWord(b)
  {
  }

  /** So a binary request for a device and a port goes upstream as a property list with that port and the device's number. */
  lemma BinaryConnectObeyed(s: State, i: nat, version: nat, tag: nat, device: nat, port: nat, conn: Option<int>)
    requires Inv(s) && HasC(s, i) && C(s, i).state == Command && version <= 1 && tag < 0x1_0000_0000
    requires device < 0x1_0000_0000 && port < 0x1_0000
    requires (exists peer :: Leads(s, device / 0x100_0000, peer)) && Fresh(s, conn)
    ensures var t := ClientCommand(s, i, Packet(version, 2, tag, EncodeWord(device) + EncodeWord(port)), conn).0;
            && HasC(t, i) && C(t, i).state == Connecting1 && C(t, i).connectTag == tag && C(t, i).remote.Some?
            && exists peer ::
                 && Leads(s, device / 0x100_0000, peer)
                 && Opened(s, t, i, C(t, i).remote.value, conn.value, peer, 0,
                           Message(Some("Connect"), Some(device % 0x100_0000), Some(port), None, None, None, None, map[]))
  {
    hide Inv, ClientCommand, Requests, Leads, EncodeWord, AsksToConnect, Results;
    var p := Packet(version, 2, tag, EncodeWord(device) + EncodeWord(port));
    var m := Message(Some("Connect"), Some(device), Some(port), None, None, None, None, map[]);
    BinaryConnectReads(s.wire, p, device, port);
    ConnectObeyed(s, i, p, m, conn);
    var t := ClientCommand(s, i, p, conn).0;
    var n: nat, peer :| Leads(s, device / 0x100_0000, peer) && WaitsOn(s, t, i, n, conn.value, peer, C(s, i), tag, m);
    assert Opened(s, t, i, n, conn.value, peer, 0, m.(device := Some(device % 0x100_0000)));
  }

  // ---- requests whose answer is passed on

  /** Upstream n has just been made for a request of client i, until now c; its answer will be passed on. */
  ghost predicate PassesOn(s: State, t: State, i: nat, n: nat, fd: int, peer: Peer, c: Client, tag: nat, m: Message) {
    && Opened(s, t, i, n, fd, peer, tag, m)
    && R(t, n).state == RCommand && R(t, n).last == Forwarded && R(t, n).id == 0 && C(t, i) == c.(remote := Some(n))
  }

  /**
   What becomes of a request that is forwarded to the upstream with that id: a new upstream, whose
   answer will be passed on, is sent message m under the client's own tag; or nothing happens.
   */
  ghost predicate ForwardOutcome(s: State, t: State, i: nat, c: Client, id: nat, tag: nat, m: Message, conn: Option<int>) {
    if (exists peer :: Leads(s, id, peer)) && Fresh(s, conn) then
      exists n: nat, peer :: Leads(s, id, peer) && PassesOn(s, t, i, n, conn.value, peer, c, tag, m)
    else HasC(s, i) && t == s.(clients := s.clients[i := Full(c)])
  }

  lemma ForwardHandled(s: State, i: nat, id: nat, m: Message, tag: nat, conn: Option<int>)
    requires HasC(s, i) && Lossless(s.wire) && tag < WORD
    ensures var (t, ret) := Forward(s, i, id, PlistPacket(s.wire, 1, tag, m), conn);
            && ForwardOutcome(s, t, i, C(s, i), id, tag, m, conn)
            && ret == if (exists peer :: Leads(s, id, peer)) && Fresh(s, conn) then 0 else -1
  {
    hide Leads, Route, Frame, Grown, AddSlot, FirstEmpty, PlistPacket, NewRemote, Opened, Requests, Attach;
    RouteLeads(s, id);
    if Route(s, id).Some? && Fresh(s, conn) {
      var peer, n := Route(s, id).value, FirstEmpty(s.remotes);
      var q := NewRemote(conn.value, peer, PlistPacket(s.wire, 1, tag, m));
      NewRemoteAsks(s.wire, conn.value, peer, tag, m);
      OpenedIs(s, i, q.(last := Forwarded), C(s, i).(remote := Some(n)), tag, m);
      AttachedClient(s, i, q.(last := Forwarded));
      var t := Attach(s, i, q.(last := Forwarded));
      assert Leads(s, id, peer) && PassesOn(s, t, i, n, conn.value, peer, C(s, i), tag, m);
    } else {
      assert s.clients[i := Full(C(s, i))] == s.clients;
    }
  }

  lemma AttachedClient(s: State, i: nat, r: Remote)
    requires HasC(s, i)
    ensures Attach(s, i, r) == SetC(Attach(s, i, r), i, C(s, i).(remote := Some(FirstEmpty(s.remotes))))
  {
    hide AddSlot, FirstEmpty;
    assert forall x: Client :: s.clients[i := Full(x)][i := Full(x)] == s.clients[i := Full(x)];
  }

  lemma PassedSpoken(s: State, t: State, i: nat, id: nat, tag: nat, m: Message, conn: Option<int>)
    requires HasC(s, i) && ForwardOutcome(InVersion1(s, i), t, i, C(InVersion1(s, i), i), id, tag, m, conn)
    ensures ForwardOutcome(s, t, i, C(s, i).(version := 1), id, tag, m, conn)
    ensures (exists peer :: Leads(InVersion1(s, i), id, peer)) <==> (exists peer :: Leads(s, id, peer))
  {
    hide Opened, Leads;
    var u := InVersion1(s, i);
    forall peer
      ensures Leads(u, id, peer) <==> Leads(s, id, peer)
    {
      LeadsSpoken(s, i, id, peer);
    }
    if (exists peer :: Leads(s, id, peer)) && Fresh(s, conn) {
      var n: nat, peer :| Leads(u, id, peer) && PassesOn(u, t, i, n, conn.value, peer, C(u, i), tag, m);
      OpenedSpoken(s, t, i, n, conn.value, peer, tag, m);
      assert Leads(s, id, peer) && PassesOn(s, t, i, n, conn.value, peer, C(u, i), tag, m);
    } else {
      assert u.clients[i := Full(C(u, i))] == s.clients[i := Full(C(u, i))];
    }
  }

  lemma ForwardSpoken(s: State, i: nat, id: nat, m: Message, tag: nat, conn: Option<int>)
    requires HasC(s, i) && Lossless(s.wire) && tag < WORD
    ensures var (t, ret) := Forward(InVersion1(s, i), i, id, PlistPacket(s.wire, 1, tag, m), conn);
            && ForwardOutcome(s, t, i, C(s, i).(version := 1), id, tag, m, conn)
            && ret == if (exists peer :: Leads(s, id, peer)) && Fresh(s, conn) then 0 else -1
  {
    hide ForwardOutcome, Leads, Forward, PlistPacket;
    ForwardHandled(InVersion1(s, i), i, id, m, tag, conn);
    PassedSpoken(s, Forward(InVersion1(s, i), i, id, PlistPacket(s.wire, 1, tag, m), conn).0, i, id, tag, m, conn);
  }

  /** ReadBUID goes to the upstream of the first device in the table, or to the local one; its handler always returns 0. */
  lemma ReadBuidObeyed(s: State, i: nat, p: Packet, m: Message, conn: Option<int>)
    requires AtCommand(s, i, p) && Carries(s.wire, p, m) && m.kind == Some("ReadBUID")
    ensures var (t, ret) := ClientCommand(s, i, p, conn);
            var id := if s.devices == [] then 0 else s.devices[0].id / 0x100_0000;
            ret == 0 && ForwardOutcome(s, t, i, C(s, i).(version := 1), id, p.tag, DaemonSays("ReadBUID", None), conn)
  {
    hide Inv, ForwardOutcome, Forward, PlistPacket;
    Writable(s, i);
    VersionOnly(s, i);
    PlistHandled(s, i, p, m, conn);
    ForwardSpoken(s, i, if s.devices == [] then 0 else OwnerOf(s.devices[0].id), DaemonSays("ReadBUID", None), p.tag, conn);
    assert OwnRequest("ReadBUID") == DaemonSays("ReadBUID", None);
  }

  /** The id of the first device in the table with that serial number, or 0. */
  ghost predicate Names(t: Table<Message>, serial: string, id: nat) {
    || (exists k :: 0 <= k < |t| && HasSerial(t[k].body, serial) && t[k].id == id
                    && forall a :: 0 <= a < k ==> !HasSerial(t[a].body, serial))
    || (id == 0 && forall a :: 0 <= a < |t| ==> !HasSerial(t[a].body, serial))
  }

  lemma {:induction false} SerialNames(t: Table<Message>, serial: string)
    ensures Names(t, serial, IdOfSerial(t, serial))
  {
    if t != [] {
      var tail, id := t[1..], IdOfSerial(t, serial);
      SerialNames(tail, serial);
      assert forall a :: 0 <= a < |tail| ==> tail[a] == t[a + 1];
      if HasSerial(t[0].body, serial) {
        assert t[0].id == id;
      } else if k :| 0 <= k < |tail| && HasSerial(tail[k].body, serial) && tail[k].id == id
                     && forall a :: 0 <= a < k ==> !HasSerial(tail[a].body, serial) {
        assert HasSerial(t[k + 1].body, serial) && t[k + 1].id == id;
        assert forall a :: 0 <= a < k + 1 ==> !HasSerial(t[a].body, serial) by {
          assert forall a :: 1 <= a < k + 1 ==> t[a] == tail[a - 1];
        }
      } else {
        assert forall a :: 1 <= a < |t| ==> t[a] == tail[a - 1];
      }
    }
  }

  /** What goes upstream for a pair-record request: the daemon's own message about the record, or, to save, the client's. */
  function RecordRequest(m: Message): Message
    requires m.kind.Some?
  {
    if m.kind.value == "SavePairRecord" then m else DaemonSays(m.kind.value, m.record)
  }

  /** A pair-record request goes to the upstream of the first device with that serial number, or to the local one. */
  lemma PairRecordObeyed(s: State, i: nat, p: Packet, m: Message, conn: Option<int>)
    requires AtCommand(s, i, p) && Carries(s.wire, p, m) && m.record.Some?
    requires m.kind in {Some("ReadPairRecord"), Some("SavePairRecord"), Some("DeletePairRecord")}
    ensures var (t, ret) := ClientCommand(s, i, p, conn);
            exists id: nat ::
              && Names(s.devices, m.record.value, id)
              && ForwardOutcome(s, t, i, C(s, i).(version := 1), id / 0x100_0000, p.tag, RecordRequest(m), conn)
              && ret == if (exists peer :: Leads(s, id / 0x100_0000, peer)) && Fresh(s, conn) then 0 else -1
  {
    hide Inv, ForwardOutcome, Forward, PlistPacket, Leads, Names, IdOfSerial;
    Writable(s, i);
    VersionOnly(s, i);
    PlistHandled(s, i, p, m, conn);
    var id := IdOfSerial(s.devices, m.record.value);
    SerialNames(s.devices, m.record.value);
    ForwardSpoken(s, i, OwnerOf(id), RecordRequest(m), p.tag, conn);
    assert OwnerOf(id) == id / 0x100_0000;
    assert Names(s.devices, m.record.value, id);
  }

  /** A record to be saved under no name goes to the local upstream, if no device has a serial number to compare. */
  lemma UnnamedSaved(s: State, i: nat, p: Packet, m: Message, conn: Option<int>)
    requires AtCommand(s, i, p) && Carries(s.wire, p, m) && m.record.None? && m.kind == Some("SavePairRecord")
    requires forall e, serial | e in s.devices :: !HasSerial(e.body, serial)
    ensures var (t, ret) := ClientCommand(s, i, p, conn);
            ForwardOutcome(s, t, i, C(s, i).(version := 1), 0, p.tag, m, conn) && ret == if Fresh(s, conn) then 0 else -1
  {
    hide Inv, ForwardOutcome, Forward, PlistPacket;
    Writable(s, i);
    VersionOnly(s, i);
    PlistHandled(s, i, p, m, conn);
    forall k | 0 <= k < |s.devices|
      ensures SerialOf(s.devices[k].body).None?
    {
      assert s.devices[k] in s.devices;
      var b := s.devices[k].body;
      assert b.props.Some? && b.props.value.serial.Some? ==> HasSerial(b, b.props.value.serial.value);
    }
    ForwardSpoken(s, i, 0, m, p.tag, conn);
    assert Leads(s, 0, Local);
  }
}
