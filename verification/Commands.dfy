/** Every command of a client keeps the invariant, and leaves the command's packet where it was. */
module Commands {
  import opened Base
  import opened Wire
  import opened DeviceTable
  import opened Protocol
  import opened Connections
  import opened Collections
  import opened Multiplexer
  import opened Invariant
  import opened Steps
  import opened Upkeep
  import opened Teardown
  import opened Reaping
  import IdMap

  // ---- what the clients promise

  predicate PairRecordKind(kind: Option<string>) {
    kind in {Some("ReadPairRecord"), Some("SavePairRecord"), Some("DeletePairRecord")}
  }

  /** The message the command handler works on. */
  function MessageIn(w: Codec, p: Packet): Option<Message> {
    if p.message == MESSAGE_PLIST then w.dec(p.payload)
    else if p.message == MESSAGE_CONNECT && |p.payload| >= 8 then Some(BinaryConnect(p))
    else None
  }

  /** The upstream a request is to be passed to, if it is one that is passed on. */
  function OwnerAsked(s: State, m: Message): Option<nat> {
    if m.kind == Some("Connect") then
      if m.device.Some? && m.port.Some? then Some(OwnerOf(m.device.value % WORD)) else None
    else if m.kind == Some("ReadBUID") then Some(if s.devices == [] then 0 else OwnerOf(s.devices[0].id))
    else if PairRecordKind(m.kind) then Some(RecordOwner(s.devices, m))
    else None
  }

  /** Handling the request opens an upstream for the client. */
  predicate Opens(s: State, m: Message, conn: Option<int>) {
    OwnerAsked(s, m).Some? && Route(s, OwnerAsked(s, m).value).Some? && Fresh(s, conn)
  }

  /** Handling the request takes away the client's own upstream, and with it the client, on the spot. */
  predicate TakesOwn(s: State, i: nat, m: Message)
    requires HasC(s, i)
  {
    && m.kind == Some("RemoveInstance") && m.host.Some? && m.port.Some? && C(s, i).remote.Some?
    && var j := FirstNamed(s.remotes, None, Some(Host(m.host.value, m.port.value % 0x1_0000)));
       j < |s.remotes| && !LiveElsewhere(s.remotes, s.remotes[j].item.id)
  }

  predicate MessageRule(s: State, i: nat, m: Message, conn: Option<int>)
    requires HasC(s, i)
  {
    && (Opens(s, m, conn) ==> C(s, i).remote.None?)
    && !TakesOwn(s, i, m)
    && (PairRecordKind(m.kind) ==> !Nameless(s, m.kind.value, m, conn))
  }

  /**
   The rule for clients: at most one request per connection is passed on; a client does not take
   away its own upstream; and pair-record requests name a record where the name is looked at.
   It speaks only of packets that are handled: those in the command state, in a known version.
   */
  predicate CommandRule(s: State, i: nat, p: Packet, conn: Option<int>)
    requires HasC(s, i)
  {
    C(s, i).state == Command && (p.version == 0 || p.version == 1) && MessageIn(s.wire, p).Some? ==>
      MessageRule(s, i, MessageIn(s.wire, p).value, conn)
  }

  lemma SameRule(s: State, t: State, i: nat, m: Message, conn: Option<int>)
    requires HasC(s, i) && HasC(t, i) && C(t, i).remote == C(s, i).remote
    requires t.remotes == s.remotes && t.devices == s.devices && t.fds == s.fds
    ensures MessageRule(t, i, m, conn) == MessageRule(s, i, m, conn)
  {
    hide AnySerial, IdOfSerial, LiveElsewhere, FirstRoute, OwnerOf;
  }

  // ---- what a handler that returns 0 leaves behind

  /** The client is still there, with its packet still in the buffer. */
  ghost predicate Holds(s: State, i: nat, t: State) {
    && Inv(t) && Calm(s, t) && HasC(s, i) && HasC(t, i)
    && C(t, i).fd == C(s, i).fd && C(t, i).ib == C(s, i).ib && C(t, i).held == C(s, i).held && !Handed(C(t, i))
  }

  /** The handler has returned `ret`, and the packet is consumed if that is 0. */
  ghost predicate Done(s: State, i: nat, t: State, ret: int, p: Packet) {
    Inv(Finish(t, i, ret, p)) && Calm(s, Finish(t, i, ret, p))
  }

  /** The packet whose command is being handled is the one in the buffer. */
  ghost predicate InBuffer(c: Client, p: Packet) {
    c.state == Command && c.held && c.ib == Frame(p) && WellSized(p)
  }

  lemma HoldsDone(s: State, i: nat, t: State, ret: int, p: Packet)
    requires Holds(s, i, t) && InBuffer(C(s, i), p)
    ensures Done(s, i, t, ret, p)
  {
    if ret == 0 {
      FinishKeeps(s, i, p, t);
    }
  }

  lemma FinishKeeps(s: State, i: nat, p: Packet, t: State)
    requires Holds(s, i, t) && InBuffer(C(s, i), p)
    ensures Done(s, i, t, 0, p)
  {
    var c := C(t, i);
    ClientFacts(t, i);
    hide Frame;
    assert c.state != Connecting1 && c.ib == Frame(p);
    ClearedOk(t.wire, c, p);
    hide Inv, ClientOk;
    var d := c.(ib := [], commands := c.commands + [p], held := false);
    SetClient(t, i, d);
    CalmTransitive(s, t, SetC(t, i, d));
  }

  lemma ReplyKeeps(s: State, i: nat, p: Packet)
    requires Inv(s) && HasC(s, i) && !Handed(C(s, i))
    ensures Holds(s, i, Reply(s, i, p))
    ensures Reply(s, i, p) == SetC(s, i, QueueReply(s.wire, C(s, i), p))
  {
    hide Inv, RemoteOk, Frame, Frames, Grown, ResultPacket, ReadNotes, ProjectNotes, ConnectRequest;
    var c := C(s, i);
    ClientFacts(s, i);
    QueueReplyOk(s.wire, c, p);
    SetClient(s, i, QueueReply(s.wire, c, p));
  }

  lemma ReplyResultKeeps(s: State, i: nat, tag: nat, result: nat)
    requires Inv(s) && HasC(s, i) && !Handed(C(s, i))
    ensures Holds(s, i, ReplyResult(s, i, tag, result))
    ensures ReplyResult(s, i, tag, result) ==
            SetC(s, i, QueueReply(s.wire, C(s, i), ResultPacket(s.wire, C(s, i).version, tag, result)))
  {
    hide Inv, ResultPacket;
    ReplyKeeps(s, i, ResultPacket(s.wire, C(s, i).version, tag, result));
  }

  // ---- Listen

  lemma {:induction false} Told0Ok(w: Codec, c: Client, devices: Table<Message>)
    requires Lossless(w) && ClientOk(w, c) && c.state == Listen && c.notes == [] && forall e | e in devices :: EntryOk(e)
    ensures var d := Told0(w, c, devices);
            && ClientOk(w, d) && d.notes == Snapshot(devices) && d.state == Listen && SameClient(c, d)
            && d.ib == c.ib && d.held == c.held
            && forall r | PairOk(c, r) :: PairOk(d, r)
  {
    if devices != [] {
      var front, e := devices[..|devices| - 1], devices[|devices| - 1];
      assert e in devices && forall x | x in front :: x in devices;
      Told0Ok(w, c, front);
      var d := Told0(w, c, front);
      assert |d.ob| <= d.obCap;
      ToldListener(w, d, Attached(e));
      hide ClientOk, PairOk, NotePacket, Frame, Grown;
    }
  }

  lemma BeginListen(w: Codec, c: Client, d: Client)
    requires ClientOk(w, c) && c.state == Command && d == c.(state := Listen, notes := [], mark := |c.out|, mixed := false)
    ensures ClientOk(w, d) && forall r | PairOk(c, r) :: PairOk(d, r)
  {
    hide Frames, ResultPacket;
    assert c.out[|c.out|..] == [];
  }

  lemma TableFacts(s: State)
    requires Inv(s)
    ensures DistinctKeys(s.devices) && forall e | e in s.devices :: EntryOk(e)
  {
    hide ClientsOk, RemotesOk, FdsOk, ListenersOk, Owned;
  }

  lemma StartListenKeeps(s: State, i: nat, tag: nat)
    requires Inv(s) && HasC(s, i) && C(s, i).state == Command
    ensures Holds(s, i, StartListen(s, i, tag).0)
    ensures StartListen(s, i, tag).1 == |s.devices|
    ensures C(StartListen(s, i, tag).0, i).state == Listen
  {
    ReplyResultKeeps(s, i, tag, RESULT_OK);
    var t := ReplyResult(s, i, tag, RESULT_OK);
    var c := C(t, i);
    hide Inv, ResultPacket, ClientOk, PairOk, RemoteOk, Told0, Calm, QueueReply;
    ClientFacts(t, i);
    TableFacts(t);
    var d := c.(state := Listen, notes := [], mark := |c.out|, mixed := false);
    BeginListen(t.wire, c, d);
    Told0Ok(t.wire, d, t.devices);
    ReplaySnapshot(t.devices);
    SetClient(t, i, Told0(t.wire, d, t.devices));
    CalmTransitive(s, t, StartListen(s, i, tag).0);
  }

  // ---- requests that open an upstream

  lemma NewRemoteOk(w: Codec, fd: int, peer: Peer, first: Packet, r: Remote)
    requires || (exists i: nat, id: nat, m: Message :: first == PlistPacket(w, 1, 0, m) &&
                   r == NewRemote(fd, peer, first).(id := id, state := RConnecting1, asked := Some(m), client := Some(i)))
             || (exists i: nat :: r == NewRemote(fd, peer, first).(last := Forwarded, client := Some(i)))
             || (exists id: nat, name: string ::
                 r == NewRemote(fd, peer, first).(id := id, listener := true, service := name, last := ListenCmd))
    ensures RemoteOk(w, r) && r.fd == fd && r.peer == peer
  {
    hide Frame, Grown, PlistPacket;
    assert Frames([]) == [];
  }

  /** A client in the command state and the upstream just made for it. */
  lemma FreshPair(c: Client, d: Client, r: Remote, j: nat)
    requires c.state == Command && r.up == [] && r.down == [] && !r.rawMode
    requires d == c.(remote := Some(j))
    ensures PairOk(d, r)
  {
  }

  lemma ForwardedOk(w: Codec, c: Client, j: nat)
    requires ClientOk(w, c) && c.state == Command
    ensures ClientOk(w, c.(remote := Some(j)))
  {
    hide Frames, ResultPacket, ReadNotes, ProjectNotes, ConnectRequest;
  }

  /** What a client becomes by a Connect that is passed on, once its packet is consumed. */
  function Waiting(c: Client, j: nat, p: Packet, request: Message, device: nat): Client {
    c.(remote := Some(j), state := Connecting1, connectTag := p.tag, connectDevice := device, request := Some(request),
       ib := [], commands := c.commands + [p], held := false)
  }

  lemma WaitingOk(w: Codec, c: Client, j: nat, p: Packet, request: Message, device: nat)
    requires ClientOk(w, c) && InBuffer(c, p)
    requires ConnectRequest(w, p) == Some(request) && device == request.device.value % WORD
    ensures ClientOk(w, Waiting(c, j, p, request, device))
  {
    ClearedOk(w, c, p);
    hide Frames, ResultPacket, ReadNotes, ProjectNotes, ConnectRequest, Frame;
  }

  lemma WaitingPair(c: Client, j: nat, p: Packet, request: Message, device: nat, r: Remote)
    requires c.state == Command && r.up == [] && r.down == [] && !r.rawMode && r.state == RConnecting1
    requires r.id == OwnerOf(device) && r.asked == Some(request.(device := Some(device % OWNER_UNIT)))
    ensures PairOk(Waiting(c, j, p, request, device), r)
  {
  }

  lemma RouteIs(s: State, id: nat)
    requires ListenersOk(s) && id < 256
    ensures Route(s, id).Some? && id != 0 ==>
      exists j: nat :: HasR(s, j) && R(s, j).id == id && R(s, j).state == RListen && Route(s, id) == Some(R(s, j).peer)
  {
    var j := FirstRoute(s.remotes, id);
    if id != 0 && j < |s.remotes| {
      assert HasR(s, j);
    }
  }

  /** A Connect is refused, or it is the client's first request to be passed on. */
  lemma ConnectKeeps(s: State, i: nat, device: nat, request: Message, p: Packet, conn: Option<int>)
    requires Inv(s) && HasC(s, i) && InBuffer(C(s, i), p)
    requires ConnectRequest(s.wire, p) == Some(request) && device == request.device.value % WORD
    requires Route(s, OwnerOf(device)).Some? && Fresh(s, conn) ==> C(s, i).remote.None?
    ensures Done(s, i, Connect(s, i, device, request, p.tag, conn), 0, p)
  {
    hide Inv, Calm, ConnectRequest, Connect, Frame, Done;
    if Route(s, OwnerOf(device)).None? || !Fresh(s, conn) {
      ReplyResultKeeps(s, i, p.tag, RESULT_BADCOMMAND);
      HoldsDone(s, i, ReplyResult(s, i, p.tag, RESULT_BADCOMMAND), 0, p);
      Refused(s, i, device, request, p.tag, conn);
    } else {
      ConnectOpens(s, i, device, request, p, conn);
    }
  }

  lemma Refused(s: State, i: nat, device: nat, request: Message, tag: nat, conn: Option<int>)
    requires HasC(s, i) && (Route(s, OwnerOf(device)).None? || !Fresh(s, conn))
    ensures Connect(s, i, device, request, tag, conn) == ReplyResult(s, i, tag, RESULT_BADCOMMAND)
  {
  }

  function Asked(w: Codec, fd: int, peer: Peer, device: nat, request: Message): Remote {
    var asked := request.(device := Some(device % OWNER_UNIT));
    NewRemote(fd, peer, PlistPacket(w, 1, 0, asked)).(id := OwnerOf(device), state := RConnecting1, asked := Some(asked))
  }

  lemma ConnectOpens(s: State, i: nat, device: nat, request: Message, p: Packet, conn: Option<int>)
    requires Inv(s) && HasC(s, i) && InBuffer(C(s, i), p) && C(s, i).remote.None?
    requires ConnectRequest(s.wire, p) == Some(request) && device == request.device.value % WORD
    requires Route(s, OwnerOf(device)).Some? && Fresh(s, conn)
    ensures Done(s, i, Connect(s, i, device, request, p.tag, conn), 0, p)
  {
    hide Inv, Calm, RemoteOk, PairOk, Frame, Grown, AddSlot, FirstEmpty, PlistPacket, ConnectRequest, Route, Connect;
    var c, j := C(s, i), FirstEmpty(s.remotes);
    var peer := Route(s, OwnerOf(device)).value;
    var r := Asked(s.wire, conn.value, peer, device, request);
    var d := Waiting(c, j, p, request, device);
    ClientFacts(s, i);
    assert ClientOk(s.wire, d) by { WaitingOk(s.wire, c, j, p, request, device); }
    NewRemoteOk(s.wire, conn.value, peer, r.first, r.(client := Some(i)));
    WaitingPair(c, j, p, request, device, r.(client := Some(i)));
    hide ClientOk;
    AttachKeeps(s, i, r, d);
    ConnectIs(s, i, device, request, p, conn);
  }

  /** What a Connect that is passed on comes to, its packet consumed. */
  lemma ConnectIs(s: State, i: nat, device: nat, request: Message, p: Packet, conn: Option<int>)
    requires HasC(s, i) && Route(s, OwnerOf(device)).Some? && Fresh(s, conn)
    ensures Finish(Connect(s, i, device, request, p.tag, conn), i, 0, p) ==
            SetC(Attach(s, i, Asked(s.wire, conn.value, Route(s, OwnerOf(device)).value, device, request)), i,
                 Waiting(C(s, i), FirstEmpty(s.remotes), p, request, device))
  {
    hide Route, AddSlot, FirstEmpty, NewRemote, PlistPacket;
    assert forall x: Client, y: Client :: s.clients[i := Full(x)][i := Full(y)] == s.clients[i := Full(y)];
  }

  lemma ForwardKeeps(s: State, i: nat, owner: nat, first: Packet, conn: Option<int>)
    requires Inv(s) && HasC(s, i) && C(s, i).state == Command && owner < 256
    requires Route(s, owner).Some? && Fresh(s, conn) ==> C(s, i).remote.None?
    ensures Holds(s, i, Forward(s, i, owner, first, conn).0)
  {
    hide Inv, Calm, ClientBuffers, ClientMasks, ClientStreams, ClientNotes, ClientRequest, RemoteOk, PairOk, Frame, Grown,
         AddSlot, FirstEmpty, Route;
    var peer, c := Route(s, owner), C(s, i);
    if peer.None? || !Fresh(s, conn) {
      ToldReflexive(s);
    } else {
      var r := NewRemote(conn.value, peer.value, first).(last := Forwarded);
      var j := FirstEmpty(s.remotes);
      var d := c.(remote := Some(j));
      ClientFacts(s, i);
      ForwardedOk(s.wire, c, j);
      NewRemoteOk(s.wire, conn.value, peer.value, first, r.(client := Some(i)));
      FreshPair(c, d, r.(client := Some(i)), j);
      hide ClientOk;
      AttachKeeps(s, i, r, d);
      assert Attach(s, i, r).clients[i := Full(d)] == Attach(s, i, r).clients;
      assert Forward(s, i, owner, first, conn).0 == SetC(Attach(s, i, r), i, d);
    }
  }

  // ---- instances

  /** A new listener, unless it is a duplicate, cannot be reached, or all ids are taken. */
  lemma ServiceAddKeeps(s: State, service: string, host: Host, conn: Option<int>)
    requires Inv(s)
    ensures var (t, res) := ServiceAdd(s, service, host, conn);
            Inv(t) && Calm(s, t) && t.clients == s.clients
  {
    var id := IdMap.LeastFree(s.used);
    if Known(s.remotes, service, host) {
      ToldReflexive(s);
    } else if !Fresh(s, conn) {
      ToldReflexive(s);
    } else if id == 0 {
      ClosedAtOnce(s, conn.value);
    } else {
      var first := PlistPacket(s.wire, 1, 0, OwnRequest("Listen"));
      var r := NewRemote(conn.value, host, first).(id := id, listener := true, service := service, last := ListenCmd);
      NewRemoteOk(s.wire, conn.value, host, first, r);
      NotDuplicate(s, service, host, r);
      hide Inv, RemoteOk, Calm, Apart, AddSlot, FirstEmpty, Frame, Grown, PlistPacket;
      AddListener(s, r);
    }
  }

  /** A service that is no duplicate, under a free id, is told apart from every upstream there is. */
  lemma NotDuplicate(s: State, service: string, host: Host, r: Remote)
    requires Inv(s) && !Known(s.remotes, service, host)
    requires r.listener && r.peer == host && r.service == service && r.id == IdMap.LeastFree(s.used) && r.id != 0
    ensures forall j: nat | HasR(s, j) :: Apart(R(s, j), r) && Apart(r, R(s, j))
  {
    hide ClientsOk, RemotesOk, FdsOk, TableOk;
    forall j: nat | HasR(s, j)
      ensures Apart(R(s, j), r) && Apart(r, R(s, j))
    {
      assert IdentityOk(s.used, R(s, j));
      assert !SameService(s.remotes[j], service, host);
    }
  }

  lemma ClosedAtOnce(s: State, fd: int)
    requires Inv(s) && fd !in s.fds
    ensures Inv(s.(fds := s.fds[fd := Closed])) && Calm(s, s.(fds := s.fds[fd := Closed]))
  {
    hide ClientOk, RemoteOk, PairOk, Lossless, Replay, Apart, IdentityOk, EntryOk, DistinctKeys;
    var t := s.(fds := s.fds[fd := Closed]);
    SameSlots(s, t);
    assert FdsOk(t) by { hide ClientsOk, RemotesOk, ListenersOk, TableOk; }
    assert ClientsOk(t) && RemotesOk(t) by { hide FdsOk, ListenersOk, TableOk; }
    assert ListenersOk(t) by { hide FdsOk, ClientsOk, RemotesOk, TableOk; MarkedIds(s); ListenersFrame(s, t); }
    assert TableOk(t) by { hide FdsOk, ClientsOk, RemotesOk, ListenersOk; OwnedFrame(s, t); }
  }

  lemma ServiceRemoveKeeps(s: State, service: Option<string>, host: Option<Host>)
    requires Inv(s)
    ensures var (t, res) := ServiceRemove(s, service, host);
            Inv(t) && Calm(s, t) && Spares(s, t)
  {
    hide Inv, Calm, MarkDead;
    var j := FirstNamed(s.remotes, service, host);
    if j < |s.remotes| {
      assert HasR(s, j);
      MarkDeadIs(s, j);
    } else {
      CalmReflexive(s);
    }
  }

  lemma CalmReflexive(s: State)
    ensures Calm(s, s)
  {
  }

  /** Exactly when a client in the command state survives the death of an upstream. */
  lemma RequesterLeft(s: State, i: nat, j: nat)
    requires Inv(s) && HasC(s, i) && C(s, i).state == Command && HasR(s, j)
    ensures var t := MarkDead(s, j);
            && (HasC(t, i) ==> C(t, i).state == Command && C(t, i) == C(s, i))
            && (HasC(t, i) <==> C(s, i).remote.None? || LiveElsewhere(s.remotes, R(s, j).id))
  {
    hide Inv, MarkDead, Calm;
    MarkDeadIs(s, j);
    var t := MarkDead(s, j);
    if C(s, i).remote.Some? && !LiveElsewhere(s.remotes, R(s, j).id) && HasC(t, i) {
      NoRemoteLeft(t, i);
    }
  }

  lemma NoRemoteLeft(t: State, i: nat)
    requires Inv(t) && HasC(t, i) && AllEmpty(t.remotes)
    ensures C(t, i).remote.None?
  {
    hide Inv;
    ClientFacts(t, i);
  }
}
