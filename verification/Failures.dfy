/**
 Runs that end badly. In some, each event but the last follows the rules, and that one goes wrong as
 `Limits` says it must: a client that takes away its own upstream, or forwards twice, or asks for no
 record in particular; an upstream that announces no device in particular. The others keep all
 rules: a client whose Listen is never consumed, a death that nobody is woken for, a freed upstream
 that is touched, listeners that die or lose their devices with a connection to another.
 The messages involved are assumed to fit the input buffers in the codec's encoding.
 */
module Failures {
  import opened Base
  import opened Wire
  import opened DeviceTable
  import opened Protocol
  import opened Connections
  import opened Collections
  import opened Multiplexer
  import opened Invariant
  import opened Upkeep
  import opened Teardown
  import opened Reaping
  import opened Commands
  import opened ClientEvents
  import opened RemoteEvents
  import opened EventLoop
  import opened Theorems
  import opened Rounds
  import opened Session
  import opened Announcements
  import opened Limits
  import DeviceKey
  import IdMap

  /** A property-list packet of a client or an upstream. */
  function Plist(w: Codec, m: Message): Packet { PlistPacket(w, 1, 0, m) }

  // ---- a second request on the same connection

  const READ_BUID: Message := NO_ITEMS.(kind := Some("ReadBUID"))

  /** The client of slot i has an upstream j that was made for a forwarded request. */
  ghost predicate Forwards(s: State, i: nat, j: nat) {
    AtRest(s, i) && C(s, i).remote == Some(j) && Quiet(s, j) && R(s, j).client == Some(i) && NoneDead(s)
  }

  /** The upstream made for it. */
  function BuidRemote(w: Codec, peer: Peer, fd: int, i: nat): Remote {
    NewRemote(fd, peer, PlistPacket(w, 1, 0, OwnRequest("ReadBUID"))).(last := Forwarded, client := Some(i))
  }

  /** Where a ReadBUID goes: to the upstream of the first device, or to the local one. */
  function BuidPeer(s: State): Option<Peer> { Route(s, if s.devices == [] then 0 else OwnerOf(s.devices[0].id)) }

  /** What a ReadBUID does to a client at rest, whether or not it is the first. */
  lemma BuidHandled(s: State, i: nat, fd: int)
    requires Lossless(s.wire) && AtRest(s, i) && fd !in s.fds && BuidPeer(s).Some?
    requires |C(s, i).ob| <= C(s, i).obCap && !C(s, i).obFreed
    ensures var p, n := Plist(s.wire, READ_BUID), FirstEmpty(s.remotes);
            var q := BuidRemote(s.wire, BuidPeer(s).value, fd, i);
            var t := Handled(s, i, p, Some(fd));
            && t.remotes == AddSlot(s.remotes, q) && t.wire == s.wire && t.devices == s.devices
            && t.fds == s.fds[fd := OpenRemote(n)]
            && AtRest(t, i) && C(t, i).remote == Some(n)
  {
    hide AddSlot, FirstEmpty, Frame, Grown, OwnRequest, BuidPeer, ClientCommand, PlistPacket;
    var p := Plist(s.wire, READ_BUID);
    BuidSame(s, i, p);
    BuidForwards(Holding(s, i, p), i, p, Some(fd));
  }

  /** The command comes down to a forwarded request. */
  lemma BuidForwards(h: State, i: nat, p: Packet, conn: Option<int>)
    requires Lossless(h.wire) && HasC(h, i) && C(h, i).state == Command && p == Plist(h.wire, READ_BUID)
    requires var g := SetC(h, i, C(h, i).(version := 1)); BuidPeer(g).Some? && Fresh(g, conn)
    ensures var g := SetC(h, i, C(h, i).(version := 1));
            var q := NewRemote(conn.value, BuidPeer(g).value, PlistPacket(h.wire, 1, 0, OwnRequest("ReadBUID")));
            ClientCommand(h, i, p, conn) == (Attach(g, i, q.(last := Forwarded)), 0)
  {
    hide Route, OwnerOf, Attach, NewRemote, OwnRequest;
    assert h.wire.dec(p.payload) == Some(READ_BUID);
  }

  lemma BuidSame(s: State, i: nat, p: Packet)
    requires HasC(s, i)
    ensures var h := Holding(s, i, p); BuidPeer(SetC(h, i, C(h, i).(version := 1))) == BuidPeer(s)
  {
  }

  lemma BuidAllowed(s: State, i: nat, fd: int)
    requires Lossless(s.wire) && HasC(s, i) && C(s, i).remote.None?
    ensures CommandRule(s, i, Plist(s.wire, READ_BUID), Some(fd))
  {
    assert s.wire.dec(Plist(s.wire, READ_BUID).payload) == Some(READ_BUID);
  }

  /** The answer to a forwarded request is passed on to the client. */
  lemma PassedAnswer(s: State, i: nat, j: nat) returns (t: State)
    requires Idle(s) && Forwards(s, i, j) && R(s, j).state == RCommand && R(s, j).last == Forwarded
    ensures Idle(t) && Forwards(t, i, j) && t == s.(clients := t.clients, remotes := t.remotes)
  {
    hide Idle, Frame, Inv, PassOn, ResultOf;
    var p := Answer(RESULT_OK);
    IdleFacts(s);
    InputArmed(s, i);
    AnswerReads(s.wire, RESULT_OK);
    UpstreamSends(s, j, p);
    t := Dispatched(s, j, p);
    PassedSame(s.wire, C(s, i), p);
    PassedIs(s, i, j, p);
    assert forall k: nat {:trigger HasR(t, k)} {:trigger HasR(s, k)} :: HasR(t, k) == HasR(s, k);
  }

  lemma PassedSame(w: Codec, c: Client, p: Packet)
    requires |c.ob| <= c.obCap
    ensures var d := PassOn(w, c, p); d.state == c.state && d.ib == c.ib && d.held == c.held && d.remote == c.remote
  {
    hide Frame, Grown;
  }

  lemma PassedIs(s: State, i: nat, j: nat, p: Packet)
    requires Forwards(s, i, j) && R(s, j).state == RCommand && R(s, j).last == Forwarded && p == Answer(RESULT_OK)
    requires !C(s, i).obFreed && |C(s, i).ob| <= C(s, i).obCap
    ensures Dispatched(s, j, p)
            == SetR(SetC(s, i, PassOn(s.wire, C(s, i), p)), j, Consumed(RemoteGot(R(s, j), Frame(p)), p))
  {
    hide Frame, PassOn, ResultOf, Announce;
    assert forall x: Remote, y: Remote :: s.remotes[j := Full(x)][j := Full(y)] == s.remotes[j := Full(y)];
  }

  lemma {:induction false} WithdrawSlots(s: State, ids: seq<nat>)
    ensures Withdraw(s, ids).remotes == s.remotes && forall i: nat :: HasC(Withdraw(s, ids), i) == HasC(s, i)
    decreases |ids|
  {
    hide QueueNote, Apply;
    if ids != [] {
      WithdrawSlots(Announce(s, Detached(ids[0])), ids[1..]);
    }
  }

  /** Disposing of an upstream whose client is gone follows a dangling pointer. */
  lemma DanglingFaults(s: State, j: nat)
    requires HasR(s, j) && R(s, j).client.Some? && !HasC(s, R(s, j).client.value)
    ensures Dispose(s, j).fault
  {
    hide Withdraw, OwnedIds;
    var t := CloseFd(s, R(s, j).fd);
    WithdrawSlots(t, OwnedIds(s.devices, R(s, j).id));
    assert !HasC(t, R(s, j).client.value);
    assert !HasC(Withdraw(t, OwnedIds(s.devices, R(s, j).id)), R(s, j).client.value);
  }

  /** Closing a client leaves every upstream but its own. */
  lemma LeftBehind(s: State, i: nat, j: nat)
    requires HasC(s, i) && HasR(s, j) && C(s, i).remote != Some(j)
    ensures !HasC(ClientClose(s, i), i) && HasR(ClientClose(s, i), j) && R(ClientClose(s, i), j) == R(s, j)
  {
  }

  /** After the event the pointers of client i and upstream j are crossed, and end in a fault when the client hangs up. */
  ghost predicate CrossedBy(l: Loop, e: Event, i: nat, j: nat) {
    var t := Next(l, e).s;
    && Reachable(l) && HasC(t, i) && HasR(t, j) && R(t, j).client == Some(i) && C(t, i).remote != Some(j)
    && Dispose(ClientClose(t, i), j).fault
  }

  /** ReadBUID, its answer, and ReadBUID again. */
  lemma SecondForward(w: Codec)
    requires Lossless(w) && FitsClient(Plist(w, READ_BUID))
    ensures exists l: Loop, e: Event, i: nat, j: nat :: l.s.wire == w && CrossedBy(l, e, i, j)
  {
    hide Idle, Reachable, Inv, Handled, AddSlot, FirstEmpty, CommandRule, ClientClose, Dispose, Frame, Grown,
         OwnRequest, Next;
    var p := Plist(w, READ_BUID);
    StartIdle(w, None);
    var s, i := Joins(Start(w, None), 10);
    IdleFacts(s);
    InputArmed(s, i);
    BuidAllowed(s, i, 11);
    ClientSends(s, i, p, Some(11));
    BuidHandled(s, i, 11);
    var t, j := Handled(s, i, p, Some(11)), FirstEmpty(s.remotes);
    var q := BuidRemote(w, Local, 11, i);
    AddedRemote(s, t, q);
    assert Forwards(t, i, j);
    var u := PassedAnswer(t, i, j);
    IdleFacts(u);
    InputArmed(u, i);
    BuidHandled(u, i, 12);
    var l, e := ClientSendsLast(u, i, p, Some(12));
    var v := Handled(u, i, p, Some(12));
    AddedRemote(u, v, BuidRemote(w, Local, 12, i));
    LeftBehind(v, i, j);
    DanglingFaults(ClientClose(v, i), j);
    assert CrossedBy(l, e, i, j);
  }

  // ---- a network upstream that listens

  const HOST: Host := Host("upstream", 27015)

  /** Upstream j listens under id 1, and is the only one. */
  ghost predicate Listens(s: State, j: nat) {
    && Quiet(s, j) && R(s, j).state == RListen && R(s, j).listener && R(s, j).peer == HOST && R(s, j).id == 1
    && NoneDead(s) && forall k: nat | HasR(s, k) :: k == j
  }

  /** A service appears, is sent Listen, and accepts. */
  lemma ListenerUp(w: Codec) returns (s: State, j: nat)
    requires Lossless(w)
    ensures Idle(s) && s.wire == w && s.devices == [] && s.fds.Keys == {20} && Listens(s, j)
  {
    hide Idle, Start;
    StartIdle(w, None);
    NothingYet(w);
    s, j := ServiceListens(Start(w, None));
    assert {} + {20} == {20};
  }

  lemma NothingYet(w: Codec)
    ensures var s := Start(w, None);
            s.wire == w && s.devices == [] && s.used == {} && s.fds == map[] && forall k: nat :: !HasR(s, k)
  {
  }

  /** The same beside a local upstream, or none. */
  lemma ServiceListens(a: State) returns (s: State, j: nat)
    requires Idle(a) && NoneDead(a) && 20 !in a.fds && a.used <= {0} && forall k: nat | HasR(a, k) :: R(a, k).peer.Local?
    ensures Idle(s) && s == a.(remotes := s.remotes, fds := s.fds, used := s.used) && s.fds.Keys == a.fds.Keys + {20}
    ensures OneMore(a, s, j) && Quiet(s, j) && NoneDead(s)
    ensures R(s, j).state == RListen && R(s, j).listener && R(s, j).peer == HOST && R(s, j).id == 1
  {
    hide Idle, Frame, PlistPacket;
    var b;
    b, j := ServiceUp(a);
    s := Brought(b, j);
  }

  /** The listener of a service that has just appeared. */
  function NewService(w: Codec): Remote {
    NewRemote(20, HOST, PlistPacket(w, 1, 0, OwnRequest("Listen")))
      .(id := 1, listener := true, service := "upstream", last := ListenCmd)
  }

  lemma ServiceUp(a: State) returns (b: State, j: nat)
    requires Idle(a) && NoneDead(a) && 20 !in a.fds && a.used <= {0} && forall k: nat | HasR(a, k) :: R(a, k).peer.Local?
    ensures Idle(b) && NoneDead(b) && b == a.(remotes := b.remotes, fds := b.fds, used := b.used)
    ensures b.fds.Keys == a.fds.Keys + {20} && OneMore(a, b, j) && R(b, j) == NewService(a.wire) && NewListener(R(b, j))
  {
    hide Idle, AddSlot, FirstEmpty, Frame, Grown, PlistPacket, Reachable;
    forall k | 0 <= k < |a.remotes|
      ensures !SameService(a.remotes[k], "upstream", HOST)
    {
      assert a.remotes[k].Full? ==> HasR(a, k);
    }
    assert ServiceAdd(a, "upstream", HOST, Some(20)).0 == AddRemote(a, NewService(a.wire)).(used := a.used + {1});
    b, j := AddRemote(a, NewService(a.wire)).(used := a.used + {1}), FirstEmpty(a.remotes);
    StartsRun(a, b);
    AddedRemote(a, b, NewService(a.wire));
    NewServiceIs(a.wire);
  }

  /** A listener to which Listen is still queued. */
  predicate NewListener(r: Remote) {
    r.ob != [] && r.ib == [] && r.events.pin && r.state == RCommand && r.last == ListenCmd
  }

  lemma NewServiceIs(w: Codec)
    ensures NewListener(NewService(w)) && NewService(w).peer == HOST && NewService(w).id == 1
  {
  }

  /** A new listener reads its Listen, and accepts. */
  lemma Brought(b: State, j: nat) returns (s: State)
    requires Idle(b) && NoneDead(b) && HasR(b, j) && NewListener(R(b, j))
    ensures Idle(s) && NoneDead(s) && s == b.(remotes := s.remotes) && Quiet(s, j)
    ensures forall k: nat {:trigger HasR(s, k)} {:trigger HasR(b, k)} :: HasR(s, k) == HasR(b, k)
    ensures forall k: nat | HasR(b, k) && k != j :: R(s, k) == R(b, k)
    ensures R(s, j).state == RListen && SameRemote(R(b, j), R(s, j))
  {
    hide Idle, Frame, ResultOf, Inv;
    UpstreamReads(b, j);
    var c := SetR(b, j, RemoteSent(R(b, j), |R(b, j).ob|));
    assert forall k: nat {:trigger HasR(c, k)} {:trigger HasR(b, k)} :: HasR(c, k) == HasR(b, k);
    AnswerReads(c.wire, RESULT_OK);
    UpstreamSends(c, j, Answer(RESULT_OK));
    s := Dispatched(c, j, Answer(RESULT_OK));
    ListenAnswered(c, j);
    assert forall k: nat {:trigger HasR(s, k)} {:trigger HasR(c, k)} :: HasR(s, k) == HasR(c, k);
  }

  lemma StartsRun(a: State, b: State)
    requires Idle(a) && b == ServiceAdd(a, "upstream", HOST, Some(20)).0
    ensures Idle(b)
  {
    hide Reachable, ServiceAdd;
    Extend(Loop(a, []), ServiceAppears("upstream", HOST, Some(20)));
  }

  lemma ListenAnswered(s: State, j: nat)
    requires HasR(s, j) && R(s, j).state == RCommand && R(s, j).last == ListenCmd
    requires ResultOf(s.wire, Answer(RESULT_OK)) == RESULT_OK
    ensures Dispatched(s, j, Answer(RESULT_OK)) ==
            SetR(s, j, Consumed(RemoteGot(R(s, j), Frame(Answer(RESULT_OK))).(state := RListen), Answer(RESULT_OK)))
  {
    hide Frame, ResultOf, Consumed;
    assert forall x: Remote, y: Remote :: s.remotes[j := Full(x)][j := Full(y)] == s.remotes[j := Full(y)];
  }

  // ---- a client that takes away its own upstream

  const REMOVE: Message := NO_ITEMS.(kind := Some("RemoveInstance"), host := Some("upstream"), port := Some(27015))

  /** Connect to a device of the upstream, refusal, and RemoveInstance of that upstream. */
  lemma OwnUpstreamRemoved(w: Codec)
    requires Lossless(w) && FitsClient(Plist(w, REMOVE))
    ensures exists l: Loop, e: Event :: Reachable(l) && l.s.wire == w && Next(l, e).s.fault
  {
    hide Idle, Reachable, Inv, Handled, Next, NotifyConnect, Route;
    var device := OWNER_UNIT + 5;
    var a, j := ListenerUp(w);
    var s, i := Joins(a, 10);
    assert forall k: nat {:trigger HasR(s, k)} {:trigger HasR(a, k)} :: HasR(s, k) == HasR(a, k);
    IdleFacts(s);
    RouteOf(s, j);
    assert OwnerOf(device) == 1;
    var t, n := Connects(s, i, device, 11);
    IdleFacts(t);
    InputArmed(t, i);
    var u := Answers(t, i, n, RESULT_CONNREFUSED);
    RefusedClient(w, C(t, i));
    assert forall k: nat {:trigger HasR(u, k)} {:trigger HasR(t, k)} :: HasR(u, k) == HasR(t, k);
    assert AtRest(u, i) && C(u, i).remote == Some(n) && HasR(u, j) && R(u, j) == R(s, j);
    IdleFacts(u);
    RemovalFaults(u, i, j);
    var l, e := ClientSendsLast(u, i, Plist(w, REMOVE), None);
  }

  lemma RefusedClient(w: Codec, c: Client)
    requires c.state == Connecting1 && |c.ob| <= c.obCap
    ensures var d := NotifyConnect(w, c, RESULT_CONNREFUSED);
            d.state == Command && d.ib == c.ib && d.held == c.held && d.remote == c.remote
  {
    hide Frame, Grown, ResultPacket;
  }

  lemma RemovalFaults(s: State, i: nat, j: nat)
    requires Inv(s) && Lossless(s.wire) && AtRest(s, i) && C(s, i).remote.Some? && FitsClient(Plist(s.wire, REMOVE))
    requires HasR(s, j) && R(s, j).listener && R(s, j).peer == HOST && forall k: nat | HasR(s, k) :: R(s, k).id == 1
    ensures Handled(s, i, Plist(s.wire, REMOVE), None).fault
  {
    hide Inv, Frame, ServiceRemove, ReplyResult, Got;
    var p := Plist(s.wire, REMOVE);
    assert s.wire.dec(p.payload) == Some(REMOVE);
    HoldingOk(s, i, p);
    var h := Holding(s, i, p);
    Spoken(h, i);
    var g := SetC(h, i, C(h, i).(version := 1));
    assert g.remotes == s.remotes && Named(s.remotes[j], None, Some(HOST));
    var n := FirstNamed(g.remotes, None, Some(HOST));
    assert HasR(s, n);
    forall k | 0 <= k < |s.remotes| && s.remotes[k].Full?
      ensures s.remotes[k].item.id == 1
    {
      assert HasR(s, k);
    }
    HoldingSame(s, i, p);
    RemovalOfOwnUpstream(g, i, HOST, p.tag, RESULT_OK);
    RemovedFirst(g, HOST);
    assert ClientCommand(h, i, p, None) == (ReplyResult(ServiceRemove(g, None, Some(HOST)).0, i, p.tag, RESULT_OK), 0);
  }

  lemma HoldingSame(s: State, i: nat, p: Packet)
    requires HasC(s, i)
    ensures C(Holding(s, i, p), i).remote == C(s, i).remote && C(Holding(s, i, p), i).state == C(s, i).state
  {
  }

  // ---- a Listen that stays in the buffer

  function Announcement(number: nat): Message { NO_ITEMS.(kind := Some("Attached"), device := Some(number)) }

  const ANNOUNCED: Message := Announcement(5)

  const LISTEN_PACKET: Packet := Packet(0, MESSAGE_LISTEN, 7, [])

  /** A listening client whose Listen is still in its buffer: the next input event will close it, whatever it brings. */
  ghost predicate Stuck(s: State, i: nat) {
    && Idle(s) && HasC(s, i) && C(s, i).state == Listen && C(s, i).held && C(s, i).events.pin
    && forall io, conn :: !HasC(ClientRecv(s, i, io, conn), i)
  }

  /** A device is announced, and then a client asks to listen. */
  lemma ListenStuck(w: Codec)
    requires Lossless(w) && FitsUpstream(Plist(w, ANNOUNCED))
    ensures exists s: State, i: nat :: s.wire == w && Stuck(s, i)
  {
    hide Idle, Reachable, Inv, Handled, StartListen, ClientRecv, Frame;
    var a, j := ListenerUp(w);
    var s, i := Joins(a, 10);
    assert forall k: nat {:trigger HasR(s, k)} {:trigger HasR(a, k)} :: HasR(s, k) == HasR(a, k);
    var p := Plist(w, ANNOUNCED);
    assert w.dec(p.payload) == Some(ANNOUNCED);
    UpstreamSends(s, j, p);
    var t := Dispatched(s, j, p);
    DeviceShown(s, i, j);
    ClientSends(t, i, LISTEN_PACKET, None);
    var u := Handled(t, i, LISTEN_PACKET, None);
    IdleFacts(t);
    HoldingOk(t, i, LISTEN_PACKET);
    ListenConsumed(Holding(t, i, LISTEN_PACKET), i, LISTEN_PACKET.tag, LISTEN_PACKET);
    HandledListen(t, i);
    IdleFacts(u);
    InputArmed(u, i);
    forall io, conn
      ensures !HasC(ClientRecv(u, i, io, conn), i)
    {
      HeldListenerIsClosed(u, i, io, conn);
    }
    assert Stuck(u, i);
  }

  lemma HandledListen(t: State, i: nat)
    requires AtRest(t, i)
    ensures var (v, ret) := StartListen(Holding(t, i, LISTEN_PACKET), i, LISTEN_PACKET.tag);
            Handled(t, i, LISTEN_PACKET, None) == Finish(v, i, ret, LISTEN_PACKET)
    ensures Handled(t, i, LISTEN_PACKET, None).wire == t.wire
  {
    hide Told0, ResultPacket, QueueReply;
  }

  lemma DeviceShown(s: State, i: nat, j: nat)
    requires Lossless(s.wire) && Listens(s, j) && AtRest(s, i) && s.devices == []
    ensures var t := Dispatched(s, j, Plist(s.wire, ANNOUNCED));
            t.devices != [] && AtRest(t, i) && t.wire == s.wire
  {
    hide Frame, QueueNote;
    assert s.wire.dec(Plist(s.wire, ANNOUNCED).payload) == Some(ANNOUNCED);
  }

  // ---- a pair-record request that names nothing

  const READ_RECORD: Message := NO_ITEMS.(kind := Some("ReadPairRecord"))

  /** A client's first packet asks for a pair record and does not say which. */
  lemma NamelessRecord(w: Codec)
    requires Lossless(w) && FitsClient(Plist(w, READ_RECORD))
    ensures exists l: Loop, e: Event :: Reachable(l) && l.s.wire == w && Next(l, e).s.fault
  {
    hide Idle, Reachable, Handled, Next, Start;
    StartIdle(w, None);
    NothingYet(w);
    var s, i := Joins(Start(w, None), 10);
    NamelessHandled(s, i, 11);
    var l, e := ClientSendsLast(s, i, Plist(w, READ_RECORD), Some(11));
  }

  lemma NamelessHandled(s: State, i: nat, fd: int)
    requires Lossless(s.wire) && AtRest(s, i) && fd !in s.fds
    ensures Handled(s, i, Plist(s.wire, READ_RECORD), Some(fd)).fault
  {
    hide Frame, AnySerial;
    assert s.wire.dec(Plist(s.wire, READ_RECORD).payload) == Some(READ_RECORD);
  }

  // ---- a relay to the upstream that fails at once

  /** The rules are kept, and the code as written touches an upstream it has freed. */
  ghost predicate TouchesFreed(l: Loop, e: Event) {
    && Reachable(l) && Allowed(l, e) && e.Dispatch? && !NoEvents(e.ev) && l.todo != [] && l.todo[0].party == RemoteSide
    && RemoteProcessAsWritten(l.s, l.todo[0].fd, e.ev, e.io).fault
  }

  /** The upstream accepts a Connect it has not read to the end, and then takes no more of it. */
  lemma FreedUpstreamTouched(w: Codec)
    requires Lossless(w)
    ensures exists l: Loop, e: Event :: l.s.wire == w && TouchesFreed(l, e)
  {
    hide Idle, Reachable, Inv, NotifyConnect, Next, Allowed, RemoteProcessAsWritten, Reap, RemoteProcess, EventRule;
    var s, i, j := Requested(w);
    IdleFacts(s);
    InputArmed(s, i);
    var t := Answers(s, i, j, RESULT_OK);
    AcceptedRemote(R(s, j));
    IdleFacts(t);
    OneFd(t);
    NothingReaped(t, 0, j, None);
    FailedRelaySend(t, R(t, j).fd, WRITABLE, Failed);
    var l, e := RemoteTurn(t, j, WRITABLE, Failed);
    assert TouchesFreed(l, e);
  }

  lemma AcceptedRemote(r: Remote)
    ensures var q := AnsweredRemote(r, RESULT_OK); q.state == RConnected && q.ob == r.ob && q.events == Mask(true, true)
  {
    hide Frame;
  }

  // ---- a device without a number

  const UNNUMBERED: Message := NO_ITEMS.(kind := Some("Attached"))

  /** The table has an entry that belongs to no upstream. */
  ghost predicate Orphaned(s: State) { exists e: Entry<Message> :: e in s.devices && !Owned(s, OwnerOf(e.id)) }

  /** A network upstream announces a device and does not say which. */
  lemma UnnumberedDevice(w: Codec)
    requires Lossless(w) && FitsUpstream(Plist(w, UNNUMBERED))
    ensures exists l: Loop, e: Event :: Reachable(l) && l.s.wire == w && Orphaned(Next(l, e).s)
  {
    hide Idle, Reachable, Dispatched, Next, Orphaned;
    var s, j := ListenerUp(w);
    OrphanFiled(s, j);
    var l, e := UpstreamSendsLast(s, j, Plist(w, UNNUMBERED));
  }

  lemma OrphanFiled(s: State, j: nat)
    requires Lossless(s.wire) && Listens(s, j) && s.devices == []
    ensures Orphaned(Dispatched(s, j, Plist(s.wire, UNNUMBERED)))
  {
    hide Frame, TellAll;
    var p := Plist(s.wire, UNNUMBERED);
    assert s.wire.dec(p.payload) == Some(UNNUMBERED);
    var t := Dispatched(s, j, p);
    assert forall k: nat {:trigger HasR(t, k)} {:trigger HasR(s, k)} :: HasR(t, k) == HasR(s, k);
    assert Entry(0, Stored(UNNUMBERED, 0)) in t.devices;
    assert OwnerOf(0) == 0;
  }

  // ---- a death that nobody is woken for

  /** An upstream is dead, and no live one is armed to make the loop come round for it. */
  ghost predicate Unnoticed(s: State, j: nat) { HasR(s, j) && R(s, j).state == RDead && !Armed(s) }

  /** A listener dies, and the client with the only other upstream leaves; all rules are kept. */
  lemma DeathUnnoticed(w: Codec)
    requires Lossless(w)
    ensures exists s: State, j: nat :: Idle(s) && s.wire == w && Unnoticed(s, j)
  {
    hide Idle, Reachable, Inv, MarkDead, ClientClose, Route;
    var a, j := ListenerUp(w);
    var b, i := Joins(a, 10);
    assert forall k: nat {:trigger HasR(b, k)} {:trigger HasR(a, k)} :: HasR(b, k) == HasR(a, k);
    assert OwnerOf(5) == 0 && Route(b, 0) == Some(Local) by { LocalRoute(b); }
    var c, n := Connects(b, i, 5, 11);
    UpstreamLost(c, j);
    OnlyOneLeft(c, i, j, n);
    var d := MarkDead(c, j);
    ClientLost(d, i);
    LeftUnnoticed(d, i, j, n);
  }

  /** An upstream's connection ends. */
  lemma UpstreamLost(s: State, j: nat)
    requires Idle(s) && NoneDead(s) && Quiet(s, j)
    ensures Idle(MarkDead(s, j))
  {
    hide Idle, Inv, MarkDead, RemoteProcess;
    IdleFacts(s);
    RemoteRound(s, j, READABLE, Failed);
    RemoteInput(s, j, Failed);
  }

  /** A client's connection ends. */
  lemma ClientLost(s: State, i: nat)
    requires Idle(s) && HasC(s, i) && C(s, i).state == Connecting1 && C(s, i).ib == [] && !C(s, i).held
    ensures Idle(ClientClose(s, i))
  {
    hide Idle, Inv, ClientClose, ClientProcess;
    IdleFacts(s);
    InputArmed(s, i);
    assert ReceiveRule(s, i, Failed, None);
    ClientRound(s, i, READABLE, Failed, None);
    ClientInput(s, i, Failed, None);
  }

  lemma OnlyOneLeft(s: State, i: nat, j: nat, n: nat)
    requires Idle(s) && WaitsFor(s, i, n) && HasR(s, j) && R(s, j).id == 1 && R(s, n).id == 0
    requires forall k: nat | HasR(s, k) :: k == j || k == n
    ensures var t := MarkDead(s, j);
            && t.clients == s.clients && t.wire == s.wire && HasR(t, j) && R(t, j).state == RDead
            && forall k: nat | HasR(t, k) :: k == j || k == n
  {
    hide Idle, Inv, MarkDead, Calm;
    IdleFacts(s);
    MarkDeadIs(s, j);
    assert LiveElsewhere(s.remotes, 1) by { assert s.remotes[n].Full?; }
    var t := MarkDead(s, j);
    var k: nat :| DeadMarked(s, t, 1, k);
    assert HasR(s, k) && k == n;
    forall m: nat | HasR(t, m)
      ensures HasR(s, m)
    {
      assert t.remotes[m].Full?;
    }
  }

  lemma LeftUnnoticed(s: State, i: nat, j: nat, n: nat)
    requires Idle(s) && HasC(s, i) && C(s, i).remote == Some(n) && HasR(s, j) && R(s, j).state == RDead && j != n
    requires forall k: nat | HasR(s, k) :: k == j || k == n
    ensures Unnoticed(ClientClose(s, i), j) && ClientClose(s, i).wire == s.wire
  {
    hide Idle, Inv, ClientClose, Armed;
    IdleFacts(s);
    ClientCloseIs(s, i);
    RestWithout(s, Some(i), Some(n));
    ArmedLost(s, i);
  }

  // ---- the local upstream dies with a connection to another

  /** The end of connection n, made to a network upstream, kills the local one, which listens. */
  ghost predicate LocalDiesWith(s: State, j: nat, n: nat) {
    && HasR(s, j) && R(s, j).state == RListen && R(s, j).peer == Local && HasR(s, n) && R(s, n).peer == HOST
    && Idle(MarkDead(s, n)) && HasR(MarkDead(s, n), j) && R(MarkDead(s, n), j).state == RDead
  }

  /** A ReadBUID goes to the network upstream of the first device; the end of that connection is taken for that of id 0. */
  lemma LocalKilled(w: Codec)
    requires Lossless(w) && FitsUpstream(Plist(w, ANNOUNCED)) && FitsClient(Plist(w, READ_BUID))
    ensures exists s: State, j: nat, n: nat :: Idle(s) && s.wire == w && LocalDiesWith(s, j, n)
  {
    hide Idle, Reachable, Inv, Handled, Dispatched, CommandRule, AddSlot, FirstEmpty, MarkDead, Route, Start;
    StartIdle(w, Some(30));
    var m := LocalStarts(w);
    var a := Brought(Start(w, Some(30)), m);
    var b, j := ServiceListens(a);
    var c := DeviceListed(b, j, 5, m);
    assert OwnerOf(c.devices[0].id) == 1;
    var d, i := Joins(c, 10);
    assert forall k: nat {:trigger HasR(d, k)} {:trigger HasR(c, k)} :: HasR(d, k) == HasR(c, k);
    IdleFacts(d);
    InputArmed(d, i);
    RouteOf(d, j);
    BuidAllowed(d, i, 11);
    ClientSends(d, i, Plist(w, READ_BUID), Some(11));
    BuidHandled(d, i, 11);
    var e, n := Handled(d, i, Plist(w, READ_BUID), Some(11)), FirstEmpty(d.remotes);
    AddedRemote(d, e, BuidRemote(w, HOST, 11, i));
    BuidQuiet(w, HOST, 11, i);
    UpstreamLost(e, n);
    IdleFacts(e);
    KilledWith(e, n, m, j);
    assert LocalDiesWith(e, m, n);
  }

  lemma LocalStarts(w: Codec) returns (m: nat)
    ensures var s := Start(w, Some(30));
            && s.wire == w && s.devices == [] && s.used == {0} && s.fds.Keys == {30}
            && HasR(s, m) && NewListener(R(s, m)) && R(s, m).peer == Local && R(s, m).id == 0
            && forall k: nat | HasR(s, k) :: k == m
  {
    hide Frame, Grown, PlistPacket, AddSlot, FirstEmpty;
    var s := Start(w, None);
    var r := NewRemote(30, Local, PlistPacket(w, 1, 0, OwnRequest("Listen"))).(listener := true, last := ListenCmd);
    NothingYet(w);
    m := FirstEmpty(s.remotes);
    AddedRemote(s, Start(w, Some(30)), r);
    NewQueued(w);
  }

  lemma NewQueued(w: Codec)
    ensures NewRemote(30, Local, PlistPacket(w, 1, 0, OwnRequest("Listen"))).ob != []
  {
  }

  /** The upstream of slot j announces a device, the first in the table; the one of slot m goes on as before. */
  lemma DeviceListed(s: State, j: nat, number: nat, m: nat) returns (t: State)
    requires Idle(s) && NoneDead(s) && Quiet(s, j) && R(s, j).state == RListen && s.devices == [] && number < OWNER_UNIT
    requires FitsUpstream(Plist(s.wire, Announcement(number)))
    ensures Idle(t) && NoneDead(t) && t == s.(devices := t.devices, clients := t.clients, remotes := t.remotes)
    ensures t.devices != [] && t.devices[0].id == DeviceKey.Renamed(R(s, j).id, number)
    ensures forall k: nat {:trigger HasR(t, k)} {:trigger HasR(s, k)} :: HasR(t, k) == HasR(s, k)
    ensures SameRemote(R(s, j), R(t, j)) && R(t, j).state == RListen && Quiet(t, j)
    ensures HasR(s, m) && m != j ==> R(t, m) == R(s, m)
  {
    hide Idle, Inv, Dispatched, ResultOf;
    var p := Plist(s.wire, Announcement(number));
    IdleFacts(s);
    assert s.wire.dec(p.payload) == Some(Announcement(number));
    UpstreamSends(s, j, p);
    t := Dispatched(s, j, p);
    ListedIs(s, j, number);
    IdleFacts(t);
    NotFaulty(s);
    NotFaulty(t);
    assert forall k: nat {:trigger HasR(t, k)} {:trigger HasR(s, k)} :: HasR(t, k) == HasR(s, k);
  }

  lemma ListedIs(s: State, j: nat, number: nat)
    requires Lossless(s.wire) && HasR(s, j) && R(s, j).state == RListen && s.devices == [] && number < OWNER_UNIT
    ensures var t, p := Dispatched(s, j, Plist(s.wire, Announcement(number))), Plist(s.wire, Announcement(number));
            && t == s.(devices := t.devices, clients := t.clients, remotes := t.remotes, fault := t.fault)
            && t.devices != [] && t.devices[0].id == DeviceKey.Renamed(R(s, j).id, number)
            && t.remotes == s.remotes[j := Full(Consumed(RemoteGot(R(s, j), Frame(p)), p))]
  {
    hide Frame, QueueNote, DeviceKey.Renamed;
    assert s.wire.dec(Plist(s.wire, Announcement(number)).payload) == Some(Announcement(number));
  }

  lemma BuidQuiet(w: Codec, peer: Peer, fd: int, i: nat)
    ensures var q := BuidRemote(w, peer, fd, i);
            q.ib == [] && q.events.pin && q.state == RCommand && q.id == 0 && q.peer == peer
  {
  }

  lemma KilledWith(s: State, n: nat, m: nat, j: nat)
    requires Inv(s) && HasR(s, n) && HasR(s, m) && HasR(s, j) && R(s, n).id == 0 && R(s, m).id == 0
    requires R(s, j).id == 1 && R(s, j).state == RListen
    ensures HasR(MarkDead(s, n), m) && R(MarkDead(s, n), m).state == RDead
  {
    hide Inv, MarkDead, Calm;
    MarkDeadIs(s, n);
    assert LiveElsewhere(s.remotes, 0) by { assert s.remotes[j].Full?; }
    var k: nat :| DeadMarked(s, MarkDead(s, n), 0, k);
    assert k != m;
  }

  // ---- devices withdrawn by somebody else

  /** The rules are kept, and a listener is robbed of devices it has announced. */
  ghost predicate Robbery(l: Loop, e: Event) { Reachable(l) && Allowed(l, e) && Robs(l, e) != {} }

  const CLOSED: Revents := Revents(false, false, false, true)

  /** A lone POLLNVAL on a connection made for a client takes the devices of the listener with that id. */
  lemma RobbedByInvalid(w: Codec)
    requires Lossless(w) && FitsUpstream(Plist(w, ANNOUNCED))
    ensures exists l: Loop, e: Event :: l.s.wire == w && Robbery(l, e)
  {
    hide Idle, Reachable, Inv, Allowed, Route, Next, Robs;
    var device := OWNER_UNIT + 5;
    var a, j := ListenerUp(w);
    var b := DeviceListed(a, j, 5, j);
    var c, i := Joins(b, 10);
    assert forall k: nat {:trigger HasR(c, k)} {:trigger HasR(b, k)} :: HasR(c, k) == HasR(b, k);
    IdleFacts(c);
    RouteOf(c, j);
    assert OwnerOf(device) == 1;
    var s, n := Connects(c, i, device, 11);
    IdleFacts(s);
    MadeForClient(s, n);
    var l, e := RemoteTurn(s, n, CLOSED, Failed);
    InvalidRobs(l, e, j, n);
    assert Robbery(l, e);
  }

  lemma MadeForClient(s: State, n: nat)
    requires Inv(s) && HasR(s, n) && R(s, n).client.Some?
    ensures !R(s, n).listener
  {
    hide Inv, ClientOk, RemoteStreams, RemoteBuffers, PairOk;
    RemoteFacts(s, n);
  }

  lemma InvalidRobs(l: Loop, e: Event, j: nat, n: nat)
    requires HasR(l.s, j) && R(l.s, j).state == RListen && l.s.devices != [] && OwnerOf(l.s.devices[0].id) == R(l.s, j).id
    requires HasR(l.s, n) && !R(l.s, n).listener && R(l.s, n).state != RDead && R(l.s, n).id == R(l.s, j).id
    requires l.todo != [] && l.todo[0].party == RemoteSide && l.todo[0].fd == R(l.s, n).fd
    requires e == Dispatch(CLOSED, Failed, None)
    ensures Robs(l, e) != {}
  {
    hide OwnerOf;
    assert RobbedByDisposal(l.s, R(l.s, n).fd, CLOSED, j);
    assert RobbedAt(l.s, R(l.s, n).fd, CLOSED, Failed, j);
    assert l.s.remotes[j].item.fd in Robs(l, e);
  }

  const WITHDRAWN: Message := NO_ITEMS.(kind := Some("Detached"))

  /** A packet of a network upstream that withdraws a device without saying which takes device 0 of the local one. */
  lemma RobbedByUnnumbered(w: Codec)
    requires Lossless(w) && FitsUpstream(Plist(w, Announcement(0))) && FitsUpstream(Plist(w, WITHDRAWN))
    ensures exists l: Loop, e: Event :: l.s.wire == w && Robbery(l, e)
  {
    hide Idle, Reachable, Inv, Allowed, Next, Robs, Start, AnswersRule, Receive;
    StartIdle(w, Some(30));
    var m := LocalStarts(w);
    var a := Brought(Start(w, Some(30)), m);
    var b := DeviceListed(a, m, 0, m);
    var s, j := ServiceListens(b);
    var p := Plist(w, WITHDRAWN);
    assert w.dec(p.payload) == Some(WITHDRAWN);
    var g, io := UpstreamArriving(s, j, p);
    assert AnswerRule(s.wire, R(s, j), p);
    var l, e := RemoteTurn(g, j, READABLE, io);
    assert DeviceKey.Renamed(0, 0) == 0;
    ZeroTaken(l, e, m, j, p);
    assert Robbery(l, e);
  }

  lemma ZeroTaken(l: Loop, e: Event, m: nat, j: nat, p: Packet)
    requires HasR(l.s, m) && R(l.s, m).state == RListen && R(l.s, m).id == 0 && l.s.devices != [] && l.s.devices[0].id == 0
    requires HasR(l.s, j) && R(l.s, j).state == RListen && R(l.s, j).id == 1
    requires p.version == 1 && p.message == MESSAGE_PLIST && l.s.wire.dec(p.payload) == Some(WITHDRAWN)
    requires e.Dispatch? && e.ev == READABLE && l.todo != [] && l.todo[0].party == RemoteSide && l.todo[0].fd == R(l.s, j).fd
    requires var r := Receive(R(l.s, j).ib, REMOTE_IB, e.io); r.Ready? && r.packet == p
    ensures Robs(l, e) != {}
  {
    hide Receive;
    assert TakesZero(l.s.wire, R(l.s, j), p);
    assert RobbedByPacket(l.s, R(l.s, j).fd, READABLE, e.io, m);
    assert RobbedAt(l.s, R(l.s, j).fd, READABLE, e.io, m);
    assert l.s.remotes[m].item.fd in Robs(l, e);
  }
}
