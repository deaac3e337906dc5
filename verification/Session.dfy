/**
 A whole session: for every lossless codec there is an allowed run in which a client connects,
 its request is answered, and the pair is relaying; and one in which the handoff loses a byte
 the client has sent too early. What `Theorems` says of such clients is about states that occur.
 */
module Session {
  import opened Base
  import opened Wire
  import opened DeviceTable
  import opened Protocol
  import opened Connections
  import opened Collections
  import opened Multiplexer
  import opened Invariant
  import opened Upkeep
  import opened Commands
  import opened ClientEvents
  import opened RemoteEvents
  import opened EventLoop
  import opened Theorems
  import opened Rounds

  lemma StartIdle(w: Codec, local: Option<int>)
    requires Lossless(w)
    ensures Idle(Start(w, local)) && NoneDead(Start(w, local))
  {
    hide Frame, Grown, PlistPacket;
    var l := Loop(Start(w, local), []);
    assert AllAllowed(l, []) && Run(l, []) == l;
  }

  /** A client is accepted, and nothing else changes. */
  lemma Joins(s: State, fd: int) returns (t: State, i: nat)
    requires Idle(s) && NoneDead(s) && fd !in s.fds
    ensures Idle(t) && NoneDead(t) && AtRest(t, i) && C(t, i).remote.None?
    ensures t == s.(clients := t.clients, fds := t.fds) && t.fds.Keys == s.fds.Keys + {fd}
  {
    hide Idle, AddSlot, FirstEmpty;
    AcceptRound(s, fd);
    t, i := AddClient(s, NewClient(fd)), FirstEmpty(s.clients);
    AddedClient(s, t, NewClient(fd));
    assert forall j: nat {:trigger HasR(t, j)} {:trigger HasR(s, j)} :: HasR(t, j) == HasR(s, j);
  }

  /** A binary request to connect to port 62078 of a device. */
  function ConnectPacket(device: nat): Packet { Packet(0, MESSAGE_CONNECT, 7, EncodeWord(device) + [126, 242, 0, 0]) }

  /** An upstream's binary answer. */
  function Answer(result: nat): Packet { Packet(0, MESSAGE_RESULT, 7, EncodeWord(result)) }

  lemma AnswerReads(w: Codec, result: nat)
    requires result < WORD
    ensures ResultOf(w, Answer(result)) == result && FitsUpstream(Answer(result))
  {
    hide EncodeWord, DecodeWord;
    DecodeEncodeWord(result, []);
    assert EncodeWord(result) + [] == EncodeWord(result);
  }

  /** Client i waits for upstream j, which has answered nothing yet, and to which the Connect is still queued. */
  ghost predicate WaitsFor(s: State, i: nat, j: nat) {
    && HasC(s, i) && C(s, i).state == Connecting1 && C(s, i).remote == Some(j) && C(s, i).ib == [] && !C(s, i).held
    && Quiet(s, j) && R(s, j).state == RConnecting1 && R(s, j).client == Some(i) && R(s, j).ob != [] && NoneDead(s)
  }

  /** The upstreams of s are still there, and j is new. */
  ghost predicate OneMore(s: State, t: State, j: nat) {
    && !HasR(s, j) && HasR(t, j)
    && (forall k: nat | HasR(s, k) :: HasR(t, k) && R(t, k) == R(s, k))
    && (forall k: nat | HasR(t, k) && k != j :: HasR(s, k))
  }

  /** A client asks to be connected to a device whose upstream can be reached. */
  lemma Connects(s: State, i: nat, device: nat, fd: int) returns (t: State, j: nat)
    requires Idle(s) && NoneDead(s) && AtRest(s, i) && C(s, i).remote.None? && device < WORD && fd !in s.fds
    requires Route(s, OwnerOf(device)).Some?
    ensures Idle(t) && t.wire == s.wire && t.devices == s.devices
    ensures WaitsFor(t, i, j) && OneMore(s, t, j) && R(t, j).id == OwnerOf(device)
  {
    hide Idle, Frame, AddSlot, FirstEmpty, Grown, PlistPacket, Route, EncodeWord, DecodeWord, MessageRule, OwnerOf;
    var p := ConnectPacket(device);
    t, j := Handled(s, i, p, Some(fd)), FirstEmpty(s.remotes);
    assert MessageRule(s, i, BinaryConnect(p), Some(fd)) by { Unattached(s, i, p, Some(fd)); }
    ClientSends(s, i, p, Some(fd));
    Opened(s, i, device, fd);
  }

  lemma Unattached(s: State, i: nat, p: Packet, conn: Option<int>)
    requires HasC(s, i) && C(s, i).remote.None? && |p.payload| >= 8
    ensures MessageRule(s, i, BinaryConnect(p), conn)
  {
    hide DecodeWord, Route;
  }

  lemma Opened(s: State, i: nat, device: nat, fd: int)
    requires AtRest(s, i) && device < WORD && fd !in s.fds && Route(s, OwnerOf(device)).Some? && NoneDead(s)
    ensures var t, j := Handled(s, i, ConnectPacket(device), Some(fd)), FirstEmpty(s.remotes);
            && t.wire == s.wire && t.devices == s.devices
            && WaitsFor(t, i, j) && OneMore(s, t, j) && R(t, j).id == OwnerOf(device)
  {
    hide Frame, AddSlot, FirstEmpty, Grown, PlistPacket, Route, OwnerOf, Handled, ConnectPacket, BinaryConnect, Connect, Got;
    var p, h, j := ConnectPacket(device), Holding(s, i, ConnectPacket(device)), FirstEmpty(s.remotes);
    HoldingSlots(s, i, p);
    SameRoute(s, h, OwnerOf(device));
    HandledConnect(s, i, device, fd);
    ConnectIs(h, i, device, BinaryConnect(p), p, Some(fd));
    var q := Asked(s.wire, fd, Route(s, OwnerOf(device)).value, device, BinaryConnect(p)).(client := Some(i));
    var t := Handled(s, i, p, Some(fd));
    assert t.remotes == AddSlot(s.remotes, q);
    AddedRemote(s, t, q);
    assert q.ob != [] by { AskedQueued(s.wire, fd, q.peer, device, BinaryConnect(p)); }
  }

  lemma AskedQueued(w: Codec, fd: int, peer: Peer, device: nat, request: Message)
    ensures Asked(w, fd, peer, device, request).ob != []
  {
  }

  lemma HoldingSlots(s: State, i: nat, p: Packet)
    requires HasC(s, i)
    ensures var h := Holding(s, i, p); h == s.(clients := h.clients) && HasC(h, i)
  {
  }

  lemma HandledConnect(s: State, i: nat, device: nat, fd: int)
    requires AtRest(s, i) && device < WORD
    ensures var p := ConnectPacket(device);
            |p.payload| >= 8 && p.tag == 7 &&
            Handled(s, i, p, Some(fd)) == Finish(Connect(Holding(s, i, p), i, device, BinaryConnect(p), p.tag, Some(fd)), i, 0, p)
  {
    hide Frame, Connect, EncodeWord, DecodeWord, BinaryConnect;
    DecodeEncodeWord(device, [126, 242, 0, 0]);
  }

  lemma SameRoute(s: State, t: State, id: nat)
    requires t.remotes == s.remotes
    ensures Route(t, id) == Route(s, id)
  {
  }

  /** The upstream as the answer leaves it. */
  function AnsweredRemote(r: Remote, result: nat): Remote {
    Consumed(ConnectAnswered(RemoteGot(r, Frame(Answer(result))), result), Answer(result))
  }

  /** Both ends of the pair, moved on by the answer. */
  function Moved(s: State, i: nat, j: nat, result: nat): State
    requires HasC(s, i) && HasR(s, j) && |C(s, i).ob| <= C(s, i).obCap
  {
    SetR(SetC(s, i, NotifyConnect(s.wire, C(s, i), result)), j, AnsweredRemote(R(s, j), result))
  }

  /** Client i, which may have sent more than it should, waits for upstream j. */
  ghost predicate Awaits(s: State, i: nat, j: nat) {
    && HasC(s, i) && C(s, i).state == Connecting1 && C(s, i).remote == Some(j)
    && !C(s, i).obFreed && |C(s, i).ob| <= C(s, i).obCap
    && Quiet(s, j) && R(s, j).state == RConnecting1 && R(s, j).client == Some(i) && NoneDead(s)
  }

  /** The upstream a client waits for answers. */
  lemma Answers(s: State, i: nat, j: nat, result: nat) returns (t: State)
    requires Idle(s) && Awaits(s, i, j) && result < WORD
    ensures Idle(t) && NoneDead(t) && t == Moved(s, i, j, result)
  {
    hide Idle, Frame, NotifyConnect, ResultOf, Inv, ResultPacket;
    var p := Answer(result);
    IdleFacts(s);
    InputArmed(s, i);
    AnswerReads(s.wire, result);
    assert AnswerRule(s.wire, R(s, j), p);
    UpstreamSends(s, j, p);
    AnswerMoves(s, i, j, result);
    t := Dispatched(s, j, p);
    assert forall k: nat {:trigger HasR(t, k)} {:trigger HasR(s, k)} :: HasR(t, k) == HasR(s, k);
  }

  lemma AnswerMoves(s: State, i: nat, j: nat, result: nat)
    requires Awaits(s, i, j) && ResultOf(s.wire, Answer(result)) == result
    ensures Dispatched(s, j, Answer(result)) == Moved(s, i, j, result)
  {
    hide Frame, NotifyConnect, ResultOf, ConnectAnswered, Consumed, Announce, PassOn;
    assert forall x: Remote, y: Remote :: s.remotes[j := Full(x)][j := Full(y)] == s.remotes[j := Full(y)];
  }

  /** From the start to a client that waits for the answer to its Connect. */
  lemma Requested(w: Codec) returns (s: State, i: nat, j: nat)
    requires Lossless(w)
    ensures Idle(s) && s.wire == w && WaitsFor(s, i, j)
  {
    hide Idle;
    StartIdle(w, None);
    var t;
    t, i := Joins(Start(w, None), 10);
    s, j := Connects(t, i, 5, 11);
  }

  /** The client may then send a byte too early. */
  lemma Impatient(s: State, i: nat, j: nat, b: byte) returns (t: State)
    requires Idle(s) && WaitsFor(s, i, j)
    ensures Idle(t) && Awaits(t, i, j) && t.wire == s.wire && C(t, i).ib == [b]
  {
    hide Idle, Inv, ClientProcess;
    IdleFacts(s);
    InputArmed(s, i);
    assert Receive([], CLIENT_IB, Read([b])) == More([b]) by { assert [] + [b] == [b]; }
    ClientRound(s, i, READABLE, Read([b]), None);
    ClientInput(s, i, Read([b]), None);
    t := SetC(s, i, Got(C(s, i), [b]));
    assert [] + [b] == [b];
    assert forall k: nat {:trigger HasR(t, k)} {:trigger HasR(s, k)} :: HasR(t, k) == HasR(s, k);
  }

  /** For every lossless codec some allowed run ends with a connected client. */
  lemma ConnectedIsReachable(w: Codec)
    requires Lossless(w)
    ensures exists l, i: nat :: Reachable(l) && l.s.wire == w && HasC(l.s, i) && C(l.s, i).state == Connected
  {
    hide Reachable, Inv, Sent, NotifyConnect;
    var s, i, j := Requested(w);
    IdleFacts(s);
    InputArmed(s, i);
    var t := Answers(s, i, j, RESULT_OK);
    AnsweredClient(w, C(s, i));
    ResultWaits(w, C(s, i));
    ClientReads(t, i);
    SentConnects(C(t, i));
    var l := Loop(SetC(t, i, Sent(C(t, i), |C(t, i).ob|)), []);
    assert Reachable(l) && HasC(l.s, i);
  }

  lemma ResultWaits(w: Codec, c: Client)
    requires c.state == Connecting1 && |c.ob| <= c.obCap
    ensures NotifyConnect(w, c, RESULT_OK).ob != [] && NotifyConnect(w, c, RESULT_OK).remote == c.remote
  {
    hide Grown, ResultPacket, Frame;
  }

  lemma SentConnects(c: Client)
    requires c.state == Connecting2
    ensures Sent(c, |c.ob|).state == Connected
  {
  }

  /** And some other run ends with a connection that has lost a byte: one sent before the answer came. */
  lemma DropIsReachable(w: Codec, b: byte)
    requires Lossless(w)
    ensures exists l, i: nat ::
              Reachable(l) && l.s.wire == w && HasC(l.s, i) && C(l.s, i).state == Connecting2 && C(l.s, i).dropped == [b]
  {
    hide Reachable, Inv, NotifyConnect;
    var s, i, j := Requested(w);
    var t := Impatient(s, i, j, b);
    IdleFacts(t);
    InputArmed(t, i);
    var u := Answers(t, i, j, RESULT_OK);
    AnsweredClient(w, C(t, i));
    var l := Loop(u, []);
    assert HasC(l.s, i) && C(l.s, i) == NotifyConnect(w, C(t, i), RESULT_OK);
    assert Reachable(l) && C(l.s, i).state == Connecting2 && C(l.s, i).dropped == [b];
  }
}
