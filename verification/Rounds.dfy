/**
 Building runs: iterations of the loop in which one entry has an event, and whole packets
 delivered to a client or an upstream over such iterations.
 */
module Rounds {
  import opened Base
  import opened Wire
  import opened Protocol
  import opened Connections
  import opened Collections
  import opened Multiplexer
  import opened Invariant
  import opened Steps
  import opened Upkeep
  import opened Reaping
  import opened Commands
  import opened ClientEvents
  import opened RemoteEvents
  import opened EventLoop
  import DeviceTable

  const READABLE: Revents := Revents(true, false, false, false)
  const WRITABLE: Revents := Revents(false, true, false, false)

  /** A state between two iterations. */
  ghost predicate Idle(s: State) { Reachable(Loop(s, [])) }

  /** A step that is allowed leads from a reachable state to a reachable state. */
  lemma Extend(l: Loop, e: Event)
    requires Reachable(l) && Allowed(l, e)
    ensures Reachable(Next(l, e))
  {
    var w: Codec, local: Option<int>, es: seq<Event> :|
      Lossless(w) && AllAllowed(Loop(Start(w, local), []), es) && l == Run(Loop(Start(w, local), []), es);
    hide Allowed, Next, Start;
    var more := es + [e];
    assert more[..|more| - 1] == es;
    assert AllAllowed(Loop(Start(w, local), []), more);
  }

  lemma IdleFacts(s: State)
    requires Idle(s)
    ensures Inv(s) && Lossless(s.wire)
  {
    hide Reachable, Inv;
    Safe(Loop(s, []));
    assert Lossless(s.wire) by { LosslessWire(s); }
  }

  lemma LosslessWire(s: State)
    requires Inv(s)
    ensures Lossless(s.wire)
  {
  }

  // ---- entries without an event

  lemma Skip(s: State, todo: seq<PollEntry>)
    requires Reachable(Loop(s, todo)) && todo != []
    ensures Reachable(Loop(s, todo[1..]))
  {
    hide Reachable;
    Extend(Loop(s, todo), Dispatch(Revents(false, false, false, false), Failed, None));
  }

  lemma {:induction false} SkipTo(s: State, todo: seq<PollEntry>, k: nat)
    requires Reachable(Loop(s, todo)) && k <= |todo|
    ensures Reachable(Loop(s, todo[k..]))
  {
    hide Reachable;
    if k > 0 {
      Skip(s, todo);
      SkipTo(s, todo[1..], k - 1);
      assert todo[1..][k - 1..] == todo[k..];
    } else {
      assert todo[0..] == todo;
    }
  }

  lemma SkipAll(s: State, todo: seq<PollEntry>)
    requires Reachable(Loop(s, todo))
    ensures Idle(s)
  {
    hide Reachable;
    SkipTo(s, todo, |todo|);
    assert todo[|todo|..] == [];
  }

  // ---- the entry of a connection

  lemma {:induction false} ClientListed(cs: seq<Slot<Client>>, i: nat) returns (k: nat)
    requires i < |cs| && cs[i].Full?
    ensures k < |ClientEntries(cs)| && ClientEntries(cs)[k] == PollEntry(ClientSide, cs[i].item.fd, cs[i].item.events)
  {
    if i == 0 {
      k := 0;
    } else {
      k := ClientListed(cs[1..], i - 1);
      k := k + if cs[0].Full? then 1 else 0;
    }
  }

  lemma {:induction false} RemoteListed(rs: seq<Slot<Remote>>, j: nat) returns (k: nat)
    requires j < |rs| && rs[j].Full?
    ensures k < |RemoteEntries(rs)| && RemoteEntries(rs)[k] == PollEntry(RemoteSide, rs[j].item.fd, rs[j].item.events)
  {
    if j == 0 {
      k := 0;
    } else {
      k := RemoteListed(rs[1..], j - 1);
      k := k + if rs[0].Full? then 1 else 0;
    }
  }

  /** An iteration gets to the entry of any client. */
  lemma AtClient(s: State, i: nat) returns (todo: seq<PollEntry>)
    requires Idle(s) && HasC(s, i)
    ensures Reachable(Loop(s, todo)) && todo != [] && todo[0] == PollEntry(ClientSide, C(s, i).fd, C(s, i).events)
  {
    hide Reachable, ClientEntries, RemoteEntries;
    Extend(Loop(s, []), Poll);
    var k := ClientListed(s.clients, i);
    SkipTo(s, Snapshot(s), k + 1);
    todo := Snapshot(s)[k + 1..];
  }

  lemma AtRemote(s: State, j: nat) returns (todo: seq<PollEntry>)
    requires Idle(s) && HasR(s, j)
    ensures Reachable(Loop(s, todo)) && todo != [] && todo[0] == PollEntry(RemoteSide, R(s, j).fd, R(s, j).events)
  {
    hide Reachable, ClientEntries, RemoteEntries;
    Extend(Loop(s, []), Poll);
    var k := RemoteListed(s.remotes, j);
    var n := |ClientEntries(s.clients)|;
    assert Snapshot(s)[1 + n + k] == RemoteEntries(s.remotes)[k];
    SkipTo(s, Snapshot(s), 1 + n + k);
    todo := Snapshot(s)[1 + n + k..];
  }

  lemma AcceptRound(s: State, fd: int)
    requires Idle(s) && fd !in s.fds
    ensures Idle(AddClient(s, NewClient(fd)))
  {
    hide Reachable, ClientEntries, RemoteEntries, AddClient, NewClient;
    Extend(Loop(s, []), Poll);
    var todo, t := Snapshot(s), AddClient(s, NewClient(fd));
    assert todo[0] == PollEntry(Acceptor, -1, Mask(true, false));
    Extend(Loop(s, todo), Dispatch(READABLE, Failed, Some(fd)));
    SkipAll(t, todo[1..]);
  }

  /** One event of a client in an iteration, whether or not the rules allow it. */
  lemma ClientTurn(s: State, i: nat, ev: Revents, io: Io, conn: Option<int>) returns (l: Loop, e: Event)
    requires Idle(s) && HasC(s, i) && !NoEvents(ev)
    requires (ev.pin ==> C(s, i).events.pin) && (ev.pout ==> C(s, i).events.pout)
    ensures Reachable(l) && l.s == s && Next(l, e).s == ClientProcess(s, C(s, i).fd, ev, io, conn)
    ensures (ev.pin ==> Handed(C(s, i)) || ReceiveRule(s, i, io, conn)) ==> Allowed(l, e)
  {
    hide Reachable, ClientProcess, ReceiveRule, Inv;
    IdleFacts(s);
    OneFd(s);
    var todo := AtClient(s, i);
    l, e := Loop(s, todo), Dispatch(ev, io, conn);
    forall k | 0 <= k < |s.clients| && s.clients[k].Full? && s.clients[k].item.fd == C(s, i).fd
      ensures k == i
    {
      assert HasC(s, k);
    }
  }

  lemma ClientRound(s: State, i: nat, ev: Revents, io: Io, conn: Option<int>)
    requires Idle(s) && HasC(s, i) && !NoEvents(ev)
    requires (ev.pin ==> C(s, i).events.pin) && (ev.pout ==> C(s, i).events.pout)
    requires ev.pin ==> Handed(C(s, i)) || ReceiveRule(s, i, io, conn)
    ensures Idle(ClientProcess(s, C(s, i).fd, ev, io, conn))
  {
    hide Reachable, ClientProcess, ReceiveRule, Allowed, Next;
    var l, e := ClientTurn(s, i, ev, io, conn);
    Extend(l, e);
    SkipAll(Next(l, e).s, Next(l, e).todo);
  }

  /** One event of an upstream in an iteration, whether or not the rules allow it. */
  lemma RemoteTurn(s: State, j: nat, ev: Revents, io: Io) returns (l: Loop, e: Event)
    requires Idle(s) && HasR(s, j) && !NoEvents(ev)
    requires (ev.pin ==> R(s, j).events.pin) && (ev.pout ==> R(s, j).events.pout)
    ensures Reachable(l) && l.s == s && Next(l, e).s == RemoteProcess(s, R(s, j).fd, ev, io)
    ensures l.todo != [] && l.todo[0] == PollEntry(RemoteSide, R(s, j).fd, R(s, j).events) && e == Dispatch(ev, io, None)
    ensures (ev.pin ==> AnswersRule(s.wire, R(s, j), io)) ==> Allowed(l, e)
  {
    hide Reachable, RemoteProcess, AnswersRule, Inv;
    IdleFacts(s);
    OneFd(s);
    var todo := AtRemote(s, j);
    l, e := Loop(s, todo), Dispatch(ev, io, None);
    forall k | 0 <= k < |s.remotes| && s.remotes[k].Full? && s.remotes[k].item.fd == R(s, j).fd
      ensures k == j
    {
      assert HasR(s, k);
    }
  }

  lemma RemoteRound(s: State, j: nat, ev: Revents, io: Io)
    requires Idle(s) && HasR(s, j) && !NoEvents(ev)
    requires (ev.pin ==> R(s, j).events.pin) && (ev.pout ==> R(s, j).events.pout)
    requires ev.pin ==> AnswersRule(s.wire, R(s, j), io)
    ensures Idle(RemoteProcess(s, R(s, j).fd, ev, io))
  {
    hide Reachable, RemoteProcess, AnswersRule, Allowed, Next;
    var l, e := RemoteTurn(s, j, ev, io);
    Extend(l, e);
    SkipAll(Next(l, e).s, Next(l, e).todo);
  }

  // ---- which handler an event reaches

  lemma ClientInput(s: State, i: nat, io: Io, conn: Option<int>)
    requires Inv(s) && HasC(s, i) && C(s, i).state != Connected
    ensures ClientProcess(s, C(s, i).fd, READABLE, io, conn) == ClientRecv(s, i, io, conn)
    ensures ClientProcess(s, C(s, i).fd, WRITABLE, io, conn) == ClientSend(s, i, io)
  {
    hide Inv, ClientRecv, ClientSend;
    OneFd(s);
    var k := FindClient(s.clients, C(s, i).fd);
    assert HasC(s, k) && k == i;
  }

  ghost predicate NoneDead(s: State) { forall j: nat | HasR(s, j) :: R(s, j).state != RDead }

  /** With nothing to reap, the scan leaves the state alone and finds the one connection it is for. */
  lemma {:induction false} NothingReaped(s: State, k: nat, j: nat, found: Option<nat>)
    requires NoneDead(s) && HasR(s, j) && k <= |s.remotes| && found == (if j < k then Some(j) else None)
    requires forall n: nat | HasR(s, n) && R(s, n).fd == R(s, j).fd :: n == j
    ensures Reap(s, k, R(s, j).fd, false, found) == (s, Some(j))
    decreases |s.remotes| - k
  {
    if k < |s.remotes| {
      assert s.remotes[k].Full? ==> HasR(s, k);
      NothingReaped(s, k + 1, j, if j < k + 1 then Some(j) else None);
    }
  }

  lemma RemoteInput(s: State, j: nat, io: Io)
    requires Inv(s) && NoneDead(s) && HasR(s, j) && R(s, j).state != RConnected
    ensures RemoteProcess(s, R(s, j).fd, READABLE, io) == RemoteRecv(s, j, io)
    ensures RemoteProcess(s, R(s, j).fd, WRITABLE, io) == RemoteSend(s, j, io).0
  {
    RemoteFacts(s, j);
    hide Inv, RemoteRecv, RemoteSend, Reap, RemoteStreams, RemoteBuffers, ClientOk, PairOk, Lossless;
    OneFd(s);
    NothingReaped(s, 0, j, None);
  }

  // ---- whole packets

  /** A packet without payload arrives in one read. */
  lemma InOneRead(p: Packet, capacity: nat)
    requires WellSized(p) && p.payload == [] && HEADER <= capacity
    ensures Receive([], capacity, Read(Frame(p))) == Ready(Frame(p), p)
  {
    UnframeFrame(p, []);
    hide Frame, Unframe, DecodeWord;
    assert Frame(p) + [] == Frame(p) && [] + Frame(p) == Frame(p);
  }

  /** A packet cut after its header is completed by the second read. */
  lemma InTwoReads(p: Packet, capacity: nat)
    requires WellSized(p) && HEADER + |p.payload| <= capacity && p.payload != []
    ensures Receive([], capacity, Read(Frame(p)[..HEADER])) == More(Frame(p)[..HEADER])
    ensures Receive(Frame(p)[..HEADER], capacity, Read(p.payload)) == Ready(p.payload, p)
  {
    var f, h := Frame(p), Frame(p)[..HEADER];
    UnframeFrame(p, []);
    assert f + [] == f && [] + h == h && h + p.payload == f;
    assert h[..4] == f[..4] && DecodeWord(h) == DecodeWord(f);
    hide Frame, Unframe, DecodeWord;
  }

  /** The state in which the packet of client i is handled. */
  function Holding(s: State, i: nat, p: Packet): State
    requires HasC(s, i)
  {
    SetC(s, i, Got(C(s, i), Frame(p)).(held := true))
  }

  /** What handling that packet leaves. */
  function Handled(s: State, i: nat, p: Packet, conn: Option<int>): State
    requires HasC(s, i)
  {
    var (t, ret) := ClientCommand(Holding(s, i, p), i, p, conn);
    Finish(t, i, ret, p)
  }

  /** A client in the command state with nothing in its input buffer. */
  predicate AtRest(s: State, i: nat) { HasC(s, i) && C(s, i).state == Command && C(s, i).ib == [] && !C(s, i).held }

  predicate FitsClient(p: Packet) { WellSized(p) && HEADER + |p.payload| <= CLIENT_IB }

  /** All of the packet but the last read has arrived. */
  lemma Arriving(s: State, i: nat, p: Packet, conn: Option<int>) returns (g: State, io: Io)
    requires Idle(s) && AtRest(s, i) && FitsClient(p)
    ensures Idle(g) && HasC(g, i) && C(g, i).state == Command && C(g, i).events.pin && C(g, i).remote == C(s, i).remote
    ensures g.wire == s.wire && g.remotes == s.remotes && g.devices == s.devices && g.fds == s.fds
    ensures var r := Receive(C(g, i).ib, CLIENT_IB, io); r.Ready? && r.packet == p
    ensures ClientRecv(g, i, io, conn) == Handled(s, i, p, conn)
  {
    hide Inv, Reachable, Receive, Frame, ClientCommand, Idle, ClientProcess, CommandRule;
    IdleFacts(s);
    InputArmed(s, i);
    var c := C(s, i);
    if p.payload == [] {
      InOneRead(p, CLIENT_IB);
      g, io := s, Read(Frame(p));
    } else {
      InTwoReads(p, CLIENT_IB);
      var h := Frame(p)[..HEADER];
      assert ReceiveRule(s, i, Read(h), None);
      ClientRound(s, i, READABLE, Read(h), None);
      ClientInput(s, i, Read(h), None);
      assert !c.ibFreed;
      g, io := SetC(s, i, Got(c, h)), Read(p.payload);
      assert Got(c, h).ib == h;
      FrameSplit(p);
      GotTwice(c, h, p.payload, Frame(p));
      assert s.clients[i := Full(Got(c, h))][i := Full(Got(c, Frame(p)).(held := true))]
             == s.clients[i := Full(Got(c, Frame(p)).(held := true))];
    }
  }

  lemma GotTwice(c: Client, a: seq<byte>, b: seq<byte>, ab: seq<byte>)
    requires ab == a + b
    ensures Got(Got(c, a), b) == Got(c, ab)
  {
    assert (c.ib + a) + b == c.ib + ab && (c.rx + a) + b == c.rx + ab;
  }

  lemma InputArmed(s: State, i: nat)
    requires Inv(s) && HasC(s, i) && !Handed(C(s, i))
    ensures C(s, i).events.pin && !C(s, i).ibFreed && !C(s, i).obFreed && |C(s, i).ob| <= C(s, i).obCap
  {
    hide Inv, ClientStreams, ClientNotes, ClientRequest, RemoteOk, PairOk;
    ClientFacts(s, i);
  }

  /** With the packet whole in the buffer, the invariant holds. */
  lemma HoldingOk(s: State, i: nat, p: Packet)
    requires Inv(s) && AtRest(s, i) && FitsClient(p)
    ensures Inv(Holding(s, i, p)) && InBuffer(C(Holding(s, i, p), i), p)
  {
    hide Inv, RemoteOk, PairOk, ClientOk, Frame;
    ClientFacts(s, i);
    assert [] + Frame(p) == Frame(p);
    HeldWhole(s.wire, C(s, i), p);
    HeldKeeps(s, i, Got(C(s, i), Frame(p)).(held := true));
  }

  lemma HeldWhole(w: Codec, c: Client, p: Packet)
    requires ClientOk(w, c) && c.state == Command && c.ib == [] && !c.held && FitsClient(p)
    ensures ClientOk(w, Got(c, Frame(p)).(held := true))
  {
    WholeFrame(p);
    hide Frame, Frames, ResultPacket, ReadNotes, DeviceTable.ProjectNotes, ConnectRequest, DecodeWord;
    assert [] + Frame(p) == Frame(p) && Frames(c.commands) + [] == Frames(c.commands);
  }

  /** A client sends a packet, whether or not the rules allow it; all but its last read has happened before. */
  lemma ClientSendsLast(s: State, i: nat, p: Packet, conn: Option<int>) returns (l: Loop, e: Event)
    requires Idle(s) && AtRest(s, i) && FitsClient(p)
    ensures Reachable(l) && l.s.wire == s.wire && Next(l, e).s == Handled(s, i, p, conn)
  {
    hide Inv, Reachable, Receive, Handled, Idle, ClientProcess, CommandRule, ClientRecv, Next, Allowed;
    var g, io := Arriving(s, i, p, conn);
    IdleFacts(g);
    l, e := ClientTurn(g, i, READABLE, io, conn);
    ClientInput(g, i, io, conn);
  }

  lemma ClientSends(s: State, i: nat, p: Packet, conn: Option<int>)
    requires Idle(s) && AtRest(s, i) && FitsClient(p) && CommandRule(s, i, p, conn)
    ensures Idle(Handled(s, i, p, conn))
  {
    hide Inv, Reachable, Receive, Handled, Idle, ClientProcess, MessageRule, ClientRecv;
    var g, io := Arriving(s, i, p, conn);
    IdleFacts(g);
    if MessageIn(s.wire, p).Some? {
      SameRule(s, g, i, MessageIn(s.wire, p).value, conn);
    }
    assert CommandRule(g, i, p, conn);
    ClientRound(g, i, READABLE, io, conn);
    ClientInput(g, i, io, conn);
  }

  /** The state in which a packet of upstream j is dispatched. */
  function Reading(s: State, j: nat, p: Packet): State
    requires HasR(s, j)
  {
    SetR(s, j, RemoteGot(R(s, j), Frame(p)))
  }

  /** What dispatching it leaves. */
  function Dispatched(s: State, j: nat, p: Packet): State
    requires HasR(s, j)
  {
    var t := HandleResult(Reading(s, j, p), j, p);
    if HasR(t, j) then SetR(t, j, Consumed(R(t, j), p)) else Fault(t)
  }

  /** An upstream that takes part in the packet protocol and has nothing in its input buffer. */
  predicate Quiet(s: State, j: nat) {
    && HasR(s, j) && R(s, j).ib == [] && R(s, j).events.pin
    && R(s, j).state in {RCommand, RListen, RConnecting1}
  }

  predicate FitsUpstream(p: Packet) { WellSized(p) && HEADER + |p.payload| <= REMOTE_IB }

  /** All of the packet but the last read has arrived. */
  lemma UpstreamArriving(s: State, j: nat, p: Packet) returns (g: State, io: Io)
    requires Idle(s) && NoneDead(s) && Quiet(s, j) && FitsUpstream(p)
    ensures Idle(g) && HasR(g, j) && R(g, j).events.pin && g == s.(remotes := g.remotes)
    ensures R(g, j).state == R(s, j).state && R(g, j).id == R(s, j).id
    ensures forall k: nat | HasR(s, k) && k != j :: HasR(g, k) && R(g, k) == R(s, k)
    ensures var r := Receive(R(g, j).ib, REMOTE_IB, io); r.Ready? && r.packet == p
    ensures RemoteProcess(g, R(g, j).fd, READABLE, io) == Dispatched(s, j, p)
    ensures AnswerRule(s.wire, R(s, j), p) ==> AnswersRule(g.wire, R(g, j), io)
  {
    hide Inv, Reachable, Receive, Frame, HandleResult, Idle, RemoteProcess, Consumed, NeedsDevice, ResultOf;
    IdleFacts(s);
    var r := R(s, j);
    if p.payload == [] {
      InOneRead(p, REMOTE_IB);
      g, io := s, Read(Frame(p));
      LastRead(s, j, io, p);
    } else {
      InTwoReads(p, REMOTE_IB);
      var h := Frame(p)[..HEADER];
      RemoteRound(s, j, READABLE, Read(h));
      RemoteInput(s, j, Read(h));
      g, io := SetR(s, j, RemoteGot(r, h)), Read(p.payload);
      assert forall k: nat {:trigger HasR(g, k)} {:trigger HasR(s, k)} :: HasR(g, k) == HasR(s, k);
      assert NoneDead(g);
      assert RemoteGot(r, h).ib == h;
      IdleFacts(g);
      LastRead(g, j, io, p);
      FrameSplit(p);
      ReadTwice(r, h, p.payload, Frame(p));
      assert s.remotes[j := Full(RemoteGot(r, h))][j := Full(RemoteGot(r, Frame(p)))]
             == s.remotes[j := Full(RemoteGot(r, Frame(p)))];
    }
  }

  lemma UpstreamSends(s: State, j: nat, p: Packet)
    requires Idle(s) && NoneDead(s) && Quiet(s, j) && FitsUpstream(p) && AnswerRule(s.wire, R(s, j), p)
    ensures Idle(Dispatched(s, j, p))
  {
    hide Reachable, Dispatched, Idle, RemoteProcess, AnswerRule, AnswersRule;
    var g, io := UpstreamArriving(s, j, p);
    RemoteRound(g, j, READABLE, io);
  }

  /** An upstream sends a packet, whether or not the rules allow it; all but its last read has happened before. */
  lemma UpstreamSendsLast(s: State, j: nat, p: Packet) returns (l: Loop, e: Event)
    requires Idle(s) && NoneDead(s) && Quiet(s, j) && FitsUpstream(p)
    ensures Reachable(l) && l.s.wire == s.wire && Next(l, e).s == Dispatched(s, j, p)
  {
    hide Reachable, Dispatched, Idle, RemoteProcess, AnswerRule, AnswersRule, Next, Allowed;
    var g, io := UpstreamArriving(s, j, p);
    l, e := RemoteTurn(g, j, READABLE, io);
  }

  lemma ReadTwice(r: Remote, a: seq<byte>, b: seq<byte>, ab: seq<byte>)
    requires ab == a + b
    ensures RemoteGot(RemoteGot(r, a), b) == RemoteGot(r, ab)
  {
    assert (r.ib + a) + b == r.ib + ab && (r.rx + a) + b == r.rx + ab;
  }

  lemma LastRead(s: State, j: nat, io: Io, p: Packet)
    requires Inv(s) && NoneDead(s) && HasR(s, j) && R(s, j).state in {RCommand, RListen, RConnecting1}
    requires var r := Receive(R(s, j).ib, REMOTE_IB, io); r.Ready? && r.packet == p
    ensures var t := HandleResult(SetR(s, j, RemoteGot(R(s, j), Receive(R(s, j).ib, REMOTE_IB, io).data)), j, p);
            RemoteProcess(s, R(s, j).fd, READABLE, io) == if HasR(t, j) then SetR(t, j, Consumed(R(t, j), p)) else Fault(t)
  {
    hide Inv, HandleResult, Receive, RemoteProcess, Consumed;
    RemoteInput(s, j, io);
  }

  /** An upstream takes all that is queued for it. */
  lemma UpstreamReads(s: State, j: nat)
    requires Idle(s) && NoneDead(s) && HasR(s, j) && R(s, j).ob != [] && R(s, j).state != RConnected
    ensures Idle(SetR(s, j, RemoteSent(R(s, j), |R(s, j).ob|)))
  {
    hide Inv, Reachable, Idle, RemoteProcess, RemoteSent;
    IdleFacts(s);
    OutputArmed(s, j);
    RemoteRound(s, j, WRITABLE, Wrote(|R(s, j).ob|));
    RemoteInput(s, j, Wrote(|R(s, j).ob|));
  }

  lemma OutputArmed(s: State, j: nat)
    requires Inv(s) && HasR(s, j) && R(s, j).ob != []
    ensures R(s, j).events.pout
  {
    hide Inv, RemoteStreams, RemoteStates, ClientOk, PairOk;
    RemoteFacts(s, j);
  }

  /** The client takes all that is queued for it. */
  lemma ClientReads(s: State, i: nat)
    requires Idle(s) && HasC(s, i) && C(s, i).ob != [] && C(s, i).state != Connected
    requires C(s, i).state == Connecting2 ==> C(s, i).remote.Some? && HasR(s, C(s, i).remote.value)
    ensures Idle(SetC(s, i, Sent(C(s, i), |C(s, i).ob|)))
  {
    hide Inv, Reachable, Idle, ClientProcess, Sent;
    IdleFacts(s);
    ResultArmed(s, i);
    ClientRound(s, i, WRITABLE, Wrote(|C(s, i).ob|), None);
    ClientInput(s, i, Wrote(|C(s, i).ob|), None);
  }

  lemma ResultArmed(s: State, i: nat)
    requires Inv(s) && HasC(s, i) && C(s, i).ob != []
    ensures !C(s, i).obFreed && C(s, i).events.pout
  {
    hide Inv, ClientStreams, ClientNotes, ClientRequest, RemoteOk, PairOk;
    ClientFacts(s, i);
  }
}
