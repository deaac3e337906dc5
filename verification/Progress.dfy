/**
 What each event moves: the bytes a socket call reads or writes, the masks that turn, the states
 that change; and what an upstream's answer means for the client that waits for it.
 */
module Progress {
  import opened Base
  import opened Wire
  import opened DeviceTable
  import opened Protocol
  import opened Reading
  import opened Connections
  import opened Collections
  import opened Multiplexer
  import opened Invariant
  import opened Steps
  import opened Upkeep
  import opened Teardown
  import opened Reaping
  import opened RemoteEvents
  import opened Theorems
  import opened Rounds
  import opened EventLoop
  import opened Answers
  import opened Services

  // ---- who goes, and who alone changes

  /** The client is gone, and with it the upstream made for it, if any, and nothing else; their descriptors are closed. */
  ghost predicate PairGone(s: State, t: State, i: nat)
    requires HasC(s, i)
  {
    match C(s, i).remote
    case None => t == s.(clients := s.clients[i := Empty], fds := s.fds[C(s, i).fd := Closed])
    case Some(j) =>
      && HasR(s, j) && C(s, i).fd != R(s, j).fd
      && t == s.(clients := s.clients[i := Empty], remotes := s.remotes[j := Empty],
                 fds := s.fds[C(s, i).fd := Closed][R(s, j).fd := Closed])
  }

  lemma CloseGoes(s: State, i: nat)
    requires Inv(s) && HasC(s, i)
    ensures PairGone(s, ClientClose(s, i), i)
  {
    hide Inv, ClientClose;
    ClientCloseIs(s, i);
    InvParts(s);
    hide FdsOk, ClientsOk, RemotesOk, ListenersOk, TableOk;
    FdsWithout(s, Some(i), C(s, i).remote);
  }

  /** Only the client of slot i changes, into d. */
  ghost predicate Becomes(s: State, t: State, i: nat, d: Client) {
    HasC(s, i) && t == s.(clients := s.clients[i := Full(d)])
  }

  /** Only the upstream of slot j changes, into q. */
  ghost predicate TurnsInto(s: State, t: State, j: nat, q: Remote) {
    HasR(s, j) && t == s.(remotes := s.remotes[j := Full(q)])
  }

  ghost predicate BothBecome(s: State, t: State, i: nat, d: Client, j: nat, q: Remote) {
    HasC(s, i) && HasR(s, j) && t == s.(clients := s.clients[i := Full(d)], remotes := s.remotes[j := Full(q)])
  }

  // ---- a client in the packet protocol

  lemma ClientFound(s: State, i: nat, ev: Revents, io: Io, conn: Option<int>)
    requires Inv(s) && HasC(s, i)
    ensures ClientProcess(s, C(s, i).fd, ev, io, conn) ==
            if C(s, i).state == Connected then RelayClient(s, i, ev, io)
            else if ev.pin then ClientRecv(s, i, io, conn)
            else if ev.pout then ClientSend(s, i, io) else s
  {
    hide Inv, ClientRecv, ClientSend, RelayClient;
    OneFd(s);
    var k := FindClient(s.clients, C(s, i).fd);
    assert HasC(s, k) && k == i;
  }

  /**
   Input of a client: what is read joins its buffer; end of file, an error or a bad length closes it. A
   packet that is whole is handled, and leaves the buffer exactly if its handler returns 0.
   */
  lemma ClientInputMoves(s: State, i: nat, ev: Revents, io: Io, conn: Option<int>)
    requires Inv(s) && HasC(s, i) && !Handed(C(s, i)) && ev.pin
    ensures var c, t := C(s, i), ClientProcess(s, C(s, i).fd, ev, io, conn);
            match Receive(c.ib, 0x1_0000, io)
            case Gone => PairGone(s, t, i)
            case BadLength(_) => PairGone(s, t, i)
            case More(data) => Becomes(s, t, i, c.(ib := c.ib + data, rx := c.rx + data))
            case Ready(data, p) =>
              var h := s.(clients := s.clients[i := Full(c.(ib := c.ib + data, rx := c.rx + data, held := true))]);
              var (u, ret) := ClientCommand(h, i, p, conn);
              if ret != 0 then t == u
              else if HasC(u, i) then Becomes(u, t, i, C(u, i).(ib := [], commands := C(u, i).commands + [p], held := false))
              else t.fault
  {
    hide Inv, Receive, ClientCommand, ClientClose, PairGone, RelayClient, ClientSend, ClientProcess;
    ClientFound(s, i, ev, io, conn);
    InputArmed(s, i);
    CloseGoes(s, i);
  }

  /** Output of a client: what is accepted leaves the buffer; with the last byte of its Result it becomes a tunnel. */
  lemma ClientOutputMoves(s: State, i: nat, ev: Revents, io: Io, conn: Option<int>)
    requires Inv(s) && HasC(s, i) && C(s, i).state != Connected && !ev.pin && ev.pout
    ensures var c, t := C(s, i), ClientProcess(s, C(s, i).fd, ev, io, conn);
            var n := Accepted(io, |C(s, i).ob|);
            if c.ob == [] then Becomes(s, t, i, c.(events := Mask(c.events.pin, false)))
            else if n == 0 then PairGone(s, t, i)
            else
              var d := c.(ob := c.ob[n..], tx := c.tx + c.ob[..n]);
              Becomes(s, t, i,
                      if n < |c.ob| then d
                      else if c.state != Connecting2 then d.(events := Mask(c.events.pin, false))
                      else d.(state := Connected, events := Mask(true, c.devents.pout), obFreed := true))
  {
    hide Inv, ClientClose, PairGone, RelayClient, ClientRecv, ClientProcess;
    ClientFound(s, i, ev, io, conn);
    CloseGoes(s, i);
    OutputReady(s, i);
  }

  lemma OutputReady(s: State, i: nat)
    requires Inv(s) && HasC(s, i) && C(s, i).state != Connected
    ensures !C(s, i).obFreed
    ensures C(s, i).state == Connecting2 ==> C(s, i).remote.Some? && HasR(s, C(s, i).remote.value)
  {
    hide Inv, ClientStreams, ClientNotes, ClientRequest, RemoteOk, PairOk;
    ClientFacts(s, i);
  }

  // ---- a client that is a tunnel

  /**
   Input of a connected client goes into its upstream's output buffer as far as there is room; the
   client is not polled for more until that has gone out. End of file or an error closes the pair.
   */
  lemma TunnelInputMoves(s: State, i: nat, ev: Revents, io: Io, conn: Option<int>)
    requires Inv(s) && HasC(s, i) && C(s, i).state == Connected && ev.pin
    ensures C(s, i).remote.Some? && HasR(s, C(s, i).remote.value)
    ensures var c, j, t := C(s, i), C(s, i).remote.value, ClientProcess(s, C(s, i).fd, ev, io, conn);
            var r := R(s, j);
            var data := if |r.ob| >= r.obCap then [] else Taken(io, r.obCap - |r.ob|);
            if |r.ob| >= r.obCap then t == s
            else if data == [] then PairGone(s, t, i)
            else BothBecome(s, t, i, c.(rx := c.rx + data, up := c.up + data, events := Mask(false, c.events.pout)),
                            j, r.(ob := r.ob + data, up := r.up + data, events := Mask(r.events.pin, true)))
  {
    hide Inv, ClientClose, PairGone, ClientRecv, ClientSend, ClientProcess;
    ClientFound(s, i, ev, io, conn);
    CloseGoes(s, i);
    TunnelEnd(s, i);
  }

  lemma TunnelEnd(s: State, i: nat)
    requires Inv(s) && HasC(s, i) && C(s, i).state == Connected
    ensures C(s, i).remote.Some? && HasR(s, C(s, i).remote.value) && R(s, C(s, i).remote.value).client == Some(i)
  {
    hide Inv, ClientOk, RemoteOk, PairOk;
    ClientFacts(s, i);
  }

  /** Its output comes from the upstream's input buffer; when that is empty, the client is polled for input alone. */
  lemma TunnelOutputMoves(s: State, i: nat, ev: Revents, io: Io, conn: Option<int>)
    requires Inv(s) && HasC(s, i) && C(s, i).state == Connected && !ev.pin && ev.pout
    ensures C(s, i).remote.Some? && HasR(s, C(s, i).remote.value)
    ensures var c, j, t := C(s, i), C(s, i).remote.value, ClientProcess(s, C(s, i).fd, ev, io, conn);
            var r := R(s, j);
            var n := Accepted(io, |r.ib|);
            if r.ib == [] then t == s
            else if n == 0 then PairGone(s, t, i)
            else BothBecome(s, t, i, c.(tx := c.tx + r.ib[..n], down := c.down + r.ib[..n],
                                        events := if n == |r.ib| then Mask(true, false) else c.events),
                            j, r.(ib := r.ib[n..], down := r.down + r.ib[..n]))
  {
    hide Inv, ClientClose, PairGone, ClientRecv, ClientSend, ClientProcess;
    ClientFound(s, i, ev, io, conn);
    CloseGoes(s, i);
    TunnelEnd(s, i);
  }

  /** An event that allows neither input nor output does nothing to a client. */
  lemma ClientLeftAlone(s: State, i: nat, ev: Revents, io: Io, conn: Option<int>)
    requires Inv(s) && HasC(s, i) && !ev.pin && !ev.pout
    ensures ClientProcess(s, C(s, i).fd, ev, io, conn) == s
  {
    hide Inv, ClientProcess, ClientRecv, ClientSend;
    ClientFound(s, i, ev, io, conn);
  }

  // ---- an upstream

  /** The handler an event of a live upstream reaches, once the dead have been reaped; it finds the upstream as it was. */
  lemma UpstreamFound(s: State, j: nat, ev: Revents, io: Io)
    requires Inv(s) && HasR(s, j) && R(s, j).state != RDead && ev != Revents(false, false, false, true)
    ensures var u := Reap(s, 0, R(s, j).fd, false, None).0;
            && Inv(u) && u.wire == s.wire && HasR(u, j) && R(u, j) == R(s, j) && NoneDead(u)
            && RemoteProcess(s, R(s, j).fd, ev, io) ==
               if R(u, j).state == RConnected then RelayRemote(u, j, ev, io)
               else if ev.pin then RemoteRecv(u, j, io)
               else if ev.pout then RemoteSend(u, j, io).0 else u
  {
    hide Inv, Reap, RemoteRecv, RelayRemote, RemoteSend, Calm;
    var fd := R(s, j).fd;
    var (u, found) := Reap(s, 0, fd, false, None);
    ReapIs(s, 0, fd, false, None);
    ReapWire(s, 0, fd, false, None);
    OneFd(s);
    assert Addressed(u.remotes[j], fd, false);
    if found.Some? {
      assert HasR(s, found.value);
    }
    NotConnecting2(u, j);
  }

  lemma NotConnecting2(s: State, j: nat)
    requires Inv(s) && HasR(s, j)
    ensures R(s, j).state != RConnecting2
  {
    hide Inv, ClientOk, RemoteStreams, RemoteBuffers, PairOk;
    RemoteFacts(s, j);
  }

  /** The client of a connected upstream is the other end of the tunnel. */
  lemma FarEnd(s: State, j: nat)
    requires Inv(s) && HasR(s, j) && R(s, j).state == RConnected
    ensures R(s, j).client.Some? && HasC(s, R(s, j).client.value) && C(s, R(s, j).client.value).remote == Some(j)
  {
    hide Inv, ClientOk, RemoteStreams, RemoteBuffers, PairOk;
    RemoteFacts(s, j);
  }

  /** Input of a connected upstream joins its buffer as far as there is room, and its client is asked for output. */
  lemma RawInputMoves(s: State, j: nat, ev: Revents, io: Io)
    requires Inv(s) && HasR(s, j) && R(s, j).state == RConnected && ev.pin
    ensures R(s, j).client.Some? && HasC(s, R(s, j).client.value)
    ensures var r, i, t := R(s, j), R(s, j).client.value, RelayRemote(s, j, ev, io);
            var c := C(s, i);
            var data := if |r.ib| >= 0x8_0000 then [] else Taken(io, 0x8_0000 - |r.ib|);
            if |r.ib| >= 0x8_0000 then t == s
            else if !io.Read? then PairGone(s, t, i)
            else if data == [] then TurnsInto(s, t, j, r.(events := Mask(false, r.events.pout)))
            else BothBecome(s, t, i, MorePout(c), j, r.(ib := r.ib + data, rx := r.rx + data, raw := r.raw + data))
  {
    hide Inv, ClientClose, PairGone, RemoteSend;
    FarEnd(s, j);
    CloseGoes(s, R(s, j).client.value);
  }

  /** A client that is, or waits to be, a tunnel is asked for output from now on, or from then on. */
  function MorePout(c: Client): Client {
    if c.state == Connected then c.(devents := Mask(c.devents.pin, true), events := Mask(c.events.pin, true))
    else if c.state == Connecting2 then c.(devents := Mask(c.devents.pin, true))
    else c
  }

  function MorePin(c: Client): Client {
    if c.state == Connected then c.(devents := Mask(true, c.devents.pout), events := Mask(true, c.events.pout))
    else if c.state == Connecting2 then c.(devents := Mask(true, c.devents.pout))
    else c
  }

  /** Its output is what the client has sent; what is accepted leaves the buffer, and the client is asked for input again. */
  lemma RawOutputMoves(s: State, j: nat, ev: Revents, io: Io)
    requires Inv(s) && HasR(s, j) && R(s, j).state == RConnected && !ev.pin && ev.pout
    ensures R(s, j).client.Some? && HasC(s, R(s, j).client.value)
    ensures var r, i, t := R(s, j), R(s, j).client.value, RelayRemote(s, j, ev, io);
            var c, n := C(s, i), Accepted(io, |r.ob|);
            if r.ob != [] && n == 0 then PairGone(s, t, i)
            else BothBecome(s, t, i, MorePin(c), j,
                            r.(ob := r.ob[n..], tx := r.tx + r.ob[..n],
                               events := if n == |r.ob| then Mask(r.events.pin, false) else r.events))
  {
    hide Inv, ClientClose, PairGone;
    FarEnd(s, j);
    CloseGoes(s, R(s, j).client.value);
    var r := R(s, j);
    if r.ob == [] {
      assert r.ob[0..] == r.ob && r.tx + r.ob[..0] == r.tx;
    }
  }

  /** An event with neither, such as a hang-up, closes the pair. */
  lemma HangUpCloses(s: State, j: nat, ev: Revents, io: Io)
    requires Inv(s) && HasR(s, j) && R(s, j).state == RConnected && !ev.pin && !ev.pout
    ensures R(s, j).client.Some? && HasC(s, R(s, j).client.value)
    ensures PairGone(s, RelayRemote(s, j, ev, io), R(s, j).client.value)
  {
    hide Inv, ClientClose, PairGone, RemoteSend;
    FarEnd(s, j);
    CloseGoes(s, R(s, j).client.value);
  }

  /** Output of an upstream in the packet protocol; a send that takes nothing closes it, with its client if it has one. */
  lemma UpstreamOutputMoves(s: State, j: nat, io: Io)
    requires Inv(s) && HasR(s, j) && R(s, j).state != RConnected
    ensures var r, t := R(s, j), RemoteSend(s, j, io).0;
            var n := Accepted(io, |r.ob|);
            if r.ob != [] && n == 0 then
              match r.client
              case Some(i) => HasC(s, i) && C(s, i).remote == Some(j) && PairGone(s, t, i)
              case None => t == s.(remotes := s.remotes[j := Empty], fds := s.fds[r.fd := Closed])
            else TurnsInto(s, t, j, r.(ob := r.ob[n..], tx := r.tx + r.ob[..n],
                                       events := if n == |r.ob| then Mask(r.events.pin, false) else r.events))
  {
    hide Inv, ClientClose, PairGone;
    RemoteMatched(s, j);
    NotConnecting2(s, j);
    var r := R(s, j);
    if r.client.Some? {
      CloseGoes(s, r.client.value);
    } else {
      OpenFd(s, j);
    }
    if r.ob == [] {
      assert r.ob[0..] == r.ob && r.tx + r.ob[..0] == r.tx;
    }
  }

  lemma OpenFd(s: State, j: nat)
    requires Inv(s) && HasR(s, j)
    ensures R(s, j).fd in s.fds && s.fds[R(s, j).fd] == OpenRemote(j)
  {
    hide ClientsOk, RemotesOk, ListenersOk, TableOk;
  }

  /** Input of an upstream in the packet protocol, short of a whole packet: what ends or breaks the stream is its death. */
  lemma UpstreamInputMoves(s: State, j: nat, io: Io)
    requires Inv(s) && HasR(s, j) && R(s, j).state != RConnected && R(s, j).state != RDead
    ensures var r, t := R(s, j), RemoteRecv(s, j, io);
            match Receive(r.ib, 0x8_0000, io)
            case Gone => Died(s, t, j)
            case BadLength(_) => Died(s, t, j)
            case More(data) => TurnsInto(s, t, j, r.(ib := r.ib + data, rx := r.rx + data))
            case Ready(_, _) => true
  {
    hide Inv, Receive, MarkDead, HandleResult, Died;
    match Receive(R(s, j).ib, REMOTE_IB, io)
    case Gone => MarkedDied(s, j);
    case BadLength(data) => BadDied(s, j, io);
    case More(_) =>
    case Ready(_, _) =>
  }

  lemma BadDied(s: State, j: nat, io: Io)
    requires Inv(s) && HasR(s, j) && R(s, j).state != RConnected && R(s, j).state != RDead
    requires Receive(R(s, j).ib, REMOTE_IB, io).BadLength?
    ensures Died(s, RemoteRecv(s, j, io), j)
  {
    hide Inv, Calm, MarkDead, Receive, RemoteOk, ClientOk, PairOk, Lossless, RemoteRecv;
    var r := R(s, j);
    var data := Receive(r.ib, REMOTE_IB, io).data;
    RemoteFacts(s, j);
    NotRaw(s.wire, r);
    var q := RemoteGot(r, data);
    RemoteBadOk(s.wire, r, io);
    GotPair(r, data);
    SetRemote(s, j, q.(state := RDead));
    MarkDeadForgets(s, j, q);
    var u := SetR(s, j, q.(state := RDead));
    MarkedDied(u, j);
    BadIs(s, j, io);
    assert forall k: nat {:trigger HasR(u, k)} {:trigger HasR(s, k)} :: HasR(u, k) == HasR(s, k);
    assert q.id == r.id;
    assert forall k: nat :: Alive(u, k) <==> Alive(s, k) && k != j;
  }

  /** A new client is in the command state, speaks version 0, is polled for input alone, and has nothing queued or read. */
  lemma ClientAccepted(s: State, fd: int, mask: Mask, ev: Revents, io: Io)
    requires fd !in s.fds && !NoEvents(ev)
    ensures var t := DispatchEntry(s, PollEntry(Acceptor, -1, mask), ev, io, Some(fd));
            exists i: nat :: Joined(s, t, i, fd)
  {
    hide AddSlot, FirstEmpty;
    var t := AddClient(s, NewClient(fd));
    AddedClient(s, t, NewClient(fd));
    assert Joined(s, t, FirstEmpty(s.clients), fd);
    assert DispatchEntry(s, PollEntry(Acceptor, -1, mask), ev, io, Some(fd)) == t;
  }

  /** The client of slot i is new, and all else is as before. */
  ghost predicate Joined(s: State, t: State, i: nat, fd: int) {
    && t == s.(clients := t.clients, fds := s.fds[fd := OpenClient(i)])
    && !HasC(s, i) && HasC(t, i)
    && (forall k: nat {:trigger HasC(t, k)} {:trigger HasC(s, k)} :: HasC(t, k) <==> HasC(s, k) || k == i)
    && (forall k: nat | HasC(s, k) :: C(t, k) == C(s, k))
    && var c := C(t, i);
       && c.fd == fd && c.state == Command && c.version == 0 && c.remote == None && c.events == Mask(true, false)
       && c.devents == Mask(false, false) && c.ob == [] && c.ib == [] && !c.obFreed && !c.ibFreed && !c.held
       && c.tx == [] && c.rx == [] && c.out == [] && c.commands == [] && c.up == [] && c.down == [] && c.dropped == []
  }

  // ---- answers of an upstream

  /**
   Listen is accepted by a Result of 0, binary or property list, in a version the daemon knows, and by
   nothing else. Any other packet that answers nothing is dropped, and whatever was pending is forgotten.
   */
  lemma QuietPacket(s: State, j: nat, io: Io)
    requires Inv(s) && HasR(s, j) && R(s, j).state in {RCommand, RConnecting1} && Receive(R(s, j).ib, REMOTE_IB, io).Ready?
    requires var p := Receive(R(s, j).ib, REMOTE_IB, io).packet;
             (p.version != 0 && p.version != 1) || (R(s, j).state == RCommand && R(s, j).last != Forwarded)
    ensures var r, rc, t := R(s, j), Receive(R(s, j).ib, REMOTE_IB, io), RemoteRecv(s, j, io);
            var known := rc.packet.version == 0 || rc.packet.version == 1;
            var accepted := r.last == ListenCmd && known && Agrees(s.wire, rc.packet);
            TurnsInto(s, t, j, r.(rx := r.rx + rc.data, ib := [], packets := r.packets + [rc.packet], last := NoCommand,
                                  state := if accepted then RListen else r.state))
  {
    hide Inv, Receive, RemoteRecv, Agrees, ResultOf;
    var rc := Receive(R(s, j).ib, REMOTE_IB, io);
    AgreesReads(s.wire, rc.packet);
    QuietIs(s, j, io, rc.data, rc.packet);
  }

  /** An upstream that is a tunnel from now on, polled for input and output. */
  function Tunnel(r: Remote): Remote { r.(state := RConnected, events := Mask(true, true), rawMode := true) }

  /** An answer to Connect whose client no longer waits for it changes the upstream alone. */
  lemma StrayAnswer(s: State, j: nat, i: nat, io: Io)
    requires Inv(s) && HasR(s, j) && R(s, j).state == RConnecting1 && R(s, j).client == Some(i)
    requires HasC(s, i) && C(s, i).state != Connecting1 && Receive(R(s, j).ib, REMOTE_IB, io).Ready?
    requires var p := Receive(R(s, j).ib, REMOTE_IB, io).packet; p.version == 0 || p.version == 1
    ensures var r, rc, t := R(s, j), Receive(R(s, j).ib, REMOTE_IB, io), RemoteRecv(s, j, io);
            var q := r.(rx := r.rx + rc.data, ib := [], packets := r.packets + [rc.packet], last := NoCommand);
            TurnsInto(s, t, j, if Agrees(s.wire, rc.packet) then Tunnel(q) else q)
  {
    hide Inv, Receive, RemoteRecv, ResultOf, ClientMasks, ClientStreams, ClientNotes, ClientRequest, RemoteStreams,
         RemoteBuffers, Agrees;
    RemoteFacts(s, j);
    var rc := Receive(R(s, j).ib, REMOTE_IB, io);
    AgreesReads(s.wire, rc.packet);
    PairAnswer(s, j, io, i, rc.packet, rc.data);
    assert s.clients[i := Full(C(s, i))] == s.clients;
  }

  /**
   The answer to a Connect: a Result of 0, binary or property list, makes the upstream a tunnel and lets
   the client become one when it has read its own Result, dropping what it has sent meanwhile; any
   other answer leaves the upstream and sends the client back to the command state. The client is sent
   a Result under the tag of its Connect, with the upstream's number, or a failure's if there is none.
   */
  lemma ConnectDecided(s: State, j: nat, i: nat, io: Io, number: nat)
    requires Inv(s) && HasR(s, j) && R(s, j).state == RConnecting1 && R(s, j).client == Some(i)
    requires HasC(s, i) && C(s, i).state == Connecting1 && Receive(R(s, j).ib, REMOTE_IB, io).Ready?
    requires var p := Receive(R(s, j).ib, REMOTE_IB, io).packet;
             && (p.version == 0 || p.version == 1)
             && (PlistResult(s.wire, p, number) || BinaryResult(p, number)
                 || (number == 0xbaad && forall n :: !PlistResult(s.wire, p, n) && !BinaryResult(p, n)))
    ensures var c, r, rc, t := C(s, i), R(s, j), Receive(R(s, j).ib, REMOTE_IB, io), RemoteRecv(s, j, io);
            var q := r.(rx := r.rx + rc.data, ib := [], packets := r.packets + [rc.packet], last := NoCommand);
            && HasC(t, i)
            && BothBecome(s, t, i, C(t, i), j,
                          if Agrees(s.wire, rc.packet) then Tunnel(q) else q)
            && AnswerQueued(s.wire, c, C(t, i), number % 0x1_0000_0000, Agrees(s.wire, rc.packet))
            && (Agrees(s.wire, rc.packet) <==> number % 0x1_0000_0000 == 0)
  {
    hide Inv, Receive, RemoteRecv, ResultOf, ClientMasks, ClientStreams, ClientNotes, ClientRequest, RemoteStreams,
         RemoteBuffers, PairOk, AnswerQueued, NotifyConnect, Agrees, PlistResult, BinaryResult;
    RemoteFacts(s, j);
    var rc := Receive(R(s, j).ib, REMOTE_IB, io);
    AgreesReads(s.wire, rc.packet);
    NumberReads(s.wire, rc.packet, number);
    PairAnswer(s, j, io, i, rc.packet, rc.data);
    NotifiedIs(s.wire, C(s, i), ResultOf(s.wire, rc.packet));
  }

  lemma NumberReads(w: Codec, p: Packet, number: nat)
    requires || PlistResult(w, p, number) || BinaryResult(p, number)
             || (number == 0xbaad && forall n :: !PlistResult(w, p, n) && !BinaryResult(p, n))
    ensures ResultOf(w, p) == number % 0x1_0000_0000
  {
    ResultReads(w, p, number);
    if !PlistResult(w, p, number) && !BinaryResult(p, number) {
      NoResultReads(w, p);
    }
  }

  /** The client is sent a Result of n under the tag of its Connect, and is or is not on its way to be a tunnel. */
  ghost predicate AnswerQueued(w: Codec, c: Client, d: Client, n: nat, moved: bool) {
    && d.out != [] && d.out[..|d.out| - 1] == c.out
    && SaysResult(w, c.version, d.out[|d.out| - 1], c.connectTag, n) && d.ob == c.ob + Frame(d.out[|d.out| - 1])
    && var e := d.(out := c.out, ob := c.ob, obCap := c.obCap, mixed := c.mixed);
       if moved then e == c.(state := Connecting2, events := Mask(false, true), ib := [], ibFreed := true, dropped := c.ib)
       else e == c.(state := Command, events := Mask(c.events.pin, true))
  }

  lemma NotifiedIs(w: Codec, c: Client, n: nat)
    requires Lossless(w) && c.state == Connecting1 && |c.ob| <= c.obCap && n < WORD
    ensures AnswerQueued(w, c, NotifyConnect(w, c, n), n, n == 0)
  {
    hide Frame, Grown, ResultPacket, SaysResult, Misleads;
    ResultPacketReads(w, c.version, c.connectTag, n);
  }

  /** The answer to a forwarded request is queued to the client as it is, and nothing else about the client changes. */
  lemma AnswerPassedOn(s: State, j: nat, i: nat, io: Io)
    requires Inv(s) && HasR(s, j) && R(s, j).state == RCommand && R(s, j).last == Forwarded && R(s, j).client == Some(i)
    requires Receive(R(s, j).ib, REMOTE_IB, io).Ready?
    requires var p := Receive(R(s, j).ib, REMOTE_IB, io).packet; p.version == 0 || p.version == 1
    ensures var r, rc, t := R(s, j), Receive(R(s, j).ib, REMOTE_IB, io), RemoteRecv(s, j, io);
            && HasC(s, i) && HasC(t, i) && Queued(C(s, i), C(t, i), rc.packet)
            && BothBecome(s, t, i, C(t, i), j,
                          r.(rx := r.rx + rc.data, ib := [], packets := r.packets + [rc.packet], last := NoCommand))
  {
    hide Inv, Receive, RemoteRecv, ClientMasks, ClientStreams, ClientNotes, ClientRequest, RemoteStreams, RemoteBuffers, PassOn,
         Queued;
    RemoteFacts(s, j);
    ClientWritable(s, j, i);
    var rc := Receive(R(s, j).ib, REMOTE_IB, io);
    PairAnswer(s, j, io, i, rc.packet, rc.data);
    PassedQueued(s.wire, C(s, i), rc.packet);
  }

  /** The client of an upstream in the command state is not handed over, so that its buffer is there. */
  lemma ClientWritable(s: State, j: nat, i: nat)
    requires Inv(s) && HasR(s, j) && R(s, j).state == RCommand && R(s, j).client == Some(i)
    ensures HasC(s, i) && !C(s, i).obFreed && |C(s, i).ob| <= C(s, i).obCap
  {
    hide Inv, ClientMasks, ClientStreams, ClientNotes, ClientRequest, RemoteStreams, RemoteBuffers;
    RemoteFacts(s, j);
  }

  lemma PassedQueued(w: Codec, c: Client, p: Packet)
    requires |c.ob| <= c.obCap
    ensures Queued(c, PassOn(w, c, p), p)
  {
    FrameSplit(p);
    hide Frame, Grown, Misleads;
    assert (c.ob + Frame(p)[..HEADER]) + p.payload == c.ob + Frame(p);
  }

  // ---- announcements

  /** A change of the table is queued to every listening client, in its version, and changes no other connection. */
  lemma AnnouncedTo(s: State, n: Note<Message>, i: nat)
    requires Inv(s) && NoteOk(n)
    ensures var t := Announce(s, n);
            && t == s.(clients := t.clients, devices := Apply(s.devices, n))
            && (HasC(t, i) <==> HasC(s, i))
            && (HasC(s, i) && C(s, i).state != Listen ==> C(t, i) == C(s, i))
            && (HasC(s, i) && C(s, i).state == Listen ==>
                  && C(t, i).out != [] && Queued(C(s, i).(notes := C(t, i).notes), C(t, i), C(t, i).out[|C(t, i).out| - 1])
                  && Tells(s.wire, C(s, i).version, C(t, i).out[|C(t, i).out| - 1], n))
  {
    hide Inv, QueueNote, Apply, Queued, Tells;
    WireLossless(s);
    NoneDeaf(s, n);
    if HasC(s, i) && C(s, i).state == Listen {
      ListenerWritable(s, i);
      NoteReads(s.wire, C(s, i).version, n);
      NotedQueued(s.wire, C(s, i), n);
    }
  }

  lemma NoneDeaf(s: State, n: Note<Message>)
    requires Inv(s)
    ensures !Announce(s, n).fault && !s.fault
  {
    hide Inv, QueueNote, Apply;
    NotFaulty(s);
    forall i | 0 <= i < |s.clients|
      ensures !Deaf(s.clients[i])
    {
      if s.clients[i].Full? && s.clients[i].item.state == Listen {
        assert HasC(s, i);
        ListenerWritable(s, i);
      }
    }
  }

  lemma ListenerWritable(s: State, i: nat)
    requires Inv(s) && HasC(s, i) && C(s, i).state == Listen
    ensures !C(s, i).obFreed && |C(s, i).ob| <= C(s, i).obCap
  {
    hide Inv, ClientMasks, ClientStreams, ClientNotes, ClientRequest, RemoteOk, PairOk;
    ClientFacts(s, i);
  }

  lemma NotedQueued(w: Codec, c: Client, n: Note<Message>)
    requires |c.ob| <= c.obCap
    ensures var d, p := QueueNote(w, c, n), NotePacket(w, c.version, n);
            Queued(c.(notes := d.notes), d, p) && d.out[|d.out| - 1] == p && d.out != []
  {
    hide Frame, Grown, NotePacket;
  }
}
