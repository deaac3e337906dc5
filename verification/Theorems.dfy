/** What holds in every state the daemon can reach, read off the invariant. */
module Theorems {
  import opened Base
  import opened Wire
  import opened DeviceTable
  import opened Protocol
  import opened Reading
  import opened Connections
  import opened Collections
  import opened Multiplexer
  import opened Invariant
  import opened Upkeep
  import opened Teardown
  import opened Reaping
  import opened RemoteEvents
  import opened EventLoop
  import DeviceKey
  import IdMap

  // ---- the merged device table

  /** A client that has listened since any moment, and replays what it was sent, has the current table. */
  lemma ListenerView(l: Loop, i: nat)
    requires Reachable(l) && HasC(l.s, i) && C(l.s, i).state == Listen
    ensures Replay(C(l.s, i).notes) == l.s.devices
  {
    hide Inv, Reachable, ClientOk, RemoteOk, PairOk;
    Safe(l);
    ClientFacts(l.s, i);
  }

  /**
   The same from the bytes alone: parsing everything sent to and queued for the client gives the
   queued packets, and reading those after the answer to Listen as changes of a table gives the
   current table, each device in the form the client's protocol version prescribes. `mixed` says
   that an upstream's answer has been passed on in between that itself reads as such a change.
   */
  lemma ListenerWireView(l: Loop, i: nat)
    requires Reachable(l) && HasC(l.s, i) && C(l.s, i).state == Listen && !C(l.s, i).mixed
    requires AllSized(C(l.s, i).out)
    ensures var c, w := C(l.s, i), l.s.wire;
            && Parse(c.tx + c.ob, WORD) == Parsed(c.out, [], false)
            && c.mark <= |c.out|
            && SameDevices(w, c.version, Replay(ReadNotes(w, c.out[c.mark..])), l.s.devices)
  {
    hide Inv, Reachable, RemoteOk, PairOk, ClientBuffers, ClientMasks, Frames, ReadNotes, ProjectNotes;
    Safe(l);
    ClientFacts(l.s, i);
    var c, w := C(l.s, i), l.s.wire;
    ParseFrames(c.out, [], WORD);
    assert Frames(c.out) + [] == Frames(c.out) && c.out + [] == c.out;
    ProjectReplay(BodyFor(w, c.version), c.notes);
    ProjectSays(w, c.version, l.s.devices);
  }

  /** A table of bodies that a listener reads as the devices of another, in the same order and under the same ids. */
  ghost predicate SameDevices(w: Codec, version: nat, t: Table<seq<byte>>, devices: Table<Message>) {
    && |t| == |devices|
    && forall k :: 0 <= k < |t| ==> t[k].id == devices[k].id && BodySays(w, version, t[k].body, devices[k].body)
  }

  lemma {:induction false} ProjectSays(w: Codec, version: nat, devices: Table<Message>)
    requires Lossless(w)
    ensures SameDevices(w, version, Project(BodyFor(w, version), devices), devices)
  {
    hide BodySays, DeviceBody;
    if devices != [] {
      ProjectSays(w, version, devices[1..]);
      BodyReads(w, version, devices[0].body);
      var t, u := Project(BodyFor(w, version), devices), Project(BodyFor(w, version), devices[1..]);
      assert t[1..] == u;
      forall k | 0 <= k < |t|
        ensures t[k].id == devices[k].id && BodySays(w, version, t[k].body, devices[k].body)
      {
        if k > 0 {
          assert t[k] == u[k - 1] && devices[k] == devices[1..][k - 1];
        }
      }
    }
  }

  /** Every device belongs to an upstream that listens, or has died and is about to be reaped. */
  lemma DevicesOwned(l: Loop, e: Entry<Message>)
    requires Reachable(l) && e in l.s.devices
    ensures exists j: nat :: HasR(l.s, j) && Owner(R(l.s, j), OwnerOf(e.id))
    ensures e.id < WORD && e.body.device == Some(e.id)
  {
    hide Inv, Reachable, ClientsOk, RemotesOk, FdsOk, ListenersOk;
    Safe(l);
    InvParts(l.s);
    assert Owned(l.s, OwnerOf(e.id));
  }

  /** A newly allocated id inherits no device from an earlier holder. */
  lemma NewIdIsClean(l: Loop)
    requires Reachable(l)
    ensures var id := IdMap.LeastFree(l.s.used);
            id != 0 ==> forall e | e in l.s.devices :: OwnerOf(e.id) != id
  {
    hide Inv, Reachable, ClientsOk, RemotesOk, FdsOk;
    Safe(l);
    InvParts(l.s);
    var id := IdMap.LeastFree(l.s.used);
    forall e | e in l.s.devices && id != 0
      ensures OwnerOf(e.id) != id
    {
      DevicesOwned(l, e);
      var j: nat :| HasR(l.s, j) && Owner(R(l.s, j), OwnerOf(e.id));
      assert IdentityOk(l.s.used, R(l.s, j));
    }
  }

  // ---- listeners

  lemma ListenerIdentity(l: Loop, j: nat, k: nat)
    requires Reachable(l) && HasR(l.s, j) && HasR(l.s, k) && j != k && R(l.s, j).listener && R(l.s, k).listener
    ensures var a, b := R(l.s, j), R(l.s, k);
            && a.id != b.id && a.id < 256
            && (a.peer.Local? <==> a.id == 0)
            && (a.peer.Host? ==> a.id in l.s.used)
            && (a.peer.Host? && b.peer.Host? ==> a.service != b.service && a.peer != b.peer)
  {
    hide Inv, Reachable, ClientsOk, RemotesOk, FdsOk, TableOk;
    Safe(l);
    InvParts(l.s);
    assert Apart(R(l.s, j), R(l.s, k)) && IdentityOk(l.s.used, R(l.s, j));
  }

  function NetworkIds(rs: seq<Slot<Remote>>): set<nat> {
    if rs == [] then {}
    else NetworkIds(rs[..|rs| - 1]) + (if Listening(rs[|rs| - 1]) then {rs[|rs| - 1].item.id} else {})
  }

  function NetworkCount(rs: seq<Slot<Remote>>): nat {
    if rs == [] then 0 else NetworkCount(rs[..|rs| - 1]) + (if Listening(rs[|rs| - 1]) then 1 else 0)
  }

  lemma {:induction false} CountIsIds(rs: seq<Slot<Remote>>)
    requires forall j, k :: 0 <= j < k < |rs| && Listening(rs[j]) && Listening(rs[k]) ==> rs[j].item.id != rs[k].item.id
    ensures NetworkCount(rs) == |NetworkIds(rs)|
    ensures forall id | id in NetworkIds(rs) :: exists j :: 0 <= j < |rs| && Listening(rs[j]) && rs[j].item.id == id
  {
    if rs != [] {
      var front, last := rs[..|rs| - 1], rs[|rs| - 1];
      CountIsIds(front);
      if Listening(last) {
        assert last.item.id !in NetworkIds(front);
      }
      forall id | id in NetworkIds(rs)
        ensures exists j :: 0 <= j < |rs| && Listening(rs[j]) && rs[j].item.id == id
      {
        if id in NetworkIds(front) {
          var j :| 0 <= j < |front| && Listening(front[j]) && front[j].item.id == id;
          assert rs[j] == front[j];
        } else {
          assert rs[|rs| - 1] == last;
        }
      }
    }
  }

  function UpTo(n: nat): (u: set<nat>)
    ensures |u| == n && forall i :: i in u <==> 1 <= i <= n
  {
    if n == 0 then {} else UpTo(n - 1) + {n}
  }

  lemma SubsetSize(a: set<nat>, b: set<nat>)
    requires a <= b
    ensures |a| <= |b|
    decreases b
  {
    if a != {} {
      var x :| x in a;
      SubsetSize(a - {x}, b - {x});
    }
  }

  /** At most 255 upstreams listen over the network. */
  lemma AtMost255(l: Loop)
    requires Reachable(l)
    ensures NetworkCount(l.s.remotes) <= 255
  {
    hide Inv, Reachable, ClientsOk, RemotesOk, FdsOk, TableOk, UpTo, NetworkIds, NetworkCount;
    Safe(l);
    InvParts(l.s);
    var rs := l.s.remotes;
    forall j, k | 0 <= j < k < |rs| && Listening(rs[j]) && Listening(rs[k])
      ensures rs[j].item.id != rs[k].item.id
    {
      assert HasR(l.s, j) && HasR(l.s, k) && Apart(R(l.s, j), R(l.s, k));
    }
    CountIsIds(rs);
    forall id | id in NetworkIds(rs)
      ensures id in UpTo(255)
    {
      var j :| 0 <= j < |rs| && Listening(rs[j]) && rs[j].item.id == id;
      assert HasR(l.s, j) && IdentityOk(l.s.used, R(l.s, j));
    }
    SubsetSize(NetworkIds(rs), UpTo(255));
  }

  // ---- pairs

  /** The two pointers of a pair always agree, and only upstreams made for a client have one. */
  lemma Pairing(l: Loop, i: nat, j: nat)
    requires Reachable(l) && HasR(l.s, j)
    ensures R(l.s, j).client.Some? <==> !R(l.s, j).listener
    ensures R(l.s, j).client.Some? ==> HasC(l.s, R(l.s, j).client.value)
    ensures HasC(l.s, i) ==> (C(l.s, i).remote == Some(j) <==> R(l.s, j).client == Some(i))
  {
    hide Inv, Reachable, ClientOk, RemoteStreams, RemoteBuffers, PairOk;
    Safe(l);
    RemoteFacts(l.s, j);
    if HasC(l.s, i) {
      ClientFacts(l.s, i);
    }
  }

  /**
   Closing a pair from either side comes to the same thing: exactly that client and that upstream
   are gone, and exactly their two descriptors, open until then, have been closed.
   */
  lemma TeardownOfPair(l: Loop, i: nat, j: nat)
    requires Reachable(l) && HasC(l.s, i) && C(l.s, i).remote == Some(j)
    ensures HasR(l.s, j) && ClientClose(l.s, i) == UpstreamClose(l.s, j)
    ensures var s, t, a, b := l.s, ClientClose(l.s, i), C(l.s, i).fd, R(l.s, j).fd;
            && !t.fault
            && t.clients == s.clients[i := Empty] && t.remotes == s.remotes[j := Empty]
            && a != b && a in s.fds && b in s.fds && s.fds[a] == OpenClient(i) && s.fds[b] == OpenRemote(j)
            && t.fds == s.fds[a := Closed][b := Closed]
            && t.devices == s.devices && t.used == s.used
  {
    hide Inv, Reachable, ClientOk, RemoteStreams, RemoteBuffers, PairOk, ClientClose;
    Safe(l);
    InvParts(l.s);
    ClientFacts(l.s, i);
    ClientCloseIs(l.s, i);
    NotFaulty(ClientClose(l.s, i));
    FdsWithout(l.s, Some(i), Some(j));
  }

  /** Every descriptor ever opened is closed, or belongs to exactly one connection. */
  lemma Descriptors(l: Loop, fd: int)
    requires Reachable(l) && fd in l.s.fds
    ensures l.s.fds[fd] == Closed <==>
              (forall i: nat :: HasC(l.s, i) ==> C(l.s, i).fd != fd)
                  && (forall j: nat :: HasR(l.s, j) ==> R(l.s, j).fd != fd)
    ensures forall i: nat, k: nat | HasC(l.s, i) && HasC(l.s, k) && C(l.s, i).fd == fd && C(l.s, k).fd == fd :: i == k
    ensures forall i: nat, k: nat | HasR(l.s, i) && HasR(l.s, k) && R(l.s, i).fd == fd && R(l.s, k).fd == fd :: i == k
    ensures forall i: nat, k: nat | HasC(l.s, i) && HasR(l.s, k) && C(l.s, i).fd == fd :: R(l.s, k).fd != fd
  {
    hide Inv, Reachable, ClientsOk, RemotesOk, ListenersOk, TableOk;
    Safe(l);
    InvParts(l.s);
  }

  // ---- the relay

  /** The upstream of a client that has been handed over. */
  lemma HandedPair(l: Loop, i: nat)
    requires Reachable(l) && HasC(l.s, i) && Handed(C(l.s, i))
    ensures C(l.s, i).remote.Some? && HasR(l.s, C(l.s, i).remote.value)
    ensures var c, r := C(l.s, i), R(l.s, C(l.s, i).remote.value);
            ClientOk(l.s.wire, c) && RemoteOk(l.s.wire, r) && PairOk(c, r)
  {
    hide Inv, Reachable, ClientOk, RemoteOk, PairOk;
    Safe(l);
    ClientFacts(l.s, i);
  }

  /**
   Towards the device: what the upstream has been sent, followed by its output buffer, is the
   client's own Connect request, under the device's own number, followed by every byte read from
   the client since the handoff, in order. That request is the last packet the client sent.
   */
  lemma RelayUp(l: Loop, i: nat)
    requires Reachable(l) && HasC(l.s, i) && Handed(C(l.s, i))
    ensures C(l.s, i).remote.Some? && HasR(l.s, C(l.s, i).remote.value)
    ensures var c, r, w := C(l.s, i), R(l.s, C(l.s, i).remote.value), l.s.wire;
            && c.rx == Frames(c.commands) + c.dropped + c.up
            && c.commands != [] && c.request.Some?
            && AsksToConnect(w, c.commands[|c.commands| - 1], c.request.value)
            && var device := Number(c.request.value) % 0x1_0000_0000;
               && r.tx + r.ob == Frame(r.first) + c.up
               && Requests(w, Frame(r.first), 0, c.request.value.(device := Some(device % 0x100_0000)))
               && r.id == device / 0x100_0000
  {
    hide Reachable, Frame, Frames, ResultPacket, ReadNotes, ProjectNotes, ResultOf, ConnectRequest, Requests;
    HandedPair(l, i);
    var c, r, w := C(l.s, i), R(l.s, C(l.s, i).remote.value), l.s.wire;
    ConnectReads(w, c.commands[|c.commands| - 1], c.request.value);
    assert Lossless(w) by { WireOf(l); }
    RequestReads(w, 0, c.request.value.(device := Some(c.connectDevice % OWNER_UNIT)));
  }

  /** The device a request names. */
  function Number(m: Message): nat { if m.device.Some? then m.device.value else 0 }

  lemma WireOf(l: Loop)
    requires Reachable(l)
    ensures Lossless(l.s.wire)
  {
    hide Reachable, FdsOk, ClientsOk, RemotesOk, ListenersOk, TableOk;
    Safe(l);
  }

  /**
   From the device: everything read from the upstream is the packets it answered with, the last
   one accepting the connection, then the raw bytes; and the raw bytes handed to the client,
   followed by the upstream's input buffer, are exactly those raw bytes, in order.
   */
  lemma RelayDown(l: Loop, i: nat)
    requires Reachable(l) && HasC(l.s, i) && Handed(C(l.s, i))
    ensures C(l.s, i).remote.Some? && HasR(l.s, C(l.s, i).remote.value)
    ensures var c, r, w := C(l.s, i), R(l.s, C(l.s, i).remote.value), l.s.wire;
            && r.rx == Frames(r.packets) + c.down + r.ib
            && r.packets != [] && ResultOf(w, r.packets[|r.packets| - 1]) == RESULT_OK
            && |r.ib| <= REMOTE_IB && |r.ob| <= r.obCap
  {
    hide Reachable, Frame, Frames, ResultPacket, ReadNotes, ProjectNotes, ConnectRequest, ResultOf;
    HandedPair(l, i);
    var c, r := C(l.s, i), R(l.s, C(l.s, i).remote.value);
    assert Frames(r.packets) + c.down + r.ib == Frames(r.packets) + (c.down + r.ib);
  }

  /**
   The handoff: what a connected client has been sent is all its packets, the Result the last of
   them and whole, and then the raw bytes; until then it has been sent no raw byte at all.
   */
  lemma Handoff(l: Loop, i: nat)
    requires Reachable(l) && HasC(l.s, i) && Handed(C(l.s, i))
    ensures var c := C(l.s, i);
            && c.out != [] && c.out[|c.out| - 1] == ResultPacket(l.s.wire, c.version, c.connectTag, RESULT_OK)
            && c.commands != [] && c.connectTag == c.commands[|c.commands| - 1].tag
            && (c.state == Connected ==> c.tx == Frames(c.out) + c.down && c.obFreed)
            && (c.state == Connecting2 ==> c.tx + c.ob == Frames(c.out) && c.up == [] && c.down == [])
  {
    hide Reachable, Frames, ResultPacket, ReadNotes, ProjectNotes, RemoteOk, PairOk, ConnectRequest;
    HandedPair(l, i);
  }

  /** The accepting answer of the upstream a client waits for is what `io` completes. */
  predicate Accepts(s: State, i: nat, io: Io)
    requires HasC(s, i)
  {
    && C(s, i).state == Connecting1 && C(s, i).remote.Some? && HasR(s, C(s, i).remote.value)
    && var r := R(s, C(s, i).remote.value);
       var answer := Receive(r.ib, REMOTE_IB, io);
       && r.state == RConnecting1 && answer.Ready? && (answer.packet.version == 0 || answer.packet.version == 1)
       && ResultOf(s.wire, answer.packet) == RESULT_OK
  }

  /**
   What the handoff loses, for every waiting client and accepting answer: all bytes read from the
   client are its packets, the last of them its Connect, and what is in the input buffer; the
   answer discards exactly that rest. So nothing is lost if and only if nothing has been read
   after the Connect.
   */
  lemma HandoffDrops(l: Loop, i: nat, io: Io)
    requires Reachable(l) && HasC(l.s, i) && Accepts(l.s, i, io)
    ensures var c, t := C(l.s, i), RemoteRecv(l.s, C(l.s, i).remote.value, io);
            && c.rx == Frames(c.commands) + c.ib
            && c.commands != [] && ConnectRequest(l.s.wire, c.commands[|c.commands| - 1]).Some?
            && HasC(t, i)
            && var d := C(t, i);
               && d.state == Connecting2 && d.ib == [] && d.commands == c.commands && d.up == []
               && d.rx == c.rx == Frames(d.commands) + d.dropped && d.dropped == c.ib
               && (d.dropped == [] <==> c.rx == Frames(c.commands))
  {
    hide Inv, Reachable, RemoteOk, Receive, ResultOf, RemoteRecv, Frames, ResultPacket, ReadNotes, ProjectNotes,
         ConnectRequest;
    Safe(l);
    ClientFacts(l.s, i);
    var j := C(l.s, i).remote.value;
    var answer := Receive(R(l.s, j).ib, REMOTE_IB, io);
    PairAnswer(l.s, j, io, i, answer.packet, answer.data);
    hide ClientOk, PairOk;
    AnsweredClient(l.s.wire, C(l.s, i));
  }

  lemma AnsweredClient(w: Codec, c: Client)
    requires c.state == Connecting1 && |c.ob| <= c.obCap
    ensures var d := NotifyConnect(w, c, RESULT_OK);
            d.state == Connecting2 && d.ib == [] && d.commands == c.commands && d.rx == c.rx && d.dropped == c.ib
            && d.up == c.up && d.fd == c.fd && d.ibFreed
  {
    hide Frame, Grown, ResultPacket;
  }

  /** No wake-up is lost: whoever has something to move, or to wait for, is armed for it. */
  lemma Wakeups(l: Loop, i: nat, j: nat)
    requires Reachable(l)
    ensures HasR(l.s, j) && R(l.s, j).ob != [] ==> R(l.s, j).events.pout
    ensures HasC(l.s, i) && C(l.s, i).state != Connected && C(l.s, i).ob != [] ==> C(l.s, i).events.pout
    ensures HasC(l.s, i) && C(l.s, i).state == Connected ==>
              && C(l.s, i).remote.Some? && HasR(l.s, C(l.s, i).remote.value)
              && var c, r := C(l.s, i), R(l.s, C(l.s, i).remote.value);
                 (c.events.pout <==> r.ib != []) && (c.events.pin || r.events.pout)
    ensures HasC(l.s, i) && !Handed(C(l.s, i)) ==> C(l.s, i).events.pin
  {
    hide Inv, Reachable, ClientStreams, ClientNotes, RemoteStreams, RemoteStates;
    Safe(l);
    if HasR(l.s, j) {
      RemoteFacts(l.s, j);
    }
    if HasC(l.s, i) {
      ClientFacts(l.s, i);
    }
  }

  /**
   A dead upstream is on its way out: outside the relay its own socket is still polled for input, so
   that an end-of-file or error that killed it comes up again; and whatever upstream the next
   event is for, the scan takes the dead one away.
   */
  lemma DeadTriggers(l: Loop, j: nat, fd: int, ev: Revents)
    requires Reachable(l) && HasR(l.s, j) && R(l.s, j).state == RDead
    ensures !R(l.s, j).rawMode ==> R(l.s, j).events.pin
    ensures !HasR(Reap(l.s, 0, fd, ev == Revents(false, false, false, true), None).0, j)
  {
    hide Inv, Reachable, ClientOk, PairOk, RemoteStates, RemoteStreams, Reap;
    Safe(l);
    RemoteFacts(l.s, j);
    ReapIs(l.s, 0, fd, ev == Revents(false, false, false, true), None);
  }

  // ---- packets

  /**
   The packets an upstream's answers were dispatched from are the parse of what it sent; a length
   that ends the parse early has killed it.
   */
  lemma UpstreamParse(l: Loop, j: nat)
    requires Reachable(l) && HasR(l.s, j) && !R(l.s, j).rawMode
    ensures var r, whole := R(l.s, j), Parse(R(l.s, j).rx, REMOTE_IB);
            && whole.packets == r.packets && whole.rest == r.ib && (whole.bad ==> r.state == RDead)
            && |r.ib| <= REMOTE_IB
  {
    hide Inv, Reachable, ClientOk, PairOk, RemoteStates, Frames, Parse, Partial, BadHead;
    Safe(l);
    RemoteFacts(l.s, j);
    var r := R(l.s, j);
    ParseFrames(r.packets, r.ib, REMOTE_IB);
    if Partial(r.ib, REMOTE_IB) {
      PartialParse(r.ib, REMOTE_IB);
    } else {
      BadParse(r.ib, REMOTE_IB);
    }
    assert r.packets + [] == r.packets;
  }

  lemma BadParse(ib: seq<byte>, capacity: nat)
    requires BadHead(ib, capacity)
    ensures Parse(ib, capacity) == Parsed([], ib, true)
  {
  }

  lemma PartialParse(ib: seq<byte>, capacity: nat)
    requires Partial(ib, capacity)
    ensures Parse(ib, capacity) == Parsed([], ib, false)
  {
  }

  /** So are a client's commands, as long as no refused packet is stuck in its buffer. */
  lemma ClientParse(l: Loop, i: nat)
    requires Reachable(l) && HasC(l.s, i) && !Handed(C(l.s, i)) && !C(l.s, i).held
    ensures Parse(C(l.s, i).rx, CLIENT_IB) == Parsed(C(l.s, i).commands, C(l.s, i).ib, false)
    ensures |C(l.s, i).ib| <= CLIENT_IB
  {
    hide Inv, Reachable, RemoteOk, PairOk, ClientMasks, ClientNotes, Frames, Parse, ResultPacket;
    Safe(l);
    ClientFacts(l.s, i);
    var c := C(l.s, i);
    ParseFrames(c.commands, c.ib, CLIENT_IB);
    PartialParse(c.ib, CLIENT_IB);
    assert c.commands + [] == c.commands;
  }

  // ---- memory

  /**
   No handler of any run touches freed memory, follows a null or dangling pointer, or closes a
   descriptor twice; a client whose input buffer is gone does not poll for input until it is connected.
   */
  lemma NoFault(l: Loop, i: nat)
    requires Reachable(l)
    ensures !l.s.fault
    ensures HasC(l.s, i) ==>
              && (C(l.s, i).ibFreed <==> Handed(C(l.s, i))) && (C(l.s, i).obFreed <==> C(l.s, i).state == Connected)
              && (C(l.s, i).state == Connecting2 ==> C(l.s, i).events == Mask(false, true))
    ensures forall j: nat | HasR(l.s, j) :: R(l.s, j).state != RConnecting2
  {
    Safe(l);
    hide Reachable, ClientStreams, ClientNotes, RemoteStreams, RemoteBuffers, Inv;
    if HasC(l.s, i) {
      ClientFacts(l.s, i);
    }
    assert !l.s.fault by { NotFaulty(l.s); }
    forall j: nat | HasR(l.s, j)
      ensures R(l.s, j).state != RConnecting2
    {
      RemoteFacts(l.s, j);
    }
  }

  lemma NotFaulty(s: State)
    requires Inv(s)
    ensures !s.fault
  {
  }

  // ---- routing

  /** The upstream of slot j listens under that id. */
  ghost predicate Shows(s: State, j: nat, id: nat) { HasR(s, j) && R(s, j).state == RListen && R(s, j).id == id }

  /** In t, client i waits for a new upstream at that address, to which the request is queued. */
  ghost predicate Reaches(s: State, t: State, i: nat, peer: Peer, asked: Message) {
    var k := FirstEmpty(s.remotes);
    && HasC(t, i) && C(t, i).state == Connecting1 && C(t, i).remote == Some(k) && HasR(t, k)
    && R(t, k).peer == peer && R(t, k).ob == Frame(PlistPacket(s.wire, 1, 0, asked))
  }

  /** The record d is m under another id, in both places where a record carries it. */
  ghost predicate Renumbered(m: Message, id: nat, d: Message) {
    && d.device == Some(id) && (d.props.Some? <==> m.props.Some?) && (d.props.Some? ==> d.props.value.device == Some(id))
    && (forall serial :: HasSerial(d, serial) <==> HasSerial(m, serial))
    && d.kind == m.kind && d.(device := m.device, props := m.props) == m
  }

  /**
   What a listening upstream announces is in the table from then on, under one id, which gives back
   both the upstream and the device's own number; everything else in the table is as before.
   */
  lemma Announced(l: Loop, j: nat, io: Io, m: Message, device: nat)
    requires Reachable(l) && HasR(l.s, j) && R(l.s, j).state == RListen && Receive(R(l.s, j).ib, REMOTE_IB, io).Ready?
    requires Attaches(l.s.wire, Receive(R(l.s, j).ib, REMOTE_IB, io).packet, m, device)
    ensures var id, t := DeviceKey.Renamed(R(l.s, j).id, device), RemoteRecv(l.s, j, io);
            && (forall e :: e in t.devices <==> e == Entry(id, Stored(m, id)) || (e in l.s.devices && e.id != id))
            && id == R(l.s, j).id * 0x100_0000 + device % 0x100_0000 && id < 0x1_0000_0000
            && OwnerOf(id) == R(l.s, j).id && id % OWNER_UNIT == device % OWNER_UNIT
    ensures Renumbered(m, DeviceKey.Renamed(R(l.s, j).id, device), Stored(m, DeviceKey.Renamed(R(l.s, j).id, device)))
  {
    hide Inv, Reachable, Receive, RemoteRecv, Attaches, ClientOk, RemoteOk, PairOk, Lossless;
    Safe(l);
    RemoteFacts(l.s, j);
    ListenerRecorded(l.s, j, io);
    DeviceKey.RenamedKey(R(l.s, j).id, device);
    SameNumber(R(l.s, j).id, device);
  }

  lemma SameNumber(owner: nat, device: nat)
    ensures ShownAs(owner, device) == DeviceKey.Renamed(owner, device)
  {
    assert WORD == 256 * OWNER_UNIT;
    assert device % WORD % OWNER_UNIT == device % OWNER_UNIT;
  }

  /** What it withdraws is in the table no more, and everything else is as before. */
  lemma Retracted(l: Loop, j: nat, io: Io, device: nat)
    requires Reachable(l) && HasR(l.s, j) && R(l.s, j).state == RListen && Receive(R(l.s, j).ib, REMOTE_IB, io).Ready?
    requires Detaches(l.s.wire, Receive(R(l.s, j).ib, REMOTE_IB, io).packet, device)
    ensures var id, t := DeviceKey.Renamed(R(l.s, j).id, device), RemoteRecv(l.s, j, io);
            forall e :: e in t.devices <==> e in l.s.devices && e.id != id
  {
    hide Inv, Reachable, Receive, RemoteRecv, Detaches;
    Safe(l);
    ListenerRecorded(l.s, j, io);
    SameNumber(R(l.s, j).id, device);
  }

  /** A Connect to an id of a listening upstream goes to that upstream's own address, with the device's own number. */
  lemma NumberRouting(s: State, j: nat, id: nat, i: nat, request: Message, tag: nat, conn: Option<int>)
    requires Inv(s) && Shows(s, j, OwnerOf(id)) && HasC(s, i) && Fresh(s, conn)
    ensures R(s, j).listener
    ensures Reaches(s, Connect(s, i, id, request, tag, conn), i, R(s, j).peer, request.(device := Some(id % OWNER_UNIT)))
  {
    hide Inv, Route;
    RouteOf(s, j);
    ConnectReaches(s, i, id, request, tag, conn);
  }

  lemma ConnectReaches(s: State, i: nat, id: nat, request: Message, tag: nat, conn: Option<int>)
    requires Route(s, OwnerOf(id)).Some? && HasC(s, i) && Fresh(s, conn)
    ensures Reaches(s, Connect(s, i, id, request, tag, conn), i, Route(s, OwnerOf(id)).value,
                    request.(device := Some(id % OWNER_UNIT)))
  {
    hide Frame, Grown, AddSlot, FirstEmpty, PlistPacket, Route, OwnerOf;
    var asked := request.(device := Some(id % OWNER_UNIT));
    var q := NewRemote(conn.value, Route(s, OwnerOf(id)).value, PlistPacket(s.wire, 1, 0, asked))
             .(id := OwnerOf(id), state := RConnecting1, asked := Some(asked), client := Some(i));
    AddedRemote(s, AddRemote(s, q), q);
  }

  /**
   Every entry of the table has one owner. A Connect to its id goes to the owner's own address, with
   the device's own number, if the owner listens or is the local one; if it has died, the request is refused.
   */
  lemma EntryRouting(l: Loop, e: Entry<Message>, j: nat, i: nat, request: Message, tag: nat, conn: Option<int>)
    requires Reachable(l) && e in l.s.devices && HasR(l.s, j) && Owner(R(l.s, j), OwnerOf(e.id))
    requires HasC(l.s, i) && Fresh(l.s, conn)
    ensures var t, r := Connect(l.s, i, e.id, request, tag, conn), R(l.s, j);
            if r.state == RListen || r.peer.Local?
            then Reaches(l.s, t, i, r.peer, request.(device := Some(e.id % OWNER_UNIT)))
            else t == ReplyResult(l.s, i, tag, RESULT_BADCOMMAND)
    ensures forall k: nat | HasR(l.s, k) && Owner(R(l.s, k), OwnerOf(e.id)) :: k == j
  {
    hide Inv, Reachable, Connect, ReplyResult, Reaches, ClientsOk, RemotesOk, FdsOk, TableOk, Route;
    Safe(l);
    InvParts(l.s);
    forall k: nat | HasR(l.s, k) && Owner(R(l.s, k), OwnerOf(e.id))
      ensures k == j
    {
      SameIdSameSlot(l.s, j, k);
    }
    assert IdentityOk(l.s.used, R(l.s, j));
    if R(l.s, j).state == RListen {
      NumberRouting(l.s, j, e.id, i, request, tag, conn);
    } else if R(l.s, j).peer.Local? {
      assert Route(l.s, 0) == Some(Local) by { LocalRoute(l.s); }
      ConnectReaches(l.s, i, e.id, request, tag, conn);
    } else {
      NoRoute(l.s, j);
      RefusedConnect(l.s, i, e.id, request, tag, conn);
    }
  }

  lemma LocalRoute(s: State)
    ensures Route(s, 0) == Some(Local)
  {
  }

  lemma RefusedConnect(s: State, i: nat, id: nat, request: Message, tag: nat, conn: Option<int>)
    requires HasC(s, i) && Route(s, OwnerOf(id)).None?
    ensures Connect(s, i, id, request, tag, conn) == ReplyResult(s, i, tag, RESULT_BADCOMMAND)
  {
  }

  /** Nothing is routed to a network listener that has died. */
  lemma NoRoute(s: State, j: nat)
    requires Inv(s) && HasR(s, j) && R(s, j).listener && R(s, j).state == RDead && R(s, j).id != 0
    ensures Route(s, R(s, j).id).None?
  {
    hide Inv, ClientsOk, RemotesOk, FdsOk, TableOk, RemoteStreams, RemoteBuffers, ClientOk, PairOk;
    InvParts(s);
    var k := FirstRoute(s.remotes, R(s, j).id);
    if k < |s.remotes| {
      assert HasR(s, k);
      RemoteFacts(s, k);
      SameIdSameSlot(s, j, k);
      assert false;
    }
  }

  /** The upstream an input event is for is found, as it was, once the dead have been reaped. */
  lemma FoundAlive(s: State, j: nat, ev: Revents, io: Io)
    requires Inv(s) && HasR(s, j) && R(s, j).state == RListen && ev.pin
    ensures var u := Reap(s, 0, R(s, j).fd, false, None).0;
            && Inv(u) && u.wire == s.wire && HasR(u, j) && R(u, j) == R(s, j)
            && RemoteProcess(s, R(s, j).fd, ev, io) == RemoteRecv(u, j, io)
  {
    hide Inv, Reap, RemoteRecv, RelayRemote, Calm;
    var fd := R(s, j).fd;
    var (u, found) := Reap(s, 0, fd, false, None);
    ReapIs(s, 0, fd, false, None);
    ReapWire(s, 0, fd, false, None);
    OneFd(s);
    assert Addressed(u.remotes[j], fd, false);
    if found.Some? {
      assert HasR(s, found.value);
    }
  }

  /**
   End to end: the input event that completes an announcement of upstream j, whatever else is reaped in
   it, leaves the device in the table under one id, and in the table every listening client has
   rebuilt; and a Connect to that id goes to the upstream's own address with the device's own number.
   */
  lemma Routing(l: Loop, j: nat, ev: Revents, io: Io, m: Message, device: nat, i: nat, request: Message, tag: nat,
                conn: Option<int>)
    requires Reachable(l) && HasR(l.s, j) && R(l.s, j).state == RListen && ev.pin
    requires Receive(R(l.s, j).ib, REMOTE_IB, io).Ready?
    requires Attaches(l.s.wire, Receive(R(l.s, j).ib, REMOTE_IB, io).packet, m, device)
    ensures var s, t := l.s, RemoteProcess(l.s, R(l.s, j).fd, ev, io);
            var id := DeviceKey.Renamed(R(s, j).id, device);
            && (forall e :: e in t.devices && e.id == id <==> e == Entry(id, Stored(m, id)))
            && (forall c: nat | HasC(t, c) && C(t, c).state == Listen :: Entry(id, Stored(m, id)) in Replay(C(t, c).notes))
            && (HasC(t, i) && Fresh(t, conn) ==>
                  Reaches(t, Connect(t, i, id, request, tag, conn), i, R(s, j).peer,
                          request.(device := Some(device % OWNER_UNIT))))
  {
    hide Inv, Reachable, Receive, RemoteRecv, RemoteProcess, Attaches, Stored, Connect, Reaches, ClientOk, RemoteOk,
         PairOk, Lossless, Reap, Replay;
    Safe(l);
    FoundAlive(l.s, j, ev, io);
    var u := Reap(l.s, 0, R(l.s, j).fd, false, None).0;
    RecordedAndShown(u, j, io, m, device);
    var t, id := RemoteRecv(u, j, io), DeviceKey.Renamed(R(u, j).id, device);
    forall c: nat | HasC(t, c) && C(t, c).state == Listen
      ensures Entry(id, Stored(m, id)) in Replay(C(t, c).notes)
    {
      ClientFacts(t, c);
    }
    if HasC(t, i) && Fresh(t, conn) {
      NumberRouting(t, j, id, i, request, tag, conn);
    }
  }

  lemma RecordedAndShown(u: State, j: nat, io: Io, m: Message, device: nat)
    requires Inv(u) && HasR(u, j) && R(u, j).state == RListen && Receive(R(u, j).ib, REMOTE_IB, io).Ready?
    requires Attaches(u.wire, Receive(R(u, j).ib, REMOTE_IB, io).packet, m, device)
    ensures var t, id := RemoteRecv(u, j, io), DeviceKey.Renamed(R(u, j).id, device);
            && Inv(t) && Shows(t, j, OwnerOf(id)) && R(t, j).peer == R(u, j).peer && id % OWNER_UNIT == device % OWNER_UNIT
            && forall e :: e in t.devices && e.id == id <==> e == Entry(id, Stored(m, id))
  {
    hide Inv, Receive, Stored, ClientOk, RemoteOk, PairOk, Lossless, Announce, Calm, Consumed, NoteOf, RemoteRecv;
    var rc := Receive(R(u, j).ib, REMOTE_IB, io);
    RemoteFacts(u, j);
    assert AnswersRule(u.wire, R(u, j), io);
    ListenerTold(u, j, io);
    DeviceKey.RenamedKey(R(u, j).id, device);
    SameNumber(R(u, j).id, device);
    ListenerAnswer(u, j, io, rc.data, rc.packet);
    var n := NoteOf(u.wire, R(u, j).id, rc.packet);
    if n.Some? {
      AnnounceRemotes(u, n.value);
    }
    StillListening(R(u, j), rc.data, rc.packet);
  }

  lemma StillListening(r: Remote, data: seq<byte>, p: Packet)
    ensures var q := Consumed(RemoteGot(r, data), p); q.state == r.state && q.id == r.id && q.peer == r.peer
  {
  }

  lemma SameIdSameSlot(s: State, j: nat, k: nat)
    requires ListenersOk(s) && HasR(s, j) && HasR(s, k) && R(s, j).listener && R(s, k).listener && R(s, j).id == R(s, k).id
    ensures j == k
  {
    assert j == k || Apart(R(s, j), R(s, k));
  }

  /** Only listeners reach the listening state, and their ids are unique. */
  lemma RouteOf(s: State, j: nat)
    requires Inv(s) && HasR(s, j) && R(s, j).state == RListen
    ensures R(s, j).listener && Route(s, R(s, j).id) == Some(R(s, j).peer)
  {
    hide Inv, ClientsOk, RemotesOk, FdsOk, TableOk, RemoteStreams, RemoteBuffers, ClientOk, PairOk;
    InvParts(s);
    RemoteFacts(s, j);
    assert IdentityOk(s.used, R(s, j));
    if R(s, j).id != 0 {
      var k := FirstRoute(s.remotes, R(s, j).id);
      assert Routes(s.remotes[j], R(s, j).id);
      assert HasR(s, k);
      RemoteFacts(s, k);
      SameIdSameSlot(s, j, k);
    }
  }

  /** The device a pair-record request is about: the first with that serial number. */
  lemma {:induction false} SerialLookup(t: Table<Message>, serial: string)
    ensures (exists e :: e in t && SerialOf(e.body) == Some(serial)) ==>
              exists e :: e in t && SerialOf(e.body) == Some(serial) && IdOfSerial(t, serial) == e.id
    ensures (forall e :: e in t ==> SerialOf(e.body) != Some(serial)) ==> IdOfSerial(t, serial) == 0
  {
    if t != [] {
      assert t[0] in t;
      SerialLookup(t[1..], serial);
      assert forall e | e in t :: e == t[0] || e in t[1..];
      assert forall e | e in t[1..] :: e in t;
    }
  }

  /** A pair-record request for an announced serial number goes to the upstream of a device that has it. */
  lemma PairRecordRouting(l: Loop, i: nat, serial: string, first: Packet, conn: Option<int>, d: Entry<Message>)
    requires Reachable(l) && d in l.s.devices && SerialOf(d.body) == Some(serial)
    requires HasC(l.s, i) && Fresh(l.s, conn)
    requires exists j: nat :: Shows(l.s, j, OwnerOf(IdOfSerial(l.s.devices, serial)))
    ensures var s, id, k := l.s, IdOfSerial(l.s.devices, serial), FirstEmpty(l.s.remotes);
            var (t, res) := Forward(s, i, OwnerOf(id), first, conn);
            && res == 0 && HasC(t, i) && C(t, i).remote == Some(k) && HasR(t, k) && R(t, k).ob == Frame(first)
            && exists e, j: nat :: e in s.devices && SerialOf(e.body) == Some(serial) && HasR(s, j)
                              && R(s, j).state == RListen && R(s, j).id == OwnerOf(e.id) && R(t, k).peer == R(s, j).peer
  {
    hide Inv, Reachable, ClientsOk, RemotesOk, FdsOk, TableOk, RemoteStreams, RemoteBuffers, ClientOk, PairOk, Frame,
         Grown, AddSlot, FirstEmpty, PlistPacket, Route;
    Safe(l);
    SerialLookup(l.s.devices, serial);
    var e :| e in l.s.devices && SerialOf(e.body) == Some(serial) && IdOfSerial(l.s.devices, serial) == e.id;
    var j: nat :| Shows(l.s, j, OwnerOf(e.id));
    RouteOf(l.s, j);
    var q := NewRemote(conn.value, R(l.s, j).peer, first).(last := Forwarded, client := Some(i));
    AddedRemote(l.s, AddRemote(l.s, q), q);
  }

  // ---- the instance report

  /** The instances whose id is `owner`. */
  function Hits(rs: seq<Slot<Remote>>, owner: nat): nat {
    if rs == [] then 0
    else Hits(rs[..|rs| - 1], owner) + (if Reported(rs[|rs| - 1]) && rs[|rs| - 1].item.id == owner then 1 else 0)
  }

  function Total(report: seq<Instance>): nat {
    if report == [] then 0 else Total(report[..|report| - 1]) + report[|report| - 1].count
  }

  lemma {:induction false} TotalCons(rs: seq<Slot<Remote>>, e: Entry<Message>, t: Table<Message>)
    requires SerialOf(e.body).Some?
    ensures Total(InstanceReport(rs, [e] + t)) == Hits(rs, OwnerOf(e.id)) + Total(InstanceReport(rs, t))
  {
    if rs != [] {
      var front, last := rs[..|rs| - 1], rs[|rs| - 1];
      TotalCons(front, e, t);
      hide InstanceReport, Total, SerialsOf, OwnerOf;
      TotalStep(front, last, [e] + t);
      TotalStep(front, last, t);
      SerialsCons(e, t, if last.Full? then last.item.id else 0);
      assert rs == front + [last];
    } else {
      EmptyReports([e] + t);
      EmptyReports(t);
    }
  }

  lemma EmptyReports(t: Table<Message>)
    ensures Total(InstanceReport([], t)) == 0
  {
  }

  lemma SerialsCons(e: Entry<Message>, t: Table<Message>, owner: nat)
    ensures |SerialsOf([e] + t, owner)|
            == |SerialsOf(t, owner)| + if OwnerOf(e.id) == owner && SerialOf(e.body).Some? then 1 else 0
  {
    assert ([e] + t)[1..] == t;
  }

  lemma TotalStep(front: seq<Slot<Remote>>, last: Slot<Remote>, t: Table<Message>)
    ensures Total(InstanceReport(front + [last], t))
            == Total(InstanceReport(front, t)) + (if Reported(last) then |SerialsOf(t, last.item.id)| else 0)
  {
    var rs := front + [last];
    assert rs[..|rs| - 1] == front;
    var a, b := InstanceReport(front, t), InstanceReport(rs, t);
    if Reported(last) {
      assert b[..|b| - 1] == a;
    } else {
      assert b == a;
    }
  }

  lemma {:induction false} NoHits(rs: seq<Slot<Remote>>, owner: nat)
    requires forall j :: 0 <= j < |rs| ==> !(Reported(rs[j]) && rs[j].item.id == owner)
    ensures Hits(rs, owner) == 0
  {
    if rs != [] {
      NoHits(rs[..|rs| - 1], owner);
    }
  }

  lemma {:induction false} OneHit(rs: seq<Slot<Remote>>, owner: nat, k: nat)
    requires k < |rs| && Reported(rs[k]) && rs[k].item.id == owner
    requires forall j :: 0 <= j < |rs| && j != k ==> !(Reported(rs[j]) && rs[j].item.id == owner)
    ensures Hits(rs, owner) == 1
  {
    if k == |rs| - 1 {
      NoHits(rs[..|rs| - 1], owner);
    } else {
      OneHit(rs[..|rs| - 1], owner, k);
    }
  }

  /** Entries whose upstream is reported and that have a serial number. */
  function Shown(rs: seq<Slot<Remote>>, t: Table<Message>): nat {
    if t == [] then 0
    else (if SerialOf(t[0].body).Some? && Hits(rs, OwnerOf(t[0].id)) > 0 then 1 else 0) + Shown(rs, t[1..])
  }

  lemma {:induction false} ShownAll(rs: seq<Slot<Remote>>, t: Table<Message>)
    ensures Shown(rs, t) <= |t|
    ensures Shown(rs, t) == |t| <==> forall e | e in t :: SerialOf(e.body).Some? && Hits(rs, OwnerOf(e.id)) > 0
  {
    if t != [] {
      ShownAll(rs, t[1..]);
      assert t[0] in t && forall e | e in t :: e == t[0] || e in t[1..];
    }
  }

  lemma {:induction false} TotalIs(rs: seq<Slot<Remote>>, t: Table<Message>)
    requires forall owner: nat :: Hits(rs, owner) <= 1
    ensures Total(InstanceReport(rs, t)) == Shown(rs, t)
    decreases |t|
  {
    if t == [] {
      EmptyReport(rs);
    } else {
      assert t == [t[0]] + t[1..];
      TotalIs(rs, t[1..]);
      if SerialOf(t[0].body).Some? {
        TotalCons(rs, t[0], t[1..]);
      } else {
        TotalSkip(rs, t[0], t[1..]);
      }
    }
  }

  lemma {:induction false} TotalSkip(rs: seq<Slot<Remote>>, e: Entry<Message>, t: Table<Message>)
    requires SerialOf(e.body).None?
    ensures Total(InstanceReport(rs, [e] + t)) == Total(InstanceReport(rs, t))
  {
    if rs != [] {
      var front, last := rs[..|rs| - 1], rs[|rs| - 1];
      TotalSkip(front, e, t);
      assert ([e] + t)[1..] == t;
      TotalStep(front, last, [e] + t);
      TotalStep(front, last, t);
      assert rs == front + [last];
    }
  }

  lemma {:induction false} EmptyReport(rs: seq<Slot<Remote>>)
    ensures Total(InstanceReport(rs, [])) == 0
  {
    if rs != [] {
      EmptyReport(rs[..|rs| - 1]);
      TotalStep(rs[..|rs| - 1], rs[|rs| - 1], []);
      assert rs == rs[..|rs| - 1] + [rs[|rs| - 1]];
    }
  }

  /**
   The counts of the report add up to the number of devices whose upstream listens and whose
   record has a serial number: to the whole table if and only if that is every device.
   */
  lemma ReportPartitions(l: Loop)
    requires Reachable(l)
    ensures var total := Total(InstanceReport(l.s.remotes, l.s.devices));
            && total == Shown(l.s.remotes, l.s.devices)
            && (total == |l.s.devices| <==>
                  forall e | e in l.s.devices :: SerialOf(e.body).Some? && exists j: nat :: Shows(l.s, j, OwnerOf(e.id)))
  {
    hide Inv, Reachable, ClientsOk, RemotesOk, FdsOk, TableOk, Shown, Total, Hits;
    Safe(l);
    InvParts(l.s);
    var rs := l.s.remotes;
    forall owner: nat
      ensures Hits(rs, owner) <= 1 && (Hits(rs, owner) > 0 <==> exists j: nat :: Shows(l.s, j, owner))
    {
      OwnerHits(l.s, owner);
    }
    TotalIs(rs, l.s.devices);
    ShownAll(rs, l.s.devices);
  }

  lemma OwnerHits(s: State, owner: nat)
    requires Inv(s)
    ensures Hits(s.remotes, owner) == if exists j: nat :: Shows(s, j, owner) then 1 else 0
  {
    hide Inv, ClientsOk, RemotesOk, FdsOk, TableOk, Hits;
    InvParts(s);
    var rs := s.remotes;
    if k: nat :| Shows(s, k, owner) {
      RouteOf(s, k);
      forall j | 0 <= j < |rs| && j != k
        ensures !(Reported(rs[j]) && rs[j].item.id == owner)
      {
        if Reported(rs[j]) {
          assert HasR(s, j) && Apart(R(s, j), R(s, k));
        }
      }
      OneHit(rs, owner, k);
    } else {
      forall j | 0 <= j < |rs|
        ensures !(Reported(rs[j]) && rs[j].item.id == owner)
      {
        assert !Shows(s, j, owner);
      }
      NoHits(rs, owner);
    }
  }

  /** The serial numbers listed for an instance are those of exactly its devices. */
  lemma {:induction false} SerialsAre(t: Table<Message>, owner: nat, serial: string)
    ensures serial in SerialsOf(t, owner) <==>
              exists e :: e in t && OwnerOf(e.id) == owner && HasSerial(e.body, serial)
  {
    if t != [] {
      SerialsAre(t[1..], owner, serial);
      assert forall e | e in t :: e == t[0] || e in t[1..];
      assert forall e | e in t[1..] :: e in t;
      assert t[0] in t;
    }
  }

  /** The entry describes the upstream of slot j and exactly its devices. */
  ghost predicate Describes(s: State, j: nat, entry: Instance) {
    && j < |s.remotes| && Reported(s.remotes[j])
    && var r := R(s, j);
       && entry.id == r.id && entry.serials == SerialsOf(s.devices, r.id) && entry.count == |entry.serials|
       && (entry.isUnix <==> r.peer == Local) && entry.service == r.service
       && (if r.peer == Local then entry.host == "" && entry.port == 0
           else entry.host == r.peer.name && entry.port == r.peer.port)
  }

  ghost predicate Described(s: State, n: nat, entry: Instance) {
    exists j: nat :: j < n && Describes(s, j, entry)
  }

  ghost predicate Listed(s: State, j: nat, report: seq<Instance>) {
    exists a :: 0 <= a < |report| && Describes(s, j, report[a])
  }

  /** One entry for every listening upstream below slot n, and no other; ids do not repeat. */
  ghost predicate ReportOk(s: State, n: nat, report: seq<Instance>)
    requires n <= |s.remotes|
  {
    && (forall a, b :: 0 <= a < b < |report| ==> report[a].id != report[b].id)
    && (forall a :: 0 <= a < |report| ==> Described(s, n, report[a]))
    && (forall j: nat :: j < n && Reported(s.remotes[j]) ==> Listed(s, j, report))
  }

  lemma {:induction false} ReportUpTo(s: State, n: nat)
    requires ListenersOk(s) && n <= |s.remotes|
    ensures ReportOk(s, n, InstanceReport(s.remotes[..n], s.devices))
  {
    if n > 0 {
      ReportUpTo(s, n - 1);
      assert s.remotes[..n][..n - 1] == s.remotes[..n - 1];
      ReportExtended(s, n - 1, InstanceReport(s.remotes[..n - 1], s.devices), InstanceReport(s.remotes[..n], s.devices));
    }
  }

  lemma ReportExtended(s: State, m: nat, front: seq<Instance>, report: seq<Instance>)
    requires ListenersOk(s) && m < |s.remotes| && ReportOk(s, m, front)
    requires front <= report && |report| == |front| + if Reported(s.remotes[m]) then 1 else 0
    requires Reported(s.remotes[m]) ==> Describes(s, m, report[|front|])
    ensures ReportOk(s, m + 1, report)
  {
    hide SerialsOf, Describes;
    forall a | 0 <= a < |front|
      ensures Described(s, m + 1, report[a]) && (Reported(s.remotes[m]) ==> report[a].id != R(s, m).id)
    {
      EntryKept(s, m, front[a]);
    }
    forall j: nat | j < m + 1 && Reported(s.remotes[j])
      ensures Listed(s, j, report)
    {
      if j < m {
        assert Listed(s, j, front);
        var a :| 0 <= a < |front| && Describes(s, j, front[a]);
        assert report[a] == front[a];
      }
    }
    if Reported(s.remotes[m]) {
      assert report[|front|].id == R(s, m).id by { LastDescribed(s, m, report[|front|]); }
      assert Described(s, m + 1, report[|front|]);
    }
  }

  lemma LastDescribed(s: State, m: nat, entry: Instance)
    requires Describes(s, m, entry)
    ensures m < |s.remotes| && HasR(s, m) && entry.id == R(s, m).id
  {
  }

  lemma EntryKept(s: State, m: nat, entry: Instance)
    requires ListenersOk(s) && m < |s.remotes| && Described(s, m, entry)
    ensures Described(s, m + 1, entry) && (Reported(s.remotes[m]) ==> entry.id != R(s, m).id)
  {
    hide SerialsOf;
    var j: nat :| j < m && Describes(s, j, entry);
    if Reported(s.remotes[m]) {
      assert HasR(s, j) && HasR(s, m) && Apart(R(s, j), R(s, m));
    }
  }

  /** The instance report of any reachable state. */
  lemma ReportKeys(l: Loop)
    requires Reachable(l)
    ensures ReportOk(l.s, |l.s.remotes|, InstanceReport(l.s.remotes, l.s.devices))
  {
    hide Inv, Reachable, ClientsOk, RemotesOk, FdsOk, TableOk, ReportOk, InstanceReport;
    Safe(l);
    InvParts(l.s);
    ReportUpTo(l.s, |l.s.remotes|);
    assert l.s.remotes[..|l.s.remotes|] == l.s.remotes;
  }
}
