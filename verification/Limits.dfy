/**
 Where the rules for clients and upstreams matter: for each, exactly when the handler keeps
 the invariant, or finishes, without it.
 */
module Limits {
  import opened Base
  import opened Wire
  import opened DeviceTable
  import opened Protocol
  import opened Reading
  import opened Connections
  import opened Collections
  import opened Multiplexer
  import opened Invariant
  import opened Steps
  import opened Upkeep
  import opened Teardown
  import opened Reaping
  import opened Commands
  import opened ClientEvents
  import opened RemoteEvents
  import opened Theorems
  import DeviceKey

  // ---- one request per connection

  /** The client points to its new upstream, its old one still to the client. */
  ghost predicate Crossed(s: State, t: State, i: nat)
    requires HasC(s, i) && C(s, i).remote.Some?
  {
    var j, n := C(s, i).remote.value, FirstEmpty(s.remotes);
    && HasR(s, j) && j != n
    && HasC(t, i) && C(t, i).remote == Some(n) && HasR(t, n) && R(t, n).client == Some(i)
    && HasR(t, j) && R(t, j).client == Some(i)
  }

  lemma CrossedBreaks(s: State, t: State, i: nat)
    requires HasC(s, i) && C(s, i).remote.Some? && Crossed(s, t, i)
    ensures !Inv(t)
  {
    hide Inv, ClientOk, RemoteOk, PairOk;
    if Inv(t) {
      PointsBack(t, i, C(s, i).remote.value);
    }
  }

  lemma PointsBack(s: State, i: nat, j: nat)
    requires Inv(s) && HasR(s, j) && R(s, j).client == Some(i)
    ensures HasC(s, i) && C(s, i).remote == Some(j)
  {
    assert RemotesOk(s);
  }

  lemma AttachedTwice(s: State, t: State, i: nat, r: Remote)
    requires Inv(s) && HasC(s, i) && C(s, i).remote.Some? && r.client == Some(i)
    requires t.remotes == AddSlot(s.remotes, r) && HasC(t, i) && C(t, i).remote == Some(FirstEmpty(s.remotes))
    ensures Crossed(s, t, i)
  {
    hide Inv, AddSlot, FirstEmpty, ClientOk, RemoteOk, PairOk;
    ClientFacts(s, i);
    AddedRemote(s, t, r);
  }

  /** Forwarding a request keeps the invariant exactly when it is the client's first; a second one crosses the pointers. */
  lemma OneForwardOnly(s: State, i: nat, owner: nat, first: Packet, conn: Option<int>)
    requires Inv(s) && HasC(s, i) && C(s, i).state == Command && owner < 256
    requires Route(s, owner).Some? && Fresh(s, conn)
    ensures Inv(Forward(s, i, owner, first, conn).0) <==> C(s, i).remote.None?
    ensures C(s, i).remote.Some? ==> Crossed(s, Forward(s, i, owner, first, conn).0, i)
    ensures Forward(s, i, owner, first, conn).1 == 0
  {
    hide Inv, Route, AddSlot, FirstEmpty, Frame, Grown, Crossed;
    if C(s, i).remote.None? {
      ForwardKeeps(s, i, owner, first, conn);
    } else {
      var q := NewRemote(conn.value, Route(s, owner).value, first).(last := Forwarded, client := Some(i));
      AttachedTwice(s, Forward(s, i, owner, first, conn).0, i, q);
      CrossedBreaks(s, Forward(s, i, owner, first, conn).0, i);
    }
  }

  /** So does Connect, its packet consumed. */
  lemma OneConnectOnly(s: State, i: nat, device: nat, request: Message, p: Packet, conn: Option<int>)
    requires Inv(s) && HasC(s, i) && InBuffer(C(s, i), p)
    requires ConnectRequest(s.wire, p) == Some(request) && device == request.device.value % WORD
    requires Route(s, OwnerOf(device)).Some? && Fresh(s, conn)
    ensures var t := Finish(Connect(s, i, device, request, p.tag, conn), i, 0, p);
            && (Inv(t) <==> C(s, i).remote.None?)
            && (C(s, i).remote.Some? ==> Crossed(s, t, i))
  {
    hide Inv, Route, AddSlot, FirstEmpty, Frame, Grown, PlistPacket, Crossed, Connect, ConnectRequest, Calm;
    if C(s, i).remote.None? {
      ConnectKeeps(s, i, device, request, p, conn);
    } else {
      var r := Asked(s.wire, conn.value, Route(s, OwnerOf(device)).value, device, request);
      ConnectIs(s, i, device, request, p, conn);
      var t := Finish(Connect(s, i, device, request, p.tag, conn), i, 0, p);
      AttachedTwice(s, t, i, r.(client := Some(i)));
      CrossedBreaks(s, t, i);
    }
  }

  // ---- devices and their upstreams

  /** An announcement keeps the table owned exactly when its key names a listening or dead upstream. */
  lemma AnnouncementOwned(s: State, n: Note<Message>)
    requires Inv(s) && NoteOk(n) && n.Attached?
    ensures Inv(Announce(s, n)) <==> Owned(s, OwnerOf(n.entry.id))
  {
    hide Inv, Owned, Apply;
    if Owned(s, OwnerOf(n.entry.id)) {
      AnnounceKeeps(s, n);
    } else if Inv(Announce(s, n)) {
      var t := Announce(s, n);
      InvParts(s);
      InvParts(t);
      PutMembers(s.devices, n.entry);
      assert t.devices == Put(s.devices, n.entry) by { AnnouncedTable(s, n); PutIsApply(s.devices, n.entry); }
      assert n.entry in t.devices;
      assert Owned(t, OwnerOf(n.entry.id)) by { hide ClientsOk, RemotesOk, FdsOk, ListenersOk; }
      AnnounceRemotes(s, n);
      OwnedByRemotes(s, t, OwnerOf(n.entry.id));
      assert false;
    }
  }

  lemma PutIsApply(t: Table<Message>, e: Entry<Message>)
    ensures Apply(t, Attached(e)) == Put(t, e)
  {
  }

  lemma OwnedByRemotes(s: State, t: State, id: nat)
    requires t.remotes == s.remotes && Owned(t, id)
    ensures Owned(s, id)
  {
    var j: nat :| HasR(t, j) && Owner(R(t, j), id);
    assert HasR(s, j);
  }

  /** Without a DeviceID an Attached message is filed under id 0, which is right only if id 0 has an owner. */
  lemma DeviceIdNeeded(s: State, j: nat, p: Packet)
    requires Inv(s) && HasR(s, j) && R(s, j).state == RListen && p.message == MESSAGE_PLIST
    requires s.wire.dec(p.payload).Some? && s.wire.dec(p.payload).value.kind == Some("Attached")
    ensures NoteOf(s.wire, R(s, j).id, p).Some?
    ensures Inv(Announce(s, NoteOf(s.wire, R(s, j).id, p).value)) <==>
              s.wire.dec(p.payload).value.device.Some? || Owned(s, 0)
  {
    RemoteFacts(s, j);
    hide Inv, ClientOk, PairOk, RemoteStreams, RemoteBuffers, Owned, Lossless;
    var r, m := R(s, j), s.wire.dec(p.payload).value;
    var n := NoteOf(s.wire, r.id, p).value;
    if m.device.Some? {
      DeviceKey.RenamedKey(r.id, m.device.value % WORD);
      assert Owned(s, r.id) by { assert Owner(R(s, j), r.id); }
    }
    AnnouncementOwned(s, n);
  }

  /**
   Why Listen must have gone out whole before it is answered: a failed send closes the upstream
   outright, without withdrawing its devices. For one that listens, this keeps the table owned
   if and only if it has announced no device that is still there.
   */
  lemma ListenerClosedOutright(s: State, j: nat)
    requires Inv(s) && HasR(s, j) && R(s, j).state == RListen
    ensures Inv(UpstreamClose(s, j)) <==> forall e | e in s.devices :: OwnerOf(e.id) != R(s, j).id
  {
    RemoteFacts(s, j);
    hide Inv, RemoteOk, UpstreamClose, Without;
    RemoteMatched(s, j);
    ClosedAlone(s, j);
    if e: Entry<Message> :| e in s.devices && OwnerOf(e.id) == R(s, j).id {
      OrphanLeft(s, j, e);
    } else {
      WithoutKeeps(s, None, Some(j));
    }
  }

  lemma OrphanLeft(s: State, j: nat, e: Entry<Message>)
    requires Inv(s) && HasR(s, j) && R(s, j).listener && e in s.devices && OwnerOf(e.id) == R(s, j).id
    ensures !Inv(Without(s, None, Some(j)))
  {
    hide Inv, Owned, ListenersOk;
    InvParts(s);
    var t := Without(s, None, Some(j));
    OwnerGone(s, t, j);
    if Inv(t) {
      StillOwned(t, e);
    }
  }

  lemma ClosedAlone(s: State, j: nat)
    requires Inv(s) && HasR(s, j) && R(s, j).client.None?
    ensures UpstreamClose(s, j) == Without(s, None, Some(j))
  {
    hide ClientsOk, RemotesOk, ListenersOk, TableOk;
  }

  lemma StillOwned(s: State, e: Entry<Message>)
    requires Inv(s) && e in s.devices
    ensures Owned(s, OwnerOf(e.id))
  {
    hide ClientsOk, RemotesOk, ListenersOk, FdsOk;
  }

  lemma OwnerGone(s: State, t: State, j: nat)
    requires ListenersOk(s) && HasR(s, j) && R(s, j).listener && t.remotes == s.remotes[j := Empty]
    ensures !Owned(t, R(s, j).id)
  {
    forall k: nat | HasR(t, k)
      ensures !Owner(R(t, k), R(s, j).id)
    {
      assert HasR(s, k) && Apart(R(s, j), R(s, k));
    }
  }

  // ---- requests that take away their own client, or name nothing

  /**
   RemoveInstance goes wrong exactly when its own requester is reaped on the spot: it has
   forwarded a request before, and no upstream but those with the removed id is still alive.
   */
  lemma RemovalOfOwnUpstream(s: State, i: nat, host: Host, tag: nat, result: nat)
    requires Inv(s) && HasC(s, i) && C(s, i).state == Command
    requires FirstNamed(s.remotes, None, Some(host)) < |s.remotes|
    ensures var id := s.remotes[FirstNamed(s.remotes, None, Some(host))].item.id;
            var t := ReplyResult(ServiceRemove(s, None, Some(host)).0, i, tag, result);
            t.fault <==> C(s, i).remote.Some? && !LiveElsewhere(s.remotes, id)
  {
    var j := FirstNamed(s.remotes, None, Some(host));
    hide Inv, MarkDead, Calm, ReplyResult;
    assert HasR(s, j) && MarkDead(s, j) == ServiceRemove(s, None, Some(host)).0;
    RequesterLeft(s, i, j);
    if HasC(MarkDead(s, j), i) {
      MarkDeadIs(s, j);
      ReplyResultKeeps(MarkDead(s, j), i, tag, result);
      NotFaulty(ReplyResult(MarkDead(s, j), i, tag, result));
    } else {
      GoneFaults(MarkDead(s, j), i, tag, result);
    }
  }

  /**
   A pair-record request goes wrong exactly when it names no record and the missing name is looked at:
   compared, because some record has a serial number, or copied, because the request is rewritten.
   */
  lemma NamelessFaults(s: State, i: nat, m: Message, p: Packet, conn: Option<int>)
    requires Inv(s) && HasC(s, i) && C(s, i).state == Command && PairRecordKind(m.kind)
    ensures PlistCommand(s, i, m, p, conn).0.fault <==>
              && m.record.None?
              && ((exists e, serial :: e in s.devices && HasSerial(e.body, serial))
                  || (m.kind != Some("SavePairRecord") && Fresh(s, conn)))
  {
    hide Inv, AnySerial, Route, IdOfSerial, Attach;
    SerialsAny(s.devices);
    NotFaulty(s);
    var kind := m.kind.value;
    if !Nameless(s, kind, m, conn) {
      var request := if kind == "SavePairRecord" then m else OwnRequest(kind).(record := m.record);
      ForwardUnfaulty(s, i, RecordOwner(s.devices, m), PlistPacket(s.wire, 1, p.tag, request), conn);
    }
  }

  lemma SerialsAny(t: Table<Message>)
    ensures AnySerial(t) <==> exists e, serial :: e in t && HasSerial(e.body, serial)
  {
    if k :| 0 <= k < |t| && SerialOf(t[k].body).Some? {
      assert t[k] in t && HasSerial(t[k].body, SerialOf(t[k].body).value);
    }
    if e, serial :| e in t && HasSerial(e.body, serial) {
      var k :| 0 <= k < |t| && t[k] == e;
      assert SerialOf(t[k].body).Some?;
    }
  }

  lemma ForwardUnfaulty(s: State, i: nat, owner: nat, first: Packet, conn: Option<int>)
    requires HasC(s, i)
    ensures Forward(s, i, owner, first, conn).0.fault == s.fault
  {
  }

  // ---- the rule for clients is exact

  lemma FaultStays(t: State, i: nat, ret: int, p: Packet)
    requires t.fault
    ensures !Inv(Finish(t, i, ret, p))
  {
  }

  lemma CrossedStays(s: State, t: State, i: nat, p: Packet)
    requires HasC(s, i) && C(s, i).remote.Some? && Crossed(s, t, i)
    ensures !Inv(Finish(t, i, 0, p))
  {
    hide Inv, FirstEmpty;
    CrossedBreaks(s, Finish(t, i, 0, p), i);
  }

  lemma PlistRuleExact(s: State, i: nat, m: Message, p: Packet, conn: Option<int>)
    requires Inv(s) && HasC(s, i) && InBuffer(C(s, i), p) && m.kind.Some? && p.message == MESSAGE_PLIST
    requires s.wire.dec(p.payload) == Some(m) && !MessageRule(s, i, m, conn)
    ensures var (t, ret) := PlistCommand(s, i, m, p, conn); !Inv(Finish(t, i, ret, p))
  {
    hide Inv, Frame, Route, Connect, Finish, AnySerial, LiveElsewhere, IdOfSerial, Crossed, ServiceRemove,
         ReplyResult, Forward;
    var (t, ret) := PlistCommand(s, i, m, p, conn);
    if PairRecordKind(m.kind) && Nameless(s, m.kind.value, m, conn) {
      NamelessFaults(s, i, m, p, conn);
      FaultStays(t, i, ret, p);
    } else if TakesOwn(s, i, m) {
      RemovalOfOwnUpstream(s, i, Host(m.host.value, m.port.value % 0x1_0000), p.tag, RESULT_OK);
      RemovedFirst(s, Host(m.host.value, m.port.value % 0x1_0000));
      FaultStays(t, i, ret, p);
    } else if m.kind == Some("Connect") {
      OneConnectOnly(s, i, m.device.value % WORD, m, p, conn);
    } else {
      OwnerSmall(s, m);
      var owner := OwnerAsked(s, m).value;
      var first := if m.kind == Some("ReadBUID") then PlistPacket(s.wire, 1, p.tag, OwnRequest("ReadBUID"))
                   else PlistPacket(s.wire, 1, p.tag, if m.kind == Some("SavePairRecord") then m
                                                      else OwnRequest(m.kind.value).(record := m.record));
      OneForwardOnly(s, i, owner, first, conn);
      CrossedStays(s, t, i, p);
    }
  }

  lemma RemovedFirst(s: State, host: Host)
    ensures ServiceRemove(s, None, Some(host)).1 == if FirstNamed(s.remotes, None, Some(host)) < |s.remotes| then 0 else -1
  {
    hide MarkDead;
  }

  lemma OwnerSmall(s: State, m: Message)
    requires Inv(s) && OwnerAsked(s, m).Some? && m.kind != Some("Connect")
    ensures OwnerAsked(s, m).value < 256
  {
    hide Inv, IdOfSerial;
    EntriesOk(s);
    if m.record.Some? {
      IdOfSerialSmall(s.devices, m.record.value);
    }
    if s.devices != [] {
      assert s.devices[0] in s.devices;
    }
  }

  /** A client's packet, handled, leaves the invariant intact if and only if it keeps the rule for clients. */
  lemma CommandRuleExact(s: State, i: nat, p: Packet, conn: Option<int>)
    requires Inv(s) && HasC(s, i) && InBuffer(C(s, i), p)
    ensures var (t, ret) := ClientCommand(s, i, p, conn);
            Inv(Finish(t, i, ret, p)) <==> CommandRule(s, i, p, conn)
  {
    hide Inv, Frame, MessageRule, PlistCommand, Connect, Calm, Finish, Route;
    if CommandRule(s, i, p, conn) {
      ClientCommandKeeps(s, i, p, conn);
    } else if p.message == MESSAGE_PLIST {
      var t, m := SetC(s, i, C(s, i).(version := 1)), s.wire.dec(p.payload).value;
      Spoken(s, i);
      SameRule(s, t, i, m, conn);
      KindNeeded(s, i, m, conn);
      PlistRuleExact(t, i, m, p, conn);
    } else {
      BinaryRuleExact(s, i, p, conn);
    }
  }

  lemma KindNeeded(s: State, i: nat, m: Message, conn: Option<int>)
    requires HasC(s, i) && !MessageRule(s, i, m, conn)
    ensures m.kind.Some?
  {
    hide Route, AnySerial, IdOfSerial;
  }

  lemma BinaryRuleExact(s: State, i: nat, p: Packet, conn: Option<int>)
    requires Inv(s) && HasC(s, i) && InBuffer(C(s, i), p) && p.message == MESSAGE_CONNECT && |p.payload| >= 8
    requires !MessageRule(s, i, BinaryConnect(p), conn)
    ensures !Inv(Finish(Connect(s, i, DecodeWord(p.payload), BinaryConnect(p), p.tag, conn), i, 0, p))
  {
    hide Inv, Frame, Route, Connect, Finish, DecodeWord, AnySerial, LiveElsewhere;
    assert DecodeWord(p.payload) % WORD == DecodeWord(p.payload);
    OneConnectOnly(s, i, DecodeWord(p.payload), BinaryConnect(p), p, conn);
  }

  lemma GoneFaults(s: State, i: nat, tag: nat, result: nat)
    requires !HasC(s, i)
    ensures ReplyResult(s, i, tag, result).fault
  {
  }

  // ---- Listen

  /** A binary or property-list Listen is taken out of the input buffer only when there is no device to announce. */
  lemma ListenConsumed(s: State, i: nat, tag: nat, p: Packet)
    requires Inv(s) && HasC(s, i) && InBuffer(C(s, i), p)
    ensures var (t, ret) := StartListen(s, i, tag);
            && HasC(Finish(t, i, ret, p), i) && C(Finish(t, i, ret, p), i).state == Listen
            && (s.devices == [] <==> C(Finish(t, i, ret, p), i).ib == [])
            && (s.devices != [] <==> C(Finish(t, i, ret, p), i).held)
  {
    hide Inv, Frame, StartListen;
    StartListenKeeps(s, i, tag);
    var (t, ret) := StartListen(s, i, tag);
    assert C(t, i).ib == C(s, i).ib && C(t, i).held && C(t, i).ib != [];
  }

  /** With its Listen still in the buffer, a listening client is closed by any readable event, whatever it sends. */
  lemma HeldListenerIsClosed(s: State, i: nat, io: Io, conn: Option<int>)
    requires Inv(s) && HasC(s, i) && C(s, i).state == Listen && C(s, i).held
    ensures !HasC(ClientRecv(s, i, io, conn), i) && !ClientRecv(s, i, io, conn).fault
  {
    hide Inv, Receive, ClientOk, RemoteOk, PairOk, ResultPacket, ClientClose, ClientCommand;
    ClientFacts(s, i);
    HeldPacket(s.wire, C(s, i), io);
    BusyIs(s, i, Got(C(s, i), []).(held := true), Unframe(C(s, i).ib), conn);
    ClientCloseIs(s, i);
    NotFaulty(ClientClose(s, i));
  }

  lemma HeldPacket(w: Codec, c: Client, io: Io)
    requires ClientOk(w, c) && c.state == Listen && c.held
    ensures |c.ib| >= HEADER && !c.ibFreed && Receive(c.ib, CLIENT_IB, io) == Ready([], Unframe(c.ib))
    ensures !c.obFreed && |c.ob| <= c.obCap
  {
    WholeIsReady(c.ib, io);
  }

  lemma WholeIsReady(ib: seq<byte>, io: Io)
    requires Whole(ib) && |ib| <= CLIENT_IB
    ensures Receive(ib, CLIENT_IB, io) == Ready([], Unframe(ib))
  {
    assert ib[..|ib|] == ib;
  }

  /**
   Why clients are dispatched before upstreams: at the moment an upstream's answer moves its
   client on, the client's mask of the current iteration still asks for input; delivering that
   event afterwards would read into the freed buffer. Before the answer, it is harmless.
   */
  lemma OrderMatters(s: State, i: nat, answer: Io, io: Io, conn: Option<int>)
    requires Inv(s) && HasC(s, i) && Accepts(s, i, answer) && ReceiveRule(s, i, io, conn)
    ensures var readable := Revents(true, false, false, false);
            && C(s, i).events.pin
            && ClientProcess(RemoteRecv(s, C(s, i).remote.value, answer), C(s, i).fd, readable, io, conn).fault
            && !ClientProcess(s, C(s, i).fd, readable, io, conn).fault
  {
    var readable := Revents(true, false, false, false);
    hide Inv, ClientOk, RemoteOk, PairOk, Receive, ReceiveRule, RemoteRecv, ClientProcess, ResultOf, NotifyConnect;
    ClientFacts(s, i);
    WaitsForInput(s.wire, C(s, i));
    var j := C(s, i).remote.value;
    var a := Receive(R(s, j).ib, REMOTE_IB, answer);
    PairAnswer(s, j, answer, i, a.packet, a.data);
    AnsweredClient(s.wire, C(s, i));
    ConnectAnswer(s, j, answer);
    LateInput(RemoteRecv(s, j, answer), i, readable, io, conn);
    OneFd(s);
    ClientProcessKeeps(s, C(s, i).fd, readable, io, conn);
    NotFaulty(ClientProcess(s, C(s, i).fd, readable, io, conn));
  }

  lemma WaitsForInput(w: Codec, c: Client)
    requires ClientOk(w, c) && !Handed(c)
    ensures c.events.pin && !c.obFreed && |c.ob| <= c.obCap
  {
  }

  /** Input delivered to a client whose input buffer is gone. */
  lemma LateInput(t: State, i: nat, readable: Revents, io: Io, conn: Option<int>)
    requires Inv(t) && HasC(t, i) && C(t, i).ibFreed && C(t, i).state == Connecting2 && readable.pin
    ensures ClientProcess(t, C(t, i).fd, readable, io, conn).fault
  {
    hide Inv;
    OneFd(t);
    var k := FindClient(t.clients, C(t, i).fd);
    assert HasC(t, k) && k == i;
  }

  // ---- the event that makes the loop come round to reap

  /** A live upstream asks for output. */
  ghost predicate Armed(s: State) { exists j: nat :: HasR(s, j) && R(s, j).state != RDead && R(s, j).events.pout }

  /** Marking an id dead leaves such an upstream, or nothing to reap. */
  lemma DeathArms(s: State, j: nat)
    requires Inv(s) && HasR(s, j)
    ensures Armed(MarkDead(s, j)) || AllEmpty(MarkDead(s, j).remotes)
  {
    hide Inv, MarkDead, Calm;
    MarkDeadIs(s, j);
    if LiveElsewhere(s.remotes, R(s, j).id) {
      var k: nat :| DeadMarked(s, MarkDead(s, j), R(s, j).id, k);
      assert HasR(MarkDead(s, j), k);
    }
  }

  /** A client that closes takes that event away if and only if its own upstream was the only one armed. */
  lemma ArmedLost(s: State, i: nat)
    requires Inv(s) && HasC(s, i)
    ensures Armed(ClientClose(s, i)) <==>
              exists j: nat :: HasR(s, j) && R(s, j).state != RDead && R(s, j).events.pout && C(s, i).remote != Some(j)
  {
    hide Inv, ClientClose, Without;
    ClientCloseIs(s, i);
    RestWithout(s, Some(i), C(s, i).remote);
    var t := ClientClose(s, i);
    if j: nat :| HasR(t, j) && R(t, j).state != RDead && R(t, j).events.pout {
      assert HasR(s, j) && C(s, i).remote != Some(j) by { GoneFrom(s, i, j); }
    }
  }

  lemma GoneFrom(s: State, i: nat, j: nat)
    requires HasC(s, i) && Matched(s, Some(i), C(s, i).remote) && HasR(Without(s, Some(i), C(s, i).remote), j)
    ensures HasR(s, j) && C(s, i).remote != Some(j)
  {
  }

  // ---- the id of a connection made for a forwarded request

  /** A forwarded request's connection goes to the upstream asked for, but its id is 0 whatever the id of that upstream. */
  lemma ForwardedId(s: State, i: nat, owner: nat, first: Packet, conn: Option<int>)
    requires HasC(s, i) && Route(s, owner).Some? && Fresh(s, conn)
    ensures var t, n := Forward(s, i, owner, first, conn).0, FirstEmpty(s.remotes);
            && HasR(t, n) && R(t, n).client == Some(i) && Some(R(t, n).peer) == Route(s, owner)
            && R(t, n).id == 0 && (R(t, n).id == owner <==> owner == 0)
  {
    hide Route, AddSlot, FirstEmpty, Frame, Grown;
    var q := NewRemote(conn.value, Route(s, owner).value, first).(last := Forwarded, client := Some(i));
    AddedRemote(s, Forward(s, i, owner, first, conn).0, q);
  }

  ghost predicate LiveAt(s: State, k: nat) { HasR(s, k) && R(s, k).state != RDead }

  /** A death is survived by exactly the upstreams with another id. */
  lemma DeathSpares(s: State, n: nat, k: nat)
    requires Inv(s) && HasR(s, n) && LiveAt(s, k)
    ensures LiveAt(MarkDead(s, n), k) <==> R(s, k).id != R(s, n).id
  {
    hide Inv, MarkDead, Calm;
    MarkDeadIs(s, n);
    var t, id := MarkDead(s, n), R(s, n).id;
    if LiveElsewhere(s.remotes, id) {
      var m: nat :| DeadMarked(s, t, id, m);
    } else {
      assert HasR(s, k) && s.remotes[k].Full?;
    }
  }

  lemma NoneLeft(s: State, n: nat, k: nat)
    requires Inv(s) && HasR(s, n) && LiveAt(MarkDead(s, n), k)
    ensures R(MarkDead(s, n), k).id != R(s, n).id
  {
    hide Inv, MarkDead, Calm;
    MarkDeadIs(s, n);
    var t, id := MarkDead(s, n), R(s, n).id;
    if LiveElsewhere(s.remotes, id) {
      var m: nat :| DeadMarked(s, t, id, m);
    }
  }

  /** And the devices of that id are gone once the dead have been reaped. */
  lemma DeathWithdraws(s: State, n: nat, fd: int, invalid: bool)
    requires Inv(s) && HasR(s, n)
    ensures forall e | e in Reap(MarkDead(s, n), 0, fd, invalid, None).0.devices :: OwnerOf(e.id) != R(s, n).id
  {
    hide Inv, MarkDead, Calm, Reap, Spares, LiveElsewhere;
    var t := MarkDead(s, n);
    MarkDeadIs(s, n);
    ReapIs(t, 0, fd, invalid, None);
    var u := Reap(t, 0, fd, invalid, None).0;
    forall e | e in u.devices
      ensures OwnerOf(e.id) != R(s, n).id
    {
      StillOwned(u, e);
      var k: nat :| HasR(u, k) && Owner(R(u, k), OwnerOf(e.id));
      assert LiveAt(t, k) && R(u, k) == R(t, k);
      NoneLeft(s, n, k);
    }
  }

  /**
   The end of a connection with id 0, such as one made for a forwarded request, is survived by all
   listeners that are alive if and only if the local one is not among them.
   */
  lemma ForwardedDeath(s: State, n: nat)
    requires Inv(s) && HasR(s, n) && R(s, n).id == 0
    ensures (forall k: nat | LiveAt(s, k) && R(s, k).listener :: LiveAt(MarkDead(s, n), k)) <==>
            (forall k: nat | LiveAt(s, k) && R(s, k).listener :: R(s, k).peer != Local)
  {
    hide Inv, MarkDead, ClientsOk, RemotesOk, FdsOk, TableOk;
    InvParts(s);
    forall k: nat | LiveAt(s, k) && R(s, k).listener
      ensures LiveAt(MarkDead(s, n), k) <==> R(s, k).peer != Local
    {
      DeathSpares(s, n, k);
      assert IdentityOk(s.used, R(s, k));
    }
  }

  // ---- a failed send on a connected upstream

  /**
   The relay half of `usbmux_remote_process` as it is written: after a failed send has closed the
   pair, the client pointer of the freed upstream is read all the same.
   */
  function RelayRemoteAsWritten(s: State, j: nat, ev: Revents, io: Io): State
    requires HasR(s, j)
  {
    if !ev.pin && ev.pout then
      var (t, alive) := RemoteSend(s, j, io);
      if alive then OrClient(t, R(s, j).client, Mask(true, false)) else Fault(t)
    else RelayRemote(s, j, ev, io)
  }

  function RemoteProcessAsWritten(s: State, fd: int, ev: Revents, io: Io): State {
    var (t, found) := Reap(s, 0, fd, ev == Revents(false, false, false, true), None);
    if found.Some? && HasR(t, found.value) && R(t, found.value).state == RConnected
    then RelayRemoteAsWritten(t, found.value, ev, io) else RemoteProcess(s, fd, ev, io)
  }

  /** An event that only allows output, on a connected upstream with bytes queued, and a send that takes none of them. */
  predicate FailsToRelay(r: Remote, ev: Revents, io: Io) {
    r.state == RConnected && !ev.pin && ev.pout && r.ob != [] && Accepted(io, |r.ob|) == 0
  }

  /** The access to the freed upstream happens exactly then; in every other case the code does what the model does. */
  lemma FailedRelaySend(s: State, fd: int, ev: Revents, io: Io)
    requires Inv(s) && (ev.pin ==> EventRule(s, fd, io))
    ensures var (t, found) := Reap(s, 0, fd, ev == Revents(false, false, false, true), None);
            RemoteProcessAsWritten(s, fd, ev, io).fault <==>
              found.Some? && HasR(t, found.value) && FailsToRelay(R(t, found.value), ev, io)
    ensures var t := RemoteProcessAsWritten(s, fd, ev, io);
            !t.fault ==> t == RemoteProcess(s, fd, ev, io)
  {
    var invalid := ev == Revents(false, false, false, true);
    var (t, found) := Reap(s, 0, fd, invalid, None);
    ReapIs(s, 0, fd, invalid, None);
    hide Inv, Reap, RelayRemote, RemoteRecv, EventRule, RelayRemoteAsWritten, Scanned, Calm;
    RemoteProcessKeeps(s, fd, ev, io);
    NotFaulty(RemoteProcess(s, fd, ev, io));
    if found.Some? && HasR(t, found.value) && R(t, found.value).state == RConnected {
      RelayAsWritten(t, found.value, ev, io);
    }
  }

  lemma RelayAsWritten(s: State, j: nat, ev: Revents, io: Io)
    requires Inv(s) && HasR(s, j) && R(s, j).state == RConnected
    ensures RelayRemoteAsWritten(s, j, ev, io).fault <==> FailsToRelay(R(s, j), ev, io)
    ensures !FailsToRelay(R(s, j), ev, io) ==> RelayRemoteAsWritten(s, j, ev, io) == RelayRemote(s, j, ev, io)
  {
    hide Inv, UpstreamClose, RemoteSent, OrClient;
    RelayRemoteKeeps(s, j, ev, io);
    NotFaulty(RelayRemote(s, j, ev, io));
  }
}
