/** Every socket event of an upstream keeps the invariant. */
module RemoteEvents {
  import opened Base
  import opened Wire
  import opened DeviceTable
  import opened Protocol
  import opened Connections
  import opened Collections
  import opened Multiplexer
  import opened Invariant
  import opened Steps
  import opened Upkeep
  import opened Teardown
  import opened Reaping
  import opened ClientEvents
  import DeviceKey

  lemma RemoteFacts(s: State, j: nat)
    requires Inv(s) && HasR(s, j)
    ensures RemoteOk(s.wire, R(s, j)) && Lossless(s.wire) && R(s, j).id < 256
    ensures R(s, j).client.Some? ==>
              && HasC(s, R(s, j).client.value) && C(s, R(s, j).client.value).remote == Some(j)
              && ClientOk(s.wire, C(s, R(s, j).client.value)) && ViewOk(s, C(s, R(s, j).client.value))
              && PairOk(C(s, R(s, j).client.value), R(s, j))
  {
    hide ClientOk, RemoteOk, PairOk, FdsOk, TableOk, Apart;
    assert RemotesOk(s) && ClientsOk(s) && ListenersOk(s);
    assert IdentityOk(s.used, R(s, j));
  }

  // ---- the rule for upstreams

  predicate NeedsDevice(w: Codec, p: Packet) {
    && p.message == MESSAGE_PLIST && w.dec(p.payload).Some?
    && w.dec(p.payload).value.kind == Some("Attached")
  }

  /**
   Announced devices carry a DeviceID and come as property lists; and an upstream answers Listen
   only after it has read all of it.
   */
  predicate AnswerRule(w: Codec, r: Remote, p: Packet) {
    && (r.state == RListen ==> p.message != MESSAGE_DEVICE_ADD)
    && (r.state == RListen && NeedsDevice(w, p) ==> w.dec(p.payload).value.device.Some?)
    && (r.state == RCommand && r.last == ListenCmd && ResultOf(w, p) == RESULT_OK ==> r.ob == [])
  }

  predicate AnswersRule(w: Codec, r: Remote, io: Io) {
    var rc := Receive(r.ib, REMOTE_IB, io);
    r.state != RConnected && r.state != RDead && rc.Ready? ==> AnswerRule(w, r, rc.packet)
  }

  // ---- announcements of an upstream

  /** The packet announces the device with that number of the sender, described by m. */
  predicate Attaches(w: Codec, p: Packet, m: Message, device: nat) {
    && (p.version == 0 || p.version == 1) && p.message == MESSAGE_PLIST
    && w.dec(p.payload) == Some(m) && m.kind == Some("Attached") && m.device == Some(device)
  }

  /** The packet withdraws the device with that number of the sender. */
  predicate Detaches(w: Codec, p: Packet, device: nat) {
    && (p.version == 0 || p.version == 1)
    && if p.message == MESSAGE_PLIST
       then w.dec(p.payload).Some? && w.dec(p.payload).value.kind == Some("Detached")
            && w.dec(p.payload).value.device == Some(device)
       else p.message == MESSAGE_DEVICE_REMOVE && |p.payload| >= 4 && DecodeWord(p.payload) == device
  }

  /** The id under which an upstream's device is shown. */
  function ShownAs(owner: nat, device: nat): nat { DeviceKey.Renamed(owner, device % WORD) }

  /** u is t with e as its only entry of that id. */
  ghost predicate Files(t: Table<Message>, e: Entry<Message>, u: Table<Message>) {
    forall x :: x in u <==> x == e || (x in t && x.id != e.id)
  }

  /** u is t without the entry of that id. */
  ghost predicate Drops(t: Table<Message>, id: nat, u: Table<Message>) {
    forall x :: x in u <==> x in t && x.id != id
  }

  /** The table has taken in what an upstream's packet says, and nothing else. */
  ghost predicate Recorded(s: State, owner: nat, p: Packet, t: State) {
    && (forall m, device | Attaches(s.wire, p, m, device) ::
          Files(s.devices, Entry(ShownAs(owner, device), Stored(m, ShownAs(owner, device))), t.devices))
    && (forall device | Detaches(s.wire, p, device) :: Drops(s.devices, ShownAs(owner, device), t.devices))
    && (NoteOf(s.wire, owner, p).None? || (p.version != 0 && p.version != 1) ==> t.devices == s.devices)
  }

  /** The change of the table a packet that announces or withdraws a device stands for. */
  lemma NoteIs(w: Codec, owner: nat, p: Packet, m: Message, device: nat)
    ensures Attaches(w, p, m, device) ==>
              NoteOf(w, owner, p) == Some(Attached(Entry(ShownAs(owner, device), Stored(m, ShownAs(owner, device)))))
    ensures Detaches(w, p, device) ==> NoteOf(w, owner, p) == Some(Detached(ShownAs(owner, device)))
  {
    hide Stored, DeviceKey.Renamed, DecodeWord;
    if Detaches(w, p, device) && p.message != MESSAGE_PLIST {
      WordBound(p.payload);
    }
  }

  lemma WordBound(b: seq<byte>)
    requires |b| >= 4
    ensures DecodeWord(b) % WORD == DecodeWord(b)
  {
  }

  lemma RecordedNote(s: State, owner: nat, p: Packet, t: State)
    requires DistinctKeys(s.devices)
    requires var n := NoteOf(s.wire, owner, p);
             t.devices == if (p.version == 0 || p.version == 1) && n.Some? then Apply(s.devices, n.value) else s.devices
    ensures Recorded(s, owner, p, t)
  {
    hide NoteOf, ShownAs, Stored, Attaches, Detaches, Put, Del, DistinctKeys;
    forall m, device | Attaches(s.wire, p, m, device)
      ensures Files(s.devices, Entry(ShownAs(owner, device), Stored(m, ShownAs(owner, device))), t.devices)
    {
      NoteIs(s.wire, owner, p, m, device);
      assert p.version == 0 || p.version == 1 by { VersionKnown(s.wire, p, m, device); }
      PutMembers(s.devices, Entry(ShownAs(owner, device), Stored(m, ShownAs(owner, device))));
    }
    forall device | Detaches(s.wire, p, device)
      ensures Drops(s.devices, ShownAs(owner, device), t.devices)
    {
      NoteIs(s.wire, owner, p, NO_ITEMS, device);
      assert p.version == 0 || p.version == 1 by { VersionKnown(s.wire, p, NO_ITEMS, device); }
      DelMembers(s.devices, ShownAs(owner, device));
    }
  }

  lemma VersionKnown(w: Codec, p: Packet, m: Message, device: nat)
    requires Attaches(w, p, m, device) || Detaches(w, p, device)
    ensures p.version == 0 || p.version == 1
  {
  }

  /** What an upstream announces is filed under its own id. */
  lemma NoteOfIs(w: Codec, r: Remote, p: Packet)
    requires r.state == RListen && r.id < 256 && AnswerRule(w, r, p)
    ensures var n := NoteOf(w, r.id, p);
            n.Some? ==> NoteOk(n.value) && (n.value.Attached? ==> OwnerOf(n.value.entry.id) == r.id)
  {
    if p.message == MESSAGE_PLIST && w.dec(p.payload).Some? && w.dec(p.payload).value.device.Some? {
      DeviceKey.RenamedKey(r.id, w.dec(p.payload).value.device.value % WORD);
    }
    if p.message == MESSAGE_DEVICE_REMOVE && |p.payload| >= 4 {
      DeviceKey.RenamedKey(r.id, DecodeWord(p.payload));
    }
  }

  /** A dispatched announcement: the table and the listeners change, and the packet is done with. */
  lemma AnnounceApart(s: State, j: nat, q: Remote, n: Note<Message>, p: Packet)
    requires HasR(s, j)
    ensures SetR(Announce(SetR(s, j, q), n), j, Consumed(q, p)) == SetR(Announce(s, n), j, Consumed(q, p))
  {
    hide Consumed;
    assert s.remotes[j := Full(q)][j := Full(Consumed(q, p))] == s.remotes[j := Full(Consumed(q, p))];
  }

  lemma ListenerAnswer(s: State, j: nat, io: Io, data: seq<byte>, p: Packet)
    requires HasR(s, j) && R(s, j).state == RListen && Receive(R(s, j).ib, REMOTE_IB, io) == Ready(data, p)
    ensures var q, n := RemoteGot(R(s, j), data), NoteOf(s.wire, R(s, j).id, p);
            RemoteRecv(s, j, io) ==
              SetR(if (p.version == 0 || p.version == 1) && n.Some? then Announce(s, n.value) else s, j, Consumed(q, p))
  {
    hide Receive, NoteOf, Announce, Consumed;
    var q, n := RemoteGot(R(s, j), data), NoteOf(s.wire, R(s, j).id, p);
    SetTwice(s, j, q, Consumed(q, p));
    if (p.version == 0 || p.version == 1) && n.Some? {
      AnnounceApart(s, j, q, n.value, p);
      AnnounceRemotes(SetR(s, j, q), n.value);
      AnnounceRemotes(s, n.value);
    }
  }

  /** What a listening upstream says enters the table, under the sender's own id, whether or not it keeps the rule. */
  lemma ListenerRecorded(s: State, j: nat, io: Io)
    requires Inv(s) && HasR(s, j) && R(s, j).state == RListen && Receive(R(s, j).ib, REMOTE_IB, io).Ready?
    ensures Recorded(s, R(s, j).id, Receive(R(s, j).ib, REMOTE_IB, io).packet, RemoteRecv(s, j, io))
  {
    hide Inv, Receive, Announce, AnswerRule, NoteOf, ClientOk, RemoteOk, PairOk, Lossless, RemoteRecv, Recorded, Consumed;
    var rc := Receive(R(s, j).ib, REMOTE_IB, io);
    RemoteFacts(s, j);
    ListenerAnswer(s, j, io, rc.data, rc.packet);
    var n := NoteOf(s.wire, R(s, j).id, rc.packet);
    if n.Some? {
      AnnouncedTable(s, n.value);
    }
    assert DistinctKeys(s.devices) by { InvParts(s); }
    RecordedNote(s, R(s, j).id, rc.packet, RemoteRecv(s, j, io));
  }

  /**
   A packet of a listening upstream: the table takes in what it says, and every listening client is
   told, so that the invariant, with the views of the clients, holds of the new table.
   */
  lemma ListenerTold(s: State, j: nat, io: Io)
    requires Inv(s) && HasR(s, j) && R(s, j).state == RListen && AnswersRule(s.wire, R(s, j), io)
    requires Receive(R(s, j).ib, REMOTE_IB, io).Ready?
    ensures Inv(RemoteRecv(s, j, io)) && Calm(s, RemoteRecv(s, j, io))
    ensures Recorded(s, R(s, j).id, Receive(R(s, j).ib, REMOTE_IB, io).packet, RemoteRecv(s, j, io))
  {
    ListenerRecorded(s, j, io);
    hide Recorded;
    hide Inv, Calm, Receive, Announce, RemoteStreams, RemoteBuffers, AnswerRule, NoteOf, ClientOk, PairOk,
        Lossless, RemoteRecv;
    var r := R(s, j);
    var rc := Receive(r.ib, REMOTE_IB, io);
    var p, q := rc.packet, RemoteGot(r, rc.data);
    RemoteFacts(s, j);
    ConsumedOk(s.wire, r, io, q);
    ListenerAnswer(s, j, io, rc.data, p);
    var n := NoteOf(s.wire, r.id, p);
    assert r.client.None?;
    hide RemoteOk, RemoteStates;
    if (p.version == 0 || p.version == 1) && n.Some? {
      NoteOfIs(s.wire, r, p);
      assert Owned(s, r.id) by { assert Owner(R(s, j), r.id); }
      AnnounceKeeps(s, n.value);
      var t := Announce(s, n.value);
      hide OnlyTold;
      AnnounceRemotes(s, n.value);
      AnnounceWire(s, n.value);
      SetRemote(t, j, Consumed(q, p));
      CalmTransitive(s, t, SetR(t, j, Consumed(q, p)));
    } else {
      SetRemote(s, j, Consumed(q, p));
    }
  }

  lemma AnnounceWire(s: State, n: Note<Message>)
    ensures Announce(s, n).wire == s.wire
  {
  }

  lemma AnnounceRemotes(s: State, n: Note<Message>)
    ensures Announce(s, n).remotes == s.remotes
  {
  }

  lemma SetTwice(s: State, j: nat, q: Remote, r: Remote)
    requires HasR(s, j)
    ensures SetR(SetR(s, j, q), j, r) == SetR(s, j, r)
  {
  }

  // ---- answers of the other upstreams

  lemma QuietIs(s: State, j: nat, io: Io, data: seq<byte>, p: Packet)
    requires HasR(s, j) && R(s, j).state in {RCommand, RConnecting1} && Receive(R(s, j).ib, REMOTE_IB, io) == Ready(data, p)
    requires (p.version != 0 && p.version != 1) || (R(s, j).state == RCommand && R(s, j).last != Forwarded)
    ensures var r, g := R(s, j), RemoteGot(R(s, j), data);
            var q := if (p.version == 0 || p.version == 1) && r.last == ListenCmd && ResultOf(s.wire, p) == RESULT_OK
                     then g.(state := RListen) else g;
            RemoteRecv(s, j, io) == SetR(s, j, Consumed(q, p))
  {
    hide Receive, ResultOf, Consumed, Announce, PassOn, NotifyConnect;
    var g := RemoteGot(R(s, j), data);
    SetTwice(s, j, g, g.(state := RListen));
    SetTwice(s, j, g, Consumed(g, p));
    SetTwice(s, j, g, Consumed(g.(state := RListen), p));
    SetTwice(s, j, g.(state := RListen), Consumed(g.(state := RListen), p));
  }

  /** The packet is dropped, or only moves a listener into the listening state. */
  lemma QuietAnswer(s: State, j: nat, io: Io)
    requires Inv(s) && HasR(s, j) && R(s, j).state != RConnected && R(s, j).state != RDead && R(s, j).state != RListen
    requires AnswersRule(s.wire, R(s, j), io) && Receive(R(s, j).ib, REMOTE_IB, io).Ready?
    requires var r, p := R(s, j), Receive(R(s, j).ib, REMOTE_IB, io).packet;
             (p.version != 0 && p.version != 1) || (r.state == RCommand && r.last != Forwarded)
    ensures Inv(RemoteRecv(s, j, io)) && Calm(s, RemoteRecv(s, j, io))
  {
    var r := R(s, j);
    var rc := Receive(r.ib, REMOTE_IB, io);
    var p, g := rc.packet, RemoteGot(r, rc.data);
    RemoteFacts(s, j);
    hide Inv, Calm, Receive, RemoteStreams, RemoteBuffers, ClientOk, Lossless, ResultOf, RemoteRecv;
    QuietIs(s, j, io, rc.data, p);
    var q := if (p.version == 0 || p.version == 1) && r.last == ListenCmd && ResultOf(s.wire, p) == RESULT_OK
             then g.(state := RListen) else g;
    ConsumedOk(s.wire, r, io, q);
    hide RemoteOk;
    assert q.client.Some? ==> PairOk(C(s, q.client.value), Consumed(q, p));
    hide RemoteStates;
    SetRemote(s, j, Consumed(q, p));
  }

  lemma ConsumedSame(r: Remote, q: Remote, p: Packet)
    requires exists data :: q == RemoteGot(r, data)
    ensures var x := Consumed(q, p);
            SameRemote(r, x) && StaysOwner(r, x) && x.state == r.state && x.asked == r.asked && x.up == r.up
                && x.down == r.down && x.rawMode == r.rawMode
  {
  }

  lemma PassedOn(w: Codec, c: Client, r: Remote, q: Remote, p: Packet)
    requires ClientOk(w, c) && PairOk(c, r) && RemoteStates(r) && r.state == RCommand && WellSized(p)
    requires q.state == r.state && q.id == r.id && q.asked == r.asked && q.up == r.up && q.down == r.down
             && q.rawMode == r.rawMode
    ensures !c.obFreed && |c.ob| <= c.obCap && ClientOk(w, PassOn(w, c, p)) && PairOk(PassOn(w, c, p), q)
    ensures SameClient(c, PassOn(w, c, p)) && PassOn(w, c, p).state == c.state && PassOn(w, c, p).notes == c.notes
  {
    PassOnOk(w, c, p);
  }

  /** What dispatching a packet comes to when it concerns the pair alone. */
  lemma PairAnswer(s: State, j: nat, io: Io, i: nat, p: Packet, data: seq<byte>)
    requires HasR(s, j) && Receive(R(s, j).ib, REMOTE_IB, io) == Ready(data, p) && (p.version == 0 || p.version == 1)
    requires R(s, j).client == Some(i) && HasC(s, i) && !C(s, i).obFreed && |C(s, i).ob| <= C(s, i).obCap
    ensures R(s, j).state == RCommand && R(s, j).last == Forwarded ==>
              RemoteRecv(s, j, io) == SetR(SetC(s, i, PassOn(s.wire, C(s, i), p)), j, Consumed(RemoteGot(R(s, j), data), p))
    ensures R(s, j).state == RConnecting1 ==>
              var result := ResultOf(s.wire, p);
              RemoteRecv(s, j, io) == SetR(SetC(s, i, NotifyConnect(s.wire, C(s, i), result)), j,
                                           Consumed(ConnectAnswered(RemoteGot(R(s, j), data), result), p))
  {
    hide Receive, PassOn, NotifyConnect, ResultOf, Consumed, Announce;
    var g := RemoteGot(R(s, j), data);
    assert SetR(s, j, g).clients == s.clients;
    assert forall x: Remote, y: Remote :: s.remotes[j := Full(x)][j := Full(y)] == s.remotes[j := Full(y)];
    hide ConnectAnswered;
  }

  /** An upstream's answer to a forwarded request reaches the client's queue unchanged. */
  lemma ForwardedAnswer(s: State, j: nat, io: Io)
    requires Inv(s) && HasR(s, j) && R(s, j).state == RCommand && R(s, j).last == Forwarded
    requires Receive(R(s, j).ib, REMOTE_IB, io).Ready?
    requires var p := Receive(R(s, j).ib, REMOTE_IB, io).packet; p.version == 0 || p.version == 1
    ensures Inv(RemoteRecv(s, j, io)) && Calm(s, RemoteRecv(s, j, io))
    ensures R(s, j).client.Some? && HasC(s, R(s, j).client.value)
    ensures var i, p, t := R(s, j).client.value, Receive(R(s, j).ib, REMOTE_IB, io).packet, RemoteRecv(s, j, io);
            HasC(t, i) && C(t, i).out == C(s, i).out + [p] && C(t, i).tx + C(t, i).ob == C(s, i).tx + C(s, i).ob + Frame(p)
  {
    hide Inv, Calm, Receive, RemoteStreams, RemoteBuffers, ClientMasks, ClientStreams, ClientNotes, Lossless,
        PassOn, RemoteRecv, Consumed;
    var r := R(s, j);
    var rc := Receive(r.ib, REMOTE_IB, io);
    var p, g := rc.packet, RemoteGot(r, rc.data);
    RemoteFacts(s, j);
    var i := r.client.value;
    var c := C(s, i);
    ConsumedOk(s.wire, r, io, g);
    assert RemoteStates(r);
    ConsumedSame(r, g, p);
    PassedOn(s.wire, c, r, Consumed(g, p), p);
    PairAnswer(s, j, io, i, p, rc.data);
    PassedWhole(s.wire, c, p);
    hide RemoteOk, ClientOk, PairOk, Replay, RemoteStates;
    SetPair(s, i, PassOn(s.wire, c, p), j, Consumed(g, p));
  }

  lemma PassedWhole(w: Codec, c: Client, p: Packet)
    requires |c.ob| <= c.obCap
    ensures var d := PassOn(w, c, p); d.out == c.out + [p] && d.tx + d.ob == c.tx + c.ob + Frame(p)
  {
    FrameSplit(p);
    hide Frame, Grown;
    assert (c.ob + Frame(p)[..HEADER]) + p.payload == c.ob + Frame(p);
    assert c.tx + (c.ob + Frame(p)) == c.tx + c.ob + Frame(p);
  }

  lemma Notified(w: Codec, c: Client, r: Remote, result: nat, q: Remote, p: Packet)
    requires Lossless(w) && ClientOk(w, c) && RemoteOk(w, r) && PairOk(c, r) && r.state == RConnecting1
    requires q.ob == r.ob && q.up == r.up && q.down == r.down && q.rawMode == r.rawMode && q.state == r.state
             && q.id == r.id && q.asked == r.asked && q.events == r.events
    ensures var d := NotifyConnect(w, c, result);
            && ClientOk(w, d) && PairOk(d, Consumed(ConnectAnswered(q, result), p))
            && SameClient(c, d) && d.notes == c.notes && (d.state == Listen <==> c.state == Listen)
            && !c.obFreed && |c.ob| <= c.obCap
  {
    if c.state == Connecting1 {
      NotifyOk(w, c, result);
    }
    NotifyPair(w, c, r, result, q, p);
    hide Frame, Frames, Grown, ResultPacket, ReadNotes, ProjectNotes, ConnectRequest;
  }

  /** The answer to Connect moves both ends of the pair in one step. */
  lemma ConnectAnswer(s: State, j: nat, io: Io)
    requires Inv(s) && HasR(s, j) && R(s, j).state == RConnecting1
    requires Receive(R(s, j).ib, REMOTE_IB, io).Ready?
    requires var p := Receive(R(s, j).ib, REMOTE_IB, io).packet; p.version == 0 || p.version == 1
    ensures Inv(RemoteRecv(s, j, io))
  {
    hide Inv, Calm, Receive, RemoteStreams, RemoteBuffers, ClientMasks, ClientStreams, ClientNotes,
         Lossless, NotifyConnect, ResultOf, RemoteRecv, Consumed;
    var r := R(s, j);
    var rc := Receive(r.ib, REMOTE_IB, io);
    var p, g := rc.packet, RemoteGot(r, rc.data);
    RemoteFacts(s, j);
    var i := r.client.value;
    var c, result := C(s, i), ResultOf(s.wire, p);
    var q := ConnectAnswered(g, result);
    ConsumedOk(s.wire, r, io, q);
    Notified(s.wire, c, r, result, g, p);
    PairAnswer(s, j, io, i, p, rc.data);
    AnsweredSame(r, g, result, p);
    hide RemoteOk, ClientOk, PairOk, Replay, RemoteStates, ConnectAnswered;
    SetPair(s, i, NotifyConnect(s.wire, c, result), j, Consumed(q, p));
  }

  lemma AnsweredSame(r: Remote, g: Remote, result: nat, p: Packet)
    requires r.state == RConnecting1 && exists data :: g == RemoteGot(r, data)
    ensures var x := Consumed(ConnectAnswered(g, result), p); SameRemote(r, x) && StaysOwner(r, x)
  {
  }

  lemma RemoteRecvKeeps(s: State, j: nat, io: Io)
    requires Inv(s) && HasR(s, j) && R(s, j).state != RConnected && R(s, j).state != RDead
    requires AnswersRule(s.wire, R(s, j), io)
    ensures Inv(RemoteRecv(s, j, io))
  {
    var r := R(s, j);
    RemoteFacts(s, j);
    hide Inv, Calm, MarkDead, Receive, HandleResult, RemoteStreams, RemoteBuffers, ClientOk, Lossless, PairOk, AnswersRule;
    match Receive(r.ib, REMOTE_IB, io)
    case Gone => MarkDeadIs(s, j);
    case BadLength(data) => BadKeeps(s, j, io);
    case More(data) =>
      RemoteGotOk(s.wire, r, io);
      GotPair(r, data);
      hide RemoteOk;
      SetRemote(s, j, RemoteGot(r, data));
    case Ready(data, p) =>
      if r.state == RListen {
        ListenerTold(s, j, io);
      } else if (p.version != 0 && p.version != 1) || (r.state == RCommand && r.last != Forwarded) {
        QuietAnswer(s, j, io);
      } else if r.state == RCommand {
        ForwardedAnswer(s, j, io);
      } else {
        ConnectAnswer(s, j, io);
      }
  }

  lemma GotPair(r: Remote, data: seq<byte>)
    requires r.state != RConnected && !r.rawMode
    ensures SameRemote(r, RemoteGot(r, data)) && StaysOwner(r, RemoteGot(r, data))
    ensures forall c | PairOk(c, r) && r.state != RDead :: PairOk(c, RemoteGot(r, data))
    ensures forall c | PairOk(c, r) && r.state != RDead :: PairOk(c, RemoteGot(r, data).(state := RDead))
  {
  }

  lemma BadKeeps(s: State, j: nat, io: Io)
    requires Inv(s) && HasR(s, j) && R(s, j).state != RConnected && R(s, j).state != RDead
    requires Receive(R(s, j).ib, REMOTE_IB, io).BadLength?
    ensures Inv(RemoteRecv(s, j, io))
  {
    hide Inv, Calm, MarkDead, Receive, RemoteOk, ClientOk, PairOk, Lossless, Spares, LiveElsewhere, RemoteRecv;
    var r := R(s, j);
    var data := Receive(r.ib, REMOTE_IB, io).data;
    RemoteFacts(s, j);
    NotRaw(s.wire, r);
    var q := RemoteGot(r, data);
    RemoteBadOk(s.wire, r, io);
    GotPair(r, data);
    SetRemote(s, j, q.(state := RDead));
    MarkDeadForgets(s, j, q);
    MarkDeadIs(SetR(s, j, q.(state := RDead)), j);
    BadIs(s, j, io);
  }

  lemma NotRaw(w: Codec, r: Remote)
    requires RemoteOk(w, r) && r.state != RConnected && r.state != RDead
    ensures !r.rawMode
  {
    hide RemoteStreams, RemoteBuffers;
  }

  lemma BadIs(s: State, j: nat, io: Io)
    requires HasR(s, j) && Receive(R(s, j).ib, REMOTE_IB, io).BadLength?
    ensures RemoteRecv(s, j, io) == MarkDead(SetR(s, j, RemoteGot(R(s, j), Receive(R(s, j).ib, REMOTE_IB, io).data)), j)
  {
    hide Receive, MarkDead;
  }

  // ---- sending and relaying

  lemma Quieted(w: Codec, r: Remote)
    requires RemoteOk(w, r) && r.ob == []
    ensures var q := r.(events := r.events.(pout := false)); RemoteOk(w, q)
    ensures r.state != RConnected && r.state != RDead ==>
              forall c | PairOk(c, r) :: PairOk(c, r.(events := r.events.(pout := false)))
  {
    hide Frame, Frames, ResultOf;
  }

  lemma SentRemote(w: Codec, r: Remote, n: nat)
    requires RemoteOk(w, r) && 0 < n <= |r.ob|
    ensures RemoteOk(w, RemoteSent(r, n)) && SameRemote(r, RemoteSent(r, n)) && RemoteSent(r, n).state == r.state
    ensures r.state != RConnected && r.state != RDead ==> forall c | PairOk(c, r) :: PairOk(c, RemoteSent(r, n))
  {
    RemoteSentOk(w, r, n);
  }

  /** An upstream outside the relay. */
  lemma RemoteSendKeeps(s: State, j: nat, io: Io)
    requires Inv(s) && HasR(s, j) && R(s, j).state != RConnected && R(s, j).state != RDead
    ensures Inv(RemoteSend(s, j, io).0)
  {
    var r := R(s, j);
    RemoteFacts(s, j);
    hide Inv, Calm, RemoteStreams, RemoteBuffers, ClientOk, Lossless, PairOk, RemoteSent, UpstreamClose;
    if r.ob == [] {
      Quieted(s.wire, r);
      hide RemoteOk;
      SetRemote(s, j, r.(events := r.events.(pout := false)));
    } else {
      var n := Accepted(io, |r.ob|);
      if n == 0 {
        UpstreamCloseIs(s, j);
      } else {
        SentRemote(s.wire, r, n);
        hide RemoteOk;
        SetRemote(s, j, RemoteSent(r, n));
      }
    }
  }

  lemma OrSame(c: Client, m: Mask)
    ensures SameClient(c, OrEvents(c, m)) && OrEvents(c, m).notes == c.notes && OrEvents(c, m).state == c.state
  {
  }

  lemma Hung(w: Codec, r: Remote)
    requires RemoteOk(w, r) && r.state == RConnected
    ensures RemoteOk(w, r.(events := r.events.(pin := false)))
    ensures forall c | PairOk(c, r) :: PairOk(c, r.(events := r.events.(pin := false)))
  {
    hide Frame, Frames, ResultOf;
  }

  lemma RelayReadKeeps(s: State, j: nat, io: Io)
    requires Inv(s) && HasR(s, j) && R(s, j).state == RConnected && |R(s, j).ib| < REMOTE_IB && io.Read?
    ensures Inv(RelayRemote(s, j, Revents(true, false, false, false), io))
  {
    hide Inv, Calm, ClientOk, RemoteOk, PairOk, RawRead, OrEvents, RelayRemote, Replay, Lossless;
    var r := R(s, j);
    RemoteFacts(s, j);
    RawPaired(s.wire, r);
    var i := r.client.value;
    var c, data := C(s, i), Taken(io, REMOTE_IB - |r.ib|);
    if data == [] {
      Hung(s.wire, r);
      SetRemote(s, j, r.(events := r.events.(pin := false)));
      NothingRead(s, j, io);
    } else {
      RawReadOk(s.wire, c, r, data);
      OrSame(c, Mask(false, true));
      RawSame(r, data);
      ReadPair(s, j, i, io, data);
      SetPair(s, i, OrEvents(c, Mask(false, true)), j, RawRead(r, data));
    }
  }

  lemma RawPaired(w: Codec, r: Remote)
    requires RemoteOk(w, r) && r.state == RConnected
    ensures r.client.Some?
  {
    hide RemoteStreams, RemoteBuffers;
  }

  lemma NothingRead(s: State, j: nat, io: Io)
    requires HasR(s, j) && |R(s, j).ib| < REMOTE_IB && io.Read? && Taken(io, REMOTE_IB - |R(s, j).ib|) == []
    ensures RelayRemote(s, j, Revents(true, false, false, false), io)
            == SetR(s, j, R(s, j).(events := R(s, j).events.(pin := false)))
  {
  }

  lemma ReadPair(s: State, j: nat, i: nat, io: Io, data: seq<byte>)
    requires HasR(s, j) && |R(s, j).ib| < REMOTE_IB && io.Read? && data == Taken(io, REMOTE_IB - |R(s, j).ib|) && data != []
    requires R(s, j).client == Some(i) && HasC(s, i)
    ensures RelayRemote(s, j, Revents(true, false, false, false), io)
            == SetR(SetC(s, i, OrEvents(C(s, i), Mask(false, true))), j, RawRead(R(s, j), data))
  {
  }

  lemma RawSame(r: Remote, data: seq<byte>)
    ensures SameRemote(r, RawRead(r, data)) && RawRead(r, data).state == r.state
  {
  }

  lemma WritePair(s: State, j: nat, i: nat, io: Io)
    requires HasR(s, j) && R(s, j).client == Some(i) && HasC(s, i)
    ensures var r, n, d := R(s, j), Accepted(io, |R(s, j).ob|), OrEvents(C(s, i), Mask(true, false));
            RelayRemote(s, j, Revents(false, true, false, false), io) ==
              if r.ob == [] then SetR(SetC(s, i, d), j, r.(events := r.events.(pout := false)))
              else if n == 0 then UpstreamClose(s, j)
              else SetR(SetC(s, i, d), j, RemoteSent(r, n))
  {
    hide UpstreamClose, RemoteSent, OrEvents;
  }

  lemma RelayWriteKeeps(s: State, j: nat, io: Io)
    requires Inv(s) && HasR(s, j) && R(s, j).state == RConnected
    ensures Inv(RelayRemote(s, j, Revents(false, true, false, false), io))
  {
    var r := R(s, j);
    RemoteFacts(s, j);
    hide Inv, Calm, RemoteStreams, RemoteBuffers, ClientBuffers, ClientMasks, ClientStreams, ClientNotes, Lossless,
         RemoteSent, OrEvents, PairOk, UpstreamClose;
    var i := r.client.value;
    var c := C(s, i);
    OrSame(c, Mask(true, false));
    WritePair(s, j, i, io);
    if r.ob == [] {
      IdleOk(s.wire, c, r);
      hide RemoteOk, ClientOk, Replay, RelayRemote, RemoteStates;
      SetPair(s, i, OrEvents(c, Mask(true, false)), j, r.(events := r.events.(pout := false)));
    } else {
      var n := Accepted(io, |r.ob|);
      if n == 0 {
        UpstreamCloseIs(s, j);
      } else {
        UpSentOk(s.wire, c, r, n);
        SentRemote(s.wire, r, n);
        hide RemoteOk, ClientOk, Replay, RelayRemote, RemoteStates;
        SetPair(s, i, OrEvents(c, Mask(true, false)), j, RemoteSent(r, n));
      }
    }
  }

  lemma RelayRemoteKeeps(s: State, j: nat, ev: Revents, io: Io)
    requires Inv(s) && HasR(s, j) && R(s, j).state == RConnected
    ensures Inv(RelayRemote(s, j, ev, io))
  {
    var r := R(s, j);
    RemoteFacts(s, j);
    hide Inv, Calm, RemoteStreams, RemoteBuffers, ClientOk, PairOk, Lossless, UpstreamClose, RemoteSend, OrClient, RawRead;
    if ev.pin {
      if |r.ib| < REMOTE_IB {
        if io.Read? {
          RelayReadKeeps(s, j, io);
        } else {
          UpstreamCloseIs(s, j);
        }
      }
    } else if ev.pout {
      RelayWriteKeeps(s, j, io);
    } else {
      UpstreamCloseIs(s, j);
    }
  }

  /** The rule, applied to the upstream the event is for. */
  predicate EventRule(s: State, fd: int, io: Io) {
    forall j | 0 <= j < |s.remotes| && s.remotes[j].Full? && s.remotes[j].item.fd == fd ::
      AnswersRule(s.wire, s.remotes[j].item, io)
  }

  lemma RemoteProcessKeeps(s: State, fd: int, ev: Revents, io: Io)
    requires Inv(s) && (ev.pin ==> EventRule(s, fd, io))
    ensures Inv(RemoteProcess(s, fd, ev, io))
  {
    hide Inv, Calm, Reap, RelayRemote, RemoteRecv, RemoteSend, AnswersRule, RemoteStreams, RemoteBuffers, ClientOk, PairOk,
         Lossless;
    var invalid := ev == Revents(false, false, false, true);
    var (t, found) := Reap(s, 0, fd, invalid, None);
    ReapIs(s, 0, fd, invalid, None);
    ReapWire(s, 0, fd, invalid, None);
    if found.Some? {
      var j := found.value;
      assert HasR(t, j) && t.remotes[j] == Reaped(s.remotes[j], fd, invalid);
      assert R(t, j) == s.remotes[j].item && R(t, j).state != RDead;
      RemoteFacts(t, j);
      assert R(t, j).state != RConnecting2;
      hide RemoteOk;
      if R(t, j).state == RConnected {
        RelayRemoteKeeps(t, j, ev, io);
      } else if ev.pin {
        RemoteRecvKeeps(t, j, io);
      } else if ev.pout {
        RemoteSendKeeps(t, j, io);
      }
    }
  }

  lemma {:induction false} ReapWire(s: State, k: nat, fd: int, invalid: bool, found: Option<nat>)
    requires Inv(s) && FoundSoFar(s, k, fd, invalid, found)
    ensures Reap(s, k, fd, invalid, found).0.wire == s.wire
    decreases |s.remotes| - k
  {
    hide Inv, Calm, Dispose, Withdrawn, Matched, Others, Spares;
    if k < |s.remotes| {
      OneFd(s);
      FoundNext(s, k, fd, invalid, found);
      if s.remotes[k] != Reaped(s.remotes[k], fd, invalid) {
        var t := Dispose(s, k);
        DisposeIs(s, k);
        WithdrawnKeeps(s, k);
        var f := if s.remotes[k].item.state == RDead then found else None;
        hide FoundSoFar;
        ReapWire(t, k + 1, fd, invalid, f);
      } else {
        hide FoundSoFar;
        ReapWire(s, k + 1, fd, invalid, if s.remotes[k].Full? && s.remotes[k].item.fd == fd then Some(k) else found);
      }
    }
  }
}
