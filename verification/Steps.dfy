/** Connection-level facts: each step of a client, an upstream or a pair keeps what holds of it. */
module Steps {
  import opened Base
  import opened Wire
  import opened DeviceTable
  import opened Protocol
  import opened Connections

  lemma Assoc(a: seq<byte>, b: seq<byte>, c: seq<byte>)
    ensures (a + b) + c == a + (b + c)
  {
  }

  lemma AppendKeepsFifo(c: Client, b: seq<byte>)
    requires |c.ob| <= c.obCap
    ensures AppendC(c, b).tx + AppendC(c, b).ob == (c.tx + c.ob) + b
    ensures |AppendC(c, b).ob| <= AppendC(c, b).obCap
  {
  }

  lemma QueuePacketOk(w: Codec, c: Client, p: Packet)
    requires ClientBuffers(c) && ClientMasks(c) && ClientStreams(w, c) && !Handed(c)
    ensures var d := QueuePacket(c, p);
            ClientBuffers(d) && ClientMasks(d) && ClientStreams(w, d)
  {
    hide Frame, Frames, Grown;
    AppendKeepsFifo(c, Frame(p));
    FramesAppend(c.out, p);
  }

  lemma QueueReplyOk(w: Codec, c: Client, p: Packet)
    requires ClientOk(w, c) && !Handed(c)
    ensures ClientOk(w, QueueReply(w, c, p))
  {
    hide Frame, Frames, Grown;
    QueuePacketOk(w, c, p);
    Unmixed(w, c, QueueReply(w, c, p), p);
  }

  /** What does not read as a notification changes nothing for the reader. */
  lemma Unmixed(w: Codec, c: Client, d: Client, p: Packet)
    requires ClientNotes(w, c) && d.out == c.out + [p] && d.state == c.state && d.version == c.version
    requires d.notes == c.notes && d.mark == c.mark && d.mixed == (c.mixed || Misleads(w, c, p))
    ensures ClientNotes(w, d)
  {
    hide ReadNote;
    if c.state == Listen && !d.mixed {
      assert d.out[c.mark..] == c.out[c.mark..] + [p];
      ReadNotesAppend(w, c.out[c.mark..], p);
    }
  }

  lemma ReadNotesAppend(w: Codec, ps: seq<Packet>, p: Packet)
    ensures ReadNotes(w, ps + [p]) ==
            match ReadNote(w, p) case None => ReadNotes(w, ps) case Some(n) => ReadNotes(w, ps) + [n]
  {
    hide ReadNote;
    assert (ps + [p])[..|ps|] == ps;
  }

  lemma PassOnOk(w: Codec, c: Client, p: Packet)
    requires ClientOk(w, c) && !Handed(c)
    ensures ClientOk(w, PassOn(w, c, p))
  {
    hide Frame, Frames, Grown;
    var b := Frame(p);
    assert b == b[..HEADER] + p.payload by { FrameSplit(p); }
    AppendKeepsFifo(c, b[..HEADER]);
    AppendKeepsFifo(AppendC(c, b[..HEADER]), p.payload);
    assert (c.tx + c.ob) + b[..HEADER] + p.payload == (c.tx + c.ob) + b;
    FramesAppend(c.out, p);
    Unmixed(w, c, PassOn(w, c, p), p);
  }

  lemma FrameSplit(p: Packet)
    ensures Frame(p) == Frame(p)[..HEADER] + p.payload
  {
  }

  lemma QueueNoteOk(w: Codec, c: Client, n: Note<Message>)
    requires Lossless(w) && ClientOk(w, c) && c.state == Listen && NoteOk(n)
    ensures ClientOk(w, QueueNote(w, c, n))
  {
    hide Frame, Frames, Grown, NotePacket, ClientNotes, ClientRequest, ConnectRequest;
    QueuePacketOk(w, c, NotePacket(w, c.version, n));
    NoteQueued(w, c, QueueNote(w, c, n), n);
    assert ClientRequest(w, QueueNote(w, c, n)) by { Unrequested(w, QueueNote(w, c, n)); }
  }

  lemma Unrequested(w: Codec, c: Client)
    requires c.state != Connecting1 && !Handed(c)
    ensures ClientRequest(w, c)
  {
  }

  lemma NoteQueued(w: Codec, c: Client, d: Client, n: Note<Message>)
    requires Lossless(w) && ClientNotes(w, c) && c.state == Listen && NoteOk(n)
    requires d.out == c.out + [NotePacket(w, c.version, n)] && d.notes == c.notes + [n]
    requires d.state == c.state && d.version == c.version && d.mark == c.mark && d.mixed == c.mixed
    ensures ClientNotes(w, d)
  {
    hide NotePacket, ReadNote, BodyFor;
    var p := NotePacket(w, c.version, n);
    if !c.mixed {
      assert d.out[c.mark..] == c.out[c.mark..] + [p];
      assert d.notes[..|c.notes|] == c.notes;
      ReadNotePacket(w, c.version, n);
      ReadNotesAppend(w, c.out[c.mark..], p);
    }
  }

  // ---- sends

  lemma SentOk(w: Codec, c: Client, n: nat)
    requires ClientOk(w, c) && 0 < n <= |c.ob|
    ensures ClientOk(w, Sent(c, n))
  {
    hide Frames, ResultPacket, ReadNotes, ProjectNotes, ConnectRequest;
    assert c.ob == c.ob[..n] + c.ob[n..];
    assert (c.tx + c.ob[..n]) + c.ob[n..] == c.tx + c.ob;
  }

  /** The handoff does not disturb the pair: what arrived meanwhile is announced to poll. */
  lemma SentPair(c: Client, n: nat, r: Remote)
    requires PairOk(c, r) && n <= |c.ob| && c.state != Connected
    ensures PairOk(Sent(c, n), r)
  {
  }

  lemma RemoteSentOk(w: Codec, r: Remote, n: nat)
    requires RemoteOk(w, r) && 0 < n <= |r.ob|
    ensures RemoteOk(w, RemoteSent(r, n))
  {
    hide Frame, Frames, ResultOf;
    assert r.ob == r.ob[..n] + r.ob[n..];
    assert (r.tx + r.ob[..n]) + r.ob[n..] == r.tx + r.ob;
  }

  // ---- receives

  /** Whether or not a refused packet is still in the buffer, a call stays inside one packet. */
  lemma ClientReceipt(w: Codec, c: Client, io: Io)
    requires ClientStreams(w, c) && !Handed(c) && |c.ib| <= CLIENT_IB
    ensures var r := Receive(c.ib, CLIENT_IB, io);
            && (r.More? ==> !c.held && Partial(c.ib + r.data, CLIENT_IB) && |c.ib + r.data| <= CLIENT_IB)
            && (r.Ready? ==> |c.ib + r.data| <= CLIENT_IB && c.ib + r.data == Frame(r.packet)
                             && Whole(c.ib + r.data) && WellSized(r.packet))
  {
    hide Frames, ResultPacket;
    if c.held {
      assert c.ib[..|c.ib|] == c.ib && c.ib + [] == c.ib;
      FrameUnframe(c.ib);
    } else {
      ReceiveStaysInPacket(c.ib, CLIENT_IB, io);
      var r := Receive(c.ib, CLIENT_IB, io);
      if r.Ready? {
        WholeFrame(r.packet);
      }
    }
  }

  lemma WholeFrame(p: Packet)
    requires WellSized(p)
    ensures Whole(Frame(p))
  {
    UnframeFrame(p, []);
    assert Frame(p) + [] == Frame(p);
  }

  /** Reading bytes does not touch masks or notifications. */
  lemma GotRest(w: Codec, c: Client, data: seq<byte>)
    requires ClientMasks(c) && ClientNotes(w, c)
    ensures ClientMasks(Got(c, data)) && ClientNotes(w, Got(c, data))
    ensures ClientMasks(Got(c, data).(held := true)) && ClientNotes(w, Got(c, data).(held := true))
  {
    hide ReadNotes, ProjectNotes;
  }

  lemma GotOk(w: Codec, c: Client, io: Io)
    requires ClientOk(w, c) && !Handed(c) && Receive(c.ib, CLIENT_IB, io).More?
    ensures ClientOk(w, Got(c, Receive(c.ib, CLIENT_IB, io).data))
  {
    ClientReceipt(w, c, io);
    hide Frames, ClientNotes, ClientMasks, ConnectRequest, Receive, DecodeWord, ResultPacket;
    GotRest(w, c, Receive(c.ib, CLIENT_IB, io).data);
    var data := Receive(c.ib, CLIENT_IB, io).data;
    assert (Frames(c.commands) + c.ib) + data == Frames(c.commands) + (c.ib + data);
  }

  /** The state in which a command is handled: its packet is still in the buffer. */
  lemma HeldOk(w: Codec, c: Client, io: Io)
    requires ClientOk(w, c) && !Handed(c) && c.state != Connecting1 && Receive(c.ib, CLIENT_IB, io).Ready?
    ensures ClientOk(w, Got(c, Receive(c.ib, CLIENT_IB, io).data).(held := true))
    ensures Got(c, Receive(c.ib, CLIENT_IB, io).data).ib == Frame(Receive(c.ib, CLIENT_IB, io).packet)
  {
    ClientReceipt(w, c, io);
    hide Frame, Frames, ClientNotes, ClientMasks, ConnectRequest, Receive, DecodeWord, ResultPacket;
    GotRest(w, c, Receive(c.ib, CLIENT_IB, io).data);
    var data := Receive(c.ib, CLIENT_IB, io).data;
    Assoc(Frames(c.commands), c.ib, data);
  }

  /** The handler returned 0: the packet has been consumed. */
  lemma ClearedOk(w: Codec, c: Client, p: Packet)
    requires ClientOk(w, c) && !Handed(c) && c.state != Connecting1 && c.ib == Frame(p) && WellSized(p)
    ensures ClientOk(w, c.(ib := [], commands := c.commands + [p], held := false))
  {
    FramesAppend(c.commands, p);
    hide Frames, ReadNotes, ProjectNotes, ConnectRequest, ResultPacket;
    var d := c.(ib := [], commands := c.commands + [p], held := false);
    assert Frames(d.commands) + [] == Frames(d.commands);
  }

  lemma RemoteGotOk(w: Codec, r: Remote, io: Io)
    requires RemoteOk(w, r) && !r.rawMode && r.state != RDead && Receive(r.ib, REMOTE_IB, io).More?
    ensures RemoteOk(w, RemoteGot(r, Receive(r.ib, REMOTE_IB, io).data))
  {
    ReceiveStaysInPacket(r.ib, REMOTE_IB, io);
    hide Frame, Frames, ResultOf, Receive, DecodeWord;
    var data := Receive(r.ib, REMOTE_IB, io).data;
    assert (Frames(r.packets) + r.ib) + data == Frames(r.packets) + (r.ib + data);
  }

  /** A packet with an impossible length stays in the buffer of the dead connection. */
  lemma RemoteBadOk(w: Codec, r: Remote, io: Io)
    requires RemoteOk(w, r) && !r.rawMode && r.state != RDead && Receive(r.ib, REMOTE_IB, io).BadLength?
    ensures RemoteOk(w, RemoteGot(r, Receive(r.ib, REMOTE_IB, io).data).(state := RDead))
  {
    ReceiveStaysInPacket(r.ib, REMOTE_IB, io);
    hide Frame, Frames, ResultOf, Receive, DecodeWord, Parse;
    var data := Receive(r.ib, REMOTE_IB, io).data;
    assert (Frames(r.packets) + r.ib) + data == Frames(r.packets) + (r.ib + data);
  }

  /** A packet has been dispatched; `q` is the upstream after the dispatch. */
  lemma ConsumedOk(w: Codec, r: Remote, io: Io, q: Remote)
    requires RemoteOk(w, r) && !r.rawMode && r.state != RDead && Receive(r.ib, REMOTE_IB, io).Ready?
    requires var rc := Receive(r.ib, REMOTE_IB, io);
             || q == RemoteGot(r, rc.data)
             || (q == RemoteGot(r, rc.data).(state := RListen) && r.listener && r.ob == [])
             || (q == ConnectAnswered(RemoteGot(r, rc.data), ResultOf(w, rc.packet)) && r.state == RConnecting1)
    ensures RemoteOk(w, Consumed(q, Receive(r.ib, REMOTE_IB, io).packet))
    ensures WellSized(Receive(r.ib, REMOTE_IB, io).packet)
  {
    ReceiveStaysInPacket(r.ib, REMOTE_IB, io);
    hide Receive, Frame, ResultOf, WellSized, RemoteStreams, RemoteStates, RemoteBuffers, ConnectAnswered;
    var rc := Receive(r.ib, REMOTE_IB, io);
    ConsumedStates(r, rc.data, rc.packet, ResultOf(w, rc.packet), q);
    ConsumedStreams(w, r, rc.data, rc.packet, q);
  }

  lemma ConsumedStates(r: Remote, data: seq<byte>, p: Packet, result: nat, q: Remote)
    requires RemoteStates(r) && RemoteBuffers(r) && !r.rawMode && r.state != RDead
    requires || q == RemoteGot(r, data)
             || (q == RemoteGot(r, data).(state := RListen) && r.listener && r.ob == [])
             || (q == ConnectAnswered(RemoteGot(r, data), result) && r.state == RConnecting1)
    ensures RemoteStates(Consumed(q, p)) && RemoteBuffers(Consumed(q, p))
  {
  }

  lemma ConsumedStreams(w: Codec, r: Remote, data: seq<byte>, p: Packet, q: Remote)
    requires RemoteStreams(w, r) && !r.rawMode
    requires r.ib + data == Frame(p) && WellSized(p) && HEADER + |p.payload| <= REMOTE_IB
    requires || q == RemoteGot(r, data) || q == RemoteGot(r, data).(state := RListen)
             || q == ConnectAnswered(RemoteGot(r, data), ResultOf(w, p))
    ensures RemoteStreams(w, Consumed(q, p))
  {
    FramesAppend(r.packets, p);
    hide Frame, Frames, ResultOf, WellSized;
    Assoc(Frames(r.packets), r.ib, data);
    var d := Consumed(q, p);
    assert d.packets == r.packets + [p] && d.rx == Frames(d.packets);
    assert Frames(d.packets) + [] == Frames(d.packets);
  }

  // ---- the answer to Connect

  lemma NotifyOk(w: Codec, c: Client, result: nat)
    requires Lossless(w) && ClientOk(w, c) && c.state == Connecting1
    ensures ClientOk(w, NotifyConnect(w, c, result))
  {
    hide Frame, Frames, Grown, ResultPacket, ReadNotes, ProjectNotes, ConnectRequest;
    var p := ResultPacket(w, c.version, c.connectTag, result);
    QueueReplyOk(w, c, p);
    assert QueueReply(w, c, p).ob == c.ob + Frame(p);
    FrameSplit(p);
    assert Frames(c.commands) + c.ib + [] == Frames(c.commands) + c.ib;
  }

  lemma NotifyPair(w: Codec, c: Client, r: Remote, result: nat, q: Remote, p: Packet)
    requires ClientOk(w, c) && RemoteOk(w, r) && PairOk(c, r) && r.state == RConnecting1
    requires q.ob == r.ob && q.up == r.up && q.down == r.down && q.rawMode == r.rawMode && q.state == r.state
             && q.id == r.id && q.asked == r.asked && q.events == r.events
    ensures PairOk(NotifyConnect(w, c, result), Consumed(ConnectAnswered(q, result), p))
  {
    hide Frame, Frames, Grown, ResultPacket, ReadNotes, ProjectNotes, ConnectRequest;
  }

  // ---- relay

  lemma UpOk(w: Codec, c: Client, r: Remote, data: seq<byte>)
    requires ClientOk(w, c) && RemoteOk(w, r) && PairOk(c, r) && c.state == Connected
    requires data != [] && |data| <= r.obCap - |r.ob|
    ensures ClientOk(w, UpC(c, data)) && RemoteOk(w, UpR(r, data)) && PairOk(UpC(c, data), UpR(r, data))
  {
    hide Frame, Frames, ResultPacket, ReadNotes, ProjectNotes, ConnectRequest, ResultOf;
    assert (Frames(c.commands) + c.dropped + c.up) + data == Frames(c.commands) + c.dropped + (c.up + data);
    assert r.tx + (r.ob + data) == (r.tx + r.ob) + data == Frame(r.first) + (r.up + data);
  }

  lemma DownOk(w: Codec, c: Client, r: Remote, n: nat)
    requires ClientOk(w, c) && RemoteOk(w, r) && PairOk(c, r) && c.state == Connected && 0 < n <= |r.ib|
    ensures ClientOk(w, DownC(c, r, n)) && RemoteOk(w, DownR(r, n)) && PairOk(DownC(c, r, n), DownR(r, n))
  {
    hide Frame, Frames, ResultPacket, ReadNotes, ProjectNotes, ConnectRequest, ResultOf;
    assert r.ib == r.ib[..n] + r.ib[n..];
    assert (r.down + r.ib[..n]) + r.ib[n..] == r.down + r.ib;
    assert (Frames(c.out) + c.down) + r.ib[..n] == Frames(c.out) + (c.down + r.ib[..n]);
  }

  lemma RawReadOk(w: Codec, c: Client, r: Remote, data: seq<byte>)
    requires ClientOk(w, c) && RemoteOk(w, r) && PairOk(c, r) && r.state == RConnected
    requires data != [] && |data| <= REMOTE_IB - |r.ib|
    ensures ClientOk(w, OrEvents(c, Mask(false, true))) && RemoteOk(w, RawRead(r, data))
    ensures PairOk(OrEvents(c, Mask(false, true)), RawRead(r, data))
  {
    hide Frame, Frames, ResultPacket, ReadNotes, ProjectNotes, ConnectRequest, ResultOf;
    assert (Frames(r.packets) + r.raw) + data == Frames(r.packets) + (r.raw + data);
    assert r.down + (r.ib + data) == (r.down + r.ib) + data;
  }

  lemma OrStreams(w: Codec, c: Client, m: Mask)
    requires ClientStreams(w, c) && ClientNotes(w, c) && ClientRequest(w, c)
    ensures ClientStreams(w, OrEvents(c, m)) && ClientNotes(w, OrEvents(c, m)) && ClientRequest(w, OrEvents(c, m))
  {
    hide Frames, ResultPacket, ReadNotes, ProjectNotes, ConnectRequest;
  }

  lemma UpSentOk(w: Codec, c: Client, r: Remote, n: nat)
    requires ClientOk(w, c) && RemoteOk(w, r) && PairOk(c, r) && r.state == RConnected
    requires 0 < n <= |r.ob|
    ensures ClientOk(w, OrEvents(c, Mask(true, false))) && RemoteOk(w, RemoteSent(r, n))
    ensures PairOk(OrEvents(c, Mask(true, false)), RemoteSent(r, n))
  {
    hide ClientOk, RemoteOk, PairOk, OrEvents, RemoteSent;
    RemoteSentOk(w, r, n);
    OrOk(w, c, Mask(true, false));
    UpSentPair(c, r, n);
  }

  /** Arming a client changes nothing else that holds of it. */
  lemma OrOk(w: Codec, c: Client, m: Mask)
    requires ClientOk(w, c)
    ensures ClientOk(w, OrEvents(c, m))
  {
    hide ClientStreams, ClientNotes, ClientRequest;
    OrStreams(w, c, m);
  }

  lemma UpSentPair(c: Client, r: Remote, n: nat)
    requires PairOk(c, r) && r.state == RConnected && n <= |r.ob|
    ensures PairOk(OrEvents(c, Mask(true, false)), RemoteSent(r, n))
  {
  }

  /** An idle upstream stops waiting to write, and its client may write again. */
  lemma IdleOk(w: Codec, c: Client, r: Remote)
    requires ClientOk(w, c) && RemoteOk(w, r) && PairOk(c, r) && r.state == RConnected && r.ob == []
    ensures var q := r.(events := r.events.(pout := false));
            && ClientOk(w, OrEvents(c, Mask(true, false))) && RemoteOk(w, q) && PairOk(OrEvents(c, Mask(true, false)), q)
  {
    hide Frame, Frames, ResultPacket, ReadNotes, ProjectNotes, ConnectRequest, ResultOf;
  }
}
