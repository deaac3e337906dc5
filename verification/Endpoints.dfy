/**
 The two connection structures as objects: every method edits fields and buffers in place
 and does, on the record the object stands for, what the step function of `Connections` does.
 A buffer that has been freed is null.

 Preconditions are those of the C code: the buffers that are touched have not been freed, the
 other end is there, and growing an output buffer does not wrap around 32 bits.
 */
module Endpoints {
  import opened Base
  import opened Wire
  import opened DeviceTable
  import opened Protocol
  import opened Connections
  import opened Buffers

  function Header(version: nat, message: nat, tag: nat, payload: nat): (h: seq<byte>)
    ensures |h| == HEADER
  {
    EncodeWord(HEADER + payload) + EncodeWord(version) + EncodeWord(message) + EncodeWord(tag)
  }

  /** Header and payload, copied one after the other, are the framed packet. */
  lemma CopiedInTwo(before: seq<byte>, p: Packet)
    ensures before + Header(p.version, p.message, p.tag, |p.payload|) + p.payload == before + Frame(p)
  {
  }

  lemma NothingAppended(c: Client, b: seq<byte>)
    requires |c.ob| <= c.obCap && b == [] && c.events.pout
    ensures AppendC(c, b) == c
  {
    assert c.ob + b == c.ob;
  }

  class MuxClient {
    const fd: int
    var ob: Buffer?
    var ib: Buffer?
    var state: ClientState
    var events: Mask
    var devents: Mask
    var version: nat
    var connectTag: nat
    var connectDevice: nat
    var remote: RemoteMux?
    /** The record this object stands for. */
    ghost var model: Client

    ghost function Repr(): set<object>
      reads this, ob, ib
    {
      {this} + (if ob == null then {} else {ob as object, ob.data}) + (if ib == null then {} else {ib as object, ib.data})
    }

    ghost predicate Valid()
      reads this, ob, ib, Repr()
    {
      && model.fd == fd && model.state == state && model.events == events && model.devents == devents
      && model.version == version && model.connectTag == connectTag && model.connectDevice == connectDevice
      && (model.obFreed <==> ob == null) && (model.ibFreed <==> ib == null)
      && (ob == null ==> model.ob == [])
      && (ob != null ==> ob.Valid() && model.ob == ob.Contents() && model.obCap == ob.data.Length)
      && (ib == null ==> model.ib == [])
      && (ib != null ==> ib.Valid() && model.ib == ib.Contents() && ib.data.Length == CLIENT_IB)
      && (ob != null && ib != null ==> ob != ib && ob.data != ib.data)
    }

    ghost predicate RoomFor(n: nat)
      reads this, ob, if ob == null then {} else {ob.data}
    {
      ob != null && ob.Valid() && CanTake(ob.data.Length, ob.size, n)
    }

    constructor (fd: int)
      ensures Valid() && fresh(Repr()) && model == NewClient(fd) && remote == null
    {
      this.fd := fd;
      ob := new Buffer(REPLY_BUF);
      ib := new Buffer(CLIENT_IB);
      state := Command;
      events, devents := Mask(true, false), Mask(false, false);
      version, connectTag, connectDevice := 0, 0, 0;
      remote := null;
      model := NewClient(fd);
    }

    /** `client_or_events`. */
    method OrEvents(m: Mask)
      requires Valid()
      modifies this`events, this`devents, this`model
      ensures Valid() && model == Connections.OrEvents(old(model), m)
    {
      hide Either;
      if state == Connected || state == Connecting2 {
        devents := Either(devents, m);
        if state == Connected {
          events := Either(events, m);
        }
      }
      model := Connections.OrEvents(model, m);
    }

    /** `send_pkt_raw`. */
    method SendPktRaw(b: seq<byte>)
      requires Valid() && RoomFor(|b|)
      modifies this`events, this`model, ob, ob.data
      ensures Valid() && (ob.data == old(ob.data) || fresh(ob.data))
      ensures model == AppendC(old(model), b)
    {
      ob.Reserve(|b|);
      ob.Copy(b);
      events := events.(pout := true);
      model := AppendC(model, b);
    }

    /** `send_pkt`. */
    method SendPkt(message: nat, tag: nat, payload: seq<byte>)
      requires Valid() && RoomFor(HEADER + |payload|)
      modifies this`events, this`model, ob, ob.data
      ensures Valid() && (ob.data == old(ob.data) || fresh(ob.data))
      ensures model == QueuePacket(old(model), Packet(version, message, tag, payload))
    {
      hide Header, Frame, Grown;
      ghost var p := Packet(version, message, tag, payload);
      var header := Header(version, message, tag, |payload|);
      CopiedInTwo(ob.Contents(), p);
      ob.Reserve(|header| + |payload|);
      ob.Copy(header);
      ob.Copy(payload);
      events := events.(pout := true);
      model := QueuePacket(model, p);
    }

    /** `send_result`. */
    method SendResult(w: Codec, tag: nat, result: nat)
      requires Valid() && RoomFor(|Frame(ResultPacket(w, version, tag, result))|)
      modifies this`events, this`model, ob, ob.data
      ensures Valid() && (ob.data == old(ob.data) || fresh(ob.data))
      ensures model == QueueReply(w, old(model), ResultPacket(w, version, tag, result))
    {
      hide Frame, Grown, QueuePacket, EncodeWord;
      ghost var c := model;
      if version == 1 {
        SendPkt(MESSAGE_PLIST, tag, w.enc(NO_ITEMS.(kind := Some("Result"), number := Some(result))));
      } else {
        SendPkt(MESSAGE_RESULT, tag, EncodeWord(result));
      }
      model := QueueReply(w, c, ResultPacket(w, version, tag, result));
    }

    /** `client_send_packet_data`: an upstream's packet, header and payload one after the other. */
    method SendPacketData(ghost w: Codec, p: Packet)
      requires Valid() && RoomFor(HEADER)
      requires CanTake(Grown(ob.data.Length, ob.size, HEADER), ob.size + HEADER, |p.payload|)
      modifies this`events, this`model, ob, ob.data
      ensures Valid() && (ob.data == old(ob.data) || fresh(ob.data))
      ensures model == PassOn(w, old(model), p)
    {
      hide Frame, Grown;
      ghost var c := model;
      SendPktRaw(Frame(p)[..HEADER]);
      if |p.payload| > 0 {
        SendPktRaw(p.payload);
      } else {
        NothingAppended(model, p.payload);
      }
      hide AppendC;
      model := PassOn(w, c, p);
    }

    /** `notify_device_add` and `notify_device_remove`. */
    method Notify(w: Codec, n: Note<Message>)
      requires Valid() && RoomFor(|Frame(NotePacket(w, version, n))|)
      modifies this`events, this`model, ob, ob.data
      ensures Valid() && (ob.data == old(ob.data) || fresh(ob.data))
      ensures model == QueueNote(w, old(model), n)
    {
      hide Frame, Grown, QueuePacket, DeviceRecord, EncodeWord;
      ghost var c := model;
      match n {
        case Attached(e) =>
          if version == 1 {
            SendPkt(MESSAGE_PLIST, 0, w.enc(e.body));
          } else {
            SendPkt(MESSAGE_DEVICE_ADD, 0, DeviceRecord(e.body));
          }
        case Detached(id) =>
          if version == 1 {
            SendPkt(MESSAGE_PLIST, 0, w.enc(DetachedMessage(id)));
          } else {
            SendPkt(MESSAGE_DEVICE_REMOVE, 0, EncodeWord(id));
          }
      }
      model := QueueNote(w, c, n);
    }

    /** `client_notify_connect`. */
    method NotifyConnect(w: Codec, result: nat)
      requires Valid() && ob != null && ib != null
      requires state == Connecting1 ==> RoomFor(|Frame(ResultPacket(w, version, connectTag, result))|)
      modifies this, ob, ob.data
      ensures Valid() && ob == old(ob) && (ib == old(ib) || ib == null) && remote == old(remote)
      ensures ob.data == old(ob.data) || fresh(ob.data)
      ensures model == Connections.NotifyConnect(w, old(model), result)
    {
      if state != Connecting1 {
        return;
      }
      hide Frame, Grown, QueueReply, ResultPacket;
      SendResult(w, connectTag, result);
      if result == RESULT_OK {
        AwaitSent();
      } else {
        state := Command;
        model := model.(state := Command);
      }
    }

    /** Wait for the result packet to go through; the input buffer is no longer needed. */
    method AwaitSent()
      requires Valid()
      modifies this`state, this`events, this`ib, this`model
      ensures Valid() && ib == null
      ensures model == old(model).(state := Connecting2, events := Mask(false, true),
                                   ib := [], ibFreed := true, dropped := old(model).ib)
    {
      state := Connecting2;
      events := Mask(false, true);
      model := model.(state := Connecting2, events := Mask(false, true), ib := [], ibFreed := true, dropped := model.ib);
      ib := null;
    }

    /** `process_send`; the caller closes the client when told to. */
    method ProcessSend(io: Io) returns (close: bool)
      requires Valid() && ob != null
      requires state == Connecting2 && ob.size > 0 ==> remote != null // named in the log at the switch
      modifies this, ob, ob.data
      ensures Valid() && (ob == old(ob) || ob == null) && ib == old(ib) && old(ob).data == old(ob.data)
      ensures var c, n := old(model), Accepted(io, |old(model).ob|);
              if c.ob == [] then !close && model == c.(events := c.events.(pout := false))
              else (close <==> n == 0) && model == if n == 0 then c else Sent(c, n)
    {
      hide Accepted;
      close := false;
      if ob.size == 0 {
        events := events.(pout := false);
        model := model.(events := events);
        return;
      }
      var res := Accepted(io, ob.size);
      if res == 0 {
        return true;
      }
      hide Emptied;
      model := model.(ob := model.ob[res..], tx := model.tx + model.ob[..res]);
      var all := res == ob.size;
      ob.Consume(res);
      if all {
        Empty();
      }
    }

    /** The last byte has gone out. */
    method Empty()
      requires Valid() && ob != null && ob.size == 0
      modifies this`events, this`state, this`ob, this`model
      ensures Valid() && (ob == old(ob) || ob == null) && model == Emptied(old(model))
    {
      model := Emptied(model);
      events := events.(pout := false);
      if state == Connecting2 {
        state := Connected;
        events := devents;
        ob := null;
        events := events.(pin := true);
      }
    }

    /** The receive part of `process_recv`: the packet, if one is complete, goes to the command handler. */
    method ProcessRecv(io: Io) returns (r: Receipt)
      requires Valid() && ib != null
      modifies this`model, ib, ib.data
      ensures Valid() && ib.data == old(ib.data)
      ensures r == Receive(old(model).ib, CLIENT_IB, io)
      ensures model == Got(old(model), DataOf(r)).(held := old(model).held || r.Ready?)
    {
      r := ib.ReceivePacket(io);
      model := Got(model, DataOf(r)).(held := model.held || r.Ready?);
    }

    /** Bytes read from the client enter the upstream's output buffer. */
    method TakeUp(data: seq<byte>)
      requires Valid() && remote != null && remote.Valid() && Repr() !! remote.Repr()
      requires |data| <= remote.ob.data.Length - remote.ob.size
      modifies this`events, this`model, remote`events, remote`model, remote.ob, remote.ob.data
      ensures Valid() && remote.Valid()
      ensures model == UpC(old(model), data) && remote.model == UpR(old(remote.model), data)
    {
      remote.Take(data);
      events := events.(pin := false);
      model := UpC(model, data);
    }

    /** The first n bytes of the upstream's input buffer have been written to the client. */
    method GiveDown(n: nat)
      requires Valid() && remote != null && remote.Valid() && Repr() !! remote.Repr() && n <= remote.ib.size
      modifies this`events, this`model, remote`model, remote.ib, remote.ib.data
      ensures Valid() && remote.Valid()
      ensures model == DownC(old(model), old(remote.model), n) && remote.model == DownR(old(remote.model), n)
    {
      model := DownC(model, remote.model, n);
      if n == remote.ib.size {
        events := events.(pout := false, pin := true);
      }
      remote.Give(n);
    }

    /** The relay half of `client_process`, input: read straight into the upstream's output buffer. */
    method RelayIn(io: Io) returns (close: bool)
      requires Valid() && state == Connected && remote != null && remote.Valid() && Repr() !! remote.Repr()
      modifies this`events, this`model, remote`events, remote`model, remote.ob, remote.ob.data
      ensures Valid() && remote.Valid()
      ensures var r := old(remote.model);
              var data := Taken(io, r.obCap - |r.ob|);
              && (close <==> |r.ob| < r.obCap && data == [])
              && model == (if |r.ob| < r.obCap && !close then UpC(old(model), data) else old(model))
              && remote.model == if |r.ob| < r.obCap && !close then UpR(r, data) else r
    {
      hide UpC, UpR;
      close := false;
      if remote.ob.data.Length - remote.ob.size <= 0 {
        return; // full: try again in the next iteration
      }
      var data := Taken(io, remote.ob.data.Length - remote.ob.size);
      if data == [] {
        return true;
      }
      TakeUp(data);
    }

    /** The relay half of `client_process`, output: write straight from the upstream's input buffer. */
    method RelayOut(io: Io) returns (close: bool)
      requires Valid() && state == Connected && remote != null && remote.Valid() && Repr() !! remote.Repr()
      modifies this`events, this`model, remote`model, remote.ib, remote.ib.data
      ensures Valid() && remote.Valid()
      ensures var r := old(remote.model);
              var n := Accepted(io, |r.ib|);
              && (close <==> r.ib != [] && n == 0)
              && model == (if n != 0 then DownC(old(model), r, n) else old(model))
              && remote.model == if n != 0 then DownR(r, n) else r
    {
      hide Accepted, DownC, DownR;
      close := false;
      if remote.ib.size > 0 {
        var res := Accepted(io, remote.ib.size);
        if res == 0 {
          return true;
        }
        GiveDown(res);
      }
    }
  }

  /** A new upstream connection before its first packet is queued. */
  ghost function Unsent(fd: int, peer: Peer, first: Packet): Remote {
    NewRemote(fd, peer, first).(ob := [], obCap := REPLY_BUF, events := Mask(true, false))
  }

  /** A packet behind whatever is queued for the upstream. */
  ghost function QueueFrame(r: Remote, p: Packet): Remote
    requires |r.ob| <= r.obCap
  {
    r.(ob := r.ob + Frame(p), obCap := Grown(r.obCap, |r.ob|, |Frame(p)|), events := r.events.(pout := true))
  }

  /** Queueing the packet a connection was made for makes it a new upstream. */
  lemma FirstFrame(fd: int, peer: Peer, first: Packet)
    ensures QueueFrame(Unsent(fd, peer, first), first) == NewRemote(fd, peer, first)
  {
    hide Frame, Grown;
    assert [] + Frame(first) == Frame(first);
  }

  class RemoteMux {
    const fd: int
    const ob: Buffer
    const ib: Buffer
    var id: nat
    var state: RemoteState
    var last: LastCommand
    var events: Mask
    var devents: Mask
    var client: MuxClient?
    ghost var model: Remote

    ghost function Repr(): set<object>
      reads this, ob, ib
    {
      {this, ob, ob.data, ib, ib.data}
    }

    ghost predicate Valid()
      reads this, ob, ib, Repr()
    {
      && model.fd == fd && model.id == id && model.state == state && model.last == last
      && model.events == events && model.devents == devents
      && ob.Valid() && model.ob == ob.Contents() && model.obCap == ob.data.Length
      && ib.Valid() && model.ib == ib.Contents() && ib.data.Length == REMOTE_IB
      && ob != ib && ob.data != ib.data
    }

    /** `remote_mux_new_with_fd`, for the connection that is to send `first`. */
    constructor (fd: int, ghost peer: Peer, ghost first: Packet)
      ensures Valid() && fresh(Repr()) && client == null && model == Unsent(fd, peer, first)
    {
      this.fd := fd;
      ob := new Buffer(REPLY_BUF);
      ib := new Buffer(REMOTE_IB);
      id, state, last := 0, RCommand, NoCommand;
      events, devents := Mask(true, false), Mask(false, false);
      client := null;
      model := Unsent(fd, peer, first);
    }

    /** `remote_send_pkt`. */
    method SendPkt(message: nat, tag: nat, payload: seq<byte>)
      requires Valid() && CanTake(ob.data.Length, ob.size, HEADER + |payload|)
      modifies this`events, this`model, ob, ob.data
      ensures Valid() && (ob.data == old(ob.data) || fresh(ob.data))
      ensures model == QueueFrame(old(model), Packet(1, message, tag, payload))
    {
      hide Header, Frame, Grown;
      ghost var p := Packet(1, message, tag, payload);
      var header := Header(1, message, tag, |payload|);
      CopiedInTwo(ob.Contents(), p);
      ob.Reserve(|header| + |payload|);
      ob.Copy(header);
      ob.Copy(payload);
      events := events.(pout := true);
      model := QueueFrame(model, p);
    }

    /** Bytes from the client enter the output buffer. */
    method Take(data: seq<byte>)
      requires Valid() && |data| <= ob.data.Length - ob.size
      modifies this`events, this`model, ob, ob.data
      ensures Valid() && ob.data == old(ob.data) && model == UpR(old(model), data)
    {
      ob.Copy(data);
      events := events.(pout := true);
      model := UpR(model, data);
    }

    /** Bytes for the client leave the input buffer. */
    method Give(n: nat)
      requires Valid() && n <= ib.size
      modifies this`model, ib, ib.data
      ensures Valid() && ib.data == old(ib.data) && model == DownR(old(model), n)
    {
      model := DownR(model, n);
      ib.Consume(n);
    }

    /** `remote_process_send`; the caller closes the upstream when told to. */
    method ProcessSend(io: Io) returns (close: bool)
      requires Valid()
      modifies this`events, this`state, this`model, ob, ob.data
      ensures Valid() && ob.data == old(ob.data)
      ensures var r, n := old(model), Accepted(io, |old(model).ob|);
              if r.ob == [] then !close && model == r.(events := r.events.(pout := false))
              else (close <==> n == 0) && model == if n == 0 then r else RemoteSent(r, n)
    {
      hide Accepted;
      close := false;
      if ob.size == 0 {
        events := events.(pout := false);
        model := model.(events := events);
        return;
      }
      var res := Accepted(io, ob.size);
      if res == 0 {
        return true;
      }
      model := RemoteSent(model, res);
      var all := res == ob.size;
      ob.Consume(res);
      if all {
        events := events.(pout := false);
        if state == RConnecting2 {
          state := RConnected;
          events := devents;
          events := events.(pin := true);
        }
      }
    }

    /** The receive part of `remote_process_recv`. */
    method ProcessRecv(io: Io) returns (r: Receipt)
      requires Valid()
      modifies this`model, ib, ib.data
      ensures Valid() && ib.data == old(ib.data)
      ensures r == Receive(old(model).ib, REMOTE_IB, io)
      ensures model == RemoteGot(old(model), DataOf(r))
    {
      r := ib.ReceivePacket(io);
      model := RemoteGot(model, DataOf(r));
    }

    /** Its end: the packet is done with. */
    method Dispatched(ghost p: Packet)
      requires Valid()
      modifies this`last, this`model, ib, ib.data
      ensures Valid() && ib.data == old(ib.data) && model == Consumed(old(model), p)
    {
      ib.Consume(ib.size);
      last := NoCommand;
      model := Consumed(model, p);
    }

    /** The answer to Connect, as `remote_handle_command_result` treats it, on both ends of the pair. */
    method Answered(w: Codec, result: nat)
      requires Valid() && client != null && client.Valid() && Repr() !! client.Repr()
      requires client.ob != null && client.ib != null
      requires client.state == Connecting1 ==>
                 client.RoomFor(|Frame(ResultPacket(w, client.version, client.connectTag, result))|)
      modifies this`state, this`events, this`model, client, client.ob, client.ob.data
      ensures Valid() && client.Valid()
      ensures client.model == NotifyConnect(w, old(client.model), result)
      ensures model == ConnectAnswered(old(model), result)
    {
      hide Frame, Grown, ResultPacket, NotifyConnect, ConnectAnswered;
      client.NotifyConnect(w, result);
      SwitchIf(result);
    }

    method SwitchIf(result: nat)
      requires Valid()
      modifies this`state, this`events, this`model
      ensures Valid() && model == ConnectAnswered(old(model), result)
    {
      if result == RESULT_OK {
        state := RConnected;
        events := Mask(true, true);
      }
      model := ConnectAnswered(model, result);
    }

    /** Raw bytes read from the upstream enter its input buffer, and the client is armed. */
    method ReadRaw(data: seq<byte>)
      requires Valid() && client != null && client.Valid() && Repr() !! client.Repr() && |data| <= ib.data.Length - ib.size
      modifies this`model, ib, ib.data, client`events, client`devents, client`model
      ensures Valid() && client.Valid()
      ensures model == RawRead(old(model), data) && client.model == OrEvents(old(client.model), Mask(false, true))
    {
      hide OrEvents;
      ib.Copy(data);
      model := RawRead(model, data);
      client.OrEvents(Mask(false, true));
    }

    /** The relay half of `usbmux_remote_process`, input; the caller closes the pair when told to. */
    method RelayIn(io: Io) returns (close: bool)
      requires Valid() && state == RConnected && client != null && client.Valid() && Repr() !! client.Repr()
      modifies this`events, this`model, ib, ib.data, client`events, client`devents, client`model
      ensures Valid() && client.Valid()
      ensures var r, c := old(model), old(client.model);
              if |r.ib| >= REMOTE_IB then !close && model == r && client.model == c
              else
                var data := Taken(io, REMOTE_IB - |r.ib|);
                && (close <==> !io.Read?)
                && model == (if close then r else if data == [] then r.(events := r.events.(pin := false)) else RawRead(r, data))
                && client.model == if data == [] then c else OrEvents(c, Mask(false, true))
    {
      hide OrEvents, RawRead;
      close := false;
      if ib.size > 0 && ib.data.Length - ib.size <= 0 {
        return; // full: try again in the next iteration
      }
      if !io.Read? {
        return true;
      }
      var data := Taken(io, ib.data.Length - ib.size);
      if data == [] {
        events := events.(pin := false);
        model := model.(events := events);
      } else {
        ReadRaw(data);
      }
    }

    /** The relay half of `usbmux_remote_process`, output. */
    method RelayOut(io: Io) returns (close: bool)
      requires Valid() && state == RConnected && client != null && client.Valid() && Repr() !! client.Repr()
      modifies this`events, this`state, this`model, ob, ob.data, client`events, client`devents, client`model
      ensures Valid() && client.Valid()
      ensures var r, c, n := old(model), old(client.model), Accepted(io, |old(model).ob|);
              && (close <==> r.ob != [] && n == 0)
              && model == (if r.ob == [] then r.(events := r.events.(pout := false)) else if n == 0 then r else RemoteSent(r, n))
              && client.model == if close then c else OrEvents(c, Mask(true, false))
    {
      close := ProcessSend(io);
      if !close {
        client.OrEvents(Mask(true, false));
      }
    }
  }
}
