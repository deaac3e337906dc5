/**
 Where the table comes from: over any run, the entries under the id of an upstream that listens
 are the replay of what that upstream itself has announced, unless another connection has
 robbed it of them; and exactly when a step does that.
 */
module Announcements {
  import opened Base
  import opened Wire
  import opened DeviceTable
  import opened Protocol
  import opened Connections
  import opened Collections
  import opened Multiplexer
  import opened Invariant
  import opened Upkeep
  import opened Teardown
  import opened Reaping
  import opened Commands
  import opened RemoteEvents
  import opened EventLoop
  import opened Theorems
  import opened Rounds
  import DeviceKey
  import IdMap

  // ---- what an upstream has announced

  function SaidBy(w: Codec, owner: nat, p: Packet): Option<Note<Message>> {
    if p.version == 0 || p.version == 1 then NoteOf(w, owner, p) else None
  }

  /** The changes of the table among the packets of an upstream, in order. */
  function Said(w: Codec, owner: nat, ps: seq<Packet>): seq<Note<Message>> {
    if ps == [] then []
    else
      var front := Said(w, owner, ps[..|ps| - 1]);
      match SaidBy(w, owner, ps[|ps| - 1])
      case None => front
      case Some(n) => front + [n]
  }

  /** The table has, under the id of upstream j, what replaying its announcements gives, order included. */
  ghost predicate Faithful(s: State, j: nat)
    requires HasR(s, j)
  {
    Mine(s.devices, R(s, j).id) == Replay(Said(s.wire, R(s, j).id, R(s, j).packets))
  }

  /** No dead upstream has the id of one that listens. */
  ghost predicate DeadApart(s: State) {
    forall j: nat, k: nat | HasR(s, j) && HasR(s, k) && R(s, j).state == RDead && R(s, k).state == RListen ::
      R(s, j).id != R(s, k).id
  }

  /** An upstream that has yet to answer Listen has sent nothing. */
  predicate Silent(r: Remote) { r.state == RCommand && r.last == ListenCmd ==> r.packets == [] }

  /** All upstreams that listen are faithful, but for those, named by their descriptors, that have been robbed. */
  ghost predicate ToldOk(s: State, robbed: set<int>) {
    && DeadApart(s)
    && (forall j: nat | HasR(s, j) :: Silent(R(s, j)))
    && (forall j: nat | HasR(s, j) && R(s, j).state == RListen && R(s, j).fd !in robbed :: Faithful(s, j))
  }

  lemma MoreRobbed(s: State, a: set<int>, b: set<int>)
    requires ToldOk(s, a) && a <= b
    ensures ToldOk(s, b)
  {
    hide Faithful, DeadApart, Silent;
  }

  // ---- steps that leave the table and the listeners alone

  /** The upstream neither listens, nor is dead, nor waits for the answer to Listen with packets behind it. */
  predicate Plain(r: Remote) { r.state != RListen && r.state != RDead && Silent(r) }

  predicate SameSaid(r: Remote, q: Remote) {
    q.state == r.state && q.last == r.last && q.id == r.id && q.fd == r.fd && q.packets == r.packets
  }

  ghost predicate Steady(s: State, t: State) {
    && t.wire == s.wire && t.devices == s.devices
    && forall j: nat | HasR(t, j) :: Plain(R(t, j)) || (HasR(s, j) && SameSaid(R(s, j), R(t, j)))
  }

  lemma SteadyKeeps(s: State, t: State, robbed: set<int>)
    requires Steady(s, t) && ToldOk(s, robbed)
    ensures ToldOk(t, robbed)
  {
    hide Mine, Said, Replay;
  }

  lemma SteadyTransitive(s: State, t: State, u: State)
    requires Steady(s, t) && Steady(t, u)
    ensures Steady(s, u)
  {
  }

  lemma SameRemotes(s: State, t: State)
    requires t.wire == s.wire && t.devices == s.devices && t.remotes == s.remotes
    ensures Steady(s, t)
  {
    assert forall j: nat {:trigger HasR(t, j)} {:trigger HasR(s, j)} :: HasR(t, j) == HasR(s, j);
  }

  lemma SteadySet(s: State, t: State, j: nat, q: Remote)
    requires t.wire == s.wire && t.devices == s.devices && HasR(s, j) && t.remotes == s.remotes[j := Full(q)]
    requires Plain(q) || SameSaid(R(s, j), q)
    ensures Steady(s, t)
  {
    assert forall k: nat {:trigger HasR(t, k)} {:trigger HasR(s, k)} :: HasR(t, k) == HasR(s, k);
  }

  lemma SteadyGone(s: State, t: State, j: nat)
    requires t.wire == s.wire && t.devices == s.devices && j < |s.remotes| && t.remotes == s.remotes[j := Empty]
    ensures Steady(s, t)
  {
    assert forall k: nat {:trigger HasR(t, k)} {:trigger HasR(s, k)} :: HasR(t, k) <==> HasR(s, k) && k != j;
  }

  lemma SteadyAdded(s: State, t: State, q: Remote)
    requires t.wire == s.wire && t.devices == s.devices && t.remotes == AddSlot(s.remotes, q) && Plain(q)
    ensures Steady(s, t)
  {
    hide AddSlot, FirstEmpty;
    AddedRemote(s, t, q);
  }

  /** What closing a descriptor leaves alone. */
  lemma CloseFdRest(s: State, fd: int)
    ensures var t := CloseFd(s, fd);
            t.wire == s.wire && t.devices == s.devices && t.clients == s.clients && t.remotes == s.remotes
  {
  }

  lemma RemoteCloseRest(s: State, j: nat)
    requires HasR(s, j)
    ensures var t := RemoteClose(s, j);
            t.wire == s.wire && t.devices == s.devices && t.clients == s.clients && t.remotes == s.remotes[j := Empty]
  {
    hide CloseFd;
    CloseFdRest(s, R(s, j).fd);
  }

  /** Closing a client takes away its own upstream and no other. */
  lemma ClientCloseRest(s: State, i: nat)
    requires HasC(s, i)
    ensures var t := ClientClose(s, i);
            && t.wire == s.wire && t.devices == s.devices
            && t.remotes == match C(s, i).remote
                            case None => s.remotes
                            case Some(j) => if HasR(s, j) then s.remotes[j := Empty] else s.remotes
  {
    hide CloseFd, RemoteClose;
    var t := CloseFd(s, C(s, i).fd);
    CloseFdRest(s, C(s, i).fd);
    if C(s, i).remote.Some? && HasR(s, C(s, i).remote.value) {
      var j := C(s, i).remote.value;
      RemoteCloseRest(SetR(t, j, R(t, j).(client := None)), j);
      assert s.remotes[j := Full(R(s, j).(client := None))][j := Empty] == s.remotes[j := Empty];
    }
  }

  lemma ClientCloseSteady(s: State, i: nat)
    ensures Steady(s, ClientClose(s, i))
  {
    if !HasC(s, i) {
      SameRemotes(s, Fault(s));
    } else {
      hide ClientClose, Steady;
      ClientCloseRest(s, i);
      if C(s, i).remote.Some? && HasR(s, C(s, i).remote.value) {
        SteadyGone(s, ClientClose(s, i), C(s, i).remote.value);
      } else {
        SameRemotes(s, ClientClose(s, i));
      }
    }
  }

  lemma UpstreamCloseSteady(s: State, j: nat)
    ensures Steady(s, UpstreamClose(s, j))
  {
    hide ClientClose, RemoteClose, Steady;
    if !HasR(s, j) {
      SameRemotes(s, UpstreamClose(s, j));
    } else if R(s, j).client.Some? {
      ClientCloseSteady(s, R(s, j).client.value);
    } else {
      RemoteCloseRest(s, j);
      SteadyGone(s, RemoteClose(s, j), j);
    }
  }

  // ---- disposal

  lemma {:induction false} WithdrawIs(s: State, ids: seq<nat>)
    ensures var t := Withdraw(s, ids);
            t.remotes == s.remotes && t.wire == s.wire && |t.clients| == |s.clients| && t.devices == DelAll(s.devices, ids)
    decreases |ids|
  {
    if ids != [] {
      hide Announce;
      AnnounceRest(s, Detached(ids[0]));
      WithdrawIs(Announce(s, Detached(ids[0])), ids[1..]);
    }
  }

  lemma AnnounceRest(s: State, n: Note<Message>)
    ensures var t := Announce(s, n);
            t.remotes == s.remotes && t.wire == s.wire && |t.clients| == |s.clients| && t.devices == Apply(s.devices, n)
  {
  }

  /** Disposal empties the slot, and takes away the entries under that id, whoever announced them. */
  lemma DisposeTakes(s: State, j: nat)
    requires HasR(s, j)
    ensures var t := Dispose(s, j);
            t.wire == s.wire && t.remotes == s.remotes[j := Empty] && t.devices == Others(s.devices, R(s, j).id)
  {
    hide Withdraw, OwnedIds, Others, DelAll, CloseFd, ClientClose;
    var r := R(s, j);
    var t := CloseFd(s, r.fd);
    CloseFdRest(s, r.fd);
    WithdrawIs(t, OwnedIds(s.devices, r.id));
    DelOwned(s.devices, r.id);
    var w := Withdraw(t, OwnedIds(s.devices, r.id));
    var u := w.(remotes := w.remotes[j := Empty]);
    if r.client.Some? && HasC(u, r.client.value) {
      var i := r.client.value;
      ClientCloseRest(SetC(u, i, C(u, i).(remote := None)), i);
    }
  }

  /** Disposing of the upstream of slot j would take away entries of a listener that is not in `robbed`. */
  ghost predicate Covered(s: State, j: nat, robbed: set<int>)
    requires HasR(s, j)
  {
    R(s, j).state == RDead || R(s, j).listener ||
      forall k: nat | HasR(s, k) && R(s, k).state == RListen && R(s, k).id == R(s, j).id
                      && Mine(s.devices, R(s, k).id) != [] :: R(s, k).fd in robbed
  }

  lemma DisposeTold(s: State, j: nat, robbed: set<int>)
    requires ToldOk(s, robbed) && ListenersOk(s) && RemotesOk(s) && HasR(s, j) && Covered(s, j, robbed)
    ensures ToldOk(Dispose(s, j), robbed)
  {
    hide Dispose, Mine, Others, Said, Replay, Silent, RemoteStreams, RemoteBuffers;
    DisposeTakes(s, j);
    var t := Dispose(s, j);
    assert forall k: nat {:trigger HasR(t, k)} {:trigger HasR(s, k)} :: HasR(t, k) <==> HasR(s, k) && k != j;
    forall k: nat | HasR(t, k) && R(t, k).state == RListen && R(t, k).fd !in robbed
      ensures Faithful(t, k)
    {
      assert HasR(s, k) && R(t, k) == R(s, k) && Faithful(s, k);
      MineOthers(s.devices, R(s, j).id, R(s, k).id);
      if R(s, j).listener {
        OtherListener(s, j, k);
      }
    }
  }

  lemma OtherListener(s: State, j: nat, k: nat)
    requires ListenersOk(s) && RemotesOk(s) && HasR(s, j) && HasR(s, k) && j != k
    requires R(s, j).listener && R(s, k).state == RListen
    ensures R(s, j).id != R(s, k).id
  {
    hide RemoteStreams, RemoteBuffers;
    assert RemoteOk(s.wire, R(s, k)) && Apart(R(s, j), R(s, k));
  }

  lemma KillTold(s: State, id: nat, robbed: set<int>)
    requires ToldOk(s, robbed)
    ensures ToldOk(s.(remotes := KillId(s.remotes, id)), robbed)
  {
    hide Mine, Said, Replay, KillId;
    var t := s.(remotes := KillId(s.remotes, id));
    assert forall k: nat {:trigger HasR(t, k)} {:trigger HasR(s, k)} :: HasR(t, k) == HasR(s, k);
    assert forall k: nat | HasR(t, k) ::
      R(t, k) == if R(s, k).id == id then R(s, k).(state := RDead) else R(s, k);
    assert forall k: nat | HasR(t, k) && R(t, k).state == RListen ::
      R(t, k) == R(s, k) && (Faithful(t, k) == Faithful(s, k));
  }

  lemma {:induction false} DisposeFromEmpties(s: State, k: nat)
    requires k <= |s.remotes| && forall j :: 0 <= j < k ==> s.remotes[j].Empty?
    ensures AllEmpty(DisposeFrom(s, k).remotes)
    decreases |s.remotes| - k
  {
    hide Dispose;
    if k < |s.remotes| {
      if s.remotes[k].Full? {
        DisposeTakes(s, k);
      }
      DisposeFromEmpties(if s.remotes[k].Full? then Dispose(s, k) else s, k + 1);
    }
  }

  lemma MarkDeadTold(s: State, j: nat, robbed: set<int>)
    requires ToldOk(s, robbed)
    ensures ToldOk(MarkDead(s, j), robbed)
  {
    hide ToldOk, KillId, DisposeFrom;
    if !HasR(s, j) {
      SameRemotes(s, Fault(s));
      SteadyKeeps(s, Fault(s), robbed);
    } else {
      var u := s.(remotes := KillId(s.remotes, R(s, j).id));
      KillTold(s, R(s, j).id, robbed);
      var k := FirstLive(u.remotes);
      if k < |u.remotes| {
        var q := R(u, k).(events := R(u, k).events.(pout := true));
        SteadySet(u, SetR(u, k, q), k, q);
        SteadyKeeps(u, SetR(u, k, q), robbed);
      } else {
        DisposeFromEmpties(u, 0);
        NobodyTold(DisposeFrom(u, 0), robbed);
      }
    }
  }

  lemma NobodyTold(s: State, robbed: set<int>)
    requires AllEmpty(s.remotes)
    ensures ToldOk(s, robbed)
  {
    assert forall j: nat :: !HasR(s, j);
  }
  // ---- the scan

  /** Whatever the scan disposes of alive takes nothing from a listener that is not in `robbed`. */
  ghost predicate ScanCovered(s: State, fd: int, invalid: bool, robbed: set<int>) {
    invalid ==> forall j: nat | HasR(s, j) && R(s, j).fd == fd :: Covered(s, j, robbed)
  }

  lemma StillCovered(s: State, j: nat, fd: int, invalid: bool, robbed: set<int>)
    requires HasR(s, j) && ScanCovered(s, fd, invalid, robbed)
    ensures ScanCovered(Dispose(s, j), fd, invalid, robbed)
  {
    hide Dispose, Mine, Others;
    DisposeTakes(s, j);
    var t := Dispose(s, j);
    assert forall k: nat {:trigger HasR(t, k)} {:trigger HasR(s, k)} :: HasR(t, k) <==> HasR(s, k) && k != j;
    forall a: nat | invalid && HasR(t, a) && R(t, a).fd == fd
      ensures Covered(t, a, robbed)
    {
      assert HasR(s, a) && R(t, a) == R(s, a) && Covered(s, a, robbed);
      MineOthers(s.devices, R(s, j).id, R(s, a).id);
    }
  }

  lemma {:induction false} ReapTold(s: State, k: nat, fd: int, invalid: bool, found: Option<nat>, robbed: set<int>)
    requires Inv(s) && ToldOk(s, robbed) && ScanCovered(s, fd, invalid, robbed) && k <= |s.remotes|
    ensures ToldOk(Reap(s, k, fd, invalid, found).0, robbed)
    decreases |s.remotes| - k
  {
    hide Inv, Dispose, Covered, ToldOk, Calm, Spares, Others, Without, Withdrawn, Matched, Released;
    if k < |s.remotes| {
      var slot := s.remotes[k];
      if slot.Empty? {
        ReapTold(s, k + 1, fd, invalid, found, robbed);
      } else if slot.item.state == RDead || (slot.item.fd == fd && invalid) {
        assert Covered(s, k, robbed) by { DeadCovered(s, k, robbed); }
        InvParts(s);
        DisposeTold(s, k, robbed);
        DisposeIs(s, k);
        StillCovered(s, k, fd, invalid, robbed);
        hide ScanCovered;
        ReapTold(Dispose(s, k), k + 1, fd, invalid, if slot.item.state == RDead then found else None, robbed);
      } else {
        ReapTold(s, k + 1, fd, invalid, if slot.item.fd == fd then Some(k) else found, robbed);
      }
    }
  }

  lemma DeadCovered(s: State, k: nat, robbed: set<int>)
    requires HasR(s, k)
    ensures R(s, k).state == RDead ==> Covered(s, k, robbed)
  {
  }

  lemma OthersMember(t: Table<Message>, owner: nat, e: Entry<Message>)
    ensures e in Others(t, owner) <==> e in t && OwnerOf(e.id) != owner
  {
    OthersMembers(t, owner);
  }

  lemma MineMember(t: Table<Message>, owner: nat, e: Entry<Message>)
    ensures e in Mine(t, owner) <==> e in t && OwnerOf(e.id) == owner
  {
    MineMembers(t, owner);
  }

  /** The scan only takes entries away. */
  lemma {:induction false} ReapShrinks(s: State, k: nat, fd: int, invalid: bool, found: Option<nat>)
    requires k <= |s.remotes|
    ensures forall e: Entry<Message> | e in Reap(s, k, fd, invalid, found).0.devices :: e in s.devices
    decreases |s.remotes| - k
  {
    hide Dispose, Others;
    if k < |s.remotes| {
      var slot := s.remotes[k];
      if slot.Empty? {
        ReapShrinks(s, k + 1, fd, invalid, found);
      } else if slot.item.state == RDead || (slot.item.fd == fd && invalid) {
        var t, f := Dispose(s, k), if slot.item.state == RDead then found else None;
        DisposeTakes(s, k);
        forall e: Entry<Message> | e in t.devices
          ensures e in s.devices
        {
          OthersMember(s.devices, slot.item.id, e);
        }
        ReapShrinks(t, k + 1, fd, invalid, f);
        assert Reap(s, k, fd, invalid, found) == Reap(t, k + 1, fd, invalid, f);
      } else {
        ReapShrinks(s, k + 1, fd, invalid, if slot.item.fd == fd then Some(k) else found);
      }
    }
  }

  // ---- announcements

  lemma SaidAppend(w: Codec, owner: nat, ps: seq<Packet>, p: Packet)
    ensures Said(w, owner, ps + [p]) == match SaidBy(w, owner, p)
                                        case None => Said(w, owner, ps)
                                        case Some(n) => Said(w, owner, ps) + [n]
  {
    hide SaidBy;
    assert (ps + [p])[..|ps|] == ps;
  }

  /** The packet withdraws a device without saying which. */
  predicate Unnumbered(w: Codec, p: Packet) {
    && (p.version == 0 || p.version == 1) && p.message == MESSAGE_PLIST && w.dec(p.payload).Some?
    && w.dec(p.payload).value.kind == Some("Detached") && w.dec(p.payload).value.device.None?
  }

  /** Every announcement is about the sender's own ids, but for one that does not say which. */
  lemma OwnKeys(w: Codec, r: Remote, p: Packet)
    requires r.state == RListen && r.id < 256 && AnswerRule(w, r, p) && SaidBy(w, r.id, p).Some?
    ensures var n := SaidBy(w, r.id, p).value;
            if Unnumbered(w, p) then n == Detached(0) else OwnerOf(KeyOf(n)) == r.id
  {
    hide Stored;
    if p.message == MESSAGE_PLIST && w.dec(p.payload).Some? && w.dec(p.payload).value.device.Some? {
      DeviceKey.RenamedKey(r.id, w.dec(p.payload).value.device.value % WORD);
    }
    if p.message == MESSAGE_DEVICE_REMOVE && |p.payload| >= 4 {
      DeviceKey.RenamedKey(r.id, DecodeWord(p.payload));
    }
  }

  predicate KeyIn(t: Table<Message>, id: nat) { exists k :: 0 <= k < |t| && t[k].id == id }

  lemma {:induction false} DelAbsent(t: Table<Message>, id: nat)
    requires !KeyIn(t, id)
    ensures Del(t, id) == t
  {
    if t != [] {
      assert t[0].id != id;
      assert forall k :: 0 <= k < |t[1..]| ==> t[1..][k] == t[k + 1];
      DelAbsent(t[1..], id);
    }
  }

  /** A packet that says nothing in particular, from an upstream with another id than 0, takes entry 0 from the local one. */
  predicate TakesZero(w: Codec, r: Remote, p: Packet) { r.state == RListen && r.id != 0 && Unnumbered(w, p) }

  /** The sender's own entries change as it says, and those of others only if it takes entry 0. */
  lemma SaidChanges(w: Codec, r: Remote, p: Packet, t: Table<Message>, owner: nat)
    requires r.state == RListen && r.id < 256 && AnswerRule(w, r, p)
    ensures var n := SaidBy(w, r.id, p);
            var u := if n.Some? then Apply(t, n.value) else t;
            && (owner == r.id ==> Mine(u, owner) == if n.Some? then Apply(Mine(t, owner), n.value) else Mine(t, owner))
            && (owner != r.id && !(TakesZero(w, r, p) && owner == 0 && KeyIn(t, 0)) ==> Mine(u, owner) == Mine(t, owner))
  {
    hide AnswerRule, SaidBy, Apply, Mine, KeyIn;
    var n := SaidBy(w, r.id, p);
    if n.Some? {
      OwnKeys(w, r, p);
      if owner == r.id {
        MineApply(t, owner, n.value);
      } else if OwnerOf(KeyOf(n.value)) != owner {
        MineUntouched(t, owner, n.value);
      } else if !KeyIn(t, 0) {
        DelAbsent(t, 0);
        AppliedDel(t, 0);
      }
    }
  }

  lemma AppliedDel(t: Table<Message>, id: nat)
    ensures Apply(t, Detached(id)) == Del(t, id)
  {
  }

  /** Upstream j's packet takes an entry of a listener only if that is in `robbed`. */
  ghost predicate PacketCovered(s: State, j: nat, p: Packet, robbed: set<int>)
    requires HasR(s, j)
  {
    TakesZero(s.wire, R(s, j), p) && KeyIn(s.devices, 0) ==>
      forall k: nat | HasR(s, k) && R(s, k).state == RListen && R(s, k).id == 0 :: R(s, k).fd in robbed
  }

  lemma ListenerSays(s: State, j: nat, io: Io, robbed: set<int>)
    requires Inv(s) && ToldOk(s, robbed) && HasR(s, j) && R(s, j).state == RListen && AnswersRule(s.wire, R(s, j), io)
    requires Receive(R(s, j).ib, REMOTE_IB, io).Ready?
    requires PacketCovered(s, j, Receive(R(s, j).ib, REMOTE_IB, io).packet, robbed)
    ensures ToldOk(RemoteRecv(s, j, io), robbed)
  {
    hide Inv, Receive, Announce, AnswerRule, NoteOf, ClientOk, RemoteOk, PairOk, Lossless, RemoteRecv, Mine, Said, Replay,
         Apply, TakesZero, KeyIn;
    var r := R(s, j);
    var rc := Receive(r.ib, REMOTE_IB, io);
    var p, n := rc.packet, SaidBy(s.wire, r.id, rc.packet);
    RemoteFacts(s, j);
    InvParts(s);
    ListenerAnswer(s, j, io, rc.data, p);
    var q := Consumed(RemoteGot(r, rc.data), p);
    var t := RemoteRecv(s, j, io);
    if n.Some? {
      AnnounceRest(s, n.value);
    }
    assert t.remotes == s.remotes[j := Full(q)] && t.wire == s.wire;
    assert t.devices == if n.Some? then Apply(s.devices, n.value) else s.devices;
    assert forall k: nat {:trigger HasR(t, k)} {:trigger HasR(s, k)} :: HasR(t, k) == HasR(s, k);
    forall k: nat | HasR(t, k) && R(t, k).state == RListen && R(t, k).fd !in robbed
      ensures Faithful(t, k)
    {
      assert Faithful(s, k);
      SaidChanges(s.wire, r, p, s.devices, R(s, k).id);
      if k == j {
        SaidAppend(s.wire, r.id, r.packets, p);
        if n.Some? {
          ReplayAppend(Said(s.wire, r.id, r.packets), n.value);
        }
      } else {
        RemoteFacts(s, j);
        assert r.listener by { ListensOnly(s, j); }
        OtherListener(s, j, k);
      }
    }
  }

  lemma ListensOnly(s: State, j: nat)
    requires Inv(s) && HasR(s, j) && R(s, j).state == RListen
    ensures R(s, j).listener
  {
    hide Inv, ClientOk, RemoteStreams, RemoteBuffers, PairOk;
    RemoteFacts(s, j);
  }

  lemma NotOwned(s: State, j: nat)
    requires ListenersOk(s) && HasR(s, j) && R(s, j).listener && R(s, j).state == RCommand
    ensures !Owned(s, R(s, j).id)
  {
    forall k: nat | HasR(s, k)
      ensures !Owner(R(s, k), R(s, j).id)
    {
      assert k == j || Apart(R(s, j), R(s, k));
    }
  }

  /** A listener that has yet to be accepted owns nothing. */
  lemma NothingOwned(s: State, j: nat)
    requires Inv(s) && HasR(s, j) && R(s, j).listener && R(s, j).state == RCommand
    ensures Mine(s.devices, R(s, j).id) == []
  {
    hide Inv, ClientsOk, RemotesOk, FdsOk, ListenersOk, Owned, Mine;
    InvParts(s);
    NotOwned(s, j);
    var m := Mine(s.devices, R(s, j).id);
    if m != [] {
      MineMember(s.devices, R(s, j).id, m[0]);
      assert false;
    }
  }

  /** The answer to Listen announces nothing. */
  lemma ResultSaysNothing(w: Codec, owner: nat, p: Packet)
    requires ResultOf(w, p) == RESULT_OK
    ensures SaidBy(w, owner, p) == None && Said(w, owner, [p]) == []
  {
    SaidAppend(w, owner, [], p);
    assert [] + [p] == [p];
  }

  lemma QuietSays(s: State, j: nat, io: Io, robbed: set<int>)
    requires Inv(s) && ToldOk(s, robbed) && NoneDead(s) && HasR(s, j) && R(s, j).state in {RCommand, RConnecting1}
    requires Receive(R(s, j).ib, REMOTE_IB, io).Ready?
    requires var r, p := R(s, j), Receive(R(s, j).ib, REMOTE_IB, io).packet;
             (p.version != 0 && p.version != 1) || (r.state == RCommand && r.last != Forwarded)
    ensures ToldOk(RemoteRecv(s, j, io), robbed)
  {
    hide Inv, Receive, ClientOk, RemoteStreams, RemoteBuffers, PairOk, Lossless, RemoteRecv, Mine, Said, Replay, ResultOf,
         SaidBy;
    var r := R(s, j);
    var rc := Receive(r.ib, REMOTE_IB, io);
    var p, g := rc.packet, RemoteGot(r, rc.data);
    RemoteFacts(s, j);
    QuietIs(s, j, io, rc.data, p);
    var accepted := (p.version == 0 || p.version == 1) && r.last == ListenCmd && ResultOf(s.wire, p) == RESULT_OK;
    var q := Consumed(if accepted then g.(state := RListen) else g, p);
    var t := RemoteRecv(s, j, io);
    if accepted {
      assert forall k: nat {:trigger HasR(t, k)} {:trigger HasR(s, k)} :: HasR(t, k) == HasR(s, k);
      NothingOwned(s, j);
      ResultSaysNothing(s.wire, r.id, p);
      assert q.packets == [p];
      assert Faithful(t, j) by { assert Replay<Message>([]) == [] by { NoNotes(); } }
    } else {
      hide ToldOk;
      SteadySet(s, t, j, q);
      SteadyKeeps(s, t, robbed);
    }
  }

  lemma NoNotes()
    ensures Replay<Message>([]) == []
  {
  }

  /** Answers that concern the pair alone. */
  lemma PairSays(s: State, j: nat, io: Io, robbed: set<int>)
    requires Inv(s) && ToldOk(s, robbed) && HasR(s, j) && Receive(R(s, j).ib, REMOTE_IB, io).Ready?
    requires var p := Receive(R(s, j).ib, REMOTE_IB, io).packet; p.version == 0 || p.version == 1
    requires (R(s, j).state == RCommand && R(s, j).last == Forwarded) || R(s, j).state == RConnecting1
    ensures ToldOk(RemoteRecv(s, j, io), robbed)
  {
    hide Inv, Receive, ClientMasks, ClientStreams, ClientNotes, ClientRequest, RemoteStreams, RemoteBuffers, Lossless,
         RemoteRecv, ResultOf, ToldOk, PassOn, NotifyConnect;
    var r := R(s, j);
    var rc := Receive(r.ib, REMOTE_IB, io);
    RemoteFacts(s, j);
    var i, p, g := r.client.value, rc.packet, RemoteGot(r, rc.data);
    PairAnswer(s, j, io, i, p, rc.data);
    var t := RemoteRecv(s, j, io);
    SteadySet(s, t, j, Consumed(if r.state == RCommand then g else ConnectAnswered(g, ResultOf(s.wire, p)), p));
    SteadyKeeps(s, t, robbed);
  }

  lemma RecvTold(s: State, j: nat, io: Io, robbed: set<int>)
    requires Inv(s) && ToldOk(s, robbed) && NoneDead(s) && HasR(s, j) && AnswersRule(s.wire, R(s, j), io)
    requires R(s, j).state in {RCommand, RListen, RConnecting1}
    requires Receive(R(s, j).ib, REMOTE_IB, io).Ready? ==>
               PacketCovered(s, j, Receive(R(s, j).ib, REMOTE_IB, io).packet, robbed)
    ensures ToldOk(RemoteRecv(s, j, io), robbed)
  {
    hide Inv, Receive, MarkDead, HandleResult, ToldOk, AnswersRule, PacketCovered, NoneDead;
    var r := R(s, j);
    match Receive(r.ib, REMOTE_IB, io)
    case Gone => MarkDeadTold(s, j, robbed);
    case BadLength(data) =>
      SteadySet(s, SetR(s, j, RemoteGot(r, data)), j, RemoteGot(r, data));
      SteadyKeeps(s, SetR(s, j, RemoteGot(r, data)), robbed);
      MarkDeadTold(SetR(s, j, RemoteGot(r, data)), j, robbed);
    case More(data) =>
      SteadySet(s, SetR(s, j, RemoteGot(r, data)), j, RemoteGot(r, data));
      SteadyKeeps(s, SetR(s, j, RemoteGot(r, data)), robbed);
    case Ready(data, p) =>
      if r.state == RListen {
        ListenerSays(s, j, io, robbed);
      } else if (p.version != 0 && p.version != 1) || (r.state == RCommand && r.last != Forwarded) {
        QuietSays(s, j, io, robbed);
      } else {
        PairSays(s, j, io, robbed);
      }
  }
  // ---- who is robbed in a step

  /** A lone POLLNVAL disposes of a connection made for a client, with the id of listener k, which owns devices. */
  ghost predicate RobbedByDisposal(s: State, fd: int, ev: Revents, k: nat)
    requires HasR(s, k)
  {
    && ev == Revents(false, false, false, true) && Mine(s.devices, R(s, k).id) != []
    && exists j: nat :: HasR(s, j) && R(s, j).fd == fd && !R(s, j).listener && R(s, j).state != RDead
                        && R(s, j).id == R(s, k).id
  }

  /** Another upstream withdraws a device without saying which, and listener k is the local one and has device 0. */
  ghost predicate RobbedByPacket(s: State, fd: int, ev: Revents, io: Io, k: nat)
    requires HasR(s, k)
  {
    && ev.pin && R(s, k).id == 0 && KeyIn(s.devices, 0)
    && exists j: nat :: HasR(s, j) && R(s, j).fd == fd && Receive(R(s, j).ib, REMOTE_IB, io).Ready?
                        && TakesZero(s.wire, R(s, j), Receive(R(s, j).ib, REMOTE_IB, io).packet)
  }

  ghost predicate RobbedAt(s: State, fd: int, ev: Revents, io: Io, k: nat) {
    && HasR(s, k) && R(s, k).state == RListen
    && (RobbedByDisposal(s, fd, ev, k) || RobbedByPacket(s, fd, ev, io, k))
  }

  ghost predicate RobbedIn(s: State, fd: int, ev: Revents, io: Io, robbed: set<int>) {
    forall k: nat | RobbedAt(s, fd, ev, io, k) :: R(s, k).fd in robbed
  }

  lemma ScanRobs(s: State, fd: int, ev: Revents, io: Io, robbed: set<int>)
    requires RobbedIn(s, fd, ev, io, robbed)
    ensures ScanCovered(s, fd, ev == Revents(false, false, false, true), robbed)
  {
    hide Mine;
    forall j: nat | HasR(s, j) && R(s, j).fd == fd && ev == Revents(false, false, false, true)
      ensures Covered(s, j, robbed)
    {
      if R(s, j).state != RDead && !R(s, j).listener {
        forall k: nat | HasR(s, k) && R(s, k).state == RListen && R(s, k).id == R(s, j).id
                        && Mine(s.devices, R(s, k).id) != []
          ensures R(s, k).fd in robbed
        {
          assert RobbedByDisposal(s, fd, ev, k);
          assert RobbedAt(s, fd, ev, io, k);
        }
      }
    }
  }

  /** What the scan leaves of the upstreams. */
  lemma Survivors(s: State, fd: int, invalid: bool)
    requires Inv(s)
    ensures var (u, found) := Reap(s, 0, fd, invalid, None);
            && Inv(u) && u.wire == s.wire && NoneDead(u)
            && (forall k: nat | HasR(u, k) :: HasR(s, k) && R(u, k) == R(s, k))
            && (found.Some? ==> HasR(u, found.value) && R(u, found.value).fd == fd)
  {
    hide Inv, Reap, Calm;
    ReapIs(s, 0, fd, invalid, None);
    ReapWire(s, 0, fd, invalid, None);
  }

  lemma PacketRobs(s: State, u: State, j: nat, fd: int, ev: Revents, io: Io, robbed: set<int>)
    requires RobbedIn(s, fd, ev, io, robbed) && u.wire == s.wire && ev.pin
    requires forall k: nat | HasR(u, k) :: HasR(s, k) && R(u, k) == R(s, k)
    requires KeyIn(u.devices, 0) ==> KeyIn(s.devices, 0)
    requires HasR(u, j) && R(u, j).fd == fd && Receive(R(u, j).ib, REMOTE_IB, io).Ready?
    ensures PacketCovered(u, j, Receive(R(u, j).ib, REMOTE_IB, io).packet, robbed)
  {
    hide Receive, KeyIn, TakesZero, Mine;
    var p := Receive(R(u, j).ib, REMOTE_IB, io).packet;
    if TakesZero(u.wire, R(u, j), p) && KeyIn(u.devices, 0) {
      forall k: nat | HasR(u, k) && R(u, k).state == RListen && R(u, k).id == 0
        ensures R(u, k).fd in robbed
      {
        assert HasR(s, j) && R(s, j) == R(u, j);
        assert RobbedByPacket(s, fd, ev, io, k);
        assert RobbedAt(s, fd, ev, io, k);
      }
    }
  }

  lemma KeysShrink(t: Table<Message>, u: Table<Message>)
    requires forall e: Entry<Message> | e in u :: e in t
    ensures KeyIn(u, 0) ==> KeyIn(t, 0)
  {
    if k :| 0 <= k < |u| && u[k].id == 0 {
      assert u[k] in t;
    }
  }

  /** The relay changes no listener and no entry. */
  lemma RelaySteady(s: State, j: nat, ev: Revents, io: Io)
    requires HasR(s, j) && R(s, j).state == RConnected
    ensures Steady(s, RelayRemote(s, j, ev, io))
  {
    hide Steady, UpstreamClose, OrClient, RemoteSend, RawRead;
    var r := R(s, j);
    if ev.pin && |r.ib| < REMOTE_IB && io.Read? {
      var data := Taken(io, REMOTE_IB - |r.ib|);
      if data == [] {
        var q := r.(events := r.events.(pin := false));
        SteadySet(s, SetR(s, j, q), j, q);
      } else {
        RawSame(r, data);
        SteadySet(s, SetR(s, j, RawRead(r, data)), j, RawRead(r, data));
        OrSteady(SetR(s, j, RawRead(r, data)), r.client, Mask(false, true));
        SteadyTransitive(s, SetR(s, j, RawRead(r, data)), RelayRemote(s, j, ev, io));
      }
    } else if ev.pin {
      SameRemotes(s, s);
      UpstreamCloseSteady(s, j);
    } else if ev.pout {
      SendSteady(s, j, io);
      var (t, alive) := RemoteSend(s, j, io);
      OrSteady(t, r.client, Mask(true, false));
      if alive {
        SteadyTransitive(s, t, RelayRemote(s, j, ev, io));
      }
    } else {
      UpstreamCloseSteady(s, j);
    }
  }

  lemma OrSteady(s: State, client: Option<nat>, m: Mask)
    ensures Steady(s, OrClient(s, client, m))
  {
    hide Steady, OrEvents;
    SameRemotes(s, OrClient(s, client, m));
  }

  lemma SendSteady(s: State, j: nat, io: Io)
    requires HasR(s, j)
    ensures Steady(s, RemoteSend(s, j, io).0)
  {
    hide Steady, UpstreamClose;
    var r := R(s, j);
    if r.ob == [] {
      var q := r.(events := r.events.(pout := false));
      SteadySet(s, SetR(s, j, q), j, q);
    } else {
      var n := Accepted(io, |r.ob|);
      if n == 0 {
        UpstreamCloseSteady(s, j);
      } else {
        SteadySet(s, SetR(s, j, RemoteSent(r, n)), j, RemoteSent(r, n));
      }
    }
  }

  lemma RemoteProcessTold(s: State, fd: int, ev: Revents, io: Io, robbed: set<int>)
    requires Inv(s) && ToldOk(s, robbed) && (ev.pin ==> EventRule(s, fd, io)) && RobbedIn(s, fd, ev, io, robbed)
    ensures ToldOk(RemoteProcess(s, fd, ev, io), robbed)
  {
    hide Inv, Reap, RelayRemote, RemoteRecv, RemoteSend, ToldOk, RobbedIn, AnswersRule, Steady, ScanCovered, NoneDead;
    var invalid := ev == Revents(false, false, false, true);
    var (u, found) := Reap(s, 0, fd, invalid, None);
    ScanRobs(s, fd, ev, io, robbed);
    ReapTold(s, 0, fd, invalid, None, robbed);
    Survivors(s, fd, invalid);
    if found.Some? {
      var j := found.value;
      assert HasR(u, j) && R(u, j) == R(s, j);
      StateKnown(u, j);
      if R(u, j).state == RConnected {
        RelaySteady(u, j, ev, io);
        SteadyKeeps(u, RelayRemote(u, j, ev, io), robbed);
      } else if ev.pin {
        ReapShrinks(s, 0, fd, invalid, None);
        KeysShrink(s.devices, u.devices);
        if Receive(R(u, j).ib, REMOTE_IB, io).Ready? {
          PacketRobs(s, u, j, fd, ev, io, robbed);
        }
        RecvTold(u, j, io, robbed);
      } else if ev.pout {
        SendSteady(u, j, io);
        SteadyKeeps(u, RemoteSend(u, j, io).0, robbed);
      }
    }
  }

  lemma StateKnown(s: State, j: nat)
    requires Inv(s) && NoneDead(s) && HasR(s, j)
    ensures R(s, j).state in {RCommand, RListen, RConnecting1, RConnected}
  {
    hide Inv, RemoteStreams, RemoteBuffers, ClientOk, PairOk;
    RemoteFacts(s, j);
  }

  // ---- clients change neither the table nor what an upstream has said

  lemma ReplySteady(s: State, i: nat, p: Packet)
    ensures Steady(s, Reply(s, i, p))
  {
    hide Steady, QueueReply;
    SameRemotes(s, Reply(s, i, p));
  }

  lemma ReplyResultSteady(s: State, i: nat, tag: nat, result: nat)
    ensures Steady(s, ReplyResult(s, i, tag, result))
  {
    hide Steady, Reply, ResultPacket;
    if HasC(s, i) {
      ReplySteady(s, i, ResultPacket(s.wire, C(s, i).version, tag, result));
    } else {
      SameRemotes(s, Fault(s));
    }
  }

  lemma StartListenSteady(s: State, i: nat, tag: nat)
    ensures Steady(s, StartListen(s, i, tag).0)
  {
    hide Steady, ReplyResult, Told0;
    ReplyResultSteady(s, i, tag, RESULT_OK);
    var t := ReplyResult(s, i, tag, RESULT_OK);
    SameRemotes(t, StartListen(s, i, tag).0);
    SteadyTransitive(s, t, StartListen(s, i, tag).0);
  }

  lemma AttachSteady(s: State, i: nat, r: Remote)
    requires HasC(s, i) && Plain(r)
    ensures Steady(s, Attach(s, i, r))
  {
    hide Steady, AddSlot, FirstEmpty;
    SteadyAdded(s, Attach(s, i, r), r.(client := Some(i)));
  }

  lemma ConnectSteady(s: State, i: nat, device: nat, request: Message, tag: nat, conn: Option<int>)
    ensures Steady(s, Connect(s, i, device, request, tag, conn))
  {
    hide Steady, Attach, ReplyResult, Route, OwnerOf, PlistPacket, Frame, Grown;
    if !HasC(s, i) {
      SameRemotes(s, Fault(s));
    } else if Route(s, OwnerOf(device)).None? || !Fresh(s, conn) {
      ReplyResultSteady(s, i, tag, RESULT_BADCOMMAND);
    } else {
      var r := Asked(s.wire, conn.value, Route(s, OwnerOf(device)).value, device, request);
      AttachSteady(s, i, r);
      AttachHas(s, i, r);
      SameRemotes(Attach(s, i, r), Connect(s, i, device, request, tag, conn));
      SteadyTransitive(s, Attach(s, i, r), Connect(s, i, device, request, tag, conn));
    }
  }

  lemma AttachHas(s: State, i: nat, r: Remote)
    requires HasC(s, i)
    ensures HasC(Attach(s, i, r), i)
  {
    hide AddSlot, FirstEmpty;
  }

  lemma ForwardSteady(s: State, i: nat, owner: nat, first: Packet, conn: Option<int>)
    ensures Steady(s, Forward(s, i, owner, first, conn).0)
  {
    hide Steady, Attach, Route, Frame, Grown;
    SameRemotes(s, s);
    SameRemotes(s, Fault(s));
    var peer := Route(s, owner);
    if HasC(s, i) && peer.Some? && Fresh(s, conn) {
      AttachSteady(s, i, NewRemote(conn.value, peer.value, first).(last := Forwarded));
    }
  }

  lemma ServiceAddSteady(s: State, service: string, host: Host, conn: Option<int>)
    ensures Steady(s, ServiceAdd(s, service, host, conn).0)
  {
    hide Steady, AddSlot, FirstEmpty, Known, PlistPacket, Frame, Grown;
    var t := ServiceAdd(s, service, host, conn).0;
    if !Known(s.remotes, service, host) && Fresh(s, conn) && IdMap.LeastFree(s.used) != 0 {
      var r := NewRemote(conn.value, host, PlistPacket(s.wire, 1, 0, OwnRequest("Listen")))
               .(id := IdMap.LeastFree(s.used), listener := true, service := service, last := ListenCmd);
      SteadyAdded(s, t, r);
    } else {
      SameRemotes(s, t);
    }
  }

  lemma ServiceRemoveTold(s: State, service: Option<string>, host: Option<Host>, robbed: set<int>)
    requires ToldOk(s, robbed)
    ensures ToldOk(ServiceRemove(s, service, host).0, robbed)
  {
    hide ToldOk, MarkDead;
    MarkDeadTold(s, FirstNamed(s.remotes, service, host), robbed);
  }

  lemma PlistCommandTold(s: State, i: nat, m: Message, p: Packet, conn: Option<int>, robbed: set<int>)
    requires m.kind.Some? && ToldOk(s, robbed)
    ensures ToldOk(PlistCommand(s, i, m, p, conn).0, robbed)
  {
    hide ToldOk, Steady, StartListen, Connect, Reply, ReplyResult, Forward, ServiceAdd, ServiceRemove, Nameless, RecordOwner,
         InstanceReport, ListeningSlots, PlistPacket, OwnerOf;
    var t := PlistCommand(s, i, m, p, conn).0;
    var kind, w, tag := m.kind.value, s.wire, p.tag;
    if kind == "RemoveInstance" && m.host.Some? && m.port.Some? {
      var (u, res) := ServiceRemove(s, None, Some(Host(m.host.value, m.port.value % 0x1_0000)));
      ServiceRemoveTold(s, None, Some(Host(m.host.value, m.port.value % 0x1_0000)), robbed);
      ReplyResultSteady(u, i, tag, if res == 0 then RESULT_OK else RESULT_BADDEV);
      SteadyKeeps(u, t, robbed);
    } else {
      PlistSteady(s, i, m, p, conn);
      SteadyKeeps(s, t, robbed);
    }
  }

  lemma PlistSteady(s: State, i: nat, m: Message, p: Packet, conn: Option<int>)
    requires m.kind.Some? && !(m.kind == Some("RemoveInstance") && m.host.Some? && m.port.Some?)
    ensures Steady(s, PlistCommand(s, i, m, p, conn).0)
  {
    hide Steady, StartListen, Connect, Reply, ReplyResult, Forward, ServiceAdd, ServiceRemove, Nameless, RecordOwner,
         InstanceReport, ListeningSlots, PlistPacket, OwnerOf;
    var kind, w, tag := m.kind.value, s.wire, p.tag;
    forall result: nat
      ensures Steady(s, ReplyResult(s, i, tag, result))
    {
      ReplyResultSteady(s, i, tag, result);
    }
    if kind == "Listen" {
      StartListenSteady(s, i, tag);
    } else if kind == "Connect" {
      if m.device.Some? && m.port.Some? {
        ConnectSteady(s, i, m.device.value % WORD, m, tag, conn);
      }
    } else if kind == "ListDevices" {
      ReplySteady(s, i, Packet(1, MESSAGE_PLIST, tag, w.report(DeviceList(s.devices))));
    } else if kind == "ListListeners" {
      ReplySteady(s, i, Packet(1, MESSAGE_PLIST, tag, w.report(ListenerList(ListeningSlots(s.clients)))));
    } else if kind == "Instances" {
      ReplySteady(s, i, Packet(1, MESSAGE_PLIST, tag, w.report(Instances(InstanceReport(s.remotes, s.devices)))));
    } else if kind == "ReadBUID" {
      ForwardSteady(s, i, if s.devices == [] then 0 else OwnerOf(s.devices[0].id),
                    PlistPacket(w, 1, tag, OwnRequest("ReadBUID")), conn);
    } else if kind == "ReadPairRecord" || kind == "DeletePairRecord" || kind == "SavePairRecord" {
      SameRemotes(s, Fault(s));
      var request := if kind == "SavePairRecord" then m else OwnRequest(kind).(record := m.record);
      ForwardSteady(s, i, RecordOwner(s.devices, m), PlistPacket(w, 1, tag, request), conn);
    } else if kind == "AddInstance" && m.host.Some? && m.port.Some? {
      var host := Host(m.host.value, m.port.value % 0x1_0000);
      var (t, res) := ServiceAdd(s, m.host.value, host, conn);
      var result := if res == 0 then RESULT_OK else if res == -2 then RESULT_BADDEV else RESULT_CONNREFUSED;
      ServiceAddSteady(s, m.host.value, host, conn);
      ReplyResultSteady(t, i, tag, result);
      SteadyTransitive(s, t, ReplyResult(t, i, tag, result));
    }
  }

  lemma ClientCommandTold(s: State, i: nat, p: Packet, conn: Option<int>, robbed: set<int>)
    requires HasC(s, i) && ToldOk(s, robbed)
    ensures ToldOk(ClientCommand(s, i, p, conn).0, robbed)
  {
    hide ToldOk, Steady, StartListen, Connect, ReplyResult, PlistCommand, ClientClose, BinaryConnect;
    var t := ClientCommand(s, i, p, conn).0;
    var v := SetC(s, i, C(s, i).(version := 1));
    SameRemotes(s, v);
    SteadyKeeps(s, v, robbed);
    if C(s, i).state != Command {
      var u := ReplyResult(s, i, p.tag, RESULT_BADCOMMAND);
      ReplyResultSteady(s, i, p.tag, RESULT_BADCOMMAND);
      ClientCloseSteady(u, i);
      SteadyTransitive(s, u, t);
      SteadyKeeps(s, t, robbed);
    } else if (p.version == 0 || p.version == 1) && p.message == MESSAGE_PLIST {
      var m := s.wire.dec(p.payload);
      if m.Some? && m.value.kind.Some? {
        PlistCommandTold(v, i, m.value, p, conn, robbed);
      }
    } else {
      ReplyResultSteady(s, i, p.tag, RESULT_BADVERSION);
      ReplyResultSteady(s, i, p.tag, RESULT_BADCOMMAND);
      StartListenSteady(s, i, p.tag);
      if |p.payload| >= 8 {
        ConnectSteady(s, i, DecodeWord(p.payload), BinaryConnect(p), p.tag, conn);
      }
      SteadyKeeps(s, t, robbed);
    }
  }

  lemma ClientRecvTold(s: State, i: nat, io: Io, conn: Option<int>, robbed: set<int>)
    requires HasC(s, i) && ToldOk(s, robbed)
    ensures ToldOk(ClientRecv(s, i, io, conn), robbed)
  {
    hide ToldOk, Steady, ClientCommand, ClientClose, Receive;
    var c, t := C(s, i), ClientRecv(s, i, io, conn);
    var receipt := Receive(c.ib, CLIENT_IB, io);
    if !c.ibFreed && receipt.Ready? {
      var h := SetC(s, i, Got(c, receipt.data).(held := true));
      SameRemotes(s, h);
      SteadyKeeps(s, h, robbed);
      ClientCommandTold(h, i, receipt.packet, conn, robbed);
      var (u, ret) := ClientCommand(h, i, receipt.packet, conn);
      SameRemotes(u, t);
      SteadyKeeps(u, t, robbed);
    } else {
      ClientCloseSteady(s, i);
      if c.ibFreed || receipt.More? {
        SameRemotes(s, t);
      }
      SteadyKeeps(s, t, robbed);
    }
  }

  lemma ClientSendSteady(s: State, i: nat, io: Io)
    requires HasC(s, i)
    ensures Steady(s, ClientSend(s, i, io))
  {
    hide Steady, ClientClose, Sent;
    var t := ClientSend(s, i, io);
    ClientCloseSteady(s, i);
    if t != ClientClose(s, i) {
      SameRemotes(s, t);
    }
  }

  lemma RelayClientTold(s: State, i: nat, ev: Revents, io: Io, robbed: set<int>)
    requires HasC(s, i) && ToldOk(s, robbed)
    ensures ToldOk(RelayClient(s, i, ev, io), robbed)
  {
    hide ToldOk, Steady, ClientClose, UpC, DownC;
    var c, t := C(s, i), RelayClient(s, i, ev, io);
    ClientCloseSteady(s, i);
    if c.remote.Some? && HasR(s, c.remote.value) && t.remotes != s.remotes && t != ClientClose(s, i) {
      SteadySet(s, t, c.remote.value, t.remotes[c.remote.value].item);
    } else if t != ClientClose(s, i) {
      SameRemotes(s, t);
    }
    SteadyKeeps(s, t, robbed);
  }

  lemma ClientProcessTold(s: State, fd: int, ev: Revents, io: Io, conn: Option<int>, robbed: set<int>)
    requires ToldOk(s, robbed)
    ensures ToldOk(ClientProcess(s, fd, ev, io, conn), robbed)
  {
    hide ToldOk, Steady, RelayClient, ClientRecv, ClientSend;
    var i := FindClient(s.clients, fd);
    if i < |s.clients| {
      RelayClientTold(s, i, ev, io, robbed);
      ClientRecvTold(s, i, io, conn, robbed);
      ClientSendSteady(s, i, io);
      SteadyKeeps(s, ClientSend(s, i, io), robbed);
    }
  }

  // ---- steps and runs

  /** The descriptors of the listeners that are robbed in a step. */
  ghost function Robs(l: Loop, e: Event): set<int> {
    if e.Dispatch? && l.todo != [] && l.todo[0].party == RemoteSide && !NoEvents(e.ev) then
      set k | 0 <= k < |l.s.remotes| && RobbedAt(l.s, l.todo[0].fd, e.ev, e.io, k) :: l.s.remotes[k].item.fd
    else {}
  }

  /** And of those robbed in a run. */
  ghost function AllRobbed(l: Loop, es: seq<Event>): set<int> {
    if es == [] then {}
    else AllRobbed(l, es[..|es| - 1]) + Robs(Run(l, es[..|es| - 1]), es[|es| - 1])
  }

  lemma NextTold(l: Loop, e: Event, robbed: set<int>)
    requires LoopInv(l) && Allowed(l, e) && ToldOk(l.s, robbed)
    ensures ToldOk(Next(l, e).s, robbed + Robs(l, e))
  {
    hide Inv, ToldOk, Steady, ClientProcess, RemoteProcess, ServiceAdd, ServiceRemove, AddClient, ClientsFirst, NotStale,
         RobbedAt, EventRule, EventLoop.Snapshot;
    var more := robbed + Robs(l, e);
    MoreRobbed(l.s, robbed, more);
    match e
    case Poll =>
    case Dispatch(ev, io, conn) =>
      if l.todo != [] && !NoEvents(ev) {
        match l.todo[0].party
        case Acceptor =>
          if Fresh(l.s, conn) {
            AcceptedSteady(l.s, conn.value);
            SteadyKeeps(l.s, AddClient(l.s, NewClient(conn.value)), more);
          }
        case ClientSide => ClientProcessTold(l.s, l.todo[0].fd, ev, io, conn, more);
        case RemoteSide =>
          assert RobbedIn(l.s, l.todo[0].fd, ev, io, more) by { RobsAre(l, e, more); }
          RemoteProcessTold(l.s, l.todo[0].fd, ev, io, more);
      }
    case ServiceAppears(service, host, conn) =>
      ServiceAddSteady(l.s, service, host, conn);
      SteadyKeeps(l.s, Next(l, e).s, more);
    case ServiceVanishes(service) => ServiceRemoveTold(l.s, Some(service), None, more);
  }

  lemma AcceptedSteady(s: State, fd: int)
    ensures Steady(s, AddClient(s, NewClient(fd)))
  {
    hide Steady, AddSlot, FirstEmpty;
    SameRemotes(s, AddClient(s, NewClient(fd)));
  }

  lemma RobsAre(l: Loop, e: Event, robbed: set<int>)
    requires e.Dispatch? && l.todo != [] && l.todo[0].party == RemoteSide && !NoEvents(e.ev) && Robs(l, e) <= robbed
    ensures RobbedIn(l.s, l.todo[0].fd, e.ev, e.io, robbed)
  {
    hide RobbedByDisposal, RobbedByPacket;
    forall k: nat | RobbedAt(l.s, l.todo[0].fd, e.ev, e.io, k)
      ensures R(l.s, k).fd in robbed
    {
      assert l.s.remotes[k].item.fd in Robs(l, e);
    }
  }

  lemma StartTold(w: Codec, local: Option<int>)
    ensures ToldOk(Start(w, local), {})
  {
    hide Frame, Grown, PlistPacket, Mine, Said, Replay;
  }

  lemma {:induction false} RunTold(l: Loop, es: seq<Event>)
    requires LoopInv(l) && AllAllowed(l, es) && ToldOk(l.s, {})
    ensures ToldOk(Run(l, es).s, AllRobbed(l, es))
    decreases |es|
  {
    hide LoopInv, ToldOk, Next, Allowed, Robs;
    if es != [] {
      var front := es[..|es| - 1];
      RunKeeps(l, front);
      RunTold(l, front);
      NextTold(Run(l, front), es[|es| - 1], AllRobbed(l, front));
    }
  }

  /**
   Over any run, for every upstream that listens and has not been robbed: the entries under its id are,
   in order, what replaying its own announcements gives, whatever other upstreams and clients have done.
   */
  lemma TableIsSaid(w: Codec, local: Option<int>, es: seq<Event>, j: nat)
    requires Lossless(w) && AllAllowed(Loop(Start(w, local), []), es)
    requires var s := Run(Loop(Start(w, local), []), es).s; HasR(s, j) && R(s, j).state == RListen
    requires var s := Run(Loop(Start(w, local), []), es).s; R(s, j).fd !in AllRobbed(Loop(Start(w, local), []), es)
    ensures var s := Run(Loop(Start(w, local), []), es).s;
            && Faithful(s, j)
            && forall e: Entry<Message> ::
                 e in s.devices && OwnerOf(e.id) == R(s, j).id <==> e in Replay(Said(s.wire, R(s, j).id, R(s, j).packets))
  {
    hide LoopInv, Run, AllAllowed, AllRobbed, Start, OwnerOf, Mine, Said, Replay, ToldOk;
    StartKeeps(w, local);
    StartTold(w, local);
    RunTold(Loop(Start(w, local), []), es);
    var s := Run(Loop(Start(w, local), []), es).s;
    StaysFaithful(s, j, AllRobbed(Loop(Start(w, local), []), es));
    forall e: Entry<Message>
      ensures e in s.devices && OwnerOf(e.id) == R(s, j).id <==> e in Mine(s.devices, R(s, j).id)
    {
      MineMember(s.devices, R(s, j).id, e);
    }
  }
  // ---- the condition is exact

  /** Every reachable state is that of some run. */
  lemma ReachableTold(l: Loop) returns (robbed: set<int>)
    requires Reachable(l)
    ensures LoopInv(l) && ToldOk(l.s, robbed)
  {
    hide LoopInv, ToldOk, Run, AllAllowed, AllRobbed, Start;
    var w: Codec, local: Option<int>, es: seq<Event> :|
      Lossless(w) && AllAllowed(Loop(Start(w, local), []), es) && l == Run(Loop(Start(w, local), []), es);
    StartKeeps(w, local);
    StartTold(w, local);
    RunKeeps(Loop(Start(w, local), []), es);
    RunTold(Loop(Start(w, local), []), es);
    robbed := AllRobbed(Loop(Start(w, local), []), es);
  }

  /** The descriptors of all upstreams but j. */
  function OtherFds(s: State, j: nat): set<int>
    requires HasR(s, j)
  {
    (set k | 0 <= k < |s.remotes| && s.remotes[k].Full? :: s.remotes[k].item.fd) - {R(s, j).fd}
  }

  /** To follow one upstream, let all others be robbed. */
  lemma FollowOne(s: State, j: nat, robbed: set<int>)
    requires Inv(s) && ToldOk(s, robbed) && HasR(s, j) && (R(s, j).state == RListen ==> Faithful(s, j))
    ensures ToldOk(s, OtherFds(s, j)) && R(s, j).fd !in OtherFds(s, j)
  {
    hide Inv, Faithful;
    OneFd(s);
    forall k: nat | HasR(s, k) && R(s, k).state == RListen && R(s, k).fd !in OtherFds(s, j)
      ensures Faithful(s, k)
    {
      assert R(s, k).fd == R(s, j).fd;
      assert k == j;
    }
  }

  /** The scan leaves nothing under the id of what it disposes of. */
  lemma {:induction false} ReapTakes(s: State, k: nat, fd: int, found: Option<nat>, a: nat)
    requires k <= a < |s.remotes| && s.remotes[a].Full? && s.remotes[a].item.fd == fd
    ensures forall e: Entry<Message> | e in Reap(s, k, fd, true, found).0.devices :: OwnerOf(e.id) != s.remotes[a].item.id
    decreases |s.remotes| - k
  {
    hide Dispose, Others, OwnerOf;
    var slot := s.remotes[k];
    if slot.Empty? {
      ReapTakes(s, k + 1, fd, found, a);
    } else if slot.item.state == RDead || slot.item.fd == fd {
      var t, f := Dispose(s, k), if slot.item.state == RDead then found else None;
      DisposeTakes(s, k);
      assert Reap(s, k, fd, true, found) == Reap(t, k + 1, fd, true, f);
      if k == a {
        ReapShrinks(t, k + 1, fd, true, f);
        forall e: Entry<Message> | e in t.devices
          ensures OwnerOf(e.id) != slot.item.id
        {
          OthersMember(s.devices, slot.item.id, e);
        }
      } else {
        ReapTakes(t, k + 1, fd, f, a);
      }
    } else {
      ReapTakes(s, k + 1, fd, if slot.item.fd == fd then Some(k) else found, a);
    }
  }

  lemma NoneMine(t: Table<Message>, owner: nat)
    requires forall e: Entry<Message> | e in t :: OwnerOf(e.id) != owner
    ensures Mine(t, owner) == []
  {
    if t != [] {
      assert t[0] in t;
      NoneMine(t[1..], owner);
    }
  }

  lemma DisposalRobs(s: State, fd: int, io: Io, j: nat)
    requires Inv(s) && HasR(s, j) && Faithful(s, j)
    requires RobbedByDisposal(s, fd, Revents(false, false, false, true), j)
    ensures var t := RemoteProcess(s, fd, Revents(false, false, false, true), io);
            HasR(t, j) && R(t, j).fd == R(s, j).fd ==> !Faithful(t, j)
  {
    hide Inv, Reap, Mine, Said, Replay, OwnerOf, Calm;
    var a: nat :| HasR(s, a) && R(s, a).fd == fd && R(s, a).id == R(s, j).id;
    ReapIs(s, 0, fd, true, None);
    Survivors(s, fd, true);
    ReapTakes(s, 0, fd, None, a);
    var u := Reap(s, 0, fd, true, None).0;
    NoneMine(u.devices, R(s, j).id);
  }

  lemma {:induction false} DelPresent(t: Table<Message>, id: nat)
    requires KeyIn(t, id)
    ensures |Del(t, id)| == |t| - 1
  {
    if t[0].id != id {
      var k :| 0 <= k < |t| && t[k].id == id;
      assert t[1..][k - 1].id == id;
      DelPresent(t[1..], id);
    }
  }

  lemma KeyMine(t: Table<Message>, id: nat)
    ensures KeyIn(t, id) ==> KeyIn(Mine(t, OwnerOf(id)), id)
  {
    hide OwnerOf;
    if k :| 0 <= k < |t| && t[k].id == id {
      MineMember(t, OwnerOf(id), t[k]);
      assert t[k] in Mine(t, OwnerOf(id));
    }
  }

  lemma PacketTakesZero(s: State, fd: int, ev: Revents, io: Io, j: nat, robbed: set<int>)
    requires Inv(s) && ToldOk(s, robbed) && HasR(s, j) && R(s, j).state == RListen && Faithful(s, j)
    requires RobbedByPacket(s, fd, ev, io, j)
    ensures var t := RemoteProcess(s, fd, ev, io);
            HasR(t, j) && R(t, j).fd == R(s, j).fd ==> !Faithful(t, j)
  {
    hide Inv, Reap, Receive, Mine, Said, Replay, KeyIn, ToldOk, RemoteProcess, RemoteRecv, Del, Apply, NoteOf, Announce;
    var a: nat :| HasR(s, a) && R(s, a).fd == fd && Receive(R(s, a).ib, REMOTE_IB, io).Ready?
                  && TakesZero(s.wire, R(s, a), Receive(R(s, a).ib, REMOTE_IB, io).packet);
    FoundAlive(s, a, ev, io);
    Survivors(s, fd, false);
    FollowOne(s, j, robbed);
    var u := Reap(s, 0, fd, false, None).0;
    ReapTold(s, 0, fd, false, None, OtherFds(s, j));
    var rc := Receive(R(u, a).ib, REMOTE_IB, io);
    ListenerAnswer(u, a, io, rc.data, rc.packet);
    assert NoteOf(u.wire, R(u, a).id, rc.packet) == Some(Detached(0)) by { UnnumberedNote(u.wire, R(u, a).id, rc.packet); }
    AnnounceRest(u, Detached(0));
    if HasR(u, j) {
      assert Faithful(u, j) by { StaysFaithful(u, j, OtherFds(s, j)); }
      KeyMine(s.devices, 0);
      assert OwnerOf(0) == 0;
      MineApply(u.devices, 0, Detached(0));
      AppliedDel(Mine(u.devices, 0), 0);
      DelPresent(Mine(u.devices, 0), 0);
    }
  }

  lemma UnnumberedNote(w: Codec, owner: nat, p: Packet)
    requires Unnumbered(w, p)
    ensures NoteOf(w, owner, p) == Some(Detached(0))
  {
  }

  lemma StaysFaithful(s: State, j: nat, robbed: set<int>)
    requires ToldOk(s, robbed) && HasR(s, j) && R(s, j).state == RListen && R(s, j).fd !in robbed
    ensures Faithful(s, j)
  {
    hide Faithful;
  }

  /**
   A step leaves a faithful listener that goes on listening faithful if and only if it does not rob it: by a
   lone POLLNVAL on a connection made for a client with the listener's id, while the listener has
   devices; or by another upstream's packet that withdraws a device without saying which, while the local
   upstream has device 0.
   */
  lemma RobsExactly(l: Loop, e: Event, j: nat)
    requires Reachable(l) && Allowed(l, e) && HasR(l.s, j) && R(l.s, j).state == RListen && Faithful(l.s, j)
    requires var t := Next(l, e).s; HasR(t, j) && R(t, j).state == RListen && R(t, j).fd == R(l.s, j).fd
    ensures Faithful(Next(l, e).s, j) <==> R(l.s, j).fd !in Robs(l, e)
  {
    hide Inv, Reachable, Faithful, ToldOk, Next, Allowed, Robs, ClientsFirst, NotStale, OtherFds;
    var robbed := ReachableTold(l);
    if R(l.s, j).fd !in Robs(l, e) {
      FollowOne(l.s, j, robbed);
      NextTold(l, e, OtherFds(l.s, j));
      StaysFaithful(Next(l, e).s, j, OtherFds(l.s, j) + Robs(l, e));
    } else {
      RobbedThen(l, e, j, robbed);
    }
  }

  lemma RobbedThen(l: Loop, e: Event, j: nat, robbed: set<int>)
    requires LoopInv(l) && ToldOk(l.s, robbed) && HasR(l.s, j) && R(l.s, j).state == RListen && Faithful(l.s, j)
    requires var t := Next(l, e).s; HasR(t, j) && R(t, j).fd == R(l.s, j).fd
    requires R(l.s, j).fd in Robs(l, e)
    ensures !Faithful(Next(l, e).s, j)
  {
    hide Inv, Faithful, ToldOk, RemoteProcess, RobbedByDisposal, RobbedByPacket, ClientsFirst, NotStale;
    var fd := l.todo[0].fd;
    var k :| 0 <= k < |l.s.remotes| && RobbedAt(l.s, fd, e.ev, e.io, k) && l.s.remotes[k].item.fd == R(l.s, j).fd;
    OneFd(l.s);
    assert HasR(l.s, k) && k == j;
    if RobbedByPacket(l.s, fd, e.ev, e.io, j) {
      PacketTakesZero(l.s, fd, e.ev, e.io, j, robbed);
    } else {
      assert e.ev == Revents(false, false, false, true) by { LoneNval(l.s, fd, e.ev, j); }
      DisposalRobs(l.s, fd, e.io, j);
    }
  }

  lemma LoneNval(s: State, fd: int, ev: Revents, k: nat)
    requires HasR(s, k) && RobbedByDisposal(s, fd, ev, k)
    ensures ev == Revents(false, false, false, true)
  {
  }
}
