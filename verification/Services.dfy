/**
 Instances that come and go: which upstream a request to add or remove one finds, what a new one is
 sent, what the requester is answered, and what the instance report says of each.
 */
module Services {
  import opened Base
  import opened Wire
  import opened DeviceTable
  import opened Protocol
  import opened Reading
  import opened Connections
  import opened Collections
  import opened Multiplexer
  import opened Invariant
  import opened Upkeep
  import opened Teardown
  import opened Reaping
  import opened Commands
  import opened ClientEvents
  import opened RemoteEvents
  import opened EventLoop
  import opened Theorems
  import opened Answers
  import Announcements
  import IdMap

  // ---- the upstreams listened to over the network

  /** Upstream j listens over the network. */
  ghost predicate OnNetwork(s: State, j: nat) { HasR(s, j) && R(s, j).listener && R(s, j).peer != Local }

  /** Its host name and its port are these. */
  ghost predicate IsAt(s: State, j: nat, name: string, port: nat) {
    OnNetwork(s, j) && R(s, j).peer.name == name && R(s, j).peer.port == port
  }

  ghost predicate IsCalled(s: State, j: nat, service: string) { OnNetwork(s, j) && R(s, j).service == service }

  ghost predicate Alive(s: State, k: nat) { HasR(s, k) && R(s, k).state != RDead }

  // ---- removing

  /** Upstream j has died, and with it exactly the others with its id. */
  ghost predicate Died(s: State, t: State, j: nat)
    requires HasR(s, j)
  {
    forall k: nat {:trigger Alive(t, k)} {:trigger Alive(s, k)} :: Alive(t, k) <==> Alive(s, k) && R(s, k).id != R(s, j).id
  }

  lemma MarkedDied(s: State, j: nat)
    requires Inv(s) && HasR(s, j)
    ensures Died(s, MarkDead(s, j), j)
  {
    hide Inv, MarkDead, Calm, Spares;
    MarkDeadIs(s, j);
    var t, id := MarkDead(s, j), R(s, j).id;
    if LiveElsewhere(s.remotes, id) {
      var m: nat :| DeadMarked(s, t, id, m);
      forall k: nat
        ensures Alive(t, k) <==> Alive(s, k) && R(s, k).id != id
      {
        if k < |s.remotes| {
          assert t.remotes[k] == if k == m then Full(R(s, m).(events := R(s, m).events.(pout := true)))
                                 else Killed(s.remotes[k], id);
        }
      }
    } else {
      forall k: nat
        ensures !Alive(t, k) && !(Alive(s, k) && R(s, k).id != id)
      {
      }
    }
  }

  /** The first upstream found is one that is asked for, and is found if there is one. */
  lemma FoundAt(s: State, name: string, port: nat)
    ensures var j := FirstNamed(s.remotes, None, Some(Host(name, port)));
            && (j < |s.remotes| ==> IsAt(s, j, name, port))
            && (j == |s.remotes| ==> forall k: nat :: !IsAt(s, k, name, port))
  {
  }

  lemma FoundCalled(s: State, service: string)
    ensures var j := FirstNamed(s.remotes, Some(service), None);
            && (j < |s.remotes| ==> IsCalled(s, j, service))
            && (j == |s.remotes| ==> forall k: nat :: !IsCalled(s, k, service))
  {
  }

  lemma OneAt(s: State, j: nat, k: nat, name: string, port: nat, service: string)
    requires Inv(s)
    requires (IsAt(s, j, name, port) && IsAt(s, k, name, port)) || (IsCalled(s, j, service) && IsCalled(s, k, service))
    ensures j == k
  {
    hide Inv, ClientsOk, RemotesOk, FdsOk, TableOk;
    InvParts(s);
    assert j == k || Apart(R(s, j), R(s, k));
  }

  /**
   Removing by address: 0 if and only if an upstream is listened to at exactly that host and port. It is
   the only one, and it dies, with exactly the others of its id. Otherwise -1, and nothing happens.
   */
  lemma RemovedAt(s: State, name: string, port: nat)
    requires Inv(s)
    ensures var (t, res) := ServiceRemove(s, None, Some(Host(name, port)));
            && (res == 0 <==> exists j: nat :: IsAt(s, j, name, port)) && (res == 0 || res == -1)
            && (forall j: nat | IsAt(s, j, name, port) :: Died(s, t, j))
            && (res == -1 ==> t == s)
  {
    hide Inv, MarkDead, Died;
    FoundAt(s, name, port);
    var i := FirstNamed(s.remotes, None, Some(Host(name, port)));
    if i < |s.remotes| {
      MarkedDied(s, i);
      forall j: nat | IsAt(s, j, name, port)
        ensures Died(s, MarkDead(s, i), j)
      {
        OneAt(s, i, j, name, port, "");
      }
    }
  }

  /** Removing by service name, likewise. */
  lemma RemovedCalled(s: State, service: string)
    requires Inv(s)
    ensures var (t, res) := ServiceRemove(s, Some(service), None);
            && (res == 0 <==> exists j: nat :: IsCalled(s, j, service)) && (res == 0 || res == -1)
            && (forall j: nat | IsCalled(s, j, service) :: Died(s, t, j))
            && (res == -1 ==> t == s)
  {
    hide Inv, MarkDead, Died;
    FoundCalled(s, service);
    var i := FirstNamed(s.remotes, Some(service), None);
    if i < |s.remotes| {
      MarkedDied(s, i);
      forall j: nat | IsCalled(s, j, service)
        ensures Died(s, MarkDead(s, i), j)
      {
        OneAt(s, i, j, "", 0, service);
      }
    }
  }

  // ---- adding

  /** The id is the least one, from 1 to 255, that is not in use. */
  ghost predicate LeastUnused(used: set<nat>, id: nat) {
    1 <= id < 256 && id !in used && forall k: nat | 1 <= k < id :: k in used
  }

  /** The upstream of slot n is new, and listens under that id: it has been queued Listen and nothing else. */
  ghost predicate Listens(s: State, t: State, n: nat, fd: int, peer: Peer, service: string, id: nat) {
    && t == s.(remotes := t.remotes, fds := s.fds[fd := OpenRemote(n)], used := s.used + {id})
    && !HasR(s, n) && HasR(t, n)
    && (forall k: nat {:trigger HasR(t, k)} {:trigger HasR(s, k)} :: HasR(t, k) <==> HasR(s, k) || k == n)
    && (forall k: nat | HasR(s, k) :: R(t, k) == R(s, k))
    && var r := R(t, n);
       && r.fd == fd && r.peer == peer && r.client == None && r.listener && r.service == service && r.id == id
       && r.events == Mask(true, true) && r.tx == [] && r.rx == [] && r.ib == [] && !r.rawMode
       && r.state == RCommand && r.last == ListenCmd
       && Requests(s.wire, r.ob, 0, DaemonSays("Listen", None))
  }

  lemma NewListens(s: State, fd: int, peer: Peer, service: string, id: nat)
    requires Lossless(s.wire)
    ensures var r := NewRemote(fd, peer, PlistPacket(s.wire, 1, 0, OwnRequest("Listen")))
                     .(id := id, listener := true, service := service, last := ListenCmd);
            Listens(s, AddRemote(s, r).(used := s.used + {id}), FirstEmpty(s.remotes), fd, peer, service, id)
  {
    hide AddSlot, FirstEmpty, Frame, Grown, Requests, PlistPacket;
    assert OwnRequest("Listen") == DaemonSays("Listen", None);
    hide OwnRequest;
    NewRemoteAsks(s.wire, fd, peer, 0, DaemonSays("Listen", None));
    var r := NewRemote(fd, peer, PlistPacket(s.wire, 1, 0, OwnRequest("Listen")))
             .(id := id, listener := true, service := service, last := ListenCmd);
    AddedRemote(s, AddRemote(s, r).(used := s.used + {id}), r);
  }

  /**
   Adding: -2 if and only if an upstream of that name, or at that host and port, is listened to already;
   -1 if it cannot be reached or all 255 ids are in use; otherwise 0, and a new upstream listens under the least free id.
   */
  lemma Added(s: State, service: string, name: string, port: nat, conn: Option<int>)
    requires Inv(s)
    ensures var (t, res) := ServiceAdd(s, service, Host(name, port), conn);
            && (res == -2 <==> exists j: nat :: IsCalled(s, j, service) || IsAt(s, j, name, port))
            && (res == -2 ==> t == s)
            && (res == -1 ==> if Fresh(s, conn) then t == s.(fds := s.fds[conn.value := Closed])
                                                     && forall id: nat | 1 <= id < 256 :: id in s.used
                              else t == s)
            && (res == 0 <==> !(res == -1 || res == -2))
            && (res == 0 ==> conn.Some? && conn.value !in s.fds && exists n: nat, id: nat ::
                               LeastUnused(s.used, id) && Listens(s, t, n, conn.value, Host(name, port), service, id))
  {
    hide Inv, Listens, AddRemote, PlistPacket;
    WireLossless(s);
    KnownIs(s, service, name, port);
    var id := IdMap.LeastFree(s.used);
    if !Known(s.remotes, service, Host(name, port)) && Fresh(s, conn) && id != 0 {
      NewListens(s, conn.value, Host(name, port), service, id);
      var (t, res) := ServiceAdd(s, service, Host(name, port), conn);
      assert LeastUnused(s.used, id) && Listens(s, t, FirstEmpty(s.remotes), conn.value, Host(name, port), service, id);
    }
  }

  lemma WireLossless(s: State)
    requires Inv(s)
    ensures Lossless(s.wire)
  {
  }

  lemma KnownIs(s: State, service: string, name: string, port: nat)
    ensures Known(s.remotes, service, Host(name, port)) <==>
              exists j: nat :: IsCalled(s, j, service) || IsAt(s, j, name, port)
  {
    if Known(s.remotes, service, Host(name, port)) {
      var j :| 0 <= j < |s.remotes| && SameService(s.remotes[j], service, Host(name, port));
      assert IsCalled(s, j, service) || IsAt(s, j, name, port);
    }
    if j: nat :| IsCalled(s, j, service) || IsAt(s, j, name, port) {
      assert SameService(s.remotes[j], service, Host(name, port));
    }
  }

  /** At the start there is nothing but, if its socket is there, the local upstream, listening under id 0. */
  lemma Started(w: Codec, local: Option<int>)
    requires Lossless(w)
    ensures var s := Start(w, None);
            && s.wire == w && s.devices == [] && s.used == {} && s.fds == map[] && !s.fault
            && forall k: nat :: !HasC(s, k) && !HasR(s, k)
    ensures local.Some? ==> exists n: nat :: Listens(Start(w, None), Start(w, local), n, local.value, Local, "", 0)
  {
    hide Listens;
    if local.Some? {
      var s := Start(w, None);
      NewListens(s, local.value, Local, "", 0);
      StartIs(w, local.value);
      assert Listens(s, Start(w, local), FirstEmpty(s.remotes), local.value, Local, "", 0);
    }
  }

  lemma StartIs(w: Codec, fd: int)
    ensures var s := Start(w, None);
            Start(w, Some(fd)) == AddRemote(s, NewRemote(fd, Local, PlistPacket(w, 1, 0, OwnRequest("Listen")))
                                               .(id := 0, listener := true, service := "", last := ListenCmd))
                                  .(used := s.used + {0})
  {
    hide AddRemote, PlistPacket;
  }

  // ---- the requests of a client

  /** AddInstance adds an upstream under its own host name, and is answered 0, 2 if it is there already, or 3. */
  lemma AddObeyed(s: State, i: nat, p: Packet, m: Message, conn: Option<int>)
    requires AtCommand(s, i, p) && Carries(s.wire, p, m) && m.kind == Some("AddInstance") && m.host.Some? && m.port.Some?
    ensures var (t, ret) := ClientCommand(s, i, p, conn);
            var u0 := s.(clients := s.clients[i := Full(C(s, i).(version := 1))]);
            var (u, res) := ServiceAdd(u0, m.host.value, Host(m.host.value, m.port.value % 0x1_0000), conn);
            && ret == 0 && HasC(u, i)
            && Results(u, t, i, C(s, i).(version := 1), p.tag, if res == 0 then 0 else if res == -2 then 2 else 3)
  {
    hide Inv, ServiceAdd, ReplyResult, Results;
    Writable(s, i);
    VersionOnly(s, i);
    PlistHandled(s, i, p, m, conn);
    var u0 := InVersion1(s, i);
    var (u, res) := ServiceAdd(u0, m.host.value, Host(m.host.value, m.port.value % 0x1_0000), conn);
    AddRest(u0, m.host.value, Host(m.host.value, m.port.value % 0x1_0000), conn);
    ReplyResults(u, i, p.tag, if res == 0 then 0 else if res == -2 then 2 else 3);
  }

  lemma AddRest(s: State, service: string, host: Host, conn: Option<int>)
    ensures var t := ServiceAdd(s, service, host, conn).0; t.clients == s.clients && t.wire == s.wire
  {
    hide AddSlot, FirstEmpty, Known, NewRemote, PlistPacket;
  }

  /** RemoveInstance removes the upstream at that host and port, and is answered 0, or 2 if there is none. */
  lemma RemoveObeyed(s: State, i: nat, p: Packet, m: Message, conn: Option<int>)
    requires AtCommand(s, i, p) && Carries(s.wire, p, m) && m.kind == Some("RemoveInstance") && m.host.Some? && m.port.Some?
    ensures var (t, ret) := ClientCommand(s, i, p, conn);
            var u0 := s.(clients := s.clients[i := Full(C(s, i).(version := 1))]);
            var (u, res) := ServiceRemove(u0, None, Some(Host(m.host.value, m.port.value % 0x1_0000)));
            && ret == 0
            && if HasC(u, i) then Results(u, t, i, C(s, i).(version := 1), p.tag, if res == 0 then 0 else 2) else t.fault
  {
    hide Inv, ServiceRemove, ReplyResult, Results;
    Writable(s, i);
    VersionOnly(s, i);
    PlistHandled(s, i, p, m, conn);
    var u0 := InVersion1(s, i);
    var host := Host(m.host.value, m.port.value % 0x1_0000);
    var (u, res) := ServiceRemove(u0, None, Some(host));
    assert Inv(u0) by { SpokenInv(s, i); }
    RemoveRest(u0, i, host);
    if HasC(u, i) {
      ReplyResults(u, i, p.tag, if res == 0 then 0 else 2);
    } else {
      GoneReply(u, i, p.tag, if res == 0 then 0 else 2);
    }
  }

  lemma SpokenInv(s: State, i: nat)
    requires Inv(s) && HasC(s, i) && C(s, i).state == Command
    ensures Inv(InVersion1(s, i))
  {
    hide Inv;
    Spoken(s, i);
  }

  lemma GoneReply(s: State, i: nat, tag: nat, n: nat)
    requires !HasC(s, i)
    ensures ReplyResult(s, i, tag, n).fault
  {
  }

  lemma RemoveRest(s: State, i: nat, host: Host)
    requires Inv(s) && HasC(s, i) && C(s, i).state == Command
    ensures var u := ServiceRemove(s, None, Some(host)).0;
            u.wire == s.wire && (HasC(u, i) ==> C(u, i) == C(s, i))
  {
    hide Inv, MarkDead;
    var j := FirstNamed(s.remotes, None, Some(host));
    if j < |s.remotes| {
      RequesterLeft(s, i, j);
      MarkDeadWire(s, j);
    }
  }

  lemma MarkDeadWire(s: State, j: nat)
    ensures MarkDead(s, j).wire == s.wire
  {
    hide DisposeFrom, KillId;
    if HasR(s, j) {
      DisposeFromWire(s.(remotes := KillId(s.remotes, R(s, j).id)), 0);
    }
  }

  lemma {:induction false} DisposeFromWire(s: State, k: nat)
    ensures DisposeFrom(s, k).wire == s.wire
    decreases if k <= |s.remotes| then |s.remotes| - k else 0
  {
    hide Dispose;
    if k < |s.remotes| {
      if s.remotes[k].Full? {
        Announcements.DisposeTakes(s, k);
      }
      DisposeFromWire(if s.remotes[k].Full? then Dispose(s, k) else s, k + 1);
    }
  }
}
