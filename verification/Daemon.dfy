/**
 The daemon's globals as one object, and its handlers as methods that edit them in place with
 the loops of the C code. What a call leaves behind is, in every case, what the function of
 the same name in `Multiplexer` makes of the state before.
 */
module Daemons {
  import opened Base
  import opened Wire
  import opened DeviceTable
  import opened Protocol
  import opened Connections
  import opened Collections
  import opened Multiplexer
  import IdMap

  lemma {:induction false} WithdrawSizes(s: State, ids: seq<nat>)
    ensures |Withdraw(s, ids).clients| == |s.clients| && Withdraw(s, ids).remotes == s.remotes
    decreases |ids|
  {
    hide Apply;
    if ids != [] {
      WithdrawSizes(Announce(s, Detached(ids[0])), ids[1..]);
    }
  }

  lemma AnnouncedTable(s: State, n: Note<Message>)
    ensures Multiplexer.Announce(s, n).devices == Apply(s.devices, n)
  {
  }

  /** Removing a key removes the entry of slot k when no earlier entry has that key. */
  lemma {:induction false} DelAt<T>(t: Table<T>, k: nat)
    requires k < |t| && forall m :: 0 <= m < k ==> t[m].id != t[k].id
    ensures Del(t, t[k].id) == t[..k] + t[k + 1..]
  {
    if k > 0 {
      DelAt(t[1..], k - 1);
    }
  }

  lemma DisposeSizes(s: State, j: nat)
    ensures |Dispose(s, j).remotes| == |s.remotes|
  {
    hide Withdraw;
    if HasR(s, j) {
      WithdrawSizes(CloseFd(s, R(s, j).fd), OwnedIds(s.devices, R(s, j).id));
    }
  }

  lemma FirstLiveIs(rs: seq<Slot<Remote>>, k: nat)
    requires k <= |rs| && (k < |rs| ==> Live(rs[k])) && forall m :: 0 <= m < k ==> !Live(rs[m])
    ensures FirstLive(rs) == k
  {
  }

  lemma FirstNamedIs(rs: seq<Slot<Remote>>, service: Option<string>, host: Option<Host>, k: nat)
    requires k <= |rs| && (k < |rs| ==> Named(rs[k], service, host))
    requires forall m :: 0 <= m < k ==> !Named(rs[m], service, host)
    ensures FirstNamed(rs, service, host) == k
  {
  }

  lemma FirstRouteIs(rs: seq<Slot<Remote>>, id: nat, k: nat)
    requires k <= |rs| && (k < |rs| ==> Routes(rs[k], id)) && forall m :: 0 <= m < k ==> !Routes(rs[m], id)
    ensures FirstRoute(rs, id) == k
  {
  }

  lemma FindClientIs(cs: seq<Slot<Client>>, fd: int, i: nat)
    requires i <= |cs| && (i < |cs| ==> cs[i].Full? && cs[i].item.fd == fd)
    requires forall k :: 0 <= k < i ==> !(cs[k].Full? && cs[k].item.fd == fd)
    ensures FindClient(cs, fd) == i
  {
  }

  function LocalListener(w: Codec, fd: int): (r: Remote)
    ensures r.id == 0 && r.fd == fd
  {
    NewRemote(fd, Local, PlistPacket(w, 1, 0, OwnRequest("Listen"))).(listener := true, last := ListenCmd)
  }

  function NetworkListener(w: Codec, fd: int, service: string, host: Host, id: nat): (r: Remote)
    ensures r.id == id && r.fd == fd
  {
    NewRemote(fd, host, PlistPacket(w, 1, 0, OwnRequest("Listen")))
      .(id := id, listener := true, service := service, last := ListenCmd)
  }

  lemma ServiceAddCases(s: State, service: string, host: Host, conn: Option<int>)
    ensures var id := IdMap.LeastFree(s.used);
            ServiceAdd(s, service, host, conn) ==
              if Known(s.remotes, service, host) then (s, -2)
              else if !Fresh(s, conn) then (s, -1)
              else if id == 0 then (s.(fds := s.fds[conn.value := Closed]), -1)
              else (AddRemote(s, NetworkListener(s.wire, conn.value, service, host, id)).(used := s.used + {id}), 0)
  {
    hide AddRemote, Known, PlistPacket;
  }

  lemma StartLocal(w: Codec, fd: int)
    ensures var s := Start(w, None);
            Start(w, Some(fd)) == AddRemote(s, LocalListener(w, fd)).(used := s.used + {0})
  {
    hide AddRemote;
    assert {} + {0} == {0};
  }

  // ---- the elements of the two lists: told apart by their descriptors, all of them known

  ghost predicate ClientsApart(cs: seq<Slot<Client>>, fds: map<int, Handle>) {
    && (forall i | 0 <= i < |cs| && cs[i].Full? :: cs[i].item.fd in fds)
    && (forall i, k | 0 <= i < k < |cs| && cs[i].Full? && cs[k].Full? :: cs[i].item.fd != cs[k].item.fd)
  }

  ghost predicate RemotesApart(rs: seq<Slot<Remote>>, fds: map<int, Handle>) {
    && (forall j | 0 <= j < |rs| && rs[j].Full? :: rs[j].item.fd in fds)
    && (forall j, k | 0 <= j < k < |rs| && rs[j].Full? && rs[k].Full? :: rs[j].item.fd != rs[k].item.fd)
  }

  lemma MoreFds(cs: seq<Slot<Client>>, rs: seq<Slot<Remote>>, fds: map<int, Handle>, more: map<int, Handle>)
    requires ClientsApart(cs, fds) && RemotesApart(rs, fds) && fds.Keys <= more.Keys
    ensures ClientsApart(cs, more) && RemotesApart(rs, more)
  {
  }

  lemma ClientAdded(cs: seq<Slot<Client>>, fds: map<int, Handle>, c: Client, h: Handle)
    requires ClientsApart(cs, fds) && c.fd !in fds
    ensures ClientsApart(AddSlot(cs, c), fds[c.fd := h])
  {
    hide AddSlot, FirstEmpty;
  }

  lemma RemoteAdded(rs: seq<Slot<Remote>>, fds: map<int, Handle>, r: Remote, h: Handle)
    requires RemotesApart(rs, fds) && r.fd !in fds
    ensures RemotesApart(AddSlot(rs, r), fds[r.fd := h])
  {
    hide AddSlot, FirstEmpty;
  }

  // ---- steps keep the descriptor

  lemma NotedFd(w: Codec, c: Client, n: Note<Message>)
    requires |c.ob| <= c.obCap
    ensures QueueNote(w, c, n).fd == c.fd
  {
    hide Frame, Grown, NotePacket;
  }

  lemma AnsweredFd(w: Codec, c: Client, p: Packet)
    requires |c.ob| <= c.obCap
    ensures QueueReply(w, c, p).fd == c.fd && PassOn(w, c, p).fd == c.fd
  {
    hide Frame, Grown;
  }

  lemma NotifiedFd(w: Codec, c: Client, r: Remote, result: nat)
    requires |c.ob| <= c.obCap
    ensures Connections.NotifyConnect(w, c, result).fd == c.fd && ConnectAnswered(r, result).fd == r.fd
  {
    hide Frame, Grown, ResultPacket;
  }

  lemma NewFd(fd: int, peer: Peer, first: Packet)
    ensures NewRemote(fd, peer, first).fd == fd
  {
  }

  lemma SentFd(c: Client, n: nat)
    requires n <= |c.ob|
    ensures Sent(c, n).fd == c.fd
  {
  }

  lemma RemoteSentFd(r: Remote, n: nat)
    requires n <= |r.ob|
    ensures RemoteSent(r, n).fd == r.fd
  {
  }

  lemma RelayedFd(c: Client, r: Remote, data: seq<byte>, n: nat)
    requires n <= |r.ib|
    ensures UpC(c, data).fd == c.fd && UpR(r, data).fd == r.fd && DownC(c, r, n).fd == c.fd && DownR(r, n).fd == r.fd
  {
  }

  class Daemon {
    const wire: Codec
    const clients: Collection<Client>
    const remotes: Collection<Remote>
    var devices: Table<Message>
    const ids: IdMap.Allocator
    var fds: map<int, Handle>
    var fault: bool
    /** What the two lists hold. */
    ghost var cs: seq<Slot<Client>>
    ghost var rs: seq<Slot<Remote>>

    ghost function Repr(): set<object>
      reads clients, remotes
    {
      {this, clients, clients.list, remotes, remotes.list, ids.bits}
    }

    /** All but the list objects themselves: what a call that adds no connection may change. */
    ghost function Cells(): set<object>
      reads clients, remotes
    {
      {this, clients.list, remotes.list, ids.bits}
    }

    ghost predicate Valid()
      reads this, ids, clients, clients.list, remotes, remotes.list
    {
      && ids.Valid() && clients.list[..] == cs && remotes.list[..] == rs
      && ClientsApart(cs, fds) && RemotesApart(rs, fds)
      && clients.list as object != remotes.list && clients.list as object != ids.bits && remotes.list as object != ids.bits
    }

    /** The state of the multiplexer. */
    ghost function Current(): State
      requires ids.Valid()
      reads this, ids, ids.bits
    {
      State(wire, cs, rs, devices, ids.Used(), fds, fault)
    }

    predicate IsClient(i: nat)
      reads this, clients, clients.list
    {
      i < clients.list.Length && clients.list[i].Full?
    }

    predicate IsRemote(j: nat)
      reads this, remotes, remotes.list
    {
      j < remotes.list.Length && remotes.list[j].Full?
    }

    /** Nothing connected yet. */
    constructor (wire: Codec)
      ensures Valid() && fresh(Repr()) && fresh(ids) && Current() == Start(wire, None)
    {
      this.wire := wire;
      clients := new Collection<Client>();
      remotes := new Collection<Remote>();
      devices, fds, fault := [], map[], false;
      ids := new IdMap.Allocator();
      cs, rs := NoSlots(CAPACITY_STEP), NoSlots(CAPACITY_STEP);
    }

    /** `usbmux_remote_init`: the local upstream, if its socket is there. */
    method Init(local: Option<int>)
      requires Valid() && Current() == Start(wire, None)
      modifies Repr()
      ensures Valid() && fresh(Repr() - old(Repr()))
      ensures Current() == Start(wire, local)
    {
      if local.Some? {
        InsertListener(LocalListener(wire, local.value));
        StartLocal(wire, local.value);
      }
    }

    // ---- the two lists: what is written through the pointer to a connection, and what enters and leaves

    method SetClient(i: nat, c: Client)
      requires Valid()
      requires i < |cs| && cs[i].Full?
      requires c.fd == cs[i].item.fd
      modifies this`cs, clients.list
      ensures Valid() && cs == old(cs)[i := Full(c)]
    {
      clients.list[i] := Full(c);
      cs := cs[i := Full(c)];
    }

    /** Removed from the list by searching for it, as everywhere. */
    method ClearClient(i: nat)
      requires Valid() && i < |cs| && cs[i].Full?
      modifies this`cs, clients.list
      ensures Valid() && cs == old(cs)[i := Empty]
    {
      RemoveAt(cs, i);
      clients.Remove(clients.list[i].item);
      cs := cs[i := Empty];
    }

    method InsertClient(c: Client)
      requires Valid() && c.fd !in fds
      modifies this`cs, this`fds, clients, clients.list
      ensures Valid() && fresh(Repr() - old(Repr()))
      ensures Current() == AddClient(old(Current()), c)
    {
      hide AddSlot, FirstEmpty, ClientsApart, RemotesApart;
      var i := clients.Add(c);
      ClientAdded(cs, fds, c, OpenClient(i));
      MoreFds(cs, rs, fds, fds[c.fd := OpenClient(i)]);
      cs := AddSlot(cs, c);
      fds := fds[c.fd := OpenClient(i)];
    }

    method SetRemote(j: nat, r: Remote)
      requires Valid() && j < |rs| && rs[j].Full? && r.fd == rs[j].item.fd
      modifies this`rs, remotes.list
      ensures Valid() && rs == old(rs)[j := Full(r)]
    {
      remotes.list[j] := Full(r);
      rs := rs[j := Full(r)];
    }

    method ClearRemote(j: nat)
      requires Valid() && j < |rs| && rs[j].Full?
      modifies this`rs, remotes.list
      ensures Valid() && rs == old(rs)[j := Empty]
    {
      RemoveAt(rs, j);
      remotes.Remove(remotes.list[j].item);
      rs := rs[j := Empty];
    }

    /** Both ends of a pair. */
    method SetPair(i: nat, c: Client, j: nat, r: Remote)
      requires Valid()
      requires i < |cs| && cs[i].Full? && j < |rs| && rs[j].Full?
      requires c.fd == cs[i].item.fd && r.fd == rs[j].item.fd
      modifies this`cs, this`rs, clients.list, remotes.list
      ensures Valid() && cs == old(cs)[i := Full(c)] && rs == old(rs)[j := Full(r)]
    {
      hide ClientsApart, RemotesApart;
      SetClient(i, c);
      SetRemote(j, r);
    }

    method InsertRemote(r: Remote) returns (j: nat)
      requires Valid() && r.fd !in fds
      modifies this`rs, this`fds, remotes, remotes.list
      ensures Valid() && fresh(Repr() - old(Repr()))
      ensures Current() == AddRemote(old(Current()), r) && j == FirstEmpty(old(rs))
    {
      hide AddSlot, FirstEmpty, ClientsApart, RemotesApart;
      j := remotes.Add(r);
      RemoteAdded(rs, fds, r, OpenRemote(j));
      MoreFds(cs, rs, fds, fds[r.fd := OpenRemote(j)]);
      rs := AddSlot(rs, r);
      fds := fds[r.fd := OpenRemote(j)];
    }

    /** A new upstream that listens, whose id is in use from now on. */
    method InsertListener(r: Remote)
      requires Valid() && r.id < 256 && r.fd !in fds
      modifies Repr()
      ensures Valid() && fresh(Repr() - old(Repr()))
      ensures Current() == AddRemote(old(Current()), r).(used := old(Current()).used + {r.id})
    {
      hide AddRemote;
      var _ := InsertRemote(r);
      ids.SetUsed(r.id, true);
    }

    // ---- announcing changes of the table

    /** `client_device_add` and `client_device_remove`, with the change of the table they announce. */
    method Announce(n: Note<Message>)
      requires Valid()
      modifies this, clients.list
      ensures Valid() && Current() == Multiplexer.Announce(old(Current()), n)
    {
      hide ClientsApart, RemotesApart, QueueNote, Apply;
      devices := Apply(devices, n);
      for i := 0 to clients.list.Length
        invariant Valid() && |cs| == |old(cs)| && devices == Apply(old(devices), n)
        invariant rs == old(rs) && fds == old(fds)
        invariant forall k :: 0 <= k < |cs| ==>
          cs[k] == if k < i then Told(wire, old(cs)[k], n) else old(cs)[k]
        invariant fault == (old(fault) || exists k :: 0 <= k < i && Deaf(old(cs)[k]))
      {
        if clients.list[i].Full? && clients.list[i].item.state == Listen {
          var c := clients.list[i].item;
          if c.obFreed || |c.ob| > c.obCap {
            fault := true;
          }
          if |c.ob| <= c.obCap {
            NotedFd(wire, c, n);
            SetClient(i, QueueNote(wire, c, n));
          }
        }
      }
      assert cs == TellAll(wire, old(cs), n);
    }

    /**
     The walk over the table in `usbmux_remote_dispose`: an entry of that upstream is announced and
     removed while the walk, which has already fetched the next entry, goes on.
     */
    method WithdrawOwned(owner: nat)
      requires Valid()
      modifies this, clients.list
      ensures Valid() && Current() == Withdraw(old(Current()), OwnedIds(old(devices), owner))
    {
      hide ClientsApart, RemotesApart, Multiplexer.Announce, OwnerOf;
      ghost var end := Withdraw(Current(), OwnedIds(devices, owner));
      var k := 0;
      while k < |devices|
        invariant Valid() && k <= |devices| && forall m :: 0 <= m < k ==> OwnerOf(devices[m].id) != owner
        invariant Withdraw(Current(), OwnedIds(devices[k..], owner)) == end
        decreases |devices| - k
      {
        assert devices[k..][1..] == devices[k + 1..];
        if OwnerOf(devices[k].id) == owner {
          assert OwnedIds(devices[k..], owner) == [devices[k].id] + OwnedIds(devices[k + 1..], owner);
          assert OwnedIds(devices[k..], owner)[1..] == OwnedIds(devices[k + 1..], owner);
          DelAt(devices, k);
          AnnouncedTable(Current(), Detached(devices[k].id));
          Announce(Detached(devices[k].id));
        } else {
          assert OwnedIds(devices[k..], owner) == OwnedIds(devices[k + 1..], owner);
          k := k + 1;
        }
      }
      assert devices[k..] == [];
    }

    // ---- closing

    method CloseFd(fd: int)
      requires Valid()
      modifies this`fds, this`fault
      ensures Valid() && Current() == Multiplexer.CloseFd(old(Current()), fd)
    {
      hide ClientsApart, RemotesApart;
      if fd in fds && fds[fd] != Closed {
        MoreFds(cs, rs, fds, fds[fd := Closed]);
        fds := fds[fd := Closed];
      } else {
        fault := true;
      }
    }

    /** `remote_close`. */
    method RemoteClose(j: nat)
      requires Valid()
      modifies this, remotes.list
      ensures Valid() && Current() == Multiplexer.RemoteClose(old(Current()), j)
    {
      hide ClientsApart, RemotesApart;
      if !IsRemote(j) {
        fault := true;
      } else {
        CloseFd(remotes.list[j].item.fd);
        ClearRemote(j);
      }
    }

    /** `client_close`. */
    method ClientClose(i: nat)
      requires Valid()
      modifies this, clients.list, remotes.list
      ensures Valid() && Current() == Multiplexer.ClientClose(old(Current()), i)
    {
      hide ClientsApart, RemotesApart;
      if !IsClient(i) {
        fault := true;
        return;
      }
      var c := clients.list[i].item;
      CloseFd(c.fd);
      if c.remote.Some? {
        var j := c.remote.value;
        if IsRemote(j) {
          SetRemote(j, remotes.list[j].item.(client := None));
          RemoteClose(j);
        } else {
          fault := true;
        }
      }
      ClearClient(i);
    }

    /** `usbmux_remote_close`. */
    method UpstreamClose(j: nat)
      requires Valid()
      modifies this, clients.list, remotes.list
      ensures Valid() && Current() == Multiplexer.UpstreamClose(old(Current()), j)
    {
      hide ClientsApart, RemotesApart, Multiplexer.ClientClose, Multiplexer.RemoteClose;
      if !IsRemote(j) {
        fault := true;
      } else if remotes.list[j].item.client.Some? {
        ClientClose(remotes.list[j].item.client.value);
      } else {
        RemoteClose(j);
      }
    }

    /** The client of an upstream that is going away: its pointer is cleared first. */
    method CloseOwner(client: Option<nat>)
      requires Valid()
      modifies this, clients.list, remotes.list
      ensures var s := old(Current());
              Valid() && Current() ==
                match client
                case None => s
                case Some(i) =>
                  if HasC(s, i) then Multiplexer.ClientClose(SetC(s, i, C(s, i).(remote := None)), i) else Fault(s)
    {
      hide ClientsApart, RemotesApart, Multiplexer.ClientClose;
      if client.Some? {
        var i := client.value;
        if IsClient(i) {
          SetClient(i, clients.list[i].item.(remote := None));
          ClientClose(i);
        } else {
          fault := true;
        }
      }
    }

    /** `usbmux_remote_dispose`. */
    method Dispose(j: nat)
      requires Valid()
      modifies Cells()
      ensures Valid() && Current() == Multiplexer.Dispose(old(Current()), j)
      ensures |rs| == |old(rs)|
    {
      hide ClientsApart, RemotesApart, Multiplexer.ClientClose, Withdraw, OwnedIds;
      ghost var s := Current();
      DisposeSizes(s, j);
      if !IsRemote(j) {
        fault := true;
        return;
      }
      var r := remotes.list[j].item;
      CloseFd(r.fd);
      WithdrawSizes(Current(), OwnedIds(devices, r.id));
      WithdrawOwned(r.id);
      ClearRemote(j);
      CloseOwner(r.client);
      if r.listener && r.peer.Host? && r.id < 256 { // ids are bytes
        ids.SetUsed(r.id, false);
      }
    }

    // ---- death and reaping

    /** `remote_mark_dead`. */
    method MarkDead(j: nat)
      requires Valid()
      modifies Cells()
      ensures Valid() && Current() == Multiplexer.MarkDead(old(Current()), j)
    {
      hide ClientsApart, RemotesApart, Multiplexer.Dispose;
      if !IsRemote(j) {
        fault := true;
        return;
      }
      var id := remotes.list[j].item.id;
      KillSameId(id);
      var k := 0;
      while k < remotes.list.Length && !Live(remotes.list[k])
        invariant k <= |rs| && forall m :: 0 <= m < k ==> !Live(rs[m])
      {
        k := k + 1;
      }
      FirstLiveIs(rs, k);
      if k < remotes.list.Length {
        SetRemote(k, remotes.list[k].item.(events := remotes.list[k].item.events.(pout := true)));
      } else {
        DisposeAll();
      }
    }

    /** Every upstream with that id is dead from now on. */
    method KillSameId(id: nat)
      requires Valid()
      modifies this`rs, remotes.list
      ensures Valid() && Current() == old(Current()).(remotes := KillId(old(rs), id))
    {
      hide ClientsApart, RemotesApart;
      for k := 0 to remotes.list.Length
        invariant Valid() && Current() == old(Current()).(remotes := rs) && |rs| == |old(rs)|
        invariant forall m :: 0 <= m < |rs| ==>
          rs[m] == if m < k then Killed(old(rs)[m], id) else old(rs)[m]
      {
        if remotes.list[k].Full? && remotes.list[k].item.id == id {
          SetRemote(k, remotes.list[k].item.(state := RDead));
        }
      }
      assert rs == KillId(old(rs), id);
    }

    /** A loop over the list whose body disposes of the current element. */
    method DisposeAll()
      requires Valid()
      modifies Cells()
      ensures Valid() && Current() == DisposeFrom(old(Current()), 0)
    {
      hide ClientsApart, RemotesApart, Multiplexer.Dispose;
      var size, k := remotes.list.Length, 0;
      while k < size
        invariant Valid() && |rs| == size && k <= size
        invariant DisposeFrom(Current(), k) == DisposeFrom(old(Current()), 0)
      {
        if remotes.list[k].Full? {
          Dispose(k);
        }
        k := k + 1;
      }
    }

    /** The scan of `usbmux_remote_process`. */
    method Reap(fd: int, invalid: bool) returns (found: Option<nat>)
      requires Valid()
      modifies Cells()
      ensures Valid() && (Current(), found) == Multiplexer.Reap(old(Current()), 0, fd, invalid, None)
    {
      hide ClientsApart, RemotesApart, Multiplexer.Dispose;
      found := None;
      var size, k := remotes.list.Length, 0;
      while k < size
        invariant Valid() && |rs| == size && k <= size
        invariant Multiplexer.Reap(Current(), k, fd, invalid, found)
                  == Multiplexer.Reap(old(Current()), 0, fd, invalid, None)
      {
        if remotes.list[k].Full? {
          if remotes.list[k].item.state == RDead {
            Dispose(k);
          } else if remotes.list[k].item.fd == fd {
            found := Some(k);
            if invalid {
              Dispose(k);
              found := None;
            }
          }
        }
        k := k + 1;
      }
    }

    // ---- adding and removing upstreams

    /** The search for an upstream with the same name or address. */
    method Duplicate(service: string, host: Host) returns (found: bool)
      requires Valid()
      ensures found == Known(rs, service, host)
    {
      hide ClientsApart, RemotesApart;
      for k := 0 to remotes.list.Length
        invariant forall m :: 0 <= m < k ==> !SameService(rs[m], service, host)
      {
        if SameService(remotes.list[k], service, host) {
          return true;
        }
      }
      found := false;
    }

    /** `remote_mux_service_add`. */
    method ServiceAdd(service: string, host: Host, conn: Option<int>) returns (res: int)
      requires Valid()
      modifies Repr()
      ensures Valid() && fresh(Repr() - old(Repr()))
      ensures (Current(), res) == Multiplexer.ServiceAdd(old(Current()), service, host, conn)
    {
      hide ClientsApart, RemotesApart, Multiplexer.ServiceAdd, NetworkListener, Known, AddRemote;
      ServiceAddCases(Current(), service, host, conn);
      var duplicate := Duplicate(service, host);
      if duplicate {
        return -2;
      }
      if conn.None? || conn.value in fds {
        return -1;
      }
      res := Enlist(service, host, conn.value);
    }

    /** The new connection gets an id, or is closed at once when all are taken. */
    method Enlist(service: string, host: Host, fd: int) returns (res: int)
      requires Valid() && fd !in fds
      modifies Repr()
      ensures Valid() && fresh(Repr() - old(Repr()))
      ensures var s, id := old(Current()), IdMap.LeastFree(old(Current()).used);
              (Current(), res) ==
                if id == 0 then (s.(fds := s.fds[fd := Closed]), -1)
                else (AddRemote(s, NetworkListener(wire, fd, service, host, id)).(used := s.used + {id}), 0)
    {
      hide ClientsApart, RemotesApart, NetworkListener, AddRemote;
      var id := ids.NewId();
      if id == 0 {
        MoreFds(cs, rs, fds, fds[fd := Closed]);
        fds := fds[fd := Closed];
        return -1;
      }
      InsertListener(NetworkListener(wire, fd, service, host, id));
      res := 0;
    }

    /** `remote_mux_service_remove`. */
    method ServiceRemove(service: Option<string>, host: Option<Host>) returns (res: int)
      requires Valid()
      modifies Cells()
      ensures Valid() && (Current(), res) == Multiplexer.ServiceRemove(old(Current()), service, host)
    {
      hide ClientsApart, RemotesApart, Multiplexer.MarkDead;
      var k := 0;
      while k < remotes.list.Length && !Named(remotes.list[k], service, host)
        invariant k <= |rs| && forall m :: 0 <= m < k ==> !Named(rs[m], service, host)
      {
        k := k + 1;
      }
      FirstNamedIs(rs, service, host, k);
      if k < remotes.list.Length {
        MarkDead(k);
        res := 0;
      } else {
        res := -1;
      }
    }

    // ---- requests that need an upstream of their own

    /** The search for the upstream's address in `usbmux_remote_connect` and its siblings. */
    method Route(id: nat) returns (peer: Option<Peer>)
      requires Valid()
      ensures peer == Multiplexer.Route(Current(), id)
    {
      hide ClientsApart, RemotesApart;
      if id == 0 {
        return Some(Local);
      }
      var k := 0;
      while k < remotes.list.Length && !Routes(remotes.list[k], id)
        invariant k <= |rs| && forall m :: 0 <= m < k ==> !Routes(rs[m], id)
      {
        k := k + 1;
      }
      FirstRouteIs(rs, id, k);
      peer := if k < remotes.list.Length then Some(remotes.list[k].item.peer) else None;
    }

    method Attach(i: nat, r: Remote)
      requires Valid() && IsClient(i) && r.fd !in fds
      modifies Repr()
      ensures Valid() && fresh(Repr() - old(Repr()))
      ensures Current() == Multiplexer.Attach(old(Current()), i, r)
    {
      hide ClientsApart, RemotesApart, AddSlot, FirstEmpty;
      var j := InsertRemote(r.(client := Some(i)));
      SetClient(i, clients.list[i].item.(remote := Some(j)));
    }

    method Reply(i: nat, p: Packet)
      requires Valid()
      modifies this, clients.list
      ensures Valid() && Current() == Multiplexer.Reply(old(Current()), i, p)
    {
      hide ClientsApart, RemotesApart, QueueReply;
      if IsClient(i) && !clients.list[i].item.obFreed && |clients.list[i].item.ob| <= clients.list[i].item.obCap {
        AnsweredFd(wire, clients.list[i].item, p);
        SetClient(i, QueueReply(wire, clients.list[i].item, p));
      } else {
        fault := true;
      }
    }

    /** `send_result`. */
    method ReplyResult(i: nat, tag: nat, result: nat)
      requires Valid()
      modifies this, clients.list
      ensures Valid() && Current() == Multiplexer.ReplyResult(old(Current()), i, tag, result)
    {
      hide ClientsApart, RemotesApart, Multiplexer.Reply, ResultPacket;
      if IsClient(i) {
        Reply(i, ResultPacket(wire, clients.list[i].item.version, tag, result));
      } else {
        fault := true;
      }
    }

    /** `usbmux_remote_connect`, and what the client's command handler does with its result. */
    method Connect(i: nat, device: nat, request: Message, tag: nat, conn: Option<int>)
      requires Valid()
      modifies Repr()
      ensures Valid() && fresh(Repr() - old(Repr()))
      ensures Current() == Multiplexer.Connect(old(Current()), i, device, request, tag, conn)
    {
      hide ClientsApart, RemotesApart, Multiplexer.ReplyResult, Multiplexer.Route, AddSlot, FirstEmpty, PlistPacket,
           NewRemote, OwnerOf;
      if !IsClient(i) {
        fault := true;
        return;
      }
      var peer := Route(OwnerOf(device));
      if peer.None? || conn.None? || conn.value in fds {
        ReplyResult(i, tag, RESULT_BADCOMMAND);
      } else {
        var asked := request.(device := Some(device % OWNER_UNIT));
        NewFd(conn.value, peer.value, PlistPacket(wire, 1, 0, asked));
        Attach(i, NewRemote(conn.value, peer.value, PlistPacket(wire, 1, 0, asked))
                  .(id := OwnerOf(device), state := RConnecting1, asked := Some(asked)));
        SetClient(i, clients.list[i].item.(state := Connecting1, connectTag := tag, connectDevice := device,
                                           request := Some(request)));
      }
    }

    /** `usbmux_remote_read_buid` and the pair-record functions. */
    method Forward(i: nat, owner: nat, first: Packet, conn: Option<int>) returns (res: int)
      requires Valid()
      modifies Repr()
      ensures Valid() && fresh(Repr() - old(Repr()))
      ensures (Current(), res) == Multiplexer.Forward(old(Current()), i, owner, first, conn)
    {
      hide ClientsApart, RemotesApart, Multiplexer.Attach, Multiplexer.Route, NewRemote;
      var peer := Route(owner);
      if !IsClient(i) {
        fault := true;
        return -1;
      }
      if peer.None? || conn.None? || conn.value in fds {
        return -1;
      }
      NewFd(conn.value, peer.value, first);
      Attach(i, NewRemote(conn.value, peer.value, first).(last := Forwarded));
      res := 0;
    }

    /** The search for a serial number by `match_device`. */
    method IdOfSerial(serial: string) returns (id: nat)
      requires Valid()
      ensures id == Multiplexer.IdOfSerial(devices, serial)
    {
      hide ClientsApart, RemotesApart;
      for k := 0 to |devices|
        invariant Multiplexer.IdOfSerial(devices, serial) == Multiplexer.IdOfSerial(devices[k..], serial)
      {
        if SerialOf(devices[k].body) == Some(serial) {
          return devices[k].id;
        }
        assert devices[k..][1..] == devices[k + 1..];
      }
      id := 0;
    }

    /** Whether any record has a serial number to compare with. */
    method AnySerial() returns (any: bool)
      requires Valid()
      ensures any == Multiplexer.AnySerial(devices)
    {
      hide ClientsApart, RemotesApart;
      for k := 0 to |devices|
        invariant forall m :: 0 <= m < k ==> SerialOf(devices[m].body).None?
      {
        if SerialOf(devices[k].body).Some? {
          return true;
        }
      }
      any := false;
    }

    // ---- queries

    /** `usbmux_remote_copy_instances`, for one upstream. */
    method SerialsOf(owner: nat) returns (serials: seq<string>)
      requires Valid()
      ensures serials == Multiplexer.SerialsOf(devices, owner)
    {
      hide ClientsApart, RemotesApart;
      serials := [];
      for k := 0 to |devices|
        invariant Multiplexer.SerialsOf(devices, owner) == serials + Multiplexer.SerialsOf(devices[k..], owner)
      {
        assert devices[k..][1..] == devices[k + 1..];
        if OwnerOf(devices[k].id) == owner && SerialOf(devices[k].body).Some? {
          serials := serials + [SerialOf(devices[k].body).value];
        }
      }
    }

    method InstanceReport() returns (report: seq<Instance>)
      requires Valid()
      ensures report == Multiplexer.InstanceReport(rs, devices)
    {
      hide ClientsApart, RemotesApart, Multiplexer.SerialsOf;
      report := [];
      for k := 0 to remotes.list.Length
        invariant report == Multiplexer.InstanceReport(rs[..k], devices)
      {
        assert rs[..k + 1][..k] == rs[..k];
        if Reported(remotes.list[k]) {
          var r := remotes.list[k].item;
          var serials := SerialsOf(r.id);
          report := report + [Instance(r.id, r.peer.Local?, r.service, if r.peer.Host? then r.peer.name else "",
                                       if r.peer.Host? then r.peer.port else 0, |serials|, serials)];
        }
      }
      assert rs[..|rs|] == rs;
    }

    method ListeningSlots() returns (slots: seq<nat>)
      requires Valid()
      ensures slots == Multiplexer.ListeningSlots(cs)
    {
      hide ClientsApart, RemotesApart;
      slots := [];
      for k := 0 to clients.list.Length
        invariant slots == Multiplexer.ListeningSlots(cs[..k])
      {
        assert cs[..k + 1][..k] == cs[..k];
        if clients.list[k].Full? && clients.list[k].item.state == Listen {
          slots := slots + [k];
        }
      }
      assert cs[..|cs|] == cs;
    }

    /** The answer to Listen, then `start_listen`: the snapshot, device by device. */
    method StartListen(i: nat, tag: nat) returns (res: int)
      requires Valid()
      modifies this, clients.list
      ensures Valid() && (Current(), res) == Multiplexer.StartListen(old(Current()), i, tag)
    {
      hide ClientsApart, RemotesApart, Multiplexer.ReplyResult, QueueNote;
      ReplyResult(i, tag, RESULT_OK);
      if fault || !IsClient(i) {
        fault := true;
        return -1;
      }
      ghost var before := Current();
      var c := clients.list[i].item.(state := Listen, notes := [], mark := |clients.list[i].item.out|, mixed := false);
      ghost var start := c;
      for k := 0 to |devices|
        invariant Valid() && Current() == before && c == Told0(wire, start, devices[..k]) && c.fd == start.fd
      {
        assert devices[..k + 1][..k] == devices[..k];
        if |c.ob| <= c.obCap {
          NotedFd(wire, c, Attached(devices[k]));
          c := QueueNote(wire, c, Attached(devices[k]));
        }
      }
      assert devices[..|devices|] == devices;
      SetClient(i, c);
      res := |devices|;
    }

    // ---- commands of a client

    method AddInstance(i: nat, host: Host, tag: nat, conn: Option<int>)
      requires Valid()
      modifies Repr()
      ensures Valid() && fresh(Repr() - old(Repr()))
      ensures var (t, res) := Multiplexer.ServiceAdd(old(Current()), host.name, host, conn);
              Current() == Multiplexer.ReplyResult(t, i, tag,
                  if res == 0 then RESULT_OK else if res == -2 then RESULT_BADDEV else RESULT_CONNREFUSED)
    {
      hide ClientsApart, RemotesApart, Multiplexer.ServiceAdd, Multiplexer.ReplyResult;
      var res := ServiceAdd(host.name, host, conn);
      ReplyResult(i, tag, if res == 0 then RESULT_OK else if res == -2 then RESULT_BADDEV else RESULT_CONNREFUSED);
    }

    method RemoveInstance(i: nat, host: Host, tag: nat)
      requires Valid()
      modifies Cells()
      ensures Valid()
      ensures var (t, res) := Multiplexer.ServiceRemove(old(Current()), None, Some(host));
              Current() == Multiplexer.ReplyResult(t, i, tag, if res == 0 then RESULT_OK else RESULT_BADDEV)
    {
      hide ClientsApart, RemotesApart, Multiplexer.ServiceRemove, Multiplexer.ReplyResult;
      var res := ServiceRemove(None, Some(host));
      ReplyResult(i, tag, if res == 0 then RESULT_OK else RESULT_BADDEV);
    }

    /** `usbmux_remote_read_pair_record` and its two siblings. */
    method PairRecord(i: nat, m: Message, tag: nat, conn: Option<int>) returns (ret: int)
      requires Valid() && m.kind.Some?
      modifies Repr()
      ensures Valid() && fresh(Repr() - old(Repr()))
      ensures var s, kind := old(Current()), m.kind.value;
              var request := if kind == "SavePairRecord" then m else OwnRequest(kind).(record := m.record);
              (Current(), ret) ==
                if Nameless(s, kind, m, conn) then (Fault(s), -1)
                else Multiplexer.Forward(s, i, RecordOwner(s.devices, m), PlistPacket(wire, 1, tag, request), conn)
    {
      hide ClientsApart, RemotesApart, Multiplexer.Forward, Multiplexer.IdOfSerial, Multiplexer.AnySerial,
           PlistPacket, OwnRequest, OwnerOf;
      var kind := m.kind.value;
      var named := AnySerial();
      if m.record.None? && (named || (kind != "SavePairRecord" && conn.Some? && conn.value !in fds)) {
        fault := true; // the missing string is compared, or copied
        return -1;
      }
      var request := if kind == "SavePairRecord" then m else OwnRequest(kind).(record := m.record);
      var owner := 0;
      if m.record.Some? {
        var device := IdOfSerial(m.record.value);
        owner := OwnerOf(device);
      }
      ret := Forward(i, owner, PlistPacket(wire, 1, tag, request), conn);
    }

    /** The property-list commands of `client_command`. */
    method PlistCommand(i: nat, m: Message, p: Packet, conn: Option<int>) returns (ret: int)
      requires Valid() && m.kind.Some?
      modifies Repr()
      ensures Valid() && fresh(Repr() - old(Repr()))
      ensures (Current(), ret) == Multiplexer.PlistCommand(old(Current()), i, m, p, conn)
    {
      hide ClientsApart, RemotesApart, Multiplexer.ReplyResult, Multiplexer.Reply, Multiplexer.Connect,
           Multiplexer.Forward, Multiplexer.StartListen, Multiplexer.ServiceAdd, Multiplexer.ServiceRemove,
           Multiplexer.InstanceReport, Multiplexer.ListeningSlots, Multiplexer.IdOfSerial, Multiplexer.AnySerial,
           Nameless, RecordOwner, PlistPacket, OwnRequest, OwnerOf;
      var kind, tag := m.kind.value, p.tag;
      ret := 0;
      if kind == "Listen" {
        ret := StartListen(i, tag);
      } else if kind == "Connect" {
        if m.device.None? {
          ReplyResult(i, tag, RESULT_BADDEV);
        } else if m.port.None? {
          ReplyResult(i, tag, RESULT_BADCOMMAND);
        } else {
          Connect(i, m.device.value % WORD, m, tag, conn);
        }
      } else if kind == "ListDevices" {
        Reply(i, Packet(1, MESSAGE_PLIST, tag, wire.report(DeviceList(devices))));
      } else if kind == "ListListeners" {
        var slots := ListeningSlots();
        Reply(i, Packet(1, MESSAGE_PLIST, tag, wire.report(ListenerList(slots))));
      } else if kind == "Instances" {
        var entries := InstanceReport();
        Reply(i, Packet(1, MESSAGE_PLIST, tag, wire.report(Instances(entries))));
      } else if kind == "ReadBUID" {
        var owner := if devices == [] then 0 else OwnerOf(devices[0].id); // fall back to local
        var _ := Forward(i, owner, PlistPacket(wire, 1, tag, OwnRequest("ReadBUID")), conn);
      } else if kind == "ReadPairRecord" || kind == "DeletePairRecord" || kind == "SavePairRecord" {
        ret := PairRecord(i, m, tag, conn);
      } else if kind == "AddInstance" && m.host.Some? && m.port.Some? {
        AddInstance(i, Host(m.host.value, m.port.value % 0x1_0000), tag, conn);
      } else if kind == "RemoveInstance" && m.host.Some? && m.port.Some? {
        RemoveInstance(i, Host(m.host.value, m.port.value % 0x1_0000), tag);
      } else {
        ReplyResult(i, tag, RESULT_BADCOMMAND);
      }
    }

    /** A packet in any state but the command state. */
    method Refuse(i: nat, tag: nat)
      requires Valid()
      modifies this, clients.list, remotes.list
      ensures Valid()
      ensures Current() == Multiplexer.ClientClose(Multiplexer.ReplyResult(old(Current()), i, tag, RESULT_BADCOMMAND), i)
    {
      hide ClientsApart, RemotesApart, Multiplexer.ReplyResult, Multiplexer.ClientClose;
      ReplyResult(i, tag, RESULT_BADCOMMAND);
      ClientClose(i);
    }

    /** A property list: the client speaks version 1 from now on. */
    method PlistMessage(i: nat, p: Packet, conn: Option<int>) returns (ret: int)
      requires Valid() && IsClient(i)
      modifies Repr()
      ensures Valid() && fresh(Repr() - old(Repr()))
      ensures var s, m := old(Current()), wire.dec(p.payload);
              var t := SetC(s, i, C(s, i).(version := 1));
              (Current(), ret) ==
                if m.None? || m.value.kind.None? then (t, -1) else Multiplexer.PlistCommand(t, i, m.value, p, conn)
    {
      hide ClientsApart, RemotesApart, Multiplexer.PlistCommand;
      SetClient(i, clients.list[i].item.(version := 1));
      var m := wire.dec(p.payload);
      if m.None? || m.value.kind.None? {
        return -1;
      }
      ret := PlistCommand(i, m.value, p, conn);
    }

    /** `client_command`. */
    method ClientCommand(i: nat, p: Packet, conn: Option<int>) returns (ret: int)
      requires Valid() && IsClient(i)
      modifies Repr()
      ensures Valid() && fresh(Repr() - old(Repr()))
      ensures (Current(), ret) == Multiplexer.ClientCommand(old(Current()), i, p, conn)
    {
      hide ClientsApart, RemotesApart, Multiplexer.ReplyResult, Multiplexer.ClientClose, Multiplexer.Connect,
           Multiplexer.StartListen, Multiplexer.PlistCommand, BinaryConnect;
      ret := 0;
      if clients.list[i].item.state != Command {
        Refuse(i, p.tag);
        ret := -1;
      } else if p.version != 0 && p.version != 1 {
        ReplyResult(i, p.tag, RESULT_BADVERSION);
      } else if p.message == MESSAGE_PLIST {
        ret := PlistMessage(i, p, conn);
      } else if p.message == MESSAGE_LISTEN {
        ret := StartListen(i, p.tag);
      } else if p.message == MESSAGE_CONNECT && |p.payload| >= 8 {
        Connect(i, DecodeWord(p.payload), BinaryConnect(p), p.tag, conn);
      } else {
        ReplyResult(i, p.tag, RESULT_BADCOMMAND);
      }
    }

    // ---- socket events of a client

    /** `process_recv`. */
    method ClientRecv(i: nat, io: Io, conn: Option<int>)
      requires Valid() && IsClient(i)
      modifies Repr()
      ensures Valid() && fresh(Repr() - old(Repr()))
      ensures Current() == Multiplexer.ClientRecv(old(Current()), i, io, conn)
    {
      hide ClientsApart, RemotesApart, Multiplexer.ClientClose, Multiplexer.ClientCommand, Multiplexer.Finish, Receive;
      var c := clients.list[i].item;
      if c.ibFreed {
        fault := true;
        return;
      }
      match Receive(c.ib, CLIENT_IB, io) {
        case Gone => ClientClose(i);
        case BadLength(_) => ClientClose(i);
        case More(data) => SetClient(i, Got(c, data));
        case Ready(data, p) => Handle(i, Got(c, data).(held := true), p, conn);
      }
    }

    /** The packet is whole: the command handler, and its return value. */
    method Handle(i: nat, c: Client, p: Packet, conn: Option<int>)
      requires Valid() && IsClient(i) && c.fd == clients.list[i].item.fd
      modifies Repr()
      ensures Valid() && fresh(Repr() - old(Repr()))
      ensures var (t, ret) := Multiplexer.ClientCommand(SetC(old(Current()), i, c), i, p, conn);
              Current() == Multiplexer.Finish(t, i, ret, p)
    {
      hide ClientsApart, RemotesApart, Multiplexer.ClientCommand, Multiplexer.Finish;
      SetClient(i, c);
      var ret := ClientCommand(i, p, conn);
      Finish(i, ret, p);
    }

    /** Its end: the buffer is emptied only when the handler returned 0. */
    method Finish(i: nat, ret: int, p: Packet)
      requires Valid()
      modifies this, clients.list
      ensures Valid() && Current() == Multiplexer.Finish(old(Current()), i, ret, p)
    {
      hide ClientsApart, RemotesApart;
      if ret == 0 {
        if IsClient(i) {
          var d := clients.list[i].item;
          SetClient(i, d.(ib := [], commands := d.commands + [p], held := false));
        } else {
          fault := true;
        }
      }
    }

    /** `process_send`. */
    method ClientSend(i: nat, io: Io)
      requires Valid() && IsClient(i)
      modifies this, clients.list, remotes.list
      ensures Valid() && Current() == Multiplexer.ClientSend(old(Current()), i, io)
    {
      hide ClientsApart, RemotesApart, Multiplexer.ClientClose, Sent, Accepted;
      var c := clients.list[i].item;
      if c.ob == [] {
        SetClient(i, c.(events := c.events.(pout := false)));
      } else if c.obFreed || (c.state == Connecting2 && !(c.remote.Some? && IsRemote(c.remote.value))) {
        fault := true;
      } else {
        var n := Accepted(io, |c.ob|);
        if n == 0 {
          ClientClose(i);
        } else {
          SentFd(c, n);
          SetClient(i, Sent(c, n));
        }
      }
    }

    /** Input of a connected client: into the output buffer of its upstream. */
    method RelayUp(i: nat, j: nat, io: Io)
      requires Valid() && IsClient(i) && IsRemote(j)
      modifies this, clients.list, remotes.list
      ensures Valid()
      ensures var s, c, r := old(Current()), old(cs[i].item), old(rs[j].item);
              var data := if |r.ob| >= r.obCap then [] else Taken(io, r.obCap - |r.ob|);
              Current() == if |r.ob| >= r.obCap then s
                           else if data == [] then Multiplexer.ClientClose(s, i)
                           else SetR(SetC(s, i, UpC(c, data)), j, UpR(r, data))
    {
      hide ClientsApart, RemotesApart, Multiplexer.ClientClose, UpC, UpR;
      var c, r := clients.list[i].item, remotes.list[j].item;
      if |r.ob| >= r.obCap {
        return; // full: try again in the next iteration
      }
      var data := Taken(io, r.obCap - |r.ob|);
      if data == [] {
        ClientClose(i);
      } else {
        RelayedFd(c, r, data, 0);
        SetPair(i, UpC(c, data), j, UpR(r, data));
      }
    }

    /** And output: from the input buffer of its upstream. */
    method RelayDown(i: nat, j: nat, io: Io)
      requires Valid() && IsClient(i) && IsRemote(j) && remotes.list[j].item.ib != []
      modifies this, clients.list, remotes.list
      ensures Valid()
      ensures var s, c, r := old(Current()), old(cs[i].item), old(rs[j].item);
              var n := Accepted(io, |r.ib|);
              Current() == if n == 0 then Multiplexer.ClientClose(s, i)
                           else SetR(SetC(s, i, DownC(c, r, n)), j, DownR(r, n))
    {
      hide ClientsApart, RemotesApart, Multiplexer.ClientClose, DownC, DownR, Accepted;
      var c, r := clients.list[i].item, remotes.list[j].item;
      var n := Accepted(io, |r.ib|);
      if n == 0 {
        ClientClose(i);
      } else {
        RelayedFd(c, r, [], n);
        SetPair(i, DownC(c, r, n), j, DownR(r, n));
      }
    }

    /** The relay half of `client_process`. */
    method RelayClient(i: nat, ev: Revents, io: Io)
      requires Valid() && IsClient(i)
      modifies this, clients.list, remotes.list
      ensures Valid() && Current() == Multiplexer.RelayClient(old(Current()), i, ev, io)
    {
      hide ClientsApart, RemotesApart, Multiplexer.ClientClose, UpC, UpR, DownC, DownR, Accepted;
      var c := clients.list[i].item;
      if !(c.remote.Some? && IsRemote(c.remote.value)) {
        fault := fault || ev.pin || ev.pout;
        return;
      }
      var j := c.remote.value;
      if ev.pin {
        RelayUp(i, j, io);
      } else if ev.pout && remotes.list[j].item.ib != [] {
        RelayDown(i, j, io);
      }
    }

    /** `client_process`. */
    method ClientProcess(fd: int, ev: Revents, io: Io, conn: Option<int>)
      requires Valid()
      modifies Repr()
      ensures Valid() && fresh(Repr() - old(Repr()))
      ensures Current() == Multiplexer.ClientProcess(old(Current()), fd, ev, io, conn)
    {
      hide ClientsApart, RemotesApart, Multiplexer.RelayClient, Multiplexer.ClientRecv, Multiplexer.ClientSend;
      var i := 0;
      while i < clients.list.Length && !(clients.list[i].Full? && clients.list[i].item.fd == fd)
        invariant i <= |cs| && forall k :: 0 <= k < i ==> !(cs[k].Full? && cs[k].item.fd == fd)
      {
        i := i + 1;
      }
      FindClientIs(cs, fd, i);
      if i == clients.list.Length {
        return;
      }
      if clients.list[i].item.state == Connected {
        RelayClient(i, ev, io);
      } else if ev.pin {
        ClientRecv(i, io, conn);
      } else if ev.pout {
        ClientSend(i, io);
      }
    }

    // ---- socket events of an upstream

    /** `remote_handle_command_result`. */
    method HandleResult(j: nat, p: Packet)
      requires Valid() && IsRemote(j)
      modifies this, clients.list, remotes.list
      ensures Valid() && Current() == Multiplexer.HandleResult(old(Current()), j, p)
    {
      hide ClientsApart, RemotesApart, Multiplexer.Announce, PassOn, ResultOf, NoteOf, ConnectAnswered,
           Connections.NotifyConnect;
      var r := remotes.list[j].item;
      if p.version != 0 && p.version != 1 {
        return;
      }
      if r.state == RCommand {
        if r.last == ListenCmd {
          if ResultOf(wire, p) == RESULT_OK {
            SetRemote(j, r.(state := RListen));
          }
        } else if r.last == Forwarded {
          if Reachable(r.client) {
            AnsweredFd(wire, clients.list[r.client.value].item, p);
            SetClient(r.client.value, PassOn(wire, clients.list[r.client.value].item, p));
          } else {
            fault := true;
          }
        }
      } else if r.state == RListen {
        var n := NoteOf(wire, r.id, p);
        if n.Some? {
          Announce(n.value);
        }
      } else if r.state == RConnecting1 {
        var result := ResultOf(wire, p);
        if Reachable(r.client) {
          var i := r.client.value;
          NotifiedFd(wire, clients.list[i].item, r, result);
          SetPair(i, Connections.NotifyConnect(wire, clients.list[i].item, result), j, ConnectAnswered(r, result));
        } else {
          fault := true;
        }
      }
    }

    /** There is such a client, and its output buffer can be written to. */
    predicate Reachable(client: Option<nat>)
      reads this, clients, clients.list
    {
      && client.Some? && IsClient(client.value)
      && var c := clients.list[client.value].item; !c.obFreed && |c.ob| <= c.obCap
    }

    /** `remote_process_recv`. */
    method RemoteRecv(j: nat, io: Io)
      requires Valid() && IsRemote(j)
      modifies Cells()
      ensures Valid() && Current() == Multiplexer.RemoteRecv(old(Current()), j, io)
    {
      hide ClientsApart, RemotesApart, Multiplexer.MarkDead, Multiplexer.HandleResult, Receive;
      var r := remotes.list[j].item;
      match Receive(r.ib, REMOTE_IB, io) {
        case Gone => MarkDead(j);
        case BadLength(data) =>
          SetRemote(j, RemoteGot(r, data));
          MarkDead(j);
        case More(data) => SetRemote(j, RemoteGot(r, data));
        case Ready(data, p) =>
          SetRemote(j, RemoteGot(r, data));
          HandleResult(j, p);
          if IsRemote(j) {
            SetRemote(j, Consumed(remotes.list[j].item, p));
          } else {
            fault := true;
          }
      }
    }

    /** `remote_process_send`. */
    method RemoteSend(j: nat, io: Io) returns (alive: bool)
      requires Valid() && IsRemote(j)
      modifies this, clients.list, remotes.list
      ensures Valid() && (Current(), alive) == Multiplexer.RemoteSend(old(Current()), j, io)
    {
      hide ClientsApart, RemotesApart, Multiplexer.UpstreamClose, RemoteSent, Accepted;
      var r := remotes.list[j].item;
      alive := true;
      if r.ob == [] {
        SetRemote(j, r.(events := r.events.(pout := false)));
        return;
      }
      var n := Accepted(io, |r.ob|);
      if n == 0 {
        UpstreamClose(j);
        alive := false;
      } else {
        RemoteSentFd(r, n);
        SetRemote(j, RemoteSent(r, n));
      }
    }

    method OrClient(client: Option<nat>, m: Mask)
      requires Valid()
      modifies this, clients.list
      ensures Valid() && Current() == Multiplexer.OrClient(old(Current()), client, m)
    {
      hide ClientsApart, RemotesApart;
      if client.Some? && IsClient(client.value) {
        SetClient(client.value, OrEvents(clients.list[client.value].item, m));
      } else {
        fault := true;
      }
    }

    /** The relay half of `usbmux_remote_process`. */
    method RelayRemote(j: nat, ev: Revents, io: Io)
      requires Valid() && IsRemote(j)
      modifies this, clients.list, remotes.list
      ensures Valid() && Current() == Multiplexer.RelayRemote(old(Current()), j, ev, io)
    {
      hide ClientsApart, RemotesApart, Multiplexer.UpstreamClose, Multiplexer.OrClient, Multiplexer.RemoteSend;
      var r := remotes.list[j].item;
      if ev.pin {
        if |r.ib| >= REMOTE_IB {
          return; // full: try again in the next iteration
        }
        if !io.Read? {
          UpstreamClose(j);
          return;
        }
        var data := Taken(io, REMOTE_IB - |r.ib|);
        if data == [] {
          SetRemote(j, r.(events := r.events.(pin := false)));
        } else {
          SetRemote(j, RawRead(r, data));
          OrClient(r.client, Mask(false, true));
        }
      } else if ev.pout {
        var alive := RemoteSend(j, io);
        if alive {
          OrClient(r.client, Mask(true, false));
        }
      } else {
        UpstreamClose(j);
      }
    }

    /** `usbmux_remote_process`. */
    method RemoteProcess(fd: int, ev: Revents, io: Io)
      requires Valid()
      modifies Cells()
      ensures Valid() && Current() == Multiplexer.RemoteProcess(old(Current()), fd, ev, io)
    {
      hide ClientsApart, RemotesApart, Multiplexer.Reap, Multiplexer.RelayRemote, Multiplexer.RemoteRecv,
           Multiplexer.RemoteSend;
      var found := Reap(fd, ev == Revents(false, false, false, true));
      if found.None? {
        return;
      }
      var j := found.value;
      if !IsRemote(j) {
        fault := true;
        return;
      }
      var r := remotes.list[j].item;
      if r.state == RConnected {
        RelayRemote(j, ev, io);
      } else if ev.pin {
        if r.state == RConnecting2 {
          SetRemote(j, r.(state := RConnected, events := r.devents.(pin := true)));
        } else {
          RemoteRecv(j, io);
        }
      } else if ev.pout {
        var _ := RemoteSend(j, io);
      }
    }
  }
}
