/** The poll list and one iteration of the main loop, in place; `EventLoop` is what they are proved against. */
module MainLoop {
  import opened Base
  import opened Connections
  import opened Collections
  import opened Multiplexer
  import opened EventLoop
  import opened Daemons

  datatype PollFd = PollFd(fd: int, events: Mask)

  class FdList {
    var count: nat
    var owners: array<Party>
    var fds: array<PollFd>

    ghost predicate Valid()
      reads this
    {
      count <= owners.Length == fds.Length && 4 <= owners.Length
    }

    ghost function Entries(): seq<PollEntry>
      requires Valid()
      reads this, owners, fds
    {
      seq(count, i requires Valid() && 0 <= i < count reads this, owners, fds =>
        PollEntry(owners[i], fds[i].fd, fds[i].events))
    }

    constructor ()
      ensures Valid() && fresh(owners) && fresh(fds) && Entries() == []
    {
      count := 0;
      owners := new Party[4](_ => Acceptor);
      fds := new PollFd[4](_ => PollFd(-1, Mask(false, false)));
    }

    method Reset()
      requires Valid()
      modifies this`count
      ensures Valid() && Entries() == []
    {
      count := 0;
    }

    /** Appends an entry; a full list is doubled first. */
    method Add(owner: Party, fd: int, events: Mask)
      requires Valid()
      modifies this, owners, fds
      ensures Valid() && Entries() == old(Entries()) + [PollEntry(owner, fd, events)]
      ensures owners == old(owners) || fresh(owners)
      ensures fds == old(fds) || fresh(fds)
    {
      ghost var before := Entries();
      if count == owners.Length {
        var capacity, wasOwners, wasFds := 2 * owners.Length, owners, fds;
        owners := new Party[capacity](k reads wasOwners => if 0 <= k < wasOwners.Length then wasOwners[k] else Acceptor);
        fds := new PollFd[capacity](k reads wasFds =>
          if 0 <= k < wasFds.Length then wasFds[k] else PollFd(-1, Mask(false, false)));
        assert Entries() == before;
      }
      owners[count] := owner;
      fds[count] := PollFd(fd, events);
      count := count + 1;
      assert Entries()[..count - 1] == before;
    }
  }

  /** The poll list shares no array with the daemon. */
  ghost predicate Separate(d: Daemon, list: FdList)
    reads list, d.clients, d.remotes
  {
    {list as object, list.owners, list.fds} !! d.Repr()
  }

  lemma ClientStep(cs: seq<Slot<Client>>, i: nat)
    requires i < |cs|
    ensures ClientEntries(cs[i..]) == (if cs[i].Full? then [PollEntry(ClientSide, cs[i].item.fd, cs[i].item.events)] else [])
                                      + ClientEntries(cs[i + 1..])
  {
    assert cs[i..][1..] == cs[i + 1..];
  }

  lemma RemoteStep(rs: seq<Slot<Remote>>, j: nat)
    requires j < |rs|
    ensures RemoteEntries(rs[j..]) == (if rs[j].Full? then [PollEntry(RemoteSide, rs[j].item.fd, rs[j].item.events)] else [])
                                      + RemoteEntries(rs[j + 1..])
  {
    assert rs[j..][1..] == rs[j + 1..];
  }

  lemma NoMore()
    ensures ClientEntries([]) == [] && RemoteEntries([]) == []
  {
  }

  /** `client_get_fds`. */
  method CollectClients(d: Daemon, list: FdList)
    requires d.Valid() && list.Valid() && Separate(d, list)
    modifies list, list.owners, list.fds
    ensures list.Valid() && Separate(d, list) && list.Entries() == old(list.Entries()) + ClientEntries(d.cs)
    ensures list.owners == old(list.owners) || fresh(list.owners)
    ensures list.fds == old(list.fds) || fresh(list.fds)
  {
    hide ClientEntries;
    ghost var all := list.Entries() + ClientEntries(d.cs);
    for i := 0 to d.clients.list.Length
      invariant list.Valid() && list.Entries() + ClientEntries(d.cs[i..]) == all
      invariant list.owners == old(list.owners) || fresh(list.owners)
      invariant list.fds == old(list.fds) || fresh(list.fds)
    {
      ClientStep(d.cs, i);
      if d.clients.list[i].Full? {
        list.Add(ClientSide, d.clients.list[i].item.fd, d.clients.list[i].item.events);
      }
    }
    NoMore();
    assert d.cs[d.clients.list.Length..] == [] && list.Entries() + [] == all;
  }

  /** `usbmux_remote_get_fds`. */
  method CollectRemotes(d: Daemon, list: FdList)
    requires d.Valid() && list.Valid() && Separate(d, list)
    modifies list, list.owners, list.fds
    ensures list.Valid() && Separate(d, list) && list.Entries() == old(list.Entries()) + RemoteEntries(d.rs)
    ensures list.owners == old(list.owners) || fresh(list.owners)
    ensures list.fds == old(list.fds) || fresh(list.fds)
  {
    hide RemoteEntries;
    ghost var all := list.Entries() + RemoteEntries(d.rs);
    for j := 0 to d.remotes.list.Length
      invariant list.Valid() && list.Entries() + RemoteEntries(d.rs[j..]) == all
      invariant list.owners == old(list.owners) || fresh(list.owners)
      invariant list.fds == old(list.fds) || fresh(list.fds)
    {
      RemoteStep(d.rs, j);
      if d.remotes.list[j].Full? {
        list.Add(RemoteSide, d.remotes.list[j].item.fd, d.remotes.list[j].item.events);
      }
    }
    NoMore();
    assert d.rs[d.remotes.list.Length..] == [] && list.Entries() + [] == all;
  }

  lemma SnapshotIs(s: State)
    ensures Snapshot(s) == [PollEntry(Acceptor, -1, Mask(true, false))] + ClientEntries(s.clients) + RemoteEntries(s.remotes)
  {
  }

  /** The poll list of an iteration. */
  method Collect(d: Daemon, list: FdList)
    requires d.Valid() && list.Valid() && Separate(d, list)
    modifies list, list.owners, list.fds
    ensures list.Valid() && Separate(d, list) && list.Entries() == Snapshot(d.Current())
    ensures list.owners == old(list.owners) || fresh(list.owners)
    ensures list.fds == old(list.fds) || fresh(list.fds)
  {
    hide Snapshot, ClientEntries, RemoteEntries;
    SnapshotIs(d.Current());
    list.Reset();
    list.Add(Acceptor, -1, Mask(true, false));
    CollectClients(d, list);
    CollectRemotes(d, list);
  }

  lemma AcceptedFd(fd: int)
    ensures NewClient(fd).fd == fd
  {
  }

  method DispatchOne(d: Daemon, owner: Party, fd: int, answer: Event)
    requires d.Valid() && answer.Dispatch?
    modifies d.Repr()
    ensures d.Valid() && fresh(d.Repr() - old(d.Repr()))
    ensures forall mask: Mask ::
      d.Current() == DispatchEntry(old(d.Current()), PollEntry(owner, fd, mask), answer.ev, answer.io, answer.conn)
  {
    hide ClientProcess, RemoteProcess, NewClient;
    if NoEvents(answer.ev) {
      return;
    }
    match owner {
      case Acceptor =>
        if answer.conn.Some? && answer.conn.value !in d.fds { // `client_accept`
          var c := NewClient(answer.conn.value);
          AcceptedFd(answer.conn.value);
          d.InsertClient(c);
        }
      case ClientSide => d.ClientProcess(fd, answer.ev, answer.io, answer.conn);
      case RemoteSide => d.RemoteProcess(fd, answer.ev, answer.io);
    }
  }

  lemma {:induction false} RunAfter(l: Loop, e: Event, es: seq<Event>)
    ensures Run(l, [e] + es) == Run(Next(l, e), es)
    decreases |es|
  {
    hide Next;
    var all := [e] + es;
    if es == [] {
      assert all[..0] == [] && all == [e];
    } else {
      assert all[..|all| - 1] == [e] + es[..|es| - 1];
      RunAfter(l, e, es[..|es| - 1]);
    }
  }

  /** Every entry of the list, in order, with the events poll reported for it. */
  method DispatchAll(d: Daemon, list: FdList, answers: seq<Event>)
    requires d.Valid() && list.Valid() && Separate(d, list) && |answers| == list.count
    requires forall a | a in answers :: a.Dispatch?
    modifies d.Repr()
    ensures d.Valid() && fresh(d.Repr() - old(d.Repr()))
    ensures Loop(d.Current(), []) == Run(Loop(old(d.Current()), list.Entries()), answers)
  {
    hide DispatchEntry, ServiceAdd, ServiceRemove, Snapshot;
    ghost var start, todo := Loop(d.Current(), list.Entries()), list.Entries();
    for k := 0 to list.count
      invariant d.Valid() && fresh(d.Repr() - old(d.Repr())) && list.Entries() == todo
      invariant Run(start, answers[..k]) == Loop(d.Current(), todo[k..])
    {
      assert todo[k..][1..] == todo[k + 1..] && todo[k..][0] == todo[k];
      assert answers[..k + 1][..k] == answers[..k];
      DispatchOne(d, list.owners[k], list.fds[k].fd, answers[k]);
      assert todo[k] == PollEntry(list.owners[k], list.fds[k].fd, list.fds[k].events);
    }
    assert answers[..|answers|] == answers;
  }

  /**
   One iteration: rebuild the list, poll, dispatch every entry in order. The answers hold, for each
   entry, what poll reports and what the socket calls made on its behalf return. The result
   is that of the run of `EventLoop`, so an iteration whose answers are allowed keeps the invariant.
   */
  method Iterate(d: Daemon, list: FdList, answers: seq<Event>)
    requires d.Valid() && list.Valid() && Separate(d, list) && |answers| == |Snapshot(d.Current())|
    requires forall a | a in answers :: a.Dispatch?
    modifies d.Repr(), list, list.owners, list.fds
    ensures d.Valid() && list.Valid() && fresh(d.Repr() - old(d.Repr()))
    ensures Loop(d.Current(), []) == Run(Loop(old(d.Current()), []), [Poll] + answers)
    ensures LoopInv(Loop(old(d.Current()), [])) && AllAllowed(Loop(old(d.Current()), []), [Poll] + answers) ==>
              LoopInv(Loop(d.Current(), []))
  {
    hide LoopInv, AllAllowed, Snapshot, Run, ServiceAdd, ServiceRemove, DispatchEntry;
    ghost var start := Loop(d.Current(), []);
    Collect(d, list);
    assert d.Current() == start.s;
    DispatchAll(d, list, answers);
    RunAfter(start, Poll, answers);
    if LoopInv(start) && AllAllowed(start, [Poll] + answers) {
      RunKeeps(start, [Poll] + answers);
    }
  }
}
