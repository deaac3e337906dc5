/**
 The poll loop. An iteration takes a snapshot of descriptors and masks, the accepting socket
 first, then all clients, then all upstreams, and dispatches the entries in that order;
 what poll reports, what each socket call returns, and which descriptors are handed out is
 the environment's choice. Services may come and go between any two dispatches.
 */
module EventLoop {
  import opened Base
  import opened Wire
  import opened Protocol
  import opened DeviceTable
  import opened Connections
  import opened Collections
  import opened Multiplexer
  import opened Invariant
  import opened Steps
  import opened Upkeep
  import opened Teardown
  import opened Reaping
  import opened Commands
  import opened ClientEvents
  import opened RemoteEvents

  datatype Party = Acceptor | ClientSide | RemoteSide

  datatype PollEntry = PollEntry(party: Party, fd: int, mask: Mask)

  /** `client_get_fds`. */
  function ClientEntries(cs: seq<Slot<Client>>): seq<PollEntry> {
    if cs == [] then []
    else (if cs[0].Full? then [PollEntry(ClientSide, cs[0].item.fd, cs[0].item.events)] else []) + ClientEntries(cs[1..])
  }

  /** `usbmux_remote_get_fds`. */
  function RemoteEntries(rs: seq<Slot<Remote>>): seq<PollEntry> {
    if rs == [] then []
    else (if rs[0].Full? then [PollEntry(RemoteSide, rs[0].item.fd, rs[0].item.events)] else []) + RemoteEntries(rs[1..])
  }

  function Snapshot(s: State): seq<PollEntry> {
    [PollEntry(Acceptor, -1, Mask(true, false))] + ClientEntries(s.clients) + RemoteEntries(s.remotes)
  }

  /** The state, and the entries of the current iteration still to be dispatched. */
  datatype Loop = Loop(s: State, todo: seq<PollEntry>)

  datatype Event =
    | Poll
    | Dispatch(ev: Revents, io: Io, conn: Option<int>)
    | ServiceAppears(service: string, host: Host, conn: Option<int>)
    | ServiceVanishes(service: string)

  predicate NoEvents(ev: Revents) { ev == Revents(false, false, false, false) }

  function DispatchEntry(s: State, e: PollEntry, ev: Revents, io: Io, conn: Option<int>): State {
    if NoEvents(ev) then s
    else match e.party
      case Acceptor => if Fresh(s, conn) then AddClient(s, NewClient(conn.value)) else s
      case ClientSide => ClientProcess(s, e.fd, ev, io, conn)
      case RemoteSide => RemoteProcess(s, e.fd, ev, io)
  }

  function Next(l: Loop, e: Event): Loop {
    match e
    case Poll => if l.todo == [] then Loop(l.s, Snapshot(l.s)) else l
    case Dispatch(ev, io, conn) =>
      if l.todo == [] then l else Loop(DispatchEntry(l.s, l.todo[0], ev, io, conn), l.todo[1..])
    case ServiceAppears(service, host, conn) => l.(s := ServiceAdd(l.s, service, host, conn).0)
    case ServiceVanishes(service) => l.(s := ServiceRemove(l.s, Some(service), None).0)
  }

  /** The environment's side: poll reports only what was asked for, and the protocol rules are kept. */
  predicate Allowed(l: Loop, e: Event) {
    e.Dispatch? && l.todo != [] ==>
      var entry := l.todo[0];
      && (e.ev.pin ==> entry.mask.pin) && (e.ev.pout ==> entry.mask.pout)
      && (entry.party == ClientSide && e.ev.pin ==>
            forall i | 0 <= i < |l.s.clients| && l.s.clients[i].Full? && l.s.clients[i].item.fd == entry.fd ::
              Handed(l.s.clients[i].item) || ReceiveRule(l.s, i, e.io, e.conn))
      && (entry.party == RemoteSide && e.ev.pin ==> EventRule(l.s, entry.fd, e.io))
  }

  /** The loop after a sequence of events. */
  function Run(l: Loop, es: seq<Event>): Loop {
    if es == [] then l else Next(Run(l, es[..|es| - 1]), es[|es| - 1])
  }

  predicate AllAllowed(l: Loop, es: seq<Event>) {
    es != [] ==> AllAllowed(l, es[..|es| - 1]) && Allowed(Run(l, es[..|es| - 1]), es[|es| - 1])
  }

  // ---- the loop's own invariant

  /** Clients come before upstreams. */
  ghost predicate ClientsFirst(todo: seq<PollEntry>) {
    forall a, b :: 0 <= a < b < |todo| && todo[a].party == RemoteSide ==> todo[b].party == RemoteSide
  }

  /** No pending entry asks for input on behalf of a client that waits for its Result to go out. */
  ghost predicate NotStale(s: State, todo: seq<PollEntry>) {
    forall k, i: nat | 0 <= k < |todo| && todo[k].party == ClientSide && HasC(s, i) && C(s, i).fd == todo[k].fd
                       && C(s, i).state == Connecting2 :: !todo[k].mask.pin
  }

  ghost predicate LoopInv(l: Loop) {
    Inv(l.s) && ClientsFirst(l.todo) && NotStale(l.s, l.todo)
  }

  lemma {:induction false} ClientEntriesAre(cs: seq<Slot<Client>>)
    ensures forall e | e in ClientEntries(cs) ::
      e.party == ClientSide && exists i ::
        0 <= i < |cs| && cs[i].Full? && cs[i].item.fd == e.fd && cs[i].item.events == e.mask
  {
    if cs != [] {
      ClientEntriesAre(cs[1..]);
      forall e | e in ClientEntries(cs)
        ensures exists i :: 0 <= i < |cs| && cs[i].Full? && cs[i].item.fd == e.fd && cs[i].item.events == e.mask
      {
        if e in ClientEntries(cs[1..]) {
          var i :| 0 <= i < |cs[1..]| && cs[1..][i].Full? && cs[1..][i].item.fd == e.fd && cs[1..][i].item.events == e.mask;
          assert cs[i + 1] == cs[1..][i];
        } else {
          assert cs[0].Full?;
        }
      }
    }
  }

  lemma {:induction false} RemoteEntriesAre(rs: seq<Slot<Remote>>)
    ensures forall e | e in RemoteEntries(rs) :: e.party == RemoteSide
  {
    if rs != [] {
      RemoteEntriesAre(rs[1..]);
    }
  }

  lemma SnapshotKeeps(s: State)
    requires Inv(s)
    ensures LoopInv(Loop(s, Snapshot(s)))
  {
    hide Inv, Snapshot, RemoteOk, PairOk, ClientStreams, ClientNotes, ClientRequest;
    OneFd(s);
    var todo := Snapshot(s);
    EntriesInOrder(s);
    forall k, i: nat | 0 <= k < |todo| && todo[k].party == ClientSide && HasC(s, i) && C(s, i).fd == todo[k].fd
                       && C(s, i).state == Connecting2
      ensures !todo[k].mask.pin
    {
      EntryOfClient(s, k);
      var n: nat :| 0 <= n < |s.clients| && s.clients[n].Full? && s.clients[n].item.fd == todo[k].fd
                    && s.clients[n].item.events == todo[k].mask;
      assert HasC(s, n) && n == i;
      ClientFacts(s, i);
    }
  }

  /** The poll list, entry by entry. */
  lemma EntriesInOrder(s: State)
    ensures var todo, n := Snapshot(s), |ClientEntries(s.clients)|;
            forall k | 0 <= k < |todo| ::
              todo[k].party == if k == 0 then Acceptor else if k <= n then ClientSide else RemoteSide
  {
    hide ClientEntries, RemoteEntries;
    ClientEntriesAre(s.clients);
    RemoteEntriesAre(s.remotes);
    var c, r, todo := ClientEntries(s.clients), RemoteEntries(s.remotes), Snapshot(s);
    forall k | 0 <= k < |todo|
      ensures todo[k].party == if k == 0 then Acceptor else if k <= |c| then ClientSide else RemoteSide
    {
      if 1 <= k <= |c| {
        assert todo[k] == c[k - 1] && c[k - 1] in c;
      } else if k > |c| {
        assert todo[k] == r[k - 1 - |c|] && r[k - 1 - |c|] in r;
      }
    }
  }

  lemma EntryOfClient(s: State, k: nat)
    requires k < |Snapshot(s)| && Snapshot(s)[k].party == ClientSide
    ensures exists i :: 0 <= i < |s.clients| && s.clients[i].Full? && s.clients[i].item.fd == Snapshot(s)[k].fd
                        && s.clients[i].item.events == Snapshot(s)[k].mask
  {
    hide ClientEntries, RemoteEntries;
    EntriesInOrder(s);
    ClientEntriesAre(s.clients);
    var c := ClientEntries(s.clients);
    assert Snapshot(s)[k] == c[k - 1] && c[k - 1] in c;
  }

  lemma CalmKeepsFresh(s: State, t: State, todo: seq<PollEntry>)
    requires NotStale(s, todo) && Calm(s, t)
    ensures NotStale(t, todo)
  {
  }

  lemma TailKeeps(s: State, todo: seq<PollEntry>)
    requires ClientsFirst(todo) && NotStale(s, todo) && todo != []
    ensures ClientsFirst(todo[1..]) && NotStale(s, todo[1..])
    ensures todo[0].party == RemoteSide ==> forall t: State :: NotStale(t, todo[1..])
  {
  }

  lemma NewClientOk(w: Codec, fd: int)
    ensures ClientOk(w, NewClient(fd)) && NewClient(fd).fd == fd
  {
  }

  lemma DispatchKeeps(l: Loop, e: Event)
    requires LoopInv(l) && e.Dispatch? && l.todo != [] && Allowed(l, e)
    ensures LoopInv(Next(l, e))
  {
    var s, entry := l.s, l.todo[0];
    var t := DispatchEntry(s, entry, e.ev, e.io, e.conn);
    TailKeeps(s, l.todo);
    hide Inv, Calm, ClientProcess, RemoteProcess, AddClient, ReceiveRule, EventRule, NewClient;
    if !NoEvents(e.ev) {
      match entry.party
      case Acceptor =>
        if Fresh(s, e.conn) {
          NewClientOk(s.wire, e.conn.value);
          assert NewClient(e.conn.value).remote.None?
              && NewClient(e.conn.value).state == Command by { NewClientPlain(e.conn.value); }
          hide ClientOk;
          AddClientKeeps(s, NewClient(e.conn.value));
          CalmKeepsFresh(s, t, l.todo[1..]);
        }
      case ClientSide =>
        forall i: nat | HasC(s, i) && C(s, i).fd == entry.fd
          ensures e.ev.pin ==> C(s, i).state != Connecting2
          ensures e.ev.pin && !Handed(C(s, i)) ==> ReceiveRule(s, i, e.io, e.conn)
        {
        }
        ClientProcessKeeps(s, entry.fd, e.ev, e.io, e.conn);
        CalmKeepsFresh(s, t, l.todo[1..]);
      case RemoteSide =>
        RemoteProcessKeeps(s, entry.fd, e.ev, e.io);
    }
  }

  lemma NewClientPlain(fd: int)
    ensures NewClient(fd).remote.None? && NewClient(fd).state == Command
  {
  }

  /** Every step of the loop, and every service that comes or goes, keeps the invariant. */
  lemma NextKeeps(l: Loop, e: Event)
    requires LoopInv(l) && Allowed(l, e)
    ensures LoopInv(Next(l, e))
  {
    hide Inv, Calm, Allowed, DispatchEntry, ServiceAdd, ServiceRemove, Snapshot, NotStale, ClientsFirst;
    match e
    case Poll =>
      SnapshotKeeps(l.s);
    case Dispatch(ev, io, conn) =>
      if l.todo != [] {
        DispatchKeeps(l, e);
      }
    case ServiceAppears(service, host, conn) =>
      ServiceAddKeeps(l.s, service, host, conn);
      CalmKeepsFresh(l.s, Next(l, e).s, l.todo);
    case ServiceVanishes(service) =>
      ServiceRemoveKeeps(l.s, Some(service), None);
      CalmKeepsFresh(l.s, Next(l, e).s, l.todo);
  }

  lemma StartKeeps(w: Codec, local: Option<int>)
    requires Lossless(w)
    ensures LoopInv(Loop(Start(w, local), []))
  {
    var s := State(w, NoSlots(CAPACITY_STEP), NoSlots(CAPACITY_STEP), [], {}, map[], false);
    assert forall i: nat :: !HasC(s, i) && !HasR(s, i);
    assert Inv(s);
    if local.Some? {
      var r := NewRemote(local.value, Local, PlistPacket(w, 1, 0, OwnRequest("Listen")))
               .(listener := true, last := ListenCmd);
      assert r == NewRemote(local.value, Local, PlistPacket(w, 1, 0, OwnRequest("Listen")))
                  .(id := 0, listener := true, service := "", last := ListenCmd);
      NewRemoteOk(w, local.value, Local, PlistPacket(w, 1, 0, OwnRequest("Listen")), r);
      hide RemoteOk, Inv;
      AddListener(s, r);
      assert s.used + {r.id} == {0};
    }
  }

  /** Every state the daemon can reach. */
  ghost predicate Reachable(l: Loop) {
    exists w: Codec, local: Option<int>, es: seq<Event> ::
      Lossless(w) && AllAllowed(Loop(Start(w, local), []), es) && l == Run(Loop(Start(w, local), []), es)
  }

  lemma {:induction false} RunKeeps(l: Loop, es: seq<Event>)
    requires LoopInv(l) && AllAllowed(l, es)
    ensures LoopInv(Run(l, es))
    decreases |es|
  {
    if es != [] {
      hide LoopInv, Next, Allowed;
      RunKeeps(l, es[..|es| - 1]);
      NextKeeps(Run(l, es[..|es| - 1]), es[|es| - 1]);
    }
  }

  /** The invariant holds in every reachable state. */
  lemma Safe(l: Loop)
    requires Reachable(l)
    ensures LoopInv(l)
  {
    var w: Codec, local: Option<int>, es: seq<Event> :|
      Lossless(w) && AllAllowed(Loop(Start(w, local), []), es) && l == Run(Loop(Start(w, local), []), es);
    hide LoopInv;
    StartKeeps(w, local);
    RunKeeps(Loop(Start(w, local), []), es);
  }
}
