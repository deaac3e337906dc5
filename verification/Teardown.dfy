/**
 Announcing, closing, dying and reaping: what each does to the whole state, exactly, and that
 the invariant survives it.
 */
module Teardown {
  import opened Base
  import opened Wire
  import opened DeviceTable
  import opened Protocol
  import opened Connections
  import opened Collections
  import opened Multiplexer
  import opened Invariant
  import opened Steps
  import opened Upkeep

  // ---- announcements

  /** Nothing but the queues of listening clients and the table. */
  ghost predicate OnlyTold(s: State, t: State) {
    && t.wire == s.wire && t.remotes == s.remotes && t.used == s.used && t.fds == s.fds && t.fault == s.fault
    && |t.clients| == |s.clients|
    && (forall i: nat | i < |s.clients| :: t.clients[i].Full? == s.clients[i].Full?)
    && (forall i: nat | HasC(s, i) :: SameClient(C(s, i), C(t, i)) && C(s, i).state == C(t, i).state)
    && (forall i: nat | HasC(s, i) && C(s, i).state != Listen :: C(t, i) == C(s, i))
  }

  /** The table and the view of every listening client change together. */
  lemma AnnounceKeeps(s: State, n: Note<Message>)
    requires Inv(s) && NoteOk(n)
    requires n.Attached? ==> Owned(s, OwnerOf(n.entry.id))
    ensures Inv(Announce(s, n)) && OnlyTold(s, Announce(s, n)) && Calm(s, Announce(s, n))
  {
    hide RemoteOk, Lossless, FdsOk, ListenersOk, Replay, Apply, NotePacket;
    var t := Announce(s, n);
    forall i: nat | HasC(s, i)
      ensures !Deaf(s.clients[i]) && SameClient(C(s, i), C(t, i)) && C(t, i).state == C(s, i).state
      ensures ClientOk(s.wire, C(t, i)) && ViewOk(t, C(t, i))
      ensures C(s, i).state != Listen ==> C(t, i) == C(s, i)
      ensures C(s, i).remote.Some? ==> PairOk(C(t, i), R(s, C(s, i).remote.value))
    {
      if C(s, i).state == Listen {
        hide Frame, Frames, Grown;
        ToldListener(s.wire, C(s, i), n);
        ReplayAppend(C(s, i).notes, n);
      }
    }
    hide ClientOk, PairOk, Told, Deaf;
    assert forall i: nat {:trigger HasC(t, i)} {:trigger HasC(s, i)} :: HasC(t, i) == HasC(s, i);
    assert forall j: nat {:trigger HasR(t, j)} {:trigger HasR(s, j)} :: HasR(t, j) == HasR(s, j);
    FdsFrame(s, t);
    MarkedIds(s);
    ListenersFrame(s, t);
    TableTold(s, t, n);
  }

  lemma ToldListener(w: Codec, c: Client, n: Note<Message>)
    requires Lossless(w) && ClientOk(w, c) && c.state == Listen && NoteOk(n)
    ensures Told(w, Full(c), n) == Full(QueueNote(w, c, n)) && !Deaf(Full(c))
    ensures ClientOk(w, QueueNote(w, c, n)) && QueueNote(w, c, n).notes == c.notes + [n]
    ensures forall r | PairOk(c, r) :: PairOk(QueueNote(w, c, n), r)
  {
    QueueNoteOk(w, c, n);
  }

  lemma TableTold(s: State, t: State, n: Note<Message>)
    requires TableOk(s) && t.devices == Apply(s.devices, n) && t.remotes == s.remotes
    requires n.Attached? ==> EntryOk(n.entry) && Owned(s, OwnerOf(n.entry.id))
    ensures TableOk(t)
  {
    ApplyMembers(s.devices, n);
    forall e | e in t.devices
      ensures Owned(t, OwnerOf(e.id))
    {
      assert Owned(s, OwnerOf(e.id));
      var j: nat :| HasR(s, j) && Owner(R(s, j), OwnerOf(e.id));
      assert HasR(t, j);
    }
  }

  lemma {:induction false} WithdrawKeeps(s: State, ids: seq<nat>)
    requires Inv(s) && forall id | id in ids :: id < WORD
    ensures var t := Withdraw(s, ids);
            Inv(t) && OnlyTold(s, t) && Calm(s, t) && t.devices == DelAll(s.devices, ids)
    decreases |ids|
  {
    if ids != [] {
      hide Inv, OnlyTold, Calm, Announce;
      var u := Announce(s, Detached(ids[0]));
      assert ids[0] in ids && forall id | id in ids[1..] :: id in ids;
      AnnounceKeeps(s, Detached(ids[0]));
      assert u.devices == Del(s.devices, ids[0]) by { AnnouncedTable(s, Detached(ids[0])); }
      WithdrawKeeps(u, ids[1..]);
      ToldTransitive(s, u, Withdraw(u, ids[1..]));
    } else {
      ToldReflexive(s);
    }
  }

  lemma AnnouncedTable(s: State, n: Note<Message>)
    ensures Announce(s, n).devices == Apply(s.devices, n)
  {
  }

  lemma ToldReflexive(s: State)
    ensures OnlyTold(s, s) && Calm(s, s)
  {
  }

  lemma ToldTransitive(s: State, t: State, u: State)
    requires OnlyTold(s, t) && OnlyTold(t, u) && Calm(s, t) && Calm(t, u)
    ensures OnlyTold(s, u) && Calm(s, u)
  {
    assert forall i: nat {:trigger HasC(t, i)} {:trigger HasC(s, i)} {:trigger HasC(u, i)} ::
      HasC(t, i) == HasC(s, i) && HasC(u, i) == HasC(s, i);
  }

  /** Clients without an upstream that do not listen either are left alone; the others keep their upstream or go. */
  ghost predicate Spares(s: State, t: State) {
    && (forall i: nat | HasC(s, i) && C(s, i).remote.None? && C(s, i).state != Listen :: HasC(t, i) && C(t, i) == C(s, i))
    && (forall i: nat | HasC(t, i) :: HasC(s, i) && SameClient(C(s, i), C(t, i)))
  }

  lemma {:induction false} WithdrawIgnoresFds(s: State, ids: seq<nat>, fds: map<int, Handle>)
    ensures Withdraw(s.(fds := fds), ids) == Withdraw(s, ids).(fds := fds)
    decreases |ids|
  {
    if ids != [] {
      WithdrawIgnoresFds(Announce(s, Detached(ids[0])), ids[1..], fds);
    }
  }

  // ---- removing one connection, or a pair

  ghost function Without(s: State, ci: Option<nat>, rj: Option<nat>): State
    requires (ci.Some? ==> HasC(s, ci.value)) && (rj.Some? ==> HasR(s, rj.value))
  {
    var t := if ci.Some? then s.(clients := s.clients[ci.value := Empty], fds := s.fds[C(s, ci.value).fd := Closed]) else s;
    if rj.Some? then t.(remotes := t.remotes[rj.value := Empty], fds := t.fds[R(s, rj.value).fd := Closed]) else t
  }

  /** The two ends of a pair point at each other, and at nothing else. */
  ghost predicate Matched(s: State, ci: Option<nat>, rj: Option<nat>) {
    && (ci.Some? ==> HasC(s, ci.value) && C(s, ci.value).remote == rj)
    && (rj.Some? ==> HasR(s, rj.value) && R(s, rj.value).client == ci)
  }

  lemma FdsWithout(s: State, ci: Option<nat>, rj: Option<nat>)
    requires FdsOk(s) && Matched(s, ci, rj)
    ensures FdsOk(Without(s, ci, rj))
    ensures ci.Some? && rj.Some? ==> C(s, ci.value).fd != R(s, rj.value).fd
  {
    var t := Without(s, ci, rj);
    assert forall i: nat {:trigger HasC(t, i)} {:trigger HasC(s, i)} :: HasC(t, i) <==> HasC(s, i) && ci != Some(i);
    assert forall j: nat {:trigger HasR(t, j)} {:trigger HasR(s, j)} :: HasR(t, j) <==> HasR(s, j) && rj != Some(j);
  }

  lemma PairsWithout(s: State, ci: Option<nat>, rj: Option<nat>)
    requires ClientsOk(s) && RemotesOk(s) && Matched(s, ci, rj)
    ensures ClientsOk(Without(s, ci, rj)) && RemotesOk(Without(s, ci, rj))
  {
    hide ClientOk, RemoteOk, PairOk, Replay;
    var t := Without(s, ci, rj);
    assert forall i: nat {:trigger HasC(t, i)} {:trigger HasC(s, i)} :: HasC(t, i) <==> HasC(s, i) && ci != Some(i);
    assert forall j: nat {:trigger HasR(t, j)} {:trigger HasR(s, j)} :: HasR(t, j) <==> HasR(s, j) && rj != Some(j);
  }

  lemma RestWithout(s: State, ci: Option<nat>, rj: Option<nat>)
    requires Matched(s, ci, rj)
    ensures var t := Without(s, ci, rj);
            && t.wire == s.wire && t.fault == s.fault && t.devices == s.devices && t.used == s.used && Calm(s, t)
            && (forall j: nat | HasR(t, j) :: HasR(s, j) && R(t, j) == R(s, j))
            && (forall j: nat | HasR(s, j) && rj != Some(j) :: HasR(t, j) && R(t, j) == R(s, j))
  {
  }

  lemma WithoutKeeps(s: State, ci: Option<nat>, rj: Option<nat>)
    requires Inv(s) && Matched(s, ci, rj)
    requires rj.Some? ==> forall e | e in s.devices :: !Owner(R(s, rj.value), OwnerOf(e.id))
    ensures Inv(Without(s, ci, rj)) && Calm(s, Without(s, ci, rj))
  {
    var t := Without(s, ci, rj);
    hide Lossless, FdsOk, ListenersOk, TableOk, ClientsOk, RemotesOk, Owner, Without;
    FdsWithout(s, ci, rj);
    PairsWithout(s, ci, rj);
    MarkedIds(s);
    RestWithout(s, ci, rj);
    ListenersFrame(s, t);
    TableWithout(s, t, rj);
  }

  lemma TableWithout(s: State, t: State, rj: Option<nat>)
    requires TableOk(s) && t.devices == s.devices
    requires rj.Some? ==> HasR(s, rj.value) && forall e | e in s.devices :: !Owner(R(s, rj.value), OwnerOf(e.id))
    requires forall j: nat | HasR(s, j) && rj != Some(j) :: HasR(t, j) && R(t, j) == R(s, j)
    ensures TableOk(t)
  {
    forall e | e in t.devices
      ensures Owned(t, OwnerOf(e.id))
    {
      assert Owned(s, OwnerOf(e.id));
      var j: nat :| HasR(s, j) && Owner(R(s, j), OwnerOf(e.id));
      assert rj != Some(j);
      assert HasR(t, j);
    }
  }

  /** A connection made for a client never owns devices. */
  lemma NotOwner(r: Remote, id: nat)
    requires r.client.Some? && RemoteStates(r)
    ensures !Owner(r, id)
  {
  }

  lemma ClientMatched(s: State, i: nat)
    requires Inv(s) && HasC(s, i)
    ensures Matched(s, Some(i), C(s, i).remote)
    ensures C(s, i).remote.Some? ==> forall id :: !Owner(R(s, C(s, i).remote.value), id)
  {
    hide ClientOk, RemoteStreams, RemoteBuffers, PairOk, FdsOk, ListenersOk, TableOk;
    assert ClientsOk(s) && RemotesOk(s);
    if C(s, i).remote.Some? {
      forall id
        ensures !Owner(R(s, C(s, i).remote.value), id)
      {
        NotOwner(R(s, C(s, i).remote.value), id);
      }
    }
  }

  lemma RemoteMatched(s: State, j: nat)
    requires Inv(s) && HasR(s, j)
    ensures Matched(s, R(s, j).client, Some(j))
  {
    hide ClientOk, RemoteOk, PairOk, FdsOk, ListenersOk, TableOk;
    assert ClientsOk(s) && RemotesOk(s);
  }

  /** Closing a client removes exactly the client and the upstream made for it, and closes each descriptor once. */
  lemma ClientCloseIs(s: State, i: nat)
    requires Inv(s) && HasC(s, i)
    ensures Matched(s, Some(i), C(s, i).remote)
    ensures ClientClose(s, i) == Without(s, Some(i), C(s, i).remote)
    ensures Inv(ClientClose(s, i)) && Calm(s, ClientClose(s, i))
  {
    hide Inv, ClientClose, Without;
    ClientMatched(s, i);
    InvParts(s);
    ClientCloseEquals(s, i);
    if C(s, i).remote.Some? {
      assert forall e | e in s.devices :: !Owner(R(s, C(s, i).remote.value), OwnerOf(e.id));
    }
    WithoutKeeps(s, Some(i), C(s, i).remote);
  }

  lemma InvParts(s: State)
    requires Inv(s)
    ensures FdsOk(s) && ClientsOk(s) && RemotesOk(s) && ListenersOk(s) && TableOk(s)
  {
  }

  lemma ClientCloseEquals(s: State, i: nat)
    requires FdsOk(s) && HasC(s, i) && Matched(s, Some(i), C(s, i).remote)
    ensures ClientClose(s, i) == Without(s, Some(i), C(s, i).remote)
  {
    FdsWithout(s, Some(i), C(s, i).remote);
    if C(s, i).remote.Some? {
      var j := C(s, i).remote.value;
      assert s.fds[R(s, j).fd] == OpenRemote(j);
      assert s.remotes[j := Full(R(s, j).(client := None))][j := Empty] == s.remotes[j := Empty];
    }
  }

  lemma UpstreamCloseIs(s: State, j: nat)
    requires Inv(s) && HasR(s, j)
    requires R(s, j).listener ==> R(s, j).state == RCommand
    ensures Matched(s, R(s, j).client, Some(j))
    ensures UpstreamClose(s, j) == Without(s, R(s, j).client, Some(j))
    ensures Inv(UpstreamClose(s, j)) && Calm(s, UpstreamClose(s, j))
  {
    RemoteMatched(s, j);
    match R(s, j).client
    case Some(i) => ClientCloseIs(s, i);
    case None =>
      hide ClientsOk, RemotesOk, ListenersOk;
      FdsWithout(s, None, Some(j));
      WithoutKeeps(s, None, Some(j));
  }

  // ---- disposal

  lemma OwnedIdsSmall(t: Table<Message>, owner: nat)
    requires forall e | e in t :: EntryOk(e)
    ensures forall id | id in OwnedIds(t, owner) :: id < WORD
  {
    if t != [] {
      assert t[0] in t;
      OwnedIdsSmall(t[1..], owner);
    }
  }

  /** The state after the devices of upstream j have been withdrawn. */
  ghost function Withdrawn(s: State, j: nat): State
    requires HasR(s, j)
  {
    Withdraw(s, OwnedIds(s.devices, R(s, j).id))
  }

  lemma WithdrawnKeeps(s: State, j: nat)
    requires Inv(s) && HasR(s, j)
    ensures var t := Withdrawn(s, j);
            && Inv(t) && OnlyTold(s, t) && Calm(s, t)
            && t.devices == Others(s.devices, R(s, j).id)
            && forall e | e in t.devices :: OwnerOf(e.id) != R(s, j).id
  {
    var id := R(s, j).id;
    hide ClientsOk, RemotesOk, ListenersOk, FdsOk, Owned, OwnedIds, Others;
    OwnedIdsSmall(s.devices, id);
    WithdrawKeeps(s, OwnedIds(s.devices, id));
    DelOwned(s.devices, id);
    OthersMembers(s.devices, id);
  }

  /** The id of a disposed upstream that listened over the network becomes free. */
  ghost function Released(s: State, r: Remote): set<nat> {
    if r.listener && r.peer.Host? then s.used - {r.id} else s.used
  }

  /** Disposal withdraws the devices of that id, and removes exactly the upstream and its client. */
  lemma DisposeIs(s: State, j: nat)
    requires Inv(s) && HasR(s, j)
    ensures Matched(Withdrawn(s, j), R(s, j).client, Some(j))
    ensures Dispose(s, j) == Without(Withdrawn(s, j), R(s, j).client, Some(j)).(used := Released(s, R(s, j)))
    ensures Inv(Dispose(s, j)) && Calm(s, Dispose(s, j)) && Spares(s, Dispose(s, j))
    ensures Dispose(s, j).remotes == s.remotes[j := Empty]
    ensures Dispose(s, j).devices == Others(s.devices, R(s, j).id)
    ensures Dispose(s, j).used == if R(s, j).listener && R(s, j).peer != Local then s.used - {R(s, j).id} else s.used
  {
    hide Inv, Dispose, Withdraw, Without, Withdrawn, Others, OwnedIds, OnlyTold, Calm, Spares, FdsOk, ListenersOk,
        ClientsOk, RemotesOk, TableOk;
    var r := R(s, j);
    var w := Withdrawn(s, j);
    WithdrawnKeeps(s, j);
    InvParts(s);
    InvParts(w);
    WithdrawnSame(s, j);
    RemoteMatched(w, j);
    FdsWithout(w, r.client, Some(j));
    WithoutKeeps(w, r.client, Some(j));
    RestWithout(w, r.client, Some(j));
    var x := Without(w, r.client, Some(j));
    RemotesWithout(w, r.client, j);
    DisposeEquals(s, j);
    ReleaseKeeps(x, s, j);
    CalmTransitive(s, w, x);
    PairSpares(s, w, r.client, Some(j));
    SameButUsed(s, x, x.(used := Released(s, r)));
  }

  lemma WithdrawnSame(s: State, j: nat)
    requires HasR(s, j) && OnlyTold(s, Withdrawn(s, j))
    ensures Withdrawn(s, j).remotes == s.remotes && Withdrawn(s, j).used == s.used
  {
  }

  lemma RemotesWithout(s: State, ci: Option<nat>, j: nat)
    requires Matched(s, ci, Some(j))
    ensures Without(s, ci, Some(j)).remotes == s.remotes[j := Empty]
  {
  }

  lemma SameButUsed(s: State, x: State, y: State)
    requires y == x.(used := y.used)
    ensures Calm(s, x) ==> Calm(s, y)
    ensures Spares(s, x) ==> Spares(s, y)
  {
  }

  lemma PairSpares(s: State, w: State, ci: Option<nat>, rj: Option<nat>)
    requires OnlyTold(s, w) && Matched(w, ci, rj) && rj.Some?
    ensures Spares(s, Without(w, ci, rj))
  {
    assert forall i: nat {:trigger HasC(w, i)} {:trigger HasC(s, i)} :: HasC(w, i) == HasC(s, i);
  }

  lemma CalmTransitive(s: State, t: State, u: State)
    requires Calm(s, t) && Calm(t, u)
    ensures Calm(s, u)
  {
  }

  lemma DisposeEquals(s: State, j: nat)
    requires Inv(s) && HasR(s, j)
    requires OnlyTold(s, Withdrawn(s, j)) && Matched(Withdrawn(s, j), R(s, j).client, Some(j))
    requires R(s, j).client.Some? ==> C(Withdrawn(s, j), R(s, j).client.value).fd != R(s, j).fd
    requires FdsOk(Withdrawn(s, j))
    ensures Dispose(s, j) == Without(Withdrawn(s, j), R(s, j).client, Some(j)).(used := Released(s, R(s, j)))
  {
    hide ClientsOk, RemotesOk, ListenersOk, TableOk, Withdraw, OwnedIds;
    var r, ids, w := R(s, j), OwnedIds(s.devices, R(s, j).id), Withdrawn(s, j);
    assert s.fds[r.fd] == OpenRemote(j);
    var t := CloseFd(s, r.fd);
    assert t == s.(fds := s.fds[r.fd := Closed]);
    WithdrawIgnoresFds(s, ids, s.fds[r.fd := Closed]);
    assert Withdraw(t, ids) == w.(fds := s.fds[r.fd := Closed]);
    if r.client.Some? {
      var i := r.client.value;
      assert HasC(w, i) && w.fds[C(w, i).fd] == OpenClient(i);
      var c := C(w, i).(remote := None);
      assert w.clients[i := Full(c)][i := Empty] == w.clients[i := Empty];
      assert w.fds[C(w, i).fd := Closed][r.fd := Closed] == w.fds[r.fd := Closed][C(w, i).fd := Closed];
    }
  }

  /** Nobody else listens under a released id. */
  lemma ReleaseKeeps(x: State, s: State, j: nat)
    requires Inv(x) && ListenersOk(s) && HasR(s, j) && x.remotes == s.remotes[j := Empty] && x.used == s.used
    ensures Inv(x.(used := Released(s, R(s, j))))
  {
    var t, r := x.(used := Released(s, R(s, j))), R(s, j);
    forall k: nat | HasR(t, k) && R(t, k).listener && R(t, k).peer.Host?
      ensures R(t, k).id in t.used
    {
      assert HasR(x, k) && HasR(s, k) && R(s, k) == R(x, k) && k != j;
      assert Apart(R(s, k), r) && IdentityOk(s.used, R(s, k));
    }
    hide ClientOk, RemoteOk, PairOk, Lossless, Replay, Apart, IdentityOk, EntryOk, DistinctKeys;
    assert forall k: nat {:trigger HasR(t, k)} {:trigger HasR(x, k)} :: HasR(t, k) == HasR(x, k);
    assert forall i: nat {:trigger HasC(t, i)} {:trigger HasC(x, i)} :: HasC(t, i) == HasC(x, i);
    assert FdsOk(t) by { hide ListenersOk, ClientsOk, RemotesOk, TableOk; FdsFrame(x, t); }
    assert ListenersOk(t) by { ListenersFrame(x, t); }
    assert TableOk(t) by { hide ListenersOk, ClientsOk, RemotesOk, FdsOk; OwnedFrame(x, t); }
    assert ClientsOk(t) && RemotesOk(t) by { hide ListenersOk, FdsOk, TableOk; }
  }
}
