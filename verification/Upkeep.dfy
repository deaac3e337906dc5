/** Changes of the global state that keep the invariant: updates in place, additions, announcements. */
module Upkeep {
  import opened Base
  import opened Wire
  import opened DeviceTable
  import opened Protocol
  import opened Connections
  import opened Collections
  import opened Multiplexer
  import opened Invariant
  import opened Steps

  /** What the invariant says of one client, and of its upstream. */
  lemma ClientFacts(s: State, i: nat)
    requires Inv(s) && HasC(s, i)
    ensures Lossless(s.wire) && ClientOk(s.wire, C(s, i)) && ViewOk(s, C(s, i)) && C(s, i).version <= 1
    ensures Handed(C(s, i)) || C(s, i).state == Connecting1 ==> C(s, i).remote.Some?
    ensures C(s, i).remote.Some? ==>
              && HasR(s, C(s, i).remote.value) && R(s, C(s, i).remote.value).client == Some(i)
              && RemoteOk(s.wire, R(s, C(s, i).remote.value)) && PairOk(C(s, i), R(s, C(s, i).remote.value))
  {
    hide RemoteOk, PairOk, FdsOk, ListenersOk, TableOk, Frames, ResultPacket, ReadNotes, ProjectNotes, ConnectRequest;
    assert ClientsOk(s) && RemotesOk(s);
  }

  predicate SameClient(c: Client, d: Client) { c.fd == d.fd && c.remote == d.remote }

  predicate SameRemote(r: Remote, q: Remote) {
    r.fd == q.fd && r.id == q.id && r.listener == q.listener && r.service == q.service && r.peer == q.peer
        && r.client == q.client
  }

  /** The upstream keeps the right to own devices. */
  predicate StaysOwner(r: Remote, q: Remote) {
    r.listener && (r.state == RListen || r.state == RDead) ==> q.state == RListen || q.state == RDead
  }

  /** In-place updates leave every slot as full or empty as it was. */
  lemma SameSlots(s: State, t: State)
    requires |s.clients| == |t.clients| && forall i :: 0 <= i < |s.clients| ==> s.clients[i].Full? == t.clients[i].Full?
    requires |s.remotes| == |t.remotes| && forall j :: 0 <= j < |s.remotes| ==> s.remotes[j].Full? == t.remotes[j].Full?
    ensures forall i: nat {:trigger HasC(t, i)} {:trigger HasC(s, i)} :: HasC(t, i) == HasC(s, i)
    ensures forall j: nat {:trigger HasR(t, j)} {:trigger HasR(s, j)} :: HasR(t, j) == HasR(s, j)
  {
  }

  lemma FdsFrame(s: State, t: State)
    requires FdsOk(s) && t.fds == s.fds
    requires forall i: nat :: HasC(t, i) == HasC(s, i)
    requires forall j: nat :: HasR(t, j) == HasR(s, j)
    requires forall i: nat | HasC(s, i) :: C(t, i).fd == C(s, i).fd
    requires forall j: nat | HasR(s, j) :: R(t, j).fd == R(s, j).fd
    ensures FdsOk(t)
  {
    assert forall i: nat | HasC(t, i) :: HasC(s, i);
    assert forall j: nat | HasR(t, j) :: HasR(s, j);
  }

  /** Upstreams may disappear; those that stay keep their identity, and their ids stay marked. */
  lemma ListenersFrame(s: State, t: State)
    requires ListenersOk(s)
    requires forall j: nat | HasR(t, j) :: HasR(s, j) && SameRemote(R(s, j), R(t, j))
    requires forall j: nat | HasR(t, j) && R(t, j).listener && R(t, j).peer.Host? :: R(t, j).id in t.used
    ensures ListenersOk(t)
  {
    forall j: nat | HasR(t, j)
      ensures IdentityOk(t.used, R(t, j))
    {
      assert IdentityOk(s.used, R(s, j));
    }
    forall j: nat, k: nat | HasR(t, j) && HasR(t, k) && j != k
      ensures Apart(R(t, j), R(t, k))
    {
      assert Apart(R(s, j), R(s, k));
    }
  }

  lemma MarkedIds(s: State)
    requires ListenersOk(s)
    ensures forall j: nat | HasR(s, j) && R(s, j).listener && R(s, j).peer.Host? :: R(s, j).id in s.used
  {
    forall j: nat | HasR(s, j) && R(s, j).listener && R(s, j).peer.Host?
      ensures R(s, j).id in s.used
    {
      assert IdentityOk(s.used, R(s, j));
    }
  }

  /** Ownership looks only at the upstreams. */
  lemma OwnedFrame(s: State, t: State)
    requires TableOk(s) && t.devices == s.devices
    requires forall j: nat | HasR(s, j) && R(s, j).listener ::
      HasR(t, j) && StaysOwner(R(s, j), R(t, j)) && SameRemote(R(s, j), R(t, j))
    ensures TableOk(t)
  {
    forall e | e in t.devices
      ensures EntryOk(e) && Owned(t, OwnerOf(e.id))
    {
      assert Owned(s, OwnerOf(e.id));
      var j: nat :| HasR(s, j) && Owner(R(s, j), OwnerOf(e.id));
      assert HasR(t, j) && Owner(R(t, j), OwnerOf(e.id));
    }
  }

  /** Connections updated in place: descriptors, identities and ownership are as before. */
  lemma InPlace(s: State, t: State)
    requires FdsOk(s) && ListenersOk(s) && TableOk(s)
    requires t.fds == s.fds && t.used == s.used && t.devices == s.devices
    requires |s.clients| == |t.clients| && |s.remotes| == |t.remotes|
    requires forall i: nat | i < |s.clients| :: HasC(s, i) == HasC(t, i) && (HasC(s, i) ==> SameClient(C(s, i), C(t, i)))
    requires forall j: nat | j < |s.remotes| ::
      HasR(s, j) == HasR(t, j) && (HasR(s, j) ==> SameRemote(R(s, j), R(t, j)) && StaysOwner(R(s, j), R(t, j)))
    ensures FdsOk(t) && ListenersOk(t) && TableOk(t)
  {
    hide FdsOk, ListenersOk, TableOk;
    FdsFrame(s, t);
    MarkedIds(s);
    ListenersFrame(s, t);
    OwnedFrame(s, t);
  }

  lemma SetClient(s: State, i: nat, d: Client)
    requires Inv(s) && HasC(s, i) && SameClient(C(s, i), d)
    requires ClientOk(s.wire, d) && ViewOk(s, d)
    requires d.remote.Some? ==> PairOk(d, R(s, d.remote.value))
    requires d.remote.None? ==> !Handed(d) && d.state != Connecting1
    ensures Inv(SetC(s, i, d))
    ensures (d.state == Connecting2 ==> C(s, i).state == Connecting2) ==> Calm(s, SetC(s, i, d))
  {
    hide ClientOk, RemoteOk, PairOk, Lossless, FdsOk, ListenersOk, TableOk, Replay;
    var t := SetC(s, i, d);
    InPlace(s, t);
    SameSlots(s, t);
  }

  lemma SetRemote(s: State, j: nat, q: Remote)
    requires Inv(s) && HasR(s, j) && SameRemote(R(s, j), q)
    requires RemoteOk(s.wire, q) && StaysOwner(R(s, j), q)
    requires q.client.Some? ==> PairOk(C(s, q.client.value), q)
    ensures Inv(SetR(s, j, q)) && Calm(s, SetR(s, j, q))
  {
    hide ClientOk, RemoteOk, PairOk, Lossless, FdsOk, ListenersOk, TableOk, Replay;
    var t := SetR(s, j, q);
    InPlace(s, t);
    SameSlots(s, t);
  }

  lemma SetPair(s: State, i: nat, d: Client, j: nat, q: Remote)
    requires Inv(s) && HasC(s, i) && C(s, i).remote == Some(j) && SameClient(C(s, i), d) && SameRemote(R(s, j), q)
    requires ClientOk(s.wire, d) && ViewOk(s, d) && RemoteOk(s.wire, q) && PairOk(d, q)
    requires StaysOwner(R(s, j), q)
    ensures Inv(SetR(SetC(s, i, d), j, q))
    ensures (d.state == Connecting2 ==> C(s, i).state == Connecting2) ==> Calm(s, SetR(SetC(s, i, d), j, q))
  {
    hide ClientOk, RemoteOk, PairOk, Lossless, FdsOk, ListenersOk, TableOk, Replay;
    var t := SetR(SetC(s, i, d), j, q);
    InPlace(s, t);
    SameSlots(s, t);
  }

  // ---- additions

  /** What adding an element to a slot array does to its slots. */
  lemma AddedClient(s: State, t: State, c: Client)
    requires t.clients == AddSlot(s.clients, c)
    ensures forall i: nat {:trigger HasC(t, i)} {:trigger HasC(s, i)} ::
              HasC(t, i) <==> HasC(s, i) || i == FirstEmpty(s.clients)
    ensures !HasC(s, FirstEmpty(s.clients)) && C(t, FirstEmpty(s.clients)) == c
    ensures forall i: nat | HasC(s, i) :: C(t, i) == C(s, i)
  {
  }

  lemma AddedRemote(s: State, t: State, r: Remote)
    requires t.remotes == AddSlot(s.remotes, r)
    ensures forall j: nat {:trigger HasR(t, j)} {:trigger HasR(s, j)} ::
              HasR(t, j) <==> HasR(s, j) || j == FirstEmpty(s.remotes)
    ensures !HasR(s, FirstEmpty(s.remotes)) && R(t, FirstEmpty(s.remotes)) == r
    ensures forall j: nat | HasR(s, j) :: R(t, j) == R(s, j)
  {
  }

  lemma FdsAddedClient(s: State, c: Client)
    requires FdsOk(s) && c.fd !in s.fds
    ensures FdsOk(AddClient(s, c))
  {
    hide AddSlot, FirstEmpty;
    var t := AddClient(s, c);
    AddedClient(s, t, c);
    assert forall j: nat {:trigger HasR(t, j)} {:trigger HasR(s, j)} :: HasR(t, j) == HasR(s, j);
  }

  lemma FdsAddedRemote(s: State, r: Remote)
    requires FdsOk(s) && r.fd !in s.fds
    ensures FdsOk(AddRemote(s, r))
  {
    hide AddSlot, FirstEmpty;
    var t := AddRemote(s, r);
    AddedRemote(s, t, r);
    assert forall i: nat {:trigger HasC(t, i)} {:trigger HasC(s, i)} :: HasC(t, i) == HasC(s, i);
  }

  lemma FdsUsed(s: State, t: State)
    requires FdsOk(s) && t == s.(used := t.used)
    ensures FdsOk(t)
  {
    assert forall i: nat {:trigger HasC(t, i)} {:trigger HasC(s, i)} :: HasC(t, i) == HasC(s, i);
    assert forall j: nat {:trigger HasR(t, j)} {:trigger HasR(s, j)} :: HasR(t, j) == HasR(s, j);
  }

  lemma AddClientKeeps(s: State, c: Client)
    requires Inv(s) && c.fd !in s.fds && c.remote.None? && c.state == Command && ClientOk(s.wire, c)
    ensures Inv(AddClient(s, c)) && Calm(s, AddClient(s, c))
  {
    hide ClientOk, RemoteOk, PairOk, Lossless, FdsOk, ListenersOk, TableOk, Replay, AddSlot, FirstEmpty;
    var t := AddClient(s, c);
    FdsAddedClient(s, c);
    AddedClient(s, t, c);
    assert forall j: nat {:trigger HasR(t, j)} {:trigger HasR(s, j)} :: HasR(t, j) == HasR(s, j);
    MarkedIds(s);
    ListenersFrame(s, t);
    OwnedFrame(s, t);
  }

  lemma ListenersAdded(s: State, t: State, r: Remote)
    requires ListenersOk(s) && t.remotes == AddSlot(s.remotes, r) && s.used <= t.used
    requires IdentityOk(t.used, r) && forall j: nat | HasR(s, j) :: Apart(R(s, j), r) && Apart(r, R(s, j))
    ensures ListenersOk(t)
  {
    hide AddSlot, FirstEmpty, Apart;
    AddedRemote(s, t, r);
    assert forall j: nat | HasR(s, j) :: IdentityOk(s.used, R(s, j));
  }

  lemma PairsAdded(s: State, t: State, r: Remote)
    requires ClientsOk(s) && RemotesOk(s) && r.client.None? && RemoteOk(s.wire, r)
    requires t.wire == s.wire && t.clients == s.clients && t.devices == s.devices && t.remotes == AddSlot(s.remotes, r)
    ensures ClientsOk(t) && RemotesOk(t)
  {
    hide ClientOk, RemoteOk, PairOk, Replay, AddSlot, FirstEmpty;
    AddedRemote(s, t, r);
    assert forall i: nat {:trigger HasC(t, i)} {:trigger HasC(s, i)} :: HasC(t, i) == HasC(s, i);
  }

  lemma TableAdded(s: State, t: State, r: Remote)
    requires TableOk(s) && t.devices == s.devices && t.remotes == AddSlot(s.remotes, r)
    ensures TableOk(t)
  {
    hide TableOk, AddSlot, FirstEmpty;
    AddedRemote(s, t, r);
    OwnedFrame(s, t);
  }

  lemma SameClientsCalm(s: State, t: State)
    requires t.clients == s.clients
    ensures Calm(s, t)
  {
    assert forall i: nat {:trigger HasC(t, i)} {:trigger HasC(s, i)} :: HasC(t, i) == HasC(s, i);
  }

  lemma AddListener(s: State, r: Remote)
    requires Inv(s) && r.fd !in s.fds && r.listener && RemoteOk(s.wire, r)
    requires IdentityOk(s.used + {r.id}, r)
    requires forall j: nat | HasR(s, j) :: Apart(R(s, j), r) && Apart(r, R(s, j))
    ensures Inv(AddRemote(s, r).(used := s.used + {r.id})) && Calm(s, AddRemote(s, r).(used := s.used + {r.id}))
  {
    assert r.client.None?;
    hide ClientsOk, RemotesOk, RemoteOk, Lossless, FdsOk, ListenersOk, TableOk, AddSlot, FirstEmpty, Apart, IdentityOk, Calm;
    var t := AddRemote(s, r).(used := s.used + {r.id});
    FdsAddedRemote(s, r);
    FdsUsed(AddRemote(s, r), t);
    PairsAdded(s, t, r);
    ListenersAdded(s, t, r);
    TableAdded(s, t, r);
    assert Calm(s, t) by { SameClientsCalm(s, t); }
  }

  /** A new upstream for a client that has none. */
  lemma AttachKeeps(s: State, i: nat, r: Remote, d: Client)
    requires Inv(s) && HasC(s, i) && C(s, i).remote.None? && r.fd !in s.fds && !r.listener && r.id < 256
    requires var q := r.(client := Some(i)); RemoteOk(s.wire, q) && PairOk(d, q)
    requires d.fd == C(s, i).fd && d.remote == Some(FirstEmpty(s.remotes)) && ClientOk(s.wire, d) && ViewOk(s, d)
    requires d.state != Connecting2
    ensures Inv(SetC(Attach(s, i, r), i, d)) && Calm(s, SetC(Attach(s, i, r), i, d))
  {
    hide ClientOk, RemoteOk, PairOk, Lossless, FdsOk, ListenersOk, TableOk, Replay, AddSlot, FirstEmpty;
    var q := r.(client := Some(i));
    var u := AddRemote(s, q);
    var t := SetC(Attach(s, i, r), i, d);
    assert t == SetC(u, i, d);
    AddedRemote(s, u, q);
    SameSlots(u, t);
    FdsAddedRemote(s, q);
    FdsFrame(u, t);
    ListenersAdded(s, t, q);
    OwnedFrame(s, t);
    assert forall k: nat {:trigger HasC(t, k)} {:trigger HasC(s, k)} :: HasC(t, k) == HasC(s, k);
  }
}
