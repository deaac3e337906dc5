/**
 The invariant of the multiplexer, and the environment's side of the bargain.
 */
module Invariant {
  import opened Base
  import opened Wire
  import opened DeviceTable
  import opened Protocol
  import opened Connections
  import opened Collections
  import opened Multiplexer

  /** Every open descriptor belongs to one connection, and every connection has its descriptor. */
  ghost predicate FdsOk(s: State) {
    && (forall i: nat | HasC(s, i) :: C(s, i).fd in s.fds && s.fds[C(s, i).fd] == OpenClient(i))
    && (forall j: nat | HasR(s, j) :: R(s, j).fd in s.fds && s.fds[R(s, j).fd] == OpenRemote(j))
    && (forall f | f in s.fds && s.fds[f].OpenClient? :: HasC(s, s.fds[f].slot) && C(s, s.fds[f].slot).fd == f)
    && (forall f | f in s.fds && s.fds[f].OpenRemote? :: HasR(s, s.fds[f].slot) && R(s, s.fds[f].slot).fd == f)
  }

  /** A listening client's notifications replay to the current table. */
  ghost predicate ViewOk(s: State, c: Client) { c.state == Listen ==> Replay(c.notes) == s.devices }

  ghost predicate ClientsOk(s: State) {
    forall i: nat | HasC(s, i) ::
      && ClientOk(s.wire, C(s, i)) && ViewOk(s, C(s, i))
      && (Handed(C(s, i)) || C(s, i).state == Connecting1 ==> C(s, i).remote.Some?)
      && (C(s, i).remote.Some? ==>
            && HasR(s, C(s, i).remote.value)
            && R(s, C(s, i).remote.value).client == Some(i)
            && PairOk(C(s, i), R(s, C(s, i).remote.value)))
  }

  ghost predicate RemotesOk(s: State) {
    forall j: nat | HasR(s, j) ::
      && RemoteOk(s.wire, R(s, j))
      && (R(s, j).client.Some? ==> HasC(s, R(s, j).client.value) && C(s, R(s, j).client.value).remote == Some(j))
  }

  ghost predicate IdentityOk(used: set<nat>, r: Remote) {
    && r.id < 256
    && (r.listener ==> (r.peer.Local? <==> r.id == 0) && (r.peer.Host? ==> r.id in used))
  }

  /** Two upstreams that listen have different ids, and different names and addresses if not local. */
  ghost predicate Apart(a: Remote, b: Remote) {
    a.listener && b.listener ==>
      && a.id != b.id
      && (a.peer.Host? && b.peer.Host? ==> a.service != b.service && a.peer != b.peer)
  }

  ghost predicate ListenersOk(s: State) {
    && (forall j: nat | HasR(s, j) :: IdentityOk(s.used, R(s, j)))
    && (forall j: nat, k: nat | HasR(s, j) && HasR(s, k) && j != k :: Apart(R(s, j), R(s, k)))
  }

  /** An upstream that may own entries of the table. */
  predicate Owner(r: Remote, id: nat) { r.listener && r.id == id && (r.state == RListen || r.state == RDead) }

  ghost predicate Owned(s: State, id: nat) { exists j: nat :: HasR(s, j) && Owner(R(s, j), id) }

  ghost predicate TableOk(s: State) {
    && DistinctKeys(s.devices)
    && (forall e | e in s.devices :: EntryOk(e) && Owned(s, OwnerOf(e.id)))
  }

  ghost predicate Inv(s: State) {
    && !s.fault && Lossless(s.wire)
    && FdsOk(s) && ClientsOk(s) && RemotesOk(s) && ListenersOk(s) && TableOk(s)
  }

  /** No client newly waits for its Result packet to go out. */
  ghost predicate Calm(s: State, t: State) {
    forall i: nat | HasC(t, i) && C(t, i).state == Connecting2 ::
      HasC(s, i) && C(s, i).state == Connecting2 && C(s, i).fd == C(t, i).fd
  }
}
