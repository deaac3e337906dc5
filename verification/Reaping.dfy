/** Marking upstreams dead and reaping them. */
module Reaping {
  import opened Base
  import opened Wire
  import opened DeviceTable
  import opened Protocol
  import opened Connections
  import opened Collections
  import opened Multiplexer
  import opened Invariant
  import opened Steps
  import opened Upkeep
  import opened Teardown

  lemma DeadOk(w: Codec, r: Remote)
    requires RemoteOk(w, r)
    ensures RemoteOk(w, r.(state := RDead))
    ensures forall c | PairOk(c, r) :: PairOk(c, r.(state := RDead))
  {
    hide Frame, Frames, ResultOf;
  }

  lemma KilledSlots(s: State, id: nat)
    requires RemotesOk(s)
    ensures var t := s.(remotes := KillId(s.remotes, id));
            forall j: nat | HasR(s, j) ::
              && HasR(t, j) && SameRemote(R(s, j), R(t, j)) && StaysOwner(R(s, j), R(t, j)) && RemoteOk(s.wire, R(t, j))
              && forall c | PairOk(c, R(s, j)) :: PairOk(c, R(t, j))
  {
    hide RemoteOk, PairOk;
    forall j: nat | HasR(s, j)
      ensures RemoteOk(s.wire, R(s, j).(state := RDead))
              && forall c | PairOk(c, R(s, j)) :: PairOk(c, R(s, j).(state := RDead))
    {
      DeadOk(s.wire, R(s, j));
    }
  }

  lemma KillKeeps(s: State, id: nat)
    requires Inv(s)
    ensures var t := s.(remotes := KillId(s.remotes, id)); Inv(t) && Calm(s, t)
  {
    hide ClientOk, RemoteOk, PairOk, Lossless, FdsOk, ListenersOk, TableOk, Replay, KillId;
    var t := s.(remotes := KillId(s.remotes, id));
    KilledSlots(s, id);
    hide Killed;
    SameSlots(s, t);
    InPlace(s, t);
  }

  lemma SparesReflexive(s: State)
    ensures Calm(s, s) && Spares(s, s)
  {
  }

  lemma SparesTransitive(s: State, t: State, u: State)
    requires Spares(s, t) && Spares(t, u)
    ensures Spares(s, u)
  {
  }

  /** Everything from slot k on is disposed of, and nothing before it. */
  lemma {:induction false} DisposeFromIs(s: State, k: nat)
    requires Inv(s) && k <= |s.remotes|
    ensures var t := DisposeFrom(s, k);
            && Inv(t) && Calm(s, t) && Spares(s, t) && |t.remotes| == |s.remotes|
            && forall j :: 0 <= j < |s.remotes| ==> t.remotes[j] == if j < k then s.remotes[j] else Empty
    decreases |s.remotes| - k
  {
    hide Inv, Dispose, Without, Withdrawn, Matched, Others, Calm, Spares, Released;
    SparesReflexive(s);
    if k < |s.remotes| {
      var t := if s.remotes[k].Full? then Dispose(s, k) else s;
      if s.remotes[k].Full? {
        DisposeIs(s, k);
      }
      DisposeFromIs(t, k + 1);
      CalmTransitive(s, t, DisposeFrom(t, k + 1));
      SparesTransitive(s, t, DisposeFrom(t, k + 1));
    }
  }

  predicate AllEmpty(rs: seq<Slot<Remote>>) { forall j :: 0 <= j < |rs| ==> rs[j].Empty? }

  /** An upstream with another id is alive. */
  predicate LiveElsewhere(rs: seq<Slot<Remote>>, id: nat) {
    exists k :: 0 <= k < |rs| && rs[k].Full? && rs[k].item.id != id && rs[k].item.state != RDead
  }

  /** The effect of `remote_mark_dead` when some upstream stays alive. */
  ghost predicate DeadMarked(s: State, t: State, id: nat, k: nat) {
    && t == s.(remotes := t.remotes) && |t.remotes| == |s.remotes|
    && HasR(s, k) && R(s, k).id != id && R(s, k).state != RDead
    && (forall j :: 0 <= j < k ==> !Live(Killed(s.remotes[j], id)))
    && (forall j :: 0 <= j < |s.remotes| ==>
          t.remotes[j] == if j == k then Full(R(s, k).(events := R(s, k).events.(pout := true)))
                          else Killed(s.remotes[j], id))
  }

  /**
   Exactly the upstreams with the same id become dead. Either a live upstream remains, and the
   first one is armed for POLLOUT so that the loop comes round to reap; or none remains, and
   all are disposed of on the spot.
   */
  lemma MarkDeadIs(s: State, j: nat)
    requires Inv(s) && HasR(s, j)
    ensures var t, id := MarkDead(s, j), R(s, j).id;
            && Inv(t) && Calm(s, t) && Spares(s, t)
            && if LiveElsewhere(s.remotes, id)
               then exists k: nat :: DeadMarked(s, t, id, k)
               else AllEmpty(t.remotes)
  {
    hide Inv, Calm, DisposeFrom;
    var id := R(s, j).id;
    var u := s.(remotes := KillId(s.remotes, id));
    var k := FirstLive(u.remotes);
    KillKeeps(s, id);
    if k < |u.remotes| {
      var q := R(u, k).(events := R(u, k).events.(pout := true));
      ArmKeeps(u, k);
      CalmTransitive(s, u, SetR(u, k, q));
      assert Live(Killed(s.remotes[k], id)) && HasR(s, k);
      assert LiveElsewhere(s.remotes, id);
      assert DeadMarked(s, MarkDead(s, j), id, k);
    } else {
      DisposeFromIs(u, 0);
      CalmTransitive(s, u, DisposeFrom(u, 0));
      forall k | 0 <= k < |s.remotes|
        ensures !(s.remotes[k].Full? && s.remotes[k].item.id != id && s.remotes[k].item.state != RDead)
      {
        assert !Live(u.remotes[k]);
      }
    }
  }

  lemma ArmedOk(w: Codec, r: Remote)
    requires RemoteOk(w, r)
    ensures RemoteOk(w, r.(events := r.events.(pout := true)))
    ensures forall c | PairOk(c, r) :: PairOk(c, r.(events := r.events.(pout := true)))
  {
    hide Frame, Frames, ResultOf;
  }

  lemma RemoteParts(s: State, j: nat)
    requires Inv(s) && HasR(s, j)
    ensures RemoteOk(s.wire, R(s, j))
    ensures R(s, j).client.Some? ==> HasC(s, R(s, j).client.value) && PairOk(C(s, R(s, j).client.value), R(s, j))
  {
    hide ClientOk, RemoteOk, PairOk, FdsOk, TableOk, ListenersOk;
    assert RemotesOk(s) && ClientsOk(s);
  }

  /** Arming an upstream for POLLOUT is always harmless. */
  lemma ArmKeeps(s: State, k: nat)
    requires Inv(s) && HasR(s, k)
    ensures var t := SetR(s, k, R(s, k).(events := R(s, k).events.(pout := true))); Inv(t) && Calm(s, t)
  {
    hide Inv, RemoteOk, PairOk, ClientOk;
    var q := R(s, k).(events := R(s, k).events.(pout := true));
    RemoteParts(s, k);
    ArmedOk(s.wire, R(s, k));
    SetRemote(s, k, q);
  }

  /** Marking dead erases the difference between an upstream and its dead self. */
  lemma MarkDeadForgets(s: State, j: nat, q: Remote)
    requires HasR(s, j) && q.id == R(s, j).id
    ensures MarkDead(SetR(s, j, q), j) == MarkDead(SetR(s, j, q.(state := RDead)), j)
  {
    var a, b := SetR(s, j, q), SetR(s, j, q.(state := RDead));
    assert KillId(a.remotes, q.id) == KillId(b.remotes, q.id);
    assert a.(remotes := KillId(a.remotes, q.id)) == b.(remotes := KillId(b.remotes, q.id));
  }

  /** What the scan does to a slot. */
  function Reaped(slot: Slot<Remote>, fd: int, invalid: bool): Slot<Remote> {
    if slot.Full? && (slot.item.state == RDead || (slot.item.fd == fd && invalid)) then Empty else slot
  }

  /** The upstream an event on `fd` is for. */
  predicate Addressed(slot: Slot<Remote>, fd: int, invalid: bool) {
    slot.Full? && slot.item.fd == fd && slot.item.state != RDead && !invalid
  }

  /** The scan from slot k on. */
  ghost predicate Scanned(s: State, k: nat, fd: int, invalid: bool, t: State, f: Option<nat>) {
    && |t.remotes| == |s.remotes|
    && (forall j :: 0 <= j < |s.remotes| ==>
          t.remotes[j] == if j < k then s.remotes[j] else Reaped(s.remotes[j], fd, invalid))
    && (f.Some? ==> f.value < |t.remotes| && Addressed(t.remotes[f.value], fd, invalid))
    && (f.None? ==> forall j :: 0 <= j < |s.remotes| ==> !Addressed(t.remotes[j], fd, invalid))
  }

  ghost predicate FoundSoFar(s: State, k: nat, fd: int, invalid: bool, found: Option<nat>) {
    && k <= |s.remotes|
    && (found.Some? ==> found.value < k && Addressed(s.remotes[found.value], fd, invalid))
    && forall j :: 0 <= j < k && Addressed(s.remotes[j], fd, invalid) ==> found == Some(j)
  }

  lemma FoundNext(s: State, k: nat, fd: int, invalid: bool, found: Option<nat>)
    requires FoundSoFar(s, k, fd, invalid, found) && k < |s.remotes|
    requires forall j: nat | HasR(s, j) && HasR(s, k) && R(s, j).fd == R(s, k).fd :: j == k
    ensures var slot := s.remotes[k];
            if slot == Reaped(slot, fd, invalid) then
              FoundSoFar(s, k + 1, fd, invalid, if slot.Full? && slot.item.fd == fd then Some(k) else found)
            else forall t: State | t.remotes == s.remotes[k := Empty] ::
              FoundSoFar(t, k + 1, fd, invalid, if slot.item.state == RDead then found else None)
  {
    if found.Some? {
      assert HasR(s, found.value);
    }
    forall t: State | t.remotes == s.remotes[k := Empty] && s.remotes[k] != Reaped(s.remotes[k], fd, invalid)
      ensures FoundSoFar(t, k + 1, fd, invalid, if s.remotes[k].item.state == RDead then found else None)
    {
      assert forall j :: 0 <= j < k ==> t.remotes[j] == s.remotes[j];
    }
  }

  /**
   The scan disposes of every upstream that was dead at entry, each exactly once (its slot goes
   from full to empty, and disposing twice would be a fault), keeps all others, and returns
   the live upstream with that descriptor, if there is one.
   */
  lemma {:induction false} ReapIs(s: State, k: nat, fd: int, invalid: bool, found: Option<nat>)
    requires Inv(s) && FoundSoFar(s, k, fd, invalid, found)
    ensures var (t, f) := Reap(s, k, fd, invalid, found);
            Inv(t) && Calm(s, t) && Scanned(s, k, fd, invalid, t, f)
    decreases |s.remotes| - k
  {
    hide Inv, Calm, Dispose, Without, Withdrawn, Matched, Others;
    if k < |s.remotes| {
      OneFd(s);
      FoundNext(s, k, fd, invalid, found);
      if s.remotes[k] != Reaped(s.remotes[k], fd, invalid) {
        var t := Dispose(s, k);
        DisposeIs(s, k);
        var f := if s.remotes[k].item.state == RDead then found else None;
        hide FoundSoFar;
        ReapIs(t, k + 1, fd, invalid, f);
        CalmTransitive(s, t, Reap(t, k + 1, fd, invalid, f).0);
      } else {
        hide FoundSoFar;
        ReapIs(s, k + 1, fd, invalid, if s.remotes[k].Full? && s.remotes[k].item.fd == fd then Some(k) else found);
      }
    } else {
      ToldReflexive(s);
    }
  }

  lemma OneFd(s: State)
    requires Inv(s)
    ensures forall j: nat, k: nat | HasR(s, j) && HasR(s, k) && R(s, j).fd == R(s, k).fd :: j == k
    ensures forall j: nat, k: nat | HasC(s, j) && HasC(s, k) && C(s, j).fd == C(s, k).fd :: j == k
    ensures forall j: nat, k: nat | HasC(s, j) && HasR(s, k) :: C(s, j).fd != R(s, k).fd
  {
    hide ClientsOk, RemotesOk, ListenersOk, TableOk;
    assert FdsOk(s);
  }
}
