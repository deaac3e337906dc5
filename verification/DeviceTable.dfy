/**
 The table of attached devices, as the ordered dictionary `remote_device_list`, and the
 notifications that announce its changes.

 Tables are generic in what an entry carries, so that the same operations describe both the
 daemon's own table and the one a listener rebuilds from the packets it receives.
 */
module DeviceTable {
  import opened Base

  datatype Entry<T> = Entry(id: nat, body: T)

  type Table<T> = seq<Entry<T>>

  /** A change of the table as announced to listeners. */
  datatype Note<T> = Attached(entry: Entry<T>) | Detached(id: nat)

  /** Set the item of key `e.id`: in place when the key exists, at the end otherwise. */
  function Put<T>(t: Table<T>, e: Entry<T>): Table<T> {
    if t == [] then [e]
    else if t[0].id == e.id then [e] + t[1..]
    else [t[0]] + Put(t[1..], e)
  }

  /** Remove the item of key `id`, if there is one. */
  function Del<T>(t: Table<T>, id: nat): Table<T> {
    if t == [] then []
    else if t[0].id == id then t[1..]
    else [t[0]] + Del(t[1..], id)
  }

  function Apply<T>(t: Table<T>, n: Note<T>): Table<T> {
    match n
    case Attached(e) => Put(t, e)
    case Detached(id) => Del(t, id)
  }

  /** The table rebuilt by a listener from the notifications it was sent. */
  function Replay<T>(ns: seq<Note<T>>): Table<T> {
    if ns == [] then [] else Apply(Replay(ns[..|ns| - 1]), ns[|ns| - 1])
  }

  lemma ReplayAppend<T>(ns: seq<Note<T>>, n: Note<T>)
    ensures Replay(ns + [n]) == Apply(Replay(ns), n)
  {
    assert (ns + [n])[..|ns|] == ns;
  }

  ghost predicate DistinctKeys<T>(t: Table<T>) {
    forall i, j :: 0 <= i < j < |t| ==> t[i].id != t[j].id
  }

  lemma {:induction false} PutMembers<T(!new)>(t: Table<T>, e: Entry<T>)
    requires DistinctKeys(t)
    ensures DistinctKeys(Put(t, e))
    ensures forall x :: x in Put(t, e) <==> x == e || (x in t && x.id != e.id)
  {
    if t != [] {
      var tail := t[1..];
      assert forall x :: x in t <==> x == t[0] || x in tail;
      if t[0].id == e.id {
        assert Put(t, e) == [e] + tail;
      } else {
        PutMembers(tail, e);
        assert Put(t, e) == [t[0]] + Put(tail, e);
        assert forall x :: x in tail ==> x.id != t[0].id;
        forall k | 0 <= k < |Put(tail, e)| ensures Put(tail, e)[k].id != t[0].id {
          var x: Entry<T> := Put(tail, e)[k];
          assert x in Put(tail, e);
        }
      }
    }
  }

  lemma {:induction false} DelMembers<T(!new)>(t: Table<T>, id: nat)
    requires DistinctKeys(t)
    ensures DistinctKeys(Del(t, id))
    ensures forall x :: x in Del(t, id) <==> x in t && x.id != id
  {
    if t != [] {
      var tail := t[1..];
      assert forall x :: x in t <==> x == t[0] || x in tail;
      if t[0].id != id {
        DelMembers(tail, id);
        assert Del(t, id) == [t[0]] + Del(tail, id);
        assert forall x :: x in tail ==> x.id != t[0].id;
        forall k | 0 <= k < |Del(tail, id)| ensures Del(tail, id)[k].id != t[0].id {
          var x: Entry<T> := Del(tail, id)[k];
          assert x in Del(tail, id);
        }
      }
    }
  }

  lemma ApplyMembers<T(!new)>(t: Table<T>, n: Note<T>)
    requires DistinctKeys(t)
    ensures DistinctKeys(Apply(t, n))
    ensures forall x :: x in Apply(t, n) ==> x in t || (n.Attached? && x == n.entry)
  {
    match n
    case Attached(e) => PutMembers(t, e);
    case Detached(id) =>
      DelMembers(t, id);
      forall x | x in Apply(t, n) ensures x in t {
        assert x in Del(t, id);
      }
  }

  /** The snapshot a late joiner is sent. */
  function Snapshot<T>(t: Table<T>): (ns: seq<Note<T>>)
    ensures |ns| == |t|
  {
    if t == [] then [] else Snapshot(t[..|t| - 1]) + [Attached(t[|t| - 1])]
  }

  lemma {:induction false} PutFresh<T>(t: Table<T>, e: Entry<T>)
    requires forall i :: 0 <= i < |t| ==> t[i].id != e.id
    ensures Put(t, e) == t + [e]
  {
    if t != [] {
      PutFresh(t[1..], e);
    }
  }

  /** Replaying the snapshot gives the table, order included. */
  lemma {:induction false} ReplaySnapshot<T>(t: Table<T>)
    requires DistinctKeys(t)
    ensures Replay(Snapshot(t)) == t
  {
    if t != [] {
      var front, e := t[..|t| - 1], t[|t| - 1];
      ReplaySnapshot(front);
      ReplayAppend(Snapshot(front), Attached(e));
      PutFresh(front, e);
    }
  }

  // ---- ownership: the high byte of a key names the upstream that announced the device

  const OWNER_UNIT: nat := 0x100_0000

  function OwnerOf(id: nat): nat { id / OWNER_UNIT }

  /** The keys of one owner, in table order. */
  function OwnedIds<T>(t: Table<T>, owner: nat): seq<nat> {
    if t == [] then []
    else (if OwnerOf(t[0].id) == owner then [t[0].id] else []) + OwnedIds(t[1..], owner)
  }

  function Others<T>(t: Table<T>, owner: nat): Table<T> {
    if t == [] then []
    else (if OwnerOf(t[0].id) == owner then [] else [t[0]]) + Others(t[1..], owner)
  }

  lemma {:induction false} OthersMembers<T>(t: Table<T>, owner: nat)
    ensures forall x :: x in Others(t, owner) <==> x in t && OwnerOf(x.id) != owner
  {
    if t != [] {
      OthersMembers(t[1..], owner);
      assert forall x :: x in t <==> x == t[0] || x in t[1..];
    }
  }

  function DelAll<T>(t: Table<T>, ids: seq<nat>): Table<T>
    decreases |ids|
  {
    if ids == [] then t else DelAll(Del(t, ids[0]), ids[1..])
  }

  lemma {:induction false} DelAllSkips<T>(x: Entry<T>, t: Table<T>, ids: seq<nat>)
    requires x.id !in ids
    ensures DelAll([x] + t, ids) == [x] + DelAll(t, ids)
    decreases |ids|
  {
    if ids != [] {
      assert ([x] + t)[1..] == t;
      assert Del([x] + t, ids[0]) == [x] + Del(t, ids[0]);
      DelAllSkips(x, Del(t, ids[0]), ids[1..]);
    }
  }

  lemma OwnedIdsOwner<T>(t: Table<T>, owner: nat)
    ensures forall id :: id in OwnedIds(t, owner) ==> OwnerOf(id) == owner
  {
  }

  /** Deleting the keys of an owner one at a time leaves exactly the entries of the others. */
  lemma {:induction false} DelOwned<T>(t: Table<T>, owner: nat)
    ensures DelAll(t, OwnedIds(t, owner)) == Others(t, owner)
  {
    if t != [] {
      var tail := t[1..];
      DelOwned(tail, owner);
      if OwnerOf(t[0].id) == owner {
        assert OwnedIds(t, owner)[1..] == OwnedIds(tail, owner);
        assert Del(t, t[0].id) == tail;
      } else {
        OwnedIdsOwner(tail, owner);
        assert OwnedIds(t, owner) == OwnedIds(tail, owner);
        assert t == [t[0]] + tail;
        DelAllSkips(t[0], tail, OwnedIds(tail, owner));
      }
    }
  }

  /** The entries of one owner, in table order. */
  function Mine<T>(t: Table<T>, owner: nat): Table<T> {
    if t == [] then []
    else (if OwnerOf(t[0].id) == owner then [t[0]] else []) + Mine(t[1..], owner)
  }

  lemma {:induction false} MineMembers<T>(t: Table<T>, owner: nat)
    ensures forall x :: x in Mine(t, owner) <==> x in t && OwnerOf(x.id) == owner
  {
    if t != [] {
      MineMembers(t[1..], owner);
      assert forall x :: x in t <==> x == t[0] || x in t[1..];
    }
  }

  function KeyOf<T>(n: Note<T>): nat {
    match n
    case Attached(e) => e.id
    case Detached(id) => id
  }

  lemma MineStep<T>(x: Entry<T>, t: Table<T>, owner: nat)
    ensures Mine([x] + t, owner) == if OwnerOf(x.id) == owner then [x] + Mine(t, owner) else Mine(t, owner)
  {
    assert ([x] + t)[1..] == t;
  }

  lemma ApplyStep<T>(x: Entry<T>, t: Table<T>, n: Note<T>)
    requires x.id != KeyOf(n)
    ensures Apply([x] + t, n) == [x] + Apply(t, n)
  {
    assert ([x] + t)[1..] == t;
  }

  /** An owner's entries have no other owner's key. */
  lemma {:induction false} MineForeign<T>(t: Table<T>, owner: nat, id: nat)
    requires OwnerOf(id) != owner
    ensures Del(Mine(t, owner), id) == Mine(t, owner)
  {
    if t != [] {
      MineForeign(t[1..], owner, id);
      assert t == [t[0]] + t[1..];
      MineStep(t[0], t[1..], owner);
      if OwnerOf(t[0].id) == owner {
        ApplyStep(t[0], Mine(t[1..], owner), Detached(id));
      }
    }
  }

  /** Changing the table and selecting an owner's entries commute, for changes under that owner's keys and for removals. */
  lemma {:induction false} MineApply<T>(t: Table<T>, owner: nat, n: Note<T>)
    requires OwnerOf(KeyOf(n)) == owner || n.Detached?
    ensures Mine(Apply(t, n), owner) == Apply(Mine(t, owner), n)
  {
    if t == [] {
      if n.Attached? {
        MineStep(n.entry, [], owner);
        assert [n.entry] + [] == [n.entry];
      }
    } else {
      var x, tail := t[0], t[1..];
      assert t == [x] + tail;
      MineStep(x, tail, owner);
      hide Mine, OwnerOf;
      if x.id != KeyOf(n) {
        MineApply(tail, owner, n);
        ApplyStep(x, tail, n);
        MineStep(x, Apply(tail, n), owner);
        ApplyStep(x, Mine(tail, owner), n);
      } else if n.Attached? {
        MineStep(n.entry, tail, owner);
        assert Mine(t, owner)[1..] == Mine(tail, owner);
      } else if OwnerOf(x.id) == owner {
        assert Mine(t, owner)[1..] == Mine(tail, owner);
      } else {
        MineForeign(tail, owner, n.id);
      }
    }
  }

  /** What happens under other keys leaves an owner's entries alone. */
  lemma {:induction false} MineUntouched<T>(t: Table<T>, owner: nat, n: Note<T>)
    requires OwnerOf(KeyOf(n)) != owner
    ensures Mine(Apply(t, n), owner) == Mine(t, owner)
  {
    if t != [] {
      var x, tail := t[0], t[1..];
      assert t == [x] + tail;
      MineStep(x, tail, owner);
      hide Mine, OwnerOf;
      if x.id != KeyOf(n) {
        MineUntouched(tail, owner, n);
        ApplyStep(x, tail, n);
        MineStep(x, Apply(tail, n), owner);
      } else if n.Attached? {
        MineStep(n.entry, tail, owner);
      }
    }
  }

  lemma {:induction false} MineOthers<T>(t: Table<T>, a: nat, b: nat)
    ensures Mine(Others(t, a), b) == if a == b then [] else Mine(t, b)
  {
    hide OwnerOf;
    if t != [] {
      MineOthers(t[1..], a, b);
      if OwnerOf(t[0].id) != a {
        assert Others(t, a)[1..] == Others(t[1..], a);
      } else {
        assert Others(t, a) == Others(t[1..], a);
      }
    }
  }

  // ---- projection: the same table with other contents

  function Project<T, U>(f: T -> U, t: Table<T>): (u: Table<U>)
    ensures |u| == |t|
  {
    if t == [] then [] else [Entry(t[0].id, f(t[0].body))] + Project(f, t[1..])
  }

  function ProjectNote<T, U>(f: T -> U, n: Note<T>): Note<U> {
    match n
    case Attached(e) => Attached(Entry(e.id, f(e.body)))
    case Detached(id) => Detached(id)
  }

  function ProjectNotes<T, U>(f: T -> U, ns: seq<Note<T>>): (us: seq<Note<U>>)
    ensures |us| == |ns|
  {
    if ns == [] then [] else ProjectNotes(f, ns[..|ns| - 1]) + [ProjectNote(f, ns[|ns| - 1])]
  }

  lemma {:induction false} ProjectApply<T, U>(f: T -> U, t: Table<T>, n: Note<T>)
    ensures Project(f, Apply(t, n)) == Apply(Project(f, t), ProjectNote(f, n))
  {
    if t != [] {
      ProjectApply(f, t[1..], n);
      assert Project(f, t)[1..] == Project(f, t[1..]);
      var key := if n.Attached? then n.entry.id else n.id;
      if t[0].id == key && n.Attached? {
        assert Apply(t, n)[1..] == t[1..];
      } else if t[0].id != key {
        assert Apply(t, n) == [t[0]] + Apply(t[1..], n);
        assert Apply(t, n)[1..] == Apply(t[1..], n);
      }
    }
  }

  /** A listener that sees projected notifications rebuilds the projected table. */
  lemma {:induction false} ProjectReplay<T, U>(f: T -> U, ns: seq<Note<T>>)
    ensures Replay(ProjectNotes(f, ns)) == Project(f, Replay(ns))
  {
    if ns != [] {
      var front, n := ns[..|ns| - 1], ns[|ns| - 1];
      ProjectReplay(f, front);
      ReplayAppend(ProjectNotes(f, front), ProjectNote(f, n));
      ProjectApply(f, Replay(front), n);
    }
  }
}

/** The text keys of the table: `0x%08x`, read back with a base-16 strtol into 32 bits. */
module DeviceKey {
  import opened Base
  import DeviceTable

  const DIGITS: string := "0123456789abcdef"

  /** The last `width` hexadecimal digits of n. */
  function Hex(n: nat, width: nat): (s: string)
    ensures |s| == width
  {
    if width == 0 then "" else Hex(n / 16, width - 1) + [DIGITS[n % 16]]
  }

  function Key(id: nat): string { "0x" + Hex(id, 8) }

  /** Value of a base-16 digit, or 16 for any other character. */
  function DigitValue(c: char): nat {
    if '0' <= c <= '9' then c as int - '0' as int
    else if 'a' <= c <= 'f' then c as int - 'a' as int + 10
    else if 'A' <= c <= 'F' then c as int - 'A' as int + 10
    else 16
  }

  /** Digits are read up to the first other character. */
  function ReadDigits(s: string, acc: nat): nat {
    if s == "" || DigitValue(s[0]) == 16 then acc else ReadDigits(s[1..], 16 * acc + DigitValue(s[0]))
  }

  /** The number the digits stand for, with or without the prefix. */
  function Number(s: string): nat {
    if |s| >= 2 && s[0] == '0' && (s[1] == 'x' || s[1] == 'X') then ReadDigits(s[2..], 0) else ReadDigits(s, 0)
  }

  /** A strtol with a 64-bit long, cut to 32 bits. */
  function Value(s: string): nat { Number(s) % WORD }

  /** A strtol with a 32-bit long, which stops at the largest one. */
  function NarrowValue(s: string): nat { if Number(s) > 0x7fff_ffff then 0x7fff_ffff else Number(s) }

  ghost predicate AllDigits(s: string) {
    forall i :: 0 <= i < |s| ==> DigitValue(s[i]) < 16
  }

  lemma {:induction false} ReadLast(s: string, c: char, acc: nat)
    requires AllDigits(s) && DigitValue(c) < 16
    ensures ReadDigits(s + [c], acc) == 16 * ReadDigits(s, acc) + DigitValue(c)
    decreases |s|
  {
    if s == "" {
      assert [c][1..] == "";
    } else {
      assert (s + [c])[1..] == s[1..] + [c];
      ReadLast(s[1..], c, 16 * acc + DigitValue(s[0]));
    }
  }

  function Pow16(w: nat): nat { if w == 0 then 1 else 16 * Pow16(w - 1) }

  lemma {:induction false} ReadHex(n: nat, width: nat)
    requires n < Pow16(width)
    ensures AllDigits(Hex(n, width)) && ReadDigits(Hex(n, width), 0) == n
  {
    if width > 0 {
      ReadHex(n / 16, width - 1);
      ReadLast(Hex(n / 16, width - 1), DIGITS[n % 16], 0);
    }
  }

  lemma PowersOf16()
    ensures Pow16(8) == WORD
  {
    assert Pow16(8) == 16 * Pow16(7) == 256 * Pow16(6) == 0x1000 * Pow16(5) == 0x1_0000 * Pow16(4);
    assert Pow16(4) == 16 * Pow16(3) == 256 * Pow16(2) == 0x1000 * Pow16(1);
  }

  /** Reading a key back gives the id, for every 32-bit id. */
  lemma RoundTrip(id: nat)
    requires id < WORD
    ensures Value(Key(id)) == id
  {
    PowersOf16();
    hide Pow16, Hex, ReadDigits;
    ReadHex(id, 8);
    assert Key(id)[2..] == Hex(id, 8);
  }

  /** Where a long has 32 bits, the same holds exactly for ids below 2 to the power of 31. */
  lemma NarrowRoundTrip(id: nat)
    requires id < WORD
    ensures NarrowValue(Key(id)) == id <==> id < 0x8000_0000
  {
    PowersOf16();
    hide Pow16, Hex, ReadDigits;
    ReadHex(id, 8);
    assert Key(id)[2..] == Hex(id, 8);
  }

  lemma Injective(a: nat, b: nat)
    requires a < WORD && b < WORD && Key(a) == Key(b)
    ensures a == b
  {
    RoundTrip(a);
    RoundTrip(b);
  }

  /** The id under which device `device` of upstream `owner` is published. */
  function Renamed(owner: nat, device: nat): nat {
    owner * DeviceTable.OWNER_UNIT + device % DeviceTable.OWNER_UNIT
  }

  /** Upstream and device number are recovered from the published key. */
  lemma RenamedKey(owner: nat, device: nat)
    requires owner < 256
    ensures var id := Renamed(owner, device);
            && id < WORD && Value(Key(id)) == id
            && DeviceTable.OwnerOf(Value(Key(id))) == owner
            && Value(Key(id)) % DeviceTable.OWNER_UNIT == device % DeviceTable.OWNER_UNIT
  {
    RoundTrip(Renamed(owner, device));
  }
}
