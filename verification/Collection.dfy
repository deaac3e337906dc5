/**
 The slot array both connection lists are kept in. Functions on a sequence of slots specify
 the class that edits the array in place; the multiplexer uses the same functions.
 */
module Collections {
  import opened Base

  const CAPACITY_STEP: nat := 8

  /** Index of the first empty slot, or the length when all are full. */
  function FirstEmpty<T>(l: seq<Slot<T>>): (i: nat)
    ensures i <= |l|
    ensures i < |l| ==> l[i].Empty?
    ensures forall k :: 0 <= k < i ==> l[k].Full?
  {
    if l == [] || l[0].Empty? then 0 else 1 + FirstEmpty(l[1..])
  }

  lemma {:induction false} FirstEmptyIs<T>(l: seq<Slot<T>>, i: nat)
    requires i <= |l| && (i < |l| ==> l[i].Empty?)
    requires forall k :: 0 <= k < i ==> l[k].Full?
    ensures FirstEmpty(l) == i
  {
    if i > 0 {
      FirstEmptyIs(l[1..], i - 1);
    }
  }

  function NoSlots<T>(n: nat): (l: seq<Slot<T>>)
    ensures |l| == n && forall k :: 0 <= k < n ==> l[k] == Empty
  {
    seq(n, _ => Empty)
  }

  /** Into the first empty slot; a full array first grows by CAPACITY_STEP. */
  function AddSlot<T>(l: seq<Slot<T>>, item: T): (r: seq<Slot<T>>)
    ensures |r| == (if FirstEmpty(l) < |l| then |l| else |l| + CAPACITY_STEP)
    ensures FirstEmpty(l) < |r| && r[FirstEmpty(l)] == Full(item)
    ensures forall k :: 0 <= k < |r| && k != FirstEmpty(l) ==> r[k] == if k < |l| then l[k] else Empty
  {
    var i := FirstEmpty(l);
    if i < |l| then l[i := Full(item)] else l + [Full(item)] + NoSlots(CAPACITY_STEP - 1)
  }

  function RemoveItem<T(==)>(l: seq<Slot<T>>, item: T): (r: seq<Slot<T>>)
    ensures |r| == |l|
  {
    if l == [] then [] else if l[0] == Full(item) then [Empty] + l[1..] else [l[0]] + RemoveItem(l[1..], item)
  }

  /** The elements in the order FOREACH visits them. */
  function Items<T>(l: seq<Slot<T>>): seq<T> {
    if l == [] then [] else (if l[0].Full? then [l[0].item] else []) + Items(l[1..])
  }

  lemma {:induction false} ItemsConcat<T>(a: seq<Slot<T>>, b: seq<Slot<T>>)
    ensures Items(a + b) == Items(a) + Items(b)
  {
    if a == [] {
      assert a + b == b;
    } else {
      ItemsConcat(a[1..], b);
      var c := a + b;
      assert c[0] == a[0] && c[1..] == a[1..] + b;
      Regroup(if a[0].Full? then [a[0].item] else [], Items(a[1..]), Items(b));
    }
  }

  lemma Regroup<T>(a: seq<T>, b: seq<T>, c: seq<T>)
    ensures a + (b + c) == (a + b) + c
  {
  }

  lemma {:induction false} ItemsNone<T>(l: seq<Slot<T>>)
    requires forall k :: 0 <= k < |l| ==> l[k].Empty?
    ensures Items(l) == []
  {
    if l != [] {
      ItemsNone(l[1..]);
    }
  }

  lemma {:induction false} ItemsMembers<T(!new)>(l: seq<Slot<T>>)
    ensures forall x :: x in Items(l) <==> Full(x) in l
  {
    if l != [] {
      ItemsMembers(l[1..]);
      assert forall s :: s in l <==> s == l[0] || s in l[1..];
    }
  }

  lemma ItemsSplit<T>(l: seq<Slot<T>>, i: nat)
    requires i < |l|
    ensures Items(l) == Items(l[..i]) + (if l[i].Full? then [l[i].item] else []) + Items(l[i + 1..])
  {
    var tail := l[i..];
    assert tail[0] == l[i] && tail[1..] == l[i + 1..] && l == l[..i] + tail;
    ItemsConcat(l[..i], tail);
    Regroup(Items(l[..i]), if l[i].Full? then [l[i].item] else [], Items(l[i + 1..]));
  }

  lemma AddItems<T>(l: seq<Slot<T>>, item: T)
    ensures var a, b := Items(l[..FirstEmpty(l)]), Items(AddSlot(l, item)[FirstEmpty(l) + 1..]);
            Items(l) == a + b && Items(AddSlot(l, item)) == a + [item] + b
  {
    var i, r := FirstEmpty(l), AddSlot(l, item);
    hide FirstEmpty, AddSlot, Items;
    ItemsSplit(r, i);
    assert r[..i] == l[..i];
    if i < |l| {
      ItemsSplit(l, i);
      assert r[i + 1..] == l[i + 1..];
    } else {
      ItemsNone(r[i + 1..]);
      assert l[..i] == l && Items(l[..i]) + [] == Items(l);
    }
  }

  lemma Shuffle<T>(a: seq<T>, x: T, b: seq<T>)
    ensures multiset(a + [x] + b) == multiset(a + b) + multiset{x}
  {
  }

  /** Adding adds one occurrence, and nothing that was there moves, through any growth. */
  lemma AddRefines<T>(l: seq<Slot<T>>, item: T)
    ensures multiset(Items(AddSlot(l, item))) == multiset(Items(l)) + multiset{item}
    ensures forall k :: 0 <= k < |l| && l[k].Full? ==> AddSlot(l, item)[k] == l[k]
  {
    hide Items;
    AddItems(l, item);
    Shuffle(Items(l[..FirstEmpty(l)]), item, Items(AddSlot(l, item)[FirstEmpty(l) + 1..]));
  }

  function RemoveFirst<T(==)>(s: seq<T>, x: T): seq<T> {
    if s == [] then [] else if s[0] == x then s[1..] else [s[0]] + RemoveFirst(s[1..], x)
  }

  lemma {:induction false} RemoveFirstMultiset<T>(s: seq<T>, x: T)
    ensures multiset(RemoveFirst(s, x)) == multiset(s) - multiset{x}
  {
    if s != [] {
      assert s == [s[0]] + s[1..];
      RemoveFirstMultiset(s[1..], x);
    }
  }

  lemma {:induction false} RemoveItems<T>(l: seq<Slot<T>>, item: T)
    ensures Items(RemoveItem(l, item)) == RemoveFirst(Items(l), item)
    ensures forall k :: 0 <= k < |l| && RemoveItem(l, item)[k].Full? ==> RemoveItem(l, item)[k] == l[k]
  {
    if l != [] {
      RemoveItems(l[1..], item);
      assert RemoveItem(l, item)[1..] == if l[0] == Full(item) then l[1..] else RemoveItem(l[1..], item);
      if l[0].Full? {
        assert Items(l)[1..] == Items(l[1..]);
      } else {
        assert Items(l) == Items(l[1..]);
        assert RemoveItem(l, item) == [Empty] + RemoveItem(l[1..], item);
        assert Items(RemoveItem(l, item)) == Items(RemoveItem(l[1..], item));
      }
    }
  }

  /** A stranger is not found. */
  lemma {:induction false} RemoveNone<T>(l: seq<Slot<T>>, item: T)
    requires forall k :: 0 <= k < |l| ==> l[k] != Full(item)
    ensures RemoveItem(l, item) == l
  {
    if l != [] {
      RemoveNone(l[1..], item);
    }
  }

  /** Removing takes away one occurrence of a member, nothing of a stranger, and moves nothing. */
  lemma RemoveRefines<T>(l: seq<Slot<T>>, item: T)
    ensures multiset(Items(RemoveItem(l, item))) == multiset(Items(l)) - multiset{item}
    ensures forall k :: 0 <= k < |l| && RemoveItem(l, item)[k].Full? ==> RemoveItem(l, item)[k] == l[k]
  {
    hide Items, RemoveItem, RemoveFirst;
    RemoveItems(l, item);
    RemoveFirstMultiset(Items(l), item);
  }

  /** With distinct elements, removing the element of slot k empties slot k. */
  lemma {:induction false} RemoveAt<T>(l: seq<Slot<T>>, k: nat)
    requires k < |l| && l[k].Full? && forall i :: 0 <= i < k ==> l[i] != l[k]
    ensures RemoveItem(l, l[k].item) == l[k := Empty]
  {
    if k > 0 {
      RemoveAt(l[1..], k - 1);
    }
  }

  class Collection<T(==,!new)> {
    var list: array<Slot<T>>

    constructor ()
      ensures fresh(list) && list[..] == NoSlots(CAPACITY_STEP)
    {
      list := new Slot<T>[CAPACITY_STEP](_ => Empty);
    }

    /** The element goes into the first empty slot, whose number stands for its address. */
    method Add(element: T) returns (slot: nat)
      modifies this, list
      ensures list == old(list) || fresh(list)
      ensures list[..] == AddSlot(old(list[..]), element) && slot == FirstEmpty(old(list[..]))
    {
      slot := 0;
      while slot < list.Length
        invariant slot <= list.Length && list == old(list) && list[..] == old(list[..])
        invariant forall k :: 0 <= k < slot ==> list[k].Full?
      {
        if list[slot].Empty? {
          FirstEmptyIs(list[..], slot);
          list[slot] := Full(element);
          return;
        }
        slot := slot + 1;
      }
      FirstEmptyIs(list[..], slot);
      ghost var before := list[..];
      var capacity, was := list.Length, list;
      list := new Slot<T>[capacity + CAPACITY_STEP](k requires 0 <= k < capacity + CAPACITY_STEP reads was =>
        if k < capacity then was[k] else Empty);
      list[capacity] := Full(element);
      assert list[..capacity] == before;
      assert list[..] == before + [Full(element)] + NoSlots(CAPACITY_STEP - 1);
    }

    method Remove(element: T)
      modifies list
      ensures list[..] == RemoveItem(old(list[..]), element)
    {
      for i := 0 to list.Length
        invariant list[..] == old(list[..]) && forall k :: 0 <= k < i ==> list[k] != Full(element)
      {
        if list[i] == Full(element) {
          RemoveAt(list[..], i);
          list[i] := Empty;
          return;
        }
      }
      RemoveNone(list[..], element);
    }

    method Count() returns (count: nat)
      ensures count == |multiset(Items(list[..]))|
    {
      count := 0;
      for i := 0 to list.Length
        invariant count == |Items(list[..i])|
      {
        assert list[..i + 1] == list[..i] + [list[i]];
        ItemsConcat(list[..i], [list[i]]);
        assert [list[i]][1..] == [];
        if list[i].Full? {
          count := count + 1;
        }
      }
      assert list[..list.Length] == list[..];
    }

    /**
     A FOREACH loop whose body removes the current element when `drop` says so: every
     initial element is visited exactly once, in slot order, and the kept ones stay put.
     */
    method ForEachDropping(drop: T -> bool) returns (visited: seq<T>)
      requires forall i, k :: 0 <= i < k < list.Length && list[i].Full? ==> list[i] != list[k]
      modifies list
      ensures visited == Items(old(list[..]))
      ensures forall k :: 0 <= k < list.Length ==>
        list[k] == var s := old(list[..])[k]; if s.Full? && drop(s.item) then Empty else s
    {
      visited := [];
      ghost var before := list[..];
      var i := 0;
      while i < list.Length
        invariant 0 <= i <= list.Length && |before| == list.Length
        invariant visited == Items(before[..i])
        invariant forall k :: i <= k < list.Length ==> list[k] == before[k]
        invariant forall k :: 0 <= k < i ==>
          list[k] == if before[k].Full? && drop(before[k].item) then Empty else before[k]
      {
        ItemsConcat(before[..i], [before[i]]);
        assert before[..i + 1] == before[..i] + [before[i]];
        assert [before[i]][1..] == [];
        if list[i].Full? {
          var element := list[i].item;
          visited := visited + [element];
          if drop(element) {
            RemoveAt(list[..], i);
            Remove(element);
          }
        }
        i := i + 1;
      }
      assert before[..i] == before;
    }
  }
}
