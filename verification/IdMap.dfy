/** The allocation map of upstream ids: 256 bits in 32 bytes. */
module IdMap {
  import opened Base

  const BYTES: nat := 32

  /** `1 << (id & 7)`. */
  function BitMask(id: nat): bv8 { 1 << (id % 8) }

  predicate Marked(m: seq<bv8>, id: nat)
    requires |m| == BYTES && id < 256
  {
    m[id / 8] & BitMask(id) != 0
  }

  /** The least id in 1..255 that is not used, or 0 when there is none. */
  function LeastFreeFrom(used: set<nat>, i: nat): (id: nat)
    requires 1 <= i <= 256
    ensures id == 0 <==> forall k :: i <= k < 256 ==> k in used
    ensures id != 0 ==> i <= id < 256 && id !in used && forall k :: i <= k < id ==> k in used
    decreases 256 - i
  {
    if i == 256 then 0 else if i !in used then i else LeastFreeFrom(used, i + 1)
  }

  function LeastFree(used: set<nat>): (id: nat)
    ensures id == 0 <==> forall k :: 1 <= k < 256 ==> k in used
    ensures id != 0 ==> 1 <= id < 256 && id !in used && forall k :: 1 <= k < id ==> k in used
  {
    LeastFreeFrom(used, 1)
  }

  lemma BitsIndependent(x: bv8, a: nat, b: nat)
    requires a < 8 && b < 8
    ensures ((x | (1 << a)) & (1 << b) != 0) <==> a == b || x & (1 << b) != 0
    ensures ((x & !(1 << a)) & (1 << b) != 0) <==> a != b && x & (1 << b) != 0
  {
  }

  /** The map with one bit set or cleared. */
  function Changed(m: seq<bv8>, id: nat, used: bool): (r: seq<bv8>)
    requires |m| == BYTES && id < 256
    ensures |r| == BYTES
  {
    m[id / 8 := if used then m[id / 8] | BitMask(id) else m[id / 8] & !BitMask(id)]
  }

  lemma MarkedAfter(m: seq<bv8>, id: nat, used: bool, k: nat)
    requires |m| == BYTES && id < 256 && k < 256
    ensures Marked(Changed(m, id, used), k) <==> if k == id then used else Marked(m, k)
  {
    if k / 8 == id / 8 {
      assert k % 8 == id % 8 <==> k == id;
      BitsIndependent(m[id / 8], id % 8, k % 8);
    }
  }

  lemma UsedAfter(before: seq<bv8>, after: seq<bv8>, id: nat, used: bool)
    requires |before| == BYTES && id < 256 && after == Changed(before, id, used)
    ensures forall k: nat | k < 256 :: Marked(after, k) <==> if k == id then used else Marked(before, k)
  {
    hide Marked, Changed;
    forall k: nat | k < 256
      ensures Marked(after, k) <==> if k == id then used else Marked(before, k)
    {
      MarkedAfter(before, id, used, k);
    }
  }

  class Allocator {
    const bits: array<bv8>

    ghost predicate Valid()
      reads this
    {
      bits.Length == BYTES
    }

    /** The ids whose bit is set. */
    ghost function Used(): (u: set<nat>)
      requires Valid()
      reads this, bits
      ensures forall id :: id in u <==> id < 256 && Marked(bits[..], id)
    {
      set id: nat | 0 <= id < 256 && Marked(bits[..], id)
    }

    constructor ()
      ensures Valid() && fresh(bits) && Used() == {}
    {
      bits := new bv8[BYTES](_ => 0);
    }

    /** Setting or clearing changes the membership of one id and of no other. */
    method SetUsed(id: nat, used: bool)
      requires Valid() && id < 256
      modifies bits
      ensures Used() == if used then old(Used()) + {id} else old(Used()) - {id}
    {
      hide Marked, BitMask;
      ghost var before := bits[..];
      if used {
        bits[id / 8] := bits[id / 8] | BitMask(id);
      } else {
        bits[id / 8] := bits[id / 8] & !BitMask(id);
      }
      UsedAfter(before, bits[..], id, used);
    }

    /** The least free id in 1..255, or 0 iff all 255 are taken. */
    method NewId() returns (id: nat)
      requires Valid()
      ensures id == LeastFree(Used())
      ensures id == 0 <==> forall k :: 1 <= k < 256 ==> k in Used()
      ensures id != 0 ==> 1 <= id < 256 && id !in Used() && forall k :: 1 <= k < id ==> k in Used()
    {
      id := 0;
      var i := 1;
      while i < 256
        invariant 1 <= i <= 256 && id == 0
        invariant LeastFree(Used()) == LeastFreeFrom(Used(), i)
      {
        if bits[i / 8] & BitMask(i) == 0 {
          id := i;
          break;
        }
        i := i + 1;
      }
    }
  }
}
