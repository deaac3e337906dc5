/**
 Byte buffers as the daemon keeps them: an allocated array, a size, and a capacity that grows
 in whole pages. Output buffers are appended to and drained at the front, input buffers are
 received into, at most up to the end of the packet under assembly.
 */
module Buffers {
  import opened Base
  import opened Wire
  import opened Connections

  /** The new capacity as the daemon computes it, in 32-bit unsigned arithmetic. */
  function Growth(capacity: nat, len: nat): nat { (capacity + len + 4096) % WORD / 4096 * 4096 }

  /** The grown buffer holds the old capacity and the new bytes if and only if the sum does not wrap. */
  lemma GrowthExact(capacity: nat, len: nat)
    requires capacity < WORD && len < WORD
    ensures Growth(capacity, len) > capacity + len <==> capacity + len + 4096 < WORD
  {
    var sum := capacity + len + 4096;
    if sum < WORD {
      assert sum % WORD == sum;
    } else {
      assert sum % WORD <= sum - WORD;
    }
  }

  /** Room for n more bytes can be made without wrapping around. */
  predicate CanTake(capacity: nat, size: nat, n: nat)
    requires size <= capacity
  {
    n <= capacity - size || capacity + n + 4096 < WORD
  }

  function DataOf(r: Receipt): seq<byte> { if r.Gone? then [] else r.data }

  lemma Drained(left: seq<byte>, contents: seq<byte>, n: nat)
    requires n <= |contents|
    ensures left + contents == (left + contents[..n]) + contents[n..]
  {
  }

  class Buffer {
    var data: array<byte>
    var size: nat
    /** Every byte that ever went in, and every byte that ever came out. */
    ghost var entered: seq<byte>
    ghost var left: seq<byte>

    /** First in, first out. */
    ghost predicate Valid()
      reads this, data
    {
      size <= data.Length && entered == left + data[..size]
    }

    ghost function Contents(): seq<byte>
      requires Valid()
      reads this, data
    {
      data[..size]
    }

    ghost function Capacity(): nat
      reads this
    {
      data.Length
    }

    constructor (capacity: nat)
      ensures Valid() && fresh(data) && Contents() == [] && Capacity() == capacity && entered == left == []
    {
      data := new byte[capacity];
      size := 0;
      entered, left := [], [];
    }

    /** `realloc` to the next page boundary when fewer than n bytes are free. */
    method Reserve(n: nat)
      requires Valid() && CanTake(data.Length, size, n)
      modifies this`data
      ensures Valid() && Contents() == old(Contents()) && Capacity() == Grown(old(Capacity()), size, n)
      ensures data == old(data) || fresh(data)
    {
      var available := data.Length - size;
      if available < n {
        GrowthExact(data.Length, n);
        var capacity, was := Growth(data.Length, n), data;
        data := new byte[capacity](k reads was => if 0 <= k < was.Length then was[k] else 0);
        assert data[..size] == was[..size];
      }
    }

    /** `memcpy` behind the last byte. */
    method Copy(b: seq<byte>)
      requires Valid() && |b| <= data.Length - size
      modifies this`size, this`entered, data
      ensures Valid() && Contents() == old(Contents()) + b
      ensures entered == old(entered) + b && left == old(left)
    {
      ghost var before := data[..size];
      for k := 0 to |b|
        invariant size == old(size) && entered == old(entered)
        invariant data[..size + k] == before + b[..k]
      {
        data[size + k] := b[k];
        assert data[..size + k + 1] == data[..size + k] + [b[k]];
      }
      size := size + |b|;
      entered := entered + b;
      assert left + (before + b) == (left + before) + b;
    }

    /** `memmove` of what is left after n bytes were taken from the front. */
    method Consume(n: nat)
      requires Valid() && n <= size
      modifies this`size, this`left, data
      ensures Valid() && Contents() == old(Contents())[n..]
      ensures left == old(left) + old(Contents())[..n] && entered == old(entered)
    {
      ghost var before := data[..size];
      var rest := size - n;
      for k := 0 to rest
        invariant size == old(size) && left == old(left)
        invariant forall m :: 0 <= m < k ==> data[m] == before[n + m]
        invariant forall m :: k <= m < size ==> data[m] == before[m]
      {
        data[k] := data[n + k];
      }
      assert data[..rest] == before[n..];
      Drained(left, before, n);
      left := left + before[..n];
      size := rest;
    }

    /** The length the buffered header announces. */
    method AnnouncedLength() returns (n: nat)
      requires Valid() && HEADER <= size
      ensures n == DecodeWord(Contents())
    {
      n := Word(data[0], data[1], data[2], data[3]);
    }

    /**
     The receive routine of both halves: at most one recv, of the rest of the header or of the rest
     of the packet; what it reads is appended and the outcome is that of `Receive`.
     */
    method ReceivePacket(io: Io) returns (r: Receipt)
      requires Valid() && HEADER <= data.Length
      modifies this`size, this`entered, data
      ensures r == Receive(old(Contents()), Capacity(), io)
      ensures Valid() && Contents() == old(Contents()) + DataOf(r)
    {
      hide DecodeWord, Unframe, Taken;
      ghost var before := Contents();
      var got: seq<byte> := [];
      assert before + [] == before;
      if size < HEADER {
        got := Taken(io, HEADER - size);
        if got == [] {
          return Gone;
        }
        Copy(got);
        if size < HEADER {
          return More(got);
        }
      }
      var length := AnnouncedLength();
      if length > data.Length || length < HEADER {
        return BadLength(got);
      }
      if size < length {
        if got != [] {
          return More(got);
        }
        got := Taken(io, length - size);
        if got == [] {
          return Gone;
        }
        Copy(got);
        if size < length {
          return More(got);
        }
      }
      assert data[..length] == Contents()[..length];
      r := Ready(got, Unframe(data[..length]));
    }
  }
}
