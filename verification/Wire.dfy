/**
 The framed protocol: a packet is a 16-byte header (length, version, message, tag, each a
 little-endian 32-bit word) followed by its payload; the length counts the header.

 `Parse` is the reference reading of a byte stream. `Receive` is one call of the receive
 routine both halves of the multiplexer use: at most one recv, sized so that it never
 reaches past the packet being assembled.
 */
module Wire {
  import opened Base

  const HEADER: nat := 16

  datatype Packet = Packet(version: nat, message: nat, tag: nat, payload: seq<byte>)

  predicate WellSized(p: Packet) {
    p.version < WORD && p.message < WORD && p.tag < WORD && HEADER + |p.payload| < WORD
  }

  function EncodeWord(n: nat): (b: seq<byte>)
    ensures |b| == 4
  {
    [n % 256, n / 0x100 % 256, n / 0x1_0000 % 256, n / 0x100_0000 % 256]
  }

  function Word(b0: int, b1: int, b2: int, b3: int): int {
    b0 + 0x100 * b1 + 0x1_0000 * b2 + 0x100_0000 * b3
  }

  function DecodeWord(b: seq<byte>): (n: nat)
    requires |b| >= 4
    ensures n < WORD
  {
    Word(b[0], b[1], b[2], b[3])
  }

  /** The digits of a number in base 256. */
  lemma LowByte(lo: int, hi: int)
    requires 0 <= lo < 256
    ensures (lo + 256 * hi) % 256 == lo && (lo + 256 * hi) / 256 == hi
  {
  }

  lemma TwoBytes(n: nat)
    ensures n / 0x1_0000 == n / 256 / 256 && n / 0x100_0000 == n / 256 / 256 / 256
  {
    LowByte(n / 256 % 256, n / 256 / 256);
    LowByte(n / 256 / 256 % 256, n / 256 / 256 / 256);
  }

  lemma DecodeEncodeWord(n: nat, rest: seq<byte>)
    requires n < WORD
    ensures DecodeWord(EncodeWord(n) + rest) == n
  {
    TwoBytes(n);
    var b := EncodeWord(n) + rest;
    assert b[0] == n % 256 && b[1] == n / 256 % 256 && b[2] == n / 256 / 256 % 256 && b[3] == n / 256 / 256 / 256 % 256;
    assert n / 256 / 256 / 256 < 256;
  }

  lemma WordBytes(b0: int, b1: int, b2: int, b3: int)
    requires 0 <= b0 < 256 && 0 <= b1 < 256 && 0 <= b2 < 256 && 0 <= b3 < 256
    ensures var n := Word(b0, b1, b2, b3);
            && 0 <= n && n % 256 == b0 && n / 256 % 256 == b1
            && n / 256 / 256 % 256 == b2 && n / 256 / 256 / 256 == b3
  {
    LowByte(b0, b1 + 256 * (b2 + 256 * b3));
    LowByte(b1, b2 + 256 * b3);
    LowByte(b2, b3);
  }

  lemma EncodeDecodeWord(b: seq<byte>)
    requires |b| >= 4
    ensures EncodeWord(DecodeWord(b)) == b[..4]
  {
    var n := DecodeWord(b);
    WordBytes(b[0], b[1], b[2], b[3]);
    TwoBytes(n);
    hide Word;
    assert EncodeWord(n) == [b[0], b[1], b[2], b[3]];
  }

  function Frame(p: Packet): (b: seq<byte>)
    ensures |b| == HEADER + |p.payload|
  {
    EncodeWord(HEADER + |p.payload|) + EncodeWord(p.version) + EncodeWord(p.message) + EncodeWord(p.tag) + p.payload
  }

  /** The packet held by a buffer that contains exactly one whole packet. */
  function Unframe(b: seq<byte>): (p: Packet)
    requires |b| >= HEADER
    ensures |p.payload| == |b| - HEADER
    ensures p.version < WORD && p.message < WORD && p.tag < WORD
  {
    Packet(DecodeWord(b[4..]), DecodeWord(b[8..]), DecodeWord(b[12..]), b[HEADER..])
  }

  lemma FrameUnframe(b: seq<byte>)
    requires |b| >= HEADER && DecodeWord(b) == |b|
    ensures Frame(Unframe(b)) == b
  {
    EncodeDecodeWord(b);
    EncodeDecodeWord(b[4..]);
    EncodeDecodeWord(b[8..]);
    EncodeDecodeWord(b[12..]);
    assert b == b[..4] + b[4..][..4] + b[8..][..4] + b[12..][..4] + b[HEADER..];
  }

  lemma UnframeFrame(p: Packet, rest: seq<byte>)
    requires WellSized(p)
    ensures DecodeWord(Frame(p) + rest) == HEADER + |p.payload|
    ensures Unframe(Frame(p)) == p
  {
    hide EncodeWord, DecodeWord;
    var f := Frame(p);
    var t := EncodeWord(p.tag) + p.payload;
    var m := EncodeWord(p.message) + t;
    var v := EncodeWord(p.version) + m;
    assert f == EncodeWord(HEADER + |p.payload|) + v;
    assert f + rest == EncodeWord(HEADER + |p.payload|) + (v + rest);
    DecodeEncodeWord(HEADER + |p.payload|, v + rest);
    assert f[4..] == v && f[8..] == m && f[12..] == t && f[HEADER..] == p.payload;
    DecodeEncodeWord(p.version, m);
    DecodeEncodeWord(p.message, t);
    DecodeEncodeWord(p.tag, p.payload);
  }

  /** The bytes of a sequence of packets. */
  function Frames(ps: seq<Packet>): seq<byte> {
    if ps == [] then [] else Frames(ps[..|ps| - 1]) + Frame(ps[|ps| - 1])
  }

  lemma FramesAppend(ps: seq<Packet>, p: Packet)
    ensures Frames(ps + [p]) == Frames(ps) + Frame(p)
  {
    assert (ps + [p])[..|ps|] == ps;
  }

  /** What a reader that accepts packets of up to `capacity` bytes makes of a stream. */
  datatype Parsed = Parsed(packets: seq<Packet>, rest: seq<byte>, bad: bool)

  function Parse(b: seq<byte>, capacity: nat): Parsed
    decreases |b|
  {
    if |b| < HEADER then Parsed([], b, false)
    else
      var n := DecodeWord(b);
      if n > capacity || n < HEADER then Parsed([], b, true)
      else if |b| < n then Parsed([], b, false)
      else
        var tail := Parse(b[n..], capacity);
        tail.(packets := [Unframe(b[..n])] + tail.packets)
  }

  /** A buffer that holds the beginning of a packet, but no whole packet and no bad length. */
  predicate Partial(ib: seq<byte>, capacity: nat) {
    |ib| >= HEADER ==> HEADER <= DecodeWord(ib) <= capacity && |ib| < DecodeWord(ib)
  }

  /** A buffer that begins with an impossible length. */
  predicate BadHead(ib: seq<byte>, capacity: nat) {
    |ib| >= HEADER && !(HEADER <= DecodeWord(ib) <= capacity)
  }

  lemma ParseFrame(p: Packet, rest: seq<byte>, capacity: nat)
    requires WellSized(p) && HEADER + |p.payload| <= capacity
    ensures var t := Parse(rest, capacity);
            Parse(Frame(p) + rest, capacity) == t.(packets := [p] + t.packets)
  {
    UnframeFrame(p, rest);
    var b, n := Frame(p) + rest, HEADER + |p.payload|;
    assert b[..n] == Frame(p) && b[n..] == rest;
  }

  /** A buffer that holds exactly one packet. */
  predicate Whole(ib: seq<byte>) { |ib| >= HEADER && DecodeWord(ib) == |ib| }

  lemma {:induction false} ParseFrames(ps: seq<Packet>, rest: seq<byte>, capacity: nat)
    requires forall p | p in ps :: WellSized(p) && HEADER + |p.payload| <= capacity
    ensures var t := Parse(rest, capacity);
            Parse(Frames(ps) + rest, capacity) == t.(packets := ps + t.packets)
  {
    hide Parse, Frame;
    var t := Parse(rest, capacity);
    if ps == [] {
      assert Frames(ps) + rest == rest && ps + t.packets == t.packets;
    } else {
      var p, front := ps[|ps| - 1], ps[..|ps| - 1];
      assert Frames(ps) + rest == Frames(front) + (Frame(p) + rest);
      ParseFrame(p, rest, capacity);
      ParseFrames(front, Frame(p) + rest, capacity);
      assert ps + t.packets == front + ([p] + t.packets);
    }
  }

  /** What the kernel answers to the one socket call a handler makes. */
  datatype Io = Read(data: seq<byte>) | Wrote(count: nat) | Failed

  /** The bytes a recv of at most `want` bytes delivers; [] stands for end-of-file and for errors. */
  function Taken(io: Io, want: nat): (d: seq<byte>)
    ensures |d| <= want
  {
    if io.Read? then (if |io.data| <= want then io.data else io.data[..want]) else []
  }

  /** The number of bytes a send of `size` bytes accepts; 0 stands for a failed send. */
  function Accepted(io: Io, size: nat): (n: nat)
    ensures n <= size
  {
    if io.Wrote? then (if io.count <= size then io.count else size) else 0
  }

  /** Outcome of one call of the receive routine; `data` is what the call read from the socket. */
  datatype Receipt =
    | Gone                                    // recv returned 0 or an error
    | BadLength(data: seq<byte>)              // the header announces an impossible length
    | More(data: seq<byte>)                   // the packet is still incomplete
    | Ready(data: seq<byte>, packet: Packet)  // a whole packet is in the buffer

  function Receive(ib: seq<byte>, capacity: nat, io: Io): Receipt {
    if |ib| < HEADER then
      var data := Taken(io, HEADER - |ib|);
      if data == [] then Gone
      else if |ib + data| < HEADER then More(data)
      else
        var n := DecodeWord(ib + data);
        if n > capacity || n < HEADER then BadLength(data)
        else if |ib + data| < n then More(data) // maybe recv would block: wait for the next event
        else Ready(data, Unframe(ib + data))
    else
      var n := DecodeWord(ib);
      if n > capacity || n < HEADER then BadLength([])
      else if |ib| < n then
        var data := Taken(io, n - |ib|);
        if data == [] then Gone
        else if |ib + data| < n then More(data)
        else Ready(data, Unframe(ib + data))
      else Ready([], Unframe(ib[..n]))
  }

  /** One call never reads past the packet it is assembling, nor past the buffer. */
  lemma ReceiveStaysInPacket(ib: seq<byte>, capacity: nat, io: Io)
    requires Partial(ib, capacity) && HEADER <= capacity
    ensures var r := Receive(ib, capacity, io);
            && (r.More? ==> Partial(ib + r.data, capacity) && |ib + r.data| <= capacity)
            && (r.BadLength? ==> |ib + r.data| == HEADER && Parse(ib + r.data, capacity) == Parsed([], ib + r.data, true))
            && (r.Ready? ==> |ib + r.data| <= capacity && ib + r.data == Frame(r.packet) && WellSized(r.packet))
  {
    var r := Receive(ib, capacity, io);
    if r.Ready? {
      var b := ib + r.data;
      if |ib| >= HEADER {
        assert b[..4] == ib[..4];
      }
      assert DecodeWord(b) == |b|;
      FrameUnframe(b);
    }
    if r.More? && |ib| >= HEADER {
      assert (ib + r.data)[..4] == ib[..4];
    }
  }

  /** A run of calls in which every packet is consumed as soon as it is ready. */
  datatype Session = Session(packets: seq<Packet>, ib: seq<byte>, stream: seq<byte>, ended: bool)

  function Feed(ib: seq<byte>, capacity: nat, ios: seq<Io>): Session
    decreases |ios|
  {
    if ios == [] then Session([], ib, [], false)
    else match Receive(ib, capacity, ios[0])
      case Gone => Session([], ib, [], true)
      case BadLength(data) => Session([], ib + data, data, true)
      case More(data) =>
        var t := Feed(ib + data, capacity, ios[1..]);
        t.(stream := data + t.stream)
      case Ready(data, p) =>
        var t := Feed([], capacity, ios[1..]);
        t.(packets := [p] + t.packets, stream := data + t.stream)
  }

  /**
   Packet reassembly: however the stream is cut into recv results, the packets dispatched
   are exactly the length-prefixed parse of the bytes read, up to the first bad length.
   */
  lemma {:induction false} Reassembly(ib: seq<byte>, capacity: nat, ios: seq<Io>)
    requires Partial(ib, capacity) && HEADER <= capacity
    ensures var t := Feed(ib, capacity, ios);
            var whole := Parse(ib + t.stream, capacity);
            && t.packets == whole.packets && t.ib == whole.rest
            && (whole.bad ==> t.ended) && |t.ib| <= capacity
    decreases |ios|
  {
    hide Frame, Unframe, DecodeWord, Receive;
    if ios == [] {
      assert ib + [] == ib;
    } else {
      ReceiveStaysInPacket(ib, capacity, ios[0]);
      match Receive(ib, capacity, ios[0])
      case Gone => assert ib + [] == ib;
      case BadLength(data) =>
      case More(data) =>
        var t := Feed(ib + data, capacity, ios[1..]);
        Reassembly(ib + data, capacity, ios[1..]);
        assert ib + (data + t.stream) == (ib + data) + t.stream;
      case Ready(data, p) =>
        var t := Feed([], capacity, ios[1..]);
        Reassembly([], capacity, ios[1..]);
        assert [] + t.stream == t.stream;
        assert ib + (data + t.stream) == Frame(p) + t.stream;
        ParseFrame(p, t.stream, capacity);
    }
  }
}
