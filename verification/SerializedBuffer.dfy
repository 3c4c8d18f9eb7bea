/** common/serialized_buffer.c, with the data operations of common/serialize.c and
    common/deserialize.c: a growing byte buffer with one cursor for reading and writing. */
module SerializedBuffer {
  import opened Basics

  type Byte = x: int | 0 <= x < 256
  type Int32 = x: int | -0x8000_0000 <= x <= 0x7FFF_FFFF

  const DEFAULT_SIZE: int := 512
  const INT_MAX: int := 0x7FFF_FFFF
  const MAX_SIZE: int := 0x4000_0000  // 2^30, the largest power of two an int can hold
  const SENTINEL: seq<Byte> := [0xFF, 0xFF, 0xFF, 0xFF]

  // ---------------------------------------------------------------- growth

  /** The size after doubling until need bytes fit. */
  function GrowTo(size: int, need: int): (r: int)
    requires size > 0
    ensures r >= size && r >= need
    decreases need - size
  {
    if size >= need then size else GrowTo(2 * size, need)
  }

  /** size is the default size times a power of two. */
  predicate Doubled(size: int)
    decreases size
  {
    size == DEFAULT_SIZE || (size > DEFAULT_SIZE && size % 2 == 0 && Doubled(size / 2))
  }

  /** Growth only depends on the largest need so far, not on the order or the number of steps. */
  lemma {:induction false} GrowTwice(size: int, a: int, b: int)
    requires size > 0
    ensures GrowTo(GrowTo(size, a), b) == GrowTo(size, Max(a, b))
    decreases a - size
  {
    if size < a {
      GrowTwice(2 * size, a, b);
    }
  }

  lemma {:induction false} GrowDoubles(size: int, need: int)
    requires Doubled(size)
    ensures Doubled(GrowTo(size, need))
    ensures GrowTo(size, need) == size || GrowTo(size, need) < 2 * need
    decreases need - size
  {
    DoubledLarge(size);
    if size < need {
      GrowDoubles(2 * size, need);
    }
  }

  lemma DoubledLarge(size: int)
    requires Doubled(size)
    ensures size >= DEFAULT_SIZE
  {
  }

  /** There is nothing between a doubled size and its double. */
  lemma {:induction false} DoublingGap(small: int, large: int)
    requires Doubled(small) && Doubled(large) && small < large
    ensures 2 * small <= large
    decreases small
  {
    DoubledLarge(small);
    if small == DEFAULT_SIZE {
      DoubledLarge(large / 2);
    } else {
      DoublingGap(small / 2, large / 2);
    }
  }

  lemma TwoFold(size: int)
    requires Doubled(size)
    ensures Doubled(2 * size)
  {
    DoubledLarge(size);
    assert 2 * size / 2 == size;
  }

  lemma EightFold(size: int)
    requires Doubled(size)
    ensures Doubled(8 * size)
  {
    TwoFold(size);
    TwoFold(2 * size);
    TwoFold(4 * size);
  }

  lemma MaxSizeIsDoubled()
    ensures Doubled(MAX_SIZE)
  {
    EightFold(DEFAULT_SIZE);
    EightFold(0x1000);
    EightFold(0x8000);
    EightFold(0x4_0000);
    EightFold(0x20_0000);
    EightFold(0x100_0000);
    EightFold(0x800_0000);
  }

  /** The doubling loops stay within an int exactly when what has to fit is at most 2^30. */
  lemma GrowthFitsIff(need: int)
    ensures GrowTo(DEFAULT_SIZE, need) <= INT_MAX <==> need <= MAX_SIZE
    ensures need <= MAX_SIZE ==> GrowTo(DEFAULT_SIZE, need) <= MAX_SIZE
  {
    var size := GrowTo(DEFAULT_SIZE, need);
    GrowDoubles(DEFAULT_SIZE, need);
    MaxSizeIsDoubled();
    if size > MAX_SIZE {
      DoublingGap(MAX_SIZE, size);
    }
  }

  // ---------------------------------------------------------------- reading, on bytes

  /** What a read returns and where it leaves the cursor. */
  datatype Read<T> = Read(value: T, pos: int)

  /** deserialize_data into a destination that holds `dest`: too little left leaves it alone. */
  function ReadData(bytes: seq<Byte>, pos: nat, dest: seq<Byte>): (r: Read<seq<Byte>>)
    requires pos <= |bytes|
    ensures |r.value| == |dest| && pos <= r.pos <= |bytes|
  {
    if |dest| == 0 || |bytes| < |dest| + pos then Read(dest, pos)
    else Read(bytes[pos..pos + |dest|], pos + |dest|)
  }

  /** deserialize_null: reads four bytes and, unless they are the sentinel, moves back by four. */
  function ReadNull(bytes: seq<Byte>, pos: nat): (r: Read<bool>)
    requires pos <= |bytes| && DEFAULT_SIZE <= |bytes|
    ensures 0 <= r.pos <= |bytes|
  {
    var first := ReadData(bytes, pos, [0, 0, 0, 0]);
    if first.value == SENTINEL then Read(true, first.pos) else Read(false, first.pos - 4)
  }

  /** deserialize_null is a pure peek on data that is there and is not the sentinel; with fewer
      than four bytes left it moves the cursor back, but never before the start. */
  lemma PeekIsPure(bytes: seq<Byte>, pos: nat)
    requires pos <= |bytes| && DEFAULT_SIZE <= |bytes|
    ensures pos + 4 <= |bytes| && bytes[pos..pos + 4] != SENTINEL ==> ReadNull(bytes, pos) == Read(false, pos)
    ensures pos + 4 <= |bytes| && bytes[pos..pos + 4] == SENTINEL ==> ReadNull(bytes, pos) == Read(true, pos + 4)
    ensures pos + 4 > |bytes| ==> ReadNull(bytes, pos) == Read(false, pos - 4)
  {
  }

  // ---------------------------------------------------------------- integers

  /** The four bytes of an int in memory, little-endian two's complement. */
  function IntBytes(x: Int32): (r: seq<Byte>)
    ensures |r| == 4
  {
    var u := if x < 0 then x + 0x1_0000_0000 else x;
    var q1 := u / 256;
    var q2 := q1 / 256;
    [u % 256, q1 % 256, q2 % 256, q2 / 256]
  }

  function BytesInt(b: seq<Byte>): Int32
    requires |b| == 4
  {
    var u := b[0] as int + 256 * (b[1] as int + 256 * (b[2] as int + 256 * (b[3] as int)));
    if u <= INT_MAX then u else u - 0x1_0000_0000
  }

  lemma IntRoundTrip(x: Int32)
    ensures BytesInt(IntBytes(x)) == x
  {
  }

  /** Two's complement, lowest byte first; the sentinel is -1. */
  lemma IntBytesAddUp(x: Int32)
    ensures var b := IntBytes(x);
      (b[0] as int + 0x100 * b[1] as int + 0x1_0000 * b[2] as int + 0x100_0000 * b[3] as int) % 0x1_0000_0000
        == x % 0x1_0000_0000
    ensures IntBytes(x) == SENTINEL <==> x == -1
  {
  }

  function ReadInt(bytes: seq<Byte>, pos: nat): (r: Read<Int32>)
    requires pos <= |bytes|
    ensures pos <= r.pos <= |bytes|
  {
    if |bytes| < 4 + pos then Read(0, pos) else Read(BytesInt(bytes[pos..pos + 4]), pos + 4)
  }

  /** data stands in bytes at pos. */
  predicate Holds(bytes: seq<Byte>, pos: nat, data: seq<Byte>) {
    pos + |data| <= |bytes| && forall i | 0 <= i < |data| :: bytes[pos + i] == data[i]
  }

  lemma HoldsParts(bytes: seq<Byte>, pos: nat, a: seq<Byte>, b: seq<Byte>)
    requires Holds(bytes, pos, a + b)
    ensures Holds(bytes, pos, a) && Holds(bytes, pos + |a|, b)
  {
    forall i | 0 <= i < |a|
      ensures bytes[pos + i] == a[i]
    {
      assert a[i] == (a + b)[i];
    }
    forall i | 0 <= i < |b|
      ensures bytes[pos + |a| + i] == b[i]
    {
      assert b[i] == (a + b)[|a| + i];
    }
  }

  lemma ReadBack(bytes: seq<Byte>, pos: nat, data: seq<Byte>, dest: seq<Byte>)
    requires Holds(bytes, pos, data) && |dest| == |data|
    ensures pos <= |bytes| && ReadData(bytes, pos, dest) == Read(data, pos + |data|)
  {
    assert bytes[pos..pos + |data|] == data;
  }

  /** Where the bytes of an int stand it is read, and the cursor passes them. */
  lemma IntReadBack(bytes: seq<Byte>, pos: nat, x: Int32)
    requires Holds(bytes, pos, IntBytes(x))
    ensures pos <= |bytes| && ReadInt(bytes, pos) == Read(x, pos + 4)
  {
    assert bytes[pos..pos + 4] == IntBytes(x);
    IntRoundTrip(x);
  }

  // ---------------------------------------------------------------- the buffer

  class SerBuffer {
    var b: array<Byte>
    var size: int
    var next: int
    ghost var highWater: nat  // the largest value the cursor has had
    ghost var copied: nat     // the sizes of all blocks that realloc has replaced, added up

    /** What holds even in the middle of a growth loop. */
    ghost predicate Shape()
      reads this, b
    {
      && b.Length == size
      && 0 <= next <= size <= MAX_SIZE
      && copied == size - DEFAULT_SIZE
      && Doubled(size)
    }

    ghost predicate Valid()
      reads this, b
    {
      Shape() && next <= highWater && size == GrowTo(DEFAULT_SIZE, highWater)
    }

    constructor ()
      ensures Valid() && fresh(b)
      ensures size == DEFAULT_SIZE && next == 0 && highWater == 0
      ensures b[..] == seq(DEFAULT_SIZE, _ => 0)
    {
      b := new Byte[DEFAULT_SIZE](_ => 0);
      size := DEFAULT_SIZE;
      next := 0;
      highWater, copied := 0, 0;
    }

    /** serialized_buffer_resize with the one ratio that is used; realloc keeps the old bytes and
        leaves the new ones arbitrary. */
    method Resize()
      requires Shape() && size < MAX_SIZE
      modifies this
      ensures Shape() && fresh(b)
      ensures size == 2 * old(size) && next == old(next) && highWater == old(highWater)
      ensures b[..old(size)] == old(b[..])
    {
      MaxSizeIsDoubled();
      DoublingGap(size, MAX_SIZE);
      assert 2 * size <= INT_MAX;
      var block := new Byte[2 * size];
      forall i | 0 <= i < size {
        block[i] := b[i];
      }
      copied := copied + size;
      size := size * 2;
      b := block;
    }

    /** The loop shared by serialize_data and serialized_buffer_skip. */
    method Reserve(n: int)
      requires Valid() && next + n <= MAX_SIZE
      modifies this
      ensures Shape() && (b == old(b) || fresh(b))
      ensures size == GrowTo(old(size), next + n)
      ensures next == old(next) && highWater == old(highWater)
      ensures b[..old(size)] == old(b[..])
      ensures size == old(size) ==> b == old(b)
    {
      var available := size - next;
      while available < n
        invariant Shape() && (b == old(b) || fresh(b))
        invariant available == size - next
        invariant next == old(next) && highWater == old(highWater)
        invariant GrowTo(size, next + n) == GrowTo(old(size), next + n)
        invariant old(size) <= size && b[..old(size)] == old(b[..])
        invariant size == old(size) ==> b == old(b)
        decreases n - available
      {
        DoubledLarge(size);
        Resize();
        available := size - next;
      }
    }

    /** The cursor moves to where it has been moved to; the size is again what the largest
        cursor so far demands. */
    ghost method Advance()
      requires Shape() && size == GrowTo(GrowTo(DEFAULT_SIZE, highWater), next)
      modifies this`highWater
      ensures Valid() && highWater == Max(old(highWater), next)
    {
      GrowTwice(DEFAULT_SIZE, highWater, next);
      highWater := Max(highWater, next);
    }

    method SerializeData(data: seq<Byte>)
      requires Valid() && next + |data| <= MAX_SIZE
      modifies this, b
      ensures Valid() && (b == old(b) || fresh(b))
      ensures next == old(next) + |data| && highWater == Max(old(highWater), next)
      ensures size == GrowTo(old(size), next)
      ensures b[..next] == old(b[..next]) + data
      ensures forall i | next <= i < old(size) :: b[i] == old(b[i])
    {
      Reserve(|data|);
      forall i | 0 <= i < |data| {
        b[next + i] := data[i];
      }
      next := next + |data|;
      Advance();
      assert b[..old(next)] == old(b[..next]);
    }

    method SerializeNull()
      requires Valid() && next + 4 <= MAX_SIZE
      modifies this, b
      ensures Valid() && (b == old(b) || fresh(b))
      ensures next == old(next) + 4 && highWater == Max(old(highWater), next)
      ensures b[..next] == old(b[..next]) + SENTINEL
    {
      SerializeData(SENTINEL);
    }

    method SerializeInt(x: Int32)
      requires Valid() && next + 4 <= MAX_SIZE
      modifies this, b
      ensures Valid() && (b == old(b) || fresh(b))
      ensures next == old(next) + 4 && highWater == Max(old(highWater), next)
      ensures b[..next] == old(b[..next]) + IntBytes(x)
    {
      SerializeData(IntBytes(x));
    }

    /** A negative n moves the cursor back; the caller sees to it that it stays in the buffer. */
    method Skip(n: int)
      requires Valid() && 0 <= next + n <= MAX_SIZE
      modifies this
      ensures Valid() && (b == old(b) || fresh(b))
      ensures next == old(next) + n && highWater == Max(old(highWater), next)
      ensures size == GrowTo(old(size), next) && b[..old(size)] == old(b[..])
      ensures next <= old(size) ==> b == old(b)
    {
      var available := size - next;
      if available >= n {
        next := next + n;
      } else {
        Reserve(n);
        next := next + n;
      }
      Advance();
    }

    method Reset()
      requires Valid()
      modifies this
      ensures Valid() && next == 0
      ensures b == old(b) && size == old(size) && highWater == old(highWater)
    {
      next := 0;
    }

    /** dest is what the destination holds before; the result is what it holds after.  The size
        test adds the cursor and the length in an int. */
    method DeserializeData(dest: seq<Byte>) returns (r: seq<Byte>)
      requires Valid() && next + |dest| <= INT_MAX
      modifies this
      ensures Valid() && b == old(b) && size == old(size)
      ensures Read(r, next) == ReadData(b[..], old(next), dest)
      ensures if old(next) + |dest| <= size then
                r == b[old(next)..next] && next == old(next) + |dest|
              else r == dest && next == old(next)
      ensures highWater == Max(old(highWater), next)
    {
      if |dest| == 0 {
        return dest;
      }
      if size < |dest| + next {
        return dest;
      }
      r := b[next..next + |dest|];
      next := next + |dest|;
      Advance();
    }

    method DeserializeNull() returns (isNull: bool)
      requires Valid()
      modifies this
      ensures Valid() && b == old(b) && size == old(size)
      ensures Read(isNull, next) == ReadNull(b[..], old(next))
      ensures if old(next) + 4 <= size then
                && (isNull <==> b[old(next)..old(next) + 4] == SENTINEL)
                && next == (if isNull then old(next) + 4 else old(next))
              else !isNull && next == old(next) - 4
      ensures highWater == Max(old(highWater), ReadData(b[..], old(next), [0, 0, 0, 0]).pos)
    {
      DoubledLarge(size);
      var sentinel := DeserializeData([0, 0, 0, 0]);
      if sentinel == SENTINEL {
        return true;
      }
      Skip(-4);
      return false;
    }

    method DeserializeInt() returns (x: Int32)
      requires Valid()
      modifies this
      ensures Valid() && b == old(b) && size == old(size)
      ensures Read(x, next) == ReadInt(b[..], old(next))
      ensures if old(next) + 4 <= size then x == BytesInt(b[old(next)..next]) && next == old(next) + 4
              else x == 0 && next == old(next)
      ensures highWater == Max(old(highWater), next)
    {
      if size < 4 + next {
        return 0;
      }
      x := BytesInt(b[next..next + 4]);
      next := next + 4;
      Advance();
    }
  }

  // ---------------------------------------------------------------- sequences of writes

  function Joined(chunks: seq<seq<Byte>>): seq<Byte> {
    if chunks == [] then [] else Joined(chunks[..|chunks| - 1]) + chunks[|chunks| - 1]
  }

  lemma {:induction false} JoinedPrefix(chunks: seq<seq<Byte>>, i: nat)
    requires i <= |chunks|
    ensures |Joined(chunks[..i])| <= |Joined(chunks)|
    decreases |chunks| - i
  {
    if i == |chunks| {
      assert chunks[..i] == chunks;
    } else {
      assert chunks[..i + 1][..i] == chunks[..i];
      JoinedPrefix(chunks, i + 1);
    }
  }

  /** Any sequence of serialize_data calls appends the concatenation of their data, and the size
      is the least doubling that holds it, however often the buffer grew on the way. */
  method WriteAll(buf: SerBuffer, chunks: seq<seq<Byte>>)
    requires buf.Valid() && buf.next + |Joined(chunks)| <= MAX_SIZE
    modifies buf, buf.b
    ensures buf.Valid() && (buf.b == old(buf.b) || fresh(buf.b))
    ensures buf.next == old(buf.next) + |Joined(chunks)|
    ensures buf.b[..buf.next] == old(buf.b[..buf.next]) + Joined(chunks)
    ensures buf.size == GrowTo(old(buf.size), buf.next)
    ensures buf.highWater == Max(old(buf.highWater), buf.next)
  {
    for i := 0 to |chunks|
      invariant buf.Valid() && (buf.b == old(buf.b) || fresh(buf.b))
      invariant buf.b[..buf.next] == old(buf.b[..buf.next]) + Joined(chunks[..i])
      invariant buf.size == GrowTo(old(buf.size), buf.next)
      invariant buf.highWater == Max(old(buf.highWater), buf.next)
    {
      JoinedPrefix(chunks, i + 1);
      assert chunks[..i + 1][..i] == chunks[..i];
      ghost var size := buf.next + |chunks[i]|;
      GrowTwice(old(buf.size), buf.next, size);
      buf.SerializeData(chunks[i]);
    }
    assert chunks[..|chunks|] == chunks;
  }

  lemma {:induction false} JoinedOne(chunk: seq<Byte>)
    ensures Joined([chunk]) == chunk
  {
    assert [chunk][..0] == [];
  }

  /** Joined is concatenation: what it makes of two lists is what it makes of both, in order. */
  lemma {:induction false} JoinedJoins(a: seq<seq<Byte>>, b: seq<seq<Byte>>)
    ensures Joined(a + b) == Joined(a) + Joined(b)
    decreases b
  {
    if b == [] {
      assert a + b == a;
    } else {
      var last := |b| - 1;
      assert (a + b)[..|a + b| - 1] == a + b[..last];
      JoinedJoins(a, b[..last]);
    }
  }

  // ---------------------------------------------------------------- lists of ints

  function IntsBytes(xs: seq<Int32>): (r: seq<Byte>)
    ensures |r| == 4 * |xs|
  {
    if xs == [] then [] else IntsBytes(xs[..|xs| - 1]) + IntBytes(xs[|xs| - 1])
  }

  lemma {:induction false} IntAt(bytes: seq<Byte>, pos: nat, xs: seq<Int32>, i: nat)
    requires Holds(bytes, pos, IntsBytes(xs)) && i < |xs|
    ensures Holds(bytes, pos + 4 * i, IntBytes(xs[i]))
    decreases |xs|
  {
    var last := |xs| - 1;
    HoldsParts(bytes, pos, IntsBytes(xs[..last]), IntBytes(xs[last]));
    if i < last {
      IntAt(bytes, pos, xs[..last], i);
    }
  }

  method SerializeInts(buf: SerBuffer, xs: seq<Int32>)
    requires buf.Valid() && buf.next + 4 * |xs| <= MAX_SIZE
    modifies buf, buf.b
    ensures buf.Valid() && buf.next == old(buf.next) + 4 * |xs|
    ensures buf.b[..buf.next] == old(buf.b[..buf.next]) + IntsBytes(xs)
  {
    for i := 0 to |xs|
      invariant buf.Valid() && (buf.b == old(buf.b) || fresh(buf.b))
      invariant buf.next == old(buf.next) + 4 * i
      invariant buf.b[..buf.next] == old(buf.b[..buf.next]) + IntsBytes(xs[..i])
    {
      assert xs[..i + 1][..i] == xs[..i];
      buf.SerializeInt(xs[i]);
    }
    assert xs[..|xs|] == xs;
  }

  method DeserializeInts(buf: SerBuffer, count: nat, ghost written: seq<Int32>) returns (xs: seq<Int32>)
    requires buf.Valid() && count == |written| && Holds(buf.b[..], buf.next, IntsBytes(written))
    modifies buf
    ensures buf.Valid() && buf.b == old(buf.b) && buf.next == old(buf.next) + 4 * count
    ensures xs == written
  {
    xs := [];
    for i := 0 to count
      invariant buf.Valid() && buf.b == old(buf.b) && buf.next == old(buf.next) + 4 * i
      invariant xs == written[..i]
    {
      IntAt(buf.b[..], old(buf.next), written, i);
      IntReadBack(buf.b[..], buf.next, written[i]);
      var x := buf.DeserializeInt();
      xs := xs + [x];
    }
  }

  /** Any list of ints that fits, written to a fresh buffer, comes back after a reset. */
  method ExchangeInts(xs: seq<Int32>) returns (back: seq<Int32>)
    requires 4 * |xs| <= MAX_SIZE
    ensures back == xs
  {
    var buf := new SerBuffer();
    SerializeInts(buf, xs);
    assert buf.b[..buf.next] == IntsBytes(xs);
    buf.Reset();
    back := DeserializeInts(buf, |xs|, xs);
  }

  // ---------------------------------------------------------------- cost

  /** What the class invariant says about cost: the size is the least doubling that holds the
      high-water mark, so it is the default or less than twice the mark; and all the bytes ever
      moved by realloc add up to the final size less the default size. */
  lemma AmortisedGrowth(buf: SerBuffer)
    requires buf.Valid()
    ensures 0 <= buf.next <= buf.size && buf.highWater <= buf.size
    ensures Doubled(buf.size) && (buf.size == DEFAULT_SIZE || buf.size < 2 * buf.highWater)
    ensures buf.copied == buf.size - DEFAULT_SIZE && buf.copied <= 2 * buf.highWater
    ensures forall small | Doubled(small) && small < buf.size :: small < buf.highWater
  {
    GrowDoubles(DEFAULT_SIZE, buf.highWater);
    forall small | Doubled(small) && small < buf.size
      ensures small < buf.highWater
    {
      DoubledLarge(small);
      DoublingGap(small, buf.size);
    }
  }
}
