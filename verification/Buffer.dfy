/** The byte buffer under every connection: two indices into one array, compacted in place or
    regrown to an exact fit, refining a plain byte sequence. */
module ByteBuffer {

  type Byte = c: char | c as int < 256

  const CHEAP_PREPEND: nat := 8
  const INITIAL_SIZE: nat := 1024
  const EXTRA_SIZE: nat := 65536

  /** What readv reports. The kernel never fills more than the regions it was given. */
  datatype ReadResult = Got(bytes: seq<Byte>) | Failed(errno: int)

  // ---- The layout alone: what each operation does to the two indices and the capacity ------

  datatype Shape = Shape(size: nat, reader: nat, writer: nat) {
    predicate Ok() { reader <= writer <= size && CHEAP_PREPEND <= size }
    function Readable(): int { writer - reader }
    function Writable(): int { size - writer }
  }

  function Initial(initialSize: nat): Shape {
    Shape(CHEAP_PREPEND + initialSize, CHEAP_PREPEND, CHEAP_PREPEND)
  }

  function MadeSpace(sh: Shape, len: nat): Shape
    requires sh.Ok()
  {
    var end := CHEAP_PREPEND + sh.Readable();
    if sh.Writable() + sh.reader < len + CHEAP_PREPEND then Shape(end + len, CHEAP_PREPEND, end)
    else Shape(sh.size, CHEAP_PREPEND, end)
  }

  function Ensured(sh: Shape, len: nat): (r: Shape)
    requires sh.Ok()
    ensures r.Ok() && len <= r.Writable() && r.Readable() == sh.Readable()
  {
    if sh.Writable() < len then MadeSpace(sh, len) else sh
  }

  function Appended(sh: Shape, len: nat): Shape
    requires sh.Ok()
  {
    var e := Ensured(sh, len);
    e.(writer := e.writer + len)
  }

  function Consumed(sh: Shape, len: nat): Shape
    requires sh.Ok() && len <= sh.Readable()
  {
    if len < sh.Readable() then sh.(reader := sh.reader + len)
    else sh.(reader := CHEAP_PREPEND, writer := CHEAP_PREPEND)
  }

  function Scattered(sh: Shape, n: nat): Shape
    requires sh.Ok()
  {
    if n <= sh.Writable() then sh.(writer := sh.writer + n)
    else Appended(sh.(writer := sh.size), n - sh.Writable())
  }

  // The room readv is given: the writable region, and the side array while that region is smaller.
  function ReadRoom(writable: nat): (room: nat)
    ensures 65536 <= room && (room == writable || room == writable + 65536)
  {
    if writable < EXTRA_SIZE then writable + EXTRA_SIZE else writable
  }

  datatype Op = Ensure(len: nat) | Append(len: nat) | Consume(len: nat) | Prepend(len: nat) | Read(n: nat)

  predicate LegalOp(sh: Shape, op: Op) {
    && sh.Ok()
    && (op.Consume? ==> op.len <= sh.Readable())
    && (op.Prepend? ==> op.len <= sh.reader)
  }

  function Apply(sh: Shape, op: Op): (r: Shape)
    requires LegalOp(sh, op)
    ensures r.Ok()
  {
    match op
    case Ensure(len) => Ensured(sh, len)
    case Append(len) => Appended(sh, len)
    case Consume(len) => Consumed(sh, len)
    case Prepend(len) => sh.(reader := sh.reader - len)
    case Read(n) => Scattered(sh, n)
  }

  predicate LegalRun(sh: Shape, ops: seq<Op>)
    decreases |ops|
  {
    ops == [] || (LegalOp(sh, ops[0]) && LegalRun(Apply(sh, ops[0]), ops[1..]))
  }

  function Run(sh: Shape, ops: seq<Op>): Shape
    requires LegalRun(sh, ops)
    decreases |ops|
  {
    if ops == [] then sh else Run(Apply(sh, ops[0]), ops[1..])
  }

  function Max(a: nat, b: nat): nat { if a < b then b else a }

  // The readable bytes plus the bytes asked for, when the operation asks for space.
  function SpaceRequest(sh: Shape, op: Op): nat
    requires LegalOp(sh, op)
  {
    match op
    case Ensure(len) => sh.Readable() + len
    case Append(len) => sh.Readable() + len
    case Read(n) => if n <= sh.Writable() then 0 else sh.Readable() + n
    case _ => 0
  }

  function PeakRequest(sh: Shape, ops: seq<Op>): nat
    requires LegalRun(sh, ops)
    decreases |ops|
  {
    if ops == [] then 0 else Max(SpaceRequest(sh, ops[0]), PeakRequest(Apply(sh, ops[0]), ops[1..]))
  }

  /** Exact capacity: with no prepend, a buffer is always as large as the header room plus the
      largest demand so far: it grows only where compaction cannot serve, and never by more. */
  lemma {:induction false} ExactCapacity(sh: Shape, ops: seq<Op>, demand: nat)
    requires LegalRun(sh, ops) && forall op | op in ops :: !op.Prepend?
    requires sh.Ok() && CHEAP_PREPEND <= sh.reader && sh.size == CHEAP_PREPEND + demand
    ensures Run(sh, ops).size == CHEAP_PREPEND + Max(demand, PeakRequest(sh, ops))
    decreases |ops|
  {
    if ops != [] {
      assert !ops[0].Prepend?;
      ExactCapacity(Apply(sh, ops[0]), ops[1..], Max(demand, SpaceRequest(sh, ops[0])));
    }
  }

  /** With prepends the header room may be used up as data room, so growth can only come later:
      the capacity stays between the largest demand and that demand plus the header room. */
  lemma {:induction false} CapacityBounds(sh: Shape, ops: seq<Op>, demand: nat)
    requires LegalRun(sh, ops)
    requires sh.Ok() && demand <= sh.size <= CHEAP_PREPEND + demand
    ensures var peak := Max(demand, PeakRequest(sh, ops));
            peak <= Run(sh, ops).size <= CHEAP_PREPEND + peak
    decreases |ops|
  {
    if ops != [] {
      CapacityBounds(Apply(sh, ops[0]), ops[1..], Max(demand, SpaceRequest(sh, ops[0])));
    }
  }

  // ---- 32-bit integers in network byte order ----------------------------------------------

  type int32 = x: int | -0x8000_0000 <= x < 0x8000_0000

  function BigEndian(x: int32): (r: seq<Byte>)
    ensures |r| == 4
  {
    var u := if x < 0 then x + 0x1_0000_0000 else x;
    [(u / 0x100_0000) as char, (u / 0x1_0000 % 0x100) as char, (u / 0x100 % 0x100) as char, (u % 0x100) as char]
  }

  function FromBigEndian(s: seq<Byte>): int32
    requires |s| == 4
  {
    var u := s[0] as int * 0x100_0000 + s[1] as int * 0x1_0000 + s[2] as int * 0x100 + s[3] as int;
    if u < 0x8000_0000 then u else u - 0x1_0000_0000
  }

  /** Network byte order: the most significant byte comes first, and a negative number is sent as itself
      plus 2^32. */
  lemma MostSignificantFirst(x: int32, s: seq<Byte>)
    requires s == BigEndian(x)
    ensures s[0] as int * 16777216 + s[1] as int * 65536 + s[2] as int * 256 + s[3] as int
            == x + if x < 0 then 4294967296 else 0
  {
    BytesRecombine(if x < 0 then x + 0x1_0000_0000 else x);
  }

  lemma BigEndianRoundTrip(x: int32)
    ensures FromBigEndian(BigEndian(x)) == x
  {
    var u := if x < 0 then x + 0x1_0000_0000 else x;
    BytesRecombine(u);
  }

  lemma BytesRecombine(u: int)
    requires 0 <= u < 0x1_0000_0000
    ensures u == u / 0x100_0000 * 0x100_0000 + u / 0x1_0000 % 0x100 * 0x1_0000 + u / 0x100 % 0x100 * 0x100 + u % 0x100
  {
    var a, b := u / 0x100, u / 0x1_0000;
    assert b == a / 0x100 && u / 0x100_0000 == b / 0x100;
    assert u == a * 0x100 + u % 0x100;
    assert a == b * 0x100 + a % 0x100;
    assert b == b / 0x100 * 0x100 + b % 0x100;
  }

  // ---- The buffer -------------------------------------------------------------------------

  class Buffer {
    var data: array<Byte>
    var reader: nat
    var writer: nat

    ghost predicate Valid()
      reads this
    {
      reader <= writer <= data.Length && CHEAP_PREPEND <= data.Length
    }

    ghost function Contents(): seq<Byte>
      requires Valid()
      reads this, data
    {
      data[reader..writer]
    }

    ghost function Layout(): (r: Shape)
      requires Valid()
      reads this
      ensures r.Ok()
    {
      Shape(data.Length, reader, writer)
    }

    constructor (initialSize: nat)
      ensures Valid() && fresh(data)
      ensures Contents() == [] && Layout() == Initial(initialSize)
      ensures data.Length == 8 + initialSize && reader == writer == 8
    {
      data := new Byte[CHEAP_PREPEND + initialSize];
      reader, writer := CHEAP_PREPEND, CHEAP_PREPEND;
    }

    method Swap(other: Buffer)
      modifies this, other
      ensures data == old(other.data) && reader == old(other.reader) && writer == old(other.writer)
      ensures other.data == old(data) && other.reader == old(reader) && other.writer == old(writer)
    {
      data, other.data := other.data, data;
      reader, other.reader := other.reader, reader;
      writer, other.writer := other.writer, writer;
    }

    function ReadableBytes(): (n: nat)
      requires Valid()
      reads this, data
      ensures n == |Contents()|
    {
      writer - reader
    }

    function WritableBytes(): nat
      requires Valid()
      reads this
    {
      data.Length - writer
    }

    method ConsumeAll()
      requires Valid()
      modifies this
      ensures Valid() && data == old(data) && Contents() == []
      ensures Layout() == Consumed(old(Layout()), old(|Contents()|)) && reader == writer == 8
    {
      reader, writer := CHEAP_PREPEND, CHEAP_PREPEND;
    }

    method Consume(len: nat)
      requires Valid() && len <= |Contents()|
      modifies this
      ensures Valid() && data == old(data)
      ensures Contents() == old(Contents())[len..]
      ensures Layout() == Consumed(old(Layout()), len)
      ensures if len < old(|Contents()|) then writer == old(writer) else writer == 8
    {
      if len < ReadableBytes() {
        reader := reader + len;
      } else {
        ConsumeAll();
      }
    }

    method RetrieveAsString(len: nat) returns (result: seq<Byte>)
      requires Valid() && len <= |Contents()|
      modifies this
      ensures Valid() && data == old(data)
      ensures result + Contents() == old(Contents()) && |result| == len
      ensures Layout() == Consumed(old(Layout()), len)
    {
      result := data[reader..reader + len];
      Consume(len);
    }

    method MakeSpace(len: nat)
      requires Valid() && WritableBytes() < len
      modifies this, data
      ensures Valid() && (data == old(data) || fresh(data))
      ensures Contents() == old(Contents())
      ensures Layout() == MadeSpace(old(Layout()), len) && reader == 8 && len <= data.Length - writer
      ensures fresh(data) <==> old(data.Length) < 8 + |old(Contents())| + len
    {
      var readable := ReadableBytes();
      if WritableBytes() + reader < len + CHEAP_PREPEND {
        var other := new Buffer(readable + len);
        Copy(data, reader, readable, other.data, CHEAP_PREPEND);
        Swap(other);
      } else {
        assert CHEAP_PREPEND < reader;
        Copy(data, reader, readable, data, CHEAP_PREPEND);
      }
      reader := CHEAP_PREPEND;
      writer := reader + readable;
    }

    method EnsureWritableBytes(len: nat)
      requires Valid()
      modifies this, data
      ensures Valid() && (data == old(data) || fresh(data))
      ensures Contents() == old(Contents())
      ensures Layout() == Apply(old(Layout()), Op.Ensure(len))
    {
      if WritableBytes() < len {
        MakeSpace(len);
      }
    }

    method Append(bytes: seq<Byte>)
      requires Valid()
      modifies this, data
      ensures Valid() && (data == old(data) || fresh(data))
      ensures Contents() == old(Contents()) + bytes
      ensures Layout() == Appended(old(Layout()), |bytes|)
    {
      EnsureWritableBytes(|bytes|);
      Fill(bytes);
    }

    method Prepend(bytes: seq<Byte>)
      requires Valid() && |bytes| <= reader
      modifies this, data
      ensures Valid() && data == old(data)
      ensures Contents() == bytes + old(Contents())
      ensures Layout() == Apply(old(Layout()), Op.Prepend(|bytes|))
    {
      ghost var before := data[..];
      reader := reader - |bytes|;
      Store(data, reader, bytes);
      SameTail(before, data[..], reader + |bytes|, writer);
      SliceSplits(data[..], reader, reader + |bytes|, writer);
    }

    method AppendInt32(x: int32)
      requires Valid()
      modifies this, data
      ensures Valid() && (data == old(data) || fresh(data))
      ensures Contents() == old(Contents()) + BigEndian(x)
    {
      Append(BigEndian(x));
    }

    method PrependInt32(x: int32)
      requires Valid() && 4 <= reader
      modifies this, data
      ensures Valid() && data == old(data)
      ensures Contents() == BigEndian(x) + old(Contents())
    {
      Prepend(BigEndian(x));
    }

    /** Whatever 32-bit value leads the readable bytes is what comes out. */
    method RetrieveInt32() returns (x: int32)
      requires Valid() && 4 <= |Contents()|
      modifies this
      ensures Valid() && data == old(data)
      ensures Contents() == old(Contents())[4..] && x == FromBigEndian(old(Contents())[..4])
      ensures forall y: int32 | old(Contents())[..4] == BigEndian(y) :: x == y
    {
      x := FromBigEndian(data[reader..reader + 4]);
      assert data[reader..reader + 4] == Contents()[..4];
      forall y: int32 ensures FromBigEndian(BigEndian(y)) == y {
        BigEndianRoundTrip(y);
      }
      Consume(4);
    }

    /** The scatter read: the bytes land first in the writable region, the rest in a side array
        that is appended. Either way it is one append of everything the kernel delivered. */
    method ReadFd(kernel: ReadResult) returns (n: int, savedErrno: int)
      requires Valid()
      requires kernel.Got? ==> |kernel.bytes| <= ReadRoom(WritableBytes())
      modifies this, data
      ensures Valid() && (data == old(data) || fresh(data))
      ensures kernel.Got? ==> n == |kernel.bytes| && savedErrno == 0
                              && Contents() == old(Contents()) + kernel.bytes
                              && Layout() == Scattered(old(Layout()), |kernel.bytes|)
      ensures kernel.Failed? ==> n == -1 && savedErrno == kernel.errno
                                 && Contents() == old(Contents()) && Layout() == old(Layout())
    {
      savedErrno := 0;
      var writable := WritableBytes();
      match kernel
      case Failed(errno) =>
        n := -1;
        savedErrno := errno;
      case Got(bytes) =>
        n := |bytes|;
        if n <= writable {
          Fill(bytes);
        } else {
          Fill(bytes[..writable]);
          Append(bytes[writable..]);
          assert old(Contents()) + bytes == old(Contents()) + bytes[..writable] + bytes[writable..];
        }
    }

    // The kernel's write into the writable region, followed by the index update.
    method Fill(bytes: seq<Byte>)
      requires Valid() && |bytes| <= WritableBytes()
      modifies this, data
      ensures Valid() && data == old(data)
      ensures Contents() == old(Contents()) + bytes
      ensures Layout() == old(Layout()).(writer := old(writer) + |bytes|)
    {
      Store(data, writer, bytes);
      assert data[reader..writer + |bytes|] == data[..writer][reader..] + data[writer..writer + |bytes|];
      writer := writer + |bytes|;
    }
  }

  lemma SameTail(a: seq<Byte>, b: seq<Byte>, from: nat, to: nat)
    requires from <= to <= |a| == |b| && a[from..] == b[from..]
    ensures a[from..to] == b[from..to]
  {
    assert a[from..to] == a[from..][..to - from] && b[from..to] == b[from..][..to - from];
  }

  lemma SliceSplits(a: seq<Byte>, i: nat, j: nat, k: nat)
    requires i <= j <= k <= |a|
    ensures a[i..k] == a[i..j] + a[j..k]
  {
  }

  /** std::copy of `n` bytes; within one array it must not run into its own source. */
  method Copy(src: array<Byte>, from: nat, n: nat, dst: array<Byte>, at: nat)
    requires from + n <= src.Length && at + n <= dst.Length
    requires src != dst || at <= from
    modifies dst
    ensures dst[at..at + n] == old(src[from..from + n])
    ensures dst[..at] == old(dst[..at])
  {
    var i := 0;
    while i < n
      invariant i <= n
      invariant dst[at..at + i] == old(src[from..from + i])
      invariant dst[..at] == old(dst[..at])
      invariant forall k | from + i <= k < src.Length :: src[k] == old(src[k])
    {
      dst[at + i] := src[from + i];
      i := i + 1;
    }
  }

  method Store(dst: array<Byte>, at: nat, bytes: seq<Byte>)
    requires at + |bytes| <= dst.Length
    modifies dst
    ensures dst[at..at + |bytes|] == bytes
    ensures dst[..at] == old(dst[..at]) && dst[at + |bytes|..] == old(dst[at + |bytes|..])
  {
    forall i | 0 <= i < |bytes| {
      dst[at + i] := bytes[i];
    }
  }
}
