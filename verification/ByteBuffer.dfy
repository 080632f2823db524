/**
  The byte queue of include/net/Buffer.h and src/net/Buffer.cc: one growable
  array, a reader index and a writer index, an eight-byte prepend area.

  `Layout` is the arithmetic of the two indices and the array size; the class
  below moves the bytes.
 */
module ByteBuffer {
  import opened Wrappers

  newtype byte = b: int | 0 <= b < 256

  const PREPEND: nat := 8
  const INITIAL_SIZE: nat := 1024
  const EXTRA_AREA: nat := 65536
  const CR: byte := 13
  const LF: byte := 10

  function Min(a: nat, b: nat): nat { if a < b then a else b }
  function Max(a: nat, b: nat): nat { if a < b then b else a }

  // ---------------------------------------------------------------- layout

  datatype Layout = Layout(size: nat, reader: nat, writer: nat) {
    predicate Valid() { PREPEND <= reader <= writer <= size }

    function Readable(): nat
      requires Valid()
    {
      writer - reader
    }

    function Writable(): nat
      requires Valid()
    {
      size - writer
    }
  }

  function NewLayout(initialSize: nat): Layout {
    Layout(PREPEND + initialSize, PREPEND, PREPEND)
  }

  predicate MustGrow(l: Layout, len: nat)
    requires l.Valid()
  {
    l.Writable() + l.reader < len + PREPEND
  }

  function AfterMakeSpace(l: Layout, len: nat): Layout
    requires l.Valid()
  {
    if MustGrow(l, len) then l.(size := l.writer + len)
    else l.(reader := PREPEND, writer := PREPEND + l.Readable())
  }

  function AfterEnsure(l: Layout, len: nat): Layout
    requires l.Valid()
  {
    if l.Writable() < len then AfterMakeSpace(l, len) else l
  }

  function AfterAppend(l: Layout, len: nat): (r: Layout)
    requires l.Valid()
    ensures r.Valid() && r.Readable() == l.Readable() + len
    ensures r.size <= Max(l.size, 2 * r.Readable() + PREPEND - 1)
  {
    var m := AfterEnsure(l, len);
    m.(writer := m.writer + len)
  }

  function AfterRetrieve(l: Layout, len: nat): (r: Layout)
    requires l.Valid()
    ensures r.Valid() && r.Readable() == l.Readable() - Min(len, l.Readable())
  {
    if len < l.Readable() then l.(reader := l.reader + len)
    else l.(reader := PREPEND, writer := PREPEND)
  }

  // What one readv may return: the free tail, plus the stack area when the
  // tail is shorter than it.
  function ReadLimit(l: Layout): nat
    requires l.Valid()
  {
    l.Writable() + if l.Writable() < EXTRA_AREA then EXTRA_AREA else 0
  }

  function AfterRead(l: Layout, n: nat): (r: Layout)
    requires l.Valid()
    ensures r.Valid() && r.Readable() == l.Readable() + n
    ensures r.size <= Max(l.size, 2 * r.Readable() + PREPEND - 1)
  {
    if n <= l.Writable() then l.(writer := l.writer + n)
    else AfterAppend(l.(writer := l.size), n - l.Writable())
  }

  datatype BufferOp = Append(len: nat) | Read(n: nat) | Retrieve(amount: nat)

  function AfterOp(l: Layout, op: BufferOp): (r: Layout)
    requires l.Valid()
    ensures r.Valid()
  {
    match op
    case Append(len) => AfterAppend(l, len)
    case Read(n) => AfterRead(l, n)
    case Retrieve(amount) => AfterRetrieve(l, amount)
  }

  function AfterOps(l: Layout, ops: seq<BufferOp>): (r: Layout)
    requires l.Valid()
    ensures r.Valid()
    decreases |ops|
  {
    if ops == [] then l else AfterOps(AfterOp(l, ops[0]), ops[1..])
  }

  /** The largest number of unread bytes at any point of the run. */
  function Peak(l: Layout, ops: seq<BufferOp>): nat
    requires l.Valid()
    decreases |ops|
  {
    if ops == [] then l.Readable()
    else Max(l.Readable(), Peak(AfterOp(l, ops[0]), ops[1..]))
  }

  lemma {:induction false} PeakCoversStart(l: Layout, ops: seq<BufferOp>)
    requires l.Valid()
    ensures l.Readable() <= Peak(l, ops)
  {
  }

  /** Memory bound: over any run the array is no longer than the larger of its
      first size and twice the peak of unread bytes plus seven. */
  lemma {:induction false} MemoryBound(l: Layout, ops: seq<BufferOp>)
    requires l.Valid()
    ensures l.size <= AfterOps(l, ops).size <= Max(l.size, 2 * Peak(l, ops) + PREPEND - 1)
    decreases |ops|
  {
    if ops != [] {
      var m := AfterOp(l, ops[0]);
      MemoryBound(m, ops[1..]);
      PeakCoversStart(m, ops[1..]);
    }
  }

  /** From a new buffer the reader is at the prepend area whenever nothing is unread. */
  predicate Rewound(l: Layout) { l.Valid() && (l.reader == l.writer ==> l.reader == PREPEND) }

  // What an array that held `size` bytes may grow to with at most `peak` unread.
  function Bound(size: nat, peak: nat): nat { Max(size, Max(peak + PREPEND, 2 * peak + PREPEND - 2)) }

  lemma OpKeepsBound(l: Layout, op: BufferOp)
    requires Rewound(l)
    ensures var m := AfterOp(l, op); Rewound(m) && m.size <= Bound(l.size, m.Readable())
  {
  }

  lemma {:induction false} RunKeepsBound(l: Layout, ops: seq<BufferOp>)
    requires Rewound(l)
    ensures AfterOps(l, ops).size <= Bound(l.size, Peak(l, ops))
    decreases |ops|
  {
    if ops != [] {
      var m := AfterOp(l, ops[0]);
      OpKeepsBound(l, ops[0]);
      RunKeepsBound(m, ops[1..]);
      PeakCoversStart(m, ops[1..]);
    }
  }

  /** The sharp memory bound of a new buffer: over any run the array is no longer than its
      first size, the peak plus eight, or twice the peak plus six. */
  lemma NewBufferBound(initialSize: nat, ops: seq<BufferOp>)
    ensures var l := NewLayout(initialSize);
            AfterOps(l, ops).size <= Max(l.size, Max(Peak(l, ops) + 8, 2 * Peak(l, ops) + 6))
  {
    RunKeepsBound(NewLayout(initialSize), ops);
  }

  // All but one of the peak in, all but one of those out, and as many in again.
  function WorstRun(peak: nat): seq<BufferOp>
    requires 2 <= peak
  {
    [Append(peak - 1), Retrieve(peak - 2), Append(peak - 1)]
  }

  lemma OpThen(l: Layout, op: BufferOp, ops: seq<BufferOp>)
    requires l.Valid()
    ensures AfterOps(l, [op] + ops) == AfterOps(AfterOp(l, op), ops)
    ensures Peak(l, [op] + ops) == Max(l.Readable(), Peak(AfterOp(l, op), ops))
  {
    assert ([op] + ops)[1..] == ops;
  }

  lemma NothingMore(l: Layout)
    requires l.Valid()
    ensures AfterOps(l, []) == l && Peak(l, []) == l.Readable()
  {
  }

  lemma WorstRunGrows(peak: nat)
    requires 2 <= peak
    ensures AfterOps(NewLayout(0), WorstRun(peak)).size == 2 * peak + 6 && Peak(NewLayout(0), WorstRun(peak)) == peak
  {
    hide AfterOps, Peak;
    var a, b := Append(peak - 1), Retrieve(peak - 2);
    var l0 := NewLayout(0);
    var l1 := Layout(peak + 7, 8, peak + 7);
    var l2 := Layout(peak + 7, peak + 6, peak + 7);
    var l3 := Layout(2 * peak + 6, peak + 6, 2 * peak + 6);
    assert AfterOp(l0, a) == l1 && AfterOp(l1, b) == l2 && AfterOp(l2, a) == l3;
    OpThen(l0, a, [b] + ([a] + []));
    OpThen(l1, b, [a] + []);
    OpThen(l2, a, []);
    NothingMore(l3);
    assert WorstRun(peak) == [a] + ([b] + ([a] + []));
  }

  /** The sharp bound is reached for every peak. */
  lemma MemoryBoundIsTight(peak: nat)
    ensures exists ops :: Peak(NewLayout(0), ops) == peak
              && AfterOps(NewLayout(0), ops).size == Max(8, Max(peak + 8, 2 * peak + 6))
  {
    hide AfterOps, Peak;
    var l := NewLayout(0);
    if peak == 0 {
      NothingMore(l);
    } else if peak == 1 {
      NothingMore(l);
      var grown := Layout(9, 8, 9);
      assert AfterOp(l, Append(1)) == grown;
      OpThen(l, Append(1), []);
      NothingMore(grown);
    } else {
      WorstRunGrows(peak);
    }
  }

  /** A scatter read, with its second append from the stack area, leaves the layout that one
      append of all its bytes would. */
  lemma ReadIsAppend(l: Layout, n: nat)
    requires l.Valid()
    ensures AfterRead(l, n) == AfterAppend(l, n)
  {
  }

  /** The array grows exactly when the unread bytes, the new ones and the prepend
      area together do not fit it; otherwise its size stays. The unread bytes move to the
      front exactly when the tail is too short and they do fit. */
  lemma GrowsOnlyWhenFull(l: Layout, len: nat)
    requires l.Valid()
    ensures AfterAppend(l, len).size != l.size <==> l.size < l.Readable() + len + PREPEND && l.Writable() < len
    ensures l.Readable() + len + PREPEND <= l.size ==> AfterAppend(l, len).size == l.size
    ensures AfterAppend(l, len).size == l.size || AfterAppend(l, len).size == AfterAppend(l, len).writer
    ensures AfterAppend(l, len).reader
         == if l.size - l.writer < len && l.Readable() + len + PREPEND <= l.size then PREPEND else l.reader
  {
  }

  // ----------------------------------------------------------------- class

  datatype Errno = EWOULDBLOCK | EPIPE | ECONNRESET | EOTHER

  /** What the kernel answers to one readv. */
  datatype ReadResult = Got(bytes: seq<byte>) | ReadFailed(errno: Errno)

  /** What the kernel answers to one write: it has room for so many bytes, or fails. */
  datatype WriteResult = Room(room: nat) | WriteFailed(errno: Errno)

  /** Index of the first CR LF pair, if there is one. */
  ghost predicate IsFirstCRLF(s: seq<byte>, r: Option<nat>)
  {
    match r
    case None => forall i :: 0 <= i < |s| - 1 ==> !(s[i] == CR && s[i + 1] == LF)
    case Some(k) =>
      && k + 1 < |s| && s[k] == CR && s[k + 1] == LF
      && forall i :: 0 <= i < k ==> !(s[i] == CR && s[i + 1] == LF)
  }

  // The first `len` elements from `r` on, against those up to `w`.
  lemma SliceSplits(a: seq<byte>, r: nat, w: nat, len: nat)
    requires r <= w <= |a| && r + len <= |a|
    ensures len <= w - r ==> a[r..r + len] + a[r..w][len..] == a[r..w]
    ensures w - r < len ==> a[r..w] <= a[r..r + len]
  {
    if w - r < len { assert a[r..r + len][..w - r] == a[r..w]; }
  }

  class Buffer {
    var data: array<byte>
    var readerIndex: nat
    var writerIndex: nat

    ghost predicate Valid()
      reads this
    {
      Shape().Valid()
    }

    ghost function Shape(): Layout
      reads this
    {
      Layout(data.Length, readerIndex, writerIndex)
    }

    /** The unread bytes, oldest first. */
    ghost function Contents(): seq<byte>
      requires Valid()
      reads this, data
    {
      data[readerIndex..writerIndex]
    }

    constructor (initialSize: nat)
      ensures Valid() && fresh(data)
      ensures Contents() == [] && Shape() == NewLayout(initialSize)
    {
      data := new byte[PREPEND + initialSize](i => 0);
      readerIndex := PREPEND;
      writerIndex := PREPEND;
    }

    method ReadableBytes() returns (n: nat)
      requires Valid()
      ensures n == |Contents()|
    {
      n := writerIndex - readerIndex;
    }

    // std::vector::resize to a larger size.
    method Resize(size: nat)
      requires Valid() && data.Length <= size
      modifies this
      ensures Valid() && fresh(data)
      ensures Shape() == old(Shape()).(size := size)
      ensures Contents() == old(Contents())
    {
      var current := data;
      var bigger := new byte[size](i => 0);
      var i := 0;
      while i < current.Length
        invariant 0 <= i <= current.Length
        invariant forall k :: 0 <= k < i ==> bigger[k] == current[k]
        modifies bigger
      {
        bigger[i] := current[i];
        i := i + 1;
      }
      data := bigger;
    }

    // Compaction copies forwards over itself; it is reached only with the reader
    // beyond the prepend area, so every byte is read before it is overwritten.
    method MakeSpace(len: nat)
      requires Valid() && data.Length - writerIndex < len
      modifies this, data
      ensures Valid() && (data == old(data) || fresh(data))
      ensures Shape() == AfterMakeSpace(old(Shape()), len)
      ensures Contents() == old(Contents())
    {
      if data.Length - writerIndex + readerIndex < len + PREPEND {
        Resize(writerIndex + len);
      } else {
        assert PREPEND < readerIndex;
        var readable := writerIndex - readerIndex;
        ghost var before := data[..];
        var i := 0;
        while i < readable
          invariant 0 <= i <= readable
          invariant forall k :: PREPEND <= k < PREPEND + i ==> data[k] == before[k - PREPEND + readerIndex]
          invariant forall k :: readerIndex + i <= k < data.Length ==> data[k] == before[k]
          modifies data
        {
          data[PREPEND + i] := data[readerIndex + i];
          i := i + 1;
        }
        assert data[PREPEND..PREPEND + readable] == before[readerIndex..writerIndex];
        readerIndex := PREPEND;
        writerIndex := readerIndex + readable;
      }
    }

    method EnsureWriteableByte(len: nat)
      requires Valid()
      modifies this, data
      ensures Valid() && (data == old(data) || fresh(data))
      ensures Shape() == AfterEnsure(old(Shape()), len)
      ensures Contents() == old(Contents())
      ensures len <= data.Length - writerIndex
    {
      if data.Length - writerIndex < len {
        MakeSpace(len);
      }
    }

    // The copy loop of std::copy and of the kernel's scatter read.
    method Fill(bytes: seq<byte>)
      requires Valid() && |bytes| <= data.Length - writerIndex
      modifies data
      ensures data[readerIndex..writerIndex] == old(data[readerIndex..writerIndex])
      ensures data[writerIndex..writerIndex + |bytes|] == bytes
    {
      ghost var before := data[..];
      var i := 0;
      while i < |bytes|
        invariant 0 <= i <= |bytes|
        invariant forall k :: 0 <= k < writerIndex ==> data[k] == before[k]
        invariant forall k :: 0 <= k < i ==> data[writerIndex + k] == bytes[k]
      {
        data[writerIndex + i] := bytes[i];
        i := i + 1;
      }
    }

    // Bytes copied behind the writer, and the writer moved past them.
    method Put(bytes: seq<byte>)
      requires Valid() && |bytes| <= data.Length - writerIndex
      modifies this`writerIndex, data
      ensures Valid() && Shape() == old(Shape()).(writer := old(writerIndex) + |bytes|)
      ensures Contents() == old(Contents()) + bytes
    {
      Fill(bytes);
      assert data[readerIndex..writerIndex + |bytes|] ==
             data[readerIndex..writerIndex] + data[writerIndex..writerIndex + |bytes|];
      writerIndex := writerIndex + |bytes|;
    }

    method Append(bytes: seq<byte>)
      requires Valid()
      modifies this, data
      ensures Valid() && (data == old(data) || fresh(data))
      ensures Shape() == AfterAppend(old(Shape()), |bytes|)
      ensures Contents() == old(Contents()) + bytes
    {
      EnsureWriteableByte(|bytes|);
      Put(bytes);
    }

    method Retrieve(len: nat)
      requires Valid()
      modifies this
      ensures Valid() && data == old(data)
      ensures Shape() == AfterRetrieve(old(Shape()), len)
      ensures Contents() == old(Contents())[Min(len, |old(Contents())|)..]
    {
      if len < writerIndex - readerIndex {
        readerIndex := readerIndex + len;
      } else {
        RetrieveAll();
      }
    }

    method RetrieveAll()
      requires Valid()
      modifies this
      ensures Valid() && data == old(data) && Contents() == []
      ensures readerIndex == writerIndex == PREPEND
    {
      readerIndex := PREPEND;
      writerIndex := PREPEND;
    }

    // The caller may ask for more than is readable, as long as the array is that
    // long; what comes after the unread bytes is then whatever the array holds.
    method RetrieveAsString(len: nat) returns (result: seq<byte>)
      requires Valid() && readerIndex + len <= data.Length
      modifies this
      ensures Valid() && data == old(data)
      ensures Shape() == AfterRetrieve(old(Shape()), len)
      ensures |result| == len
      ensures len <= |old(Contents())| ==> result + Contents() == old(Contents())
      ensures |old(Contents())| < len ==> old(Contents()) <= result && Contents() == []
    {
      result := data[readerIndex..readerIndex + len];
      SliceSplits(data[..], readerIndex, writerIndex, len);
      Retrieve(len);
    }

    method RetrieveAllAsString() returns (result: seq<byte>)
      requires Valid()
      modifies this
      ensures Valid() && data == old(data)
      ensures result == old(Contents()) && Contents() == []
    {
      result := RetrieveAsString(writerIndex - readerIndex);
    }

    method FindCRLF() returns (r: Option<nat>)
      requires Valid()
      ensures IsFirstCRLF(Contents(), r)
    {
      var i := readerIndex;
      while i + 1 < writerIndex
        invariant readerIndex <= i <= writerIndex
        invariant forall k :: readerIndex <= k < i && k + 1 < writerIndex ==> !(data[k] == CR && data[k + 1] == LF)
      {
        if data[i] == CR && data[i + 1] == LF {
          return Some(i - readerIndex);
        }
        i := i + 1;
      }
      r := None;
    }

    // The kernel fills the free tail first, then the stack area, whose bytes are
    // appended with the writer at the end of the array.
    method Scatter(direct: seq<byte>, extra: seq<byte>)
      requires Valid() && |direct| <= data.Length - writerIndex
      requires extra != [] ==> |direct| == data.Length - writerIndex
      modifies this, data
      ensures Valid() && (data == old(data) || fresh(data))
      ensures Contents() == old(Contents()) + (direct + extra)
      ensures Shape() == AfterRead(old(Shape()), |direct| + |extra|)
    {
      ghost var before, shape := Contents(), Shape();
      Put(direct);
      if extra == [] {
        assert direct + extra == direct;
      } else {
        Append(extra);
        assert before + (direct + extra) == before + direct + extra;
        assert Shape() == AfterAppend(shape.(writer := shape.size), |extra|);
      }
    }

    /** The scatter read, into the tail and the stack area. */
    method ReadFd(r: ReadResult) returns (n: int, savedErrno: Option<Errno>)
      requires Valid()
      requires r.Got? ==> |r.bytes| <= ReadLimit(Shape())
      modifies this, data
      ensures Valid() && (data == old(data) || fresh(data))
      ensures r.Got? ==> n == |r.bytes| && savedErrno == None
      ensures r.Got? ==> Contents() == old(Contents()) + r.bytes && Shape() == AfterRead(old(Shape()), |r.bytes|)
      ensures r.ReadFailed? ==> n == -1 && savedErrno == Some(r.errno)
      ensures r.ReadFailed? ==> Contents() == old(Contents()) && Shape() == old(Shape())
    {
      savedErrno := None;
      var writable := data.Length - writerIndex;
      match r
      case ReadFailed(e) =>
        n := -1;
        savedErrno := Some(e);
      case Got(bytes) =>
        n := |bytes|;
        Scatter(bytes[..Min(n, writable)], bytes[Min(n, writable)..]);
        assert bytes[..Min(n, writable)] + bytes[Min(n, writable)..] == bytes;
    }

    /** One write of everything unread; `taken` is what the kernel copied out, and
        nothing is consumed here. */
    method WriteFd(w: WriteResult) returns (n: int, savedErrno: Option<Errno>, taken: seq<byte>)
      requires Valid()
      ensures w.Room? ==> n == Min(w.room, |Contents()|) && savedErrno == None && taken == Contents()[..n]
      ensures w.WriteFailed? ==> n == -1 && savedErrno == Some(w.errno) && taken == []
    {
      match w
      case Room(room) =>
        n, savedErrno := Min(room, writerIndex - readerIndex), None;
        taken := data[readerIndex..readerIndex + n];
      case WriteFailed(e) =>
        n, savedErrno, taken := -1, Some(e), [];
    }
  }

  // ------------------------------------------------------- runs of a buffer

  /** A use of the buffer: appended bytes, what the kernel would give a readv, bytes dropped
      or taken out from the front. */
  datatype Use = Gives(bytes: seq<byte>) | Readv(r: ReadResult) | Drops(amount: nat) | Takes(amount: nat)

  /** The bytes a use brings in: a readv gets no more than the tail and the stack area hold. */
  function CameOf(l: Layout, use: Use): seq<byte>
    requires l.Valid()
  {
    match use
    case Gives(bytes) => bytes
    case Readv(Got(bytes)) => bytes[..Min(|bytes|, ReadLimit(l))]
    case _ => []
  }

  /** What a readv brings in: the front of what the socket holds, as far as the free tail goes,
      and 65536 bytes more when the tail is shorter than that. So nothing comes only from a
      socket with nothing, or at the end of the stream, even if the buffer is full. */
  lemma ReadOffersEnough(l: Layout, bytes: seq<byte>)
    requires l.Valid()
    ensures var came, tail := CameOf(l, Readv(Got(bytes))), l.size - l.writer;
            && came <= bytes && (came == bytes <==> |bytes| <= tail || (tail < 65536 && |bytes| <= tail + 65536))
            && (came != bytes ==> |came| == if tail < 65536 then tail + 65536 else tail)
            && (|bytes| <= 65536 ==> came == bytes) && (came == [] <==> bytes == [])
    ensures forall e :: CameOf(l, Readv(ReadFailed(e))) == []
  {
    var n := Min(|bytes|, ReadLimit(l));
    assert bytes == bytes[..n] + bytes[n..];
  }

  /** The bytes a use takes out: retrieveAsString is asked for no more than is unread. */
  function WentOf(held: seq<byte>, use: Use): seq<byte> {
    if use.Drops? || use.Takes? then held[..Min(use.amount, |held|)] else []
  }

  function OpOf(l: Layout, use: Use): BufferOp
    requires l.Valid()
  {
    match use
    case Gives(bytes) => Append(|bytes|)
    case Readv(_) => Read(|CameOf(l, use)|)
    case Drops(amount) => Retrieve(amount)
    case Takes(amount) => Retrieve(Min(amount, l.Readable()))
  }

  /** A buffer with all that has come in and gone out, and the operations so far. */
  datatype Traffic = Traffic(layout: Layout, held: seq<byte>, came: seq<byte>, went: seq<byte>, ops: seq<BufferOp>)

  /** The traffic of a run of uses. */
  function TrafficOf(l: Layout, held: seq<byte>, uses: seq<Use>): (t: Traffic)
    requires l.Valid()
    ensures t.layout.Valid()
  {
    if uses == [] then Traffic(l, held, [], [], [])
    else
      var t, use := TrafficOf(l, held, uses[..|uses| - 1]), uses[|uses| - 1];
      var came, went, op := CameOf(t.layout, use), WentOf(t.held, use), OpOf(t.layout, use);
      Traffic(AfterOp(t.layout, op), (t.held + came)[|went|..], t.came + came, t.went + went, t.ops + [op])
  }

  lemma OpsSnoc(l: Layout, ops: seq<BufferOp>, op: BufferOp)
    requires l.Valid()
    ensures AfterOps(l, ops + [op]) == AfterOp(AfterOps(l, ops), op)
    decreases |ops|
  {
    if ops == [] {
      assert (ops + [op])[1..] == [];
    } else {
      assert (ops + [op])[1..] == ops[1..] + [op];
      OpsSnoc(AfterOp(l, ops[0]), ops[1..], op);
    }
  }

  /** The buffer is a queue, over any mix of uses: the bytes out followed by those unread are
      the bytes unread at first followed by those in. Its layout goes through the operations
      of the uses, so the memory bound holds of its array. */
  lemma {:induction false} QueueLaw(l: Layout, held: seq<byte>, uses: seq<Use>)
    requires l.Valid() && |held| == l.Readable()
    ensures var t := TrafficOf(l, held, uses);
            && t.went + t.held == held + t.came && |t.held| == t.layout.Readable()
            && t.layout == AfterOps(l, t.ops) && t.layout.size <= Max(l.size, 2 * Peak(l, t.ops) + PREPEND - 1)
    decreases |uses|
  {
    if uses != [] {
      var t, use := TrafficOf(l, held, uses[..|uses| - 1]), uses[|uses| - 1];
      QueueLaw(l, held, uses[..|uses| - 1]);
      OpsSnoc(l, t.ops, OpOf(t.layout, use));
      QueueMoves(held, t, CameOf(t.layout, use), WentOf(t.held, use));
      assert WentOf(t.held, use) <= t.held + CameOf(t.layout, use);
    }
    MemoryBound(l, TrafficOf(l, held, uses).ops);
  }

  lemma QueueMoves(first: seq<byte>, t: Traffic, came: seq<byte>, went: seq<byte>)
    requires t.went + t.held == first + t.came && went <= t.held + came
    ensures (t.went + went) + (t.held + came)[|went|..] == first + (t.came + came)
  {
    var now := (t.held + came)[|went|..];
    assert went + now == t.held + came;
    assert (t.went + went) + now == t.went + (went + now) == t.went + t.held + came;
    assert first + (t.came + came) == first + t.came + came;
  }

  method ReadSome(b: Buffer, r: ReadResult) returns (came: seq<byte>)
    requires b.Valid()
    modifies b, b.data
    ensures b.Valid() && (b.data == old(b.data) || fresh(b.data))
    ensures came == CameOf(old(b.Shape()), Readv(r))
    ensures b.Contents() == old(b.Contents()) + came && b.Shape() == AfterRead(old(b.Shape()), |came|)
  {
    var tail := b.data.Length - b.writerIndex;
    var limit := tail + if tail < EXTRA_AREA then EXTRA_AREA else 0;
    var answer := if r.Got? then Got(r.bytes[..Min(|r.bytes|, limit)]) else r;
    came := if answer.Got? then answer.bytes else [];
    var n, savedErrno := b.ReadFd(answer);
  }

  method UseOnce(b: Buffer, use: Use) returns (came: seq<byte>, went: seq<byte>)
    requires b.Valid()
    modifies b, b.data
    ensures b.Valid() && (b.data == old(b.data) || fresh(b.data))
    ensures came == CameOf(old(b.Shape()), use) && went == WentOf(old(b.Contents()), use)
    ensures b.Contents() == (old(b.Contents()) + came)[|went|..]
    ensures b.Shape() == AfterOp(old(b.Shape()), OpOf(old(b.Shape()), use))
  {
    came, went := [], [];
    ghost var before := b.Contents();
    assert before + [] == before;
    match use
    case Gives(bytes) =>
      came := bytes;
      b.Append(bytes);
    case Readv(r) => came := ReadSome(b, r);
    case Drops(amount) =>
      var unread := b.ReadableBytes();
      went := b.data[b.readerIndex..b.readerIndex + Min(amount, unread)];
      assert went == before[..Min(amount, unread)];
      b.Retrieve(amount);
    case Takes(amount) =>
      var unread := b.ReadableBytes();
      went := b.RetrieveAsString(Min(amount, unread));
      assert went == (went + b.Contents())[..|went|];
  }

  /** Any mix of uses of one buffer is the traffic of those uses, and so obeys the law of a
      queue and the memory bound. */
  method UseAll(b: Buffer, uses: seq<Use>) returns (came: seq<byte>, went: seq<byte>)
    requires b.Valid()
    modifies b, b.data
    ensures b.Valid() && (b.data == old(b.data) || fresh(b.data))
    ensures var t := TrafficOf(old(b.Shape()), old(b.Contents()), uses);
            && came == t.came && went == t.went && b.Contents() == t.held && b.Shape() == t.layout
            && b.data.Length <= Max(old(b.data.Length), 2 * Peak(old(b.Shape()), t.ops) + PREPEND - 1)
    ensures went + b.Contents() == old(b.Contents()) + came
  {
    hide AfterOp, AfterOps, Peak, CameOf, WentOf, OpOf;
    came, went := [], [];
    ghost var first, shape := b.Contents(), b.Shape();
    var i := 0;
    while i < |uses|
      invariant 0 <= i <= |uses|
      invariant b.Valid() && (b.data == old(b.data) || fresh(b.data))
      invariant var t := TrafficOf(shape, first, uses[..i]);
                came == t.came && went == t.went && b.Contents() == t.held && b.Shape() == t.layout
    {
      assert uses[..i + 1][..i] == uses[..i];
      var oneCame, oneWent := UseOnce(b, uses[i]);
      came, went := came + oneCame, went + oneWent;
      i := i + 1;
    }
    assert uses[..i] == uses;
    QueueLaw(shape, first, uses);
  }
}
