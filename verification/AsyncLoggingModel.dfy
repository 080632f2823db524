/**
  The double buffering of Asynclogging (src/base/AsyncLog2.cc): producers append under
  the lock, the writer swaps the buffers out under the lock and then writes and recycles
  them on its own. A buffer is the list of the messages in it; None is a null pointer.
 */
module AsyncLoggingModel {
  import opened Wrappers
  import ByteBuffer

  type byte = ByteBuffer.byte
  type Msg = seq<byte>
  type Buf = seq<Msg>

  const BUFFER_SIZE: nat := 4096

  function Bytes(b: Buf): seq<byte> {
    if b == [] then [] else Bytes(b[..|b| - 1]) + b[|b| - 1]
  }

  function Flatten(bs: seq<Buf>): Buf {
    if bs == [] then [] else Flatten(bs[..|bs| - 1]) + bs[|bs| - 1]
  }

  /** What the file receives: the note on discarded buffers, and one write a round. */
  datatype Chunk = Dropped(count: nat) | Bulk(bytes: seq<byte>)

  /** The writer: at the head of its loop, after the locked part, after writing. */
  datatype Pc = AtHead | Swapped | Written

  /** `crashed` stands for a null dereference or a copy beyond the end of a buffer. */
  datatype Log = Log(
    current: Option<Buf>, next: Option<Buf>, buffers: seq<Buf>,
    new1: Option<Buf>, new2: Option<Buf>, toWrite: seq<Buf>,
    pc: Pc, file: seq<Chunk>, crashed: bool,
    appended: seq<Msg>,          // every message so far
    batches: seq<seq<Buf>>)      // every batch the writer has taken

  const START: Log := Log(Some([]), Some([]), [], Some([]), Some([]), [], AtHead, [], false, [], [])

  datatype Step = Append(msg: Msg) | Swap | Write | Recycle

  predicate Enabled(s: Log, step: Step) {
    !s.crashed && match step
      case Append(_) => true
      case Swap => s.pc == AtHead
      case Write => s.pc == Swapped
      case Recycle => s.pc == Written
  }

  function AppendTo(s: Log, b: Buf, msg: Msg): Log {
    if BUFFER_SIZE < |Bytes(b)| + |msg| then s.(crashed := true)
    else s.(current := Some(b + [msg]), appended := s.appended + [msg])
  }

  function AfterAppend(s: Log, msg: Msg): Log {
    match s.current
    case None => s.(crashed := true)
    case Some(b) =>
      if |Bytes(b)| + |msg| < BUFFER_SIZE then AppendTo(s, b, msg)
      else
        var empty := if s.next.Some? then s.next.value else [];
        AppendTo(s.(buffers := s.buffers + [b], next := None, current := Some(empty)), empty, msg)
  }

  function AfterSwap(s: Log): Log {
    match s.current
    case None => s.(crashed := true)
    case Some(b) =>
      var batch := s.buffers + [b];
      s.(current := s.new1, new1 := None, buffers := s.toWrite, toWrite := batch,
         next := if s.next.None? then s.new2 else s.next,
         new2 := if s.next.None? then None else s.new2,
         pc := Swapped, batches := s.batches + [batch])
  }

  function Kept(batch: seq<Buf>): seq<Buf> { if |batch| > 2 then batch[..2] else batch }

  /** What one batch puts into the file. */
  function Written1(batch: seq<Buf>): seq<Chunk> {
    (if |batch| > 2 then [Dropped(|batch| - 2)] else []) + [Bulk(Bytes(Flatten(Kept(batch))))]
  }

  function AfterWrite(s: Log): Log {
    s.(file := s.file + Written1(s.toWrite), toWrite := Kept(s.toWrite), pc := Written)
  }

  function AfterRecycle(s: Log): Log {
    var one := s.new1.None? && s.toWrite != [];
    var rest := if one then s.toWrite[..|s.toWrite| - 1] else s.toWrite;
    var two := s.new2.None? && rest != [];
    s.(new1 := if one then Some([]) else s.new1, new2 := if two then Some([]) else s.new2,
       toWrite := [], pc := AtHead)
  }

  function Next(s: Log, step: Step): Log
    requires Enabled(s, step)
  {
    match step
    case Append(msg) => AfterAppend(s, msg)
    case Swap => AfterSwap(s)
    case Write => AfterWrite(s)
    case Recycle => AfterRecycle(s)
  }

  // ------------------------------------------------------------ invariants

  /** Rotation ownership: who holds a buffer at every release of the lock. */
  predicate Rotating(s: Log) {
    && s.current.Some? && (s.next.Some? || s.buffers != [])
    && (s.next.Some? ==> s.next.value == [])
    && (s.new1.Some? ==> s.new1.value == []) && (s.new2.Some? ==> s.new2.value == [])
    && |Bytes(s.current.value)| <= BUFFER_SIZE
    && match s.pc
       case AtHead => s.new1.Some? && s.new2.Some? && s.toWrite == []
       case Swapped => s.new1.None? && s.toWrite != [] && (s.new2.None? ==> 2 <= |s.toWrite|)
       case Written => s.new1.None? && 1 <= |s.toWrite| <= 2 && (s.new2.None? ==> 2 == |s.toWrite|)
  }

  /** The messages of all batches, in order. */
  function Taken(batches: seq<seq<Buf>>): Buf {
    if batches == [] then [] else Taken(batches[..|batches| - 1]) + Flatten(batches[|batches| - 1])
  }

  function FileOf(batches: seq<seq<Buf>>): seq<Chunk> {
    if batches == [] then [] else FileOf(batches[..|batches| - 1]) + Written1(batches[|batches| - 1])
  }

  predicate Conserved(s: Log) {
    && s.current.Some?
    && Taken(s.batches) + Flatten(s.buffers) + s.current.value == s.appended
    && (s.pc == AtHead ==> s.toWrite == [])
    && (s.pc == Swapped ==> s.batches != [] && s.toWrite == s.batches[|s.batches| - 1])
    && s.file == FileOf(if s.pc == Swapped && s.batches != [] then s.batches[..|s.batches| - 1] else s.batches)
  }

  predicate Fits(step: Step) { step.Append? ==> |step.msg| <= BUFFER_SIZE }

  lemma BytesSnoc(b: Buf, msg: Msg)
    ensures Bytes(b + [msg]) == Bytes(b) + msg
  {
    assert (b + [msg])[..|b|] == b;
  }

  lemma FlattenSnoc(bs: seq<Buf>, b: Buf)
    ensures Flatten(bs + [b]) == Flatten(bs) + b
  {
    assert (bs + [b])[..|bs|] == bs;
  }

  lemma TakenSnoc(batches: seq<seq<Buf>>, batch: seq<Buf>)
    ensures Taken(batches + [batch]) == Taken(batches) + Flatten(batch)
    ensures FileOf(batches + [batch]) == FileOf(batches) + Written1(batch)
  {
    assert (batches + [batch])[..|batches|] == batches;
  }

  lemma NextKeepsRotating(s: Log, step: Step)
    requires Rotating(s) && Enabled(s, step) && Fits(step)
    ensures Rotating(Next(s, step)) && !Next(s, step).crashed
  {
    if step.Append? {
      BytesSnoc(s.current.value, step.msg);
      BytesSnoc([], step.msg);
    }
  }

  // One more message, behind those in the current buffer or in a buffer of its own.
  lemma OneMoreMessage(taken: Buf, bs: seq<Buf>, b: Buf, msg: Msg)
    ensures taken + Flatten(bs) + (b + [msg]) == taken + Flatten(bs) + b + [msg]
    ensures taken + Flatten(bs + [b]) + ([] + [msg]) == taken + Flatten(bs) + b + [msg]
  {
    FlattenSnoc(bs, b);
    var all := taken + Flatten(bs);
    assert all + (b + [msg]) == all + b + [msg];
    assert taken + (Flatten(bs) + b) == all + b && [] + [msg] == [msg];
  }

  lemma SwapKeepsConserved(s: Log)
    requires Rotating(s) && Conserved(s) && !s.crashed && s.pc == AtHead
    ensures Conserved(AfterSwap(s))
  {
    var b := s.current.value;
    var batch := s.buffers + [b];
    FlattenSnoc(s.buffers, b);
    TakenSnoc(s.batches, batch);
    var taken := Taken(s.batches);
    assert (taken + (Flatten(s.buffers) + b)) + [] + [] == taken + Flatten(s.buffers) + b;
    assert (s.batches + [batch])[..|s.batches|] == s.batches;
  }

  lemma NextKeepsConserved(s: Log, step: Step)
    requires Rotating(s) && Conserved(s) && Enabled(s, step) && Fits(step)
    ensures Conserved(Next(s, step))
  {
    hide Taken, Flatten, FileOf, Bytes, Written1;
    NextKeepsRotating(s, step);
    match step
    case Append(msg) => OneMoreMessage(Taken(s.batches), s.buffers, s.current.value, msg);
    case Swap => SwapKeepsConserved(s);
    case Write =>
      assert s.batches == s.batches[..|s.batches| - 1] + [s.toWrite];
      TakenSnoc(s.batches[..|s.batches| - 1], s.toWrite);
    case Recycle =>
  }

  // ------------------------------------------------------------------ runs

  predicate LegalRun(s: Log, steps: seq<Step>)
    decreases |steps|
  {
    steps == [] || (Enabled(s, steps[0]) && LegalRun(Next(s, steps[0]), steps[1..]))
  }

  function Run(s: Log, steps: seq<Step>): Log
    requires LegalRun(s, steps)
    decreases |steps|
  {
    if steps == [] then s else Run(Next(s, steps[0]), steps[1..])
  }

  lemma {:induction false} RunAppend(s: Log, a: seq<Step>, b: seq<Step>)
    requires LegalRun(s, a) && LegalRun(Run(s, a), b)
    ensures LegalRun(s, a + b) && Run(s, a + b) == Run(Run(s, a), b)
    decreases |a|
  {
    if a == [] {
      assert a + b == b;
    } else {
      assert (a + b)[1..] == a[1..] + b;
      RunAppend(Next(s, a[0]), a[1..], b);
    }
  }

  lemma RunOneMore(s: Log, steps: seq<Step>, step: Step)
    requires LegalRun(s, steps) && Enabled(Run(s, steps), step)
    ensures LegalRun(s, steps + [step]) && Run(s, steps + [step]) == Next(Run(s, steps), step)
  {
    assert [step][1..] == [];
    RunAppend(s, steps, [step]);
  }

  /** The steps are legal, of messages that fit, and lead from `s` to `t`. */
  ghost predicate Reaches(s: Log, steps: seq<Step>, t: Log) {
    LegalRun(s, steps) && t == Run(s, steps) && forall i :: 0 <= i < |steps| ==> Fits(steps[i])
  }

  lemma ReachesFurther(s: Log, a: seq<Step>, t: Log, b: seq<Step>, u: Log)
    requires Reaches(s, a, t) && Reaches(t, b, u)
    ensures Reaches(s, a + b, u)
  {
    RunAppend(s, a, b);
  }

  lemma ReachesNext(s: Log, step: Step)
    requires Enabled(s, step) && Fits(step)
    ensures Reaches(s, [step], Next(s, step))
  {
    assert [step][1..] == [];
  }

  lemma {:induction false} RunKeeps(s: Log, steps: seq<Step>)
    requires Rotating(s) && Conserved(s) && !s.crashed && LegalRun(s, steps)
    requires forall i :: 0 <= i < |steps| ==> Fits(steps[i])
    ensures Rotating(Run(s, steps)) && Conserved(Run(s, steps)) && !Run(s, steps).crashed
    decreases |steps|
  {
    if steps != [] {
      NextKeepsRotating(s, steps[0]);
      NextKeepsConserved(s, steps[0]);
      RunKeeps(Next(s, steps[0]), steps[1..]);
    }
  }

  lemma {:induction false} OversizedCrashes(s: Log, steps: seq<Step>, i: nat)
    requires Rotating(s) && Conserved(s) && !s.crashed && LegalRun(s, steps)
    requires i < |steps| && !Fits(steps[i]) && forall k :: 0 <= k < i ==> Fits(steps[k])
    ensures Run(s, steps).crashed
    decreases |steps|
  {
    var n := Next(s, steps[0]);
    if i == 0 {
      assert n.crashed;
      assert steps[1..] == [];
    } else {
      NextKeepsRotating(s, steps[0]);
      NextKeepsConserved(s, steps[0]);
      OversizedCrashes(n, steps[1..], i - 1);
    }
  }

  /** No null buffer is ever used and none overflows, over any interleaving of producers
      and writer, exactly when no message is longer than a buffer. */
  lemma NeverCrashesExactly(steps: seq<Step>)
    requires LegalRun(START, steps)
    ensures !Run(START, steps).crashed <==> forall i :: 0 <= i < |steps| ==> Fits(steps[i])
  {
    if forall i :: 0 <= i < |steps| ==> Fits(steps[i]) {
      RunKeeps(START, steps);
    } else {
      var i := FirstOversized(steps);
      OversizedCrashes(START, steps, i);
    }
  }

  ghost function FirstOversized(steps: seq<Step>): (i: nat)
    requires exists k :: 0 <= k < |steps| && !Fits(steps[k])
    ensures i < |steps| && !Fits(steps[i]) && forall k :: 0 <= k < i ==> Fits(steps[k])
  {
    if !Fits(steps[0]) then 0
    else
      assert exists k :: 0 <= k < |steps[1..]| && !Fits(steps[1..][k]) by {
        var k :| 0 <= k < |steps| && !Fits(steps[k]);
        assert !Fits(steps[1..][k - 1]);
      }
      1 + FirstOversized(steps[1..])
  }

  /** At every release of the lock producers find a buffer, and the next or a full one
      waits; the writer's two spares are back, empty, whenever it is at its loop head. */
  lemma RotationOwnership(steps: seq<Step>)
    requires LegalRun(START, steps) && forall i :: 0 <= i < |steps| ==> Fits(steps[i])
    ensures var s := Run(START, steps);
            && s.current.Some? && (s.next.Some? || s.buffers != [])
            && (s.pc == AtHead ==> s.new1 == Some([]) && s.new2 == Some([]) && s.toWrite == [])
            && (s.next.Some? ==> s.next == Some([]))
  {
    RunKeeps(START, steps);
  }

  /** An append goes to the current buffer as long as that stays shorter than 4096 bytes;
      otherwise the buffer joins the full ones, last and unchanged, the message starts an
      empty one, and the spare is used up. Nothing of the writer's changes. */
  lemma RotatesExactly(s: Log, msg: Msg)
    requires Rotating(s) && !s.crashed && |msg| <= BUFFER_SIZE
    ensures var d, b := Next(s, Append(msg)), s.current.value;
            && d.appended == s.appended + [msg]
            && d == if |Bytes(b)| + |msg| < 4096 then s.(current := Some(b + [msg]), appended := d.appended)
                    else s.(buffers := s.buffers + [b], current := Some([msg]), next := None, appended := d.appended)
  {
    assert Bytes([]) == [] && [] + [msg] == [msg];
  }

  /** Conservation with bounded loss: the batches taken, the full buffers and the current
      one hold every message in order; and the file is, batch by batch, the count of the
      buffers discarded if there were more than two, then the whole messages of the first
      two. */
  lemma LogConservation(steps: seq<Step>)
    requires LegalRun(START, steps) && forall i :: 0 <= i < |steps| ==> Fits(steps[i])
    ensures var s := Run(START, steps);
            && s.current.Some?
            && Taken(s.batches) + Flatten(s.buffers) + s.current.value == s.appended
            && (s.pc != Swapped ==> s.file == FileOf(s.batches))
  {
    RunKeeps(START, steps);
  }

  // ------------------------------------------------------------------ loss

  function FileBytes(file: seq<Chunk>): seq<byte> {
    if file == [] then []
    else
      var last := file[|file| - 1];
      FileBytes(file[..|file| - 1]) + if last.Bulk? then last.bytes else []
  }

  lemma FileBytesSnoc(file: seq<Chunk>, c: Chunk)
    ensures FileBytes(file + [c]) == FileBytes(file) + if c.Bulk? then c.bytes else []
  {
    assert (file + [c])[..|file|] == file;
  }

  lemma WrittenBytes(file: seq<Chunk>, batch: seq<Buf>)
    ensures FileBytes(file + Written1(batch)) == FileBytes(file) + Bytes(Flatten(Kept(batch)))
  {
    var note := if |batch| > 2 then [Dropped(|batch| - 2)] else [];
    var bulk := Bulk(Bytes(Flatten(Kept(batch))));
    assert file + Written1(batch) == file + note + [bulk];
    FileBytesSnoc(file + note, bulk);
    if note != [] {
      FileBytesSnoc(file, note[0]);
    } else {
      assert file + note == file;
    }
  }

  lemma {:induction false} BytesConcat(a: Buf, b: Buf)
    ensures Bytes(a + b) == Bytes(a) + Bytes(b)
  {
    if b == [] {
      assert a + b == a;
    } else {
      assert (a + b)[..|a + b| - 1] == a + b[..|b| - 1];
      BytesConcat(a, b[..|b| - 1]);
    }
  }

  lemma {:induction false} FlattenConcat(a: seq<Buf>, b: seq<Buf>)
    ensures Flatten(a + b) == Flatten(a) + Flatten(b)
  {
    if b == [] {
      assert a + b == a;
    } else {
      assert (a + b)[..|a + b| - 1] == a + b[..|b| - 1];
      FlattenConcat(a, b[..|b| - 1]);
    }
  }

  // The bytes of one buffer of a batch, none if it has no such buffer.
  function BytesAt(batch: seq<Buf>, i: nat): seq<byte> { if i < |batch| then Bytes(batch[i]) else [] }

  lemma KeptInOrder(batch: seq<Buf>)
    ensures Bytes(Flatten(Kept(batch))) == BytesAt(batch, 0) + BytesAt(batch, 1)
  {
    var kept := Kept(batch);
    if |batch| == 1 {
      assert kept == [batch[0]];
      FlattenOne(batch[0]);
    } else if |batch| >= 2 {
      assert kept == [batch[0]] + [batch[1]];
      FlattenConcat([batch[0]], [batch[1]]);
      FlattenOne(batch[0]);
      FlattenOne(batch[1]);
      BytesConcat(batch[0], batch[1]);
    }
  }

  /** What one batch puts into the file: the count of the buffers from the third on, if there
      are any, and in one write the bytes of the first buffer and then of the second. */
  lemma WrittenExactly(batch: seq<Buf>)
    ensures var bulk := Bulk(BytesAt(batch, 0) + BytesAt(batch, 1));
            Written1(batch) == if |batch| <= 2 then [bulk] else [Dropped(|batch| - 2), bulk]
  {
    KeptInOrder(batch);
    var bulk := Bulk(BytesAt(batch, 0) + BytesAt(batch, 1));
    assert bulk == Bulk(Bytes(Flatten(Kept(batch))));
    if |batch| > 2 { assert [Dropped(|batch| - 2)] + [bulk] == [Dropped(|batch| - 2), bulk]; }
  }

  lemma FlattenOne(b: Buf)
    ensures Flatten([b]) == b
  {
    assert [b][..0] == [] && Flatten([b]) == [] + b;
  }

  function KeptBytes(batches: seq<seq<Buf>>): seq<byte> {
    if batches == [] then []
    else
      var last := batches[|batches| - 1];
      KeptBytes(batches[..|batches| - 1]) + (BytesAt(last, 0) + BytesAt(last, 1))
  }

  /** The bytes of the file are those of the first two buffers of every batch, in order. */
  lemma {:induction false} FileIsExact(batches: seq<seq<Buf>>)
    ensures FileBytes(FileOf(batches)) == KeptBytes(batches)
  {
    if batches != [] {
      hide Written1, BytesAt, FileBytes, Kept, Flatten, Bytes;
      var before, last := batches[..|batches| - 1], batches[|batches| - 1];
      FileIsExact(before);
      WrittenBytes(FileOf(before), last);
      KeptInOrder(last);
    }
  }

  function LostBytes(batches: seq<seq<Buf>>): nat {
    if batches == [] then 0
    else
      var last := batches[|batches| - 1];
      LostBytes(batches[..|batches| - 1]) + if |last| > 2 then |Bytes(Flatten(last[2..]))| else 0
  }

  /** Exactly the messages of the third and later buffers of a batch are lost: what the
      file holds and what was discarded make up the length of all that was taken. */
  lemma {:induction false} LossIsExact(batches: seq<seq<Buf>>)
    ensures |FileBytes(FileOf(batches))| + LostBytes(batches) == |Bytes(Taken(batches))|
  {
    if batches != [] {
      var before, last := batches[..|batches| - 1], batches[|batches| - 1];
      LossIsExact(before);
      WrittenBytes(FileOf(before), last);
      BytesConcat(Taken(before), Flatten(last));
      if |last| > 2 {
        assert last == last[..2] + last[2..];
        FlattenConcat(last[..2], last[2..]);
        BytesConcat(Flatten(last[..2]), Flatten(last[2..]));
      }
    }
  }

  /** With at most two buffers in every batch the file holds all that was taken. */
  lemma {:induction false} NothingLost(batches: seq<seq<Buf>>)
    requires forall i :: 0 <= i < |batches| ==> |batches[i]| <= 2
    ensures FileBytes(FileOf(batches)) == Bytes(Taken(batches))
  {
    if batches != [] {
      var before, last := batches[..|batches| - 1], batches[|batches| - 1];
      NothingLost(before);
      WrittenBytes(FileOf(before), last);
      BytesConcat(Taken(before), Flatten(last));
    }
  }

  // ------------------------------------------------- what the note counts

  /** The note on a batch counts the messages discarded. */
  predicate NoteExact(batch: seq<Buf>) {
    |batch| > 2 ==> Written1(batch)[0] == Dropped(|Flatten(batch[2..])|)
  }

  predicate NoneEmpty(bs: seq<Buf>) { forall i :: 0 <= i < |bs| ==> bs[i] != [] }

  predicate AllSingle(bs: seq<Buf>) { forall i :: 0 <= i < |bs| ==> |bs[i]| == 1 }

  predicate SingleOrEmpty(b: Buf, k: nat) { |b| <= 1 && (|b| == 1 ==> k <= |b[0]|) }

  lemma {:induction false} FlattenAtLeast(bs: seq<Buf>)
    requires NoneEmpty(bs)
    ensures |bs| <= |Flatten(bs)| && (AllSingle(bs) ==> |Flatten(bs)| == |bs|)
  {
    if bs != [] {
      FlattenAtLeast(bs[..|bs| - 1]);
    }
  }

  predicate Sized(step: Step, k: nat) { step.Append? ==> k <= |step.msg| <= BUFFER_SIZE }

  /** Only the first buffer of a batch can be empty: the current one is empty only at the
      start and after a swap, when no full buffer waits. */
  predicate Packed(s: Log) {
    && s.current.Some? && (s.current.value == [] ==> s.buffers == [])
    && (s.buffers != [] ==> NoneEmpty(s.buffers[1..]))
    && forall i :: 0 <= i < |s.batches| ==> s.batches[i] != [] && NoneEmpty(s.batches[i][1..])
  }

  // With messages of half a buffer or more, no buffer holds two.
  predicate Lone(s: Log, k: nat) {
    && s.current.Some? && SingleOrEmpty(s.current.value, k)
    && (forall i :: 0 <= i < |s.buffers| ==> SingleOrEmpty(s.buffers[i], k))
    && forall i, j :: 0 <= i < |s.batches| && 0 <= j < |s.batches[i]| ==> SingleOrEmpty(s.batches[i][j], k)
  }

  lemma TailSnoc(bs: seq<Buf>, b: Buf)
    requires bs != [] ==> NoneEmpty(bs[1..]) && b != []
    ensures NoneEmpty((bs + [b])[1..])
  {
    if bs != [] {
      assert (bs + [b])[1..] == bs[1..] + [b];
    } else {
      assert (bs + [b])[1..] == [];
    }
  }

  lemma AppendKeepsPacked(s: Log, msg: Msg)
    requires Rotating(s) && Packed(s) && !s.crashed && |msg| <= BUFFER_SIZE
    ensures Packed(AfterAppend(s, msg))
  {
    hide Bytes, NoneEmpty;
    NextKeepsRotating(s, Append(msg));
    TailSnoc(s.buffers, s.current.value);
  }

  lemma SwapKeepsPacked(s: Log)
    requires Rotating(s) && Packed(s) && !s.crashed && s.pc == AtHead
    ensures Packed(AfterSwap(s))
  {
    hide Bytes, NoneEmpty;
    TailSnoc(s.buffers, s.current.value);
  }

  lemma NextKeepsPacked(s: Log, step: Step)
    requires Rotating(s) && Packed(s) && Enabled(s, step) && Fits(step)
    ensures Packed(Next(s, step))
  {
    hide Rotating, NoneEmpty, Bytes, AfterAppend, AfterSwap;
    match step
    case Append(msg) => AppendKeepsPacked(s, msg);
    case Swap => SwapKeepsPacked(s);
    case _ =>
  }

  lemma NextKeepsLone(s: Log, step: Step, k: nat)
    requires Rotating(s) && Lone(s, k) && Enabled(s, step) && Sized(step, k) && 2048 <= k
    ensures Lone(Next(s, step), k)
  {
    NextKeepsRotating(s, step);
    if step.Append? {
      var b := s.current.value;
      if |b| == 1 {
        assert b == [] + [b[0]];
        BytesSnoc([], b[0]);
      }
    }
  }

  lemma {:induction false} RunKeepsPacked(s: Log, steps: seq<Step>)
    requires Rotating(s) && Packed(s) && !s.crashed && LegalRun(s, steps)
    requires forall i :: 0 <= i < |steps| ==> Fits(steps[i])
    ensures Packed(Run(s, steps))
    decreases |steps|
  {
    if steps != [] {
      NextKeepsRotating(s, steps[0]);
      NextKeepsPacked(s, steps[0]);
      RunKeepsPacked(Next(s, steps[0]), steps[1..]);
    }
  }

  lemma {:induction false} RunKeepsLone(s: Log, steps: seq<Step>, k: nat)
    requires Rotating(s) && Lone(s, k) && !s.crashed && LegalRun(s, steps) && 2048 <= k
    requires forall i :: 0 <= i < |steps| ==> Sized(steps[i], k)
    ensures Lone(Run(s, steps), k)
    decreases |steps|
  {
    if steps != [] {
      NextKeepsRotating(s, steps[0]);
      NextKeepsLone(s, steps[0], k);
      RunKeepsLone(Next(s, steps[0]), steps[1..], k);
    }
  }

  /** The note never counts more than the messages lost: no discarded buffer is empty. */
  lemma NoteNeverOverstates(steps: seq<Step>)
    requires LegalRun(START, steps) && forall i :: 0 <= i < |steps| ==> Fits(steps[i])
    ensures forall batch :: batch in Run(START, steps).batches && |batch| > 2 ==> |batch| - 2 <= |Flatten(batch[2..])|
  {
    RunKeepsPacked(START, steps);
    forall batch | batch in Run(START, steps).batches && |batch| > 2 ensures |batch| - 2 <= |Flatten(batch[2..])| {
      assert batch[2..] == batch[1..][1..];
      FlattenAtLeast(batch[2..]);
    }
  }

  /** In every run of messages of at least `k` bytes. */
  ghost predicate NotesExact(k: nat) {
    forall steps :: LegalRun(START, steps) && (forall i :: 0 <= i < |steps| ==> Sized(steps[i], k)) ==>
      forall batch :: batch in Run(START, steps).batches ==> NoteExact(batch)
  }

  lemma LoneNotes(k: nat, steps: seq<Step>, batch: seq<Buf>)
    requires 2048 <= k && LegalRun(START, steps) && forall i :: 0 <= i < |steps| ==> Sized(steps[i], k)
    requires batch in Run(START, steps).batches
    ensures NoteExact(batch)
  {
    RunKeepsPacked(START, steps);
    RunKeepsLone(START, steps, k);
    if |batch| > 2 {
      var rest := batch[2..];
      assert rest == batch[1..][1..];
      assert AllSingle(rest);
      FlattenAtLeast(rest);
    }
  }

  /** "Dropped n logs" is exact in every run exactly when no message is shorter than half
      a buffer; otherwise it counts buffers that may hold several messages. */
  lemma NoteExactExactly(k: nat)
    ensures NotesExact(k) <==> 2048 <= k
  {
    if 2048 <= k {
      forall steps, batch | LegalRun(START, steps) && (forall i :: 0 <= i < |steps| ==> Sized(steps[i], k))
                            && batch in Run(START, steps).batches
        ensures NoteExact(batch)
      {
        LoneNotes(k, steps, batch);
      }
    } else {
      var m := seq(2047, i => 0 as byte);
      DropCountsBuffers(m);
      var steps :| LegalRun(START, steps) && (forall i :: 0 <= i < |steps| ==> Sized(steps[i], |m|))
                   && Run(START, steps).batches == [ThreeFull(m)];
      assert forall i :: 0 <= i < |steps| ==> Sized(steps[i], k);
      assert ThreeFull(m) in Run(START, steps).batches;
    }
  }

  // Two such messages fit a buffer, and a third does not.
  predicate TwoFit(m: Msg) { 1366 <= |m| < 2048 }

  function Many(m: Msg, n: nat): seq<Step> { seq(n, i => Append(m)) }

  function AfterPairs(m: Msg, pairs: nat): Log
    requires 1 <= pairs <= 3
  {
    START.(buffers := seq(pairs - 1, i => [m, m]), next := if pairs == 1 then Some([]) else None,
           current := Some([m, m]), appended := seq(2 * pairs, i => m))
  }

  // Two of them into an empty buffer or behind a full one.
  lemma TwoMore(s: Log, m: Msg, steps: seq<Step>)
    requires TwoFit(m) && !s.crashed && (s.current == Some([]) || s.current == Some([m, m]))
    requires s.next == None || s.next == Some([])
    requires LegalRun(START, steps) && Run(START, steps) == s
    ensures var more := steps + [Append(m)] + [Append(m)];
            && LegalRun(START, more)
            && Run(START, more) == s.(current := Some([m, m]), appended := s.appended + [m, m],
                 buffers := if s.current == Some([]) then s.buffers else s.buffers + [[m, m]],
                 next := if s.current == Some([]) then s.next else None)
  {
    BytesSnoc([], m);
    BytesSnoc([m], m);
    assert [] + [m] == [m] && [m] + [m] == [m, m];
    assert s.appended + [m] + [m] == s.appended + [m, m];
    RunOneMore(START, steps, Append(m));
    RunOneMore(START, steps + [Append(m)], Append(m));
  }

  // Six of them fill three buffers.
  lemma ThreeFilled(m: Msg)
    requires TwoFit(m)
    ensures LegalRun(START, Many(m, 6)) && Run(START, Many(m, 6)) == AfterPairs(m, 3)
  {
    assert LegalRun(START, []) && Run(START, []) == START;
    TwoMore(START, m, []);
    assert [] + [Append(m)] + [Append(m)] == Many(m, 2);
    assert Run(START, Many(m, 2)) == AfterPairs(m, 1);
    TwoMore(AfterPairs(m, 1), m, Many(m, 2));
    assert Many(m, 2) + [Append(m)] + [Append(m)] == Many(m, 4);
    assert Run(START, Many(m, 4)) == AfterPairs(m, 2);
    TwoMore(AfterPairs(m, 2), m, Many(m, 4));
    assert Many(m, 4) + [Append(m)] + [Append(m)] == Many(m, 6);
    assert Run(START, Many(m, 6)) == AfterPairs(m, 3);
  }

  function ThreeFull(m: Msg): seq<Buf> { [[m, m], [m, m], [m, m]] }

  // The round that takes them keeps two.
  function SixThenRound(m: Msg): seq<Step> { Many(m, 6) + [Swap] + [Write] }

  lemma TwoLostOneReported(m: Msg)
    ensures Written1(ThreeFull(m))[0] == Dropped(1) && |Flatten(ThreeFull(m)[2..])| == 2
  {
    FlattenSnoc([], [m, m]);
    assert [] + [[m, m]] == [[m, m]] && ThreeFull(m)[2..] == [[m, m]] && [] + [m, m] == [m, m];
  }

  /** Six messages that fit two to a buffer, between two rounds, lose two and report one. */
  lemma DropCountsBuffers(m: Msg)
    requires TwoFit(m)
    ensures exists steps :: LegalRun(START, steps) && (forall i :: 0 <= i < |steps| ==> Sized(steps[i], |m|))
              && Run(START, steps).file == Written1(ThreeFull(m)) && Run(START, steps).batches == [ThreeFull(m)]
    ensures Written1(ThreeFull(m))[0] == Dropped(1) && |Flatten(ThreeFull(m)[2..])| == 2
  {
    ThreeFilled(m);
    TwoLostOneReported(m);
    var s := AfterPairs(m, 3);
    assert s.buffers + [[m, m]] == ThreeFull(m);
    RunOneMore(START, Many(m, 6), Swap);
    assert Next(s, Swap).batches == [ThreeFull(m)];
    RunOneMore(START, Many(m, 6) + [Swap], Write);
    assert [] + Written1(ThreeFull(m)) == Written1(ThreeFull(m));
    var steps := SixThenRound(m);
    assert forall i :: 0 <= i < |steps| ==> Sized(steps[i], |m|);
  }
}
