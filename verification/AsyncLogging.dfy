/**
  The classes of include/base/LogBuffer.h and include/base/AsyncLog2.h, proved against
  AsyncLoggingModel.
 */
module AsyncLogging {
  import opened Wrappers
  import opened M = AsyncLoggingModel

  class LogBuffer {
    const data: array<byte>
    var cur: nat

    ghost predicate Valid()
      reads this
    {
      data.Length == BUFFER_SIZE && cur <= BUFFER_SIZE
    }

    ghost function Contents(): seq<byte>
      requires Valid()
      reads this, data
    {
      data[..cur]
    }

    constructor ()
      ensures Valid() && Contents() == [] && fresh(data)
    {
      data := new byte[BUFFER_SIZE](i => 0);
      cur := 0;
    }

    method Avail() returns (n: nat)
      requires Valid()
      ensures n == BUFFER_SIZE - |Contents()|
    {
      n := BUFFER_SIZE - cur;
    }

    method CopyIn(msg: Msg)
      requires data.Length == BUFFER_SIZE && cur + |msg| <= BUFFER_SIZE
      modifies data
      ensures data[..cur] == old(data[..cur]) && data[cur..cur + |msg|] == msg
    {
      ghost var before := data[..];
      var i := 0;
      while i < |msg|
        invariant 0 <= i <= |msg|
        invariant forall k :: 0 <= k < cur ==> data[k] == before[k]
        invariant forall k :: 0 <= k < i ==> data[cur + k] == msg[k]
      {
        data[cur + i] := msg[i];
        i := i + 1;
      }
    }

    /** memcpy at the cursor. It runs past the end exactly when the message does not fit,
        and what memory then holds is undefined; the run is not followed further. */
    method Append(msg: Msg) returns (overrun: bool)
      requires Valid()
      modifies this, data
      ensures Valid() && (overrun <==> BUFFER_SIZE < |old(Contents())| + |msg|)
      ensures Contents() == if overrun then old(Contents()) else old(Contents()) + msg
    {
      overrun := BUFFER_SIZE - cur < |msg|;
      if overrun { return; }
      CopyIn(msg);
      assert data[..cur + |msg|] == data[..cur] + data[cur..cur + |msg|];
      cur := cur + |msg|;
    }

    method Reset()
      requires Valid()
      modifies this, data
      ensures Valid() && Contents() == []
      ensures forall k :: 0 <= k < data.Length ==> data[k] == 0
    {
      cur := 0;
      forall k | 0 <= k < data.Length {
        data[k] := 0;
      }
    }
  }

  // ---------------------------------------------- the messages in the buffers

  /** Which messages every buffer object holds. */
  type Ledger = map<LogBuffer, Buf>

  function MsgsIn(m: Ledger, b: LogBuffer?): Option<Buf>
    requires b != null ==> b in m
  {
    if b == null then None else Some(m[b])
  }

  predicate Known(m: Ledger, bs: seq<LogBuffer>) { forall i :: 0 <= i < |bs| ==> bs[i] in m }

  function MsgsOf(m: Ledger, bs: seq<LogBuffer>): (r: seq<Buf>)
    requires Known(m, bs)
  {
    seq(|bs|, i requires 0 <= i < |bs| => m[bs[i]])
  }

  lemma MsgsSame(m: Ledger, bs: seq<LogBuffer>, c: LogBuffer, x: Buf)
    requires Known(m, bs) && c !in bs
    ensures Known(m[c := x], bs) && MsgsOf(m[c := x], bs) == MsgsOf(m, bs)
  {
  }

  lemma MsgsSnoc(m: Ledger, bs: seq<LogBuffer>, c: LogBuffer)
    requires Known(m, bs) && c in m
    ensures Known(m, bs + [c]) && MsgsOf(m, bs + [c]) == MsgsOf(m, bs) + [m[c]]
  {
  }

  predicate Once(bs: seq<LogBuffer>) { forall i, j :: 0 <= i < j < |bs| ==> bs[i] != bs[j] }

  /** Who owns which buffer: the unique_ptrs and vectors of Asynclogging and threadFunc. */
  datatype Owners = Owners(current: LogBuffer?, next: LogBuffer?, buffers: seq<LogBuffer>,
                           new1: LogBuffer?, new2: LogBuffer?, toWrite: seq<LogBuffer>)
  {
    /** A pointer and the buffers it must differ from. */
    predicate Alone(b: LogBuffer?) { b != null ==> b !in buffers && b !in toWrite }

    predicate Differ(a: LogBuffer?, b: LogBuffer?) { a != null ==> a != b }

    /** No buffer has two owners. */
    predicate Unique() {
      && Once(buffers) && Once(toWrite) && (forall b :: b in buffers ==> b !in toWrite)
      && Alone(current) && Alone(next) && Alone(new1) && Alone(new2)
      && Differ(current, next) && Differ(current, new1) && Differ(current, new2)
      && Differ(next, new1) && Differ(next, new2) && Differ(new1, new2)
    }

    predicate KnownTo(m: Ledger) {
      && Known(m, buffers) && Known(m, toWrite)
      && (current != null ==> current in m) && (next != null ==> next in m)
      && (new1 != null ==> new1 in m) && (new2 != null ==> new2 in m)
    }

    /** The log with the owners' buffers in it. */
    function In(m: Ledger, log: Log): Log
      requires KnownTo(m)
    {
      log.(current := MsgsIn(m, current), next := MsgsIn(m, next), buffers := MsgsOf(m, buffers),
           new1 := MsgsIn(m, new1), new2 := MsgsIn(m, new2), toWrite := MsgsOf(m, toWrite))
    }

    // ------------------------------------------------------ moves of pointers

    function Rotated(empty: LogBuffer): Owners
      requires current != null
    {
      this.(buffers := buffers + [current], current := if next != null then next else empty, next := null)
    }

    /** What is moved keeps one owner, and the log sees the move. */
    lemma RotatedSeen(m: Ledger, log: Log, empty: LogBuffer)
      requires Unique() && KnownTo(m) && current != null && (next == null ==> empty !in m)
      ensures var r := if next == null then m[empty := []] else m;
              var o := Rotated(empty);
              && o.Unique() && o.KnownTo(r)
              && o.In(r, log) == In(m, log).(buffers := In(m, log).buffers + [m[current]], next := None,
                                             current := Some(r[o.current]))
              && r[o.current] == if next == null then [] else m[next]
    {
      MsgsSnoc(m, buffers, current);
      if next == null {
        assert forall b :: b in buffers || b in toWrite ==> b in m;
        MsgsSame(m, buffers + [current], empty, []);
        MsgsSame(m, toWrite, empty, []);
      }
    }

    function Swapped(): Owners
      requires current != null
    {
      Owners(new1, if next == null then new2 else next, toWrite, null, if next == null then null else new2, buffers + [current])
    }

    lemma SwappedSeen(m: Ledger, log: Log)
      requires Unique() && KnownTo(m) && current != null
      ensures Swapped().Unique() && Swapped().KnownTo(m)
      ensures var l := In(m, log);
              Swapped().In(m, log) == l.(
                current := l.new1, new1 := None, buffers := l.toWrite, toWrite := l.buffers + [m[current]],
                next := if l.next.None? then l.new2 else l.next, new2 := if l.next.None? then None else l.new2)
    {
      MsgsSnoc(m, buffers, current);
    }

    lemma CutSeen(m: Ledger, log: Log, n: nat)
      requires Unique() && KnownTo(m) && n <= |toWrite|
      ensures var o := this.(toWrite := toWrite[..n]);
              && o.Unique() && o.KnownTo(m)
              && o.In(m, log) == In(m, log).(toWrite := In(m, log).toWrite[..n])
    {
    }

    // The last buffer of the batch becomes the first or second spare.
    function WithSpare(first: bool, b: LogBuffer): Owners
      requires toWrite != []
    {
      var rest := toWrite[..|toWrite| - 1];
      if first then this.(new1 := b, toWrite := rest) else this.(new2 := b, toWrite := rest)
    }

    lemma SpareSeen(m: Ledger, log: Log, first: bool)
      requires Unique() && KnownTo(m) && toWrite != [] && (if first then new1 else new2) == null
      ensures var last := toWrite[|toWrite| - 1];
              var o, r, l := WithSpare(first, last), m[last := []], In(m, log);
              && last in m && r.Keys == m.Keys && o.Unique() && o.KnownTo(r)
              && o.In(r, log) == if first then l.(new1 := Some([]), toWrite := l.toWrite[..|toWrite| - 1])
                                 else l.(new2 := Some([]), toWrite := l.toWrite[..|toWrite| - 1])
    {
      var last, rest := toWrite[|toWrite| - 1], toWrite[..|toWrite| - 1];
      assert last in toWrite && last !in rest;
      MsgsSame(m, buffers, last, []);
      MsgsSame(m, rest, last, []);
    }

    lemma AllKnown(m: Ledger)
      requires KnownTo(m)
      ensures (current != null ==> current in m) && (next != null ==> next in m)
    {
    }

    lemma CurrentSeen(m: Ledger, log: Log)
      requires KnownTo(m)
      ensures In(m, log).current == MsgsIn(m, current) && In(m, log).crashed == log.crashed
    {
    }

    lemma FrontSeen(m: Ledger, log: Log)
      requires KnownTo(m)
      ensures In(m, log).current == MsgsIn(m, current) && In(m, log).next == MsgsIn(m, next) && In(m, log).crashed == log.crashed
      ensures (current != null ==> current in m) && (next != null ==> next in m)
    {
    }

    lemma RestSeen(m: Ledger, log: Log, pc: Pc, batches: seq<seq<Buf>>)
      requires KnownTo(m)
      ensures In(m, log.(pc := pc, batches := batches)) == In(m, log).(pc := pc, batches := batches)
      ensures In(m, log).batches == log.batches && In(m, log).pc == log.pc
    {
    }

    lemma BatchSeen(m: Ledger, log: Log)
      requires KnownTo(m)
      ensures Known(m, toWrite) && In(m, log).toWrite == MsgsOf(m, toWrite)
    {
    }

    lemma FileSeen(m: Ledger, log: Log, chunks: seq<Chunk>)
      requires KnownTo(m)
      ensures In(m, log.(file := log.file + chunks, pc := Written))
           == In(m, log).(file := log.file + chunks, pc := Written)
      ensures In(m, log).file == log.file
    {
    }

    lemma SparesSeen(m: Ledger, log: Log)
      requires KnownTo(m)
      ensures In(m, log).new1 == MsgsIn(m, new1) && In(m, log).new2 == MsgsIn(m, new2)
      ensures |In(m, log).toWrite| == |toWrite|
    {
    }

    /** A message more in the current buffer is seen nowhere else. */
    lemma OneMore(m: Ledger, log: Log, msg: Msg)
      requires Unique() && KnownTo(m) && current != null
      ensures var r := m[current := m[current] + [msg]];
              && r.Keys == m.Keys && KnownTo(r)
              && In(r, log.(appended := log.appended + [msg]))
                 == In(m, log).(current := Some(m[current] + [msg]), appended := log.appended + [msg])
    {
      MsgsSame(m, buffers, current, m[current] + [msg]);
      MsgsSame(m, toWrite, current, m[current] + [msg]);
    }
  }

  lemma StartSeen(a: LogBuffer, b: LogBuffer, c: LogBuffer, d: LogBuffer, m: Ledger, log: Log)
    requires a != b && a != c && a != d && b != c && b != d && c != d
    requires m == map[][a := []][b := []][c := []][d := []] && log.buffers == log.toWrite == []
    ensures var o := Owners(a, b, [], c, d, []);
            && o.Unique() && o.KnownTo(m)
            && o.In(m, log) == log.(current := Some([]), next := Some([]), new1 := Some([]), new2 := Some([]))
  {
  }

  /** What producers append before the locked part of a turn, while it writes, and while it
      recycles. */
  datatype Round = Round(before: seq<Msg>, during: seq<Msg>, after: seq<Msg>) {
    function Messages(): seq<Msg> { before + during + after }

    function Steps(): seq<Step> {
      (Appends(before) + [Swap] + Appends(during)) + ([Write] + Appends(after) + [Recycle])
    }
  }

  function Appends(msgs: seq<Msg>): seq<Step> {
    if msgs == [] then [] else Appends(msgs[..|msgs| - 1]) + [Step.Append(msgs[|msgs| - 1])]
  }

  function AllMessages(rounds: seq<Round>): seq<Msg> {
    if rounds == [] then [] else AllMessages(rounds[..|rounds| - 1]) + rounds[|rounds| - 1].Messages()
  }

  function AllSteps(rounds: seq<Round>): seq<Step> {
    if rounds == [] then [] else AllSteps(rounds[..|rounds| - 1]) + rounds[|rounds| - 1].Steps()
  }

  predicate AllFit(msgs: seq<Msg>) { forall i :: 0 <= i < |msgs| ==> |msgs[i]| <= BUFFER_SIZE }

  predicate RoundFits(round: Round) { AllFit(round.before) && AllFit(round.during) && AllFit(round.after) }

  class Asynclogging {
    var currentBuffer: LogBuffer?
    var nextBuffer: LogBuffer?
    var buffers: seq<LogBuffer>
    var newBuffer1: LogBuffer?         // threadFunc
    var newBuffer2: LogBuffer?         // threadFunc
    var buffersToWrite: seq<LogBuffer> // threadFunc
    var fout: seq<Chunk>
    ghost var ledger: Ledger
    ghost var crashed: bool            // a message was copied past the end of its buffer
    ghost var pc: Pc
    ghost var appended: seq<Msg>
    ghost var batches: seq<seq<Buf>>

    ghost function Ownership(): Owners
      reads this
    {
      Owners(currentBuffer, nextBuffer, buffers, newBuffer1, newBuffer2, buffersToWrite)
    }

    ghost function Memory(): set<object>
      reads this`ledger
    {
      (set b: LogBuffer | b in ledger.Keys :: b as object) + (set b: LogBuffer | b in ledger.Keys :: b.data as object)
    }

    /** No two buffers share bytes, and each holds the bytes of its messages. */
    ghost predicate Sound()
      reads this`ledger, Memory()
    {
      && (forall b: LogBuffer, c: LogBuffer :: b in ledger && c in ledger && b != c ==> b.data != c.data)
      && (forall b: LogBuffer :: b in ledger ==> b.Valid() && b.Contents() == Bytes(ledger[b]))
    }

    ghost predicate Valid()
      reads this, Memory()
    {
      Sound() && Ownership().Unique() && Ownership().KnownTo(ledger)
    }

    ghost function View(): Log
      requires Ownership().KnownTo(ledger)
      reads this
    {
      Ownership().In(ledger, Rest())
    }

    // The log but for the buffers.
    ghost function Rest(): Log
      reads this
    {
      Log(None, None, [], None, None, [], pc, fout, crashed, appended, batches)
    }

    constructor ()
      ensures Valid() && View() == START && fresh(Memory())
    {
      currentBuffer, nextBuffer, buffers := null, null, [];
      newBuffer1, newBuffer2, buffersToWrite := null, null, [];
      fout, crashed, pc, appended, batches := [], false, AtHead, [], [];
      ledger := map[];
      new;
      MakeBuffers();
    }

    method MakeBuffers()
      requires Sound() && ledger == map[] && buffers == buffersToWrite == []
      modifies this`currentBuffer, this`nextBuffer, this`newBuffer1, this`newBuffer2, this`ledger
      ensures Valid() && fresh(Memory())
      ensures View() == Rest().(current := Some([]), next := Some([]), new1 := Some([]), new2 := Some([]))
    {
      hide Sound, Owners.Unique, Owners.KnownTo, Owners.In;
      var a, b := TwoBuffers();
      var c, d := TwoBuffers();
      StartSeen(a, b, c, d, ledger, Rest());
      PlaceBuffers(a, b, c, d);
    }

    method TwoBuffers() returns (a: LogBuffer, b: LogBuffer)
      requires Sound()
      modifies this`ledger
      ensures Sound() && fresh(a) && fresh(b) && a != b && fresh(a.data) && fresh(b.data)
      ensures a !in old(ledger) && b !in old(ledger) && ledger == old(ledger)[a := []][b := []]
    {
      hide Sound;
      a := NewBuffer();
      b := NewBuffer();
    }

    method PlaceBuffers(a: LogBuffer, b: LogBuffer, c: LogBuffer, d: LogBuffer)
      requires Sound()
      modifies this`currentBuffer, this`nextBuffer, this`newBuffer1, this`newBuffer2
      ensures Sound() && currentBuffer == a && nextBuffer == b && newBuffer1 == c && newBuffer2 == d
    {
      currentBuffer, nextBuffer := a, b;
      newBuffer1, newBuffer2 := c, d;
    }

    method AppendInto(b: LogBuffer, msg: Msg)
      requires Sound() && b in ledger && |Bytes(ledger[b])| + |msg| <= BUFFER_SIZE
      modifies this`ledger, this`appended, b, b.data
      ensures Sound() && ledger == old(ledger)[b := old(ledger[b]) + [msg]]
      ensures appended == old(appended) + [msg]
    {
      BytesSnoc(ledger[b], msg);
      var overrun := b.Append(msg);
      ledger := ledger[b := ledger[b] + [msg]];
      appended := appended + [msg];
    }

    method RoomIn(b: LogBuffer) returns (n: nat)
      requires Sound() && b in ledger
      ensures n == BUFFER_SIZE - |Bytes(ledger[b])|
    {
      n := b.Avail();
    }

    method CopyFitting(msg: Msg)
      requires Valid() && currentBuffer != null && |Bytes(ledger[currentBuffer])| + |msg| <= BUFFER_SIZE
      modifies this`appended, this`ledger, currentBuffer, currentBuffer.data
      ensures Valid() && Ownership() == old(Ownership()) && ledger.Keys == old(ledger.Keys)
      ensures View() == old(View()).(current := Some(old(ledger[currentBuffer]) + [msg]), appended := old(appended) + [msg])
    {
      hide Sound, Owners.Unique, Owners.KnownTo, Owners.In;
      Ownership().OneMore(ledger, Rest(), msg);
      assert currentBuffer in ledger by { Ownership().AllKnown(ledger); }
      AppendInto(currentBuffer, msg);
    }

    // The message goes to the current buffer, or past its end.
    method CopyToCurrent(msg: Msg)
      requires Valid() && currentBuffer != null
      modifies this`crashed, this`appended, this`ledger, currentBuffer, currentBuffer.data
      ensures Valid() && Ownership() == old(Ownership()) && ledger.Keys == old(ledger.Keys)
      ensures View() == AppendTo(old(View()), old(ledger[currentBuffer]), msg)
    {
      hide Owners.Unique;
      var room := RoomIn(currentBuffer);
      if room < |msg| {
        crashed := true;
      } else {
        CopyFitting(msg);
      }
    }

    method NewBuffer() returns (b: LogBuffer)
      requires Sound()
      modifies this`ledger
      ensures Sound() && fresh(b) && fresh(b.data) && b !in old(ledger) && ledger == old(ledger)[b := []]
    {
      b := new LogBuffer();
      ledger := ledger[b := []];
    }

    // The current buffer is full: the next takes its place, or a new one.
    method Rotate()
      requires Valid() && currentBuffer != null
      modifies this`currentBuffer, this`nextBuffer, this`buffers, this`ledger
      ensures Valid() && currentBuffer != null && fresh(Memory() - old(Memory()))
      ensures View() == old(View()).(
        buffers := old(View()).buffers + [old(ledger[currentBuffer])], next := None, current := Some(ledger[currentBuffer]))
      ensures ledger[currentBuffer] == if old(nextBuffer) == null then [] else old(ledger[nextBuffer])
    {
      hide Sound, Owners.Unique, Owners.KnownTo, Owners.In;
      ghost var o, m := Ownership(), ledger;
      o.AllKnown(m);
      if nextBuffer != null {
        o.RotatedSeen(m, Rest(), nextBuffer);
        MoveNext(nextBuffer);
      } else {
        var b := NewBuffer();
        o.RotatedSeen(m, Rest(), b);
        MoveNext(b);
      }
    }

    // `b` becomes the current buffer.
    method MoveNext(b: LogBuffer)
      requires Sound() && currentBuffer != null
      modifies this`currentBuffer, this`nextBuffer, this`buffers
      ensures Sound() && Ownership() == old(Ownership()).(buffers := old(buffers) + [old(currentBuffer)], current := b, next := null)
    {
      buffers := buffers + [currentBuffer];
      currentBuffer, nextBuffer := b, null;
    }

    /** append, under the lock, for a message of any length: one longer than a buffer
        is copied past its end. */
    method Append(msg: Msg)
      requires Valid() && Rotating(View()) && !crashed
      modifies this, Memory()
      ensures Valid() && fresh(Memory() - old(Memory()))
      ensures View() == Next(old(View()), Step.Append(msg))
      ensures crashed <==> BUFFER_SIZE < |msg|
    {
      hide Sound, Owners.Unique, Owners.KnownTo, Owners.In;
      Ownership().FrontSeen(ledger, Rest());
      var avail := RoomIn(currentBuffer);
      if avail <= |msg| {
        Rotate();
        Ownership().FrontSeen(ledger, Rest());
      }
      CopyToCurrent(msg);
      Ownership().FrontSeen(ledger, Rest());
    }

    method SwapPointers(ghost batch: seq<Buf>)
      requires Sound() && currentBuffer != null
      modifies this`currentBuffer, this`nextBuffer, this`buffers, this`newBuffer1, this`newBuffer2, this`buffersToWrite,
               this`pc, this`batches
      ensures Sound() && Ownership() == old(Ownership()).Swapped()
      ensures pc == Swapped && batches == old(batches) + [batch]
    {
      buffers := buffers + [currentBuffer];
      currentBuffer, newBuffer1 := newBuffer1, null;
      buffersToWrite, buffers := buffers, buffersToWrite;
      if nextBuffer == null {
        nextBuffer, newBuffer2 := newBuffer2, null;
      }
      pc, batches := Swapped, batches + [batch];
    }

    /** The locked part of a round of threadFunc. */
    method SwapLocked()
      requires Valid() && Rotating(View()) && pc == AtHead && !crashed
      modifies this`currentBuffer, this`nextBuffer, this`buffers, this`newBuffer1, this`newBuffer2, this`buffersToWrite,
               this`pc, this`batches
      ensures Valid() && ledger == old(ledger) && View() == Next(old(View()), Swap)
    {
      hide Sound, Owners.Unique, Owners.KnownTo, Owners.In, Owners.Swapped;
      ghost var o, log := Ownership(), Rest();
      o.CurrentSeen(ledger, log);
      o.AllKnown(ledger);
      ghost var batch := View().buffers + [ledger[currentBuffer]];
      o.SwappedSeen(ledger, log);
      o.RestSeen(ledger, log, pc, batches);
      o.Swapped().RestSeen(ledger, log, Swapped, log.batches + [batch]);
      SwapPointers(batch);
    }

    // Everything the kept buffers hold, in order.
    method Collect() returns (bulk: seq<byte>)
      requires Sound() && Known(ledger, buffersToWrite)
      ensures Sound() && bulk == Bytes(Flatten(MsgsOf(ledger, buffersToWrite)))
    {
      bulk := [];
      ghost var all := MsgsOf(ledger, buffersToWrite);
      var i := 0;
      while i < |buffersToWrite|
        invariant 0 <= i <= |buffersToWrite|
        invariant bulk == Bytes(Flatten(all[..i]))
        modifies {}
      {
        var b := buffersToWrite[i];
        assert all[..i + 1] == all[..i] + [all[i]];
        FlattenSnoc(all[..i], all[i]);
        BytesConcat(Flatten(all[..i]), all[i]);
        bulk := bulk + b.data[..b.cur];
        i := i + 1;
      }
      assert all[..i] == all;
    }

    method Emit(chunks: seq<Chunk>)
      requires Sound()
      modifies this`fout, this`pc
      ensures Sound() && fout == old(fout) + chunks && pc == Written
    {
      fout := fout + chunks;
      pc := Written;
    }

    // Drops all buffers of the batch but `n`.
    method CutBatch(n: nat)
      requires Sound() && n <= |buffersToWrite|
      modifies this`buffersToWrite
      ensures Sound() && buffersToWrite == old(buffersToWrite)[..n]
    {
      buffersToWrite := buffersToWrite[..n];
    }

    // Keeps two buffers of the batch.
    method KeepTwo() returns (note: seq<Chunk>)
      requires Valid()
      modifies this`buffersToWrite
      ensures Valid() && View() == old(View()).(toWrite := Kept(old(View()).toWrite))
      ensures note == if |old(View()).toWrite| > 2 then [Dropped(|old(View()).toWrite| - 2)] else []
    {
      hide Sound, Owners.Unique, Owners.KnownTo, Owners.In;
      Ownership().BatchSeen(ledger, Rest());
      note := [];
      if |buffersToWrite| > 2 {
        note := [Dropped(|buffersToWrite| - 2)];
        Ownership().CutSeen(ledger, Rest(), 2);
        CutBatch(2);
      }
    }

    /** Notes what is discarded, keeps two buffers, and writes them in one go. */
    method WriteBatch()
      requires Valid() && pc == Swapped && !crashed
      modifies this`buffersToWrite, this`fout, this`pc
      ensures Valid() && ledger == old(ledger) && View() == Next(old(View()), Write)
    {
      hide Sound, Owners.Unique, Owners.KnownTo, Owners.In;
      Ownership().BatchSeen(ledger, Rest());
      var note := KeepTwo();
      Ownership().BatchSeen(ledger, Rest());
      var bulk := Collect();
      Ownership().FileSeen(ledger, Rest(), note + [Bulk(bulk)]);
      Emit(note + [Bulk(bulk)]);
    }

    method ResetIt(b: LogBuffer)
      requires Sound() && b in ledger
      modifies this`ledger, b, b.data
      ensures Sound() && ledger == old(ledger)[b := []]
    {
      b.Reset();
      ledger := ledger[b := []];
    }

    // The last buffer of the batch becomes a spare, emptied.
    method PopTo(first: bool) returns (b: LogBuffer)
      requires Sound() && buffersToWrite != [] && buffersToWrite[|buffersToWrite| - 1] in ledger
      modifies this`buffersToWrite, this`newBuffer1, this`newBuffer2, this`ledger
      modifies buffersToWrite[|buffersToWrite| - 1], buffersToWrite[|buffersToWrite| - 1].data
      ensures Sound() && b == old(buffersToWrite[|buffersToWrite| - 1]) && ledger == old(ledger)[b := []]
      ensures Ownership() == old(Ownership()).WithSpare(first, b)
    {
      b := buffersToWrite[|buffersToWrite| - 1];
      if first { newBuffer1 := b; } else { newBuffer2 := b; }
      buffersToWrite := buffersToWrite[..|buffersToWrite| - 1];
      ResetIt(b);
    }

    method Refill(first: bool)
      requires Valid() && buffersToWrite != [] && (if first then newBuffer1 else newBuffer2) == null
      modifies this`buffersToWrite, this`newBuffer1, this`newBuffer2, this`ledger, Memory()
      ensures Valid() && ledger.Keys == old(ledger.Keys)
      ensures var l, rest := old(View()), old(View()).toWrite[..|old(View()).toWrite| - 1];
              View() == if first then l.(new1 := Some([]), toWrite := rest) else l.(new2 := Some([]), toWrite := rest)
    {
      hide Sound, Owners.Unique, Owners.KnownTo, Owners.In, Owners.WithSpare;
      ghost var o, m := Ownership(), ledger;
      o.BatchSeen(m, Rest());
      o.SpareSeen(m, Rest(), first);
      var b := PopTo(first);
    }

    method DropBatch()
      requires Valid()
      modifies this`buffersToWrite, this`pc
      ensures Valid() && View() == old(View()).(toWrite := [], pc := AtHead)
    {
      hide Owners.Unique, Owners.KnownTo, Owners.In;
      ghost var o := Ownership();
      o.BatchSeen(ledger, Rest());
      o.CutSeen(ledger, Rest(), 0);
      o.(toWrite := []).RestSeen(ledger, Rest(), AtHead, batches);
      assert buffersToWrite[..0] == [];
      buffersToWrite := [];
      pc := AtHead;
    }

    /** Refills the spares from the batch, emptied, and drops the rest. */
    method RecycleBuffers()
      requires Valid() && pc == Written && !crashed
      modifies this, Memory()
      ensures Valid() && ledger.Keys == old(ledger.Keys) && View() == Next(old(View()), Recycle)
    {
      hide Sound, Owners.Unique, Owners.KnownTo, Owners.In;
      Ownership().SparesSeen(ledger, Rest());
      if newBuffer1 == null && |buffersToWrite| > 0 {
        Refill(true);
      }
      Ownership().SparesSeen(ledger, Rest());
      if newBuffer2 == null && |buffersToWrite| > 0 {
        Refill(false);
      }
      DropBatch();
    }

    // What producers append meanwhile.
    method AppendAll(msgs: seq<Msg>)
      requires Valid() && Rotating(View()) && !crashed && AllFit(msgs)
      modifies this, Memory()
      ensures Valid() && fresh(Memory() - old(Memory()))
      ensures Reaches(old(View()), Appends(msgs), View()) && Rotating(View()) && !crashed && pc == old(pc)
      ensures appended == old(appended) + msgs && batches == old(batches)
    {
      hide Sound, Owners.Unique, Owners.KnownTo, Next, Rotating;
      assert Reaches(View(), Appends(msgs[..0]), View());
      hide Reaches;
      var i := 0;
      while i < |msgs|
        invariant 0 <= i <= |msgs|
        invariant Valid() && fresh(Memory() - old(Memory()))
        invariant Reaches(old(View()), Appends(msgs[..i]), View()) && Rotating(View()) && !crashed && pc == old(pc)
        invariant appended == old(appended) + msgs[..i] && batches == old(batches)
      {
        ghost var mid := View();
        AppendLegal(mid, msgs[i]);
        Append(msgs[i]);
        ReachesFurther(old(View()), Appends(msgs[..i]), mid, [Step.Append(msgs[i])], View());
        assert msgs[..i + 1][..i] == msgs[..i] && msgs[..i + 1] == msgs[..i] + [msgs[i]];
        i := i + 1;
      }
      assert msgs[..i] == msgs;
    }

    lemma AppendLegal(s: Log, msg: Msg)
      requires Rotating(s) && !s.crashed && |msg| <= BUFFER_SIZE
      ensures var t := Next(s, Step.Append(msg));
              && Reaches(s, [Step.Append(msg)], t) && Rotating(t)
              && t.pc == s.pc && t.appended == s.appended + [msg] && t.batches == s.batches
    {
      NextKeepsRotating(s, Step.Append(msg));
      ReachesNext(s, Step.Append(msg));
    }

    lemma StepLegal(s: Log, step: Step)
      requires Rotating(s) && Enabled(s, step) && !step.Append?
      ensures var t := Next(s, step);
              && Reaches(s, [step], t) && Rotating(t) && !t.crashed && t.appended == s.appended
              && |t.batches| == |s.batches| + (if step.Swap? then 1 else 0)
    {
      NextKeepsRotating(s, step);
      ReachesNext(s, step);
    }

    // The turn up to its locked part, and what producers append before and after that.
    method TakeBatch(before: seq<Msg>, during: seq<Msg>)
      requires Valid() && Rotating(View()) && !crashed && pc == AtHead && AllFit(before) && AllFit(during)
      modifies this, Memory()
      ensures Valid() && fresh(Memory() - old(Memory()))
      ensures Reaches(old(View()), Appends(before) + [Swap] + Appends(during), View())
      ensures Rotating(View()) && !crashed && pc == Swapped
      ensures appended == old(appended) + before + during && |batches| == |old(batches)| + 1
    {
      hide Sound, Owners.Unique, Owners.KnownTo, Rotating, Reaches, Appends;
      AppendAll(before);
      ghost var mid := View();
      StepLegal(mid, Swap);
      SwapLocked();
      ghost var swapped := View();
      ReachesFurther(old(View()), Appends(before), mid, [Swap], swapped);
      AppendAll(during);
      ReachesFurther(old(View()), Appends(before) + [Swap], swapped, Appends(during), View());
    }

    // The rest of the turn, with what producers append in between.
    method FinishBatch(after: seq<Msg>)
      requires Valid() && Rotating(View()) && !crashed && pc == Swapped && AllFit(after)
      modifies this, Memory()
      ensures Valid() && fresh(Memory() - old(Memory()))
      ensures Reaches(old(View()), [Write] + Appends(after) + [Recycle], View())
      ensures Rotating(View()) && !crashed && pc == AtHead
      ensures appended == old(appended) + after && |batches| == |old(batches)|
    {
      hide Sound, Owners.Unique, Owners.KnownTo, Rotating, Reaches, Appends;
      StepLegal(View(), Write);
      WriteBatch();
      ghost var written := View();
      AppendAll(after);
      ghost var mid := View();
      ReachesFurther(old(View()), [Write], written, Appends(after), mid);
      StepLegal(mid, Recycle);
      RecycleBuffers();
      ReachesFurther(old(View()), [Write] + Appends(after), mid, [Recycle], View());
    }

    lemma MessagesInOrder(already: seq<Msg>, round: Round)
      ensures already + round.before + round.during + round.after == already + round.Messages()
    {
    }

    /** One turn of threadFunc's loop: it takes and writes one batch. */
    method Turn(round: Round)
      requires Valid() && Rotating(View()) && !crashed && pc == AtHead && RoundFits(round)
      modifies this, Memory()
      ensures Valid() && fresh(Memory() - old(Memory()))
      ensures Reaches(old(View()), round.Steps(), View()) && Rotating(View()) && !crashed && pc == AtHead
      ensures appended == old(appended) + round.Messages() && |batches| == |old(batches)| + 1
    {
      hide Sound, Owners.Unique, Owners.KnownTo, Owners.In, Rotating, Reaches, Appends, Round.Messages;
      MessagesInOrder(appended, round);
      TakeBatch(round.before, round.during);
      ghost var mid := View();
      FinishBatch(round.after);
      ReachesFurther(old(View()), Appends(round.before) + [Swap] + Appends(round.during), mid,
                     [Write] + Appends(round.after) + [Recycle], View());
    }

    /** threadFunc while running_ holds, from a new logger: it takes a batch a round, every
        message of the rounds is in a batch or still in a buffer, in order, and the file holds,
        batch by batch, what the policy keeps. */
    method ThreadFunc(rounds: seq<Round>)
      requires Valid() && View() == START && forall i :: 0 <= i < |rounds| ==> RoundFits(rounds[i])
      modifies this, Memory()
      ensures Valid() && Reaches(START, AllSteps(rounds), View())
      ensures appended == AllMessages(rounds) && |batches| == |rounds| && fout == FileOf(batches)
      ensures var s := View();
              && s.new1 == Some([]) && s.new2 == Some([]) && s.current.Some? && pc == AtHead
              && Taken(batches) + Flatten(s.buffers) + s.current.value == appended
    {
      hide Sound, Owners.Unique, Owners.KnownTo, FileOf, Taken, Flatten;
      var i := 0;
      while i < |rounds|
        invariant 0 <= i <= |rounds|
        invariant Valid() && fresh(Memory() - old(Memory()))
        invariant Reaches(START, AllSteps(rounds[..i]), View()) && Rotating(View()) && !crashed && pc == AtHead
        invariant appended == AllMessages(rounds[..i]) && |batches| == i
      {
        hide Rotating, Reaches, Round.Steps, Round.Messages, Owners.In;
        ghost var mid := View();
        Turn(rounds[i]);
        ReachesFurther(START, AllSteps(rounds[..i]), mid, rounds[i].Steps(), View());
        assert rounds[..i + 1][..i] == rounds[..i];
        i := i + 1;
      }
      assert rounds[..i] == rounds;
      RunEnds(AllSteps(rounds), View());
    }

    lemma RunEnds(steps: seq<Step>, s: Log)
      requires Reaches(START, steps, s) && s.pc == AtHead
      ensures s.file == FileOf(s.batches) && s.new1 == Some([]) && s.new2 == Some([]) && s.current.Some?
      ensures Taken(s.batches) + Flatten(s.buffers) + s.current.value == s.appended
    {
      LogConservation(steps);
      RotationOwnership(steps);
    }
  }
}
