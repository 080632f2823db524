/**
  Connection (src/net/Connection.cc): the output path with its partial writes, the
  interest bits that follow the output buffer, and the half-close that waits for it.

  `Conn` is the value of a connection, one function a handler; the class in
  Connection.dfy runs the handlers on a Buffer, a Channel and an Epollpoller.
 */
module ConnectionModel {
  import opened Wrappers
  import opened ByteBuffer
  import P = Poller

  type Bytes = seq<byte>

  datatype State = Connecting | Connected | Disconnecting | Disconnected

  /** What became of one send: refused for the state, dropped after EPIPE or
      ECONNRESET, or taken over by the connection. */
  datatype Fate = Refused | Faulted | Taken
  datatype Sent = Sent(data: Bytes, fate: Fate)

  datatype Callback = WriteComplete | HighWater(level: nat)

  datatype Config = Config(writeComplete: bool, highWater: bool, mark: nat)

  datatype Conn = Conn(
    state: State,
    reg: P.Reg,
    input: Bytes,
    output: Bytes,
    wire: Bytes,               // bytes the socket has taken
    fins: seq<Bytes>,          // the wire at every SHUT_WR
    sends: seq<Sent>,          // every send so far
    callbacks: seq<Callback>,  // functors queued on the loop
    ups: nat, downs: nat, closes: nat)

  const NEW_CONN: Conn := Conn(Connecting, P.FRESH, [], [], [], [], [], [], 0, 0, 0)

  // -------------------------------------------------------------- handlers

  predicate Writing(c: Conn) { c.reg.events * P.WRITE_EVENT != {} }

  function Recorded(c: Conn, data: Bytes, fate: Fate): Conn {
    c.(sends := c.sends + [Sent(data, fate)])
  }

  function Queued(c: Conn, on: bool, callback: Callback): Conn {
    if on then c.(callbacks := c.callbacks + [callback]) else c
  }

  function Channeled(c: Conn, call: P.Call): Conn {
    c.(reg := P.Apply(c.reg, call))
  }

  function Kept(cfg: Config, c: Conn, rest: Bytes): Conn {
    var level := |c.output| + |rest|;
    var d := Queued(c, level >= cfg.mark && |c.output| < cfg.mark && cfg.highWater, HighWater(level));
    d.(output := d.output + rest)
  }

  function WithWriting(c: Conn): Conn { if Writing(c) then c else Channeled(c, P.EnableWriting) }

  function Buffered(cfg: Config, c: Conn, rest: Bytes): (r: Conn)
    ensures r.output == c.output + rest
    ensures r.wire == c.wire && r.sends == c.sends && r.state == c.state && r.fins == c.fins
  {
    if rest == [] then c else WithWriting(Kept(cfg, c, rest))
  }

  /** What the kernel answers to a write: after SHUT_WR it is EPIPE, whatever room there
      is (send(2), ERRORS). */
  function AnswerAfter(fins: seq<Bytes>, w: WriteResult): WriteResult { if fins == [] then w else WriteFailed(EPIPE) }

  function Answer(c: Conn, w: WriteResult): WriteResult { AnswerAfter(c.fins, w) }

  // How much of `data` the direct write takes.
  function Written(data: Bytes, w: WriteResult): (n: nat)
    ensures n <= |data|
  {
    if w.Room? then Min(w.room, |data|) else 0
  }

  predicate Faults(w: WriteResult) { w == WriteFailed(EPIPE) || w == WriteFailed(ECONNRESET) }

  function WriteDirectly(cfg: Config, c: Conn, data: Bytes, w: WriteResult): Conn {
    var n := Written(data, w);
    Queued(c.(wire := c.wire + data[..n]), w.Room? && n == |data| && cfg.writeComplete, WriteComplete)
  }

  function SendInLoop(cfg: Config, c: Conn, data: Bytes, w: WriteResult): Conn {
    if c.state == Disconnected then Recorded(c, data, Refused)
    else if Writing(c) || c.output != [] then Buffered(cfg, Recorded(c, data, Taken), data)
    else
      var answer := Answer(c, w);
      var d := WriteDirectly(cfg, c, data, answer);
      if Faults(answer) then Recorded(d, data, Faulted)
      else Buffered(cfg, Recorded(d, data, Taken), data[Written(data, answer)..])
  }

  function ShutdownInLoop(c: Conn): Conn {
    if Writing(c) then c else c.(fins := c.fins + [c.wire])
  }

  function HandleWrite(cfg: Config, c: Conn, w: WriteResult): Conn {
    var answer := Answer(c, w);
    if !Writing(c) || answer.WriteFailed? || answer.room == 0 || c.output == [] then c
    else
      var n := Min(answer.room, |c.output|);
      var d := c.(wire := c.wire + c.output[..n], output := c.output[n..]);
      if d.output != [] then d
      else
        var e := Queued(Channeled(d, P.DisableWriting), cfg.writeComplete, WriteComplete);
        if e.state == Disconnecting then ShutdownInLoop(e) else e
  }

  function HandleClose(c: Conn): Conn {
    var d := Channeled(c.(state := Disconnected), P.DisableAll);
    d.(downs := d.downs + 1, closes := d.closes + 1)
  }

  /** What user code may do with the connection on its loop thread. */
  datatype AppCall = Send(data: Bytes, w: WriteResult) | Shutdown | Take(amount: nat)

  function DoCall(cfg: Config, c: Conn, call: AppCall): Conn {
    match call
    case Send(data, w) => if c.state == Connected then SendInLoop(cfg, c, data, w) else Recorded(c, data, Refused)
    case Shutdown => if c.state == Connected then ShutdownInLoop(c.(state := Disconnecting)) else c
    case Take(amount) => c.(input := c.input[Min(amount, |c.input|)..])
  }

  function DoCalls(cfg: Config, c: Conn, calls: seq<AppCall>): Conn {
    if calls == [] then c
    else DoCall(cfg, DoCalls(cfg, c, calls[..|calls| - 1]), calls[|calls| - 1])
  }

  function HandleRead(cfg: Config, c: Conn, r: ReadResult, calls: seq<AppCall>): Conn {
    match r
    case ReadFailed(_) => c
    case Got(bytes) =>
      if bytes == [] then HandleClose(c)
      else DoCalls(cfg, c.(input := c.input + bytes), calls)
  }

  predicate Reads(revents: P.Mask) { revents * {P.In, P.Pri, P.RdHup} != {} }

  predicate HangsUp(revents: P.Mask) { P.Hup in revents && P.In !in revents }

  // The close and read callbacks of one dispatch.
  function CloseThenRead(cfg: Config, c: Conn, revents: P.Mask, r: ReadResult, calls: seq<AppCall>): Conn {
    var d := if HangsUp(revents) then HandleClose(c) else c;
    if Reads(revents) then HandleRead(cfg, d, r, calls) else d
  }

  /** Channel::handleEventWithGuard with the connection's handlers. */
  function Dispatch(cfg: Config, c: Conn, revents: P.Mask, r: ReadResult, calls: seq<AppCall>, w: WriteResult): Conn {
    var e := CloseThenRead(cfg, c, revents, r, calls);
    if P.Out in revents then HandleWrite(cfg, e, w) else e
  }

  function BroughtUp(c: Conn): Conn {
    Channeled(c.(state := Connected), P.EnableReading).(ups := c.ups + 1)
  }

  function ConnectEstablished(cfg: Config, c: Conn, calls: seq<AppCall>): Conn {
    DoCalls(cfg, BroughtUp(c), calls)
  }

  function ConnectDestroyed(c: Conn): Conn {
    var d := if c.state == Connected then
               var e := Channeled(c.(state := Disconnected), P.DisableAll); e.(downs := e.downs + 1)
             else c;
    Channeled(d, P.Remove)
  }

  // ------------------------------------------------------------------ runs

  /** One thing that happens to a connection. The three Remote steps are the parts of
      send and shutdown called off the loop thread: a queued sendInLoop running, the
      state change of shutdown, and its queued shutdownInLoop running. */
  datatype Step =
    | Establish(calls: seq<AppCall>)
    | Event(revents: P.Mask, r: ReadResult, calls: seq<AppCall>, w: WriteResult)
    | App(call: AppCall)
    | RemoteSend(data: Bytes, w: WriteResult)
    | RemoteShutdown
    | RemoteShutdownRuns
    | Destroy

  function Next(cfg: Config, c: Conn, step: Step): Conn {
    match step
    case Establish(calls) => ConnectEstablished(cfg, c, calls)
    case Event(revents, r, calls, w) => Dispatch(cfg, c, revents, r, calls, w)
    case App(call) => DoCall(cfg, c, call)
    case RemoteSend(data, w) => SendInLoop(cfg, c, data, w)
    case RemoteShutdown => if c.state == Connected then c.(state := Disconnecting) else c
    case RemoteShutdownRuns => ShutdownInLoop(c)
    case Destroy => ConnectDestroyed(c)
  }

  function Run(cfg: Config, c: Conn, steps: seq<Step>): Conn {
    if steps == [] then c else Next(cfg, Run(cfg, c, steps[..|steps| - 1]), steps[|steps| - 1])
  }

  /** A connection is established once, from kConnecting; destruction comes later, and
      events reach only a channel that is in epoll. */
  predicate Legal(c: Conn, step: Step) {
    match step
    case Establish(_) => c.state == Connecting
    case Event(_, _, _, _) => c.reg.kernel.Some? && c.state != Connecting
    case Destroy => c.state != Connecting
    case _ => true
  }

  predicate LegalRun(cfg: Config, c: Conn, steps: seq<Step>) {
    steps == [] || (LegalRun(cfg, c, steps[..|steps| - 1])
                    && Legal(Run(cfg, c, steps[..|steps| - 1]), steps[|steps| - 1]))
  }

  predicate OnLoopThread(step: Step) { !step.RemoteSend? && !step.RemoteShutdown? && !step.RemoteShutdownRuns? }

  // ------------------------------------------------------- output stream

  /** The bytes of the sends that were taken, in order. */
  function Accepted(sends: seq<Sent>): Bytes {
    if sends == [] then []
    else
      var last := sends[|sends| - 1];
      Accepted(sends[..|sends| - 1]) + if last.fate == Taken then last.data else []
  }

  predicate Streamed(c: Conn) { c.wire + c.output == Accepted(c.sends) }

  lemma AcceptedAppend(sends: seq<Sent>, s: Sent)
    ensures Accepted(sends + [s]) == Accepted(sends) + if s.fate == Taken then s.data else []
  {
    assert (sends + [s])[..|sends|] == sends;
  }

  /** The direct write is tried only when nothing waits in front of the new bytes. */
  predicate TriesDirectly(c: Conn) { !Writing(c) && c.output == [] }

  /** sendInLoop refuses after the close; it drops bytes it tries to write at once when the
      peer is gone or SHUT_WR has been issued; it takes over all others. */
  function FateOf(c: Conn, w: WriteResult): Fate {
    if c.state == Disconnected then Refused
    else if TriesDirectly(c) && (c.fins != [] || w == WriteFailed(EPIPE) || w == WriteFailed(ECONNRESET)) then Faulted
    else Taken
  }

  /** send on the loop thread takes bytes only while connected. */
  function FateOfSend(c: Conn, w: WriteResult): Fate { if c.state != Connected then Refused else FateOf(c, w) }

  /** A send with nothing in front of it puts on the wire what the kernel takes at once, and
      keeps exactly the rest; one behind unsent bytes, or after a full socket or another
      error, keeps everything; a faulted one keeps nothing. */
  lemma SendWrites(cfg: Config, c: Conn, data: Bytes, w: WriteResult)
    requires FateOf(c, w) != Refused
    ensures var d := SendInLoop(cfg, c, data, w);
            var n := if TriesDirectly(c) && c.fins == [] && w.Room? then Min(w.room, |data|) else 0;
            && d.wire == c.wire + data[..n]
            && d.output == c.output + (if FateOf(c, w) == Faulted then [] else data[n..])
  {
    hide Buffered, P.Apply, Writing;
    assert c.wire + [] == c.wire && c.output + [] == c.output && data[0..] == data;
  }

  lemma SendRecords(cfg: Config, c: Conn, data: Bytes, w: WriteResult)
    ensures var d := SendInLoop(cfg, c, data, w);
            d.sends == c.sends + [Sent(data, FateOf(c, w))] && d.state == c.state && d.fins == c.fins
  {
    hide Buffered, P.Apply, Writing;
  }

  /** A send adds its bytes, whole and at the end, to the stream of wire and output
      exactly when it is taken; it never touches bytes already there. */
  lemma SendEffect(cfg: Config, c: Conn, data: Bytes, w: WriteResult)
    ensures var d := SendInLoop(cfg, c, data, w);
            && d.sends == c.sends + [Sent(data, FateOf(c, w))]
            && d.wire + d.output == c.wire + c.output + (if FateOf(c, w) == Taken then data else [])
            && c.wire <= d.wire && d.state == c.state && d.fins == c.fins
  {
    SendRecords(cfg, c, data, w);
    if FateOf(c, w) == Refused {
      assert c.wire + c.output + [] == c.wire + c.output;
    } else {
      SendWrites(cfg, c, data, w);
      hide SendInLoop, Writing;
      var n := if TriesDirectly(c) && c.fins == [] && w.Room? then Min(w.room, |data|) else 0;
      if FateOf(c, w) == Taken { StreamJoins(c.wire, c.output, data, n); } else { StreamJoins(c.wire, c.output, [], 0); }
    }
  }

  lemma StreamJoins(wire: Bytes, output: Bytes, data: Bytes, n: nat)
    requires n <= |data| && (n == 0 || output == [])
    ensures (wire + data[..n]) + (output + data[n..]) == wire + output + data
    ensures (wire + data[..0]) + (output + []) == wire + output + []
  {
    assert data[..n] + data[n..] == data;
  }

  lemma SendKeepsStream(cfg: Config, c: Conn, data: Bytes, w: WriteResult)
    requires Streamed(c)
    ensures Streamed(SendInLoop(cfg, c, data, w))
  {
    SendEffect(cfg, c, data, w);
    AcceptedAppend(c.sends, Sent(data, FateOf(c, w)));
  }

  lemma WriteKeepsStream(cfg: Config, c: Conn, w: WriteResult)
    requires Streamed(c)
    ensures Streamed(HandleWrite(cfg, c, w))
  {
    if Answer(c, w).Room? {
      var n := Min(w.room, |c.output|);
      assert (c.wire + c.output[..n]) + c.output[n..] == c.wire + c.output;
    }
  }

  lemma {:induction false} CallsKeepStream(cfg: Config, c: Conn, calls: seq<AppCall>)
    requires Streamed(c)
    ensures Streamed(DoCalls(cfg, c, calls))
  {
    if calls != [] {
      CallsKeepStream(cfg, c, calls[..|calls| - 1]);
      CallKeepsStream(cfg, DoCalls(cfg, c, calls[..|calls| - 1]), calls[|calls| - 1]);
    }
  }

  lemma CallKeepsStream(cfg: Config, c: Conn, call: AppCall)
    requires Streamed(c)
    ensures Streamed(DoCall(cfg, c, call))
  {
    if call.Send? {
      SendKeepsStream(cfg, c, call.data, call.w);
      AcceptedAppend(c.sends, Sent(call.data, Refused));
    }
  }

  lemma StepKeepsStream(cfg: Config, c: Conn, step: Step)
    requires Streamed(c)
    ensures Streamed(Next(cfg, c, step))
  {
    match step
    case Establish(calls) =>
      CallsKeepStream(cfg, BroughtUp(c), calls);
    case Event(revents, r, calls, w) =>
      var d := if HangsUp(revents) then HandleClose(c) else c;
      if r.Got? { CallsKeepStream(cfg, d.(input := d.input + r.bytes), calls); }
      var e := if Reads(revents) then HandleRead(cfg, d, r, calls) else d;
      WriteKeepsStream(cfg, e, w);
    case App(call) => CallKeepsStream(cfg, c, call);
    case RemoteSend(data, w) => SendKeepsStream(cfg, c, data, w);
    case RemoteShutdown =>
    case RemoteShutdownRuns =>
    case Destroy =>
  }

  /** The bytes a step brings in, read off the step alone: a readv follows EPOLLIN, EPOLLPRI
      and EPOLLRDHUP. */
  function ReceivedBy(step: Step): Bytes {
    if step.Event? && ReportsInput(step.revents) && step.r.Got? then step.r.bytes else []
  }

  predicate ReportsInput(revents: P.Mask) { P.In in revents || P.Pri in revents || P.RdHup in revents }

  lemma ReadsExactly(revents: P.Mask)
    ensures Reads(revents) <==> ReportsInput(revents)
  {
    if P.In in revents { assert P.In in revents * {P.In, P.Pri, P.RdHup}; }
    if P.Pri in revents { assert P.Pri in revents * {P.In, P.Pri, P.RdHup}; }
    if P.RdHup in revents { assert P.RdHup in revents * {P.In, P.Pri, P.RdHup}; }
  }

  // The sends a step asks for, read off the step alone.
  function Asked(calls: seq<AppCall>): seq<Bytes> {
    if calls == [] then []
    else
      var last := calls[|calls| - 1];
      Asked(calls[..|calls| - 1]) + if last.Send? then [last.data] else []
  }

  function AskedBy(step: Step): seq<Bytes> {
    match step
    case Establish(calls) => Asked(calls)
    case Event(_, _, calls, _) => if ReceivedBy(step) != [] then Asked(calls) else []
    case App(call) => Asked([call])
    case RemoteSend(data, _) => [data]
    case _ => []
  }

  function AskedInRun(steps: seq<Step>): seq<Bytes> {
    if steps == [] then [] else AskedInRun(steps[..|steps| - 1]) + AskedBy(steps[|steps| - 1])
  }

  function DataOf(sends: seq<Sent>): seq<Bytes> {
    seq(|sends|, i requires 0 <= i < |sends| => sends[i].data)
  }

  /** The sends of user code, each with the fate that the state it is made in gives it. */
  function CallsSend(cfg: Config, c: Conn, calls: seq<AppCall>): seq<Sent> {
    if calls == [] then []
    else
      var before, last := calls[..|calls| - 1], calls[|calls| - 1];
      CallsSend(cfg, c, before)
      + if last.Send? then [Sent(last.data, FateOfSend(DoCalls(cfg, c, before), last.w))] else []
  }

  // Where the message callback starts: after the close, if a hang-up comes first.
  function AtMessage(c: Conn, revents: P.Mask, bytes: Bytes): Conn {
    var d := if P.Hup in revents && P.In !in revents then HandleClose(c) else c;
    d.(input := d.input + bytes)
  }

  /** The sends of a step with their fates. */
  function SentBy(cfg: Config, c: Conn, step: Step): seq<Sent> {
    match step
    case Establish(calls) => CallsSend(cfg, BroughtUp(c), calls)
    case Event(revents, _, calls, _) =>
      if ReceivedBy(step) == [] then [] else CallsSend(cfg, AtMessage(c, revents, ReceivedBy(step)), calls)
    case App(Send(data, w)) => [Sent(data, FateOfSend(c, w))]
    case RemoteSend(data, w) => [Sent(data, FateOf(c, w))]
    case _ => []
  }

  function SentInRun(cfg: Config, steps: seq<Step>): seq<Sent> {
    if steps == [] then []
    else
      var before := steps[..|steps| - 1];
      SentInRun(cfg, before) + SentBy(cfg, Run(cfg, NEW_CONN, before), steps[|steps| - 1])
  }

  lemma CallRecordsSends(cfg: Config, c: Conn, call: AppCall)
    ensures DoCall(cfg, c, call).sends == c.sends + if call.Send? then [Sent(call.data, FateOfSend(c, call.w))] else []
  {
    if call.Send? { SendEffect(cfg, c, call.data, call.w); }
  }

  lemma {:induction false} CallsRecordSends(cfg: Config, c: Conn, calls: seq<AppCall>)
    ensures DoCalls(cfg, c, calls).sends == c.sends + CallsSend(cfg, c, calls)
    ensures DataOf(CallsSend(cfg, c, calls)) == Asked(calls)
  {
    if calls != [] {
      hide DoCall;
      CallsRecordSends(cfg, c, calls[..|calls| - 1]);
      CallRecordsSends(cfg, DoCalls(cfg, c, calls[..|calls| - 1]), calls[|calls| - 1]);
    }
  }

  lemma WriteSendsNothing(cfg: Config, c: Conn, w: WriteResult)
    ensures HandleWrite(cfg, c, w).sends == c.sends
  {
    hide P.Apply;
  }

  lemma EventRecordsSends(cfg: Config, c: Conn, step: Step)
    requires step.Event?
    ensures Next(cfg, c, step).sends == c.sends + SentBy(cfg, c, step) && DataOf(SentBy(cfg, c, step)) == AskedBy(step)
  {
    hide HandleWrite, DoCalls, CallsSend, P.Apply;
    ReadsExactly(step.revents);
    CallsRecordSends(cfg, AtMessage(c, step.revents, ReceivedBy(step)), step.calls);
    WriteSendsNothing(cfg, CloseThenRead(cfg, c, step.revents, step.r, step.calls), step.w);
    assert c.sends + [] == c.sends;
  }

  lemma StepRecordsSends(cfg: Config, c: Conn, step: Step)
    ensures Next(cfg, c, step).sends == c.sends + SentBy(cfg, c, step) && DataOf(SentBy(cfg, c, step)) == AskedBy(step)
  {
    hide DoCalls, CallsSend, P.Apply, SendInLoop;
    assert c.sends + [] == c.sends;
    match step
    case Establish(calls) =>
      CallsRecordSends(cfg, BroughtUp(c), calls);
    case Event(_, _, _, _) => EventRecordsSends(cfg, c, step);
    case App(call) =>
      assert [call][..0] == [] && Asked([call]) == if call.Send? then [call.data] else [];
      CallRecordsSends(cfg, c, call);
    case RemoteSend(data, w) => SendEffect(cfg, c, data, w);
    case RemoteShutdown =>
    case RemoteShutdownRuns =>
    case Destroy =>
  }

  lemma DataJoins(a: seq<Sent>, b: seq<Sent>)
    ensures DataOf(a + b) == DataOf(a) + DataOf(b)
  {
  }

  /** Output stream refinement. For every run and every kernel answer, the sends are all those
      asked for, in order, each with the fate of the state it was made in; and the wire
      followed by the unsent output is the concatenation of those taken. */
  lemma {:induction false} OutputStream(cfg: Config, steps: seq<Step>)
    ensures var c, sent := Run(cfg, NEW_CONN, steps), SentInRun(cfg, steps);
            c.sends == sent && DataOf(sent) == AskedInRun(steps) && c.wire + c.output == Accepted(sent)
  {
    if steps != [] {
      hide Next, SentBy;
      var before := steps[..|steps| - 1];
      OutputStream(cfg, before);
      StepKeepsStream(cfg, Run(cfg, NEW_CONN, before), steps[|steps| - 1]);
      StepRecordsSends(cfg, Run(cfg, NEW_CONN, before), steps[|steps| - 1]);
      DataJoins(SentInRun(cfg, before), SentBy(cfg, Run(cfg, NEW_CONN, before), steps[|steps| - 1]));
      hide DataOf, Accepted;
    }
  }

  // ---------------------------------------------------------- input stream

  function ReceivedInRun(steps: seq<Step>): Bytes {
    if steps == [] then [] else ReceivedInRun(steps[..|steps| - 1]) + ReceivedBy(steps[|steps| - 1])
  }

  /** The bytes user code takes, each time as many as it asks for or all there are. */
  function CallsTake(cfg: Config, c: Conn, calls: seq<AppCall>): Bytes {
    if calls == [] then []
    else
      var before, last := calls[..|calls| - 1], calls[|calls| - 1];
      var input := DoCalls(cfg, c, before).input;
      CallsTake(cfg, c, before) + if last.Take? then input[..Min(last.amount, |input|)] else []
  }

  function TakenBy(cfg: Config, c: Conn, step: Step): Bytes {
    match step
    case Establish(calls) => CallsTake(cfg, BroughtUp(c), calls)
    case Event(revents, _, calls, _) =>
      if ReceivedBy(step) == [] then [] else CallsTake(cfg, AtMessage(c, revents, ReceivedBy(step)), calls)
    case App(Take(amount)) => c.input[..Min(amount, |c.input|)]
    case _ => []
  }

  function TakenInRun(cfg: Config, steps: seq<Step>): Bytes {
    if steps == [] then []
    else
      var before := steps[..|steps| - 1];
      TakenInRun(cfg, before) + TakenBy(cfg, Run(cfg, NEW_CONN, before), steps[|steps| - 1])
  }

  lemma OutputLeavesInput(cfg: Config, c: Conn, data: Bytes, w: WriteResult)
    ensures SendInLoop(cfg, c, data, w).input == c.input && HandleWrite(cfg, c, w).input == c.input
  {
    hide P.Apply;
  }

  lemma CallTakes(cfg: Config, c: Conn, call: AppCall)
    ensures (if call.Take? then c.input[..Min(call.amount, |c.input|)] else []) + DoCall(cfg, c, call).input == c.input
  {
    hide SendInLoop;
    if call.Send? { OutputLeavesInput(cfg, c, call.data, call.w); }
  }

  lemma {:induction false} CallsTakeInOrder(cfg: Config, c: Conn, calls: seq<AppCall>)
    ensures CallsTake(cfg, c, calls) + DoCalls(cfg, c, calls).input == c.input
  {
    if calls != [] {
      hide DoCall;
      var d := DoCalls(cfg, c, calls[..|calls| - 1]);
      CallsTakeInOrder(cfg, c, calls[..|calls| - 1]);
      CallTakes(cfg, d, calls[|calls| - 1]);
    }
  }

  lemma EventTakes(cfg: Config, c: Conn, step: Step)
    requires step.Event?
    ensures TakenBy(cfg, c, step) + Next(cfg, c, step).input == c.input + ReceivedBy(step)
  {
    hide HandleWrite, DoCalls, CallsTake, P.Apply;
    ReadsExactly(step.revents);
    CallsTakeInOrder(cfg, AtMessage(c, step.revents, ReceivedBy(step)), step.calls);
    OutputLeavesInput(cfg, CloseThenRead(cfg, c, step.revents, step.r, step.calls), [], step.w);
    assert c.input + [] == c.input;
  }

  lemma StepTakes(cfg: Config, c: Conn, step: Step)
    ensures TakenBy(cfg, c, step) + Next(cfg, c, step).input == c.input + ReceivedBy(step)
  {
    hide DoCalls, CallsTake, SendInLoop, Dispatch, P.Apply;
    assert c.input + [] == c.input;
    match step
    case Establish(calls) => CallsTakeInOrder(cfg, BroughtUp(c), calls);
    case Event(_, _, _, _) => EventTakes(cfg, c, step);
    case App(call) => CallTakes(cfg, c, call);
    case RemoteSend(data, w) => OutputLeavesInput(cfg, c, data, w);
    case _ =>
  }

  /** Input stream refinement. The bytes user code has taken, followed by the input buffer,
      are all that was read off the socket, in order. */
  lemma {:induction false} InputStream(cfg: Config, steps: seq<Step>)
    ensures TakenInRun(cfg, steps) + Run(cfg, NEW_CONN, steps).input == ReceivedInRun(steps)
  {
    if steps != [] {
      hide Next, TakenBy;
      var before := steps[..|steps| - 1];
      var c, step := Run(cfg, NEW_CONN, before), steps[|steps| - 1];
      InputStream(cfg, before);
      StepTakes(cfg, c, step);
      TakesJoin(TakenInRun(cfg, before), c.input, ReceivedInRun(before), TakenBy(cfg, c, step), Next(cfg, c, step).input,
                ReceivedBy(step));
    }
  }

  lemma TakesJoin(taken: Bytes, input: Bytes, received: Bytes, more: Bytes, rest: Bytes, came: Bytes)
    requires taken + input == received && more + rest == input + came
    ensures (taken + more) + rest == received + came
  {
    assert (taken + more) + rest == taken + (more + rest) == (taken + input) + came;
  }

  // ---------------------------------------------------- interest coherence

  /** Not yet closed, and the channel not removed from the poller. */
  predicate Live(c: Conn) { c.state != Disconnected && (c.reg.index.New? || c.reg.listed) }

  predicate Interested(c: Conn) {
    && P.Coherent(c.reg)
    && (Live(c) ==> (P.Out in c.reg.events <==> c.output != []))
    && (Live(c) && c.state != Connecting ==> P.In in c.reg.events && P.Pri in c.reg.events)
    && (c.state == Connecting || c.state == Connected ==> Live(c))
    && (c.state == Disconnected ==> c.reg.events == {})
  }

  lemma WritingIsOut(c: Conn)
    ensures Writing(c) <==> P.Out in c.reg.events
  {
    if P.Out in c.reg.events { assert P.Out in c.reg.events * P.WRITE_EVENT; }
  }

  // Before Buffered the bit may lag behind the bytes about to be kept.
  lemma BufferedKeepsInterest(cfg: Config, c: Conn, rest: Bytes)
    requires Interested(c) && c.state != Disconnected
    ensures Interested(Buffered(cfg, c, rest))
  {
    WritingIsOut(c);
    P.ApplyKeepsCoherent(c.reg, P.EnableWriting);
  }

  lemma SendKeepsInterest(cfg: Config, c: Conn, data: Bytes, w: WriteResult)
    requires Interested(c)
    ensures Interested(SendInLoop(cfg, c, data, w))
  {
    hide Buffered;
    WritingIsOut(c);
    if c.state != Disconnected {
      BufferedKeepsInterest(cfg, Recorded(c, data, Taken), data);
      var answer := Answer(c, w);
      BufferedKeepsInterest(cfg, Recorded(WriteDirectly(cfg, c, data, answer), data, Taken), data[Written(data, answer)..]);
    }
  }

  lemma WriteKeepsInterest(cfg: Config, c: Conn, w: WriteResult)
    requires Interested(c)
    ensures Interested(HandleWrite(cfg, c, w))
  {
    WritingIsOut(c);
  }

  lemma CallKeepsInterest(cfg: Config, c: Conn, call: AppCall)
    requires Interested(c)
    ensures Interested(DoCall(cfg, c, call))
  {
    if call.Send? { SendKeepsInterest(cfg, c, call.data, call.w); }
  }

  lemma {:induction false} CallsKeepInterest(cfg: Config, c: Conn, calls: seq<AppCall>)
    requires Interested(c)
    ensures Interested(DoCalls(cfg, c, calls))
  {
    if calls != [] {
      CallsKeepInterest(cfg, c, calls[..|calls| - 1]);
      CallKeepsInterest(cfg, DoCalls(cfg, c, calls[..|calls| - 1]), calls[|calls| - 1]);
    }
  }

  lemma CloseKeepsInterest(c: Conn)
    requires Interested(c)
    ensures Interested(HandleClose(c))
  {
    P.ApplyKeepsCoherent(c.reg, P.DisableAll);
  }

  lemma ReadKeepsInterest(cfg: Config, c: Conn, r: ReadResult, calls: seq<AppCall>)
    requires Interested(c)
    ensures Interested(HandleRead(cfg, c, r, calls))
  {
    CloseKeepsInterest(c);
    if r.Got? { CallsKeepInterest(cfg, c.(input := c.input + r.bytes), calls); }
  }

  lemma StepKeepsInterest(cfg: Config, c: Conn, step: Step)
    requires Interested(c) && Legal(c, step)
    ensures Interested(Next(cfg, c, step))
  {
    match step
    case Establish(calls) =>
      CallsKeepInterest(cfg, BroughtUp(c), calls);
    case Event(revents, r, calls, w) =>
      CloseKeepsInterest(c);
      var d := if HangsUp(revents) then HandleClose(c) else c;
      ReadKeepsInterest(cfg, d, r, calls);
      WriteKeepsInterest(cfg, if Reads(revents) then HandleRead(cfg, d, r, calls) else d, w);
    case App(call) => CallKeepsInterest(cfg, c, call);
    case RemoteSend(data, w) => SendKeepsInterest(cfg, c, data, w);
    case RemoteShutdown =>
    case RemoteShutdownRuns =>
    case Destroy =>
      P.ApplyKeepsCoherent(c.reg, P.DisableAll);
      P.RemovalThroughReentry(c.reg);
      P.RemovalThroughReentry(P.Apply(c.reg, P.DisableAll));
  }

  /** End-to-end interest. While a connection is connected or disconnecting and its
      channel is not removed, the kernel watches for writability exactly when there is
      unsent output, and always for readability; no epoll_ctl on the way was illegal. */
  lemma {:induction false} KernelFollowsOutput(cfg: Config, steps: seq<Step>)
    requires LegalRun(cfg, NEW_CONN, steps)
    ensures var c := Run(cfg, NEW_CONN, steps);
            && Interested(c)
            && (Live(c) && c.state != Connecting ==>
                 && c.reg.kernel.Some? && P.In in c.reg.kernel.value && P.Pri in c.reg.kernel.value
                 && (P.Out in c.reg.kernel.value <==> c.output != []))
  {
    if steps != [] {
      KernelFollowsOutput(cfg, steps[..|steps| - 1]);
      StepKeepsInterest(cfg, Run(cfg, NEW_CONN, steps[..|steps| - 1]), steps[|steps| - 1]);
    }
  }

  // ------------------------------------------------------------ half-close

  predicate Drained(c: Conn) {
    && (c.state == Connecting || c.state == Connected ==> c.fins == [])
    && |c.fins| <= 1
    && (c.fins != [] ==> c.fins[0] == c.wire && c.output == [])
    && (Live(c) && c.state == Disconnecting && c.fins == [] ==> c.output != [])
  }

  predicate Sound(c: Conn) { Interested(c) && Drained(c) }

  lemma CallKeepsDrained(cfg: Config, c: Conn, call: AppCall)
    requires Sound(c)
    ensures Sound(DoCall(cfg, c, call))
  {
    CallKeepsInterest(cfg, c, call);
    WritingIsOut(c);
    if call.Send? { SendEffect(cfg, c, call.data, call.w); }
  }

  lemma {:induction false} CallsKeepDrained(cfg: Config, c: Conn, calls: seq<AppCall>)
    requires Sound(c)
    ensures Sound(DoCalls(cfg, c, calls))
  {
    if calls != [] {
      CallsKeepDrained(cfg, c, calls[..|calls| - 1]);
      CallKeepsDrained(cfg, DoCalls(cfg, c, calls[..|calls| - 1]), calls[|calls| - 1]);
    }
  }

  lemma WriteKeepsDrained(cfg: Config, c: Conn, w: WriteResult)
    requires Sound(c)
    ensures Sound(HandleWrite(cfg, c, w))
  {
    WriteKeepsInterest(cfg, c, w);
    WritingIsOut(c);
  }

  lemma ReadKeepsDrained(cfg: Config, c: Conn, r: ReadResult, calls: seq<AppCall>)
    requires Sound(c)
    ensures Sound(HandleRead(cfg, c, r, calls))
  {
    ReadKeepsInterest(cfg, c, r, calls);
    if r.Got? { CallsKeepDrained(cfg, c.(input := c.input + r.bytes), calls); }
  }

  lemma StepKeepsDrained(cfg: Config, c: Conn, step: Step)
    requires Sound(c) && Legal(c, step) && OnLoopThread(step)
    ensures Sound(Next(cfg, c, step))
  {
    StepKeepsInterest(cfg, c, step);
    match step
    case Establish(calls) =>
      CallsKeepDrained(cfg, BroughtUp(c), calls);
    case Event(revents, r, calls, w) =>
      CloseKeepsInterest(c);
      var d := if HangsUp(revents) then HandleClose(c) else c;
      ReadKeepsDrained(cfg, d, r, calls);
      WriteKeepsDrained(cfg, if Reads(revents) then HandleRead(cfg, d, r, calls) else d, w);
    case App(call) => CallKeepsDrained(cfg, c, call);
    case Destroy => P.RemovalThroughReentry(c.reg);
  }

  lemma {:induction false} RunIsSound(cfg: Config, c: Conn, steps: seq<Step>)
    requires Sound(c) && LegalRun(cfg, c, steps)
    requires forall i :: 0 <= i < |steps| ==> OnLoopThread(steps[i])
    ensures Sound(Run(cfg, c, steps))
  {
    if steps != [] {
      RunIsSound(cfg, c, steps[..|steps| - 1]);
      StepKeepsDrained(cfg, Run(cfg, c, steps[..|steps| - 1]), steps[|steps| - 1]);
    }
  }

  /** Graceful half-close. With send and shutdown called on the loop thread, SHUT_WR is
      issued at most once, and only when the wire holds the whole accepted stream; the
      wire still equals it at every later time, so nothing is sent afterwards. */
  lemma HalfClose(cfg: Config, steps: seq<Step>)
    requires LegalRun(cfg, NEW_CONN, steps)
    requires forall i :: 0 <= i < |steps| ==> OnLoopThread(steps[i])
    ensures var c := Run(cfg, NEW_CONN, steps);
            && |c.fins| <= 1
            && (c.fins != [] ==> c.fins[0] == c.wire == Accepted(c.sends) && c.output == [])
            && (c.fins != [] ==> c.state == Disconnecting || c.state == Disconnected)
  {
    RunIsSound(cfg, NEW_CONN, steps);
    OutputStream(cfg, steps);
    var c := Run(cfg, NEW_CONN, steps);
    assert c.wire + [] == c.wire;
  }

  // A one-byte send finds no room, a worker thread calls shutdown, the byte drains,
  // and then the queued shutdownInLoop runs.
  const PLAIN := Config(false, false, 1)
  const QUIET := P.Reg(P.Added, {P.In, P.Pri}, true, Some({P.In, P.Pri}), false, 0)
  const BUSY := P.Reg(P.Added, {P.In, P.Pri, P.Out}, true, Some({P.In, P.Pri, P.Out}), false, 0)
  const UP := NEW_CONN.(state := Connected, ups := 1, reg := QUIET)
  const STUCK := UP.(output := [7], sends := [Sent([7], Taken)], reg := BUSY)
  const FINISHED := STUCK.(state := Disconnecting, output := [], wire := [7], fins := [[7]], reg := QUIET)

  lemma FirstHalf()
    ensures Next(PLAIN, NEW_CONN, Establish([])) == UP
    ensures Next(PLAIN, UP, App(Send([7], Room(0)))) == STUCK
  {
    assert {} + P.READ_EVENT == {P.In, P.Pri} && {P.In, P.Pri} + P.WRITE_EVENT == {P.In, P.Pri, P.Out};
    WritingIsOut(UP);
    var d := Recorded(UP, [7], Taken);
    assert SendInLoop(PLAIN, UP, [7], Room(0)) == Buffered(PLAIN, d, [7]) by {
      assert [7][..0] == [] && [7][0..] == [7] && UP.wire + [] == UP.wire;
    }
  }

  lemma SecondHalf()
    ensures Next(PLAIN, STUCK.(state := Disconnecting), Event({P.Out}, ReadFailed(EOTHER), [], Room(1))) == FINISHED
    ensures |Next(PLAIN, FINISHED, RemoteShutdownRuns).fins| == 2
  {
    var c := STUCK.(state := Disconnecting);
    WritingIsOut(c);
    WritingIsOut(FINISHED);
    assert {P.In, P.Pri, P.Out} - P.WRITE_EVENT == {P.In, P.Pri};
    assert [7][..1] == [7] && [7][1..] == [];
    assert c.wire + [7] == [7] && c.fins + [[7]] == [[7]];
    assert !Reads({P.Out});
    assert HandleWrite(PLAIN, c, Room(1)) == FINISHED;
  }

  /** Off the loop thread SHUT_WR may be issued twice: the drain sees kDisconnecting
      before the queued shutdownInLoop runs. */
  lemma RemoteShutdownMayRepeat()
    ensures exists steps :: LegalRun(PLAIN, NEW_CONN, steps) && |Run(PLAIN, NEW_CONN, steps).fins| == 2
  {
    var s0, s1, s2 := Establish([]), App(Send([7], Room(0))), RemoteShutdown;
    var s3, s4 := Event({P.Out}, ReadFailed(EOTHER), [], Room(1)), RemoteShutdownRuns;
    FirstHalf();
    SecondHalf();
    RunSnoc(PLAIN, NEW_CONN, [], s0);
    RunSnoc(PLAIN, NEW_CONN, [] + [s0], s1);
    RunSnoc(PLAIN, NEW_CONN, [] + [s0] + [s1], s2);
    RunSnoc(PLAIN, NEW_CONN, [] + [s0] + [s1] + [s2], s3);
    RunSnoc(PLAIN, NEW_CONN, [] + [s0] + [s1] + [s2] + [s3], s4);
  }

  /** Shut down and quiet: nothing is left to write and no drain can start. */
  predicate Still(c: Conn) {
    Interested(c) && (c.state == Disconnecting || c.state == Disconnected) && c.output == [] && !Writing(c)
  }

  lemma {:induction false} CallsStayStill(cfg: Config, c: Conn, calls: seq<AppCall>)
    requires Still(c)
    ensures var d := DoCalls(cfg, c, calls); Still(d) && d.fins == c.fins
  {
    if calls != [] {
      CallsStayStill(cfg, c, calls[..|calls| - 1]);
    }
  }

  lemma EventStaysStill(cfg: Config, c: Conn, step: Step)
    requires Still(c) && Legal(c, step) && step.Event?
    ensures var d := Next(cfg, c, step); !Writing(d) && d.fins == c.fins && d.output == [] && d.state in {Disconnecting, Disconnected}
  {
    var d := if HangsUp(step.revents) then HandleClose(c) else c;
    CloseKeepsInterest(c);
    WritingIsOut(d);
    CloseKeepsInterest(d);
    WritingIsOut(HandleClose(d));
    if step.r.Got? { CallsStayStill(cfg, d.(input := d.input + step.r.bytes), step.calls); }
  }

  lemma StepStaysStill(cfg: Config, c: Conn, step: Step)
    requires Still(c) && Legal(c, step) && OnLoopThread(step)
    ensures var d := Next(cfg, c, step); Still(d) && d.fins == c.fins
  {
    StepKeepsInterest(cfg, c, step);
    if step.Event? {
      EventStaysStill(cfg, c, step);
    } else {
      WritingIsOut(c);
      WritingIsOut(Next(cfg, c, step));
    }
  }

  lemma {:induction false} RunStaysStill(cfg: Config, c: Conn, steps: seq<Step>)
    requires Still(c) && LegalRun(cfg, c, steps)
    requires forall i :: 0 <= i < |steps| ==> OnLoopThread(steps[i])
    ensures var d := Run(cfg, c, steps); Still(d) && d.fins == c.fins
  {
    if steps != [] {
      RunStaysStill(cfg, c, steps[..|steps| - 1]);
      StepStaysStill(cfg, Run(cfg, c, steps[..|steps| - 1]), steps[|steps| - 1]);
    }
  }

  /** A shutdown off the loop thread, the loop thread's steps before its queued half
      runs, that half, and the loop thread's steps after it. */
  predicate OneRemoteShutdown(cfg: Config, c: Conn, before: seq<Step>, after: seq<Step>) {
    var d := Run(cfg, Next(cfg, c, RemoteShutdown), before);
    && (forall i :: 0 <= i < |before| ==> OnLoopThread(before[i]))
    && (forall i :: 0 <= i < |after| ==> OnLoopThread(after[i]))
    && LegalRun(cfg, Next(cfg, c, RemoteShutdown), before)
    && LegalRun(cfg, Next(cfg, d, RemoteShutdownRuns), after)
  }

  function AfterRemoteShutdown(cfg: Config, c: Conn, before: seq<Step>, after: seq<Step>): Conn {
    Run(cfg, Next(cfg, Run(cfg, Next(cfg, c, RemoteShutdown), before), RemoteShutdownRuns), after)
  }

  /** shutdown called off the loop thread with nothing unsent, and no other call from
      another thread under way, issues SHUT_WR at most once in every continuation.
      ServerShutdown has the exact condition, over the loop's rounds and queued sends. */
  lemma RemoteShutdownAloneOnce(cfg: Config, c: Conn, before: seq<Step>, after: seq<Step>)
    requires Sound(c) && c.state == Connected && c.output == [] && OneRemoteShutdown(cfg, c, before, after)
    ensures |AfterRemoteShutdown(cfg, c, before, after).fins| <= 1
  {
    WritingIsOut(c);
    var d := Next(cfg, c, RemoteShutdown);
    RunStaysStill(cfg, d, before);
    RunStaysStill(cfg, Next(cfg, Run(cfg, d, before), RemoteShutdownRuns), after);
  }

  lemma RunSnoc(cfg: Config, c: Conn, steps: seq<Step>, step: Step)
    ensures Run(cfg, c, steps + [step]) == Next(cfg, Run(cfg, c, steps), step)
    ensures LegalRun(cfg, c, steps + [step]) <==> LegalRun(cfg, c, steps) && Legal(Run(cfg, c, steps), step)
  {
    assert (steps + [step])[..|steps|] == steps;
  }

  // -------------------------------------------------------------- progress

  predicate KeepsOpen(step: Step) {
    && !step.Destroy?
    && (step.Event? ==> !(P.Hup in step.revents && P.In !in step.revents) && !(ReportsInput(step.revents) && step.r == Got([])))
  }

  // A writable event whose write takes at least one byte.
  predicate Productive(step: Step) {
    step.Event? && P.Out in step.revents && step.w.Room? && 1 <= step.w.room
  }

  function Productives(steps: seq<Step>): nat {
    if steps == [] then 0
    else Productives(steps[..|steps| - 1]) + if Productive(steps[|steps| - 1]) then 1 else 0
  }

  predicate Closing(c: Conn) { Sound(c) && Live(c) && c.state == Disconnecting }

  lemma {:induction false} CallsWhileClosing(cfg: Config, c: Conn, calls: seq<AppCall>)
    requires Closing(c)
    ensures var d := DoCalls(cfg, c, calls);
            Closing(d) && d.output == c.output && d.fins == c.fins && d.reg == c.reg
  {
    if calls != [] {
      CallsWhileClosing(cfg, c, calls[..|calls| - 1]);
    }
  }

  lemma WriteWhileClosing(cfg: Config, c: Conn, w: WriteResult)
    requires Closing(c)
    ensures var d := HandleWrite(cfg, c, w);
            && Live(d) && d.state == Disconnecting && c.fins <= d.fins && |d.output| <= |c.output|
            && (c.fins == [] && w.Room? && 0 < w.room && c.output != [] ==> |d.output| < |c.output|)
  {
    WritingIsOut(c);
  }

  lemma EventWhileClosing(cfg: Config, c: Conn, step: Step)
    requires Closing(c) && Legal(c, step) && KeepsOpen(step) && step.Event?
    ensures var d := Next(cfg, c, step);
            && Live(d) && d.state == Disconnecting && c.fins <= d.fins && |d.output| <= |c.output|
            && (Productive(step) && c.fins == [] && c.output != [] ==> |d.output| < |c.output|)
  {
    hide HandleWrite;
    ReadsExactly(step.revents);
    if step.r.Got? { CallsWhileClosing(cfg, c.(input := c.input + step.r.bytes), step.calls); }
    WriteWhileClosing(cfg, CloseThenRead(cfg, c, step.revents, step.r, step.calls), step.w);
  }

  lemma StepWhileClosing(cfg: Config, c: Conn, step: Step)
    requires Closing(c) && Legal(c, step) && OnLoopThread(step) && KeepsOpen(step)
    ensures var d := Next(cfg, c, step);
            && Closing(d) && c.fins <= d.fins && |d.output| <= |c.output|
            && (Productive(step) && c.fins == [] ==> |d.output| < |c.output|)
  {
    StepKeepsDrained(cfg, c, step);
    WritingIsOut(c);
    match step
    case Event(_, _, _, _) => EventWhileClosing(cfg, c, step);
    case App(call) =>
  }

  /** A writable event moves as much as the kernel takes from the front of the output to the
      wire, in every open state, and changes nothing else while some is left. */
  lemma DrainEffect(cfg: Config, c: Conn, w: WriteResult)
    requires Interested(c) && Live(c)
    ensures var d, n := HandleWrite(cfg, c, w), if c.fins == [] && w.Room? then Min(w.room, |c.output|) else 0;
            && d.wire == c.wire + c.output[..n] && d.output == c.output[n..] && d.state == c.state
            && (d.output != [] || c.output == [] ==> d == c.(wire := d.wire, output := d.output))
            && (d.output == [] && c.state != Disconnecting ==> d.fins == c.fins)
  {
    WritingIsOut(c);
    assert c.wire + [] == c.wire && c.output[0..] == c.output;
  }

  /** Open, and SHUT_WR has not overtaken any output. */
  predicate Flushing(c: Conn) {
    Interested(c) && Live(c) && (c.state == Connected || c.state == Disconnecting) && (c.fins != [] ==> c.output == [])
  }

  lemma {:induction false} CallsWhileFlushing(cfg: Config, c: Conn, calls: seq<AppCall>)
    requires Flushing(c) && Asked(calls) == []
    ensures var d := DoCalls(cfg, c, calls);
            Flushing(d) && d.output == c.output && d.wire == c.wire
  {
    if calls != [] {
      CallsWhileFlushing(cfg, c, calls[..|calls| - 1]);
      WritingIsOut(DoCalls(cfg, c, calls[..|calls| - 1]));
    }
  }

  lemma WriteWhileFlushing(cfg: Config, c: Conn, w: WriteResult)
    requires Flushing(c)
    ensures var d := HandleWrite(cfg, c, w);
            && Flushing(d) && d.wire + d.output == c.wire + c.output && |d.output| <= |c.output|
            && (w.Room? && 0 < w.room && c.output != [] ==> |d.output| < |c.output|)
  {
    DrainEffect(cfg, c, w);
    WriteKeepsInterest(cfg, c, w);
  }

  lemma StepWhileFlushing(cfg: Config, c: Conn, step: Step)
    requires Flushing(c) && Legal(c, step) && KeepsOpen(step) && AskedBy(step) == []
    ensures var d := Next(cfg, c, step);
            && Flushing(d) && d.wire + d.output == c.wire + c.output && |d.output| <= |c.output|
            && (Productive(step) && c.output != [] ==> |d.output| < |c.output|)
  {
    hide HandleWrite, DoCalls;
    WritingIsOut(c);
    match step
    case Event(revents, r, calls, w) =>
      ReadsExactly(revents);
      var d := AtMessage(c, revents, ReceivedBy(step));
      if ReceivedBy(step) != [] { CallsWhileFlushing(cfg, d, calls); }
      WriteWhileFlushing(cfg, CloseThenRead(cfg, c, revents, r, calls), w);
    case App(call) => assert [call][..0] == [] && !call.Send? by { assert Asked([call]) == []; }
    case RemoteSend(_, _) => assert false;
    case _ =>
  }

  /** Output goes out. While a connection is open, connected or shutting down, and nothing more
      is sent, as many productive writable events as there are unsent bytes empty the output
      onto the wire, in order, whatever else happens in between. */
  lemma {:induction false} OutputIsFlushed(cfg: Config, c: Conn, steps: seq<Step>)
    requires Flushing(c) && LegalRun(cfg, c, steps)
    requires forall i :: 0 <= i < |steps| ==> KeepsOpen(steps[i]) && AskedBy(steps[i]) == []
    ensures var d := Run(cfg, c, steps);
            && Flushing(d) && d.wire + d.output == c.wire + c.output
            && (d.output == [] || |d.output| + Productives(steps) <= |c.output|)
            && (|c.output| <= Productives(steps) ==> d.output == [] && d.wire == c.wire + c.output)
  {
    if steps != [] {
      hide Next, AskedBy, KeepsOpen, Flushing;
      var before := steps[..|steps| - 1];
      OutputIsFlushed(cfg, c, before);
      StepWhileFlushing(cfg, Run(cfg, c, before), steps[|steps| - 1]);
    }
    assert forall d: Bytes :: d + [] == d;
  }

  /** After shutdown, and barring a close, the half-close comes: writable events that
      each take at least one byte, as many as there were unsent bytes, are enough,
      whatever else the loop thread does in between. */
  lemma {:induction false} HalfCloseIsReached(cfg: Config, c: Conn, steps: seq<Step>)
    requires Closing(c) && LegalRun(cfg, c, steps)
    requires forall i :: 0 <= i < |steps| ==> OnLoopThread(steps[i]) && KeepsOpen(steps[i])
    ensures var d := Run(cfg, c, steps);
            && Closing(d)
            && (d.fins != [] || |d.output| + Productives(steps) <= |c.output|)
            && (|c.output| <= Productives(steps) ==> d.fins != [])
  {
    if steps != [] {
      var before := steps[..|steps| - 1];
      HalfCloseIsReached(cfg, c, before);
      StepWhileClosing(cfg, Run(cfg, c, before), steps[|steps| - 1]);
    }
  }

  // ------------------------------------------------- callbacks and closing

  lemma BufferedQueues(cfg: Config, c: Conn, rest: Bytes)
    ensures var level := |c.output| + |rest|;
            var note := if rest != [] && level >= cfg.mark && |c.output| < cfg.mark && cfg.highWater then [HighWater(level)] else [];
            Buffered(cfg, c, rest).callbacks == c.callbacks + note
  {
  }

  // The levels reported by the high-water callbacks, in order.
  function Levels(callbacks: seq<Callback>): seq<nat> {
    if callbacks == [] then []
    else
      var last := callbacks[|callbacks| - 1];
      Levels(callbacks[..|callbacks| - 1]) + if last.HighWater? then [last.level] else []
  }

  lemma LevelsSnoc(callbacks: seq<Callback>, last: Callback)
    ensures Levels(callbacks + [last]) == Levels(callbacks) + if last.HighWater? then [last.level] else []
  {
    assert (callbacks + [last])[..|callbacks|] == callbacks;
  }

  lemma BufferedLevels(cfg: Config, c: Conn, rest: Bytes)
    ensures var level := |c.output| + |rest|;
            Levels(Buffered(cfg, c, rest).callbacks)
            == Levels(c.callbacks) + if rest != [] && cfg.highWater && |c.output| < cfg.mark <= level then [level] else []
  {
    hide Buffered, Levels;
    BufferedQueues(cfg, c, rest);
    LevelsSnoc(c.callbacks, HighWater(|c.output| + |rest|));
    assert c.callbacks + [] == c.callbacks && Levels(c.callbacks) + [] == Levels(c.callbacks);
  }

  /** A send queues the high-water callback once, with the new level, exactly when it lifts
      the output from below the mark to it or above. */
  lemma HighWaterExactly(cfg: Config, c: Conn, data: Bytes, w: WriteResult)
    requires Interested(c) && Live(c)
    ensures var d := SendInLoop(cfg, c, data, w);
            Levels(d.callbacks)
            == Levels(c.callbacks) + if cfg.highWater && |c.output| < cfg.mark <= |d.output| then [|d.output|] else []
  {
    hide Buffered, Levels;
    WritingIsOut(c);
    assert Levels(c.callbacks) + [] == Levels(c.callbacks);
    if c.output != [] {
      BufferedLevels(cfg, Recorded(c, data, Taken), data);
    } else {
      LevelsSnoc(c.callbacks, WriteComplete);
      var answer := Answer(c, w);
      BufferedLevels(cfg, Recorded(WriteDirectly(cfg, c, data, answer), data, Taken), data[Written(data, answer)..]);
    }
  }

  /** The write-complete callback is queued once by a send exactly when the kernel takes
      all of it at once, so that nothing is left unsent. */
  lemma SendCompletesExactly(cfg: Config, c: Conn, data: Bytes, w: WriteResult)
    requires Interested(c) && Live(c)
    ensures var d := SendInLoop(cfg, c, data, w);
            multiset(d.callbacks)[WriteComplete] == multiset(c.callbacks)[WriteComplete]
              + if cfg.writeComplete && TriesDirectly(c) && Answer(c, w).Room? && d.output == [] then 1 else 0
  {
    hide Buffered;
    WritingIsOut(c);
    BufferedQueues(cfg, Recorded(c, data, Taken), data);
    var answer := Answer(c, w);
    var n := Written(data, answer);
    BufferedQueues(cfg, Recorded(WriteDirectly(cfg, c, data, answer), data, Taken), data[n..]);
    assert data[n..] == [] <==> n == |data|;
  }

  /** A drain queues it once exactly when it empties the output. */
  lemma DrainCompletesExactly(cfg: Config, c: Conn, w: WriteResult)
    requires Interested(c) && Live(c)
    ensures var d := HandleWrite(cfg, c, w);
            multiset(d.callbacks)[WriteComplete] == multiset(c.callbacks)[WriteComplete]
              + if cfg.writeComplete && c.output != [] && d.output == [] then 1 else 0
  {
    WritingIsOut(c);
  }

  /** handleClose runs twice in one dispatch exactly when a hang-up without EPOLLIN
      comes with EPOLLPRI or EPOLLRDHUP and the read finds the end of the stream. */
  lemma DoubleCloseExactly(cfg: Config, c: Conn, revents: P.Mask, r: ReadResult, calls: seq<AppCall>, w: WriteResult)
    ensures var closes := Dispatch(cfg, c, revents, r, calls, w).closes - c.closes;
            && 0 <= closes <= 2
            && (closes == 2 <==> P.Hup in revents && P.In !in revents && (P.Pri in revents || P.RdHup in revents) && r == Got([]))
            && (closes == 0 <==> !(P.Hup in revents && P.In !in revents)
                                 && !((P.In in revents || P.Pri in revents || P.RdHup in revents) && r == Got([])))
  {
    var d := if HangsUp(revents) then HandleClose(c) else c;
    if r.Got? { CallsAnnounceNothing(cfg, d.(input := d.input + r.bytes), calls); }
    ReadsExactly(revents);
  }

  // How often a connection is destroyed while still connected.
  function DestroyedUp(cfg: Config, steps: seq<Step>): nat {
    if steps == [] then 0
    else
      var before := steps[..|steps| - 1];
      DestroyedUp(cfg, before)
      + if steps[|steps| - 1].Destroy? && Run(cfg, NEW_CONN, before).state == Connected then 1 else 0
  }

  predicate Announced(c: Conn) {
    c.ups == (if c.state == Connecting then 0 else 1) && (c.state == Disconnected <==> 0 < c.downs)
  }

  lemma CallAnnouncesNothing(cfg: Config, c: Conn, call: AppCall)
    ensures var d := DoCall(cfg, c, call);
            && d.ups == c.ups && d.downs == c.downs && d.closes == c.closes
            && (d.state == c.state || (c.state == Connected && d.state == Disconnecting))
  {
    hide P.Apply;
  }

  lemma {:induction false} CallsAnnounceNothing(cfg: Config, c: Conn, calls: seq<AppCall>)
    ensures var d := DoCalls(cfg, c, calls);
            && d.ups == c.ups && d.downs == c.downs && d.closes == c.closes
            && (d.state == c.state || (c.state == Connected && d.state == Disconnecting))
  {
    if calls != [] {
      hide DoCall;
      CallsAnnounceNothing(cfg, c, calls[..|calls| - 1]);
      CallAnnouncesNothing(cfg, DoCalls(cfg, c, calls[..|calls| - 1]), calls[|calls| - 1]);
    }
  }

  lemma WriteAnnouncesNothing(cfg: Config, c: Conn, w: WriteResult)
    ensures var d := HandleWrite(cfg, c, w); d.ups == c.ups && d.downs == c.downs && d.closes == c.closes && d.state == c.state
  {
    hide P.Apply;
  }

  lemma EventAnnounces(cfg: Config, c: Conn, step: Step)
    requires Legal(c, step) && step.Event? && Announced(c)
    ensures var d := Next(cfg, c, step); Announced(d) && d.downs == c.downs + (d.closes - c.closes)
  {
    hide DoCalls, P.Apply, HandleWrite;
    CallsAnnounceNothing(cfg, AtMessage(c, step.revents, ReceivedBy(step)), step.calls);
    ReadsExactly(step.revents);
    WriteAnnouncesNothing(cfg, CloseThenRead(cfg, c, step.revents, step.r, step.calls), step.w);
  }

  lemma StepAnnounces(cfg: Config, c: Conn, step: Step)
    requires Legal(c, step) && Announced(c)
    ensures var d := Next(cfg, c, step);
            && Announced(d)
            && d.downs == c.downs + (d.closes - c.closes) + if step.Destroy? && c.state == Connected then 1 else 0
  {
    hide DoCalls, DoCall, P.Apply, Dispatch, Writing;
    match step
    case Establish(calls) => CallsAnnounceNothing(cfg, BroughtUp(c), calls);
    case Event(_, _, _, _) => EventAnnounces(cfg, c, step);
    case App(call) => CallAnnouncesNothing(cfg, c, call);
    case _ =>
  }

  /** A connection is announced up once, when it is established, and down once for every
      close, and for a destruction before any; it is disconnected exactly after that. */
  lemma {:induction false} AnnouncedExactly(cfg: Config, steps: seq<Step>)
    requires LegalRun(cfg, NEW_CONN, steps)
    ensures var c := Run(cfg, NEW_CONN, steps);
            Announced(c) && c.downs == c.closes + DestroyedUp(cfg, steps)
  {
    if steps != [] {
      hide Next, Announced;
      AnnouncedExactly(cfg, steps[..|steps| - 1]);
      StepAnnounces(cfg, Run(cfg, NEW_CONN, steps[..|steps| - 1]), steps[|steps| - 1]);
    } else {
      assert Announced(NEW_CONN);
    }
  }
}
