/**
  Which sends a shutdown loses. One that another thread has queued, and that runs after
  SHUT_WR on an open connection, is refused by the kernel and dropped
  (src/net/Connection.cc:44-52, 77-102). The drain issues SHUT_WR as soon as the state is
  kDisconnecting, so this befalls a thread's own send before its own shutdown.
 */
module ServerLostSends {
  import opened ServerModel
  import opened ServerSafety
  import opened ServerTheorems
  import opened ServerShutdown
  import opened ServerHalfClose
  import B = ByteBuffer
  import C = ConnectionModel

  predicate HasBytes(f: Functor, id: nat) { f.RawSend? && f.id == id && f.data != [] }

  /** The next functor of the batch is a queued send with bytes, too late. */
  predicate Loses(s: Server, id: nat)
    requires WellFormed(s) && id < |s.peers|
  {
    var loop, c := s.loops[s.peers[id].loop], s.peers[id].conn;
    && loop.phase == Running && loop.queue.todo != [] && HasBytes(loop.queue.todo[0], id)
    && c.state == C.Disconnecting && c.fins != []
  }

  /** When it runs, its bytes are faulted, whatever the kernel's buffers hold. */
  lemma LosesItsBytes(cfg: C.Config, s: Server, id: nat, calls: seq<C.AppCall>, w: B.WriteResult)
    requires Inv(s) && AllSettled(s) && id < |s.peers| && Loses(s, id)
    ensures var l := s.peers[id].loop;
            var f := s.loops[l].queue.todo[0];
            Enabled(s, RunOne(l, calls, w))
            && var c, d := s.peers[id].conn, Next(cfg, s, RunOne(l, calls, w)).peers[id].conn;
               d.sends == c.sends + [C.Sent(f.data, C.Faulted)] && d.wire == c.wire && d.output == c.output == []
  {
    var c := s.peers[id].conn;
    var step := RunOne(s.peers[id].loop, calls, w);
    var f := s.loops[s.peers[id].loop].queue.todo[0];
    RunEnabled(s, s.peers[id].loop, calls, w);
    RunWait(cfg, s, step, id);
    InvIsSane(s, id);
    SaneWriting(WaitOf(s, id), id);
    C.SendEffect(cfg, c, f.data, w);
    assert c.wire + [] == c.wire;
  }

  predicate ShuttingDown(s: Server, id: nat) { id < |s.peers| && s.peers[id].conn.state == C.Disconnecting }

  // ------------------------------------------------------------- none is lost

  predicate Doomed(slot: Slot) { slot.Due? && C.HangsUp(slot.mask) }

  /** No queued send with bytes can come after SHUT_WR. */
  predicate NoLoss(w: Wait) {
    var c := w.conn;
    && Down(c)
    && (c.state == C.Disconnecting && c.fins != [] && !Doomed(w.slot) ==> NoBytes(w.All()))
    && (c.state == C.Disconnecting && c.fins == [] && w.slot.MayDrain() && Unsent(w) ==> NoBytes(w.pending))
  }

  lemma NoBytesStay(w: Wait, v: Wait, id: nat)
    requires w.todo == v.todo == [] && DestroysAdded(w.pending, v.pending, id)
    ensures NoBytes(w.pending) ==> NoBytes(v.pending)
    ensures w.All() == w.pending && v.All() == v.pending
  {
    RawsAsBefore(w, v, id);
    assert forall f :: f in v.All() && f.RawSend? ==> f in w.All();
  }

  lemma DispatchStaysDown(cfg: C.Config, c: C.Conn, mask: P.Mask, r: B.ReadResult, calls: seq<C.AppCall>, w: B.WriteResult)
    requires c.state == C.Disconnected
    ensures C.Dispatch(cfg, c, mask, r, calls, w).state == C.Disconnected
  {
    hide C.DoCalls, P.Apply;
    var d := if C.HangsUp(mask) then C.HandleClose(c) else c;
    if r.Got? { CallsRefused(cfg, d.(input := d.input + r.bytes), calls); }
  }

  lemma DispatchesNoLoss(cfg: C.Config, step: Step, id: nat, w: Wait, v: Wait)
    requires Sane(w, id) && NoLoss(w) && Dispatches(cfg, step, id, w, v)
    ensures NoLoss(v)
  {
    hide C.Dispatch, C.Writing, NoBytes, DestroysAdded;
    var c, mask := w.conn, w.slot.mask;
    DispatchDrains(cfg, c, mask, step.r, step.calls, step.w);
    if c.state == C.Disconnecting { SaneWriting(w, id); }
    if !w.slot.MayDrain() { DispatchUndrained(cfg, c, mask, step.r, step.calls, step.w); }
    if c.state == C.Disconnected { DispatchStaysDown(cfg, c, mask, step.r, step.calls, step.w); }
    NoBytesStay(w, v, id);
  }

  lemma RunsNoLoss(cfg: C.Config, step: Step, id: nat, w: Wait, v: Wait)
    requires Sane(w, id) && Orderly(w, id) && NoLoss(w) && Runs(cfg, step, id, w, v)
    ensures NoLoss(v)
  {
    hide C.SendInLoop, C.Writing, P.Apply;
    HeadFits(w, id);
    assert v.All() == w.All()[1..];
    assert forall g :: g in w.All() <==> g == w.todo[0] || g in v.All();
    match w.todo[0]
    case RawSend(_, data) => C.SendEffect(cfg, w.conn, data, step.w);
    case Destroy(_) => DestroyIsQuiet(w.conn);
    case _ =>
  }

  lemma QueuesNoLoss(step: Step, id: nat, w: Wait, v: Wait)
    requires NoLoss(w) && Queues(step, id, w, v)
    ensures NoLoss(v)
  {
    assert v.All() == w.All() + [Destroy(id)];
  }

  lemma SwapsNoLoss(id: nat, w: Wait, v: Wait)
    requires NoLoss(w) && Swaps(w, v)
    ensures NoLoss(v)
  {
    assert v.All() == w.All();
  }

  lemma SameNoLoss(id: nat, w: Wait, v: Wait)
    requires NoLoss(w) && v == w.(conn := v.conn, slot := v.slot)
    requires (v.slot.MayDrain() ==> w.slot.MayDrain()) && (Doomed(w.slot) ==> Doomed(v.slot))
    requires v.conn.state == w.conn.state && v.conn.fins == w.conn.fins && v.conn.output == w.conn.output
    ensures NoLoss(v)
  {
    hide NoBytes;
  }

  lemma MovedNoLoss(cfg: C.Config, step: Step, id: nat, w: Wait, v: Wait)
    requires Sane(w, id) && Orderly(w, id) && NoLoss(w) && Moved(cfg, step, id, w, v)
    ensures NoLoss(v)
  {
    hide Dispatches, Runs, Queues, Swaps, Sane, C.DoCall, C.Writing;
    if Dispatches(cfg, step, id, w, v) {
      DispatchesNoLoss(cfg, step, id, w, v);
    } else if Runs(cfg, step, id, w, v) {
      RunsNoLoss(cfg, step, id, w, v);
    } else if Queues(step, id, w, v) {
      QueuesNoLoss(step, id, w, v);
    } else if Swaps(w, v) {
      SwapsNoLoss(id, w, v);
    } else {
      if step.App? { CallRefused(cfg, w.conn, step.call); }
      SameNoLoss(id, w, v);
    }
  }

  lemma {:induction false} RunKeepsNoLoss(cfg: C.Config, s: Server, steps: seq<Step>, id: nat)
    requires Inv(s) && AllOrderly(s) && LegalRun(cfg, s, steps) && id < |s.peers| && NoLoss(WaitOf(s, id))
    ensures NoLoss(WaitOf(Run(cfg, s, steps), id))
    decreases |steps|
  {
    if steps != [] {
      hide Moved, WaitOf;
      var r := Next(cfg, s, steps[0]);
      StepWait(cfg, s, steps[0], id);
      InvIsSane(s, id);
      MovedNoLoss(cfg, steps[0], id, WaitOf(s, id), WaitOf(r, id));
      NextKeepsInv(cfg, s, steps[0]);
      NextKeepsOrder(cfg, s, steps[0]);
      RunKeepsNoLoss(cfg, r, steps[1..], id);
    }
  }

  lemma NoLossHolds(s: Server, id: nat)
    requires Inv(s) && id < |s.peers| && NoLoss(WaitOf(s, id))
    ensures !Loses(s, id)
  {
    var q := s.loops[s.peers[id].loop].queue;
    PartsMembers(q.todo, id);
    assert q.todo != [] && HasBytes(q.todo[0], id) ==> q.todo[0] in Io(q.todo, id);
    assert forall f :: f in Io(q.todo, id) ==> f in WaitOf(s, id).All();
  }

  // ----------------------------------------------------- how one comes to be lost

  ghost predicate CanLose(cfg: C.Config, s: Server, id: nat)
    requires WellFormed(s) && id < |s.peers|
  {
    exists steps :: LegalRun(cfg, s, steps) && Loses(Run(cfg, s, steps), id)
  }

  lemma LoseBefore(cfg: C.Config, s: Server, step: Step, id: nat)
    requires WellFormed(s) && id < |s.peers| && Enabled(s, step) && CanLose(cfg, Next(cfg, s, step), id)
    ensures CanLose(cfg, s, id)
  {
    var rest :| LegalRun(cfg, Next(cfg, s, step), rest) && Loses(Run(cfg, Next(cfg, s, step), rest), id);
    RunFirst(cfg, s, step, rest);
  }

  lemma LoseNow(cfg: C.Config, s: Server, id: nat)
    requires WellFormed(s) && id < |s.peers| && Loses(s, id)
    ensures CanLose(cfg, s, id)
  {
    assert LegalRun(cfg, s, []) && Run(cfg, s, []) == s;
  }

  predicate Spent(c: C.Conn) { c.state == C.Disconnecting && c.fins != [] }

  // One functor of the batch of a connection that is shutting down.
  lemma BatchMoves(cfg: C.Config, s: Server, id: nat)
    requires Inv(s) && ShuttingDown(s, id) && s.loops[s.peers[id].loop].phase == Running
    requires s.loops[s.peers[id].loop].queue.todo != []
    ensures Enabled(s, RunStingily(s, id))
    ensures var l, r := s.peers[id].loop, Next(cfg, s, RunStingily(s, id));
            var w, v, f := WaitOf(s, id), WaitOf(r, id), s.loops[l].queue.todo[0];
            && Inv(r) && ShuttingDown(r, id) && r.peers[id].loop == l && r.loops[l].phase == Running
            && |r.loops[l].queue.todo| < |s.loops[l].queue.todo| && (Spent(w.conn) ==> Spent(v.conn))
            && w.pending <= v.pending && (!NoBytes(w.todo) && !HasBytes(f, id) ==> !NoBytes(v.todo))
  {
    hide Runs, PeersOk, LoopsOk, OwnFds;
    var l, step := s.peers[id].loop, RunStingily(s, id);
    RunEnabled(s, l, [], B.Room(0));
    NextKeepsInv(cfg, s, step);
    RunShape(cfg, s, step);
    RunWait(cfg, s, step, id);
    ConnOfWait(s, id);
    ConnOfWait(Next(cfg, s, step), id);
    if Mine(s.loops[l].queue.todo[0], id) { OwnMoves(cfg, step, id, s, WaitOf(s, id), WaitOf(Next(cfg, s, step), id)); }
  }

  lemma OwnMoves(cfg: C.Config, step: Step, id: nat, s: Server, w: Wait, v: Wait)
    requires Inv(s) && ShuttingDown(s, id) && w == WaitOf(s, id) && Runs(cfg, step, id, w, v)
    ensures v.conn.state == C.Disconnecting && (Spent(w.conn) ==> Spent(v.conn)) && v.pending == w.pending
    ensures !NoBytes(w.todo) && !HasBytes(w.todo[0], id) ==> !NoBytes(v.todo)
  {
    hide C.SendInLoop, P.Apply, Inv, PeersOk, LoopsOk;
    InvIsSane(s, id);
    HeadFits(w, id);
    var f := w.todo[0];
    assert w.todo == [f] + v.todo && f in w.All();
    if f.RawSend? { C.SendEffect(cfg, w.conn, f.data, step.w); }
    assert forall g :: g in w.todo ==> g == f || g in v.todo;
  }

  /** The batch that holds the bytes, after SHUT_WR. */
  lemma {:induction false} BatchLoses(cfg: C.Config, s: Server, id: nat)
    requires Inv(s) && ShuttingDown(s, id) && Spent(s.peers[id].conn)
    requires s.loops[s.peers[id].loop].phase == Running && !NoBytes(WaitOf(s, id).todo)
    ensures CanLose(cfg, s, id)
    decreases |s.loops[s.peers[id].loop].queue.todo|
  {
    hide CanLose, PeersOk, LoopsOk, OwnFds;
    var todo := s.loops[s.peers[id].loop].queue.todo;
    PartsMembers(todo, id);
    if HasBytes(todo[0], id) {
      LoseNow(cfg, s, id);
    } else {
      hide Inv, NoBytes, HasBytes, Next, Enabled, WaitOf;
      BatchMoves(cfg, s, id);
      BatchLoses(cfg, Next(cfg, s, RunStingily(s, id)), id);
      LoseBefore(cfg, s, RunStingily(s, id), id);
    }
  }

  lemma PassConn(cfg: C.Config, c: C.Conn, mask: P.Mask)
    requires !C.HangsUp(mask)
    ensures C.Dispatch(cfg, c, mask, B.ReadFailed(B.EOTHER), [], B.Room(0)) == c
  {
  }

  // The head of the active list is handled, the kernel giving and taking nothing.
  lemma PassHead(cfg: C.Config, s: Server, id: nat)
    requires Inv(s) && ShuttingDown(s, id) && !Doomed(SlotOf(s, id))
    requires var phase := s.loops[s.peers[id].loop].phase; phase.Dispatching? && phase.active != []
    ensures var l := s.peers[id].loop;
            Enabled(s, Noop(l)) && var r := Next(cfg, s, Noop(l));
            && Inv(r) && ShuttingDown(r, id) && r.peers[id].loop == l && r.peers[id].conn == s.peers[id].conn
            && r.loops[l].phase.Dispatching? && |r.loops[l].phase.active| < |s.loops[l].phase.active|
            && !Doomed(SlotOf(r, id)) && WaitOf(s, id).pending <= WaitOf(r, id).pending
  {
    hide C.Dispatch, PeersOk, LoopsOk, OwnFds;
    var l := s.peers[id].loop;
    TakenWait(s, l, id);
    NextKeepsInv(cfg, s, Noop(l));
    EventWait(cfg, s, Noop(l), id);
    EventShape(cfg, s, Noop(l), id);
    ConnOfWait(s, id);
    ConnOfWait(Next(cfg, s, Noop(l)), id);
    if s.loops[l].phase.active[0] == id { PassConn(cfg, s.peers[id].conn, s.loops[l].phase.Head()); }
  }

  /** Bytes queued, in a round after SHUT_WR that does not close the connection. */
  lemma {:induction false} RoundLoses(cfg: C.Config, s: Server, id: nat)
    requires Inv(s) && ShuttingDown(s, id) && Spent(s.peers[id].conn) && s.loops[s.peers[id].loop].phase.Dispatching?
    requires !Doomed(SlotOf(s, id)) && !NoBytes(WaitOf(s, id).pending)
    ensures CanLose(cfg, s, id)
    decreases |s.loops[s.peers[id].loop].phase.active|
  {
    hide CanLose, PeersOk, OwnFds;
    var l := s.peers[id].loop;
    if s.loops[l].phase.active == [] {
      var step := StartBatch(l);
      assert LoopOk(s, l) && Enabled(s, step);
      NextKeepsInv(cfg, s, step);
      PhaseWait(cfg, s, step, id);
      BatchLoses(cfg, Next(cfg, s, step), id);
      LoseBefore(cfg, s, step, id);
    } else {
      hide LoopsOk, Next, Enabled, Inv, NoBytes;
      PassHead(cfg, s, id);
      MoreBytes(WaitOf(s, id).pending, WaitOf(Next(cfg, s, Noop(l)), id).pending);
      RoundLoses(cfg, Next(cfg, s, Noop(l)), id);
      LoseBefore(cfg, s, Noop(l), id);
    }
  }

  lemma MoreBytes(p: seq<Functor>, q: seq<Functor>)
    requires p <= q
    ensures !NoBytes(p) ==> !NoBytes(q)
  {
    assert forall f :: f in p ==> f in q;
  }

  // A poll that reports nothing.
  lemma PollsNone(cfg: C.Config, s: Server, id: nat)
    requires Inv(s) && ShuttingDown(s, id) && s.loops[s.peers[id].loop].phase == Polling
    ensures var l := s.peers[id].loop;
            Enabled(s, Poll(l, [], map[])) && var r := Next(cfg, s, Poll(l, [], map[]));
            && Inv(r) && ShuttingDown(r, id) && r.peers == s.peers && r.loops[l].phase == IDLE
            && !Doomed(SlotOf(r, id)) && WaitOf(r, id).pending == WaitOf(s, id).pending
  {
    hide PeersOk, LoopsOk, OwnFds;
    var step := Poll(s.peers[id].loop, [], map[]);
    NextKeepsInv(cfg, s, step);
    PhaseWait(cfg, s, step, id);
  }

  lemma PollLoses(cfg: C.Config, s: Server, id: nat)
    requires Inv(s) && ShuttingDown(s, id) && Spent(s.peers[id].conn) && s.loops[s.peers[id].loop].phase == Polling
    requires !NoBytes(WaitOf(s, id).pending)
    ensures CanLose(cfg, s, id)
  {
    hide CanLose, Next, Enabled, PeersOk, LoopsOk, OwnFds;
    var step := Poll(s.peers[id].loop, [], map[]);
    PollsNone(cfg, s, id);
    RoundLoses(cfg, Next(cfg, s, step), id);
    LoseBefore(cfg, s, step, id);
  }

  /** Bytes queued behind the running batch, after SHUT_WR. */
  lemma {:induction false} QueueLoses(cfg: C.Config, s: Server, id: nat)
    requires Inv(s) && ShuttingDown(s, id) && Spent(s.peers[id].conn) && s.loops[s.peers[id].loop].phase == Running
    requires !NoBytes(WaitOf(s, id).pending)
    ensures CanLose(cfg, s, id)
    decreases |s.loops[s.peers[id].loop].queue.todo|
  {
    hide CanLose, PeersOk, LoopsOk, OwnFds;
    var l := s.peers[id].loop;
    if s.loops[l].queue.todo == [] {
      BatchEnds(cfg, s, id);
      PollLoses(cfg, Next(cfg, s, FinishBatch(l)), id);
      LoseBefore(cfg, s, FinishBatch(l), id);
    } else {
      hide Inv, NoBytes, Next, Enabled;
      BatchMoves(cfg, s, id);
      MoreBytes(WaitOf(s, id).pending, WaitOf(Next(cfg, s, RunStingily(s, id)), id).pending);
      QueueLoses(cfg, Next(cfg, s, RunStingily(s, id)), id);
      LoseBefore(cfg, s, RunStingily(s, id), id);
    }
  }

  /** Output unsent and bytes queued behind it: a drain, then they come too late. */
  lemma {:induction false} DrainLoses(cfg: C.Config, s: Server, id: nat)
    requires Inv(s) && ShuttingDown(s, id) && Loaded(s.peers[id].conn) && s.loops[s.peers[id].loop].phase.Dispatching?
    requires WaitOf(s, id).slot.MayDrain() && !NoBytes(WaitOf(s, id).pending)
    ensures CanLose(cfg, s, id)
    decreases |s.loops[s.peers[id].loop].phase.active|
  {
    hide CanLose, PeersOk, LoopsOk, OwnFds;
    var l := s.peers[id].loop;
    OverIsAbsent(s, id);
    if s.loops[l].phase.active[0] == id {
      var step := Drain(l, s.peers[id].conn);
      DrainHead(cfg, s, id);
      RoundLoses(cfg, Next(cfg, s, step), id);
      LoseBefore(cfg, s, step, id);
    } else {
      SkipHead(cfg, s, id);
      DrainLoses(cfg, Next(cfg, s, Noop(l)), id);
      LoseBefore(cfg, s, Noop(l), id);
    }
  }

  lemma PollDrains(cfg: C.Config, s: Server, id: nat)
    requires Inv(s) && ShuttingDown(s, id) && Loaded(s.peers[id].conn) && s.loops[s.peers[id].loop].phase == Polling
    requires !NoBytes(WaitOf(s, id).pending)
    ensures CanLose(cfg, s, id)
  {
    hide CanLose, PeersOk, LoopsOk, OwnFds, Next, Enabled;
    var step := PollIt(s.peers[id].loop, id);
    PollsIt(cfg, s, id);
    DrainLoses(cfg, Next(cfg, s, step), id);
    LoseBefore(cfg, s, step, id);
  }

  lemma {:induction false} UnsentLoses(cfg: C.Config, s: Server, id: nat)
    requires Inv(s) && ShuttingDown(s, id) && s.peers[id].conn.fins == [] && s.loops[s.peers[id].loop].phase == Running
    requires var w := WaitOf(s, id); RawShutdown(id) !in w.todo && Unsent(w) && !NoBytes(w.pending)
    ensures CanLose(cfg, s, id)
    decreases |s.loops[s.peers[id].loop].queue.todo|
  {
    hide CanLose, PeersOk, LoopsOk, OwnFds;
    var l := s.peers[id].loop;
    if s.loops[l].queue.todo == [] {
      BatchEnds(cfg, s, id);
      PollDrains(cfg, Next(cfg, s, FinishBatch(l)), id);
      LoseBefore(cfg, s, FinishBatch(l), id);
    } else {
      hide Unsent;
      StingyRun(cfg, s, id);
      MoreBytes(WaitOf(s, id).pending, WaitOf(Next(cfg, s, RunStingily(s, id)), id).pending);
      UnsentLoses(cfg, Next(cfg, s, RunStingily(s, id)), id);
      LoseBefore(cfg, s, RunStingily(s, id), id);
    }
  }

  // ------------------------------------------------------------- the result

  ghost predicate QueuedBytes(fs: seq<Functor>, id: nat) { exists f :: f in fs && HasBytes(f, id) }

  /** What SHUT_WR may overtake. Issued: any queued bytes, unless a stored hang-up closes the
      connection first. Still to come: those of the next batch, if there is output, or bytes
      in the running batch to make some, and an event may drain it first. */
  ghost predicate MayLose(s: Server, id: nat)
    requires WellFormed(s) && id < |s.peers|
  {
    var q := s.loops[s.peers[id].loop].queue;
    if s.peers[id].conn.fins != [] then !Doomed(SlotOf(s, id)) && QueuedBytes(q.Unrun(), id)
    else
      SlotOf(s, id).MayDrain() && QueuedBytes(q.pending, id)
      && (s.peers[id].conn.output != [] || QueuedBytes(q.todo, id))
  }

  lemma QueuedIsBytes(q: seq<Functor>, id: nat)
    ensures QueuedBytes(q, id) <==> !NoBytes(Io(q, id))
  {
    PartsMembers(q, id);
    if QueuedBytes(q, id) {
      var f :| f in q && HasBytes(f, id);
      assert f in Io(q, id);
    }
  }

  lemma LosesWhat(s: Server, id: nat)
    requires WellFormed(s) && id < |s.peers|
    ensures var w := WaitOf(s, id);
            MayLose(s, id)
            <==> if w.conn.fins != [] then !Doomed(w.slot) && !NoBytes(w.All())
                 else w.slot.MayDrain() && !NoBytes(w.pending) && Unsent(w)
  {
    hide QueuedBytes, NoBytes;
    var q := s.loops[s.peers[id].loop].queue;
    IoConcat(q.todo, q.pending, id);
    QueuedIsBytes(q.Unrun(), id);
    QueuedIsBytes(q.todo, id);
    QueuedIsBytes(q.pending, id);
  }

  lemma TodoOnlyRunning(s: Server, id: nat)
    requires Inv(s) && id < |s.peers| && s.loops[s.peers[id].loop].phase != Running
    ensures var w := WaitOf(s, id); w.todo == [] && w.All() == w.pending && (Unsent(w) ==> w.conn.output != [])
  {
    assert LoopOk(s, s.peers[id].loop);
  }

  lemma SomeBytes(w: Wait)
    ensures !NoBytes(w.All()) ==> !NoBytes(w.todo) || !NoBytes(w.pending)
  {
  }

  // A shutdownInLoop queued before bytes is not possible.
  lemma ShutdownIsLast(w: Wait, id: nat)
    requires Orderly(w, id) && !NoBytes(w.pending)
    ensures RawShutdown(id) !in w.todo
  {
    var f :| f in w.pending && f.RawSend? && f.data != [];
    var j :| 0 <= j < |w.pending| && w.pending[j] == f;
    assert w.All()[|w.todo| + j] == f;
    assert forall i :: 0 <= i < |w.todo| ==> w.All()[i] == w.todo[i];
  }

  lemma MayLoseIsLost(cfg: C.Config, s: Server, id: nat)
    requires Inv(s) && AllOrderly(s) && ShuttingDown(s, id) && MayLose(s, id)
    ensures CanLose(cfg, s, id)
  {
    hide CanLose, MayLose, NoBytes;
    var w, phase := WaitOf(s, id), s.loops[s.peers[id].loop].phase;
    LosesWhat(s, id);
    SomeBytes(w);
    if phase != Running { TodoOnlyRunning(s, id); }
    if s.peers[id].conn.fins == [] {
      ShutdownIsLast(w, id);
      match phase
      case Running => UnsentLoses(cfg, s, id);
      case Polling => PollDrains(cfg, s, id);
      case Dispatching(_, _) => DrainLoses(cfg, s, id);
    } else {
      match phase
      case Running => if NoBytes(w.todo) { QueueLoses(cfg, s, id); } else { BatchLoses(cfg, s, id); }
      case Polling => PollLoses(cfg, s, id);
      case Dispatching(_, _) => RoundLoses(cfg, s, id);
    }
  }

  lemma NoneIsLost(cfg: C.Config, s: Server, id: nat)
    requires Inv(s) && AllOrderly(s) && ShuttingDown(s, id) && !MayLose(s, id)
    ensures !CanLose(cfg, s, id)
  {
    hide MayLose;
    LosesWhat(s, id);
    assert NoLoss(WaitOf(s, id));
    forall steps | LegalRun(cfg, s, steps) ensures !Loses(Run(cfg, s, steps), id) {
      RunKeepsNoLoss(cfg, s, steps, id);
      RunKeepsOrder(cfg, s, steps);
      NoLossHolds(Run(cfg, s, steps), id);
    }
  }

  lemma LostExactly(cfg: C.Config, s: Server, id: nat)
    requires Inv(s) && AllOrderly(s) && ShuttingDown(s, id)
    ensures CanLose(cfg, s, id) <==> MayLose(s, id)
  {
    hide CanLose, MayLose;
    if MayLose(s, id) { MayLoseIsLost(cfg, s, id); } else { NoneIsLost(cfg, s, id); }
  }

  /** In every reachable state of a connection shutting down, whichever thread asked for it, a
      send that another thread has queued is lost to SHUT_WR in some continuation exactly
      when SHUT_WR may overtake it. */
  lemma QueuedSendsLostExactly(cfg: C.Config, loops: nat, before: seq<Step>, id: nat)
    requires 1 <= loops && LegalRun(cfg, Initial(loops), before)
    requires ShuttingDown(Run(cfg, Initial(loops), before), id)
    ensures var s := Run(cfg, Initial(loops), before); CanLose(cfg, s, id) <==> MayLose(s, id)
  {
    hide CanLose, MayLose;
    StartsWell(loops);
    RunKeepsOrder(cfg, Initial(loops), before);
    LostExactly(cfg, Run(cfg, Initial(loops), before), id);
  }

  // The state after a send with bytes and a shutdown by one other thread.
  lemma AfterBoth(cfg: C.Config, s: Server, id: nat, data: C.Bytes)
    requires Inv(s) && AllOrderly(s) && id < |s.peers| && s.peers[id].conn.state == C.Connected && s.peers[id].alive
    requires data != []
    ensures var t := Next(cfg, s, CrossSend(id, data));
            && Enabled(t, CrossShutdown(id)) && var r := Next(cfg, t, CrossShutdown(id));
            && Inv(r) && AllOrderly(r) && ShuttingDown(r, id) && (MayLose(r, id) <==> MayDrainFirst(s, id))
  {
    hide PeersOk, LoopsOk, OwnFds, WaitOf, AllOrderly, MayLose, MayDrainFirst;
    var t := Next(cfg, s, CrossSend(id, data));
    NextKeepsInv(cfg, s, CrossSend(id, data));
    NextKeepsOrder(cfg, s, CrossSend(id, data));
    PushWait(s, s.peers[id].loop, RawSend(id, data), id);
    ConnOfWait(s, id);
    AfterShutdown(cfg, t, id);
    var r := Next(cfg, t, CrossShutdown(id));
    ConnOfWait(r, id);
    DrainsFirst(s, id);
    LosesWhat(r, id);
    var f := WaitOf(r, id).pending[|WaitOf(s, id).pending|];
    assert f == RawSend(id, data) && f in WaitOf(r, id).pending;
  }

  /** A thread sends and then shuts down: bytes it has queued may be lost exactly when an event
      may drain the connection before they run, which is when SHUT_WR may also come twice. */
  lemma SendThenShutdownLosesExactly(cfg: C.Config, loops: nat, before: seq<Step>, id: nat, data: C.Bytes)
    requires 1 <= loops && LegalRun(cfg, Initial(loops), before) && data != []
    requires var s := Run(cfg, Initial(loops), before);
             id < |s.peers| && s.peers[id].conn.state == C.Connected && s.peers[id].alive
    ensures var s := Run(cfg, Initial(loops), before);
            var t := Next(cfg, s, CrossSend(id, data));
            Enabled(t, CrossShutdown(id)) && (CanLose(cfg, Next(cfg, t, CrossShutdown(id)), id) <==> MayDrainFirst(s, id))
  {
    hide CanLose, MayLose, MayDrainFirst;
    StartsWell(loops);
    RunKeepsOrder(cfg, Initial(loops), before);
    var s := Run(cfg, Initial(loops), before);
    AfterBoth(cfg, s, id, data);
    LostExactly(cfg, Next(cfg, Next(cfg, s, CrossSend(id, data)), CrossShutdown(id)), id);
  }
}
