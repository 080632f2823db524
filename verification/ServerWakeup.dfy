/**
  The server's loops run the wakeup protocol: every run of ServerModel is, loop by loop, a
  run of EventLoopModel, so no loop sleeps on a functor of a connection.
 */
module ServerWakeup {
  import opened FunctorQueue
  import opened ServerModel
  import opened ServerSafety
  import opened ServerTheorems
  import EL = EventLoopModel
  import C = ConnectionModel

  type EventLoop = EL.Loop<Functor>
  type WakeStep = EL.Step<Functor>

  /** A loop in its first epoll_wait. */
  const STARTED: EventLoop := EL.Loop(EL.Polling, false, 0, Queue([], [], []), {}, [], [])

  function PhaseOf(phase: Phase): EL.Phase {
    match phase
    case Polling => EL.Polling
    case Dispatching(_, _) => EL.Handling(false)
    case Running => EL.Calling
  }

  /** `e` is loop `l` of the server with its eventfd, between the calls of other threads. */
  predicate Matches(s: Server, l: nat, e: EventLoop) {
    && l < |s.loops| && e.phase == PhaseOf(s.loops[l].phase) && e.queue == s.loops[l].queue
    && !e.quit && e.owing == {} && EL.Inv(e)
  }

  /** `steps` are legal in `e` and end in what is loop `l` of the server. */
  predicate Shows(e: EventLoop, steps: seq<WakeStep>, s: Server, l: nat) {
    EL.LegalRun(e, steps) && Matches(s, l, EL.Run(e, steps))
  }

  lemma ShowsOn(e: EventLoop, a: seq<WakeStep>, s: Server, b: seq<WakeStep>, r: Server, l: nat)
    requires Shows(e, a, s, l) && Shows(EL.Run(e, a), b, r, l)
    ensures Shows(e, a + b, r, l)
  {
    EL.RunAppend(e, a, b);
  }

  lemma NoStep(e: EventLoop, s: Server, l: nat)
    requires Matches(s, l, e)
    ensures Shows(e, [], s, l) && EL.Run(e, []) == e
  {
  }

  lemma OneStep(e: EventLoop, step: WakeStep)
    requires EL.Enabled(e, step)
    ensures EL.LegalRun(e, [step]) && EL.Run(e, [step]) == EL.Next(e, step)
    ensures EL.Inv(e) ==> EL.Inv(EL.Next(e, step))
  {
    EL.RunOneMore(e, [], step);
    assert [] + [step] == [step];
    if EL.Inv(e) { EL.NextKeepsInv(e, step); }
  }

  lemma TwoSteps(e: EventLoop, a: WakeStep, b: WakeStep)
    requires EL.Inv(e) && EL.Enabled(e, a) && EL.Enabled(EL.Next(e, a), b)
    ensures EL.LegalRun(e, [a, b]) && EL.Run(e, [a, b]) == EL.Next(EL.Next(e, a), b)
    ensures EL.Inv(EL.Next(EL.Next(e, a), b))
  {
    OneStep(e, a);
    OneStep(EL.Next(e, a), b);
    EL.RunOneMore(e, [a], b);
    assert [a] + [b] == [a, b];
  }

  // ------------------------------------------------- the steps of one loop

  /** The thread of loop `k`, as loop `l` tells threads apart. */
  function Thread(k: nat, l: nat): nat { if k == l then EL.LOOP_THREAD else k + 1 }

  /** queueInLoop on loop `to` by thread `t`, as loop `l` sees it: the push, and the write of
      the eventfd by the same thread if the source's condition asks for one. */
  function Queues(e: EventLoop, l: nat, to: nat, t: nat, f: Functor): seq<WakeStep> {
    if to != l then []
    else if EL.MustWake(e, t) then [EL.Push(t, f), EL.Wake(t)]
    else [EL.Push(t, f)]
  }

  function Repeat(steps: seq<WakeStep>, n: nat): seq<WakeStep> {
    if n == 0 then [] else Repeat(steps, n - 1) + steps
  }

  // How often a dispatch calls the close callback.
  function Closes(cfg: C.Config, s: Server, step: Step): nat
    requires WellFormed(s) && Enabled(s, step) && step.Event?
  {
    var phase := s.loops[step.l].phase;
    var p := s.peers[phase.active[0]];
    var closes := C.Dispatch(cfg, p.conn, phase.Head(), step.r, step.calls, step.w).closes;
    if p.alive && p.conn.closes < closes then closes - p.conn.closes else 0
  }

  /** What a step of the server is in loop `l`. Handlers and functors run on the thread of
      their loop, new connections are made on the thread of the main loop; `worker` is any
      thread but the loop's. A readable eventfd is reported and read in the round of its poll. */
  function Translate(cfg: C.Config, s: Server, step: Step, l: nat, worker: nat, e: EventLoop): seq<WakeStep>
    requires WellFormed(s) && Enabled(s, step)
  {
    match step
    case Poll(k, _, _) =>
      if k != l then [] else if 0 < e.counter then [EL.PollReturns(true), EL.Drain] else [EL.PollReturns(false)]
    case StartBatch(k) => if k != l then [] else [EL.Swap]
    case FinishBatch(k) => if k != l then [] else [EL.Finish, EL.Check]
    case Event(k, _, _, _) =>
      var x := s.loops[k].phase.active[0];
      var f := if s.peers[x].loop == MAIN then Destroy(x) else RemoveInLoop(x);
      Repeat(Queues(e, l, MAIN, Thread(k, l), f), Closes(cfg, s, step))
    case RunOne(k, _, _) =>
      var f := s.loops[k].queue.todo[0];
      (if k != l then [] else [EL.RunOne])
      + if f.RemoveInLoop? then Queues(e, l, s.peers[f.id].loop, Thread(k, l), Destroy(f.id)) else []
    case Accept(io, _, _) => if io == MAIN then [] else Queues(e, l, io, Thread(MAIN, l), Establish(|s.peers|))
    case CrossSend(id, data) =>
      if s.peers[id].conn.state == C.Connected then Queues(e, l, s.peers[id].loop, worker, RawSend(id, data)) else []
    case CrossShutdown(id) =>
      if s.peers[id].conn.state == C.Connected then Queues(e, l, s.peers[id].loop, worker, RawShutdown(id)) else []
    case QueueOwned(id, inLoop) =>
      Queues(e, l, s.peers[id].loop, if inLoop then Thread(s.peers[id].loop, l) else worker, OwnedCall(id))
    case _ => []
  }

  // -------------------------------------------------------------- they are legal

  lemma PushShows(s: Server, l: nat, to: nat, t: nat, f: Functor, e: EventLoop)
    requires Matches(s, l, e) && to < |s.loops| && (t == EL.LOOP_THREAD ==> s.loops[l].phase != Polling)
    ensures Shows(e, Queues(e, l, to, t, f), Push(s, to, f), l)
  {
    if to != l {
      NoStep(e, Push(s, to, f), l);
    } else if EL.MustWake(e, t) {
      TwoSteps(e, EL.Push(t, f), EL.Wake(t));
    } else {
      OneStep(e, EL.Push(t, f));
    }
  }

  lemma {:induction false} RemovesShow(s: Server, x: nat, n: nat, l: nat, t: nat, e: EventLoop)
    requires WellFormed(s) && x < |s.peers| && Matches(s, l, e) && (t == EL.LOOP_THREAD ==> s.loops[l].phase != Polling)
    ensures var r := RemoveTimes(s, x, n);
            var f := if s.peers[x].loop == MAIN then Destroy(x) else RemoveInLoop(x);
            && Shows(e, Repeat(Queues(e, l, MAIN, t, f), n), r, l)
            && r.loops[l].phase == s.loops[l].phase && r.peers[x].loop == s.peers[x].loop
  {
    if n == 0 {
      NoStep(e, s, l);
    } else {
      RemovesShow(s, x, n - 1, l, t, e);
      var f := if s.peers[x].loop == MAIN then Destroy(x) else RemoveInLoop(x);
      var u, before := RemoveTimes(s, x, n - 1), Repeat(Queues(e, l, MAIN, t, f), n - 1);
      var m := EL.Run(e, before);
      PushShows(if u.peers[x].loop == MAIN then Erase(u, x) else u, l, MAIN, t, f, m);
      ShowsOn(e, before, u, Queues(m, l, MAIN, t, f), RemoveTimes(s, x, n), l);
    }
  }

  lemma PhaseShows(cfg: C.Config, s: Server, step: Step, l: nat, worker: nat, e: EventLoop)
    requires Inv(s) && Enabled(s, step) && Matches(s, l, e) && (step.Poll? || step.StartBatch? || step.FinishBatch?)
    ensures Shows(e, Translate(cfg, s, step, l, worker, e), Next(cfg, s, step), l)
  {
    if step.l != l {
      NoStep(e, Next(cfg, s, step), l);
    } else if step.Poll? {
      if 0 < e.counter { TwoSteps(e, EL.PollReturns(true), EL.Drain); } else { OneStep(e, EL.PollReturns(false)); }
    } else if step.StartBatch? {
      OneStep(e, EL.Swap);
    } else {
      TwoSteps(e, EL.Finish, EL.Check);
    }
  }

  lemma EventShows(cfg: C.Config, s: Server, step: Step, l: nat, worker: nat, e: EventLoop)
    requires Inv(s) && Enabled(s, step) && Matches(s, l, e) && step.Event?
    ensures Shows(e, Translate(cfg, s, step, l, worker, e), Next(cfg, s, step), l)
  {
    hide C.Dispatch, PeersOk, LoopsOk, OwnFds;
    var phase := s.loops[step.l].phase;
    var x := phase.active[0];
    ActiveTaken(s, step.l);
    RegisteredIsAlive(s, x);
    var d := C.Dispatch(cfg, s.peers[x].conn, phase.Head(), step.r, step.calls, step.w);
    var t := SetConn(SetPhase(s, step.l, phase.Rest()), x, d);
    assert Matches(t, l, e);
    RemovesShow(t, x, Closes(cfg, s, step), l, Thread(step.l, l), e);
  }

  lemma RunShows(cfg: C.Config, s: Server, step: Step, l: nat, worker: nat, e: EventLoop)
    requires Inv(s) && Enabled(s, step) && Matches(s, l, e) && step.RunOne?
    ensures Shows(e, Translate(cfg, s, step, l, worker, e), Next(cfg, s, step), l)
  {
    hide C.ConnectEstablished, C.ConnectDestroyed, C.SendInLoop, C.ShutdownInLoop, PeersOk, LoopsOk, OwnFds, Shows;
    var f, t := s.loops[step.l].queue.todo[0], Advanced(s, step.l);
    var first: seq<WakeStep> := if step.l != l then [] else [EL.RunOne];
    AdvanceShows(s, step.l, l, e);
    if f.RemoveInLoop? {
      var m, u := EL.Run(e, first), Erase(t, f.id);
      PushShows(u, l, t.peers[f.id].loop, Thread(step.l, l), Destroy(f.id), m);
      ShowsOn(e, first, t, Queues(m, l, t.peers[f.id].loop, Thread(step.l, l), Destroy(f.id)), Next(cfg, s, step), l);
    } else {
      SameLoops(e, first, t, Next(cfg, s, step), l);
      assert first + [] == first;
    }
  }

  // The functor leaves the batch.
  lemma AdvanceShows(s: Server, k: nat, l: nat, e: EventLoop)
    requires Matches(s, l, e) && k < |s.loops| && s.loops[k].phase == Running && s.loops[k].queue.todo != []
    ensures var first: seq<WakeStep> := if k != l then [] else [EL.RunOne];
            && Shows(e, first, Advanced(s, k), l) && Matches(Advanced(s, k), l, EL.Run(e, first))
            && EL.Run(e, first).phase == e.phase
  {
    if k != l { NoStep(e, Advanced(s, k), l); } else { OneStep(e, EL.RunOne); }
  }

  lemma SameLoops(e: EventLoop, steps: seq<WakeStep>, s: Server, r: Server, l: nat)
    requires Shows(e, steps, s, l) && r.loops == s.loops
    ensures Shows(e, steps, r, l)
  {
  }

  lemma CallShows(cfg: C.Config, s: Server, step: Step, l: nat, worker: nat, e: EventLoop)
    requires Inv(s) && Enabled(s, step) && Matches(s, l, e) && worker != EL.LOOP_THREAD
    requires step.Accept? || step.CrossSend? || step.CrossShutdown? || step.QueueOwned?
    ensures Shows(e, Translate(cfg, s, step, l, worker, e), Next(cfg, s, step), l)
  {
    hide C.ConnectEstablished, PeersOk, LoopsOk, OwnFds;
    match step
    case Accept(io, fd, _) =>
      var m := Made(s, io, fd);
      assert Matches(m, l, e);
      if io != MAIN { PushShows(m, l, io, Thread(MAIN, l), Establish(|s.peers|), e); } else { NoStep(e, m, l); }
    case CrossSend(id, data) =>
      if s.peers[id].conn.state == C.Connected { PushShows(s, l, s.peers[id].loop, worker, RawSend(id, data), e); }
    case CrossShutdown(id) =>
      if s.peers[id].conn.state == C.Connected {
        var u := SetConn(s, id, s.peers[id].conn.(state := C.Disconnecting));
        assert Matches(u, l, e);
        PushShows(u, l, s.peers[id].loop, worker, RawShutdown(id), e);
      }
    case QueueOwned(id, inLoop) =>
      var io := s.peers[id].loop;
      PushShows(s, l, io, if inLoop then Thread(io, l) else worker, OwnedCall(id), e);
  }

  /** Every step of the server is, in every loop, its translation: legal there, with the same
      queue, every push by the thread that makes it, and every wakeup written that is owed. */
  lemma StepIsRun(cfg: C.Config, s: Server, step: Step, l: nat, worker: nat, e: EventLoop)
    requires Inv(s) && Enabled(s, step) && Matches(s, l, e) && worker != EL.LOOP_THREAD
    ensures Shows(e, Translate(cfg, s, step, l, worker, e), Next(cfg, s, step), l)
  {
    assert WellFormed(s);
    hide Inv, Shows;
    if step.Event? {
      EventShows(cfg, s, step, l, worker, e);
    } else if step.RunOne? {
      RunShows(cfg, s, step, l, worker, e);
    } else if step.Poll? || step.StartBatch? || step.FinishBatch? {
      PhaseShows(cfg, s, step, l, worker, e);
    } else if step.Accept? || step.CrossSend? || step.CrossShutdown? || step.QueueOwned? {
      CallShows(cfg, s, step, l, worker, e);
    } else {
      NoStep(e, Next(cfg, s, step), l);
    }
  }

  /** The translation of a run, step by step. */
  ghost function Translated(cfg: C.Config, s: Server, steps: seq<Step>, l: nat, worker: nat, e: EventLoop)
    : (wakes: seq<WakeStep>)
    requires Inv(s) && LegalRun(cfg, s, steps) && Matches(s, l, e) && worker != EL.LOOP_THREAD
    ensures Shows(e, wakes, Run(cfg, s, steps), l)
    decreases |steps|
  {
    if steps == [] then []
    else
      var first := Translate(cfg, s, steps[0], l, worker, e);
      StepIsRun(cfg, s, steps[0], l, worker, e);
      NextKeepsInv(cfg, s, steps[0]);
      var rest := Translated(cfg, Next(cfg, s, steps[0]), steps[1..], l, worker, EL.Run(e, first));
      ShowsOn(e, first, Next(cfg, s, steps[0]), rest, Run(cfg, s, steps), l);
      first + rest
  }

  /** What loop `l` does in a run of a new server. */
  ghost function WakesOf(cfg: C.Config, loops: nat, steps: seq<Step>, l: nat, worker: nat): (wakes: seq<WakeStep>)
    requires 1 <= loops && LegalRun(cfg, Initial(loops), steps) && l < loops && worker != EL.LOOP_THREAD
    ensures Shows(STARTED, wakes, Run(cfg, Initial(loops), steps), l)
  {
    StartsWell(loops);
    Translated(cfg, Initial(loops), steps, l, worker, STARTED)
  }

  /** No loop sleeps on work. After every run of the server, the eventfd written by exactly the
      wakeups of that run is readable at every poll of a loop with a functor queued; the run
      is one of the wakeup protocol, and each loop has run its functors in the order queued. */
  lemma WokenForWork(cfg: C.Config, loops: nat, steps: seq<Step>, l: nat, worker: nat)
    requires 1 <= loops && LegalRun(cfg, Initial(loops), steps) && l < loops && worker != EL.LOOP_THREAD
    ensures var wakes := WakesOf(cfg, loops, steps, l, worker);
            && EL.LegalRun(STARTED, wakes)
            && var loop, e := Run(cfg, Initial(loops), steps).loops[l], EL.Run(STARTED, wakes);
            && e.queue == loop.queue && e.phase == PhaseOf(loop.phase) && e.owing == {}
            && (loop.phase == Polling && loop.queue.pending != [] ==> 0 < e.counter)
            && e.executed + loop.queue.Unrun() == e.queued
  {
    EL.RunConserves(STARTED, WakesOf(cfg, loops, steps, l, worker));
  }

  /** In particular a closed connection that is not yet destroyed has its next functor in a
      queue whose loop is woken for it. */
  lemma WokenToDestroy(cfg: C.Config, loops: nat, steps: seq<Step>, id: nat, worker: nat)
    requires 1 <= loops && LegalRun(cfg, Initial(loops), steps) && worker != EL.LOOP_THREAD
    requires var s := Run(cfg, Initial(loops), steps);
             id < |s.peers| && 1 <= s.peers[id].conn.closes && s.peers[id].destroys == 0
    ensures var s := Run(cfg, Initial(loops), steps);
            var l := if s.peers[id].erases == 0 then MAIN else s.peers[id].loop;
            var f := if s.peers[id].erases == 0 then RemoveInLoop(id) else Destroy(id);
            && l < loops && f in s.loops[l].queue.Unrun()
            && (s.loops[l].phase == Polling ==> 0 < EL.Run(STARTED, WakesOf(cfg, loops, steps, l, worker)).counter)
  {
    StartsWell(loops);
    RunKeeps(cfg, Initial(loops), steps);
    var s := Run(cfg, Initial(loops), steps);
    var l := if s.peers[id].erases == 0 then MAIN else s.peers[id].loop;
    WaitsToDie(s, id);
    WokenForWork(cfg, loops, steps, l, worker);
    assert LoopOk(s, l);
  }

  lemma WaitsToDie(s: Server, id: nat)
    requires Inv(s) && id < |s.peers| && 1 <= s.peers[id].conn.closes && s.peers[id].destroys == 0
    ensures s.peers[id].erases == 0 ==> RemoveInLoop(id) in Unrun(s, MAIN)
    ensures s.peers[id].erases != 0 ==> Destroy(id) in Unrun(s, s.peers[id].loop)
  {
    var t := TrackOf(s, id);
    assert PeerOk(t, id, 0);
    PartsMembers(Unrun(s, MAIN), id);
    PartsMembers(Unrun(s, t.p.loop), id);
    LeadingRawsBounds(t.io);
    if t.p.erases != 0 { assert t.io[|t.io| - 1] == Destroy(id) && t.io[|t.io| - 1] in t.io; }
  }
}
