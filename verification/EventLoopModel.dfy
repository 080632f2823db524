/**
  The wakeup protocol of src/net/EventLoop.cc as a step system: any number of
  threads push functors under the mutex and write the eventfd, one loop thread
  polls, drains the eventfd, swaps the queue and runs the batch.
 */
module EventLoopModel {
  import opened FunctorQueue

  const LOOP_THREAD: nat := 0
  // The largest value an eventfd holds: a write that would exceed it fails.
  const COUNTER_MAX: nat := 0xffff_ffff_ffff_fffe

  /** Where the loop thread is: before the test of quit_, in epoll_wait, handling
      events (with the wakeup channel still to be read or not), running the batch. */
  datatype Phase = Checking | Polling | Handling(drain: bool) | Calling | Exited

  /** `owing` are the threads that have pushed or set quit_ and not yet written;
      `queued` and `executed` are the functors pushed and run so far, in order. */
  datatype Loop<F> = Loop(phase: Phase, quit: bool, counter: nat, queue: Queue<F>,
                          owing: set<nat>, queued: seq<F>, executed: seq<F>)

  datatype Step<F> =
    | Push(t: nat, f: F)
    | Wake(t: nat)
    | Quit(t: nat)
    | Check
    | PollReturns(readable: bool)
    | Drain
    | Swap
    | RunOne
    | Finish

  predicate InCallback<F>(s: Loop<F>) { s.phase.Handling? || s.phase.Calling? }

  predicate Enabled<F>(s: Loop<F>, step: Step<F>) {
    match step
    case Push(t, _) => t !in s.owing && (t == LOOP_THREAD ==> InCallback(s))
    case Wake(t) => t in s.owing
    case Quit(t) => t !in s.owing && (t == LOOP_THREAD ==> InCallback(s))
    case Check => s.phase == Checking
    case PollReturns(readable) => s.phase == Polling && (readable ==> 0 < s.counter)
    case Drain => s.phase == Handling(true)
    case Swap => s.phase == Handling(false) && s.queue.todo == []
    case RunOne => s.phase == Calling && s.queue.todo != [] && LOOP_THREAD !in s.owing
    case Finish => s.phase == Calling && s.queue.todo == [] && LOOP_THREAD !in s.owing
  }

  /** queueInLoop wakes the loop from any other thread, and from the loop's own thread
      only while it is running functors. */
  predicate MustWake<F>(s: Loop<F>, t: nat) { t != LOOP_THREAD || s.phase == Calling }

  function Next<F>(s: Loop<F>, step: Step<F>): Loop<F>
    requires Enabled(s, step)
  {
    match step
    case Push(t, f) =>
      s.(queue := s.queue.Push(f), queued := s.queued + [f],
         owing := if MustWake(s, t) then s.owing + {t} else s.owing)
    case Wake(t) => s.(owing := s.owing - {t}, counter := if s.counter < COUNTER_MAX then s.counter + 1 else s.counter)
    case Quit(t) => s.(quit := true, owing := if t != LOOP_THREAD then s.owing + {t} else s.owing)
    case Check => s.(phase := if s.quit then Exited else Polling)
    case PollReturns(readable) => s.(phase := Handling(readable))
    case Drain => s.(phase := Handling(false), counter := 0)
    case Swap => s.(phase := Calling, queue := s.queue.Swap())
    case RunOne => s.(executed := s.executed + [s.queue.todo[0]], queue := s.queue.Advance())
    case Finish => s.(phase := Checking, queue := s.queue.Clear())
  }

  predicate LegalRun<F>(s: Loop<F>, steps: seq<Step<F>>)
    decreases |steps|
  {
    steps == [] || (Enabled(s, steps[0]) && LegalRun(Next(s, steps[0]), steps[1..]))
  }

  function Run<F>(s: Loop<F>, steps: seq<Step<F>>): Loop<F>
    requires LegalRun(s, steps)
    decreases |steps|
  {
    if steps == [] then s else Run(Next(s, steps[0]), steps[1..])
  }

  lemma {:induction false} RunAppend<F>(s: Loop<F>, a: seq<Step<F>>, b: seq<Step<F>>)
    requires LegalRun(s, a)
    ensures LegalRun(s, a + b) <==> LegalRun(Run(s, a), b)
    ensures LegalRun(s, a + b) ==> Run(s, a + b) == Run(Run(s, a), b)
    decreases |a|
  {
    if a == [] {
      assert a + b == b;
    } else {
      assert (a + b)[1..] == a[1..] + b;
      RunAppend(Next(s, a[0]), a[1..], b);
    }
  }

  lemma RunOneMore<F>(s: Loop<F>, steps: seq<Step<F>>, step: Step<F>)
    requires LegalRun(s, steps) && Enabled(Run(s, steps), step)
    ensures LegalRun(s, steps + [step]) && Run(s, steps + [step]) == Next(Run(s, steps), step)
  {
    var one: seq<Step<F>> := [step];
    assert one[1..] == [] && one[0] == step;
    RunAppend(s, steps, one);
  }

  /** The steps are legal and lead from `s` to `t`. */
  ghost predicate Reaches<F>(s: Loop<F>, steps: seq<Step<F>>, t: Loop<F>) {
    LegalRun(s, steps) && t == Run(s, steps)
  }

  lemma ReachesFurther<F>(s: Loop<F>, a: seq<Step<F>>, t: Loop<F>, b: seq<Step<F>>, u: Loop<F>)
    requires Reaches(s, a, t) && Reaches(t, b, u)
    ensures Reaches(s, a + b, u)
  {
    RunAppend(s, a, b);
  }

  // --------------------------------------------------------- no lost wakeup

  predicate WakeComing<F>(s: Loop<F>) { 0 < s.counter || s.owing != {} }

  /** The loop is not asleep on work: at the poll, queued functors or a request to quit
      mean that the eventfd is readable or that some thread is about to write it. */
  predicate Woken<F>(s: Loop<F>) {
    s.phase == Polling && (s.queue.pending != [] || s.quit) ==> WakeComing(s)
  }

  predicate Inv<F>(s: Loop<F>) {
    && Woken(s)
    && (s.phase == Checking || s.phase == Calling ==> s.queue.pending != [] ==> WakeComing(s))
    && (LOOP_THREAD in s.owing ==> s.phase == Calling)
    && (s.phase != Calling ==> s.queue.todo == [])
  }

  lemma NextKeepsInv<F>(s: Loop<F>, step: Step<F>)
    requires Inv(s) && Enabled(s, step)
    ensures Inv(Next(s, step))
  {
    match step
    case Push(t, _) => if MustWake(s, t) { assert t in Next(s, step).owing; }
    case Quit(t) => if t != LOOP_THREAD { assert t in Next(s, step).owing; }
    case _ =>
  }

  lemma {:induction false} RunKeepsInv<F>(s: Loop<F>, steps: seq<Step<F>>)
    requires Inv(s) && LegalRun(s, steps)
    ensures Inv(Run(s, steps))
    decreases |steps|
  {
    if steps != [] {
      NextKeepsInv(s, steps[0]);
      RunKeepsInv(Next(s, steps[0]), steps[1..]);
    }
  }

  /** loop() has just cleared quit_; functors may already have been queued. */
  predicate Started<F>(s: Loop<F>) {
    s.phase == Checking && !s.quit && s.queue.todo == [] && LOOP_THREAD !in s.owing
  }

  /** No lost wakeup, for any number of producers and any interleaving, saturated
      counter included: it holds over every run exactly when loop() did not start with
      functors queued before it without a wakeup. */
  lemma NoLostWakeupExactly<F(!new)>(s: Loop<F>)
    requires Started(s)
    ensures (forall steps :: LegalRun(s, steps) ==> Woken(Run(s, steps)))
            <==> (s.queue.pending != [] ==> WakeComing(s))
  {
    if s.queue.pending != [] ==> WakeComing(s) {
      forall steps | LegalRun(s, steps) ensures Woken(Run(s, steps)) {
        RunKeepsInv(s, steps);
      }
    } else {
      var steps: seq<Step<F>> := [Check];
      assert steps[1..] == [] && steps[0] == Check;
      assert LegalRun(s, steps);
      assert Run(s, steps) == Next(s, Check);
      assert !Woken(Run(s, steps));
    }
  }

  // -------------------------------------------------- which wakeups are needed

  // The functors of a batch run, and the batch ends.
  function RestOfBatch<F>(n: nat): seq<Step<F>> { if n == 0 then [Finish, Check] else [RunOne] + RestOfBatch(n - 1) }

  lemma {:induction false} BatchSleeps<F>(s: Loop<F>)
    requires s.phase == Calling && s.owing == {} && s.counter == 0 && !s.quit && s.queue.pending != []
    ensures var steps := RestOfBatch<F>(|s.queue.todo|); LegalRun(s, steps) && !Woken(Run(s, steps))
    decreases |s.queue.todo|
  {
    if s.queue.todo == [] {
      var two: seq<Step<F>>, one: seq<Step<F>> := [Finish, Check], [Check];
      assert two[0] == Finish && two[1..] == one && one[0] == Check && one[1..] == [];
      var f := Next(s, Finish);
      assert LegalRun(f, one) && Run(f, one) == Next(f, Check);
    } else {
      var rest := RestOfBatch<F>(|s.queue.todo| - 1);
      assert ([RunOne] + rest)[1..] == rest;
      BatchSleeps(Next(s, RunOne));
    }
  }

  /** The condition of queueInLoop is exact for the loop's own thread. Its push, left without
      a wakeup when there is no other, may be slept on exactly while functors are running,
      which is when MustWake asks for one. A push of any other thread always gets one. */
  lemma OwnWakeNeededExactly<F(!new)>(s: Loop<F>, f: F)
    requires InCallback(s) && Inv(s) && s.counter == 0 && s.owing == {} && !s.quit
    ensures var p := s.(queue := s.queue.Push(f));
            (exists steps :: LegalRun(p, steps) && !Woken(Run(p, steps))) <==> s.phase == Calling
    ensures MustWake(s, LOOP_THREAD) <==> s.phase == Calling
    ensures forall t :: t != LOOP_THREAD ==> MustWake(s, t)
  {
    var p := s.(queue := s.queue.Push(f));
    if s.phase == Calling {
      BatchSleeps(p);
    } else {
      forall steps | LegalRun(p, steps) ensures Woken(Run(p, steps)) { RunKeepsInv(p, steps); }
    }
  }

  // ------------------------------------------------- no spurious wakeup

  // The wakeups since the last read of the eventfd.
  function WakesSinceDrain<F>(steps: seq<Step<F>>): nat {
    if steps == [] || steps[|steps| - 1].Drain? then 0
    else WakesSinceDrain(steps[..|steps| - 1]) + if steps[|steps| - 1].Wake? then 1 else 0
  }

  /** What the eventfd holds: the wakeups written since it was last read, on top of what it
      held at the start if it never was, as far as it can count. So after a read a poll
      returns for it only if somebody has written it since. */
  lemma {:induction false} CounterExactly<F>(s: Loop<F>, steps: seq<Step<F>>)
    requires LegalRun(s, steps) && s.counter <= COUNTER_MAX
    ensures var written := WakesSinceDrain(steps) + if Drain in steps then 0 else s.counter;
            Run(s, steps).counter == if written < 0xffff_ffff_ffff_fffe then written else 0xffff_ffff_ffff_fffe
    decreases |steps|
  {
    if steps != [] {
      var before, last := steps[..|steps| - 1], steps[|steps| - 1];
      assert steps == before + [last];
      LegalPrefix(s, before, [last]);
      CounterExactly(s, before);
      RunAppend(s, before, [last]);
      RunOneMore(s, before, last);
    }
  }

  lemma {:induction false} StaysToRead<F>(s: Loop<F>, steps: seq<Step<F>>)
    requires LegalRun(s, steps) && s.phase == Handling(true) && Drain !in steps
    ensures Run(s, steps).phase == Handling(true)
    decreases |steps|
  {
    if steps != [] {
      assert steps[0] in steps;
      StaysToRead(Next(s, steps[0]), steps[1..]);
    }
  }

  /** A wakeup that the poll reports is read before the batch is taken. */
  lemma ReportedIsRead<F>(s: Loop<F>, a: seq<Step<F>>, b: seq<Step<F>>)
    requires LegalRun(s, a + ([PollReturns(true)] + b + [Swap]))
    ensures Drain in b
  {
    var rest := [PollReturns(true)] + b + [Swap];
    LegalPrefix(s, a, rest);
    RunAppend(s, a, rest);
    var polled := Next(Run(s, a), PollReturns(true));
    assert rest[0] == PollReturns(true) && rest[1..] == b + [Swap];
    LegalPrefix(polled, b, [Swap]);
    RunAppend(polled, b, [Swap]);
    var ending: seq<Step<F>> := [Swap];
    assert Enabled(Run(polled, b), ending[0]);
    if Drain !in b { StaysToRead(polled, b); }
  }

  // ------------------------------------------------- functor conservation

  ghost predicate Conserved<F>(s: Loop<F>) { s.executed + s.queue.Unrun() == s.queued }

  lemma NextKeepsConserved<F>(s: Loop<F>, step: Step<F>)
    requires Enabled(s, step) && Conserved(s)
    ensures var n := Next(s, step); Conserved(n) && s.queued <= n.queued && s.executed <= n.executed
  {
    match step
    case Push(_, f) =>
      assert s.executed + (s.queue.Unrun() + [f]) == s.executed + s.queue.Unrun() + [f];
    case RunOne =>
      var u := s.queue.Unrun();
      assert s.queue.todo[0] == u[0];
      assert (s.executed + [u[0]]) + u[1..] == s.executed + u;
    case _ =>
  }

  /** Functors run on the loop thread in the order of the pushes, each at most once:
      what has run, the rest of the batch and the queue make up everything pushed. */
  lemma {:induction false} RunConserves<F>(s: Loop<F>, steps: seq<Step<F>>)
    requires LegalRun(s, steps) && Conserved(s)
    ensures var n := Run(s, steps); Conserved(n) && s.queued <= n.queued && s.executed <= n.executed <= n.queued
    decreases |steps|
  {
    if steps != [] {
      NextKeepsConserved(s, steps[0]);
      RunConserves(Next(s, steps[0]), steps[1..]);
    }
  }

  /** What is pushed while a batch runs never joins it: from the swap to the end of the
      batch, what has run followed by the rest of the batch does not change. */
  lemma {:induction false} BatchIsFixed<F>(s: Loop<F>, steps: seq<Step<F>>)
    requires LegalRun(s, steps) && s.phase == Calling && Finish !in steps
    ensures var n := Run(s, steps);
            n.phase == Calling && n.executed + n.queue.todo == s.executed + s.queue.todo
    decreases |steps|
  {
    if steps != [] {
      var n := Next(s, steps[0]);
      assert steps[0] in steps;
      if steps[0] == RunOne {
        assert (s.executed + [s.queue.todo[0]]) + s.queue.todo[1..] == s.executed + s.queue.todo;
      }
      BatchIsFixed(n, steps[1..]);
    }
  }

  /** One round serves everything: whatever was queued before a swap has run when the
      batch of that swap is finished, whatever happens in between. */
  lemma ServedInOneRound<F>(s: Loop<F>, a: seq<Step<F>>, b: seq<Step<F>>)
    requires Conserved(s) && LegalRun(s, a + ([Swap] + b + [Finish])) && Finish !in b
    ensures s.queued <= Run(s, a + ([Swap] + b + [Finish])).executed
  {
    var rest := [Swap] + b + [Finish];
    LegalPrefix(s, a, rest);
    RunAppend(s, a, rest);
    RunConserves(s, a);
    var before := Run(s, a);
    var swapped := Next(before, Swap);
    assert rest[0] == Swap && rest[1..] == b + [Finish];
    LegalPrefix(swapped, b, [Finish]);
    RunAppend(swapped, b, [Finish]);
    BatchIsFixed(swapped, b);
    var last := Run(swapped, b);
    var ending: seq<Step<F>> := [Finish];
    assert ending[1..] == [] && Enabled(last, ending[0]);
    assert Run(last, ending) == Next(last, Finish);
    assert swapped.queue.Unrun() == swapped.queue.todo + [] == swapped.queue.todo;
    assert last.executed + [] == last.executed;
  }

  lemma {:induction false} LegalPrefix<F>(s: Loop<F>, a: seq<Step<F>>, b: seq<Step<F>>)
    requires LegalRun(s, a + b)
    ensures LegalRun(s, a)
    decreases |a|
  {
    if a != [] {
      assert (a + b)[1..] == a[1..] + b;
      LegalPrefix(Next(s, a[0]), a[1..], b);
    }
  }
}
