/**
  The class of include/net/EventLoop.h. Each method returns, as a ghost, the steps of
  EventLoopModel it took, so every run of the class is a run of the step system.

  EnqueueLocked, Wakeup, Quit and HandleRead are single steps, to be interleaved at will;
  the longer methods take what the other threads and the functors do as a script.
 */
module EventLoop {
  import opened Wrappers
  import opened EventLoopModel
  import opened FunctorQueue

  /** One turn of loop(): what epoll_wait reports of the eventfd, the pushes made while
      events are handled, those made while each functor runs, and who calls quit. */
  datatype Round<F> = Round(readable: bool, handled: seq<(nat, F)>, script: seq<seq<(nat, F)>>, quitter: Option<nat>)

  // None of these threads is between its push and its eventfd write.
  ghost predicate NotOwing<F>(arrivals: seq<(nat, F)>, owing: set<nat>) {
    forall k :: 0 <= k < |arrivals| ==> arrivals[k].0 !in owing
  }

  ghost predicate ScriptNotOwing<F>(script: seq<seq<(nat, F)>>, owing: set<nat>) {
    forall k :: 0 <= k < |script| ==> NotOwing(script[k], owing)
  }

  ghost predicate RoundNotOwing<F>(round: Round<F>, owing: set<nat>) {
    && NotOwing(round.handled, owing) && ScriptNotOwing(round.script, owing)
    && (round.quitter.Some? ==> round.quitter.value !in owing)
  }

  // The functors of some pushes.
  function Pushed<F>(arrivals: seq<(nat, F)>): seq<F> {
    if arrivals == [] then [] else Pushed(arrivals[..|arrivals| - 1]) + [arrivals[|arrivals| - 1].1]
  }

  // Those pushed while the first `n` functors of a batch run.
  function PushedBy<F>(script: seq<seq<(nat, F)>>, n: nat): seq<F> {
    if n == 0 then [] else PushedBy(script, n - 1) + if n <= |script| then Pushed(script[n - 1]) else []
  }

  /** The queue after some rounds: what the last batch pushed. */
  function QueueAfter<F>(pending: seq<F>, rounds: seq<Round<F>>): seq<F> {
    if rounds == [] then pending
    else
      var last := rounds[|rounds| - 1];
      PushedBy(last.script, |QueueAfter(pending, rounds[..|rounds| - 1]) + Pushed(last.handled)|)
  }

  /** What some rounds run: each, the queue it finds and what is pushed before its swap. */
  function RunBy<F>(pending: seq<F>, rounds: seq<Round<F>>): seq<F> {
    if rounds == [] then []
    else
      var before := rounds[..|rounds| - 1];
      RunBy(pending, before) + (QueueAfter(pending, before) + Pushed(rounds[|rounds| - 1].handled))
  }

  /** `turns` rounds have been turned and nobody called quit before the last; `quit` says
      whether somebody did in the last. */
  ghost predicate UpToQuit<F>(rounds: seq<Round<F>>, turns: nat, quit: bool) {
    && turns <= |rounds| && (forall k :: 0 <= k < turns - 1 ==> rounds[k].quitter.None?)
    && (quit <==> 0 < turns && rounds[turns - 1].quitter.Some?)
  }

  class EventLoop<F(!new)> {
    var quit: bool
    var callingPendingFunctors: bool
    var pendingFunctors: seq<F>
    var counter: nat               // kernel: the eventfd
    ghost var phase: Phase
    ghost var done: seq<F>
    ghost var todo: seq<F>
    ghost var owing: set<nat>
    ghost var queued: seq<F>
    ghost var executed: seq<F>

    ghost predicate Valid()
      reads this
    {
      callingPendingFunctors <==> phase == Calling
    }

    ghost function View(): Loop<F>
      reads this
    {
      Loop(phase, quit, counter, Queue(done, todo, pendingFunctors), owing, queued, executed)
    }

    constructor ()
      ensures Valid() && View() == Loop(Checking, false, 0, Queue([], [], []), {}, [], [])
    {
      quit, callingPendingFunctors, pendingFunctors, counter := false, false, [], 0;
      phase, done, todo, owing, queued, executed := Checking, [], [], {}, [], [];
    }

    /** The locked part of queueInLoop. */
    method EnqueueLocked(t: nat, f: F)
      requires Valid() && Enabled(View(), Push(t, f))
      modifies this
      ensures Valid() && View() == Next(old(View()), Push(t, f))
    {
      pendingFunctors := pendingFunctors + [f];
      queued := queued + [f];
      if t != LOOP_THREAD || callingPendingFunctors {
        owing := owing + {t};
      }
    }

    method Wakeup(t: nat)
      requires Valid() && Enabled(View(), Wake(t))
      modifies this
      ensures Valid() && View() == Next(old(View()), Wake(t))
    {
      if counter < COUNTER_MAX {
        counter := counter + 1;
      }
      owing := owing - {t};
    }

    method QueueInLoop(t: nat, f: F) returns (ghost steps: seq<Step<F>>)
      requires Valid() && Enabled(View(), Push(t, f))
      modifies this
      ensures Valid() && Reaches(old(View()), steps, View())
      ensures steps == if MustWake(old(View()), t) then [Push(t, f), Wake(t)] else [Push(t, f)]
      ensures pendingFunctors == old(pendingFunctors) + [f] && phase == old(phase) && quit == old(quit)
      ensures todo == old(todo) && owing == old(owing) && executed == old(executed)
      ensures MustWake(old(View()), t) ==> 0 < counter
    {
      ghost var before := View();
      EnqueueLocked(t, f);
      steps := [];
      RunOneMore(before, steps, Push(t, f));
      steps := steps + [Push(t, f)];
      if t != LOOP_THREAD || callingPendingFunctors {
        Wakeup(t);
        RunOneMore(before, steps, Wake(t));
        steps := steps + [Wake(t)];
      }
    }

    /** runInLoop: on the loop thread the functor runs at once and is not queued. */
    method RunInLoop(t: nat, f: F) returns (ranNow: bool, ghost steps: seq<Step<F>>)
      requires Valid() && (t != LOOP_THREAD ==> Enabled(View(), Push(t, f)))
      modifies this
      ensures Valid() && Reaches(old(View()), steps, View())
      ensures ranNow <==> t == LOOP_THREAD
      ensures ranNow ==> View() == old(View())
      ensures !ranNow ==> pendingFunctors == old(pendingFunctors) + [f] && 0 < counter
    {
      if t == LOOP_THREAD {
        ranNow, steps := true, [];
      } else {
        ranNow := false;
        steps := QueueInLoop(t, f);
      }
    }

    method Quit(t: nat) returns (ghost steps: seq<Step<F>>)
      requires Valid() && Enabled(View(), Step.Quit(t))
      modifies this
      ensures Valid() && Reaches(old(View()), steps, View())
      ensures quit && phase == old(phase) && todo == old(todo) && owing == old(owing)
      ensures pendingFunctors == old(pendingFunctors) && executed == old(executed)
      ensures t != LOOP_THREAD ==> 0 < counter
    {
      ghost var before := View();
      quit := true;
      steps := [];
      RunOneMore(before, steps, Step.Quit(t));
      steps := steps + [Step.Quit(t)];
      if t != LOOP_THREAD {
        owing := owing + {t};
        Wakeup(t);
        RunOneMore(before, steps, Wake(t));
        steps := steps + [Wake(t)];
      }
    }

    /** The wakeup channel's read callback. */
    method HandleRead()
      requires Valid() && Enabled(View(), Drain)
      modifies this
      ensures Valid() && View() == Next(old(View()), Drain) && counter == 0
    {
      counter := 0;
      phase := Handling(false);
    }

    // What the other threads, or the loop's own callbacks, push meanwhile.
    method Arrive(arrivals: seq<(nat, F)>) returns (ghost steps: seq<Step<F>>)
      requires Valid() && InCallback(View()) && NotOwing(arrivals, owing)
      modifies this
      ensures Valid() && Reaches(old(View()), steps, View())
      ensures phase == old(phase) && todo == old(todo) && owing == old(owing) && quit == old(quit)
      ensures pendingFunctors == old(pendingFunctors) + Pushed(arrivals) && executed == old(executed)
    {
      ghost var before := View();
      steps := [];
      var k := 0;
      while k < |arrivals|
        invariant 0 <= k <= |arrivals|
        invariant Valid() && Reaches(before, steps, View())
        invariant phase == old(phase) && todo == old(todo) && owing == old(owing) && quit == old(quit)
        invariant pendingFunctors == old(pendingFunctors) + Pushed(arrivals[..k]) && executed == old(executed)
      {
        ghost var more := QueueInLoop(arrivals[k].0, arrivals[k].1);
        RunAppend(before, steps, more);
        assert arrivals[..k + 1][..k] == arrivals[..k];
        steps := steps + more;
        k := k + 1;
      }
      assert arrivals[..k] == arrivals;
    }

    // One functor of the batch, with what is pushed while it runs.
    method RunFunctor(f: F, arrivals: seq<(nat, F)>) returns (ghost steps: seq<Step<F>>)
      requires Valid() && Enabled(View(), RunOne) && todo[0] == f && NotOwing(arrivals, owing)
      modifies this
      ensures Valid() && Reaches(old(View()), steps, View())
      ensures phase == old(phase) && todo == old(todo)[1..] && owing == old(owing) && quit == old(quit)
      ensures executed == old(executed) + [f] && pendingFunctors == old(pendingFunctors) + Pushed(arrivals)
    {
      ghost var before := View();
      executed := executed + [f];
      done, todo := done + [f], todo[1..];
      steps := [];
      RunOneMore(before, steps, RunOne);
      steps := steps + [RunOne];
      ghost var more := Arrive(arrivals);
      RunAppend(before, steps, more);
      steps := steps + more;
    }

    /** doPendingFunctors up to the end of its locked part. */
    method SwapLocked() returns (functors: seq<F>)
      requires Valid() && Enabled(View(), Swap)
      modifies this
      ensures Valid() && View() == Next(old(View()), Swap)
      ensures functors == old(pendingFunctors)
    {
      callingPendingFunctors := true;
      functors, pendingFunctors := pendingFunctors, [];
      phase, done, todo := Calling, [], functors;
    }

    method EndBatch()
      requires Valid() && Enabled(View(), Finish)
      modifies this
      ensures Valid() && View() == Next(old(View()), Finish)
    {
      callingPendingFunctors := false;
      phase, done := Checking, [];
    }

    lemma PushedNext(pending: seq<F>, already: seq<F>, functors: seq<F>, script: seq<seq<(nat, F)>>, i: nat)
      requires i < |functors|
      ensures already + functors[..i] + [functors[i]] == already + functors[..i + 1]
      ensures var came: seq<(nat, F)> := if i < |script| then script[i] else [];
              pending + PushedBy(script, i) + Pushed(came) == pending + PushedBy(script, i + 1)
    {
      assert functors[..i + 1] == functors[..i] + [functors[i]];
    }

    // The for loop of doPendingFunctors.
    method RunBatch(functors: seq<F>, script: seq<seq<(nat, F)>>) returns (ghost steps: seq<Step<F>>)
      requires Valid() && phase == Calling && todo == functors
      requires LOOP_THREAD !in owing && ScriptNotOwing(script, owing)
      modifies this
      ensures Valid() && Reaches(old(View()), steps, View())
      ensures phase == Calling && todo == [] && owing == old(owing) && quit == old(quit)
      ensures executed == old(executed) + functors
      ensures pendingFunctors == old(pendingFunctors) + PushedBy(script, |functors|)
    {
      ghost var before := View();
      steps := [];
      assert Reaches(before, steps, View());
      hide Reaches, Pushed, NotOwing;
      var i := 0;
      assert before.queue.pending + PushedBy(script, i) == before.queue.pending;
      while i < |functors|
        invariant 0 <= i <= |functors|
        invariant Valid() && Reaches(before, steps, View())
        invariant phase == Calling && todo == functors[i..] && owing == before.owing && quit == before.quit
        invariant executed == before.executed + functors[..i]
        invariant pendingFunctors == before.queue.pending + PushedBy(script, i)
      {
        hide PushedBy;
        ghost var mid := View();
        ghost var more := RunFunctor(functors[i], if i < |script| then script[i] else []);
        ReachesFurther(before, steps, mid, more, View());
        PushedNext(before.queue.pending, before.executed, functors, script, i);
        steps := steps + more;
        i := i + 1;
      }
      assert functors[..i] == functors;
    }

    /** Swaps the queue out under the lock and runs the batch; script[i] is what is
        pushed while its i-th functor runs, and none of it joins the batch. */
    method DoPendingFunctors(script: seq<seq<(nat, F)>>) returns (ghost steps: seq<Step<F>>)
      requires Valid() && Enabled(View(), Swap) && LOOP_THREAD !in owing && ScriptNotOwing(script, owing)
      modifies this
      ensures Valid() && Reaches(old(View()), steps, View())
      ensures phase == Checking && todo == [] && owing == old(owing) && quit == old(quit)
      ensures executed == old(executed) + old(pendingFunctors)
      ensures pendingFunctors == PushedBy(script, |old(pendingFunctors)|)
    {
      ghost var before := View();
      var functors := SwapLocked();
      steps := [];
      RunOneMore(before, steps, Swap);
      steps := steps + [Swap];
      ghost var more := RunBatch(functors, script);
      RunAppend(before, steps, more);
      steps := steps + more;
      EndBatch();
      RunOneMore(before, steps, Finish);
      steps := steps + [Finish];
    }

    // From the test of quit_ to the other events of the round: the poll, and the read of the
    // eventfd if it is reported.
    method PollEvents(reported: bool) returns (ghost steps: seq<Step<F>>)
      requires Valid() && phase == Checking && !quit
      modifies this
      ensures Valid() && Reaches(old(View()), steps, View())
      ensures phase == Handling(false) && todo == old(todo) && owing == old(owing) && !quit
      ensures pendingFunctors == old(pendingFunctors) && executed == old(executed)
    {
      ghost var before := View();
      phase := Polling;
      steps := [];
      RunOneMore(before, steps, Check);
      steps := steps + [Check];
      var readable := reported && 0 < counter;
      phase := Handling(readable);
      RunOneMore(before, steps, PollReturns(readable));
      steps := steps + [PollReturns(readable)];
      if readable {
        HandleRead();
        RunOneMore(before, steps, Drain);
        steps := steps + [Drain];
      }
    }

    // The other events of the round, among which somebody may call quit.
    method HandleEvents(round: Round<F>) returns (ghost steps: seq<Step<F>>)
      requires Valid() && phase == Handling(false) && !quit && NotOwing(round.handled, owing)
      requires round.quitter.Some? ==> round.quitter.value !in owing
      modifies this
      ensures Valid() && Reaches(old(View()), steps, View())
      ensures phase == Handling(false) && todo == old(todo) && owing == old(owing)
      ensures quit <==> round.quitter.Some?
      ensures pendingFunctors == old(pendingFunctors) + Pushed(round.handled) && executed == old(executed)
    {
      steps := Arrive(round.handled);
      if round.quitter.Some? {
        ghost var mid := View();
        ghost var more := Quit(round.quitter.value);
        ReachesFurther(old(View()), steps, mid, more, View());
        steps := steps + more;
      }
    }

    // One turn of the loop, from the test of quit_ that let it in to the next.
    method Turn(round: Round<F>) returns (ghost steps: seq<Step<F>>)
      requires Valid() && phase == Checking && !quit && todo == [] && LOOP_THREAD !in owing && RoundNotOwing(round, owing)
      modifies this
      ensures Valid() && Reaches(old(View()), steps, View())
      ensures phase == Checking && todo == [] && owing == old(owing)
      ensures quit <==> round.quitter.Some?
      ensures executed == old(executed) + (old(pendingFunctors) + Pushed(round.handled))
      ensures pendingFunctors == PushedBy(round.script, |old(pendingFunctors) + Pushed(round.handled)|)
    {
      hide Reaches, NotOwing, ScriptNotOwing, Pushed, PushedBy;
      steps := PollEvents(round.readable);
      ghost var polled := View();
      ghost var more := HandleEvents(round);
      ReachesFurther(old(View()), steps, polled, more, View());
      steps := steps + more;
      ghost var handled := View();
      more := DoPendingFunctors(round.script);
      ReachesFurther(old(View()), steps, handled, more, View());
      steps := steps + more;
    }

    lemma RoundsNext(already: seq<F>, pending: seq<F>, rounds: seq<Round<F>>, n: nat)
      requires n < |rounds|
      ensures var found := QueueAfter(pending, rounds[..n]) + Pushed(rounds[n].handled);
              && QueueAfter(pending, rounds[..n + 1]) == PushedBy(rounds[n].script, |found|)
              && already + RunBy(pending, rounds[..n]) + found == already + RunBy(pending, rounds[..n + 1])
    {
      assert rounds[..n + 1][..n] == rounds[..n];
    }

    lemma OneMoreTurn(rounds: seq<Round<F>>, turns: nat)
      requires turns < |rounds| && UpToQuit(rounds, turns, false)
      ensures UpToQuit(rounds, turns + 1, rounds[turns].quitter.Some?)
    {
    }

    // The turns up to the one in which quit is called.
    method Turns(rounds: seq<Round<F>>) returns (turns: nat, ghost steps: seq<Step<F>>)
      requires Valid() && phase == Checking && todo == [] && LOOP_THREAD !in owing && !quit
      requires forall k :: 0 <= k < |rounds| ==> RoundNotOwing(rounds[k], owing)
      modifies this
      ensures Valid() && Reaches(old(View()), steps, View()) && phase == Checking && todo == [] && LOOP_THREAD !in owing
      ensures turns <= |rounds| && UpToQuit(rounds, turns, quit) && (turns < |rounds| ==> quit)
      ensures executed == old(executed) + RunBy(old(pendingFunctors), rounds[..turns])
      ensures pendingFunctors == QueueAfter(old(pendingFunctors), rounds[..turns])
    {
      turns, steps := 0, [];
      assert Reaches(View(), steps, View());
      assert executed + RunBy(pendingFunctors, rounds[..0]) == executed;
      assert pendingFunctors == QueueAfter(pendingFunctors, rounds[..0]);
      hide Reaches, RoundNotOwing, RunBy, QueueAfter, Pushed, PushedBy, UpToQuit;
      while !quit && turns < |rounds|
        invariant turns <= |rounds| && UpToQuit(rounds, turns, quit)
        invariant Valid() && Reaches(old(View()), steps, View())
        invariant phase == Checking && todo == [] && owing == old(owing)
        invariant executed == old(executed) + RunBy(old(pendingFunctors), rounds[..turns])
        invariant pendingFunctors == QueueAfter(old(pendingFunctors), rounds[..turns])
      {
        ghost var mid := View();
        ghost var more := Turn(rounds[turns]);
        ReachesFurther(old(View()), steps, mid, more, View());
        OneMoreTurn(rounds, turns);
        RoundsNext(old(executed), old(pendingFunctors), rounds, turns);
        steps := steps + more;
        turns := turns + 1;
      }
    }

    /** loop(): clears quit_, then turns until quit_ is seen; `rounds` bounds how far the
        run is followed. It turns every round up to the one in which quit is called, and each
        runs the queue and what joins it before the swap. Every state satisfies the wakeup
        invariant if the loop was not started with functors queued and no wakeup on the way. */
    method RunLoop(rounds: seq<Round<F>>) returns (turns: nat, ghost steps: seq<Step<F>>)
      requires Valid() && phase == Checking && todo == [] && LOOP_THREAD !in owing
      requires forall k :: 0 <= k < |rounds| ==> RoundNotOwing(rounds[k], owing)
      modifies this
      ensures Valid() && Reaches(old(View()).(quit := false), steps, View())
      ensures turns <= |rounds| && UpToQuit(rounds, turns, quit) && (turns < |rounds| ==> quit)
      ensures quit <==> phase == Exited
      ensures executed == old(executed) + RunBy(old(pendingFunctors), rounds[..turns])
      ensures pendingFunctors == QueueAfter(old(pendingFunctors), rounds[..turns])
      ensures (old(pendingFunctors) != [] ==> WakeComing(old(View()))) ==> Inv(View())
      ensures Conserved(old(View())) ==> Conserved(View())
    {
      hide RoundNotOwing, Pushed, PushedBy, RunBy, QueueAfter;
      quit := false;
      ghost var start := View();
      turns, steps := Turns(rounds);
      if quit {
        phase := Exited;
        RunOneMore(start, steps, Check);
        steps := steps + [Check];
      }
      if start.queue.pending != [] ==> WakeComing(start) {
        RunKeepsInv(start, steps);
      }
      if Conserved(start) {
        RunConserves(start, steps);
      }
    }
  }
}
