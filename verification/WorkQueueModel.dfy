/**
  The condition-variable queues: WorkThreadPool (src/net/WorkerThreadPool.cc) with any
  number of workers, and AsyncLog (src/base/AsyncLog.cc), which is the case of one worker
  with a request to exit. Pushing and notifying are separate steps, waits may end for no
  reason, and a notification without a waiter is lost.
 */
module WorkQueueModel {
  import opened Wrappers

  /** A worker checks the queue under the lock, waits, or is busy with a task. `taken` and
      `executed` record which worker took and ran which task, in order. */
  datatype Pool<T> = Pool(
    queue: seq<T>, submitted: seq<T>,
    checking: set<nat>, waiting: set<nat>, busy: map<nat, T>, gone: set<nat>,
    taken: seq<(nat, T)>, executed: seq<(nat, T)>,
    notifying: nat,            // producers between their push and their notify_one
    exit: bool, exitAll: bool) // exit_ set; its notify_all still to come

  datatype Step<T> =
    | Submit(task: T)
    | Notify(woken: Option<nat>)
    | SpuriousWake(w: nat)
    | Check(w: nat)
    | Finish(w: nat)
    | SetExit
    | NotifyAll

  function Start<T>(workers: set<nat>): Pool<T> {
    Pool([], [], workers, {}, map[], {}, [], [], 0, false, false)
  }

  predicate Enabled<T>(s: Pool<T>, step: Step<T>) {
    match step
    case Submit(_) => true
    case Notify(woken) => 0 < s.notifying && if s.waiting == {} then woken.None? else woken.Some? && woken.value in s.waiting
    case SpuriousWake(w) => w in s.waiting
    case Check(w) => w in s.checking
    case Finish(w) => w in s.busy
    case SetExit => !s.exit
    case NotifyAll => s.exitAll
  }

  function Next<T>(s: Pool<T>, step: Step<T>): Pool<T>
    requires Enabled(s, step)
  {
    match step
    case Submit(task) => s.(queue := s.queue + [task], submitted := s.submitted + [task], notifying := s.notifying + 1)
    case Notify(woken) =>
      var t := s.(notifying := s.notifying - 1);
      if woken.Some? then t.(waiting := s.waiting - {woken.value}, checking := s.checking + {woken.value}) else t
    case SpuriousWake(w) => s.(waiting := s.waiting - {w}, checking := s.checking + {w})
    case Check(w) =>
      if s.queue != [] then
        s.(queue := s.queue[1..], checking := s.checking - {w}, busy := s.busy[w := s.queue[0]],
           taken := s.taken + [(w, s.queue[0])])
      else if s.exit then s.(checking := s.checking - {w}, gone := s.gone + {w})
      else s.(checking := s.checking - {w}, waiting := s.waiting + {w})
    case Finish(w) =>
      s.(busy := s.busy - {w}, checking := s.checking + {w}, executed := s.executed + [(w, s.busy[w])])
    case SetExit => s.(exit := true, exitAll := true)
    case NotifyAll => s.(exitAll := false, waiting := {}, checking := s.checking + s.waiting)
  }

  predicate LegalRun<T>(s: Pool<T>, steps: seq<Step<T>>)
    decreases |steps|
  {
    steps == [] || (Enabled(s, steps[0]) && LegalRun(Next(s, steps[0]), steps[1..]))
  }

  function Run<T>(s: Pool<T>, steps: seq<Step<T>>): Pool<T>
    requires LegalRun(s, steps)
    decreases |steps|
  {
    if steps == [] then s else Run(Next(s, steps[0]), steps[1..])
  }

  // ------------------------------------------------------------- invariants

  /** Every worker is somewhere, and in one place. */
  predicate Staffed<T>(s: Pool<T>, workers: set<nat>) {
    && s.checking + s.waiting + s.busy.Keys + s.gone == workers
    && s.checking !! s.waiting !! s.busy.Keys !! s.gone
  }

  /** While a worker sleeps, no more tasks are queued than there are notifications on
      their way and workers about to look; and a request to exit has its notify_all
      outstanding. */
  predicate NoIdling<T>(s: Pool<T>) {
    && (s.waiting != {} ==> |s.queue| <= s.notifying + |s.checking|)
    && (s.waiting != {} && s.exit ==> s.exitAll)
    && (s.gone != {} ==> s.exit)
  }

  function TasksOf<T>(taken: seq<(nat, T)>): seq<T> {
    seq(|taken|, i requires 0 <= i < |taken| => taken[i].1)
  }

  function By<T>(record: seq<(nat, T)>, w: nat): seq<T> {
    if record == [] then []
    else
      var last := record[|record| - 1];
      By(record[..|record| - 1], w) + if last.0 == w then [last.1] else []
  }

  function InHand<T>(s: Pool<T>, w: nat): seq<T> {
    if w in s.busy then [s.busy[w]] else []
  }

  /** First in, first out; and each worker runs exactly what it took, in order, once. */
  ghost predicate Conserved<T>(s: Pool<T>) {
    && TasksOf(s.taken) + s.queue == s.submitted
    && forall w: nat :: By(s.taken, w) == By(s.executed, w) + InHand(s, w)
  }

  lemma BySnoc<T>(record: seq<(nat, T)>, e: (nat, T), w: nat)
    ensures By(record + [e], w) == By(record, w) + if e.0 == w then [e.1] else []
  {
    assert (record + [e])[..|record|] == record;
  }

  lemma NextKeepsStaffed<T>(s: Pool<T>, step: Step<T>, workers: set<nat>)
    requires Staffed(s, workers) && Enabled(s, step)
    ensures Staffed(Next(s, step), workers)
  {
    if step.Check? && s.queue != [] {
      assert Next(s, step).busy.Keys == s.busy.Keys + {step.w};
    } else if step.Finish? {
      assert Next(s, step).busy.Keys == s.busy.Keys - {step.w};
    }
  }

  lemma CardinalityOfUnion(a: set<nat>, w: nat)
    ensures |a + {w}| == if w in a then |a| else |a| + 1
    ensures |a - {w}| == if w in a then |a| - 1 else |a|
  {
    if w in a {
      assert a + {w} == a;
    } else {
      assert a - {w} == a;
    }
  }

  lemma NextKeepsNoIdling<T>(s: Pool<T>, step: Step<T>, workers: set<nat>)
    requires Staffed(s, workers) && NoIdling(s) && Enabled(s, step)
    ensures NoIdling(Next(s, step))
  {
    match step {
      case Notify(woken) => if woken.Some? { CardinalityOfUnion(s.checking, woken.value); }
      case SpuriousWake(w) => CardinalityOfUnion(s.checking, w);
      case Check(w) => CardinalityOfUnion(s.checking, w);
      case Finish(w) => CardinalityOfUnion(s.checking, w);
      case _ =>
    }
  }

  lemma CheckKeepsConserved<T>(s: Pool<T>, w: nat, v: nat)
    requires w in s.checking && w !in s.busy.Keys && Conserved(s) && s.queue != []
    ensures var n := Next(s, Check(w));
            TasksOf(n.taken) + n.queue == n.submitted && By(n.taken, v) == By(n.executed, v) + InHand(n, v)
  {
    var e := (w, s.queue[0]);
    assert TasksOf(s.taken + [e]) == TasksOf(s.taken) + [s.queue[0]];
    assert (TasksOf(s.taken) + [s.queue[0]]) + s.queue[1..] == TasksOf(s.taken) + s.queue;
    BySnoc(s.taken, e, v);
    assert By(s.taken, v) == By(s.executed, v) + InHand(s, v);
  }

  lemma FinishKeepsConserved<T>(s: Pool<T>, w: nat, v: nat)
    requires w in s.busy && Conserved(s)
    ensures var n := Next(s, Finish(w)); By(n.taken, v) == By(n.executed, v) + InHand(n, v)
  {
    hide By, TasksOf;
    BySnoc(s.executed, (w, s.busy[w]), v);
    assert By(s.taken, v) == By(s.executed, v) + InHand(s, v);
    if v == w {
      assert By(s.executed, v) + [s.busy[w]] + [] == By(s.executed, v) + InHand(s, v);
    } else {
      assert By(s.executed, v) + [] == By(s.executed, v);
    }
  }

  lemma NextKeepsConserved<T>(s: Pool<T>, step: Step<T>, workers: set<nat>)
    requires Staffed(s, workers) && Conserved(s) && Enabled(s, step)
    ensures Conserved(Next(s, step))
  {
    var n := Next(s, step);
    if step.Submit? {
      assert TasksOf(s.taken) + n.queue == TasksOf(s.taken) + s.queue + [step.task];
    } else if step.Check? && s.queue != [] {
      CheckKeepsConserved(s, step.w, 0);
      forall v: nat ensures By(n.taken, v) == By(n.executed, v) + InHand(n, v) {
        CheckKeepsConserved(s, step.w, v);
      }
    } else if step.Finish? {
      forall v: nat ensures By(n.taken, v) == By(n.executed, v) + InHand(n, v) {
        FinishKeepsConserved(s, step.w, v);
      }
    }
  }

  ghost predicate Inv<T>(s: Pool<T>, workers: set<nat>) { Staffed(s, workers) && NoIdling(s) && Conserved(s) }

  lemma {:induction false} RunKeeps<T>(s: Pool<T>, steps: seq<Step<T>>, workers: set<nat>)
    requires Inv(s, workers) && LegalRun(s, steps)
    ensures Inv(Run(s, steps), workers)
    decreases |steps|
  {
    if steps != [] {
      NextKeepsStaffed(s, steps[0], workers);
      NextKeepsNoIdling(s, steps[0], workers);
      NextKeepsConserved(s, steps[0], workers);
      RunKeeps(Next(s, steps[0]), steps[1..], workers);
    }
  }

  lemma StartsWell<T>(workers: set<nat>)
    ensures Inv(Start<T>(workers), workers)
  {
  }

  /** No lost notification: while any worker sleeps, every queued task has a notify on its
      way or a worker about to look, so with all asleep a queued task means a notify still
      to come; and a request to exit means its notify_all is. Submission order is dequeue
      order followed by the queue, and every worker has run what it took, in order, up to
      the task in its hands. */
  lemma QueueIsServed<T>(workers: set<nat>, steps: seq<Step<T>>, w: nat)
    requires LegalRun(Start<T>(workers), steps) && workers != {}
    ensures var s := Run(Start<T>(workers), steps);
            && (s.waiting != {} ==> |s.queue| <= s.notifying + |s.checking|)
            && (s.waiting == workers && s.queue != [] ==> 0 < s.notifying)
            && (s.waiting != {} && s.exit ==> s.exitAll)
            && TasksOf(s.taken) + s.queue == s.submitted
            && By(s.taken, w) == By(s.executed, w) + InHand(s, w)
  {
    StartsWell<T>(workers);
    RunKeeps(Start<T>(workers), steps, workers);
    var s := Run(Start<T>(workers), steps);
    if s.waiting == workers {
      assert s.checking <= workers && s.checking * s.waiting == {};
      assert s.checking == {};
    }
  }

  // ------------------------------------------------------------ every task runs

  /** The steps by which the pool works off what it has. */
  predicate Serving<T>(step: Step<T>) { step.Notify? || step.Check? || step.Finish? }

  function Work<T>(s: Pool<T>): nat {
    2 * |s.queue| + 2 * |s.busy.Keys| + 2 * s.notifying + |s.checking|
  }

  lemma ServingWorksOff<T>(s: Pool<T>, step: Step<T>)
    requires s.checking !! s.waiting && s.checking !! s.busy.Keys && Enabled(s, step) && Serving(step)
    ensures Work(Next(s, step)) < Work(s)
  {
    match step {
      case Notify(woken) => if woken.Some? { CardinalityOfUnion(s.checking, woken.value); }
      case Check(w) => CheckWorksOff(s, w);
      case Finish(w) =>
        CardinalityOfUnion(s.checking, w);
        CardinalityOfUnion(s.busy.Keys, w);
        assert Next(s, step).busy.Keys == s.busy.Keys - {w};
    }
  }

  lemma CheckWorksOff<T>(s: Pool<T>, w: nat)
    requires w in s.checking && w !in s.busy.Keys
    ensures Work(Next(s, Check(w))) < Work(s)
  {
    CardinalityOfUnion(s.checking, w);
    CardinalityOfUnion(s.busy.Keys, w);
    assert s.queue != [] ==> s.busy[w := s.queue[0]].Keys == s.busy.Keys + {w};
  }

  lemma {:induction false} ServingEnds<T>(s: Pool<T>, steps: seq<Step<T>>, workers: set<nat>)
    requires Staffed(s, workers) && LegalRun(s, steps) && forall step :: step in steps ==> Serving(step)
    ensures |steps| <= Work(s)
    decreases |steps|
  {
    if steps != [] {
      assert steps[0] in steps;
      NextKeepsStaffed(s, steps[0], workers);
      ServingWorksOff(s, steps[0]);
      ServingEnds(Next(s, steps[0]), steps[1..], workers);
    }
  }

  /** Once nothing more is submitted the pool comes to rest within Work(s) steps, whatever
      the order in which they are taken, and when no step is left (before any request to
      exit) the queue is empty and every submitted task has been run by the worker that
      took it. */
  lemma EveryTaskIsRun<T>(workers: set<nat>, steps: seq<Step<T>>, serving: seq<Step<T>>)
    requires workers != {} && LegalRun(Start<T>(workers), steps)
    requires var s := Run(Start<T>(workers), steps);
             LegalRun(s, serving) && forall step :: step in serving ==> Serving(step)
    ensures var s := Run(Start<T>(workers), steps);
            var end := Run(s, serving);
            && |serving| <= Work(s)
            && (!end.exit && (forall step :: Serving(step) ==> !Enabled(end, step)) ==>
                && end.queue == [] && TasksOf(end.taken) == end.submitted
                && forall w: nat :: By(end.executed, w) == By(end.taken, w))
  {
    StartsWell<T>(workers);
    RunKeeps(Start<T>(workers), steps, workers);
    var s := Run(Start<T>(workers), steps);
    ServingEnds(s, serving, workers);
    RunKeeps(s, serving, workers);
    var end := Run(s, serving);
    if !end.exit && forall step :: Serving(step) ==> !Enabled(end, step) {
      AtRest(end, workers);
    }
  }

  lemma AtRest<T>(s: Pool<T>, workers: set<nat>)
    requires Inv(s, workers) && workers != {} && !s.exit
    requires forall step :: Serving(step) ==> !Enabled(s, step)
    ensures s.queue == [] && TasksOf(s.taken) == s.submitted
    ensures forall w: nat :: By(s.executed, w) == By(s.taken, w)
  {
    assert s.checking == {} by {
      if w :| w in s.checking { assert Serving(Step<T>.Check(w)) && Enabled(s, Step<T>.Check(w)); }
    }
    assert s.busy.Keys == {} by {
      if w :| w in s.busy.Keys { assert Serving(Step<T>.Finish(w)) && Enabled(s, Step<T>.Finish(w)); }
    }
    assert s.waiting == workers;
    var woken :| woken in s.waiting;
    assert Serving(Step<T>.Notify(Some(woken)));
    assert s.notifying == 0;
    assert TasksOf(s.taken) + [] == TasksOf(s.taken);
    forall w: nat ensures By(s.executed, w) == By(s.taken, w) {
      assert By(s.taken, w) == By(s.executed, w) + InHand(s, w);
    }
  }

  // ------------------------------------------------- one worker that exits

  lemma {:induction false} OnlyBy<T>(record: seq<(nat, T)>, w: nat)
    requires forall i :: 0 <= i < |record| ==> record[i].0 == w
    ensures By(record, w) == TasksOf(record)
  {
    if record != [] {
      OnlyBy(record[..|record| - 1], w);
    }
  }

  predicate OnlyWorker<T>(s: Pool<T>, w: nat) {
    && (forall i :: 0 <= i < |s.taken| ==> s.taken[i].0 == w)
    && (forall i :: 0 <= i < |s.executed| ==> s.executed[i].0 == w)
  }

  lemma {:induction false} RunKeepsOnlyWorker<T>(s: Pool<T>, steps: seq<Step<T>>, w: nat)
    requires Staffed(s, {w}) && OnlyWorker(s, w) && LegalRun(s, steps)
    ensures OnlyWorker(Run(s, steps), w)
    decreases |steps|
  {
    if steps != [] {
      NextKeepsStaffed(s, steps[0], {w});
      if steps[0].Check? || steps[0].Finish? {
        assert steps[0].w in s.checking + s.waiting + s.busy.Keys + s.gone;
      }
      RunKeepsOnlyWorker(Next(s, steps[0]), steps[1..], w);
    }
  }

  /** AsyncLog: what is written, what the writer holds and what is queued is all that was
      logged, in order. */
  lemma LogInOrder<T>(w: nat, steps: seq<Step<T>>)
    requires LegalRun(Start<T>({w}), steps)
    ensures var s := Run(Start<T>({w}), steps);
            TasksOf(s.executed) + InHand(s, w) + s.queue == s.submitted
  {
    StartsWell<T>({w});
    RunKeeps(Start<T>({w}), steps, {w});
    RunKeepsOnlyWorker(Start<T>({w}), steps, w);
    var s := Run(Start<T>({w}), steps);
    OnlyBy(s.taken, w);
    OnlyBy(s.executed, w);
    assert By(s.taken, w) == By(s.executed, w) + InHand(s, w);
  }

  /** The writer leaves its loop exactly when it checks after a request to exit with an
      empty queue, and then every message logged so far is written. */
  lemma ExitsWhenDrained<T>(w: nat, steps: seq<Step<T>>)
    requires LegalRun(Start<T>({w}), steps)
    requires w in Run(Start<T>({w}), steps).checking
    ensures var s := Run(Start<T>({w}), steps);
            && (w in Next(s, Check(w)).gone <==> s.exit && s.queue == [])
            && (w in Next(s, Check(w)).gone ==> TasksOf(s.executed) == s.submitted)
  {
    LogInOrder(w, steps);
    StartsWell<T>({w});
    RunKeeps(Start<T>({w}), steps, {w});
    var s := Run(Start<T>({w}), steps);
    assert w !in s.gone && w !in s.busy.Keys;
    assert TasksOf(s.executed) + [] + [] == TasksOf(s.executed);
  }
}
