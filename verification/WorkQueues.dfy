/**
  The classes of include/net/WorkerThreadPool.h and include/base/AsyncLog.h. Each method
  takes the steps of WorkQueueModel that its contract names, so every run of a class is a
  run of the step system. Which waiting thread a notify_one wakes is an input, and where
  the threads are is kept in ghost fields.
 */
module WorkQueues {
  import opened Wrappers
  import opened WorkQueueModel

  function Min(a: int, b: int): int { if a < b then a else b }

  lemma {:induction false} RunAppend<T>(s: Pool<T>, a: seq<Step<T>>, b: seq<Step<T>>)
    requires LegalRun(s, a) && LegalRun(Run(s, a), b)
    ensures LegalRun(s, a + b) && Run(s, a + b) == Run(Run(s, a), b)
    decreases |a|
  {
    if a == [] {
      assert a + b == b;
    } else {
      assert (a + b)[0] == a[0] && (a + b)[1..] == a[1..] + b;
      RunAppend(Next(s, a[0]), a[1..], b);
    }
  }

  lemma RunOneMore<T>(s: Pool<T>, a: seq<Step<T>>, step: Step<T>)
    requires LegalRun(s, a) && Enabled(Run(s, a), step)
    ensures LegalRun(s, a + [step]) && Run(s, a + [step]) == Next(Run(s, a), step)
  {
    var next := Next(Run(s, a), step);
    assert LegalRun(next, []) && Run(next, []) == next;
    assert LegalRun(Run(s, a), [step]) && Run(Run(s, a), [step]) == next;
    RunAppend(s, a, [step]);
  }

  lemma RunTwo<T>(s: Pool<T>, a: Step<T>, b: Step<T>)
    requires Enabled(s, a) && Enabled(Next(s, a), b)
    ensures Reaches(s, [a, b], Next(Next(s, a), b))
  {
    assert LegalRun(s, []) && Run(s, []) == s;
    RunOneMore(s, [], a);
    assert [] + [a] == [a];
    RunOneMore(s, [a], b);
    assert [a] + [b] == [a, b];
  }

  ghost predicate Reaches<T>(s: Pool<T>, steps: seq<Step<T>>, t: Pool<T>) {
    LegalRun(s, steps) && t == Run(s, steps)
  }

  lemma ReachesFurther<T>(s: Pool<T>, a: seq<Step<T>>, t: Pool<T>, b: seq<Step<T>>, u: Pool<T>)
    requires Reaches(s, a, t) && Reaches(t, b, u)
    ensures Reaches(s, a + b, u)
  {
    RunAppend(s, a, b);
  }

  lemma ReachesOneMore<T>(s: Pool<T>, a: seq<Step<T>>, t: Pool<T>, step: Step<T>)
    requires Reaches(s, a, t) && Enabled(t, step)
    ensures Reaches(s, a + [step], Next(t, step))
  {
    RunOneMore(s, a, step);
  }

  function Concat<T>(arrivals: seq<seq<T>>): seq<T> {
    if arrivals == [] then [] else Concat(arrivals[..|arrivals| - 1]) + arrivals[|arrivals| - 1]
  }

  lemma FirstMoves<T>(ran: seq<T>, queue: seq<T>, came: seq<T>)
    requires queue != []
    ensures (ran + [queue[0]]) + (queue[1..] + came) == (ran + queue) + came
  {
  }

  lemma ConcatNext<T>(all: seq<T>, arrivals: seq<seq<T>>, n: nat)
    requires n < |arrivals|
    ensures all + Concat(arrivals[..n]) + arrivals[n] == all + Concat(arrivals[..n + 1])
  {
    assert arrivals[..n + 1][..n] == arrivals[..n];
  }

  // Whom a notify_one may wake among the threads waiting.
  predicate Chosen(woken: Option<nat>, waiting: set<nat>) {
    if waiting == {} then woken.None? else woken.Some? && woken.value in waiting
  }

  class WorkThreadPool<T(!new)> {
    var taskqueue: seq<T>
    ghost var submitted: seq<T>
    ghost var checking: set<nat>
    ghost var waiting: set<nat>
    ghost var busy: map<nat, T>
    ghost var taken: seq<(nat, T)>
    ghost var executed: seq<(nat, T)>
    ghost var notifying: nat

    ghost function View(): Pool<T>
      reads this
    {
      Pool(taskqueue, submitted, checking, waiting, busy, {}, taken, executed, notifying, false, false)
    }

    constructor (workers: set<nat>)
      ensures View() == Start(workers)
    {
      taskqueue, submitted, checking, waiting, busy := [], [], workers, {}, map[];
      taken, executed, notifying := [], [], 0;
    }

    // The locked part of addtask.
    method PushLocked(task: T)
      modifies this
      ensures View() == Next(old(View()), Submit(task))
    {
      taskqueue := taskqueue + [task];
      submitted, notifying := submitted + [task], notifying + 1;
    }

    ghost method NotifyOne(woken: Option<nat>)
      requires Enabled(View(), Notify(woken))
      modifies this
      ensures View() == Next(old(View()), Notify(woken))
    {
      notifying := notifying - 1;
      if woken.Some? {
        waiting, checking := waiting - {woken.value}, checking + {woken.value};
      }
    }

    method AddTask(task: T, ghost woken: Option<nat>)
      requires Chosen(woken, waiting)
      modifies this
      ensures Reaches(old(View()), [Submit(task), Notify(woken)], View())
      ensures taskqueue == old(taskqueue) + [task] && busy == old(busy) && old(checking) <= checking
    {
      RunTwo(View(), Submit(task), Notify(woken));
      PushLocked(task);
      NotifyOne(woken);
    }

    /** The locked part of worker `w`'s turn: the first task, or the wait goes on. */
    method Take(w: nat) returns (task: Option<T>)
      requires w in checking
      modifies this
      ensures View() == Next(old(View()), Check(w))
      ensures task == if old(taskqueue) == [] then None else Some(old(taskqueue)[0])
    {
      checking := checking - {w};
      if taskqueue != [] {
        task := Some(taskqueue[0]);
        busy, taken := busy[w := taskqueue[0]], taken + [(w, taskqueue[0])];
        taskqueue := taskqueue[1..];
      } else {
        task := None;
        waiting := waiting + {w};
      }
    }

    /** The end of task(): the worker is back at the head of its loop. */
    method Finished(w: nat)
      requires w in busy
      modifies this
      ensures View() == Next(old(View()), Finish(w)) && taskqueue == old(taskqueue)
    {
      executed := executed + [(w, busy[w])];
      busy, checking := busy - {w}, checking + {w};
    }

    // What other threads submit meanwhile; each submission wakes some waiting worker.
    method Arrive(tasks: seq<T>) returns (ghost steps: seq<Step<T>>)
      modifies this
      ensures Reaches(old(View()), steps, View()) && taskqueue == old(taskqueue) + tasks
      ensures old(checking) <= checking && busy == old(busy)
    {
      steps := [];
      assert Reaches(View(), steps, View());
      hide Reaches;
      var i := 0;
      while i < |tasks|
        invariant 0 <= i <= |tasks|
        invariant Reaches(old(View()), steps, View()) && taskqueue == old(taskqueue) + tasks[..i]
        invariant old(checking) <= checking && busy == old(busy)
      {
        ghost var before := View();
        ghost var woken: Option<nat> := None;
        if waiting != {} {
          ghost var sleeper :| sleeper in waiting;
          woken := Some(sleeper);
        }
        AddTask(tasks[i], woken);
        ReachesFurther(old(View()), steps, before, [Submit(tasks[i]), Notify(woken)], View());
        assert tasks[..i + 1] == tasks[..i] + [tasks[i]];
        assert old(taskqueue) + tasks[..i] + [tasks[i]] == old(taskqueue) + tasks[..i + 1];
        steps := steps + [Submit(tasks[i]), Notify(woken)];
        i := i + 1;
      }
      assert tasks[..i] == tasks;
    }

    // Takes the first task and runs it, with what is submitted while it runs.
    method TakeAndRun(w: nat, arrivals: seq<T>) returns (task: T, ghost steps: seq<Step<T>>)
      requires w in checking && w !in busy && taskqueue != []
      modifies this
      ensures Reaches(old(View()), steps, View()) && w in checking && w !in busy
      ensures task == old(taskqueue)[0] && taskqueue == old(taskqueue)[1..] + arrivals
    {
      steps := [Check(w)];
      RunOneMore(View(), [], Check(w));
      var front := Take(w);
      task := front.value;
      ghost var mid := View();
      ghost var more := Arrive(arrivals);
      ReachesFurther(old(View()), steps, mid, more, View());
      steps := steps + more;
      ReachesOneMore(old(View()), steps, View(), Finish(w));
      Finished(w);
      steps := steps + [Finish(w)];
    }

    // The turns of worker `w` that find a task.
    method RunQueue(w: nat, arrivals: seq<seq<T>>) returns (ran: seq<T>, turns: nat, ghost steps: seq<Step<T>>)
      requires w in checking && w !in busy
      modifies this
      ensures turns == Min(|ran|, |arrivals|) && Reaches(old(View()), steps, View())
      ensures ran == old(taskqueue) + Concat(arrivals[..turns]) && taskqueue == [] && w in checking && w !in busy
    {
      ran, turns, steps := [], 0, [];
      assert Reaches(View(), steps, View());
      assert old(taskqueue) + Concat(arrivals[..0]) == old(taskqueue);
      hide Reaches, Concat;
      while taskqueue != []
        invariant turns == Min(|ran|, |arrivals|) && Reaches(old(View()), steps, View()) && w in checking && w !in busy
        invariant ran + taskqueue == old(taskqueue) + Concat(arrivals[..turns])
        decreases |arrivals| - turns, |taskqueue|
      {
        ghost var before, queue := View(), taskqueue;
        var came := if turns < |arrivals| then arrivals[turns] else [];
        var task;
        ghost var more;
        task, more := TakeAndRun(w, came);
        ReachesFurther(old(View()), steps, before, more, View());
        FirstMoves(ran, queue, came);
        ran, steps := ran + [task], steps + more;
        if turns < |arrivals| {
          ConcatNext(old(taskqueue), arrivals, turns);
          turns := turns + 1;
        }
      }
    }

    /** Worker `w` from the head of its loop until it waits; arrivals[k] is what is submitted
        while its k-th task runs. Alone at work, it runs the queue and what joins it, in order. */
    method WorkUntilIdle(w: nat, arrivals: seq<seq<T>>) returns (ran: seq<T>, turns: nat, ghost steps: seq<Step<T>>)
      requires w in checking && w !in busy
      modifies this
      ensures turns == Min(|ran|, |arrivals|) && Reaches(old(View()), steps, View())
      ensures ran == old(taskqueue) + Concat(arrivals[..turns]) && taskqueue == [] && w in waiting
    {
      hide Concat;
      ran, turns, steps := RunQueue(w, arrivals);
      ReachesOneMore(old(View()), steps, View(), Check(w));
      steps := steps + [Check(w)];
      var none := Take(w);
    }
  }

  // ------------------------------------------------------------------ AsyncLog

  /** The levels in the order of the enumeration, DEBUG last. */
  datatype Level = INFO | ERROR | FATAL | DEBUG {
    function Rank(): nat {
      match this case INFO => 0 case ERROR => 1 case FATAL => 2 case DEBUG => 3
    }
  }

  /** The levels a log set to `level` leaves out. */
  function Below(level: Level): set<Level> {
    match level
    case INFO => {}
    case ERROR => {INFO}
    case FATAL => {INFO, ERROR}
    case DEBUG => {INFO, ERROR, FATAL}
  }

  const WRITER: nat := 0 // the one worker

  function ByWriter<T>(messages: seq<T>): seq<(nat, T)> {
    seq(|messages|, i requires 0 <= i < |messages| => (WRITER, messages[i]))
  }

  /** What happens while one message is written: messages logged, and perhaps the request
      to exit. */
  datatype Meanwhile<T> = Meanwhile(logged: seq<T>, exits: bool)

  function Logged<T>(arrivals: seq<Meanwhile<T>>): seq<T> {
    if arrivals == [] then [] else Logged(arrivals[..|arrivals| - 1]) + arrivals[|arrivals| - 1].logged
  }

  predicate SomeExits<T>(arrivals: seq<Meanwhile<T>>) {
    arrivals != [] && (SomeExits(arrivals[..|arrivals| - 1]) || arrivals[|arrivals| - 1].exits)
  }

  lemma LoggedNext<T>(all: seq<T>, arrivals: seq<Meanwhile<T>>, n: nat)
    requires n < |arrivals|
    ensures SomeExits(arrivals[..n + 1]) <==> SomeExits(arrivals[..n]) || arrivals[n].exits
    ensures all + Logged(arrivals[..n]) + arrivals[n].logged == all + Logged(arrivals[..n + 1])
  {
    assert arrivals[..n + 1][..n] == arrivals[..n];
  }

  /** `place` is where the writer is; a task in its hands is `busy`. */
  datatype Place<T> = Checking | Waiting | Busy(message: T) | Gone

  class AsyncLog<T(!new)> {
    var logLevel: Level
    var logQueue: seq<T>
    var exit: bool
    var foutOpen: bool
    var fout: seq<T>
    var cerr: seq<T>
    ghost var place: Place<T>
    ghost var submitted: seq<T>
    ghost var taken: seq<T>
    ghost var executed: seq<T>
    ghost var notifying: nat
    ghost var exitAll: bool

    ghost function View(): Pool<T>
      reads this
    {
      Pool(logQueue, submitted, if place.Checking? then {WRITER} else {}, if place.Waiting? then {WRITER} else {},
           if place.Busy? then map[WRITER := place.message] else map[], if place.Gone? then {WRITER} else {},
           ByWriter(taken), ByWriter(executed), notifying, exit, exitAll)
    }

    constructor ()
      ensures View() == Start({WRITER}) && fout == cerr == [] && !foutOpen && !exit
    {
      logLevel, logQueue, exit, foutOpen, fout, cerr := INFO, [], false, false, [], [];
      place, submitted, taken, executed, notifying, exitAll := Checking, [], [], [], 0, false;
    }

    method PushLocked(message: T)
      modifies this`logQueue, this`submitted, this`notifying
      ensures View() == Next(old(View()), Submit(message))
      ensures logQueue == old(logQueue) + [message]
    {
      logQueue := logQueue + [message];
      submitted, notifying := submitted + [message], notifying + 1;
    }

    // notify_one wakes the writer if it waits.
    ghost method NotifyOne()
      requires 0 < notifying
      modifies this`place, this`notifying
      ensures var woken := if old(place) == Waiting then Some(WRITER) else None;
              Enabled(old(View()), Notify(woken)) && View() == Next(old(View()), Notify(woken))
      ensures place == if old(place) == Waiting then Checking else old(place)
    {
      notifying := notifying - 1;
      if place == Waiting {
        place := Checking;
      }
    }

    /** log(), with the message already formatted. */
    method Log(level: Level, message: T) returns (ghost steps: seq<Step<T>>)
      modifies this`logQueue, this`submitted, this`notifying, this`place
      ensures Reaches(old(View()), steps, View())
      ensures if level in Below(logLevel) then steps == [] && logQueue == old(logQueue)
              else logQueue == old(logQueue) + [message] && place != Waiting
      ensures old(place) != Waiting ==> place == old(place)
    {
      steps := [];
      if level.Rank() < logLevel.Rank() {
        return;
      }
      ghost var woken: Option<nat> := if place == Waiting then Some(WRITER) else None;
      steps := [Submit(message), Notify(woken)];
      RunTwo(View(), Submit(message), Notify(woken));
      PushLocked(message);
      NotifyOne();
    }

    /** The first half of the destructor. */
    method RequestExit()
      requires !exit
      modifies this`exit, this`exitAll, this`place
      ensures Reaches(old(View()), [SetExit, NotifyAll], View()) && exit
      ensures place == if old(place) == Waiting then Checking else old(place)
      ensures logQueue == old(logQueue)
    {
      RunTwo(View(), SetExit, NotifyAll);
      exit := true;
      exitAll := false;
      if place == Waiting {
        place := Checking;
      }
    }

    // What has been written where messages go now, and where they do not.
    ghost function Written(): seq<T> reads this { if foutOpen then fout else cerr }
    ghost function NotWritten(): seq<T> reads this { if foutOpen then cerr else fout }

    /** The locked part of one turn of asyncWrite: the first message, the end of the
        loop, or the wait. */
    method TakeLocked() returns (message: Option<T>)
      requires place == Checking
      modifies this`logQueue, this`place, this`taken
      ensures View() == Next(old(View()), Check(WRITER))
      ensures if old(logQueue) == [] then message == None && place == (if exit then Gone else Waiting) && logQueue == []
              else message == Some(old(logQueue)[0]) && logQueue == old(logQueue)[1..] && place == Busy(old(logQueue)[0])
    {
      message := None;
      if logQueue != [] {
        message := Some(logQueue[0]);
        place, taken := Busy(logQueue[0]), taken + [logQueue[0]];
        logQueue := logQueue[1..];
      } else if exit {
        place := Gone;
      } else {
        place := Waiting;
      }
    }

    /** The unlocked part of one turn of asyncWrite. */
    method Write(message: T)
      requires place == Busy(message)
      modifies this`fout, this`cerr, this`place, this`executed
      ensures View() == Next(old(View()), Finish(WRITER)) && place == Checking
      ensures Written() == old(Written()) + [message] && NotWritten() == old(NotWritten())
    {
      if foutOpen {
        fout := fout + [message];
      } else {
        cerr := cerr + [message];
      }
      place, executed := Checking, executed + [message];
    }

    // What is logged meanwhile, at a level that always passes.
    method Arrive(messages: seq<T>) returns (ghost steps: seq<Step<T>>)
      requires place != Waiting
      modifies this`logQueue, this`submitted, this`notifying, this`place
      ensures Reaches(old(View()), steps, View())
      ensures logQueue == old(logQueue) + messages && place == old(place)
    {
      steps := [];
      assert Reaches(View(), steps, View());
      hide Reaches;
      var i := 0;
      while i < |messages|
        invariant 0 <= i <= |messages|
        invariant Reaches(old(View()), steps, View())
        invariant logQueue == old(logQueue) + messages[..i] && place == old(place)
      {
        ghost var before := View();
        ghost var more := Log(DEBUG, messages[i]);
        ReachesFurther(old(View()), steps, before, more, View());
        assert messages[..i + 1] == messages[..i] + [messages[i]];
        assert old(logQueue) + messages[..i] + [messages[i]] == old(logQueue) + messages[..i + 1];
        steps := steps + more;
        i := i + 1;
      }
      assert messages[..i] == messages;
    }

    // What happens while a message is written.
    method Pass(arrival: Meanwhile<T>) returns (ghost steps: seq<Step<T>>)
      requires place != Waiting
      modifies this`logQueue, this`submitted, this`notifying, this`place, this`exit, this`exitAll
      ensures Reaches(old(View()), steps, View())
      ensures logQueue == old(logQueue) + arrival.logged && place == old(place) && exit == (old(exit) || arrival.exits)
    {
      steps := Arrive(arrival.logged);
      if arrival.exits && !exit {
        ghost var mid := View();
        RequestExit();
        ReachesFurther(old(View()), steps, mid, [SetExit, NotifyAll], View());
        steps := steps + [SetExit, NotifyAll];
      }
    }

    // A turn of asyncWrite that finds a message, with what happens while it is written.
    method WriteFirst(arrival: Meanwhile<T>) returns (ghost steps: seq<Step<T>>)
      requires place == Checking && logQueue != []
      modifies this`logQueue, this`fout, this`cerr, this`place, this`taken, this`executed, this`submitted, this`notifying,
               this`exit, this`exitAll
      ensures Reaches(old(View()), steps, View()) && place == Checking && exit == (old(exit) || arrival.exits)
      ensures Written() + logQueue == old(Written() + logQueue) + arrival.logged && NotWritten() == old(NotWritten())
      ensures logQueue == old(logQueue)[1..] + arrival.logged && |Written()| == |old(Written())| + 1
    {
      ghost var written, queue := Written(), logQueue;
      steps := [Check(WRITER), Finish(WRITER)];
      RunTwo(View(), Check(WRITER), Finish(WRITER));
      var message := TakeLocked();
      Write(message.value);
      ghost var mid := View();
      ghost var more := Pass(arrival);
      ReachesFurther(old(View()), steps, mid, more, View());
      steps := steps + more;
      FirstMoves(written, queue, arrival.logged);
    }

    // The turns of asyncWrite that find a message.
    method WriteQueue(arrivals: seq<Meanwhile<T>>) returns (turns: nat, ghost steps: seq<Step<T>>)
      requires place == Checking
      modifies this`logQueue, this`fout, this`cerr, this`place, this`taken, this`executed, this`submitted, this`notifying,
               this`exit, this`exitAll
      ensures turns == Min(|Written()| - |old(Written())|, |arrivals|) && |old(Written())| <= |Written()|
      ensures Reaches(old(View()), steps, View()) && place == Checking && logQueue == []
      ensures Written() == old(Written() + logQueue) + Logged(arrivals[..turns]) && NotWritten() == old(NotWritten())
      ensures exit == (old(exit) || SomeExits(arrivals[..turns]))
    {
      turns, steps := 0, [];
      assert Reaches(View(), steps, View());
      assert old(Written() + logQueue) + Logged(arrivals[..0]) == old(Written() + logQueue) && !SomeExits(arrivals[..0]);
      hide Reaches, Logged, SomeExits;
      while logQueue != []
        invariant turns == Min(|Written()| - |old(Written())|, |arrivals|) && |old(Written())| <= |Written()|
        invariant place == Checking && Reaches(old(View()), steps, View())
        invariant Written() + logQueue == old(Written() + logQueue) + Logged(arrivals[..turns])
        invariant NotWritten() == old(NotWritten())
        invariant exit == (old(exit) || SomeExits(arrivals[..turns]))
        decreases |arrivals| - turns, |logQueue|
      {
        ghost var before := View();
        ghost var more;
        if turns < |arrivals| {
          more := WriteFirst(arrivals[turns]);
          LoggedNext(old(Written() + logQueue), arrivals, turns);
          turns := turns + 1;
        } else {
          more := WriteFirst(Meanwhile([], false));
        }
        ReachesFurther(old(View()), steps, before, more, View());
        steps := steps + more;
      }
      assert Written() + [] == Written();
    }

    /** asyncWrite from the head of its loop until it waits or breaks; arrivals[k] is what
        happens while its k-th message is written. It writes the queue and what joins it, in
        order, to the file if it is open, and it leaves the loop exactly on a request to exit,
        made before or meanwhile. */
    method AsyncWrite(arrivals: seq<Meanwhile<T>>) returns (turns: nat, ghost steps: seq<Step<T>>)
      requires place == Checking
      modifies this`logQueue, this`fout, this`cerr, this`place, this`taken, this`executed, this`submitted, this`notifying,
               this`exit, this`exitAll
      ensures turns == Min(|Written()| - |old(Written())|, |arrivals|)
      ensures Reaches(old(View()), steps, View()) && logQueue == []
      ensures Written() == old(Written() + logQueue) + Logged(arrivals[..turns]) && NotWritten() == old(NotWritten())
      ensures exit == (old(exit) || SomeExits(arrivals[..turns]))
      ensures place == if exit then Gone else Waiting
    {
      hide Logged, SomeExits;
      turns, steps := WriteQueue(arrivals);
      ReachesOneMore(old(View()), steps, View(), Check(WRITER));
      steps := steps + [Check(WRITER)];
      var none := TakeLocked();
    }
  }
}
