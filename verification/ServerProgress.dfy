/**
  That connections do end: a closed connection is destroyed within one batch of the main
  loop and one of its own, and nothing then keeps it.
 */
module ServerProgress {
  import opened ServerModel
  import opened ServerSafety
  import opened ServerTheorems
  import C = ConnectionModel

  // ------------------------------------------------------------- no leak

  /** The functors of a batch, and the shared_ptrs they hold, live only while it runs. */
  predicate Released(s: Server) {
    forall l :: 0 <= l < |s.loops| && s.loops[l].phase != Running ==> s.loops[l].queue.done == []
  }

  // Nothing but pushes.
  predicate OnlyPushes(s: Server, r: Server) {
    |r.loops| == |s.loops|
    && forall l :: 0 <= l < |s.loops| ==> r.loops[l].phase == s.loops[l].phase && r.loops[l].queue.done == s.loops[l].queue.done
  }

  lemma {:induction false} RemovesOnlyPush(s: Server, x: nat, n: nat)
    requires WellFormed(s) && x < |s.peers|
    ensures OnlyPushes(s, RemoveTimes(s, x, n))
  {
    if n > 0 { RemovesOnlyPush(s, x, n - 1); }
  }

  lemma EventReleases(cfg: C.Config, s: Server, step: Step)
    requires Inv(s) && Enabled(s, step) && step.Event? && Released(s)
    ensures Released(Next(cfg, s, step))
  {
    hide C.Dispatch, PeersOk, LoopsOk, OwnFds;
    var phase := s.loops[step.l].phase;
    var x := phase.active[0];
    var c := s.peers[x].conn;
    var d := C.Dispatch(cfg, c, phase.Head(), step.r, step.calls, step.w);
    RemovesOnlyPush(SetConn(SetPhase(s, step.l, phase.Rest()), x, d), x, if c.closes < d.closes then d.closes - c.closes else 0);
  }

  lemma NextReleases(cfg: C.Config, s: Server, step: Step)
    requires Inv(s) && Enabled(s, step) && Released(s)
    ensures Released(Next(cfg, s, step))
  {
    hide C.Dispatch, C.ConnectEstablished, C.ConnectDestroyed, C.SendInLoop, C.ShutdownInLoop, C.DoCall, PeersOk, LoopsOk, OwnFds;
    if step.Event? { EventReleases(cfg, s, step); }
  }

  lemma {:induction false} RunReleases(cfg: C.Config, s: Server, steps: seq<Step>)
    requires Inv(s) && LegalRun(cfg, s, steps) && Released(s)
    ensures Released(Run(cfg, s, steps))
    decreases |steps|
  {
    if steps != [] {
      hide Next, Enabled, Released;
      NextReleases(cfg, s, steps[0]);
      NextKeepsInv(cfg, s, steps[0]);
      RunReleases(cfg, Next(cfg, s, steps[0]), steps[1..]);
    }
  }

  /** Once no loop has a functor queued or is running any, and user code holds it no more, a
      closed connection has left the map, has been destroyed, and is free to be reclaimed. */
  lemma ClosedIsReclaimable(cfg: C.Config, loops: nat, steps: seq<Step>, id: nat)
    requires 1 <= loops && LegalRun(cfg, Initial(loops), steps)
    requires var s := Run(cfg, Initial(loops), steps);
             && id < |s.peers| && s.peers[id].alive && s.peers[id].held == 0 && 1 <= s.peers[id].conn.closes
             && forall l :: 0 <= l < |s.loops| ==> s.loops[l].phase != Running && s.loops[l].queue.pending == []
    ensures var s := Run(cfg, Initial(loops), steps);
            id !in s.serving && 1 <= s.peers[id].destroys && Enabled(s, Reclaim(id))
  {
    StartsWell(loops);
    RunKeeps(cfg, Initial(loops), steps);
    RunReleases(cfg, Initial(loops), steps);
    NothingHeld(Run(cfg, Initial(loops), steps), id);
  }

  lemma NothingHeld(s: Server, id: nat)
    requires Inv(s) && Released(s) && id < |s.peers| && s.peers[id].alive && s.peers[id].held == 0 && 1 <= s.peers[id].conn.closes
    requires forall l :: 0 <= l < |s.loops| ==> s.loops[l].phase != Running && s.loops[l].queue.pending == []
    ensures id !in s.serving && 1 <= s.peers[id].destroys && Enabled(s, Reclaim(id))
  {
    forall l | 0 <= l < |s.loops| ensures Held(s.loops[l].queue) == [] && s.loops[l].queue.Unrun() == [] {
      assert LoopOk(s, l);
    }
    assert s.loops[MAIN].queue.Unrun() == [];
    assert PeerOk(TrackOf(s, id), id, 0);
  }

  // How often user code takes a shared_ptr of the connection less how often it drops one.
  function HeldBy(steps: seq<Step>, id: nat): int {
    if steps == [] then 0
    else HeldBy(steps[1..], id) + if steps[0] == Retain(id) then 1 else if steps[0] == Release(id) then -1 else 0
  }

  predicate Counts(s: Server, step: Step, r: Server, id: nat)
    requires |s.peers| <= |r.peers| && id < |r.peers|
  {
    var p := if id < |s.peers| then s.peers[id] else Peer(0, 0, C.NEW_CONN, 0, 0, true, 0);
    && r.peers[id].held as int == p.held as int + HeldBy([step], id)
    && r.peers[id].alive == (p.alive && step != Reclaim(id))
  }

  lemma {:induction false} RemovesHoldNothing(s: Server, x: nat, n: nat, id: nat)
    requires WellFormed(s) && x < |s.peers| && id < |s.peers|
    ensures var r := RemoveTimes(s, x, n); r.peers[id].held == s.peers[id].held && r.peers[id].alive == s.peers[id].alive
  {
    if n > 0 { RemovesHoldNothing(s, x, n - 1, id); }
  }

  lemma HeldByOne(step: Step, id: nat)
    ensures HeldBy([step], id) == if step == Retain(id) then 1 else if step == Release(id) then -1 else 0
  {
    assert [step][1..] == [];
  }

  lemma StepCounts(cfg: C.Config, s: Server, step: Step, id: nat)
    requires Inv(s) && Enabled(s, step) && id < |Next(cfg, s, step).peers|
    ensures Counts(s, step, Next(cfg, s, step), id)
  {
    hide C.Dispatch, C.ConnectEstablished, C.ConnectDestroyed, C.SendInLoop, C.ShutdownInLoop, C.DoCall, PeersOk, LoopsOk, OwnFds, HeldBy;
    HeldByOne(step, id);
    if step.Event? {
      var phase := s.loops[step.l].phase;
      var x := phase.active[0];
      var c := s.peers[x].conn;
      var d := C.Dispatch(cfg, c, phase.Head(), step.r, step.calls, step.w);
      RemovesHoldNothing(SetConn(SetPhase(s, step.l, phase.Rest()), x, d), x, if c.closes < d.closes then d.closes - c.closes else 0, id);
    }
  }

  /** The count of the shared_ptrs in user code, and the end of the object: it lives until its
      one Reclaim step. */
  lemma {:induction false} HeldExactly(cfg: C.Config, s: Server, steps: seq<Step>, id: nat)
    requires Inv(s) && LegalRun(cfg, s, steps) && id < |s.peers|
    ensures id < |Run(cfg, s, steps).peers|
    ensures var p := Run(cfg, s, steps).peers[id];
            p.held as int == s.peers[id].held as int + HeldBy(steps, id) && (p.alive <==> s.peers[id].alive && Reclaim(id) !in steps)
    decreases |steps|
  {
    if steps != [] {
      hide Next, Enabled;
      NextKeepsInv(cfg, s, steps[0]);
      StepCounts(cfg, s, steps[0], id);
      HeldByOne(steps[0], id);
      HeldExactly(cfg, Next(cfg, s, steps[0]), steps[1..], id);
      assert Reclaim(id) in steps <==> steps[0] == Reclaim(id) || Reclaim(id) in steps[1..];
    }
  }

  // ------------------------------------------------------------- progress

  predicate EraseDue(s: Server, id: nat)
    requires WellFormed(s) && id < |s.peers|
  {
    1 <= s.peers[id].erases || RemoveInLoop(id) in s.loops[MAIN].queue.todo
  }

  predicate DestroyDue(s: Server, id: nat)
    requires WellFormed(s) && id < |s.peers|
  {
    1 <= s.peers[id].destroys || Destroy(id) in s.loops[s.peers[id].loop].queue.todo
  }

  predicate NotLess(s: Server, r: Server, id: nat) {
    && id < |s.peers| <= |r.peers| && r.peers[id].loop == s.peers[id].loop
    && s.peers[id].erases <= r.peers[id].erases && s.peers[id].destroys <= r.peers[id].destroys
  }

  // What a step leaves of the rest of a loop's batch.
  predicate BatchKept(s: Server, r: Server, l: nat) {
    l < |s.loops| == |r.loops| && forall f :: f in s.loops[l].queue.todo ==> f in r.loops[l].queue.todo
  }

  lemma {:induction false} RemoveTimesNotLess(s: Server, x: nat, n: nat, id: nat, l: nat)
    requires WellFormed(s) && x < |s.peers| && id < |s.peers| && l < |s.loops|
    ensures NotLess(s, RemoveTimes(s, x, n), id) && BatchKept(s, RemoveTimes(s, x, n), l)
  {
    if n > 0 {
      RemoveTimesNotLess(s, x, n - 1, id, l);
    }
  }

  lemma EventNotLess(cfg: C.Config, s: Server, step: Step, id: nat, l: nat)
    requires Inv(s) && Enabled(s, step) && step.Event? && id < |s.peers| && l < |s.loops|
    ensures NotLess(s, Next(cfg, s, step), id) && BatchKept(s, Next(cfg, s, step), l)
  {
    hide C.Dispatch, PeersOk, LoopsOk, OwnFds;
    var active := s.loops[step.l].phase.active;
    var x := active[0];
    var c := s.peers[x].conn;
    var d := C.Dispatch(cfg, c, s.loops[step.l].phase.Head(), step.r, step.calls, step.w);
    var t := SetConn(SetPhase(s, step.l, s.loops[step.l].phase.Rest()), x, d);
    RemoveTimesNotLess(t, x, if c.closes < d.closes then d.closes - c.closes else 0, id, l);
  }

  lemma RunNotLess(cfg: C.Config, s: Server, step: Step, id: nat, l: nat)
    requires Inv(s) && Enabled(s, step) && step.RunOne? && id < |s.peers| && l < |s.loops|
    ensures NotLess(s, Next(cfg, s, step), id) && (l != step.l ==> BatchKept(s, Next(cfg, s, step), l))
    ensures var f := s.loops[step.l].queue.todo[0];
            var r := Next(cfg, s, step);
            && (forall g :: g in s.loops[step.l].queue.todo && g != f ==> g in r.loops[step.l].queue.todo)
            && (f == RemoveInLoop(id) ==> 1 <= r.peers[id].erases)
            && (f == Destroy(id) ==> 1 <= r.peers[id].destroys)
  {
    hide C.ConnectEstablished, C.ConnectDestroyed, C.SendInLoop, C.ShutdownInLoop, PeersOk, LoopsOk, OwnFds;
    var todo := s.loops[step.l].queue.todo;
    assert todo == [todo[0]] + todo[1..];
  }

  lemma OtherNotLess(cfg: C.Config, s: Server, step: Step, id: nat, l: nat)
    requires Inv(s) && Enabled(s, step) && !step.Event? && !step.RunOne? && id < |s.peers| && l < |s.loops|
    ensures NotLess(s, Next(cfg, s, step), id) && BatchKept(s, Next(cfg, s, step), l)
  {
    hide C.DoCall, C.ConnectEstablished, PeersOk, LoopsOk, OwnFds;
  }

  /** What is due in a batch stays due until it is done. */
  lemma NextKeepsDue(cfg: C.Config, s: Server, step: Step, id: nat)
    requires Inv(s) && Enabled(s, step) && id < |s.peers|
    ensures var r := Next(cfg, s, step);
            && NotLess(s, r, id)
            && (EraseDue(s, id) ==> EraseDue(r, id)) && (DestroyDue(s, id) ==> DestroyDue(r, id))
  {
    hide Next, Enabled, PeersOk, LoopsOk, OwnFds;
    var l := s.peers[id].loop;
    if step.RunOne? {
      RunNotLess(cfg, s, step, id, MAIN);
      RunNotLess(cfg, s, step, id, l);
    } else if step.Event? {
      EventNotLess(cfg, s, step, id, MAIN);
      EventNotLess(cfg, s, step, id, l);
    } else {
      OtherNotLess(cfg, s, step, id, MAIN);
      OtherNotLess(cfg, s, step, id, l);
    }
  }

  // A batch takes up what waits for the connection.
  lemma StartMakesDue(cfg: C.Config, s: Server, step: Step, id: nat)
    requires Inv(s) && Enabled(s, step) && step.StartBatch? && id < |s.peers| && 1 <= s.peers[id].conn.closes
    ensures step.l == MAIN ==> EraseDue(Next(cfg, s, step), id)
    ensures step.l == s.peers[id].loop && 1 <= s.peers[id].erases ==> DestroyDue(Next(cfg, s, step), id)
  {
    var t := TrackOf(s, id);
    var q := s.loops[step.l].queue;
    assert PeerOk(t, id, 0);
    assert q.Unrun() == q.pending;
    PartsMembers(q.Unrun(), id);
    LeadingRawsBounds(t.io);
    if step.l == t.p.loop && 1 <= t.p.erases && t.p.destroys == 0 {
      assert t.io[|t.io| - 1] == Destroy(id) && t.io[|t.io| - 1] in t.io;
    }
  }

  /** How far a run has come through a batch of the main loop and then one of loop `l`. */
  function Advance(stage: nat, step: Step, l: nat): nat {
    if stage == 0 && step == StartBatch(MAIN) then 1
    else if stage == 1 && step == FinishBatch(MAIN) then 2
    else if stage == 2 && step == StartBatch(l) then 3
    else if stage == 3 && step == FinishBatch(l) then 4
    else stage
  }

  function Stage(stage: nat, steps: seq<Step>, l: nat): nat
    decreases |steps|
  {
    if steps == [] then stage else Stage(Advance(stage, steps[0], l), steps[1..], l)
  }

  predicate StageInv(s: Server, id: nat, stage: nat)
    requires WellFormed(s) && id < |s.peers|
  {
    && 1 <= s.peers[id].conn.closes
    && (1 <= stage ==> EraseDue(s, id)) && (2 <= stage ==> 1 <= s.peers[id].erases)
    && (3 <= stage ==> DestroyDue(s, id)) && (4 <= stage ==> 1 <= s.peers[id].destroys)
  }

  lemma NextKeepsStage(cfg: C.Config, s: Server, step: Step, id: nat, stage: nat)
    requires Inv(s) && Enabled(s, step) && id < |s.peers| && StageInv(s, id, stage)
    ensures StageInv(Next(cfg, s, step), id, Advance(stage, step, s.peers[id].loop))
  {
    hide Next, PeersOk, LoopsOk, OwnFds;
    NextKeepsDue(cfg, s, step, id);
    ClosesStay(cfg, s, step, id);
    if step.StartBatch? { StartMakesDue(cfg, s, step, id); }
  }

  lemma ClosesStay(cfg: C.Config, s: Server, step: Step, id: nat)
    requires Inv(s) && Enabled(s, step) && id < |s.peers|
    ensures s.peers[id].conn.closes <= Next(cfg, s, step).peers[id].conn.closes
  {
    StepMoves(cfg, s, step, id);
  }

  lemma {:induction false} RunKeepsStage(cfg: C.Config, s: Server, steps: seq<Step>, id: nat, stage: nat)
    requires Inv(s) && LegalRun(cfg, s, steps) && id < |s.peers| && StageInv(s, id, stage)
    ensures StageInv(Run(cfg, s, steps), id, Stage(stage, steps, s.peers[id].loop))
    decreases |steps|
  {
    if steps != [] {
      hide StageInv;
      NextKeepsInv(cfg, s, steps[0]);
      NextKeepsDue(cfg, s, steps[0], id);
      NextKeepsStage(cfg, s, steps[0], id, stage);
      RunKeepsStage(cfg, Next(cfg, s, steps[0]), steps[1..], id, Advance(stage, steps[0], s.peers[id].loop));
    }
  }

  /** A closed connection is destroyed: whatever else happens, a batch of the main loop and
      then one of its own loop, begun after the close and run to their ends, are enough. */
  lemma ClosedIsDestroyed(cfg: C.Config, loops: nat, before: seq<Step>, steps: seq<Step>, id: nat)
    requires 1 <= loops && LegalRun(cfg, Initial(loops), before)
    requires var s := Run(cfg, Initial(loops), before);
             && LegalRun(cfg, s, steps) && id < |s.peers| && 1 <= s.peers[id].conn.closes
             && Stage(0, steps, s.peers[id].loop) == 4
    ensures var p := Run(cfg, Run(cfg, Initial(loops), before), steps).peers[id];
            1 <= p.destroys && p.conn.reg.kernel.None? && !p.conn.reg.listed
  {
    StartsWell(loops);
    RunKeeps(cfg, Initial(loops), before);
    var s := Run(cfg, Initial(loops), before);
    RunKeeps(cfg, s, steps);
    RunKeepsStage(cfg, s, steps, id, 0);
    assert PeerOk(TrackOf(Run(cfg, s, steps), id), id, 0);
  }
}
