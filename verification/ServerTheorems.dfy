/**
  The whole-run results about ServerModel: who owns a connection, that reclaiming one
  is safe, what its life looks like, and what the server's map holds.
 */
module ServerTheorems {
  import opened ServerModel
  import opened ServerSafety
  import P = Poller
  import B = ByteBuffer
  import C = ConnectionModel

  predicate LegalRun(cfg: C.Config, s: Server, steps: seq<Step>)
    requires WellFormed(s)
    decreases |steps|
  {
    steps == [] || (Enabled(s, steps[0]) && LegalRun(cfg, Next(cfg, s, steps[0]), steps[1..]))
  }

  function Run(cfg: C.Config, s: Server, steps: seq<Step>): (r: Server)
    requires WellFormed(s) && LegalRun(cfg, s, steps)
    ensures WellFormed(r) && Grown(s, r)
    decreases |steps|
  {
    if steps == [] then s else Run(cfg, Next(cfg, s, steps[0]), steps[1..])
  }

  // ------------------------------------------------------------- reclaiming

  /** Some part of the server may still reach the object: epoll or the poller's map by
      its channel, an active list, or a functor that has not run. */
  ghost predicate InUse(s: Server, id: nat)
    requires id < |s.peers|
  {
    || InEpoll(s, id) || s.peers[id].conn.reg.listed
    || (exists l :: 0 <= l < |s.loops| && s.loops[l].phase.Dispatching? && id in s.loops[l].phase.active)
    || (exists l, f :: 0 <= l < |s.loops| && f in Unrun(s, l) && f.id == id)
  }

  lemma UnrunOwns(s: Server, l: nat, f: Functor)
    requires l < |s.loops| && f in Unrun(s, l) && Owns(f, f.id)
    ensures FunctorOwns(s, f.id)
  {
    var q := s.loops[l].queue;
    var j :| 0 <= j < |q.Unrun()| && q.Unrun()[j] == f;
    assert Held(q) == q.done + q.Unrun();
    assert Held(q)[|q.done| + j] == f;
  }

  /** Work left for a connection in the queues, or an epoll entry, comes with an owner. */
  lemma WorkIsOwned(s: Server, id: nat)
    requires Inv(s) && id < |s.peers|
    requires var t := TrackOf(s, id); t.io != [] || 0 < t.rem || InEpoll(s, id) || t.p.conn.reg.listed
    ensures HasOwner(s, id) && s.peers[id].alive
  {
    var t := TrackOf(s, id);
    assert PeerOk(t, id, 0);
    LeadingRawsBounds(t.io);
    PartsMembers(Unrun(s, t.p.loop), id);
    PartsMembers(Unrun(s, MAIN), id);
    if id !in s.serving {
      if 0 < t.rem {
        UnrunOwns(s, MAIN, RemoveInLoop(id));
      } else {
        var last := t.io[|t.io| - 1];
        assert last in t.io && last == Destroy(id);
        UnrunOwns(s, t.p.loop, last);
      }
    }
  }

  lemma ReclaimStep(cfg: C.Config, s: Server, step: Step)
    requires Inv(s) && step.Reclaim? && Enabled(s, step)
    ensures Inv(Next(cfg, s, step))
    ensures !InEpoll(s, step.id) && !s.peers[step.id].conn.reg.listed && 1 <= s.peers[step.id].destroys
  {
    var id := step.id;
    var r := Next(cfg, s, step);
    var t := TrackOf(s, id);
    if t.io != [] || 0 < t.rem || InEpoll(s, id) || t.p.conn.reg.listed { WorkIsOwned(s, id); }
    assert PeerOk(t, id, 0);
    forall k | 0 <= k < |r.loops| ensures LoopOk(r, k) {
      assert LoopOk(s, k);
      forall f | f in Unrun(r, k) ensures Placed(r, k, f) { assert f in Unrun(s, k) && Placed(s, k, f); }
      ActiveSame(s, r, k);
    }
    forall i | 0 <= i < |r.peers| ensures PeerOk(TrackOf(r, i), i, 0) {
      assert PeerOk(TrackOf(s, i), i, 0);
      if i != id { assert TrackOf(r, i) == TrackOf(s, i); }
    }
  }

  lemma NextKeepsInv(cfg: C.Config, s: Server, step: Step)
    requires Inv(s) && Enabled(s, step)
    ensures Inv(Next(cfg, s, step))
  {
    match step
    case Accept(_, _, _) => AcceptStep(cfg, s, step);
    case Poll(_, _, _) => PhaseStep(cfg, s, step);
    case Event(_, _, _, _) => EventStep(cfg, s, step);
    case StartBatch(_) => PhaseStep(cfg, s, step);
    case RunOne(_, _, _) => RunStep(cfg, s, step);
    case FinishBatch(_) => PhaseStep(cfg, s, step);
    case App(_, _) => UserStep(cfg, s, step);
    case CrossSend(_, _) => UserStep(cfg, s, step);
    case CrossShutdown(_) => UserStep(cfg, s, step);
    case QueueOwned(_, _) => UserStep(cfg, s, step);
    case Retain(_) => HolderStep(cfg, s, step);
    case Release(_) => HolderStep(cfg, s, step);
    case Reclaim(_) => ReclaimStep(cfg, s, step);
  }

  // ------------------------------------------------------ owners are alive

  predicate OwnersAlive(s: Server) {
    && (forall id :: id in s.serving ==> id < |s.peers| && s.peers[id].alive)
    && (forall id :: 0 <= id < |s.peers| && 0 < s.peers[id].held ==> s.peers[id].alive)
    && (forall l, f :: 0 <= l < |s.loops| && f in Held(s.loops[l].queue) && Owns(f, f.id) ==>
          f.id < |s.peers| && s.peers[f.id].alive)
  }

  // Nothing but functors of living connections joins a queue, and no life ends.
  predicate Extends(s: Server, r: Server) {
    && Grown(s, r)
    && (forall i :: 0 <= i < |s.peers| && s.peers[i].alive ==> r.peers[i].alive)
    && (forall l, f :: 0 <= l < |s.loops| && f in Held(r.loops[l].queue) && Owns(f, f.id) ==>
          f in Held(s.loops[l].queue) || (f.id < |r.peers| && r.peers[f.id].alive))
    && (forall id :: id in r.serving ==> id in s.serving || (id < |r.peers| && r.peers[id].alive))
    && (forall i :: 0 <= i < |r.peers| && 0 < r.peers[i].held ==> (i < |s.peers| && 0 < s.peers[i].held) || r.peers[i].alive)
  }

  lemma ExtendsKeepsOwners(s: Server, r: Server)
    requires OwnersAlive(s) && Extends(s, r)
    ensures OwnersAlive(r)
  {
  }

  lemma PushExtends(s: Server, l: nat, f: Functor)
    requires l < |s.loops| && (Owns(f, f.id) ==> f.id < |s.peers| && s.peers[f.id].alive)
    ensures Extends(s, Push(s, l, f))
  {
    var q := s.loops[l].queue;
    assert Held(q.Push(f)) == Held(q) + [f];
  }

  lemma EraseExtends(s: Server, id: nat)
    requires WellFormed(s) && id < |s.peers| && s.peers[id].alive
    ensures Extends(s, RemoveConnectionInLoop(s, id)) && RemoveConnectionInLoop(s, id).peers[id].alive
  {
    PushExtends(Erase(s, id), s.peers[id].loop, Destroy(id));
  }

  lemma {:induction false} RemoveExtends(s: Server, id: nat, n: nat)
    requires WellFormed(s) && OwnersAlive(s) && id < |s.peers| && s.peers[id].alive
    ensures OwnersAlive(RemoveTimes(s, id, n)) && RemoveTimes(s, id, n).peers[id].alive
  {
    if n > 0 {
      RemoveExtends(s, id, n - 1);
      var m := RemoveTimes(s, id, n - 1);
      if m.peers[id].loop == MAIN {
        EraseExtends(m, id);
        ExtendsKeepsOwners(m, RemoveConnectionInLoop(m, id));
      } else {
        PushExtends(m, MAIN, RemoveInLoop(id));
        ExtendsKeepsOwners(m, Push(m, MAIN, RemoveInLoop(id)));
      }
    }
  }

  lemma QueueStepKeepsOwners(cfg: C.Config, s: Server, step: Step)
    requires Inv(s) && OwnersAlive(s) && Enabled(s, step)
    requires step.Poll? || step.StartBatch? || step.FinishBatch?
    ensures OwnersAlive(Next(cfg, s, step))
  {
    var q := s.loops[step.l].queue;
    var r := Next(cfg, s, step);
    assert forall f :: f in Held(r.loops[step.l].queue) ==> f in Held(q);
    ExtendsKeepsOwners(s, r);
  }

  lemma RunKeepsOwners(cfg: C.Config, s: Server, step: Step)
    requires Inv(s) && OwnersAlive(s) && Enabled(s, step) && step.RunOne?
    ensures OwnersAlive(Next(cfg, s, step))
  {
    hide C.ConnectEstablished, C.ConnectDestroyed, C.SendInLoop, C.ShutdownInLoop, PeersOk, LoopsOk, OwnFds;
    var q := s.loops[step.l].queue;
    var f := q.todo[0];
    var t := Advanced(s, step.l);
    assert Held(q.Advance()) == Held(q);
    assert f == Held(q)[|q.done|] && f in Held(q);
    ExtendsKeepsOwners(s, t);
    if f.RemoveInLoop? { EraseExtends(t, f.id); }
    ExtendsKeepsOwners(t, Next(cfg, s, step));
  }

  lemma AcceptKeepsOwners(cfg: C.Config, s: Server, step: Step)
    requires Inv(s) && OwnersAlive(s) && Enabled(s, step) && step.Accept?
    ensures OwnersAlive(Next(cfg, s, step))
  {
    var m := Made(s, step.l, step.fd);
    ExtendsKeepsOwners(s, m);
    if step.l != MAIN { PushExtends(m, step.l, Establish(|s.peers|)); }
    ExtendsKeepsOwners(m, Next(cfg, s, step));
  }

  lemma EventKeepsOwners(cfg: C.Config, s: Server, step: Step)
    requires Inv(s) && OwnersAlive(s) && Enabled(s, step) && step.Event?
    ensures OwnersAlive(Next(cfg, s, step))
  {
    hide C.Dispatch, PeersOk, LoopsOk, OwnFds;
    var active := s.loops[step.l].phase.active;
    var id := active[0];
    ActiveTaken(s, step.l);
    RegisteredIsAlive(s, id);
    var c := s.peers[id].conn;
    var d := C.Dispatch(cfg, c, Reported(s, step), step.r, step.calls, step.w);
    var t := SetConn(SetPhase(s, step.l, s.loops[step.l].phase.Rest()), id, d);
    ExtendsKeepsOwners(s, t);
    RemoveExtends(t, id, if c.closes < d.closes then d.closes - c.closes else 0);
  }

  // A change of connections, or of what user code holds of a living one.
  predicate OnlyPeers(s: Server, r: Server) {
    && r.loops == s.loops && r.serving == s.serving && |r.peers| == |s.peers|
    && forall i :: 0 <= i < |s.peers| ==>
         r.peers[i].alive == s.peers[i].alive && (r.peers[i].held <= s.peers[i].held || s.peers[i].alive)
  }

  lemma OnlyPeersKeepsOwners(s: Server, r: Server)
    requires OwnersAlive(s) && OnlyPeers(s, r)
    ensures OwnersAlive(r)
  {
  }

  lemma PushKeepsOwners(s: Server, l: nat, f: Functor)
    requires OwnersAlive(s) && l < |s.loops| && (Owns(f, f.id) ==> f.id < |s.peers| && s.peers[f.id].alive)
    ensures OwnersAlive(Push(s, l, f))
  {
    PushExtends(s, l, f);
    ExtendsKeepsOwners(s, Push(s, l, f));
  }

  lemma AppKeepsOwners(cfg: C.Config, s: Server, step: Step)
    requires Inv(s) && OwnersAlive(s) && Enabled(s, step) && (step.App? || step.Retain? || step.Release?)
    ensures OwnersAlive(Next(cfg, s, step))
  {
    hide C.DoCall, PeersOk, LoopsOk, OwnFds, OwnersAlive;
    OnlyPeersKeepsOwners(s, Next(cfg, s, step));
  }

  lemma QueueKeepsOwners(cfg: C.Config, s: Server, step: Step)
    requires Inv(s) && OwnersAlive(s) && Enabled(s, step) && (step.CrossSend? || step.CrossShutdown? || step.QueueOwned?)
    ensures OwnersAlive(Next(cfg, s, step))
  {
    hide PeersOk, LoopsOk, OwnFds, OwnersAlive;
    var id := step.id;
    match step
    case CrossSend(_, data) => PushKeepsOwners(s, s.peers[id].loop, RawSend(id, data));
    case CrossShutdown(_) =>
      var t := SetConn(s, id, s.peers[id].conn.(state := C.Disconnecting));
      OnlyPeersKeepsOwners(s, t);
      PushKeepsOwners(t, s.peers[id].loop, RawShutdown(id));
    case QueueOwned(_, _) => PushKeepsOwners(s, s.peers[id].loop, OwnedCall(id));
  }

  lemma ReclaimKeepsOwners(cfg: C.Config, s: Server, step: Step)
    requires Inv(s) && OwnersAlive(s) && Enabled(s, step) && step.Reclaim?
    ensures OwnersAlive(Next(cfg, s, step))
  {
    var r := Next(cfg, s, step);
    forall l, f | 0 <= l < |r.loops| && f in Held(r.loops[l].queue) && Owns(f, f.id)
      ensures f.id < |r.peers| && r.peers[f.id].alive
    {
      var k :| 0 <= k < |Held(s.loops[l].queue)| && Held(s.loops[l].queue)[k] == f;
      assert f.id == step.id ==> FunctorOwns(s, f.id);
    }
  }

  lemma NextKeepsOwners(cfg: C.Config, s: Server, step: Step)
    requires Inv(s) && OwnersAlive(s) && Enabled(s, step)
    ensures OwnersAlive(Next(cfg, s, step))
  {
    match step
    case Accept(_, _, _) => AcceptKeepsOwners(cfg, s, step);
    case Event(_, _, _, _) => EventKeepsOwners(cfg, s, step);
    case RunOne(_, _, _) => RunKeepsOwners(cfg, s, step);
    case Reclaim(_) => ReclaimKeepsOwners(cfg, s, step);
    case Poll(_, _, _) => QueueStepKeepsOwners(cfg, s, step);
    case StartBatch(_) => QueueStepKeepsOwners(cfg, s, step);
    case FinishBatch(_) => QueueStepKeepsOwners(cfg, s, step);
    case CrossSend(_, _) => QueueKeepsOwners(cfg, s, step);
    case CrossShutdown(_) => QueueKeepsOwners(cfg, s, step);
    case QueueOwned(_, _) => QueueKeepsOwners(cfg, s, step);
    case _ => AppKeepsOwners(cfg, s, step);
  }

  lemma {:induction false} RunKeeps(cfg: C.Config, s: Server, steps: seq<Step>)
    requires Inv(s) && OwnersAlive(s) && LegalRun(cfg, s, steps)
    ensures Inv(Run(cfg, s, steps)) && OwnersAlive(Run(cfg, s, steps))
    decreases |steps|
  {
    if steps != [] {
      NextKeepsInv(cfg, s, steps[0]);
      NextKeepsOwners(cfg, s, steps[0]);
      RunKeeps(cfg, Next(cfg, s, steps[0]), steps[1..]);
    }
  }

  lemma StartsWell(loops: nat)
    requires 1 <= loops
    ensures Inv(Initial(loops)) && OwnersAlive(Initial(loops))
  {
  }

  lemma FunctorOwnerAlive(s: Server, l: nat, f: Functor)
    requires OwnersAlive(s) && l < |s.loops| && f in Unrun(s, l) && Owns(f, f.id)
    ensures f.id < |s.peers| && s.peers[f.id].alive
  {
    var q := s.loops[l].queue;
    assert Held(q) == q.done + q.Unrun() && f in Held(q);
  }

  lemma UseIsOwned(s: Server, id: nat)
    requires Inv(s) && OwnersAlive(s) && id < |s.peers| && InUse(s, id)
    ensures HasOwner(s, id) && s.peers[id].alive
  {
    hide PeersOk, OwnFds, OwnersAlive;
    var t := TrackOf(s, id);
    ActiveInEpoll(s, id);
    if InEpoll(s, id) || t.p.conn.reg.listed {
      WorkIsOwned(s, id);
    } else {
      var l, f :| 0 <= l < |s.loops| && f in Unrun(s, l) && f.id == id;
      assert LoopOk(s, l) && Placed(s, l, f);
      if Owns(f, id) {
        UnrunOwns(s, l, f);
        FunctorOwnerAlive(s, l, f);
      } else {
        PartsMembers(Unrun(s, l), id);
        assert f in t.io;
        WorkIsOwned(s, id);
      }
    }
  }

  /** Two-loop ownership. In every state of every run, a connection that epoll, a
      poller's map, an active list or a waiting functor can still reach is alive and has
      an owner; so none is destroyed before its channel is out of epoll and of the
      poller, and a descriptor handed out again never meets an old entry. */
  lemma Ownership(cfg: C.Config, loops: nat, steps: seq<Step>)
    requires 1 <= loops && LegalRun(cfg, Initial(loops), steps)
    ensures var s := Run(cfg, Initial(loops), steps);
            && (forall id :: 0 <= id < |s.peers| && InUse(s, id) ==> s.peers[id].alive && HasOwner(s, id))
            && (forall i, j :: 0 <= i < j < |s.peers| && InUse(s, i) && InUse(s, j) ==> s.peers[i].fd != s.peers[j].fd)
  {
    StartsWell(loops);
    RunKeeps(cfg, Initial(loops), steps);
    var s := Run(cfg, Initial(loops), steps);
    forall id | 0 <= id < |s.peers| && InUse(s, id) ensures s.peers[id].alive && HasOwner(s, id) {
      UseIsOwned(s, id);
    }
  }

  /** A connection is reclaimed only after connectDestroyed has run for it, with its
      channel out of epoll and of the poller's map, and no functor left that names it. */
  lemma ReclaimIsSafe(cfg: C.Config, loops: nat, steps: seq<Step>, id: nat)
    requires 1 <= loops && LegalRun(cfg, Initial(loops), steps)
    requires var s := Run(cfg, Initial(loops), steps);
             id < |s.peers| && (Enabled(s, Reclaim(id)) || !s.peers[id].alive)
    ensures var s := Run(cfg, Initial(loops), steps);
            !InUse(s, id) && 1 <= s.peers[id].destroys && s.peers[id].conn.state == C.Disconnected
  {
    StartsWell(loops);
    RunKeeps(cfg, Initial(loops), steps);
    var s := Run(cfg, Initial(loops), steps);
    if InUse(s, id) { UseIsOwned(s, id); }
    if s.peers[id].alive { ReclaimStep(cfg, s, Reclaim(id)); }
    assert PeerOk(TrackOf(s, id), id, 0);
  }

  // ------------------------------------------------- functors bound to `this`

  lemma {:induction false} IoConcat(a: seq<Functor>, b: seq<Functor>, id: nat)
    ensures Io(a + b, id) == Io(a, id) + Io(b, id)
  {
    if b == [] {
      assert a + b == a;
    } else {
      assert (a + b)[..|a + b| - 1] == a + b[..|b| - 1];
      IoConcat(a, b[..|b| - 1], id);
    }
  }

  lemma IoAround(q: seq<Functor>, i: nat, id: nat)
    requires i < |q| && Mine(q[i], id)
    ensures Io(q, id) == Io(q[..i], id) + [q[i]] + Io(q[i + 1..], id)
  {
    PartsPush(q[..i], q[i], id);
    assert q == (q[..i] + [q[i]]) + q[i + 1..];
    IoConcat(q[..i] + [q[i]], q[i + 1..], id);
  }

  lemma OnlyDestroysAfter(before: seq<Functor>, after: seq<Functor>, id: nat, k: nat)
    requires RawsThenDestroys(before + [Destroy(id)] + after, id) && k < |after|
    ensures after[k] == Destroy(id)
  {
    var io := before + [Destroy(id)] + after;
    LeadingRawsBounds(io);
    assert io[|before|] == Destroy(id) && io[|before| + 1 + k] == after[k];
  }

  lemma DestroyEndsRaws(q: seq<Functor>, id: nat, i: nat, j: nat)
    requires RawsThenDestroys(Io(q, id), id) && i < j < |q| && q[i] == Destroy(id)
    ensures !(q[j].id == id && Raw(q[j]))
  {
    hide Io, RawsThenDestroys;
    if q[j].id == id && Raw(q[j]) {
      var after := Io(q[i + 1..], id);
      IoAround(q, i, id);
      PartsMembers(q[i + 1..], id);
      assert q[i + 1..][j - i - 1] == q[j] && q[j] in q[i + 1..];
      var k :| 0 <= k < |after| && after[k] == q[j];
      OnlyDestroysAfter(Io(q[..i], id), after, id, k);
    }
  }

  lemma RawWaits(s: Server, l: nat, j: nat)
    requires Inv(s) && l < |s.loops| && j < |Unrun(s, l)| && Raw(Unrun(s, l)[j])
    ensures var f := Unrun(s, l)[j];
            && f.id < |s.peers| && s.peers[f.id].loop == l && s.peers[f.id].destroys == 0
            && forall i :: 0 <= i < j ==> Unrun(s, l)[i] != Destroy(f.id)
  {
    var f := Unrun(s, l)[j];
    assert LoopOk(s, l) && f in Unrun(s, l) && Placed(s, l, f);
    var t := TrackOf(s, f.id);
    assert PeerOk(t, f.id, 0);
    PartsMembers(Unrun(s, l), f.id);
    LeadingRawsBounds(t.io);
    assert f in t.io;
    forall i | 0 <= i < j ensures Unrun(s, l)[i] != Destroy(f.id) {
      if Unrun(s, l)[i] == Destroy(f.id) {
        assert Destroy(f.id) in Unrun(s, l) && Destroy(f.id) in t.io;
        DestroyEndsRaws(Unrun(s, l), f.id, i, j);
      }
    }
  }

  /** A sendInLoop or shutdownInLoop queued with a raw `this` is in its connection's own
      loop and runs before any connectDestroyed of that connection, which then is alive. */
  lemma RawsRunFirst(cfg: C.Config, loops: nat, steps: seq<Step>, l: nat, j: nat)
    requires 1 <= loops && LegalRun(cfg, Initial(loops), steps) && l < loops
    requires var s := Run(cfg, Initial(loops), steps); j < |Unrun(s, l)| && Raw(Unrun(s, l)[j])
    ensures var s := Run(cfg, Initial(loops), steps);
            var f := Unrun(s, l)[j];
            && f.id < |s.peers| && s.peers[f.id].loop == l && s.peers[f.id].alive && s.peers[f.id].destroys == 0
            && forall i :: 0 <= i < j ==> Unrun(s, l)[i] != Destroy(f.id)
  {
    StartsWell(loops);
    RunKeeps(cfg, Initial(loops), steps);
    var s := Run(cfg, Initial(loops), steps);
    RawWaits(s, l, j);
    var f := Unrun(s, l)[j];
    assert f in Unrun(s, l);
    UseIsOwned(s, f.id);
  }

  // ------------------------------------------------------- run protocol

  /** How one step may move one connection: not at all or by a handler that does not
      close, by its establishment, by its destruction, or by one dispatch. */
  predicate Moves(cfg: C.Config, step: Step, mask: P.Mask, c: C.Conn, d: C.Conn)
  {
    || Steady(c, d)
    || (c.state == C.Connecting && Up(d) && d.closes == c.closes)
    || (c.state == C.Disconnected == d.state && d.reg.kernel.None? && d.closes == c.closes)
    || (step.Event? && c.reg.kernel.Some? && Dispatched(c, d)
        && d == C.Dispatch(cfg, c, mask, step.r, step.calls, step.w))
  }

  lemma {:induction false} RemoveTimesKeepsConns(s: Server, id: nat, n: nat)
    requires WellFormed(s) && id < |s.peers|
    ensures var r := RemoveTimes(s, id, n);
            |r.peers| == |s.peers| && forall i :: 0 <= i < |s.peers| ==> r.peers[i].conn == s.peers[i].conn
  {
    if n > 0 { RemoveTimesKeepsConns(s, id, n - 1); }
  }

  lemma EventMoves(cfg: C.Config, s: Server, step: Step, id: nat)
    requires Inv(s) && step.Event? && Enabled(s, step) && id < |s.peers|
    ensures var d := HandleEvent(cfg, s, step.l, step.r, step.calls, step.w).peers[id].conn;
            && Moves(cfg, step, Reported(s, step), s.peers[id].conn, d)
            && (id == s.loops[step.l].phase.active[0] ==>
                  d == C.Dispatch(cfg, s.peers[id].conn, Reported(s, step), step.r, step.calls, step.w))
  {
    hide C.Dispatch, C.Interested, C.Streamed;
    var active := s.loops[step.l].phase.active;
    var x := active[0];
    ActiveTaken(s, step.l);
    RegisteredIsAlive(s, x);
    ConnIsSound(s, x);
    var c := s.peers[x].conn;
    var d := C.Dispatch(cfg, c, Reported(s, step), step.r, step.calls, step.w);
    DispatchEffect(cfg, c, Reported(s, step), step.r, step.calls, step.w);
    var t := SetConn(SetPhase(s, step.l, s.loops[step.l].phase.Rest()), x, d);
    RemoveTimesKeepsConns(t, x, d.closes - c.closes);
    assert t.peers[id].conn == if id == x then d else s.peers[id].conn;
    assert HandleEvent(cfg, s, step.l, step.r, step.calls, step.w) == RemoveTimes(t, x, d.closes - c.closes);
  }

  lemma RunPeer(cfg: C.Config, s: Server, step: Step, id: nat)
    requires Inv(s) && step.RunOne? && Enabled(s, step) && id < |s.peers|
    ensures var f := s.loops[step.l].queue.todo[0];
            var r := RunFunctor(cfg, s, step.l, step.calls, step.w);
            r.peers[id].conn == if Mine(f, id) then Ran(cfg, s.peers[id], f, step).conn else s.peers[id].conn
  {
    hide C.ConnectEstablished, C.ConnectDestroyed, C.SendInLoop, C.ShutdownInLoop, PeersOk, LoopsOk, OwnFds;
  }

  lemma RunMoves(cfg: C.Config, s: Server, step: Step, id: nat)
    requires Inv(s) && step.RunOne? && Enabled(s, step) && id < |s.peers|
    ensures Moves(cfg, step, Reported(s, step), s.peers[id].conn, RunFunctor(cfg, s, step.l, step.calls, step.w).peers[id].conn)
  {
    hide RunFunctor, Ran;
    var f := s.loops[step.l].queue.todo[0];
    RunPeer(cfg, s, step, id);
    if Mine(f, id) {
      AdvanceKeepsOthers(s, step.l);
      assert PeersOk(s, 0, 0) && PeerOk(TrackOf(s, id), id, 0);
      RanMoves(cfg, TrackOf(s, id), id, f, TrackOf(Advanced(s, step.l), id).io, step);
    }
  }

  lemma RanMoves(cfg: C.Config, t: Track, id: nat, f: Functor, rest: seq<Functor>, step: Step)
    requires PeerOk(t, id, 0) && t.io == [f] + rest && Mine(f, id) && step.RunOne?
    ensures Moves(cfg, step, {}, t.p.conn, Ran(cfg, t.p, f, step).conn)
  {
    var c := t.p.conn;
    TrackHead(t, id, f, rest);
    match f
    case Establish(_) =>
      CallsSteady(cfg, C.Channeled(c.(state := C.Connected), P.EnableReading).(ups := c.ups + 1), step.calls);
    case Destroy(_) => P.RemovalThroughReentry(c.reg);
    case RawSend(_, data) => SendSteady(cfg, c, data, step.w);
    case RawShutdown(_) =>
  }

  lemma StepMoves(cfg: C.Config, s: Server, step: Step, id: nat)
    requires Inv(s) && Enabled(s, step) && id < |s.peers|
    ensures Moves(cfg, step, Reported(s, step), s.peers[id].conn, Next(cfg, s, step).peers[id].conn)
  {
    hide C.DoCall, C.Dispatch, C.Interested, HandleEvent, RunFunctor, PeersOk, LoopsOk;
    match step
    case Event(_, _, _, _) => EventMoves(cfg, s, step, id);
    case RunOne(_, _, _) => RunMoves(cfg, s, step, id);
    case App(x, call) => CallSteady(cfg, s.peers[x].conn, call);
    case _ =>
  }

  /** State only moves forward through connecting, connected, disconnecting and
      disconnected, and closes are never taken back, over any stretch of a run. */
  lemma {:induction false} OnlyForward(cfg: C.Config, s: Server, steps: seq<Step>, id: nat)
    requires Inv(s) && LegalRun(cfg, s, steps) && id < |s.peers|
    ensures var c, d := s.peers[id].conn, Run(cfg, s, steps).peers[id].conn;
            Rank(c.state) <= Rank(d.state) && c.closes <= d.closes
    decreases |steps|
  {
    if steps != [] {
      NextKeepsInv(cfg, s, steps[0]);
      StepMoves(cfg, s, steps[0], id);
      OnlyForward(cfg, Next(cfg, s, steps[0]), steps[1..], id);
    }
  }

  /** The life of every connection. It is announced up once, before epoll can report an
      event; down once for every close, which happens exactly when it is disconnected; and
      when connectDestroyed has run it is down and gone from epoll and from the poller. */
  lemma LifeCycle(cfg: C.Config, loops: nat, steps: seq<Step>, id: nat)
    requires 1 <= loops && LegalRun(cfg, Initial(loops), steps)
    requires id < |Run(cfg, Initial(loops), steps).peers|
    ensures var p := Run(cfg, Initial(loops), steps).peers[id];
            && p.conn.ups == (if p.conn.state == C.Connecting then 0 else 1)
            && (InEpoll(Run(cfg, Initial(loops), steps), id) ==> p.conn.ups == 1)
            && p.conn.downs == p.conn.closes && (1 <= p.conn.closes <==> p.conn.state == C.Disconnected)
            && (1 <= p.destroys ==> p.conn.state == C.Disconnected && p.conn.reg.kernel.None? && !p.conn.reg.listed)
            && p.destroys <= p.erases <= p.conn.closes
            && !p.conn.reg.fatal && p.conn.wire + p.conn.output == C.Accepted(p.conn.sends)
  {
    StartsWell(loops);
    RunKeeps(cfg, Initial(loops), steps);
    var s := Run(cfg, Initial(loops), steps);
    assert PeerOk(TrackOf(s, id), id, 0);
  }

  /** While it is connected or disconnecting the kernel watches for writability exactly
      when output waits: the protocol always reaches the handlers in a legal order. */
  lemma InterestInServer(cfg: C.Config, loops: nat, steps: seq<Step>, id: nat)
    requires 1 <= loops && LegalRun(cfg, Initial(loops), steps)
    requires id < |Run(cfg, Initial(loops), steps).peers| && Up(Run(cfg, Initial(loops), steps).peers[id].conn)
    ensures var c := Run(cfg, Initial(loops), steps).peers[id].conn;
            && c.reg.kernel.Some? && P.In in c.reg.kernel.value && P.Pri in c.reg.kernel.value
            && (P.Out in c.reg.kernel.value <==> c.output != [])
  {
    StartsWell(loops);
    RunKeeps(cfg, Initial(loops), steps);
    assert PeerOk(TrackOf(Run(cfg, Initial(loops), steps), id), id, 0);
  }

  /** The map holds exactly the connections created and not yet processed by
      removeConnectionInLoop. */
  lemma MapExactly(cfg: C.Config, loops: nat, steps: seq<Step>, id: nat)
    requires 1 <= loops && LegalRun(cfg, Initial(loops), steps)
    ensures var s := Run(cfg, Initial(loops), steps);
            id in s.serving <==> id < |s.peers| && s.peers[id].erases == 0
  {
    StartsWell(loops);
    RunKeeps(cfg, Initial(loops), steps);
    var s := Run(cfg, Initial(loops), steps);
    if id < |s.peers| { assert PeerOk(TrackOf(s, id), id, 0); }
  }

  // --------------------------------------------------------- closing once

  /** A mask and a read under which handleClose runs twice. */
  predicate ClosesTwice(mask: P.Mask, r: B.ReadResult) {
    C.HangsUp(mask) && (P.Pri in mask || P.RdHup in mask) && r == B.Got([])
  }

  /** The dispatch of such a mask. */
  predicate DoubleHangup(s: Server, step: Step) { step.Event? && ClosesTwice(Reported(s, step), step.r) }

  /** No step of the run is one. */
  predicate NoDoubleHangup(cfg: C.Config, s: Server, steps: seq<Step>)
    requires WellFormed(s) && LegalRun(cfg, s, steps)
    decreases |steps|
  {
    steps == [] || (!DoubleHangup(s, steps[0]) && NoDoubleHangup(cfg, Next(cfg, s, steps[0]), steps[1..]))
  }

  predicate ClosedOnce(s: Server) {
    forall id :: 0 <= id < |s.peers| ==>
      s.peers[id].conn.closes <= 1 && (s.peers[id].conn.closes == 1 ==> s.peers[id].conn.reg.kernel.None?)
  }

  lemma SingleCloseUnregisters(cfg: C.Config, c: C.Conn, mask: P.Mask, step: Step)
    requires step.Event? && C.Interested(c) && Up(c) && C.Live(c) && c.reg.kernel.Some?
    requires C.Dispatch(cfg, c, mask, step.r, step.calls, step.w).closes == c.closes + 1
    ensures C.Dispatch(cfg, c, mask, step.r, step.calls, step.w).reg.kernel.None?
  {
    var d := if C.HangsUp(mask) then C.HandleClose(c) else c;
    CloseEffect(c);
    ReadEffect(cfg, d, step.r, step.calls);
    C.ReadKeepsInterest(cfg, d, step.r, step.calls);
    var e := if C.Reads(mask) then C.HandleRead(cfg, d, step.r, step.calls) else d;
    WriteSteady(cfg, e, step.w);
    assert C.HandleClose(c).reg.kernel.None?;
  }

  lemma NewIsNotClosed(cfg: C.Config, s: Server, step: Step)
    requires Inv(s) && step.Accept? && Enabled(s, step)
    ensures Next(cfg, s, step).peers[|s.peers|].conn.closes == 0
  {
    CallsSteady(cfg, C.BroughtUp(C.NEW_CONN), step.calls);
  }

  lemma NextClosesOnce(cfg: C.Config, s: Server, step: Step)
    requires Inv(s) && Enabled(s, step) && ClosedOnce(s) && !DoubleHangup(s, step)
    ensures ClosedOnce(Next(cfg, s, step))
  {
    var r := Next(cfg, s, step);
    if step.Accept? { NewIsNotClosed(cfg, s, step); }
    forall id | 0 <= id < |r.peers|
      ensures r.peers[id].conn.closes <= 1 && (r.peers[id].conn.closes == 1 ==> r.peers[id].conn.reg.kernel.None?)
    {
      if id < |s.peers| { ConnClosesOnce(cfg, s, step, id); }
    }
  }

  lemma ConnClosesOnce(cfg: C.Config, s: Server, step: Step, id: nat)
    requires Inv(s) && Enabled(s, step) && ClosedOnce(s) && !DoubleHangup(s, step) && id < |s.peers|
    ensures var d := Next(cfg, s, step).peers[id].conn;
            d.closes <= 1 && (d.closes == 1 ==> d.reg.kernel.None?)
  {
    hide Next, C.Dispatch;
    var c, mask := s.peers[id].conn, Reported(s, step);
    StepMoves(cfg, s, step, id);
    assert PeerOk(TrackOf(s, id), id, 0);
    if step.Event? && c.reg.kernel.Some? {
      C.DoubleCloseExactly(cfg, c, mask, step.r, step.calls, step.w);
      if C.Dispatch(cfg, c, mask, step.r, step.calls, step.w).closes == c.closes + 1 {
        SingleCloseUnregisters(cfg, c, mask, step);
      }
    }
  }

  lemma {:induction false} RunClosesOnce(cfg: C.Config, s: Server, steps: seq<Step>)
    requires Inv(s) && ClosedOnce(s) && LegalRun(cfg, s, steps) && NoDoubleHangup(cfg, s, steps)
    ensures ClosedOnce(Run(cfg, s, steps))
    decreases |steps|
  {
    if steps != [] {
      NextKeepsInv(cfg, s, steps[0]);
      NextClosesOnce(cfg, s, steps[0]);
      RunClosesOnce(cfg, Next(cfg, s, steps[0]), steps[1..]);
    }
  }

  ghost predicate SomeClosedTwice(s: Server) { exists id :: 0 <= id < |s.peers| && 2 <= s.peers[id].conn.closes }

  lemma HangupClosesTwice(cfg: C.Config, s: Server, step: Step)
    requires Inv(s) && Enabled(s, step) && DoubleHangup(s, step)
    ensures var id := s.loops[step.l].phase.active[0];
            id < |s.peers| && 2 <= Next(cfg, s, step).peers[id].conn.closes
  {
    var id := s.loops[step.l].phase.active[0];
    EventMoves(cfg, s, step, id);
    ActiveTaken(s, step.l);
    C.DoubleCloseExactly(cfg, s.peers[id].conn, Reported(s, step), step.r, step.calls, step.w);
  }

  lemma {:induction false} DoubleHangupClosesTwice(cfg: C.Config, s: Server, steps: seq<Step>)
    requires Inv(s) && LegalRun(cfg, s, steps) && !NoDoubleHangup(cfg, s, steps)
    ensures SomeClosedTwice(Run(cfg, s, steps))
    decreases |steps|
  {
    hide Next;
    var n := Next(cfg, s, steps[0]);
    NextKeepsInv(cfg, s, steps[0]);
    assert Run(cfg, s, steps) == Run(cfg, n, steps[1..]);
    if DoubleHangup(s, steps[0]) {
      var id := s.loops[steps[0].l].phase.active[0];
      HangupClosesTwice(cfg, s, steps[0]);
      OnlyForward(cfg, n, steps[1..], id);
    } else {
      DoubleHangupClosesTwice(cfg, n, steps[1..]);
    }
  }

  /** handleClose, and with it the down callback, runs at most once for every connection
      exactly when the kernel never reports a hang-up without EPOLLIN together with
      EPOLLPRI or EPOLLRDHUP on a stream at its end. */
  lemma ClosedOnceExactly(cfg: C.Config, loops: nat, steps: seq<Step>)
    requires 1 <= loops && LegalRun(cfg, Initial(loops), steps)
    ensures (forall id :: 0 <= id < |Run(cfg, Initial(loops), steps).peers| ==>
               Run(cfg, Initial(loops), steps).peers[id].conn.downs <= 1)
            <==> NoDoubleHangup(cfg, Initial(loops), steps)
  {
    StartsWell(loops);
    RunKeeps(cfg, Initial(loops), steps);
    var s := Run(cfg, Initial(loops), steps);
    forall id | 0 <= id < |s.peers| ensures s.peers[id].conn.downs == s.peers[id].conn.closes {
      assert PeerOk(TrackOf(s, id), id, 0);
    }
    if NoDoubleHangup(cfg, Initial(loops), steps) {
      RunClosesOnce(cfg, Initial(loops), steps);
    } else {
      DoubleHangupClosesTwice(cfg, Initial(loops), steps);
      var id :| 0 <= id < |s.peers| && 2 <= s.peers[id].conn.closes;
      assert s.peers[id].conn.downs == s.peers[id].conn.closes;
    }
  }

  // A poll that reports a hang-up and EPOLLPRI, and the end of the stream when it is handled.
  function HangupPoll(l: nat, id: nat): Step { Poll(l, [id], map[id := {P.Hup, P.Pri}]) }
  function AtEnd(l: nat): Step { Event(l, B.Got([]), [], B.Room(0)) }

  /** The kernel may report a hang-up on any open connection, asked for or not; so from every
      reachable state in which its loop polls it may be closed twice. */
  lemma OpenMayCloseTwice(cfg: C.Config, loops: nat, steps: seq<Step>, id: nat)
    requires 1 <= loops && LegalRun(cfg, Initial(loops), steps)
    requires var s := Run(cfg, Initial(loops), steps);
             id < |s.peers| && Up(s.peers[id].conn) && s.loops[s.peers[id].loop].phase == Polling
    ensures var s := Run(cfg, Initial(loops), steps);
            var l := s.peers[id].loop;
            && Enabled(s, HangupPoll(l, id)) && var r := Next(cfg, s, HangupPoll(l, id));
            && Enabled(r, AtEnd(l)) && 2 <= Next(cfg, r, AtEnd(l)).peers[id].conn.closes
  {
    StartsWell(loops);
    RunKeeps(cfg, Initial(loops), steps);
    InterestInServer(cfg, loops, steps, id);
    hide Next, Enabled;
    HangupTwice(cfg, Run(cfg, Initial(loops), steps), id);
  }

  lemma HangupTwice(cfg: C.Config, s: Server, id: nat)
    requires Inv(s) && id < |s.peers| && s.loops[s.peers[id].loop].phase == Polling && s.peers[id].conn.reg.kernel.Some?
    requires P.In in s.peers[id].conn.reg.kernel.value && P.Pri in s.peers[id].conn.reg.kernel.value
    ensures var l := s.peers[id].loop;
            && Enabled(s, HangupPoll(l, id)) && var r := Next(cfg, s, HangupPoll(l, id));
            && Enabled(r, AtEnd(l)) && 2 <= Next(cfg, r, AtEnd(l)).peers[id].conn.closes
  {
    hide PeersOk, LoopsOk, OwnFds, C.Dispatch;
    var l := s.peers[id].loop;
    NextKeepsInv(cfg, s, HangupPoll(l, id));
    HangupClosesTwice(cfg, Next(cfg, s, HangupPoll(l, id)), AtEnd(l));
  }
}
