/**
  What the server does to one connection is a run of ConnectionModel, so its streams hold in
  the server; and sends of other threads (src/net/Connection.cc:42-55) reach it in order,
  with their bytes.
 */
module ServerStreams {
  import opened ServerModel
  import opened ServerSafety
  import opened ServerTheorems
  import opened ServerShutdown
  import B = ByteBuffer
  import C = ConnectionModel

  // ------------------------------------------------ one connection's steps

  function RunSteps(f: Functor, id: nat, calls: seq<C.AppCall>, w: B.WriteResult): seq<C.Step> {
    if f.id != id then []
    else match f
      case Establish(_) => [C.Establish(calls)]
      case Destroy(_) => [C.Destroy]
      case RawSend(_, data) => [C.RemoteSend(data, w)]
      case RawShutdown(_) => [C.RemoteShutdownRuns]
      case _ => []
  }

  /** What a step of the server is for connection `id`. */
  function ConnSteps(s: Server, step: Step, id: nat): seq<C.Step>
    requires WellFormed(s) && Enabled(s, step)
  {
    match step
    case Accept(l, _, calls) => if id == |s.peers| && l == MAIN then [C.Establish(calls)] else []
    case Event(l, r, calls, w) =>
      if s.loops[l].phase.active[0] == id then [C.Event(s.loops[l].phase.Head(), r, calls, w)] else []
    case RunOne(l, calls, w) => RunSteps(s.loops[l].queue.todo[0], id, calls, w)
    case App(x, call) => if x == id then [C.App(call)] else []
    case CrossShutdown(x) => if x == id then [C.RemoteShutdown] else []
    case _ => []
  }

  function ConnRun(cfg: C.Config, s: Server, steps: seq<Step>, id: nat): seq<C.Step>
    requires WellFormed(s) && LegalRun(cfg, s, steps)
    decreases |steps|
  {
    if steps == [] then []
    else ConnSteps(s, steps[0], id) + ConnRun(cfg, Next(cfg, s, steps[0]), steps[1..], id)
  }

  // A connection not yet made counts as new.
  function ConnOf(s: Server, id: nat): C.Conn { if id < |s.peers| then s.peers[id].conn else C.NEW_CONN }

  predicate Follows(cfg: C.Config, c: C.Conn, steps: seq<C.Step>, d: C.Conn) {
    C.LegalRun(cfg, c, steps) && d == C.Run(cfg, c, steps)
  }

  lemma NoStep(cfg: C.Config, c: C.Conn)
    ensures Follows(cfg, c, [], c)
  {
  }

  lemma OneStep(cfg: C.Config, c: C.Conn, step: C.Step)
    requires C.Legal(c, step)
    ensures Follows(cfg, c, [step], C.Next(cfg, c, step))
  {
    C.RunSnoc(cfg, c, [], step);
    assert [] + [step] == [step];
  }

  lemma {:induction false} FollowsOn(cfg: C.Config, c: C.Conn, a: seq<C.Step>, d: C.Conn, b: seq<C.Step>, e: C.Conn)
    requires Follows(cfg, c, a, d) && Follows(cfg, d, b, e)
    ensures Follows(cfg, c, a + b, e)
    decreases |b|
  {
    if b == [] {
      assert a + b == a;
    } else {
      hide C.Run, C.LegalRun, C.Next;
      var before, last := b[..|b| - 1], b[|b| - 1];
      assert b == before + [last];
      C.RunSnoc(cfg, d, before, last);
      FollowsOn(cfg, c, a, d, before, C.Run(cfg, d, before));
      C.RunSnoc(cfg, c, a + before, last);
      assert a + b == a + before + [last];
    }
  }

  // ------------------------------------------------------------ one step

  lemma FunctorFollows(cfg: C.Config, s: Server, step: Step, id: nat)
    requires Inv(s) && step.RunOne? && Enabled(s, step) && id < |s.peers|
    ensures Follows(cfg, s.peers[id].conn, ConnSteps(s, step, id), ConnOf(Next(cfg, s, step), id))
  {
    var c, f := s.peers[id].conn, s.loops[step.l].queue.todo[0];
    assert WellFormed(s);
    hide C.Next, C.LegalRun, C.Run, Inv, Next, Enabled, WaitOf, Follows;
    RunWait(cfg, s, step, id);
    ConnOfWait(s, id);
    ConnOfWait(Next(cfg, s, step), id);
    if Mine(f, id) {
      InvIsSane(s, id);
      HeadFits(WaitOf(s, id), id);
      FunctorIsStep(cfg, c, f, id, step.calls, step.w);
    } else {
      NoStep(cfg, c);
    }
  }

  lemma FunctorIsStep(cfg: C.Config, c: C.Conn, f: Functor, id: nat, calls: seq<C.AppCall>, w: B.WriteResult)
    requires Mine(f, id) && (c.state == C.Connecting <==> f == Establish(id))
    ensures Follows(cfg, c, RunSteps(f, id, calls, w), RanConn(cfg, c, f, calls, w))
  {
    hide C.ConnectEstablished, C.ConnectDestroyed, C.SendInLoop, C.ShutdownInLoop, Follows;
    match f
    case Establish(_) => OneStep(cfg, c, C.Establish(calls));
    case Destroy(_) => OneStep(cfg, c, C.Destroy);
    case RawSend(_, data) => OneStep(cfg, c, C.RemoteSend(data, w));
    case RawShutdown(_) => OneStep(cfg, c, C.RemoteShutdownRuns);
  }

  lemma EventFollows(cfg: C.Config, s: Server, step: Step, id: nat)
    requires Inv(s) && step.Event? && Enabled(s, step) && id < |s.peers|
    ensures Follows(cfg, s.peers[id].conn, ConnSteps(s, step, id), ConnOf(Next(cfg, s, step), id))
  {
    hide C.Dispatch, Follows, Next, PeersOk, LoopsOk, OwnFds, WaitOf;
    var c, phase := s.peers[id].conn, s.loops[step.l].phase;
    EventWait(cfg, s, step, id);
    TakenWait(s, step.l, id);
    ConnOfWait(s, id);
    ConnOfWait(Next(cfg, s, step), id);
    if phase.active[0] == id {
      RegisteredIsAlive(s, id);
      OneStep(cfg, c, C.Event(phase.Head(), step.r, step.calls, step.w));
    } else {
      NoStep(cfg, c);
    }
  }

  lemma CallFollows(cfg: C.Config, s: Server, step: Step, id: nat)
    requires Inv(s) && Enabled(s, step) && id < |s.peers|
    requires step.App? || step.CrossSend? || step.CrossShutdown? || step.QueueOwned?
    ensures Follows(cfg, s.peers[id].conn, ConnSteps(s, step, id), ConnOf(Next(cfg, s, step), id))
  {
    hide C.DoCall, Follows, PeersOk, LoopsOk, OwnFds;
    var c := s.peers[id].conn;
    NoStep(cfg, c);
    if step.App? && step.id == id { OneStep(cfg, c, C.App(step.call)); }
    if step.CrossShutdown? && step.id == id { OneStep(cfg, c, C.RemoteShutdown); }
  }

  lemma AcceptFollows(cfg: C.Config, s: Server, step: Step, id: nat)
    requires Inv(s) && Enabled(s, step) && step.Accept? && id < |Next(cfg, s, step).peers|
    ensures Follows(cfg, ConnOf(s, id), ConnSteps(s, step, id), ConnOf(Next(cfg, s, step), id))
  {
    hide C.ConnectEstablished, Follows, PeersOk, LoopsOk, OwnFds;
    NoStep(cfg, ConnOf(s, id));
    if id == |s.peers| { OneStep(cfg, C.NEW_CONN, C.Establish(step.calls)); }
  }

  lemma QuietFollows(cfg: C.Config, s: Server, step: Step, id: nat)
    requires Inv(s) && Enabled(s, step) && id < |s.peers|
    requires step.Poll? || step.StartBatch? || step.FinishBatch? || step.Retain? || step.Release? || step.Reclaim?
    ensures Follows(cfg, s.peers[id].conn, ConnSteps(s, step, id), ConnOf(Next(cfg, s, step), id))
  {
    hide Follows, PeersOk, LoopsOk, OwnFds;
    NoStep(cfg, s.peers[id].conn);
  }

  lemma StepFollows(cfg: C.Config, s: Server, step: Step, id: nat)
    requires Inv(s) && Enabled(s, step) && id < |Next(cfg, s, step).peers|
    ensures Follows(cfg, ConnOf(s, id), ConnSteps(s, step, id), ConnOf(Next(cfg, s, step), id))
  {
    assert step.Accept? || |Next(cfg, s, step).peers| == |s.peers|;
    hide Next, Inv, Enabled, Follows, ConnSteps;
    if step.Accept? {
      AcceptFollows(cfg, s, step, id);
    } else if step.Event? {
      EventFollows(cfg, s, step, id);
    } else if step.RunOne? {
      FunctorFollows(cfg, s, step, id);
    } else if step.App? || step.CrossSend? || step.CrossShutdown? || step.QueueOwned? {
      CallFollows(cfg, s, step, id);
    } else {
      QuietFollows(cfg, s, step, id);
    }
  }

  lemma {:induction false} RunFollows(cfg: C.Config, s: Server, steps: seq<Step>, id: nat)
    requires Inv(s) && LegalRun(cfg, s, steps) && id < |Run(cfg, s, steps).peers|
    ensures Follows(cfg, ConnOf(s, id), ConnRun(cfg, s, steps, id), Run(cfg, s, steps).peers[id].conn)
    decreases |steps|
  {
    if steps == [] {
      NoStep(cfg, s.peers[id].conn);
    } else {
      hide Next, Enabled, ConnSteps, Follows;
      var r := Next(cfg, s, steps[0]);
      NextKeepsInv(cfg, s, steps[0]);
      RunFollows(cfg, r, steps[1..], id);
      if id < |r.peers| {
        StepFollows(cfg, s, steps[0], id);
      } else {
        NotYet(cfg, s, steps[0], id);
      }
      FollowsOn(cfg, ConnOf(s, id), ConnSteps(s, steps[0], id), ConnOf(r, id), ConnRun(cfg, r, steps[1..], id),
                Run(cfg, s, steps).peers[id].conn);
    }
  }

  // Nothing happens to a connection before it is made.
  lemma NotYet(cfg: C.Config, s: Server, step: Step, id: nat)
    requires Inv(s) && Enabled(s, step) && |Next(cfg, s, step).peers| <= id
    ensures Follows(cfg, ConnOf(s, id), ConnSteps(s, step, id), ConnOf(Next(cfg, s, step), id)) && ConnSteps(s, step, id) == []
  {
    hide Follows, PeersOk, LoopsOk, OwnFds;
    NoStep(cfg, C.NEW_CONN);
    if step.Event? { TakenWait(s, step.l, s.loops[step.l].phase.active[0]); }
  }

  // --------------------------------------------- sends of other threads

  // The bytes of the queued sends, in order.
  function RawData(fs: seq<Functor>): seq<C.Bytes> {
    if fs == [] then []
    else
      var last := fs[|fs| - 1];
      RawData(fs[..|fs| - 1]) + if last.RawSend? then [last.data] else []
  }

  // The bytes of the sends that run as functors, in order.
  function RemoteData(steps: seq<C.Step>): seq<C.Bytes> {
    if steps == [] then []
    else
      var last := steps[|steps| - 1];
      RemoteData(steps[..|steps| - 1]) + if last.RemoteSend? then [last.data] else []
  }

  /** What a step hands to connection `id` from another thread: a send is taken only while
      connected. */
  function Handed(s: Server, step: Step, id: nat): seq<C.Bytes> {
    if step.CrossSend? && step.id == id && id < |s.peers| && s.peers[id].conn.state == C.Connected then [step.data] else []
  }

  function HandedInRun(cfg: C.Config, s: Server, steps: seq<Step>, id: nat): seq<C.Bytes>
    requires WellFormed(s) && LegalRun(cfg, s, steps)
    decreases |steps|
  {
    if steps == [] then [] else Handed(s, steps[0], id) + HandedInRun(cfg, Next(cfg, s, steps[0]), steps[1..], id)
  }

  // The bytes of the sends that wait for the loop of `id`.
  function Waiting(s: Server, id: nat): seq<C.Bytes>
    requires WellFormed(s)
  {
    if id < |s.peers| then RawData(WaitOf(s, id).All()) else []
  }

  lemma {:induction false} RawDataConcat(a: seq<Functor>, b: seq<Functor>)
    ensures RawData(a + b) == RawData(a) + RawData(b)
  {
    if b == [] {
      assert a + b == a;
    } else {
      assert (a + b)[..|a + b| - 1] == a + b[..|b| - 1];
      RawDataConcat(a, b[..|b| - 1]);
    }
  }

  lemma {:induction false} RemoteDataConcat(a: seq<C.Step>, b: seq<C.Step>)
    ensures RemoteData(a + b) == RemoteData(a) + RemoteData(b)
  {
    if b == [] {
      assert a + b == a;
    } else {
      assert (a + b)[..|a + b| - 1] == a + b[..|b| - 1];
      RemoteDataConcat(a, b[..|b| - 1]);
    }
  }

  lemma RawDataOne(f: Functor)
    ensures RawData([f]) == if f.RawSend? then [f.data] else []
  {
    assert [f][..0] == [];
  }

  lemma RemoteDataOne(step: C.Step)
    ensures RemoteData([step]) == if step.RemoteSend? then [step.data] else []
  {
    assert [step][..0] == [];
  }

  lemma {:induction false} DestroysSendNothing(p: seq<Functor>, q: seq<Functor>, id: nat)
    requires DestroysAdded(p, q, id)
    ensures RawData(q) == RawData(p)
    decreases |q|
  {
    if |q| > |p| {
      DestroysSendNothing(p, q[..|q| - 1], id);
    } else {
      assert p == q;
    }
  }

  lemma PushedData(w: Wait, v: Wait, f: Functor)
    requires v.todo == w.todo && v.pending == w.pending + [f]
    ensures RawData(v.All()) == RawData(w.All()) + if f.RawSend? then [f.data] else []
  {
    assert v.All() == w.All() + [f];
    RawDataConcat(w.All(), [f]);
    RawDataOne(f);
  }

  predicate Passes(s: Server, step: Step, id: nat, steps: seq<C.Step>, before: seq<C.Bytes>, after: seq<C.Bytes>) {
    before + Handed(s, step, id) == RemoteData(steps) + after
  }

  // A functor of the connection's own leaves the front of its waits.
  lemma FirstPasses(w: Wait, v: Wait, f: Functor, id: nat, calls: seq<C.AppCall>, wr: B.WriteResult)
    requires w.todo != [] && w.todo[0] == f && v.todo == w.todo[1..] && v.pending == w.pending && f.id == id
    ensures RawData(w.All()) == RemoteData(RunSteps(f, id, calls, wr)) + RawData(v.All())
  {
    assert w.All() == [f] + v.All();
    RawDataConcat([f], v.All());
    RawDataOne(f);
    if f.RawSend? { RemoteDataOne(C.RemoteSend(f.data, wr)); } else { NoRemote(RunSteps(f, id, calls, wr)); }
  }

  lemma RunPasses(cfg: C.Config, s: Server, step: Step, id: nat)
    requires Inv(s) && step.RunOne? && Enabled(s, step) && id < |s.peers|
    ensures Passes(s, step, id, ConnSteps(s, step, id), Waiting(s, id), Waiting(Next(cfg, s, step), id))
  {
    var w, v, f := WaitOf(s, id), WaitOf(Next(cfg, s, step), id), s.loops[step.l].queue.todo[0];
    hide WaitOf, Next, Inv, Enabled, RanConn, RawData;
    RunWait(cfg, s, step, id);
    assert RawData(w.All()) + [] == RawData(w.All()) && [] + RawData(v.All()) == RawData(v.All());
    if Mine(f, id) {
      FirstPasses(w, v, f, id, step.calls, step.w);
    } else {
      NoRemote(RunSteps(f, id, step.calls, step.w));
      if f == RemoveInLoop(id) { PushedData(w, v, Destroy(id)); } else { assert v == w; }
    }
  }

  lemma NoRemote(steps: seq<C.Step>)
    requires |steps| <= 1 && forall step :: step in steps ==> !step.RemoteSend?
    ensures RemoteData(steps) == []
  {
    if steps != [] { RemoteDataOne(steps[0]); assert steps == [steps[0]]; }
  }

  lemma EventPasses(cfg: C.Config, s: Server, step: Step, id: nat)
    requires Inv(s) && step.Event? && Enabled(s, step) && id < |s.peers|
    ensures Passes(s, step, id, ConnSteps(s, step, id), Waiting(s, id), Waiting(Next(cfg, s, step), id))
  {
    assert WellFormed(s);
    hide WaitOf, Next, Inv, C.Dispatch;
    EventWait(cfg, s, step, id);
    NoRemote(ConnSteps(s, step, id));
    var w, v := WaitOf(s, id), WaitOf(Next(cfg, s, step), id);
    if s.loops[step.l].phase.active[0] == id {
      DestroysSendNothing(w.pending, v.pending, id);
      assert w.All() == w.pending && v.All() == v.pending;
    }
  }

  lemma CallPasses(cfg: C.Config, s: Server, step: Step, id: nat)
    requires Inv(s) && Enabled(s, step) && id < |s.peers|
    requires step.App? || step.CrossSend? || step.CrossShutdown? || step.QueueOwned?
    ensures Passes(s, step, id, ConnSteps(s, step, id), Waiting(s, id), Waiting(Next(cfg, s, step), id))
  {
    hide C.DoCall, WaitOf, RawData, PeersOk, LoopsOk, OwnFds;
    NoRemote(ConnSteps(s, step, id));
    var x, c := step.id, s.peers[step.id].conn;
    var w, v := WaitOf(s, id), WaitOf(Next(cfg, s, step), id);
    assert w.pending + [] == w.pending;
    match step
    case App(_, call) => SetConnWait(s, x, C.DoCall(cfg, c, call), id);
    case CrossSend(_, data) =>
      PushWait(s, s.peers[x].loop, RawSend(x, data), id);
      if x == id && c.state == C.Connected { PushedData(w, v, RawSend(x, data)); }
    case CrossShutdown(_) =>
      SetConnWait(s, x, c.(state := C.Disconnecting), id);
      PushWait(SetConn(s, x, c.(state := C.Disconnecting)), s.peers[x].loop, RawShutdown(x), id);
      if x == id && c.state == C.Connected { PushedData(w, v, RawShutdown(x)); }
    case QueueOwned(_, _) => PushWait(s, s.peers[x].loop, OwnedCall(x), id);
  }

  lemma PhasePasses(cfg: C.Config, s: Server, step: Step, id: nat)
    requires Inv(s) && Enabled(s, step) && id < |s.peers|
    requires step.Poll? || step.StartBatch? || step.FinishBatch? || step.Retain? || step.Release? || step.Reclaim? || step.Accept?
    ensures Passes(s, step, id, ConnSteps(s, step, id), Waiting(s, id), Waiting(Next(cfg, s, step), id))
  {
    assert WellFormed(s);
    hide WaitOf, Next, Inv, RawData;
    if step.Accept? {
      AcceptWait(cfg, s, step, id);
    } else if step.Retain? || step.Release? || step.Reclaim? {
      HolderWait(cfg, s, step, id);
    } else {
      PhaseWait(cfg, s, step, id);
      assert WaitOf(Next(cfg, s, step), id).All() == WaitOf(s, id).All();
    }
  }

  // A new connection has nothing handed over and nothing waiting.
  lemma NewPasses(cfg: C.Config, s: Server, step: Step, id: nat)
    requires Inv(s) && Enabled(s, step) && |s.peers| <= id
    ensures Passes(s, step, id, ConnSteps(s, step, id), Waiting(s, id), Waiting(Next(cfg, s, step), id))
  {
    hide WaitOf, C.ConnectEstablished, PeersOk, LoopsOk, OwnFds;
    if id < |Next(cfg, s, step).peers| {
      NoRemote(ConnSteps(s, step, id));
      NewWaits(cfg, s, step);
    } else {
      NotYet(cfg, s, step, id);
    }
  }

  lemma NewWaits(cfg: C.Config, s: Server, step: Step)
    requires Inv(s) && step.Accept? && Enabled(s, step)
    ensures RawData(WaitOf(Next(cfg, s, step), |s.peers|).All()) == []
  {
    hide WaitOf, C.ConnectEstablished, PeersOk, LoopsOk, OwnFds;
    var id, m := |s.peers|, Made(s, step.l, step.fd);
    MadeWait(s, step.l, step.fd);
    assert RawData([]) == [] && WaitOf(m, id).All() == [];
    if step.l == MAIN {
      SetConnWait(m, id, C.ConnectEstablished(cfg, C.NEW_CONN, step.calls), id);
    } else {
      PushWait(m, step.l, Establish(id), id);
      PushedData(WaitOf(m, id), WaitOf(Next(cfg, s, step), id), Establish(id));
    }
  }

  lemma StepPasses(cfg: C.Config, s: Server, step: Step, id: nat)
    requires Inv(s) && Enabled(s, step)
    ensures Passes(s, step, id, ConnSteps(s, step, id), Waiting(s, id), Waiting(Next(cfg, s, step), id))
  {
    assert WellFormed(s);
    hide Next, Inv, Enabled, Passes, ConnSteps, Waiting;
    if |s.peers| <= id {
      NewPasses(cfg, s, step, id);
    } else if step.Event? {
      EventPasses(cfg, s, step, id);
    } else if step.RunOne? {
      RunPasses(cfg, s, step, id);
    } else if step.App? || step.CrossSend? || step.CrossShutdown? || step.QueueOwned? {
      CallPasses(cfg, s, step, id);
    } else {
      PhasePasses(cfg, s, step, id);
    }
  }

  lemma {:induction false} RunPassesAll(cfg: C.Config, s: Server, steps: seq<Step>, id: nat)
    requires Inv(s) && LegalRun(cfg, s, steps)
    ensures Waiting(s, id) + HandedInRun(cfg, s, steps, id)
            == RemoteData(ConnRun(cfg, s, steps, id)) + Waiting(Run(cfg, s, steps), id)
    decreases |steps|
  {
    if steps == [] {
    } else {
      hide Next, Enabled, ConnSteps, Waiting, Handed, RemoteData;
      var r := Next(cfg, s, steps[0]);
      NextKeepsInv(cfg, s, steps[0]);
      StepPasses(cfg, s, steps[0], id);
      RunPassesAll(cfg, r, steps[1..], id);
      RemoteDataConcat(ConnSteps(s, steps[0], id), ConnRun(cfg, r, steps[1..], id));
      Joins(Waiting(s, id), Handed(s, steps[0], id), HandedInRun(cfg, r, steps[1..], id), RemoteData(ConnSteps(s, steps[0], id)),
            Waiting(r, id), RemoteData(ConnRun(cfg, r, steps[1..], id)), Waiting(Run(cfg, s, steps), id));
    }
  }

  lemma Joins(w: seq<C.Bytes>, a: seq<C.Bytes>, b: seq<C.Bytes>, ran: seq<C.Bytes>, v: seq<C.Bytes>, more: seq<C.Bytes>, u: seq<C.Bytes>)
    requires w + a == ran + v && v + b == more + u
    ensures w + (a + b) == (ran + more) + u
  {
    assert w + (a + b) == (w + a) + b == ran + (v + b) == (ran + more) + u;
  }

  // ----------------------------------------------------------- the results

  /** In every run of the server each connection goes through a legal run of ConnectionModel,
      made of its establishment, its events, its user calls and its functors. */
  lemma ConnectionRefined(cfg: C.Config, loops: nat, steps: seq<Step>, id: nat)
    requires 1 <= loops && LegalRun(cfg, Initial(loops), steps)
    requires id < |Run(cfg, Initial(loops), steps).peers|
    ensures var run := ConnRun(cfg, Initial(loops), steps, id);
            C.LegalRun(cfg, C.NEW_CONN, run) && Run(cfg, Initial(loops), steps).peers[id].conn == C.Run(cfg, C.NEW_CONN, run)
  {
    StartsWell(loops);
    RunFollows(cfg, Initial(loops), steps, id);
  }

  /** What other threads send while the connection is connected has run on its loop or waits
      for it, whole, in the order of the calls, and nothing else does. */
  lemma HandedOverInOrder(cfg: C.Config, loops: nat, steps: seq<Step>, id: nat)
    requires 1 <= loops && LegalRun(cfg, Initial(loops), steps)
    requires id < |Run(cfg, Initial(loops), steps).peers|
    ensures HandedInRun(cfg, Initial(loops), steps, id)
         == RemoteData(ConnRun(cfg, Initial(loops), steps, id)) + RawData(WaitOf(Run(cfg, Initial(loops), steps), id).All())
  {
    hide Next, Enabled, WaitOf, ConnRun, HandedInRun, RawData, RemoteData, Inv;
    StartsWell(loops);
    RunPassesAll(cfg, Initial(loops), steps, id);
    assert Waiting(Initial(loops), id) == [];
  }

  /** The streams of a connection in the server: what is sent on its own thread or by its
      functors, and is taken over, is on the wire or unsent, in order; what was read is taken
      or in the input buffer. */
  lemma StreamsInServer(cfg: C.Config, loops: nat, steps: seq<Step>, id: nat)
    requires 1 <= loops && LegalRun(cfg, Initial(loops), steps)
    requires id < |Run(cfg, Initial(loops), steps).peers|
    ensures var c, run := Run(cfg, Initial(loops), steps).peers[id].conn, ConnRun(cfg, Initial(loops), steps, id);
            && C.DataOf(C.SentInRun(cfg, run)) == C.AskedInRun(run)
            && c.wire + c.output == C.Accepted(C.SentInRun(cfg, run))
            && C.TakenInRun(cfg, run) + c.input == C.ReceivedInRun(run)
  {
    hide Next, Enabled, ConnRun, C.Run, C.LegalRun, C.SentInRun, C.AskedInRun, C.Accepted, C.TakenInRun, C.ReceivedInRun;
    StartsWell(loops);
    ConnectionRefined(cfg, loops, steps, id);
    var run := ConnRun(cfg, Initial(loops), steps, id);
    C.OutputStream(cfg, run);
    C.InputStream(cfg, run);
  }
}
