/**
  How often SHUT_WR is issued when shutdown is called on another thread
  (src/net/Connection.cc:119-134): its queued half competes with the drain that finds the
  connection disconnecting (src/net/Connection.cc:187-201).
 */
module ServerShutdown {
  import opened FunctorQueue
  import opened ServerModel
  import opened ServerSafety
  import opened ServerTheorems
  import P = Poller
  import B = ByteBuffer
  import C = ConnectionModel

  // -------------------------------------------------- one connection's waits

  /** What events a connection can get before the next swap of its loop: any the next poll
      may report; those the last poll has stored; or none. */
  datatype Slot = Free | Due(mask: P.Mask) | Over {
    /** It may be drained before the swap: EPOLLOUT is or may be reported, and no hang-up
        that closes it first. */
    predicate MayDrain() { Free? || (Due? && P.Out in mask && !C.HangsUp(mask)) }
  }

  /** A connection as its own loop sees it: its functors in the rest of the batch and in
      the queue, and the events before the next swap. */
  datatype Wait = Wait(conn: C.Conn, todo: seq<Functor>, pending: seq<Functor>, slot: Slot) {
    function All(): seq<Functor> { todo + pending }
  }

  function SlotIn(phase: Phase, id: nat): Slot {
    if !phase.Dispatching? then Free
    else if id in phase.active && id in phase.revents then Due(phase.revents[id])
    else Over
  }

  function SlotOf(s: Server, id: nat): Slot
    requires WellFormed(s) && id < |s.peers|
  {
    SlotIn(s.loops[s.peers[id].loop].phase, id)
  }

  function WaitOf(s: Server, id: nat): Wait
    requires WellFormed(s) && id < |s.peers|
  {
    var q := s.loops[s.peers[id].loop].queue;
    Wait(s.peers[id].conn, Io(q.todo, id), Io(q.pending, id), SlotOf(s, id))
  }

  // `q` is `p` with any number of Destroy behind it.
  predicate DestroysAdded(p: seq<Functor>, q: seq<Functor>, id: nat) {
    p <= q && forall k :: |p| <= k < |q| ==> q[k] == Destroy(id)
  }

  /** What a functor of the connection's own does to it when run. */
  function RanConn(cfg: C.Config, c: C.Conn, f: Functor, calls: seq<C.AppCall>, w: B.WriteResult): C.Conn {
    match f
    case Establish(_) => C.ConnectEstablished(cfg, c, calls)
    case Destroy(_) => C.ConnectDestroyed(c)
    case RawSend(_, data) => C.SendInLoop(cfg, c, data, w)
    case RawShutdown(_) => C.ShutdownInLoop(c)
    case _ => c
  }

  predicate Dispatches(cfg: C.Config, step: Step, id: nat, w: Wait, v: Wait) {
    && step.Event? && w.slot.Due? && v.slot == Over && w.todo == v.todo == []
    && v.conn == C.Dispatch(cfg, w.conn, w.slot.mask, step.r, step.calls, step.w)
    && DestroysAdded(w.pending, v.pending, id)
  }

  predicate Runs(cfg: C.Config, step: Step, id: nat, w: Wait, v: Wait) {
    && step.RunOne? && w.slot == Free && w.todo != [] && w.todo[0].id == id
    && v == w.(conn := RanConn(cfg, w.conn, w.todo[0], step.calls, step.w), todo := w.todo[1..])
  }

  predicate Swaps(w: Wait, v: Wait) {
    w.todo == [] && w.slot == Over && v == w.(todo := w.pending, pending := [], slot := Free)
  }

  predicate Queues(step: Step, id: nat, w: Wait, v: Wait) {
    || v == w.(pending := w.pending + [Destroy(id)])
    || (step.CrossSend? && step.id == id && w.conn.state == C.Connected && v == w.(pending := w.pending + [RawSend(id, step.data)]))
    || (step.CrossShutdown? && step.id == id && w.conn.state == C.Connected
        && v == w.(conn := w.conn.(state := C.Disconnecting), pending := w.pending + [RawShutdown(id)]))
  }

  /** Everything a step of the server may do to one connection and its functors. */
  predicate Moved(cfg: C.Config, step: Step, id: nat, w: Wait, v: Wait) {
    || v == w || (w.slot == Free && w.todo == [] && v == w.(slot := v.slot)) || Swaps(w, v) || Queues(step, id, w, v)
    || Dispatches(cfg, step, id, w, v) || Runs(cfg, step, id, w, v)
    || (step.App? && v == w.(conn := C.DoCall(cfg, w.conn, step.call)))
  }

  lemma PushWait(s: Server, l: nat, f: Functor, id: nat)
    requires WellFormed(s) && l < |s.loops| && id < |s.peers|
    ensures WellFormed(Push(s, l, f))
    ensures WaitOf(Push(s, l, f), id)
         == WaitOf(s, id).(pending := WaitOf(s, id).pending + if l == s.peers[id].loop && Mine(f, id) then [f] else [])
  {
    PartsPush(s.loops[l].queue.pending, f, id);
    assert WaitOf(s, id).pending + [] == WaitOf(s, id).pending;
  }

  lemma EraseWait(s: Server, x: nat, id: nat)
    requires WellFormed(s) && x < |s.peers| && id < |s.peers|
    ensures WaitOf(RemoveConnectionInLoop(s, x), id)
         == WaitOf(s, id).(pending := WaitOf(s, id).pending + if x == id then [Destroy(id)] else [])
  {
    var e := Erase(s, x);
    assert WaitOf(e, id) == WaitOf(s, id);
    PushWait(e, s.peers[x].loop, Destroy(x), id);
  }

  lemma SetConnWait(s: Server, x: nat, c: C.Conn, id: nat)
    requires WellFormed(s) && x < |s.peers| && id < |s.peers|
    ensures WellFormed(SetConn(s, x, c))
    ensures WaitOf(SetConn(s, x, c), id) == if x == id then WaitOf(s, id).(conn := c) else WaitOf(s, id)
  {
  }

  lemma RemoveWait(s: Server, x: nat, id: nat)
    requires WellFormed(s) && x < |s.peers| && id < |s.peers|
    ensures var w, v := WaitOf(s, id), WaitOf(RemoveConnection(s, x), id);
            v == w || (x == id && v == w.(pending := w.pending + [Destroy(id)]))
  {
    var w := WaitOf(s, id);
    assert w.pending + [] == w.pending;
    if s.peers[x].loop == MAIN { EraseWait(s, x, id); } else { PushWait(s, MAIN, RemoveInLoop(x), id); }
  }

  lemma OneMoreDestroy(p: seq<Functor>, q: seq<Functor>, id: nat)
    requires DestroysAdded(p, q, id)
    ensures DestroysAdded(p, q + [Destroy(id)], id)
  {
  }

  lemma {:induction false} RemovesWait(s: Server, x: nat, n: nat, id: nat)
    requires WellFormed(s) && x < |s.peers| && id < |s.peers|
    ensures var w, v := WaitOf(s, id), WaitOf(RemoveTimes(s, x, n), id);
            v == w.(pending := v.pending) && DestroysAdded(w.pending, v.pending, id) && (x != id ==> v == w)
  {
    hide WaitOf, RemoveConnection, DestroysAdded;
    var w := WaitOf(s, id);
    assert DestroysAdded(w.pending, w.pending, id) by { NoDestroy(w.pending, id); }
    if n > 0 {
      RemovesWait(s, x, n - 1, id);
      var t := RemoveTimes(s, x, n - 1);
      RemoveWait(t, x, id);
      OneMoreDestroy(w.pending, WaitOf(t, id).pending, id);
    }
  }

  lemma NoDestroy(p: seq<Functor>, id: nat)
    ensures DestroysAdded(p, p, id)
  {
  }

  lemma PhaseWait(cfg: C.Config, s: Server, step: Step, id: nat)
    requires Inv(s) && Enabled(s, step) && id < |s.peers| && (step.Poll? || step.StartBatch? || step.FinishBatch?)
    ensures var w, v := WaitOf(s, id), WaitOf(Next(cfg, s, step), id);
            v == w || (step.Poll? && w.slot == Free && w.todo == [] && v == w.(slot := v.slot)) || (step.StartBatch? && Swaps(w, v))
    ensures step.StartBatch? && s.peers[id].loop == step.l ==> Swaps(WaitOf(s, id), WaitOf(Next(cfg, s, step), id))
  {
    assert LoopOk(s, step.l);
  }

  lemma RunWait(cfg: C.Config, s: Server, step: Step, id: nat)
    requires Inv(s) && step.RunOne? && Enabled(s, step) && id < |s.peers|
    ensures var w, v := WaitOf(s, id), WaitOf(Next(cfg, s, step), id);
            var f := s.loops[step.l].queue.todo[0];
            if Mine(f, id) then f.id == id && w.todo != [] && w.todo[0] == f && Runs(cfg, step, id, w, v)
            else v == w.(pending := w.pending + if f == RemoveInLoop(id) then [Destroy(id)] else [])
  {
    hide C.ConnectEstablished, C.ConnectDestroyed, C.SendInLoop, C.ShutdownInLoop, PeersOk, OwnFds;
    var q := s.loops[step.l].queue;
    var f := q.todo[0];
    var t := Advanced(s, step.l);
    assert LoopOk(s, step.l) && q.Unrun()[0] == f && f in Unrun(s, step.l) && Placed(s, step.l, f);
    IoPop(q.todo, id);
    assert WaitOf(s, id).pending + [] == WaitOf(s, id).pending;
    if f.RemoveInLoop? {
      EraseWait(t, f.id, id);
    }
  }

  // The head of an active list leaves it.
  lemma TakenWait(s: Server, l: nat, id: nat)
    requires Inv(s) && l < |s.loops| && s.loops[l].phase.Dispatching? && s.loops[l].phase.active != [] && id < |s.peers|
    ensures var x := s.loops[l].phase.active[0];
            && s.loops[l].phase.Handles() && var t := SetPhase(s, l, s.loops[l].phase.Rest());
            && x < |s.peers| && s.peers[x].loop == l && InEpoll(s, x) && s.peers[x].alive && WellFormed(t)
            && WaitOf(t, id) == (if x == id then WaitOf(s, id).(slot := Over) else WaitOf(s, id))
            && (x == id ==> WaitOf(s, id).slot == Due(s.loops[l].phase.Head()) && WaitOf(s, id).todo == [])
  {
    var active := s.loops[l].phase.active;
    assert LoopOk(s, l) && ActiveOk(s, l, active, s.loops[l].phase.revents);
    RegisteredIsAlive(s, active[0]);
    assert active == [active[0]] + active[1..];
    assert forall k :: 0 <= k < |active[1..]| ==> active[1..][k] != active[0];
  }

  lemma EventWait(cfg: C.Config, s: Server, step: Step, id: nat)
    requires Inv(s) && step.Event? && Enabled(s, step) && id < |s.peers|
    ensures var w, v := WaitOf(s, id), WaitOf(Next(cfg, s, step), id);
            if s.loops[step.l].phase.active[0] == id then Dispatches(cfg, step, id, w, v) else v == w
  {
    hide C.Dispatch, WaitOf, PeersOk, LoopsOk, OwnFds;
    var active := s.loops[step.l].phase.active;
    var x := active[0];
    TakenWait(s, step.l, id);
    TakenWait(s, step.l, x);
    var c := s.peers[x].conn;
    var d := C.Dispatch(cfg, c, s.loops[step.l].phase.Head(), step.r, step.calls, step.w);
    var t := SetPhase(s, step.l, s.loops[step.l].phase.Rest());
    SetConnWait(t, x, d, id);
    RemovesWait(SetConn(t, x, d), x, if c.closes < d.closes then d.closes - c.closes else 0, id);
    assert WaitOf(s, x).conn == c by { ConnOfWait(s, x); }
  }

  lemma ConnOfWait(s: Server, id: nat)
    requires WellFormed(s) && id < |s.peers|
    ensures WaitOf(s, id).conn == s.peers[id].conn && WaitOf(s, id).slot == SlotOf(s, id)
  {
  }

  lemma CallWait(cfg: C.Config, s: Server, step: Step, id: nat)
    requires Inv(s) && Enabled(s, step) && id < |s.peers|
    requires step.App? || step.CrossSend? || step.CrossShutdown? || step.QueueOwned?
    ensures Moved(cfg, step, id, WaitOf(s, id), WaitOf(Next(cfg, s, step), id))
  {
    hide C.DoCall, WaitOf, PeersOk, LoopsOk, OwnFds, Dispatches, Runs;
    var w, x, c := WaitOf(s, id), step.id, s.peers[step.id].conn;
    assert w.pending + [] == w.pending;
    ConnOfWait(s, id);
    match step
    case App(_, call) => SetConnWait(s, x, C.DoCall(cfg, c, call), id);
    case CrossSend(_, data) => PushWait(s, s.peers[x].loop, RawSend(x, data), id);
    case CrossShutdown(_) =>
      SetConnWait(s, x, c.(state := C.Disconnecting), id);
      PushWait(SetConn(s, x, c.(state := C.Disconnecting)), s.peers[x].loop, RawShutdown(x), id);
    case QueueOwned(_, _) => PushWait(s, s.peers[x].loop, OwnedCall(x), id);
  }

  lemma HolderWait(cfg: C.Config, s: Server, step: Step, id: nat)
    requires Inv(s) && Enabled(s, step) && id < |s.peers| && (step.Retain? || step.Release? || step.Reclaim?)
    ensures WaitOf(Next(cfg, s, step), id) == WaitOf(s, id)
  {
  }

  lemma AcceptWait(cfg: C.Config, s: Server, step: Step, id: nat)
    requires Inv(s) && Enabled(s, step) && id < |s.peers| && step.Accept?
    ensures WaitOf(Next(cfg, s, step), id) == WaitOf(s, id)
  {
    hide C.ConnectEstablished, PeersOk, LoopsOk, OwnFds;
    var m := Made(s, step.l, step.fd);
    assert WaitOf(m, id) == WaitOf(s, id);
    if step.l == MAIN {
      SetConnWait(m, |s.peers|, C.ConnectEstablished(cfg, C.NEW_CONN, step.calls), id);
    } else {
      PushWait(m, step.l, Establish(|s.peers|), id);
      assert WaitOf(m, id).pending + [] == WaitOf(m, id).pending;
    }
  }

  /** One step of the server, seen from one connection. */
  lemma StepWait(cfg: C.Config, s: Server, step: Step, id: nat)
    requires Inv(s) && Enabled(s, step) && id < |s.peers|
    ensures Moved(cfg, step, id, WaitOf(s, id), WaitOf(Next(cfg, s, step), id))
  {
    hide Next, Enabled, WaitOf, Inv, Dispatches, Runs;
    match step
    case Event(_, _, _, _) => EventWait(cfg, s, step, id);
    case RunOne(_, _, _) => RunWait(cfg, s, step, id);
    case Poll(_, _, _) => PhaseWait(cfg, s, step, id);
    case StartBatch(_) => PhaseWait(cfg, s, step, id);
    case FinishBatch(_) => PhaseWait(cfg, s, step, id);
    case Accept(_, _, _) => AcceptWait(cfg, s, step, id);
    case Retain(_) => HolderWait(cfg, s, step, id);
    case Release(_) => HolderWait(cfg, s, step, id);
    case Reclaim(_) => HolderWait(cfg, s, step, id);
    case _ => CallWait(cfg, s, step, id);
  }

  // ---------------------------------------- what handlers do to the half-close

  predicate Down(c: C.Conn) { c.state == C.Disconnecting || c.state == C.Disconnected }

  lemma {:induction false} CallsRefused(cfg: C.Config, c: C.Conn, calls: seq<C.AppCall>)
    requires Down(c)
    ensures var d := C.DoCalls(cfg, c, calls);
            d.state == c.state && d.output == c.output && d.fins == c.fins && d.reg == c.reg
  {
    if calls != [] {
      hide C.SendInLoop, C.ShutdownInLoop;
      CallsRefused(cfg, c, calls[..|calls| - 1]);
    }
  }

  // Who is not told to shut down has issued no SHUT_WR on the way.
  predicate StaysUp(c: C.Conn, d: C.Conn) { !Down(d) ==> d.state == c.state && d.fins == c.fins }

  lemma CallStaysUp(cfg: C.Config, c: C.Conn, call: C.AppCall)
    ensures StaysUp(c, C.DoCall(cfg, c, call))
  {
    hide C.SendInLoop;
    if call.Send? { C.SendEffect(cfg, c, call.data, call.w); }
  }

  lemma {:induction false} CallsStayUp(cfg: C.Config, c: C.Conn, calls: seq<C.AppCall>)
    ensures StaysUp(c, C.DoCalls(cfg, c, calls))
  {
    if calls != [] {
      hide C.DoCall;
      CallsStayUp(cfg, c, calls[..|calls| - 1]);
      var d := C.DoCalls(cfg, c, calls[..|calls| - 1]);
      CallStaysUp(cfg, d, calls[|calls| - 1]);
      if Down(d) { CallsRefused(cfg, d, [calls[|calls| - 1]]); assert [calls[|calls| - 1]][..0] == []; }
    }
  }

  lemma DispatchStaysUp(cfg: C.Config, c: C.Conn, revents: P.Mask, r: B.ReadResult, calls: seq<C.AppCall>, w: B.WriteResult)
    ensures StaysUp(c, C.Dispatch(cfg, c, revents, r, calls, w))
  {
    hide C.DoCalls, P.Apply;
    var d := if C.HangsUp(revents) then C.HandleClose(c) else c;
    if r.Got? {
      var e := d.(input := d.input + r.bytes);
      CallsStayUp(cfg, e, calls);
      if Down(e) { CallsRefused(cfg, e, calls); }
    }
  }

  // One dispatch of a connection that is shutting down issues SHUT_WR only by draining.
  predicate Drains(c: C.Conn, d: C.Conn) {
    && Down(d)
    && (!C.Writing(c) ==> !C.Writing(d) && d.fins == c.fins)
    && |c.fins| <= |d.fins| <= |c.fins| + 1
    && (d.fins != c.fins ==> !C.Writing(d))
  }

  lemma WriteDrains(cfg: C.Config, c: C.Conn, w: B.WriteResult)
    requires Down(c)
    ensures Drains(c, C.HandleWrite(cfg, c, w))
  {
    C.WritingIsOut(c);
    C.WritingIsOut(C.HandleWrite(cfg, c, w));
  }

  lemma CloseDrains(c: C.Conn)
    ensures var d := C.HandleClose(c); d.state == C.Disconnected && !C.Writing(d) && d.fins == c.fins
  {
    C.WritingIsOut(C.HandleClose(c));
  }

  lemma DispatchDrains(cfg: C.Config, c: C.Conn, revents: P.Mask, r: B.ReadResult, calls: seq<C.AppCall>, w: B.WriteResult)
    requires Down(c)
    ensures Drains(c, C.Dispatch(cfg, c, revents, r, calls, w))
  {
    hide C.DoCalls, C.HandleWrite, C.HandleClose, C.Writing;
    var d := if C.HangsUp(revents) then C.HandleClose(c) else c;
    CloseDrains(c);
    CloseDrains(d);
    var e := C.CloseThenRead(cfg, c, revents, r, calls);
    if r.Got? { CallsRefused(cfg, d.(input := d.input + r.bytes), calls); }
    assert e.reg == d.reg ==> C.Writing(e) == C.Writing(d) by { SameRegSameWriting(e, d); }
    SameRegSameWriting(d.(input := d.input), d);
    WriteDrains(cfg, e, w);
  }

  lemma SameRegSameWriting(c: C.Conn, d: C.Conn)
    ensures c.reg == d.reg ==> C.Writing(c) == C.Writing(d)
  {
  }

  // ------------------------------------------------------------- invariants

  /** What the server's invariant says of one connection's waits. */
  predicate Sane(w: Wait, id: nat) {
    && C.Interested(w.conn)
    && match w.conn.state
       case Connecting => w.All() == [Establish(id)]
       case Disconnected => RawsThenDestroys(w.All(), id)
       case _ => LeadingRaws(w.All()) == |w.All()| && C.Live(w.conn)
  }

  lemma InvIsSane(s: Server, id: nat)
    requires Inv(s) && id < |s.peers|
    ensures Sane(WaitOf(s, id), id) && TrackOf(s, id).io == WaitOf(s, id).All()
  {
    var q := s.loops[s.peers[id].loop].queue;
    assert PeerOk(TrackOf(s, id), id, 0);
    IoConcat(q.todo, q.pending, id);
  }

  /** Nobody who is still up has half-closed or been asked to, and a waiting
      shutdownInLoop is the last raw functor. */
  predicate Orderly(w: Wait, id: nat) {
    && (!Down(w.conn) ==> w.conn.fins == [] && RawShutdown(id) !in w.All())
    && forall i, j :: 0 <= i < j < |w.All()| && w.All()[i] == RawShutdown(id) ==> !Raw(w.All()[j])
  }

  lemma HeadFits(w: Wait, id: nat)
    requires Sane(w, id) && w.todo != []
    ensures var f := w.todo[0];
            && w.All() == [f] + (w.todo[1..] + w.pending) && f == w.All()[0]
            && (w.conn.state == C.Connecting ==> f == Establish(id) && w.todo[1..] + w.pending == [])
            && (w.conn.state == C.Disconnected ==> Raw(f) || f == Destroy(id))
            && (Up(w.conn) ==> Raw(f))
  {
    LeadingRawsBounds(w.All());
    assert w.All() == [w.todo[0]] + (w.todo[1..] + w.pending);
  }

  lemma RunsOrderly(cfg: C.Config, step: Step, id: nat, w: Wait, v: Wait)
    requires Sane(w, id) && Orderly(w, id) && Runs(cfg, step, id, w, v)
    ensures Orderly(v, id)
  {
    HeadFits(w, id);
    var c, f := w.conn, w.todo[0];
    assert v.All() == w.All()[1..];
    match f
    case Establish(_) => CallsStayUp(cfg, C.BroughtUp(c), step.calls);
    case RawSend(_, data) => C.SendEffect(cfg, c, data, step.w);
    case RawShutdown(_) => assert w.All()[0] == RawShutdown(id);
    case _ =>
  }

  lemma QueuesOrderly(step: Step, id: nat, w: Wait, v: Wait)
    requires Sane(w, id) && Orderly(w, id) && Queues(step, id, w, v)
    ensures Orderly(v, id)
  {
    var last := v.pending[|v.pending| - 1];
    assert v.All() == w.All() + [last];
  }

  lemma RawsAsBefore(w: Wait, v: Wait, id: nat)
    requires w.todo == v.todo == [] && DestroysAdded(w.pending, v.pending, id)
    ensures forall k :: 0 <= k < |v.All()| && Raw(v.All()[k]) ==> k < |w.All()| && v.All()[k] == w.All()[k]
    ensures forall f :: Raw(f) ==> (f in v.All() <==> f in w.All()) && (f in v.pending <==> f in w.pending)
    ensures w.All() <= v.All()
  {
    assert w.All() == w.pending && v.All() == v.pending;
  }

  lemma DispatchesOrderly(cfg: C.Config, step: Step, id: nat, w: Wait, v: Wait)
    requires Sane(w, id) && Orderly(w, id) && Dispatches(cfg, step, id, w, v)
    ensures Orderly(v, id)
  {
    hide C.Dispatch;
    DispatchStaysUp(cfg, w.conn, w.slot.mask, step.r, step.calls, step.w);
    if Down(w.conn) { DispatchDrains(cfg, w.conn, w.slot.mask, step.r, step.calls, step.w); }
    RawsAsBefore(w, v, id);
  }

  lemma MovedOrderly(cfg: C.Config, step: Step, id: nat, w: Wait, v: Wait)
    requires Sane(w, id) && Orderly(w, id) && Moved(cfg, step, id, w, v)
    ensures Orderly(v, id)
  {
    hide Dispatches, Runs, C.DoCall;
    if Dispatches(cfg, step, id, w, v) {
      DispatchesOrderly(cfg, step, id, w, v);
    } else if Runs(cfg, step, id, w, v) {
      RunsOrderly(cfg, step, id, w, v);
    } else if Queues(step, id, w, v) {
      QueuesOrderly(step, id, w, v);
    } else {
      assert v.All() == w.All();
      if step.App? { CallStaysUp(cfg, w.conn, step.call); }
    }
  }

  // ------------------------------------------------- at most one SHUT_WR

  predicate NoBytes(fs: seq<Functor>) { forall f :: f in fs && f.RawSend? ==> f.data == [] }

  /** SHUT_WR has been issued at most once, by nobody still up, and nothing is written
      after it. */
  predicate Clean(c: C.Conn) { |c.fins| <= 1 && (c.fins != [] ==> Down(c) && !C.Writing(c)) }

  /** None will come twice: a waiting shutdownInLoop finds none issued, and no drain gets in
      before it. */
  predicate AtMostOnce(w: Wait, id: nat) {
    && Clean(w.conn)
    && (RawShutdown(id) in w.All() ==> Down(w.conn) && w.conn.fins == [])
    && (RawShutdown(id) in w.pending && w.slot.MayDrain() ==> w.conn.output == [] && NoBytes(w.todo))
  }

  lemma CallClean(cfg: C.Config, c: C.Conn, call: C.AppCall)
    requires Clean(c)
    ensures Clean(C.DoCall(cfg, c, call))
  {
    hide C.SendInLoop, C.Writing;
    if Down(c) {
      CallRefused(cfg, c, call);
    } else if call.Send? {
      C.SendEffect(cfg, c, call.data, call.w);
    } else if call.Shutdown? {
      ShutdownOnce(c.(state := C.Disconnecting));
    }
  }

  lemma {:induction false} CallsClean(cfg: C.Config, c: C.Conn, calls: seq<C.AppCall>)
    requires Clean(c)
    ensures Clean(C.DoCalls(cfg, c, calls))
  {
    if calls != [] {
      hide C.DoCall, Clean;
      CallsClean(cfg, c, calls[..|calls| - 1]);
      CallClean(cfg, C.DoCalls(cfg, c, calls[..|calls| - 1]), calls[|calls| - 1]);
    }
  }

  lemma WriteClean(cfg: C.Config, c: C.Conn, w: B.WriteResult)
    requires Clean(c)
    ensures Clean(C.HandleWrite(cfg, c, w))
  {
    C.WritingIsOut(c);
    C.WritingIsOut(C.HandleWrite(cfg, c, w));
  }

  lemma CloseClean(c: C.Conn)
    requires Clean(c)
    ensures Clean(C.HandleClose(c))
  {
    CloseDrains(c);
  }

  lemma InputClean(c: C.Conn, input: C.Bytes)
    requires Clean(c)
    ensures Clean(c.(input := input))
  {
    SameRegSameWriting(c.(input := input), c);
  }

  lemma DispatchClean(cfg: C.Config, c: C.Conn, revents: P.Mask, r: B.ReadResult, calls: seq<C.AppCall>, w: B.WriteResult)
    requires Clean(c)
    ensures Clean(C.Dispatch(cfg, c, revents, r, calls, w))
  {
    hide C.DoCalls, C.HandleWrite, C.HandleClose, Clean;
    CloseClean(c);
    var d := if C.HangsUp(revents) then C.HandleClose(c) else c;
    CloseClean(d);
    if r.Got? {
      InputClean(d, d.input + r.bytes);
      CallsClean(cfg, d.(input := d.input + r.bytes), calls);
    }
    WriteClean(cfg, C.CloseThenRead(cfg, c, revents, r, calls), w);
  }

  lemma WritingIsUnsent(c: C.Conn)
    requires C.Interested(c) && Down(c) && (c.state == C.Disconnecting ==> C.Live(c))
    ensures C.Writing(c) ==> c.output != []
  {
    C.WritingIsOut(c);
  }

  // Without EPOLLOUT, or after a hang-up, a dispatch issues none.
  lemma DispatchUndrained(cfg: C.Config, c: C.Conn, revents: P.Mask, r: B.ReadResult, calls: seq<C.AppCall>, w: B.WriteResult)
    requires Down(c) && (P.Out !in revents || C.HangsUp(revents))
    ensures var d := C.Dispatch(cfg, c, revents, r, calls, w);
            d.fins == c.fins && (C.HangsUp(revents) ==> d.state == C.Disconnected && !C.Writing(d))
  {
    hide C.DoCalls, C.HandleWrite, C.HandleClose, C.Writing;
    var d := if C.HangsUp(revents) then C.HandleClose(c) else c;
    CloseDrains(c);
    CloseDrains(d);
    var e := C.CloseThenRead(cfg, c, revents, r, calls);
    if r.Got? { CallsRefused(cfg, d.(input := d.input + r.bytes), calls); }
    SameRegSameWriting(e, d);
    WriteDrains(cfg, e, w);
    if C.HangsUp(revents) { WriteStaysClosed(cfg, e, w); }
  }

  lemma WriteStaysClosed(cfg: C.Config, c: C.Conn, w: B.WriteResult)
    requires !C.Writing(c)
    ensures C.HandleWrite(cfg, c, w) == c
  {
  }

  // With a shutdownInLoop waiting, a dispatch issues none.
  lemma WaitingUndrained(cfg: C.Config, step: Step, id: nat, w: Wait)
    requires Sane(w, id) && AtMostOnce(w, id) && w.slot.Due? && w.todo == [] && RawShutdown(id) in w.pending && step.Event?
    ensures C.Dispatch(cfg, w.conn, w.slot.mask, step.r, step.calls, step.w).fins == w.conn.fins
  {
    hide C.Dispatch, C.Writing;
    WritingIsUnsent(w.conn);
    DispatchDrains(cfg, w.conn, w.slot.mask, step.r, step.calls, step.w);
    if !w.slot.MayDrain() { DispatchUndrained(cfg, w.conn, w.slot.mask, step.r, step.calls, step.w); }
  }

  lemma DispatchesOnce(cfg: C.Config, step: Step, id: nat, w: Wait, v: Wait)
    requires Sane(w, id) && AtMostOnce(w, id) && Dispatches(cfg, step, id, w, v)
    ensures AtMostOnce(v, id)
  {
    hide C.Dispatch, Clean, Sane, NoBytes, DestroysAdded, Raw;
    DispatchClean(cfg, w.conn, w.slot.mask, step.r, step.calls, step.w);
    RawsStay(w, v, id);
    if RawShutdown(id) in w.pending {
      DispatchDrains(cfg, w.conn, w.slot.mask, step.r, step.calls, step.w);
      WaitingUndrained(cfg, step, id, w);
    }
  }

  lemma RawsStay(w: Wait, v: Wait, id: nat)
    requires w.todo == v.todo == [] && DestroysAdded(w.pending, v.pending, id)
    ensures w.All() == w.pending && v.All() == v.pending
    ensures RawShutdown(id) in v.All() <==> RawShutdown(id) in w.All()
    ensures (forall f :: f in w.All() ==> !Raw(f)) ==> forall f :: f in v.All() ==> !Raw(f)
  {
    RawsAsBefore(w, v, id);
    assert Raw(RawShutdown(id));
  }

  lemma EmptySend(cfg: C.Config, c: C.Conn, w: B.WriteResult)
    ensures C.SendInLoop(cfg, c, [], w).output == c.output
  {
  }

  // After SHUT_WR a queued send is faulted or refused, and nothing is buffered.
  lemma SpentSend(cfg: C.Config, w: Wait, id: nat, data: C.Bytes, answer: B.WriteResult)
    requires Sane(w, id) && Clean(w.conn) && w.conn.fins != []
    ensures var d := C.SendInLoop(cfg, w.conn, data, answer);
            Clean(d) && d.wire == w.conn.wire && d.sends[|d.sends| - 1].fate != C.Taken
  {
    var c := w.conn;
    C.WritingIsOut(c);
    C.SendEffect(cfg, c, data, answer);
    assert c.wire + data[..0] == c.wire;
  }

  lemma RunsOnce(cfg: C.Config, step: Step, id: nat, w: Wait, v: Wait)
    requires Sane(w, id) && Orderly(w, id) && AtMostOnce(w, id) && Runs(cfg, step, id, w, v)
    ensures AtMostOnce(v, id)
  {
    hide C.SendInLoop, C.Writing, P.Apply;
    HeadFits(w, id);
    var c, f := w.conn, w.todo[0];
    assert v.All() == w.All()[1..];
    assert forall g :: g in w.All() <==> g == f || g in v.All();
    match f
    case Establish(_) =>
      assert Clean(C.BroughtUp(c));
      CallsClean(cfg, C.BroughtUp(c), step.calls);
    case RawSend(_, data) =>
      C.SendEffect(cfg, c, data, step.w);
      EmptySend(cfg, c, step.w);
      if c.fins != [] { SpentSend(cfg, w, id, data, step.w); }
      assert f in w.All() && f in w.todo;
    case RawShutdown(_) =>
      assert w.All()[0] == RawShutdown(id);
      ShutdownOnce(c);
    case Destroy(_) => DestroyIsQuiet(c);
    case _ =>
  }

  lemma ShutdownOnce(c: C.Conn)
    ensures var d := C.ShutdownInLoop(c);
            && d.state == c.state && d.output == c.output && (C.Writing(d) <==> C.Writing(c))
            && d.fins == if C.Writing(c) then c.fins else c.fins + [c.wire]
  {
  }

  lemma DestroyIsQuiet(c: C.Conn)
    requires Down(c)
    ensures var d := C.ConnectDestroyed(c); d.state == c.state && d.fins == c.fins && !C.Writing(d)
  {
    C.WritingIsOut(C.ConnectDestroyed(c));
  }

  // A shutdownInLoop queued now finds no drain before it.
  predicate Safe(w: Wait) { w.slot.MayDrain() ==> w.conn.output == [] && NoBytes(w.todo) }

  lemma QueuesOnce(step: Step, id: nat, w: Wait, v: Wait)
    requires AtMostOnce(w, id) && Queues(step, id, w, v)
    requires step == CrossShutdown(id) && w.conn.state == C.Connected ==> Safe(w)
    ensures AtMostOnce(v, id)
  {
    hide C.Writing, NoBytes;
    var last := v.pending[|v.pending| - 1];
    assert v.All() == w.All() + [last];
    SameRegSameWriting(v.conn, w.conn);
  }

  lemma SwapsOnce(id: nat, w: Wait, v: Wait)
    requires AtMostOnce(w, id) && Swaps(w, v)
    ensures AtMostOnce(v, id)
  {
    hide C.Writing;
    assert v.All() == w.All();
  }

  // The connection, its functors and the drain are as before, as far as SHUT_WR goes.
  lemma SameOnce(id: nat, w: Wait, v: Wait)
    requires AtMostOnce(w, id) && v == w.(conn := v.conn, slot := v.slot)
    requires v.slot.MayDrain() ==> w.slot.MayDrain()
    requires Clean(v.conn) && (Down(w.conn) ==> Down(v.conn) && v.conn.output == w.conn.output && v.conn.fins == w.conn.fins)
    ensures AtMostOnce(v, id)
  {
    hide Clean, NoBytes;
  }

  lemma MovedOnce(cfg: C.Config, step: Step, id: nat, w: Wait, v: Wait)
    requires Sane(w, id) && Orderly(w, id) && AtMostOnce(w, id) && Moved(cfg, step, id, w, v)
    requires step == CrossShutdown(id) && w.conn.state == C.Connected ==> Safe(w)
    ensures AtMostOnce(v, id)
  {
    hide Dispatches, Runs, Queues, Swaps, Sane, Orderly, C.DoCall, Clean, Safe;
    if Dispatches(cfg, step, id, w, v) {
      DispatchesOnce(cfg, step, id, w, v);
    } else if Runs(cfg, step, id, w, v) {
      RunsOnce(cfg, step, id, w, v);
    } else if Queues(step, id, w, v) {
      QueuesOnce(step, id, w, v);
    } else if Swaps(w, v) {
      SwapsOnce(id, w, v);
    } else {
      if step.App? {
        CallClean(cfg, w.conn, step.call);
        if Down(w.conn) { CallRefused(cfg, w.conn, step.call); }
      }
      SameOnce(id, w, v);
    }
  }

  lemma CallRefused(cfg: C.Config, c: C.Conn, call: C.AppCall)
    requires Down(c)
    ensures var d := C.DoCall(cfg, c, call);
            d.state == c.state && d.output == c.output && d.fins == c.fins && (C.Writing(d) <==> C.Writing(c))
  {
    hide C.SendInLoop, C.ShutdownInLoop;
  }

  predicate AllOrderly(s: Server)
    requires WellFormed(s)
  {
    forall id :: 0 <= id < |s.peers| ==> Orderly(WaitOf(s, id), id)
  }

  lemma MadeWait(s: Server, l: nat, fd: int)
    requires Inv(s) && l < |s.loops|
    ensures var m := Made(s, l, fd);
            WellFormed(m) && var w := WaitOf(m, |s.peers|); w.conn == C.NEW_CONN && w.todo == w.pending == []
  {
    var q := s.loops[l].queue;
    NoneYet(s, l);
    IoConcat(q.todo, q.pending, |s.peers|);
  }

  lemma NewIsOrderly(cfg: C.Config, s: Server, step: Step)
    requires Inv(s) && step.Accept? && Enabled(s, step)
    ensures Orderly(WaitOf(Next(cfg, s, step), |s.peers|), |s.peers|)
  {
    hide WaitOf, C.ConnectEstablished, PeersOk, LoopsOk, OwnFds;
    var id := |s.peers|;
    var m := Made(s, step.l, step.fd);
    MadeWait(s, step.l, step.fd);
    if step.l == MAIN {
      SetConnWait(m, id, C.ConnectEstablished(cfg, C.NEW_CONN, step.calls), id);
      EstablishedStaysUp(cfg, step.calls);
    } else {
      PushWait(m, step.l, Establish(id), id);
    }
  }

  lemma EstablishedStaysUp(cfg: C.Config, calls: seq<C.AppCall>)
    ensures var d := C.ConnectEstablished(cfg, C.NEW_CONN, calls); !Down(d) ==> d.fins == []
  {
    CallsStayUp(cfg, C.BroughtUp(C.NEW_CONN), calls);
  }

  lemma NextKeepsOrder(cfg: C.Config, s: Server, step: Step)
    requires Inv(s) && Enabled(s, step) && AllOrderly(s)
    ensures AllOrderly(Next(cfg, s, step))
  {
    hide Moved, Orderly, WaitOf;
    var r := Next(cfg, s, step);
    forall id | 0 <= id < |r.peers| ensures Orderly(WaitOf(r, id), id) {
      if id < |s.peers| {
        StepWait(cfg, s, step, id);
        InvIsSane(s, id);
        MovedOrderly(cfg, step, id, WaitOf(s, id), WaitOf(r, id));
      } else {
        NewIsOrderly(cfg, s, step);
      }
    }
  }

  lemma {:induction false} RunKeepsOrder(cfg: C.Config, s: Server, steps: seq<Step>)
    requires Inv(s) && AllOrderly(s) && LegalRun(cfg, s, steps)
    ensures Inv(Run(cfg, s, steps)) && AllOrderly(Run(cfg, s, steps))
    decreases |steps|
  {
    if steps != [] {
      NextKeepsInv(cfg, s, steps[0]);
      NextKeepsOrder(cfg, s, steps[0]);
      RunKeepsOrder(cfg, Next(cfg, s, steps[0]), steps[1..]);
    }
  }

  /** Whether an event may drain the connection before a shutdownInLoop queued now: the
      next poll may report it writable, or the last one has, with no hang-up that closes it
      first; and there is unsent output, or a queued send with bytes in the rest of the
      running batch. */
  predicate MayDrainFirst(s: Server, id: nat)
    requires WellFormed(s) && id < |s.peers|
  {
    && SlotOf(s, id).MayDrain()
    && (s.peers[id].conn.output != []
        || exists f :: f in s.loops[s.peers[id].loop].queue.todo && f.RawSend? && f.id == id && f.data != [])
  }

  lemma DrainsFirst(s: Server, id: nat)
    requires WellFormed(s) && id < |s.peers|
    ensures MayDrainFirst(s, id) <==> !Safe(WaitOf(s, id))
  {
    PartsMembers(s.loops[s.peers[id].loop].queue.todo, id);
  }

  /** A shutdown of the connection on another thread is not called where a drain may get
      in before its queued half. */
  predicate SafeStep(s: Server, step: Step, id: nat)
    requires WellFormed(s)
  {
    step == CrossShutdown(id) && id < |s.peers| && s.peers[id].conn.state == C.Connected ==> !MayDrainFirst(s, id)
  }

  predicate SafeCalls(cfg: C.Config, s: Server, steps: seq<Step>, id: nat)
    requires WellFormed(s) && LegalRun(cfg, s, steps)
    decreases |steps|
  {
    steps == [] || (SafeStep(s, steps[0], id) && SafeCalls(cfg, Next(cfg, s, steps[0]), steps[1..], id))
  }

  lemma NextKeepsOnce(cfg: C.Config, s: Server, step: Step, id: nat)
    requires Inv(s) && AllOrderly(s) && Enabled(s, step) && id < |s.peers| && AtMostOnce(WaitOf(s, id), id)
    requires SafeStep(s, step, id)
    ensures AtMostOnce(WaitOf(Next(cfg, s, step), id), id)
  {
    hide Moved, WaitOf, AtMostOnce, MayDrainFirst;
    StepWait(cfg, s, step, id);
    InvIsSane(s, id);
    ConnOfWait(s, id);
    DrainsFirst(s, id);
    MovedOnce(cfg, step, id, WaitOf(s, id), WaitOf(Next(cfg, s, step), id));
  }

  lemma {:induction false} RunKeepsOnce(cfg: C.Config, s: Server, steps: seq<Step>, id: nat)
    requires Inv(s) && AllOrderly(s) && LegalRun(cfg, s, steps) && id < |s.peers| && AtMostOnce(WaitOf(s, id), id)
    requires SafeCalls(cfg, s, steps, id)
    ensures AtMostOnce(WaitOf(Run(cfg, s, steps), id), id)
    decreases |steps|
  {
    if steps != [] {
      hide WaitOf, AtMostOnce, SafeStep;
      NextKeepsOnce(cfg, s, steps[0], id);
      NextKeepsInv(cfg, s, steps[0]);
      NextKeepsOrder(cfg, s, steps[0]);
      RunKeepsOnce(cfg, Next(cfg, s, steps[0]), steps[1..], id);
    }
  }

  // Who is down is not shut down again.
  lemma {:induction false} DownIsSafe(cfg: C.Config, s: Server, steps: seq<Step>, id: nat)
    requires Inv(s) && LegalRun(cfg, s, steps) && id < |s.peers| && Down(s.peers[id].conn)
    ensures SafeCalls(cfg, s, steps, id)
    decreases |steps|
  {
    if steps != [] {
      hide MayDrainFirst;
      OneForward(cfg, s, steps[0], id);
      NextKeepsInv(cfg, s, steps[0]);
      DownIsSafe(cfg, Next(cfg, s, steps[0]), steps[1..], id);
    }
  }

  lemma OneForward(cfg: C.Config, s: Server, step: Step, id: nat)
    requires Inv(s) && Enabled(s, step) && id < |s.peers|
    ensures Rank(s.peers[id].conn.state) <= Rank(Next(cfg, s, step).peers[id].conn.state)
  {
    StepMoves(cfg, s, step, id);
  }

  // ------------------------------------------------- how it comes to be two

  ghost predicate CanTwice(cfg: C.Config, s: Server, id: nat)
    requires WellFormed(s) && id < |s.peers|
  {
    exists steps :: LegalRun(cfg, s, steps) && 2 <= |Run(cfg, s, steps).peers[id].conn.fins|
  }

  lemma TwiceBefore(cfg: C.Config, s: Server, step: Step, id: nat)
    requires WellFormed(s) && id < |s.peers| && Enabled(s, step) && CanTwice(cfg, Next(cfg, s, step), id)
    ensures CanTwice(cfg, s, id)
  {
    var r := Next(cfg, s, step);
    var rest :| LegalRun(cfg, r, rest) && 2 <= |Run(cfg, r, rest).peers[id].conn.fins|;
    var steps := [step] + rest;
    assert steps[0] == step && steps[1..] == rest;
    assert LegalRun(cfg, s, steps) && Run(cfg, s, steps) == Run(cfg, r, rest);
  }

  lemma TwiceNow(cfg: C.Config, s: Server, id: nat)
    requires WellFormed(s) && id < |s.peers| && 2 <= |s.peers[id].conn.fins|
    ensures CanTwice(cfg, s, id)
  {
    assert LegalRun(cfg, s, []) && Run(cfg, s, []) == s;
  }

  // Shutting down with nothing unsent and SHUT_WR issued once, or with output and none.
  predicate Quiet(c: C.Conn) { c.state == C.Disconnecting && c.output == [] && |c.fins| == 1 }

  predicate Loaded(c: C.Conn) { c.state == C.Disconnecting && c.output != [] && c.fins == [] }

  lemma SaneWriting(w: Wait, id: nat)
    requires Sane(w, id) && w.conn.state == C.Disconnecting
    ensures C.Writing(w.conn) <==> w.conn.output != []
    ensures w.conn.reg.kernel.Some?
  {
    C.WritingIsOut(w.conn);
  }

  // A write with room for all, and one with room for nothing.
  lemma GenerousSend(cfg: C.Config, c: C.Conn, data: C.Bytes)
    requires Quiet(c) && !C.Writing(c)
    ensures Quiet(C.SendInLoop(cfg, c, data, B.Room(|data|)))
  {
    C.SendEffect(cfg, c, data, B.Room(|data|));
    assert data[|data|..] == [];
  }

  lemma StingySend(cfg: C.Config, c: C.Conn, data: C.Bytes)
    requires c.state == C.Disconnecting && c.fins == []
    ensures var d := C.SendInLoop(cfg, c, data, B.Room(0));
            d.state == c.state && d.fins == c.fins && d.output == c.output + data
  {
    C.SendEffect(cfg, c, data, B.Room(0));
    assert data[0..] == data;
    if !C.Writing(c) && c.output == [] { assert c.output + data == data; }
  }

  lemma RunShape(cfg: C.Config, s: Server, step: Step)
    requires Inv(s) && step.RunOne? && Enabled(s, step)
    ensures var r := Next(cfg, s, step);
            && r.loops[step.l].phase == Running && r.loops[step.l].queue.todo == s.loops[step.l].queue.todo[1..]
            && forall i :: 0 <= i < |s.peers| ==> r.peers[i].loop == s.peers[i].loop
  {
    hide C.ConnectEstablished, C.ConnectDestroyed, C.SendInLoop, C.ShutdownInLoop, PeersOk, LoopsOk, OwnFds;
  }

  lemma RunEnabled(s: Server, l: nat, calls: seq<C.AppCall>, w: B.WriteResult)
    requires Inv(s) && l < |s.loops| && s.loops[l].phase == Running && s.loops[l].queue.todo != []
    ensures Enabled(s, RunOne(l, calls, w))
  {
    var f := s.loops[l].queue.todo[0];
    assert LoopOk(s, l) && s.loops[l].queue.Unrun()[0] == f && f in Unrun(s, l) && Placed(s, l, f);
  }

  /** The batch that holds the shutdownInLoop, after a drain has issued SHUT_WR. */
  lemma {:induction false} BatchTwice(cfg: C.Config, s: Server, id: nat)
    requires Inv(s) && id < |s.peers| && s.loops[s.peers[id].loop].phase == Running && Quiet(s.peers[id].conn)
    requires RawShutdown(id) in WaitOf(s, id).todo
    ensures CanTwice(cfg, s, id)
    decreases |s.loops[s.peers[id].loop].queue.todo|
  {
    hide Runs, CanTwice, PeersOk, LoopsOk, OwnFds;
    var l := s.peers[id].loop;
    var todo := s.loops[l].queue.todo;
    PartsMembers(todo, id);
    var f := todo[0];
    var step := RunOne(l, [], B.Room(if f.RawSend? then |f.data| else 0));
    RunEnabled(s, l, [], step.w);
    NextKeepsInv(cfg, s, step);
    RunShape(cfg, s, step);
    RunWait(cfg, s, step, id);
    var r := Next(cfg, s, step);
    var w, v := WaitOf(s, id), WaitOf(r, id);
    if Mine(f, id) {
      QuietRuns(cfg, step, id, s, w, v);
    }
    if 2 <= |r.peers[id].conn.fins| { TwiceNow(cfg, r, id); } else { BatchTwice(cfg, r, id); }
    TwiceBefore(cfg, s, step, id);
  }

  lemma QuietRuns(cfg: C.Config, step: Step, id: nat, s: Server, w: Wait, v: Wait)
    requires Inv(s) && id < |s.peers| && w == WaitOf(s, id) && Runs(cfg, step, id, w, v) && Quiet(w.conn)
    requires RawShutdown(id) in w.todo
    requires step.w == B.Room(if w.todo[0].RawSend? then |w.todo[0].data| else 0)
    ensures |v.conn.fins| == 2 || (Quiet(v.conn) && RawShutdown(id) in v.todo)
  {
    InvIsSane(s, id);
    SaneWriting(w, id);
    HeadFits(w, id);
    assert w.todo == [w.todo[0]] + v.todo;
    match w.todo[0]
    case RawSend(_, data) => GenerousSend(cfg, w.conn, data);
    case RawShutdown(_) =>
    case _ =>
  }

  // An event in which the kernel gives and takes nothing.
  function Noop(l: nat): Step { Event(l, B.ReadFailed(B.EOTHER), [], B.Room(0)) }

  lemma {:induction false} RemovesPhase(s: Server, x: nat, n: nat, id: nat)
    requires WellFormed(s) && x < |s.peers| && id < |s.peers|
    ensures var r := RemoveTimes(s, x, n);
            && (forall l :: 0 <= l < |s.loops| ==> r.loops[l].phase == s.loops[l].phase)
            && r.peers[id].conn == s.peers[id].conn && r.peers[id].loop == s.peers[id].loop
  {
    if n > 0 { RemovesPhase(s, x, n - 1, id); }
  }

  lemma EventShape(cfg: C.Config, s: Server, step: Step, id: nat)
    requires Inv(s) && step.Event? && Enabled(s, step) && id < |s.peers|
    ensures var r, phase := Next(cfg, s, step), s.loops[step.l].phase;
            && r.loops[step.l].phase == phase.Rest() && r.peers[id].loop == s.peers[id].loop
            && (phase.active[0] != id ==> r.peers[id].conn == s.peers[id].conn)
  {
    hide C.Dispatch, PeersOk, LoopsOk, OwnFds;
    var phase := s.loops[step.l].phase;
    var x := phase.active[0];
    var c := s.peers[x].conn;
    var d := C.Dispatch(cfg, c, phase.Head(), step.r, step.calls, step.w);
    var t := SetConn(SetPhase(s, step.l, phase.Rest()), x, d);
    RemovesPhase(t, x, if c.closes < d.closes then d.closes - c.closes else 0, id);
  }

  // The head of the active list is another connection; it is handled.
  lemma SkipHead(cfg: C.Config, s: Server, id: nat)
    requires Inv(s) && id < |s.peers|
    requires var phase := s.loops[s.peers[id].loop].phase; phase.Dispatching? && phase.active != [] && phase.active[0] != id
    ensures var l := s.peers[id].loop;
            Enabled(s, Noop(l)) && var r := Next(cfg, s, Noop(l));
            && Inv(r) && r.peers[id].loop == l && r.peers[id].conn == s.peers[id].conn
            && s.loops[l].phase.Handles() && r.loops[l].phase == s.loops[l].phase.Rest() && WaitOf(r, id) == WaitOf(s, id)
  {
    hide PeersOk, LoopsOk, OwnFds;
    var l := s.peers[id].loop;
    TakenWait(s, l, id);
    NextKeepsInv(cfg, s, Noop(l));
    EventWait(cfg, s, Noop(l), id);
    EventShape(cfg, s, Noop(l), id);
  }

  lemma OverIsAbsent(s: Server, id: nat)
    requires Inv(s) && id < |s.peers| && s.loops[s.peers[id].loop].phase.Dispatching?
    ensures var phase := s.loops[s.peers[id].loop].phase;
            && (SlotOf(s, id) == Over <==> id !in phase.active)
            && (id in phase.active ==> id in phase.revents && SlotOf(s, id) == Due(phase.revents[id]))
  {
    var phase := s.loops[s.peers[id].loop].phase;
    assert LoopOk(s, s.peers[id].loop) && ActiveOk(s, s.peers[id].loop, phase.active, phase.revents);
  }

  /** From the drain to the batch of the shutdownInLoop. */
  lemma {:induction false} DispatchTwice(cfg: C.Config, s: Server, id: nat)
    requires Inv(s) && id < |s.peers| && s.loops[s.peers[id].loop].phase.Dispatching? && Quiet(s.peers[id].conn)
    requires RawShutdown(id) in WaitOf(s, id).pending && WaitOf(s, id).slot == Over
    ensures CanTwice(cfg, s, id)
    decreases |s.loops[s.peers[id].loop].phase.active|
  {
    hide CanTwice, PeersOk, OwnFds;
    var l := s.peers[id].loop;
    OverIsAbsent(s, id);
    if s.loops[l].phase.active == [] {
      var step := StartBatch(l);
      assert LoopOk(s, l) && Enabled(s, step);
      NextKeepsInv(cfg, s, step);
      PhaseWait(cfg, s, step, id);
      BatchTwice(cfg, Next(cfg, s, step), id);
      TwiceBefore(cfg, s, step, id);
    } else {
      SkipHead(cfg, s, id);
      DispatchTwice(cfg, Next(cfg, s, Noop(l)), id);
      TwiceBefore(cfg, s, Noop(l), id);
    }
  }

  // The event in which the kernel takes all unsent output.
  function Drain(l: nat, c: C.Conn): Step { Event(l, B.ReadFailed(B.EOTHER), [], B.Room(|c.output|)) }

  lemma DrainConn(cfg: C.Config, c: C.Conn, mask: P.Mask)
    requires Loaded(c) && C.Writing(c) && P.Out in mask && !C.HangsUp(mask)
    ensures var d := C.Dispatch(cfg, c, mask, B.ReadFailed(B.EOTHER), [], B.Room(|c.output|));
            Quiet(d)
  {
    C.WritingIsOut(c);
    C.WritingIsOut(C.HandleWrite(cfg, c, B.Room(|c.output|)));
    assert c.output[|c.output|..] == [];
  }

  // It comes at the head of the active list.
  lemma DrainHead(cfg: C.Config, s: Server, id: nat)
    requires Inv(s) && id < |s.peers| && Loaded(s.peers[id].conn)
    requires var phase := s.loops[s.peers[id].loop].phase; phase.Dispatching? && phase.active != [] && phase.active[0] == id
    requires WaitOf(s, id).slot.MayDrain()
    ensures var l, c := s.peers[id].loop, s.peers[id].conn;
            var step := Drain(l, c);
            Enabled(s, step) && var r := Next(cfg, s, step);
            var d := r.peers[id].conn;
            && Inv(r) && r.peers[id].loop == l && r.loops[l].phase.Dispatching? && WaitOf(r, id).slot == Over
            && Quiet(d)
            && WaitOf(s, id).pending <= WaitOf(r, id).pending
  {
    hide C.Dispatch, PeersOk, LoopsOk, OwnFds;
    var l, c := s.peers[id].loop, s.peers[id].conn;
    var step := Drain(l, c);
    InvIsSane(s, id);
    SaneWriting(WaitOf(s, id), id);
    TakenWait(s, l, id);
    DrainConn(cfg, c, s.loops[l].phase.Head());
    NextKeepsInv(cfg, s, step);
    EventWait(cfg, s, step, id);
    EventShape(cfg, s, step, id);
  }

  /** A dispatch of a connection with unsent output while its shutdownInLoop waits. */
  lemma {:induction false} DrainTwice(cfg: C.Config, s: Server, id: nat)
    requires Inv(s) && id < |s.peers| && Loaded(s.peers[id].conn) && s.loops[s.peers[id].loop].phase.Dispatching?
    requires RawShutdown(id) in WaitOf(s, id).pending && WaitOf(s, id).slot.MayDrain()
    ensures CanTwice(cfg, s, id)
    decreases |s.loops[s.peers[id].loop].phase.active|
  {
    hide CanTwice, PeersOk, LoopsOk, OwnFds;
    var l := s.peers[id].loop;
    OverIsAbsent(s, id);
    if s.loops[l].phase.active[0] == id {
      var step := Drain(l, s.peers[id].conn);
      DrainHead(cfg, s, id);
      DispatchTwice(cfg, Next(cfg, s, step), id);
      TwiceBefore(cfg, s, step, id);
    } else {
      SkipHead(cfg, s, id);
      DrainTwice(cfg, Next(cfg, s, Noop(l)), id);
      TwiceBefore(cfg, s, Noop(l), id);
    }
  }

  // The poll that reports a connection with unsent output.
  function PollIt(l: nat, id: nat): Step { Poll(l, [id], map[id := {P.Out}]) }

  lemma PollsIt(cfg: C.Config, s: Server, id: nat)
    requires Inv(s) && id < |s.peers| && s.peers[id].conn.state == C.Disconnecting && s.peers[id].conn.output != []
    requires s.loops[s.peers[id].loop].phase == Polling
    ensures var l := s.peers[id].loop;
            Enabled(s, PollIt(l, id)) && var r := Next(cfg, s, PollIt(l, id));
            && Inv(r) && r.peers == s.peers && r.loops[l].phase.Dispatching? && WaitOf(r, id).slot.MayDrain()
            && WaitOf(r, id).todo == WaitOf(s, id).todo && WaitOf(r, id).pending == WaitOf(s, id).pending
  {
    hide PeersOk, LoopsOk, OwnFds, Sane, C.Sound, Io;
    var step := PollIt(s.peers[id].loop, id);
    PollItEnabled(s, id);
    NextKeepsInv(cfg, s, step);
    PhaseWait(cfg, s, step, id);
    ConnOfWait(Next(cfg, s, step), id);
  }

  lemma PollItEnabled(s: Server, id: nat)
    requires Inv(s) && id < |s.peers| && s.peers[id].conn.state == C.Disconnecting && s.peers[id].conn.output != []
    requires s.loops[s.peers[id].loop].phase == Polling
    ensures Enabled(s, PollIt(s.peers[id].loop, id))
  {
    hide PeersOk, LoopsOk, OwnFds;
    InvIsSane(s, id);
    SaneWriting(WaitOf(s, id), id);
    WritingIsWatched(WaitOf(s, id), id);
  }

  lemma WritingIsWatched(w: Wait, id: nat)
    requires Sane(w, id) && w.conn.state == C.Disconnecting && w.conn.output != []
    ensures w.conn.reg.kernel.Some? && P.Out in w.conn.reg.kernel.value
  {
    C.WritingIsOut(w.conn);
  }

  lemma PollTwice(cfg: C.Config, s: Server, id: nat)
    requires Inv(s) && id < |s.peers| && Loaded(s.peers[id].conn)
    requires s.loops[s.peers[id].loop].phase == Polling && RawShutdown(id) in WaitOf(s, id).pending
    ensures CanTwice(cfg, s, id)
  {
    hide CanTwice, PeersOk, LoopsOk, OwnFds, Next, Enabled;
    var step := PollIt(s.peers[id].loop, id);
    PollsIt(cfg, s, id);
    DrainTwice(cfg, Next(cfg, s, step), id);
    TwiceBefore(cfg, s, step, id);
  }

  // One functor of the batch, with room for nothing.
  function RunStingily(s: Server, id: nat): Step
    requires WellFormed(s) && id < |s.peers|
  {
    RunOne(s.peers[id].loop, [], B.Room(0))
  }

  // What is to be sent, now or by the rest of the batch, stays to be sent.
  predicate Unsent(w: Wait) { w.conn.output != [] || !NoBytes(w.todo) }

  lemma StingyRun(cfg: C.Config, s: Server, id: nat)
    requires Inv(s) && id < |s.peers| && s.loops[s.peers[id].loop].phase == Running
    requires s.loops[s.peers[id].loop].queue.todo != []
    requires s.peers[id].conn.state == C.Disconnecting && s.peers[id].conn.fins == []
    requires RawShutdown(id) !in WaitOf(s, id).todo
    ensures Enabled(s, RunStingily(s, id))
    ensures var l, r := s.peers[id].loop, Next(cfg, s, RunStingily(s, id));
            var w, v := WaitOf(s, id), WaitOf(r, id);
            && Inv(r) && r.peers[id].loop == l && r.loops[l].phase == Running
            && |r.loops[l].queue.todo| < |s.loops[l].queue.todo|
            && v.conn.state == C.Disconnecting && v.conn.fins == w.conn.fins && RawShutdown(id) !in v.todo
            && w.pending <= v.pending && (Unsent(w) ==> Unsent(v)) && (w.conn.output != [] ==> v.conn.output != [])
  {
    hide Runs, PeersOk, LoopsOk, OwnFds, Unsent;
    var l, step := s.peers[id].loop, RunStingily(s, id);
    RunEnabled(s, l, [], B.Room(0));
    NextKeepsInv(cfg, s, step);
    RunShape(cfg, s, step);
    RunWait(cfg, s, step, id);
    if Mine(s.loops[l].queue.todo[0], id) { LoadRuns(cfg, step, id, s, WaitOf(s, id), WaitOf(Next(cfg, s, step), id)); }
    assert Unsent(WaitOf(s, id)) ==> Unsent(WaitOf(Next(cfg, s, step), id)) by {
      if !Mine(s.loops[l].queue.todo[0], id) { UnsentSame(WaitOf(s, id), WaitOf(Next(cfg, s, step), id)); }
    }
  }

  lemma UnsentSame(w: Wait, v: Wait)
    requires v.conn == w.conn && v.todo == w.todo
    ensures Unsent(w) <==> Unsent(v)
  {
  }

  lemma LoadRuns(cfg: C.Config, step: Step, id: nat, s: Server, w: Wait, v: Wait)
    requires Inv(s) && id < |s.peers| && w == WaitOf(s, id) && Runs(cfg, step, id, w, v) && step.w == B.Room(0)
    requires w.conn.state == C.Disconnecting && w.conn.fins == [] && RawShutdown(id) !in w.todo
    ensures v.conn.state == C.Disconnecting && v.conn.fins == w.conn.fins && RawShutdown(id) !in v.todo
    ensures v.pending == w.pending && (Unsent(w) ==> Unsent(v)) && (w.conn.output != [] ==> v.conn.output != [])
  {
    InvIsSane(s, id);
    HeadFits(w, id);
    var f := w.todo[0];
    assert w.todo == [f] + v.todo && f in w.todo;
    if f.RawSend? { StingySend(cfg, w.conn, f.data); }
    assert forall g :: g in w.todo ==> g == f || g in v.todo;
  }

  lemma BatchEnds(cfg: C.Config, s: Server, id: nat)
    requires Inv(s) && id < |s.peers| && s.loops[s.peers[id].loop].phase == Running
    requires s.loops[s.peers[id].loop].queue.todo == []
    ensures var l := s.peers[id].loop;
            Enabled(s, FinishBatch(l)) && var r := Next(cfg, s, FinishBatch(l));
            Inv(r) && r.peers == s.peers && r.loops[l].phase == Polling && WaitOf(r, id) == WaitOf(s, id)
            && WaitOf(s, id).todo == []
  {
    hide PeersOk, LoopsOk, OwnFds;
    var step := FinishBatch(s.peers[id].loop);
    NextKeepsInv(cfg, s, step);
    PhaseWait(cfg, s, step, id);
  }

  /** The rest of the batch at the call: what it still sends stays unsent. */
  lemma {:induction false} RestTwice(cfg: C.Config, s: Server, id: nat)
    requires Inv(s) && id < |s.peers| && s.loops[s.peers[id].loop].phase == Running
    requires var c := s.peers[id].conn; c.state == C.Disconnecting && c.fins == []
    requires var w := WaitOf(s, id); RawShutdown(id) in w.pending && RawShutdown(id) !in w.todo && Unsent(w)
    ensures CanTwice(cfg, s, id)
    decreases |s.loops[s.peers[id].loop].queue.todo|
  {
    hide CanTwice, PeersOk, LoopsOk, OwnFds;
    var l := s.peers[id].loop;
    if s.loops[l].queue.todo == [] {
      BatchEnds(cfg, s, id);
      PollTwice(cfg, Next(cfg, s, FinishBatch(l)), id);
      TwiceBefore(cfg, s, FinishBatch(l), id);
    } else {
      hide Unsent;
      StingyRun(cfg, s, id);
      RestTwice(cfg, Next(cfg, s, RunStingily(s, id)), id);
      TwiceBefore(cfg, s, RunStingily(s, id), id);
    }
  }

  // ------------------------------------------------------------- the result

  lemma UpIsOrderly(s: Server, id: nat)
    requires WellFormed(s) && AllOrderly(s) && id < |s.peers| && s.peers[id].conn.state == C.Connected
    ensures s.peers[id].conn.fins == [] && RawShutdown(id) !in WaitOf(s, id).All()
  {
    assert Orderly(WaitOf(s, id), id);
  }

  /** The state right after a shutdown on another thread. */
  lemma AfterShutdown(cfg: C.Config, s: Server, id: nat)
    requires Inv(s) && AllOrderly(s) && id < |s.peers| && s.peers[id].conn.state == C.Connected
    requires Enabled(s, CrossShutdown(id))
    ensures var r, w := Next(cfg, s, CrossShutdown(id)), WaitOf(s, id);
            && Inv(r) && AllOrderly(r)
            && WaitOf(r, id) == w.(conn := w.conn.(state := C.Disconnecting), pending := w.pending + [RawShutdown(id)])
            && r.peers[id].loop == s.peers[id].loop
            && r.loops[s.peers[id].loop].phase == s.loops[s.peers[id].loop].phase
            && w.conn.fins == [] && RawShutdown(id) !in w.All()
  {
    hide PeersOk, LoopsOk, OwnFds, WaitOf, AllOrderly;
    NextKeepsInv(cfg, s, CrossShutdown(id));
    NextKeepsOrder(cfg, s, CrossShutdown(id));
    UpIsOrderly(s, id);
    ConnOfWait(s, id);
    var t := SetConn(s, id, s.peers[id].conn.(state := C.Disconnecting));
    SetConnWait(s, id, t.peers[id].conn, id);
    PushWait(t, s.peers[id].loop, RawShutdown(id), id);
  }

  lemma TwiceFromCall(cfg: C.Config, s: Server, id: nat)
    requires Inv(s) && AllOrderly(s) && id < |s.peers| && s.peers[id].conn.state == C.Connected
    requires Enabled(s, CrossShutdown(id)) && MayDrainFirst(s, id)
    ensures CanTwice(cfg, Next(cfg, s, CrossShutdown(id)), id)
  {
    AfterShutdown(cfg, s, id);
    DrainsFirst(s, id);
    assert Unsent(WaitOf(s, id));
    var r := Next(cfg, s, CrossShutdown(id));
    var w := WaitOf(r, id);
    assert w.pending[|w.pending| - 1] == RawShutdown(id);
    match s.loops[s.peers[id].loop].phase
    case Running => RestTwice(cfg, r, id);
    case Polling =>
      assert LoopOk(s, s.peers[id].loop);
      PollTwice(cfg, r, id);
    case Dispatching(_, _) =>
      assert LoopOk(s, s.peers[id].loop);
      DrainTwice(cfg, r, id);
  }

  /** SHUT_WR is issued at most once, in every continuation. */
  ghost predicate ShutsOnce(cfg: C.Config, s: Server, id: nat)
    requires WellFormed(s) && id < |s.peers|
  {
    forall steps :: LegalRun(cfg, s, steps) ==> |Run(cfg, s, steps).peers[id].conn.fins| <= 1
  }

  /** From where it is down and none will come twice. */
  lemma OnceFromHere(cfg: C.Config, s: Server, id: nat)
    requires Inv(s) && AllOrderly(s) && id < |s.peers| && Down(s.peers[id].conn) && AtMostOnce(WaitOf(s, id), id)
    ensures ShutsOnce(cfg, s, id)
  {
    forall steps | LegalRun(cfg, s, steps) ensures |Run(cfg, s, steps).peers[id].conn.fins| <= 1 {
      DownIsSafe(cfg, s, steps, id);
      RunKeepsOnce(cfg, s, steps, id);
    }
  }

  lemma OnceFromCall(cfg: C.Config, s: Server, id: nat)
    requires Inv(s) && AllOrderly(s) && id < |s.peers| && s.peers[id].conn.state == C.Connected
    requires Enabled(s, CrossShutdown(id)) && !MayDrainFirst(s, id)
    ensures ShutsOnce(cfg, Next(cfg, s, CrossShutdown(id)), id)
  {
    hide ShutsOnce, WaitOf, Next;
    AfterShutdown(cfg, s, id);
    DrainsFirst(s, id);
    var r := Next(cfg, s, CrossShutdown(id));
    ConnOfWait(r, id);
    assert AtMostOnce(WaitOf(r, id), id);
    OnceFromHere(cfg, r, id);
  }

  lemma TwiceIsNotOnce(cfg: C.Config, s: Server, id: nat)
    requires WellFormed(s) && id < |s.peers|
    ensures CanTwice(cfg, s, id) <==> !ShutsOnce(cfg, s, id)
  {
  }

  /** In every reachable state, a shutdown called on another thread issues SHUT_WR at most
      once in every continuation, whatever all loops, threads and the kernel then do,
      exactly when no event may drain the connection before its queued half runs. */
  lemma CrossShutdownOnceExactly(cfg: C.Config, loops: nat, before: seq<Step>, id: nat)
    requires 1 <= loops && LegalRun(cfg, Initial(loops), before)
    requires var s := Run(cfg, Initial(loops), before);
             id < |s.peers| && s.peers[id].conn.state == C.Connected && Enabled(s, CrossShutdown(id))
    ensures var s := Run(cfg, Initial(loops), before);
            ShutsOnce(cfg, Next(cfg, s, CrossShutdown(id)), id) <==> !MayDrainFirst(s, id)
  {
    hide ShutsOnce, CanTwice, MayDrainFirst;
    StartsWell(loops);
    RunKeepsOrder(cfg, Initial(loops), before);
    var s := Run(cfg, Initial(loops), before);
    if MayDrainFirst(s, id) {
      TwiceFromCall(cfg, s, id);
      TwiceIsNotOnce(cfg, Next(cfg, s, CrossShutdown(id)), id);
    } else {
      OnceFromCall(cfg, s, id);
    }
  }

  // ------------------------------------------------------------- two runs

  const PLAIN := C.Config(false, false, 1)
  const IDLE := Dispatching([], map[])

  // One connection on the main loop, nothing of it queued but `todo` and `pending`.
  function Served(phase: Phase, todo: seq<Functor>, pending: seq<Functor>, c: C.Conn): Server {
    Server([Loop(phase, Queue([], todo, pending))], [Peer(MAIN, 5, c, 0, 0, true, 0)], {0})
  }

  lemma AcceptedUp()
    ensures C.ConnectEstablished(PLAIN, C.NEW_CONN, []) == C.UP
  {
    assert {} + P.READ_EVENT == {P.In, P.Pri};
  }

  lemma AcceptSteps()
    ensures var s1 := SetPhase(Initial(1), MAIN, IDLE);
            && Enabled(Initial(1), Poll(MAIN, [], map[])) && Next(PLAIN, Initial(1), Poll(MAIN, [], map[])) == s1
            && Enabled(s1, Accept(MAIN, 5, [])) && Next(PLAIN, s1, Accept(MAIN, 5, [])) == Served(IDLE, [], [], C.UP)
  {
    hide C.ConnectEstablished;
    AcceptedUp();
    var s1 := SetPhase(Initial(1), MAIN, IDLE);
    assert s1.loops == [Loop(IDLE, Queue([], [], []))];
    assert Next(PLAIN, s1, Accept(MAIN, 5, [])).peers == [Peer(MAIN, 5, C.UP, 0, 0, true, 0)];
  }

  lemma RunFirst(cfg: C.Config, s: Server, step: Step, rest: seq<Step>)
    requires WellFormed(s) && Enabled(s, step) && LegalRun(cfg, Next(cfg, s, step), rest)
    ensures LegalRun(cfg, s, [step] + rest) && Run(cfg, s, [step] + rest) == Run(cfg, Next(cfg, s, step), rest)
  {
    assert ([step] + rest)[0] == step && ([step] + rest)[1..] == rest;
  }

  // The run that accepts the connection, and then `rest`.
  lemma AfterAccept(rest: seq<Step>)
    requires LegalRun(PLAIN, Served(IDLE, [], [], C.UP), rest)
    ensures var steps := [Poll(MAIN, [], map[])] + ([Accept(MAIN, 5, [])] + rest);
            LegalRun(PLAIN, Initial(1), steps) && Run(PLAIN, Initial(1), steps) == Run(PLAIN, Served(IDLE, [], [], C.UP), rest)
  {
    hide Next, Enabled;
    AcceptSteps();
    var s1 := SetPhase(Initial(1), MAIN, IDLE);
    RunFirst(PLAIN, s1, Accept(MAIN, 5, []), rest);
    RunFirst(PLAIN, Initial(1), Poll(MAIN, [], map[]), [Accept(MAIN, 5, [])] + rest);
  }

  // A send of one byte from another thread is in the batch that is running.
  const QUEUED := [Poll(MAIN, [], map[])] + ([Accept(MAIN, 5, [])] + ([CrossSend(0, [7])] + ([StartBatch(MAIN)] + [])))

  lemma SendSteps()
    ensures var s2, s3 := Served(IDLE, [], [], C.UP), Served(IDLE, [], [RawSend(0, [7])], C.UP);
            && Enabled(s2, CrossSend(0, [7])) && Next(PLAIN, s2, CrossSend(0, [7])) == s3
            && Enabled(s3, StartBatch(MAIN)) && Next(PLAIN, s3, StartBatch(MAIN)) == Served(Running, [RawSend(0, [7])], [], C.UP)
  {
    assert [] + [RawSend(0, [7])] == [RawSend(0, [7])];
  }

  lemma RunOfQueued()
    ensures LegalRun(PLAIN, Initial(1), QUEUED)
    ensures Run(PLAIN, Initial(1), QUEUED) == Served(Running, [RawSend(0, [7])], [], C.UP)
  {
    hide Next, Enabled;
    SendSteps();
    var s2, s3 := Served(IDLE, [], [], C.UP), Served(IDLE, [], [RawSend(0, [7])], C.UP);
    assert LegalRun(PLAIN, Served(Running, [RawSend(0, [7])], [], C.UP), []);
    RunFirst(PLAIN, s3, StartBatch(MAIN), []);
    RunFirst(PLAIN, s2, CrossSend(0, [7]), [StartBatch(MAIN)] + []);
    AfterAccept([CrossSend(0, [7])] + ([StartBatch(MAIN)] + []));
  }

  /** With nothing unsent at the call, a send queued by another thread is enough. */
  lemma QueuedSendRepeats()
    ensures LegalRun(PLAIN, Initial(1), QUEUED)
    ensures var s := Run(PLAIN, Initial(1), QUEUED);
            && 0 < |s.peers| && s.peers[0].conn.state == C.Connected && s.peers[0].conn.output == []
            && Enabled(s, CrossShutdown(0)) && !ShutsOnce(PLAIN, Next(PLAIN, s, CrossShutdown(0)), 0)
  {
    hide Next, ShutsOnce, LegalRun, Run;
    RunOfQueued();
    var s := Served(Running, [RawSend(0, [7])], [], C.UP);
    assert RawSend(0, [7]) in s.loops[MAIN].queue.todo;
    CrossShutdownOnceExactly(PLAIN, 1, QUEUED, 0);
  }

  // A round whose poll found the connection readable, in which another channel's handler
  // sends a byte that the socket does not take.
  const READABLE := Dispatching([0], map[0 := {P.In}])
  const UNSENT := App(0, C.Send([7], B.Room(0)))
  const STALE := [Poll(MAIN, [], map[])] + ([Accept(MAIN, 5, [])] + ([StartBatch(MAIN)] + ([FinishBatch(MAIN)]
                 + ([Poll(MAIN, [0], map[0 := {P.In}])] + ([UNSENT] + [])))))

  lemma BatchSteps()
    ensures var s2, s3, s4 := Served(IDLE, [], [], C.UP), Served(Running, [], [], C.UP), Served(Polling, [], [], C.UP);
            && Enabled(s2, StartBatch(MAIN)) && Next(PLAIN, s2, StartBatch(MAIN)) == s3
            && Enabled(s3, FinishBatch(MAIN)) && Next(PLAIN, s3, FinishBatch(MAIN)) == s4
  {
  }

  lemma RoundSteps()
    ensures var s4, s5 := Served(Polling, [], [], C.UP), Served(READABLE, [], [], C.UP);
            var poll := Poll(MAIN, [0], map[0 := {P.In}]);
            && Enabled(s4, poll) && Next(PLAIN, s4, poll) == s5
            && Enabled(s5, UNSENT) && Next(PLAIN, s5, UNSENT) == Served(READABLE, [], [], C.STUCK)
  {
    C.FirstHalf();
    assert P.In in {P.In};
  }

  lemma RunOfStale()
    ensures LegalRun(PLAIN, Initial(1), STALE)
    ensures Run(PLAIN, Initial(1), STALE) == Served(READABLE, [], [], C.STUCK)
  {
    hide Next, Enabled;
    BatchSteps();
    RoundSteps();
    var poll := Poll(MAIN, [0], map[0 := {P.In}]);
    assert LegalRun(PLAIN, Served(READABLE, [], [], C.STUCK), []);
    RunFirst(PLAIN, Served(READABLE, [], [], C.UP), UNSENT, []);
    RunFirst(PLAIN, Served(Polling, [], [], C.UP), poll, [UNSENT] + []);
    RunFirst(PLAIN, Served(Running, [], [], C.UP), FinishBatch(MAIN), [poll] + ([UNSENT] + []));
    RunFirst(PLAIN, Served(IDLE, [], [], C.UP), StartBatch(MAIN), [FinishBatch(MAIN)] + ([poll] + ([UNSENT] + [])));
    AfterAccept([StartBatch(MAIN)] + ([FinishBatch(MAIN)] + ([poll] + ([UNSENT] + []))));
  }

  /** Unsent output is not enough: the round stored no EPOLLOUT, so no drain comes before
      the queued half, although an event is still to be dispatched. */
  lemma StaleMaskIsHarmless()
    ensures LegalRun(PLAIN, Initial(1), STALE)
    ensures var s := Run(PLAIN, Initial(1), STALE);
            && 0 < |s.peers| && s.peers[0].conn.state == C.Connected && s.peers[0].conn.output != []
            && s.loops[MAIN].phase == READABLE
            && Enabled(s, CrossShutdown(0)) && ShutsOnce(PLAIN, Next(PLAIN, s, CrossShutdown(0)), 0)
  {
    hide Next, ShutsOnce, LegalRun, Run;
    RunOfStale();
    CrossShutdownOnceExactly(PLAIN, 1, STALE, 0);
  }
}
