/**
  The half-close of a server's connections, whoever sends and whoever calls shutdown
  (src/net/Connection.cc:42-134, 187-201).
 */
module ServerHalfClose {
  import opened ServerModel
  import opened ServerSafety
  import opened ServerTheorems
  import opened ServerShutdown
  import P = Poller
  import B = ByteBuffer
  import C = ConnectionModel

  // ---------------------------------------------------- at most one SHUT_WR

  lemma UpIsOnce(s: Server, id: nat)
    requires WellFormed(s) && AllOrderly(s) && id < |s.peers| && !Down(s.peers[id].conn)
    ensures AtMostOnce(WaitOf(s, id), id)
  {
    assert Orderly(WaitOf(s, id), id);
  }

  /** A shutdown called on the loop thread issues SHUT_WR at most once in every
      continuation, whatever is queued and whoever else sends. */
  lemma LoopShutdownOnce(cfg: C.Config, loops: nat, before: seq<Step>, id: nat)
    requires 1 <= loops && LegalRun(cfg, Initial(loops), before)
    requires var s := Run(cfg, Initial(loops), before);
             id < |s.peers| && s.peers[id].conn.state == C.Connected && Enabled(s, App(id, C.Shutdown))
    ensures ShutsOnce(cfg, Next(cfg, Run(cfg, Initial(loops), before), App(id, C.Shutdown)), id)
  {
    hide ShutsOnce, WaitOf, AtMostOnce;
    StartsWell(loops);
    RunKeepsOrder(cfg, Initial(loops), before);
    var s := Run(cfg, Initial(loops), before);
    var step := App(id, C.Shutdown);
    UpIsOnce(s, id);
    NextKeepsOnce(cfg, s, step, id);
    NextKeepsInv(cfg, s, step);
    NextKeepsOrder(cfg, s, step);
    OnceFromHere(cfg, Next(cfg, s, step), id);
  }

  predicate OnceIfMade(s: Server, id: nat)
    requires WellFormed(s)
  {
    id < |s.peers| ==> AtMostOnce(WaitOf(s, id), id)
  }

  lemma NewIsOnce(cfg: C.Config, s: Server, step: Step)
    requires Inv(s) && AllOrderly(s) && step.Accept? && Enabled(s, step)
    ensures AtMostOnce(WaitOf(Next(cfg, s, step), |s.peers|), |s.peers|)
  {
    hide WaitOf, C.ConnectEstablished, PeersOk, LoopsOk, OwnFds;
    var id := |s.peers|;
    var m := Made(s, step.l, step.fd);
    MadeWait(s, step.l, step.fd);
    if step.l == MAIN {
      SetConnWait(m, id, C.ConnectEstablished(cfg, C.NEW_CONN, step.calls), id);
      EstablishedClean(cfg, step.calls);
    } else {
      PushWait(m, step.l, Establish(id), id);
    }
  }

  lemma EstablishedClean(cfg: C.Config, calls: seq<C.AppCall>)
    ensures Clean(C.ConnectEstablished(cfg, C.NEW_CONN, calls))
  {
    CallsClean(cfg, C.BroughtUp(C.NEW_CONN), calls);
  }

  lemma {:induction false} RunKeepsOnceIfMade(cfg: C.Config, s: Server, steps: seq<Step>, id: nat)
    requires Inv(s) && AllOrderly(s) && LegalRun(cfg, s, steps) && OnceIfMade(s, id) && SafeCalls(cfg, s, steps, id)
    ensures OnceIfMade(Run(cfg, s, steps), id)
    decreases |steps|
  {
    if steps != [] {
      hide WaitOf, AtMostOnce, SafeStep;
      var n := Next(cfg, s, steps[0]);
      if id < |s.peers| { NextKeepsOnce(cfg, s, steps[0], id); }
      if steps[0].Accept? && id == |s.peers| { NewIsOnce(cfg, s, steps[0]); }
      OneMade(cfg, s, steps[0]);
      NextKeepsInv(cfg, s, steps[0]);
      NextKeepsOrder(cfg, s, steps[0]);
      RunKeepsOnceIfMade(cfg, n, steps[1..], id);
    }
  }

  lemma OneMade(cfg: C.Config, s: Server, step: Step)
    requires Inv(s) && Enabled(s, step)
    ensures |Next(cfg, s, step).peers| == |s.peers| + if step.Accept? then 1 else 0
  {
  }

  /** Over a whole run SHUT_WR is issued at most once on a connection, if no other thread
      shuts it down where a drain may get in first. */
  lemma RunShutsOnce(cfg: C.Config, loops: nat, steps: seq<Step>, id: nat)
    requires 1 <= loops && LegalRun(cfg, Initial(loops), steps) && SafeCalls(cfg, Initial(loops), steps, id)
    requires id < |Run(cfg, Initial(loops), steps).peers|
    ensures |Run(cfg, Initial(loops), steps).peers[id].conn.fins| <= 1
  {
    StartsWell(loops);
    RunKeepsOnceIfMade(cfg, Initial(loops), steps, id);
  }

  // --------------------------------------------------- nothing is sent after it

  /** After SHUT_WR the channel does not write, and every SHUT_WR saw the whole wire. */
  predicate Settled(c: C.Conn) {
    (c.fins != [] ==> Down(c) && !C.Writing(c)) && forall i :: 0 <= i < |c.fins| ==> c.fins[i] == c.wire
  }

  // What a step leaves of a connection that has issued SHUT_WR.
  predicate Stays(c: C.Conn, d: C.Conn) { Settled(d) && (c.fins != [] ==> d.fins != [] && d.wire == c.wire) }

  lemma CallSettles(cfg: C.Config, c: C.Conn, call: C.AppCall)
    requires Settled(c)
    ensures Stays(c, C.DoCall(cfg, c, call))
  {
    hide C.SendInLoop, C.Writing;
    if Down(c) {
      CallRefused(cfg, c, call);
    } else if call.Send? {
      C.SendEffect(cfg, c, call.data, call.w);
    } else if call.Shutdown? {
      ShutdownOnce(c.(state := C.Disconnecting));
    }
  }

  lemma {:induction false} CallsSettle(cfg: C.Config, c: C.Conn, calls: seq<C.AppCall>)
    requires Settled(c)
    ensures Stays(c, C.DoCalls(cfg, c, calls))
  {
    if calls != [] {
      hide C.DoCall, Settled;
      CallsSettle(cfg, c, calls[..|calls| - 1]);
      CallSettles(cfg, C.DoCalls(cfg, c, calls[..|calls| - 1]), calls[|calls| - 1]);
    }
  }

  lemma WriteSettles(cfg: C.Config, c: C.Conn, w: B.WriteResult)
    requires Settled(c)
    ensures Stays(c, C.HandleWrite(cfg, c, w))
  {
    C.WritingIsOut(c);
    C.WritingIsOut(C.HandleWrite(cfg, c, w));
  }

  lemma CloseSettles(c: C.Conn)
    requires Settled(c)
    ensures Stays(c, C.HandleClose(c))
  {
    CloseDrains(c);
  }

  lemma InputSettles(c: C.Conn, input: C.Bytes)
    requires Settled(c)
    ensures Stays(c, c.(input := input))
  {
    SameRegSameWriting(c.(input := input), c);
  }

  lemma DispatchSettles(cfg: C.Config, c: C.Conn, mask: P.Mask, r: B.ReadResult, calls: seq<C.AppCall>, w: B.WriteResult)
    requires Settled(c)
    ensures Stays(c, C.Dispatch(cfg, c, mask, r, calls, w))
  {
    hide C.DoCalls, C.HandleWrite, C.HandleClose, Settled;
    CloseSettles(c);
    var d := if C.HangsUp(mask) then C.HandleClose(c) else c;
    CloseSettles(d);
    if r.Got? {
      InputSettles(d, d.input + r.bytes);
      CallsSettle(cfg, d.(input := d.input + r.bytes), calls);
    }
    WriteSettles(cfg, C.CloseThenRead(cfg, c, mask, r, calls), w);
  }

  lemma SendSettles(cfg: C.Config, w: Wait, id: nat, data: C.Bytes, answer: B.WriteResult)
    requires Sane(w, id) && Settled(w.conn)
    ensures Stays(w.conn, C.SendInLoop(cfg, w.conn, data, answer))
  {
    var c := w.conn;
    C.WritingIsOut(c);
    C.SendEffect(cfg, c, data, answer);
    assert c.wire + data[..0] == c.wire;
  }

  lemma RunsSettle(cfg: C.Config, step: Step, id: nat, w: Wait, v: Wait)
    requires Sane(w, id) && Orderly(w, id) && Settled(w.conn) && Runs(cfg, step, id, w, v)
    ensures Stays(w.conn, v.conn)
  {
    hide C.SendInLoop, C.Writing, P.Apply;
    HeadFits(w, id);
    var c := w.conn;
    match w.todo[0]
    case Establish(_) =>
      assert Settled(C.BroughtUp(c));
      CallsSettle(cfg, C.BroughtUp(c), step.calls);
    case RawSend(_, data) => SendSettles(cfg, w, id, data, step.w);
    case RawShutdown(_) =>
      assert w.All()[0] == RawShutdown(id);
      ShutdownSettles(c);
    case Destroy(_) => DestroySettles(c);
    case _ =>
  }

  lemma ShutdownSettles(c: C.Conn)
    requires Settled(c) && Down(c)
    ensures Stays(c, C.ShutdownInLoop(c))
  {
  }

  lemma DestroySettles(c: C.Conn)
    requires Settled(c) && c.state == C.Disconnected
    ensures Stays(c, C.ConnectDestroyed(c))
  {
    DestroyIsQuiet(c);
  }

  predicate AllSettled(s: Server) { forall id :: 0 <= id < |s.peers| ==> Settled(s.peers[id].conn) }

  lemma MovedSettles(cfg: C.Config, step: Step, id: nat, w: Wait, v: Wait)
    requires Sane(w, id) && Orderly(w, id) && Settled(w.conn) && Moved(cfg, step, id, w, v)
    ensures Stays(w.conn, v.conn)
  {
    hide Runs, Sane, C.Dispatch, C.DoCall, C.Writing;
    if Dispatches(cfg, step, id, w, v) {
      DispatchSettles(cfg, w.conn, w.slot.mask, step.r, step.calls, step.w);
    } else if Runs(cfg, step, id, w, v) {
      RunsSettle(cfg, step, id, w, v);
    } else if Queues(step, id, w, v) {
      SameRegSameWriting(v.conn, w.conn);
    } else if step.App? {
      CallSettles(cfg, w.conn, step.call);
    }
  }

  lemma NextSettles(cfg: C.Config, s: Server, step: Step, id: nat)
    requires Inv(s) && AllOrderly(s) && AllSettled(s) && Enabled(s, step) && id < |s.peers|
    ensures Stays(s.peers[id].conn, Next(cfg, s, step).peers[id].conn)
  {
    hide Moved, WaitOf, Settled, Next, Enabled;
    var r := Next(cfg, s, step);
    StepWait(cfg, s, step, id);
    InvIsSane(s, id);
    ConnOfWait(s, id);
    ConnOfWait(r, id);
    MovedSettles(cfg, step, id, WaitOf(s, id), WaitOf(r, id));
  }

  lemma NewIsSettled(cfg: C.Config, s: Server, step: Step)
    requires Inv(s) && step.Accept? && Enabled(s, step)
    ensures Settled(Next(cfg, s, step).peers[|s.peers|].conn)
  {
    CallsSettle(cfg, C.BroughtUp(C.NEW_CONN), step.calls);
  }

  lemma {:induction false} RunSettles(cfg: C.Config, s: Server, steps: seq<Step>)
    requires Inv(s) && AllOrderly(s) && AllSettled(s) && LegalRun(cfg, s, steps)
    ensures AllSettled(Run(cfg, s, steps))
    ensures forall id :: 0 <= id < |s.peers| ==> Stays(s.peers[id].conn, Run(cfg, s, steps).peers[id].conn)
    decreases |steps|
  {
    hide Settled;
    if steps != [] {
      var n := Next(cfg, s, steps[0]);
      forall id | 0 <= id < |n.peers| ensures Settled(n.peers[id].conn) {
        if id < |s.peers| { NextSettles(cfg, s, steps[0], id); } else { NewIsSettled(cfg, s, steps[0]); }
      }
      forall id | 0 <= id < |s.peers| ensures Stays(s.peers[id].conn, n.peers[id].conn) {
        NextSettles(cfg, s, steps[0], id);
      }
      NextKeepsInv(cfg, s, steps[0]);
      NextKeepsOrder(cfg, s, steps[0]);
      RunSettles(cfg, n, steps[1..]);
    }
  }

  /** The half-close is graceful whoever sends: while the connection is open, a SHUT_WR means
      that every byte taken over is on the wire; every SHUT_WR saw that wire, and nothing is
      written later, in any continuation. */
  lemma NothingAfterShutWr(cfg: C.Config, loops: nat, before: seq<Step>, steps: seq<Step>, id: nat)
    requires 1 <= loops && LegalRun(cfg, Initial(loops), before)
    requires var s := Run(cfg, Initial(loops), before);
             LegalRun(cfg, s, steps) && id < |s.peers| && s.peers[id].conn.fins != []
    ensures var s := Run(cfg, Initial(loops), before);
            var c := s.peers[id].conn;
            && (c.state == C.Disconnecting ==> c.output == [] && c.wire == C.Accepted(c.sends))
            && (forall i :: 0 <= i < |c.fins| ==> c.fins[i] == c.wire)
            && Run(cfg, s, steps).peers[id].conn.wire == c.wire
  {
    hide Stays;
    StartsWell(loops);
    RunKeepsOrder(cfg, Initial(loops), before);
    RunSettles(cfg, Initial(loops), before);
    var s := Run(cfg, Initial(loops), before);
    RunSettles(cfg, s, steps);
    StaysOnWire(s.peers[id].conn, Run(cfg, s, steps).peers[id].conn);
    if s.peers[id].conn.state == C.Disconnecting {
      InvIsSane(s, id);
      SaneWriting(WaitOf(s, id), id);
      ConnOfWait(s, id);
      ConnIsSound(s, id);
      assert s.peers[id].conn.wire + [] == s.peers[id].conn.wire;
    }
  }

  lemma StaysOnWire(c: C.Conn, d: C.Conn)
    requires Stays(c, d) && c.fins != []
    ensures d.wire == c.wire
  {
  }

  // ------------------------------------------------ the half-close is promised

  /** Shutting down without SHUT_WR issued, a drain is still to come. */
  predicate Pend(c: C.Conn) { c.state == C.Disconnecting && c.fins == [] ==> C.Writing(c) }

  predicate Promised(w: Wait, id: nat) { RawShutdown(id) !in w.All() ==> Pend(w.conn) }

  lemma CallPends(cfg: C.Config, c: C.Conn, call: C.AppCall)
    requires Pend(c)
    ensures Pend(C.DoCall(cfg, c, call))
  {
    hide C.SendInLoop;
    if call.Send? { C.SendEffect(cfg, c, call.data, call.w); }
  }

  lemma {:induction false} CallsPend(cfg: C.Config, c: C.Conn, calls: seq<C.AppCall>)
    requires Pend(c)
    ensures Pend(C.DoCalls(cfg, c, calls))
  {
    if calls != [] {
      hide C.DoCall, Pend;
      CallsPend(cfg, c, calls[..|calls| - 1]);
      CallPends(cfg, C.DoCalls(cfg, c, calls[..|calls| - 1]), calls[|calls| - 1]);
    }
  }

  lemma WritePends(cfg: C.Config, c: C.Conn, w: B.WriteResult)
    requires Pend(c)
    ensures Pend(C.HandleWrite(cfg, c, w))
  {
    C.WritingIsOut(C.HandleWrite(cfg, c, w));
  }

  lemma DispatchPends(cfg: C.Config, c: C.Conn, revents: P.Mask, r: B.ReadResult, calls: seq<C.AppCall>, w: B.WriteResult)
    requires Pend(c)
    ensures Pend(C.Dispatch(cfg, c, revents, r, calls, w))
  {
    hide C.DoCalls, C.HandleWrite, P.Apply;
    var d := if C.HangsUp(revents) then C.HandleClose(c) else c;
    if r.Got? { CallsPend(cfg, d.(input := d.input + r.bytes), calls); }
    WritePends(cfg, C.CloseThenRead(cfg, c, revents, r, calls), w);
  }

  lemma SendPends(cfg: C.Config, c: C.Conn, data: C.Bytes, w: B.WriteResult)
    requires Pend(c)
    ensures Pend(C.SendInLoop(cfg, c, data, w))
  {
    hide C.Buffered;
    C.SendEffect(cfg, c, data, w);
    if c.state == C.Disconnecting && c.fins == [] { BufferedWrites(cfg, C.Recorded(c, data, C.Taken), data); }
  }

  lemma BufferedWrites(cfg: C.Config, c: C.Conn, rest: C.Bytes)
    requires C.Writing(c)
    ensures C.Writing(C.Buffered(cfg, c, rest))
  {
  }

  lemma RunsPromised(cfg: C.Config, step: Step, id: nat, w: Wait, v: Wait)
    requires Sane(w, id) && Promised(w, id) && Runs(cfg, step, id, w, v)
    ensures Promised(v, id)
  {
    hide C.SendInLoop, P.Apply;
    HeadFits(w, id);
    var c, f := w.conn, w.todo[0];
    assert v.All() == w.All()[1..];
    assert forall g :: g in w.All() <==> g == f || g in v.All();
    match f
    case Establish(_) => CallsPend(cfg, C.BroughtUp(c), step.calls);
    case RawSend(_, data) => if Pend(c) { SendPends(cfg, c, data, step.w); }
    case Destroy(_) => DestroyedIsDown(c);
    case RawShutdown(_) =>
    case _ =>
  }

  lemma DestroyedIsDown(c: C.Conn)
    requires c.state == C.Disconnected
    ensures C.ConnectDestroyed(c).state == C.Disconnected
  {
  }

  lemma MovedPromised(cfg: C.Config, step: Step, id: nat, w: Wait, v: Wait)
    requires Sane(w, id) && Promised(w, id) && Moved(cfg, step, id, w, v)
    ensures Promised(v, id)
  {
    hide C.Dispatch, C.DoCall, RanConn, Pend;
    if Dispatches(cfg, step, id, w, v) {
      RawsAsBefore(w, v, id);
      if Pend(w.conn) { DispatchPends(cfg, w.conn, w.slot.mask, step.r, step.calls, step.w); }
    } else if Runs(cfg, step, id, w, v) {
      RunsPromised(cfg, step, id, w, v);
    } else if Queues(step, id, w, v) {
      assert v.All() == w.All() + [v.pending[|v.pending| - 1]];
      assert v.pending[|v.pending| - 1] in v.All();
    } else {
      assert v.All() == w.All();
      if step.App? && Pend(w.conn) { CallPends(cfg, w.conn, step.call); }
    }
  }

  predicate AllPromised(s: Server)
    requires WellFormed(s)
  {
    forall id :: 0 <= id < |s.peers| ==> Promised(WaitOf(s, id), id)
  }

  lemma NewIsPromised(cfg: C.Config, s: Server, step: Step)
    requires Inv(s) && step.Accept? && Enabled(s, step)
    ensures Promised(WaitOf(Next(cfg, s, step), |s.peers|), |s.peers|)
  {
    hide WaitOf, C.ConnectEstablished, PeersOk, LoopsOk, OwnFds;
    var id := |s.peers|;
    var m := Made(s, step.l, step.fd);
    MadeWait(s, step.l, step.fd);
    if step.l == MAIN {
      SetConnWait(m, id, C.ConnectEstablished(cfg, C.NEW_CONN, step.calls), id);
      EstablishedPends(cfg, step.calls);
    } else {
      PushWait(m, step.l, Establish(id), id);
    }
  }

  lemma EstablishedPends(cfg: C.Config, calls: seq<C.AppCall>)
    ensures Pend(C.ConnectEstablished(cfg, C.NEW_CONN, calls))
  {
    CallsPend(cfg, C.BroughtUp(C.NEW_CONN), calls);
  }

  lemma NextKeepsPromises(cfg: C.Config, s: Server, step: Step)
    requires Inv(s) && Enabled(s, step) && AllPromised(s)
    ensures AllPromised(Next(cfg, s, step))
  {
    hide Moved, Promised, WaitOf;
    var r := Next(cfg, s, step);
    forall id | 0 <= id < |r.peers| ensures Promised(WaitOf(r, id), id) {
      if id < |s.peers| {
        StepWait(cfg, s, step, id);
        InvIsSane(s, id);
        MovedPromised(cfg, step, id, WaitOf(s, id), WaitOf(r, id));
      } else {
        NewIsPromised(cfg, s, step);
      }
    }
  }

  lemma {:induction false} RunKeepsPromises(cfg: C.Config, s: Server, steps: seq<Step>)
    requires Inv(s) && AllPromised(s) && LegalRun(cfg, s, steps)
    ensures AllPromised(Run(cfg, s, steps))
    decreases |steps|
  {
    if steps != [] {
      NextKeepsInv(cfg, s, steps[0]);
      NextKeepsPromises(cfg, s, steps[0]);
      RunKeepsPromises(cfg, Next(cfg, s, steps[0]), steps[1..]);
    }
  }

  /** Every half-close comes: in every reachable state a connection shutting down, with no
      shutdownInLoop queued, has issued SHUT_WR or has EPOLLOUT watched for the drain. */
  lemma HalfCloseIsPromised(cfg: C.Config, loops: nat, steps: seq<Step>, id: nat)
    requires 1 <= loops && LegalRun(cfg, Initial(loops), steps)
    requires var s := Run(cfg, Initial(loops), steps);
             && id < |s.peers| && s.peers[id].conn.state == C.Disconnecting && s.peers[id].conn.fins == []
             && RawShutdown(id) !in s.loops[s.peers[id].loop].queue.Unrun()
    ensures var c := Run(cfg, Initial(loops), steps).peers[id].conn;
            c.output != [] && c.reg.kernel.Some? && P.Out in c.reg.kernel.value
  {
    StartsWell(loops);
    RunKeeps(cfg, Initial(loops), steps);
    RunKeepsPromises(cfg, Initial(loops), steps);
    var s := Run(cfg, Initial(loops), steps);
    var w := WaitOf(s, id);
    InvIsSane(s, id);
    SaneWriting(w, id);
    PartsMembers(s.loops[s.peers[id].loop].queue.Unrun(), id);
    assert Promised(w, id);
    WritingIsWatched(w, id);
  }
}
