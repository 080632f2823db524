/**
  The life of connections between the main loop and the io loops: TcpServer
  (src/net/TcpServer.cc) with the queues of EventLoop and the handlers of Connection.

  A connection object lives as long as somebody owns it: the server's map, a functor
  bound to its shared_ptr (until the batch that holds the functor is destroyed), or
  user code. Functors bound to a raw `this` and the entries of epoll own nothing.
 */
module ServerModel {
  import opened FunctorQueue
  import P = Poller
  import B = ByteBuffer
  import C = ConnectionModel

  /** Establish, RemoveInLoop, Destroy and OwnedCall hold a shared_ptr; RawSend and
      RawShutdown are sendInLoop and shutdownInLoop bound to `this`. */
  datatype Functor =
    | Establish(id: nat)
    | RemoveInLoop(id: nat)
    | Destroy(id: nat)
    | OwnedCall(id: nat)
    | RawSend(id: nat, data: C.Bytes)
    | RawShutdown(id: nat)

  /** While dispatching: the channels still to be handled, and the revents_ that the poll
      stored in them. */
  datatype Phase = Polling | Dispatching(active: seq<nat>, revents: map<nat, P.Mask>) | Running {
    predicate Handles() { Dispatching? && active != [] && active[0] in revents }

    function Head(): P.Mask
      requires Handles()
    {
      revents[active[0]]
    }

    function Rest(): Phase
      requires Handles()
    {
      Dispatching(active[1..], revents)
    }
  }

  datatype Loop = Loop(phase: Phase, queue: Queue<Functor>)

  /** `erases` and `destroys` count the runs of removeConnectionInLoop and
      connectDestroyed; `held` the shared_ptrs in user code. */
  datatype Peer = Peer(loop: nat, fd: int, conn: C.Conn, erases: nat, destroys: nat, alive: bool, held: nat)

  /** loops[0] is the main loop; connections are numbered in order of creation. */
  datatype Server = Server(loops: seq<Loop>, peers: seq<Peer>, serving: set<nat>)

  const MAIN: nat := 0

  function Initial(loops: nat): Server {
    Server(seq(loops, i => Loop(Polling, Queue([], [], []))), [], {})
  }

  // ------------------------------------------------------------ transitions

  function Push(s: Server, l: nat, f: Functor): (r: Server)
    requires l < |s.loops|
    ensures r.peers == s.peers && r.serving == s.serving && |r.loops| == |s.loops|
  {
    s.(loops := s.loops[l := s.loops[l].(queue := s.loops[l].queue.Push(f))])
  }

  function SetConn(s: Server, id: nat, c: C.Conn): Server
    requires id < |s.peers|
  {
    s.(peers := s.peers[id := s.peers[id].(conn := c)])
  }

  function SetPhase(s: Server, l: nat, phase: Phase): Server
    requires l < |s.loops|
  {
    s.(loops := s.loops[l := s.loops[l].(phase := phase)])
  }

  predicate Grown(s: Server, r: Server) { |s.peers| <= |r.peers| && |r.loops| == |s.loops| }

  predicate SameSize(s: Server, r: Server) { |r.peers| == |s.peers| && |r.loops| == |s.loops| }

  predicate WellFormed(s: Server) {
    0 < |s.loops| && forall i :: 0 <= i < |s.peers| ==> s.peers[i].loop < |s.loops|
  }

  function Erase(s: Server, id: nat): (r: Server)
    requires id < |s.peers|
    ensures r.loops == s.loops && |r.peers| == |s.peers|
  {
    s.(serving := s.serving - {id}, peers := s.peers[id := s.peers[id].(erases := s.peers[id].erases + 1)])
  }

  function RemoveConnectionInLoop(s: Server, id: nat): (r: Server)
    requires WellFormed(s) && id < |s.peers|
    ensures WellFormed(r) && SameSize(s, r)
  {
    Push(Erase(s, id), s.peers[id].loop, Destroy(id))
  }

  /** The close callback, on the connection's own loop: at once when that is the main
      loop, otherwise queued there. */
  function RemoveConnection(s: Server, id: nat): (r: Server)
    requires WellFormed(s) && id < |s.peers|
    ensures WellFormed(r) && SameSize(s, r)
  {
    if s.peers[id].loop == MAIN then RemoveConnectionInLoop(s, id) else Push(s, MAIN, RemoveInLoop(id))
  }

  function RemoveTimes(s: Server, id: nat, n: nat): (r: Server)
    requires WellFormed(s) && id < |s.peers|
    ensures WellFormed(r) && SameSize(s, r)
  {
    if n == 0 then s else RemoveConnection(RemoveTimes(s, id, n - 1), id)
  }

  function NewConnection(cfg: C.Config, s: Server, l: nat, fd: int, calls: seq<C.AppCall>): (r: Server)
    requires WellFormed(s) && l < |s.loops|
    ensures WellFormed(r) && Grown(s, r)
  {
    var id := |s.peers|;
    var made := s.(peers := s.peers + [Peer(l, fd, C.NEW_CONN, 0, 0, true, 0)], serving := s.serving + {id});
    if l == MAIN then SetConn(made, id, C.ConnectEstablished(cfg, C.NEW_CONN, calls))
    else Push(made, l, Establish(id))
  }

  function HandleEvent(cfg: C.Config, s: Server, l: nat, r: B.ReadResult, calls: seq<C.AppCall>, w: B.WriteResult): (res: Server)
    requires WellFormed(s) && l < |s.loops| && s.loops[l].phase.Handles() && s.loops[l].phase.active[0] < |s.peers|
    ensures WellFormed(res) && SameSize(s, res)
  {
    var phase := s.loops[l].phase;
    var id := phase.active[0];
    var rest := SetPhase(s, l, phase.Rest());
    if !s.peers[id].alive then rest                      // tie_.lock() is null
    else
      var before := s.peers[id].conn;
      var after := C.Dispatch(cfg, before, phase.Head(), r, calls, w);
      RemoveTimes(SetConn(rest, id, after), id, if before.closes < after.closes then after.closes - before.closes else 0)
  }

  function RunFunctor(cfg: C.Config, s: Server, l: nat, calls: seq<C.AppCall>, w: B.WriteResult): (res: Server)
    requires WellFormed(s) && l < |s.loops| && s.loops[l].queue.todo != []
    requires s.loops[l].queue.todo[0].id < |s.peers|
    ensures WellFormed(res) && SameSize(s, res)
  {
    var f := s.loops[l].queue.todo[0];
    var t := s.(loops := s.loops[l := s.loops[l].(queue := s.loops[l].queue.Advance())]);
    var p := s.peers[f.id];
    match f
    case Establish(id) => SetConn(t, id, C.ConnectEstablished(cfg, p.conn, calls))
    case RemoveInLoop(id) => RemoveConnectionInLoop(t, id)
    case Destroy(id) => t.(peers := t.peers[id := p.(conn := C.ConnectDestroyed(p.conn), destroys := p.destroys + 1)])
    case OwnedCall(id) => t
    case RawSend(id, data) => SetConn(t, id, C.SendInLoop(cfg, p.conn, data, w))
    case RawShutdown(id) => SetConn(t, id, C.ShutdownInLoop(p.conn))
  }

  datatype Step =
    | Accept(l: nat, fd: int, calls: seq<C.AppCall>)
    | Poll(l: nat, active: seq<nat>, revents: map<nat, P.Mask>)
    | Event(l: nat, r: B.ReadResult, calls: seq<C.AppCall>, w: B.WriteResult)
    | StartBatch(l: nat)
    | RunOne(l: nat, calls: seq<C.AppCall>, w: B.WriteResult)
    | FinishBatch(l: nat)
    | App(id: nat, call: C.AppCall)             // send or shutdown on the connection's loop thread
    | CrossSend(id: nat, data: C.Bytes)         // send on another thread
    | CrossShutdown(id: nat)                    // shutdown on another thread
    | QueueOwned(id: nat, inLoop: bool)         // a user callback queued with shared_from_this, on its loop thread or not
    | Retain(id: nat)
    | Release(id: nat)
    | Reclaim(id: nat)                          // the last owner is gone: ~Connection closes the fd

  predicate Owns(f: Functor, id: nat) { f.id == id && !f.RawSend? && !f.RawShutdown? }

  function Held(q: Queue<Functor>): seq<Functor> { q.done + q.todo + q.pending }

  predicate FunctorOwns(s: Server, id: nat) {
    exists l, k :: 0 <= l < |s.loops| && 0 <= k < |Held(s.loops[l].queue)| && Owns(Held(s.loops[l].queue)[k], id)
  }

  predicate HasOwner(s: Server, id: nat)
    requires id < |s.peers|
  {
    id in s.serving || 0 < s.peers[id].held || FunctorOwns(s, id)
  }

  predicate InEpoll(s: Server, id: nat)
    requires id < |s.peers|
  {
    s.peers[id].conn.reg.kernel.Some?
  }

  /** What epoll_wait may report of a descriptor: some of the events watched now, and
      EPOLLERR and EPOLLHUP unasked. */
  predicate Reportable(c: C.Conn, mask: P.Mask) {
    c.reg.kernel.Some? && mask != {} && mask <= c.reg.kernel.value + {P.Err, P.Hup}
  }

  predicate Enabled(s: Server, step: Step)
    requires WellFormed(s)
  {
    match step
    case Accept(l, fd, _) =>
      && l < |s.loops| && s.loops[MAIN].phase.Dispatching?
      && (forall i :: 0 <= i < |s.peers| && s.peers[i].alive ==> s.peers[i].fd != fd)
    case Poll(l, active, revents) =>
      && l < |s.loops| && s.loops[l].phase == Polling
      && (forall i, j :: 0 <= i < j < |active| ==> active[i] != active[j])
      && (forall i :: 0 <= i < |active| ==>
           && active[i] < |s.peers| && s.peers[active[i]].loop == l
           && active[i] in revents && Reportable(s.peers[active[i]].conn, revents[active[i]]))
    case Event(l, _, _, _) =>
      l < |s.loops| && s.loops[l].phase.Handles() && s.loops[l].phase.active[0] < |s.peers|
    case StartBatch(l) =>
      l < |s.loops| && s.loops[l].phase.Dispatching? && s.loops[l].phase.active == [] && s.loops[l].queue.todo == []
    case RunOne(l, _, _) =>
      && l < |s.loops| && s.loops[l].phase == Running && s.loops[l].queue.todo != []
      && s.loops[l].queue.todo[0].id < |s.peers|
    case FinishBatch(l) => l < |s.loops| && s.loops[l].phase == Running && s.loops[l].queue.todo == []
    case App(id, _) => id < |s.peers| && s.peers[id].alive && s.loops[s.peers[id].loop].phase != Polling
    case CrossSend(id, _) => id < |s.peers| && s.peers[id].alive
    case CrossShutdown(id) => id < |s.peers| && s.peers[id].alive
    case QueueOwned(id, inLoop) =>
      && id < |s.peers| && s.peers[id].alive && HasOwner(s, id)
      && (inLoop ==> s.loops[s.peers[id].loop].phase != Polling)
    case Retain(id) => id < |s.peers| && s.peers[id].alive && HasOwner(s, id)
    case Release(id) => id < |s.peers| && 0 < s.peers[id].held
    case Reclaim(id) => id < |s.peers| && s.peers[id].alive && !HasOwner(s, id)
  }

  /** The mask an Event step dispatches. */
  function Reported(s: Server, step: Step): P.Mask {
    if step.Event? && step.l < |s.loops| && s.loops[step.l].phase.Handles() then s.loops[step.l].phase.Head() else {}
  }

  function Next(cfg: C.Config, s: Server, step: Step): (r: Server)
    requires WellFormed(s) && Enabled(s, step)
    ensures WellFormed(r) && Grown(s, r) && (!step.Accept? ==> SameSize(s, r))
  {
    match step
    case Accept(l, fd, calls) => NewConnection(cfg, s, l, fd, calls)
    case Poll(l, active, revents) => SetPhase(s, l, Dispatching(active, revents))
    case Event(l, r, calls, w) => HandleEvent(cfg, s, l, r, calls, w)
    case StartBatch(l) => s.(loops := s.loops[l := Loop(Running, s.loops[l].queue.Swap())])
    case RunOne(l, calls, w) => RunFunctor(cfg, s, l, calls, w)
    case FinishBatch(l) => s.(loops := s.loops[l := Loop(Polling, s.loops[l].queue.Clear())])
    case App(id, call) => SetConn(s, id, C.DoCall(cfg, s.peers[id].conn, call))
    case CrossSend(id, data) =>
      if s.peers[id].conn.state == C.Connected then Push(s, s.peers[id].loop, RawSend(id, data)) else s
    case CrossShutdown(id) =>
      if s.peers[id].conn.state == C.Connected then
        Push(SetConn(s, id, s.peers[id].conn.(state := C.Disconnecting)), s.peers[id].loop, RawShutdown(id))
      else s
    case QueueOwned(id, _) => Push(s, s.peers[id].loop, OwnedCall(id))
    case Retain(id) => s.(peers := s.peers[id := s.peers[id].(held := s.peers[id].held + 1)])
    case Release(id) => s.(peers := s.peers[id := s.peers[id].(held := s.peers[id].held - 1)])
    case Reclaim(id) => s.(peers := s.peers[id := s.peers[id].(alive := false)])
  }
}
