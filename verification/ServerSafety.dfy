/**
  What every step of ServerModel keeps, for any number of loops, connections and
  threads, and what follows over whole runs: ownership, the run protocol of a
  connection, the exactness of the server's map.
 */
module ServerSafety {
  import opened ServerModel
  import P = Poller
  import B = ByteBuffer
  import C = ConnectionModel

  // ---------------------------------------- one connection's part of a queue

  predicate Raw(f: Functor) { f.RawSend? || f.RawShutdown? }

  predicate Mine(f: Functor, id: nat) { f.id == id && !f.RemoveInLoop? && !f.OwnedCall? }

  function Io(q: seq<Functor>, id: nat): seq<Functor> {
    if q == [] then []
    else
      var f := q[|q| - 1];
      Io(q[..|q| - 1], id) + if Mine(f, id) then [f] else []
  }

  function Rem(q: seq<Functor>, id: nat): nat {
    if q == [] then 0
    else Rem(q[..|q| - 1], id) + if q[|q| - 1] == RemoveInLoop(id) then 1 else 0
  }

  lemma PartsPush(q: seq<Functor>, f: Functor, id: nat)
    ensures Io(q + [f], id) == Io(q, id) + if Mine(f, id) then [f] else []
    ensures Rem(q + [f], id) == Rem(q, id) + if f == RemoveInLoop(id) then 1 else 0
  {
    assert (q + [f])[..|q|] == q;
  }

  lemma {:induction false} IoPop(q: seq<Functor>, id: nat)
    requires q != []
    ensures Io(q, id) == (if Mine(q[0], id) then [q[0]] else []) + Io(q[1..], id)
  {
    if |q| == 1 {
      assert q[..0] == [] && q[1..] == [];
    } else {
      var a, f := q[..|q| - 1], q[|q| - 1];
      IoPop(a, id);
      assert q[1..][..|q| - 2] == a[1..];
    }
  }

  lemma {:induction false} RemPop(q: seq<Functor>, id: nat)
    requires q != []
    ensures Rem(q, id) == Rem(q[1..], id) + if q[0] == RemoveInLoop(id) then 1 else 0
  {
    if |q| == 1 {
      assert q[..0] == [] && q[1..] == [];
    } else {
      var a := q[..|q| - 1];
      RemPop(a, id);
      assert q[1..][..|q| - 2] == a[1..];
    }
  }

  lemma {:induction false} PartsMembers(q: seq<Functor>, id: nat)
    ensures forall f :: f in Io(q, id) <==> f in q && Mine(f, id)
    ensures 0 < Rem(q, id) <==> RemoveInLoop(id) in q
  {
    if q != [] {
      PartsMembers(q[..|q| - 1], id);
      assert q == q[..|q| - 1] + [q[|q| - 1]];
    }
  }

  function LeadingRaws(io: seq<Functor>): nat {
    if io == [] || !Raw(io[0]) then 0 else 1 + LeadingRaws(io[1..])
  }

  lemma {:induction false} LeadingRawsBounds(io: seq<Functor>)
    ensures LeadingRaws(io) <= |io|
    ensures forall i :: 0 <= i < LeadingRaws(io) ==> Raw(io[i])
    ensures LeadingRaws(io) < |io| ==> !Raw(io[LeadingRaws(io)])
  {
    if io != [] && Raw(io[0]) { LeadingRawsBounds(io[1..]); }
  }

  lemma {:induction false} LeadingRawsAppend(io: seq<Functor>, f: Functor)
    ensures LeadingRaws(io + [f]) == LeadingRaws(io) + if LeadingRaws(io) == |io| && Raw(f) then 1 else 0
  {
    if io == [] {
      assert (io + [f])[1..] == [];
    } else {
      assert (io + [f])[1..] == io[1..] + [f];
      LeadingRawsAppend(io[1..], f);
    }
  }

  /** Raw functors first, then nothing but Destroy. */
  predicate RawsThenDestroys(io: seq<Functor>, id: nat) {
    LeadingRaws(io) <= |io| && forall i :: LeadingRaws(io) <= i < |io| ==> io[i] == Destroy(id)
  }

  // -------------------------------------------------------------- invariant

  predicate Up(c: C.Conn) { c.state == C.Connected || c.state == C.Disconnecting }

  /** A connection with what the server and the queues hold of it: its own functors in
      its loop, in order, and its removals waiting in the main loop. */
  datatype Track = Track(p: Peer, served: bool, io: seq<Functor>, rem: nat)

  /** Every close is accounted for: `owed` have still to be reported to the server, the
      others wait in the main loop or have erased the map entry; every erase waits as a
      Destroy or has run. */
  predicate PeerOk(t: Track, id: nat, owed: nat) {
    var c := t.p.conn;
    && C.Interested(c) && C.Streamed(c)
    && c.closes == t.rem + t.p.erases + owed && c.downs == c.closes
    && (t.served <==> t.p.erases == 0)
    && match c.state
       case Connecting =>
         t.io == [Establish(id)] && c.closes == 0 && t.p.destroys == 0 && c.ups == 0 && c.reg == P.FRESH && t.p.alive
       case Disconnected =>
         && 1 <= c.closes && c.ups == 1 && !c.reg.index.New? && RawsThenDestroys(t.io, id)
         && |t.io| - LeadingRaws(t.io) + t.p.destroys == t.p.erases
         && (1 <= t.p.destroys ==> LeadingRaws(t.io) == 0 && c.reg.kernel.None? && !c.reg.listed)
         && (!t.p.alive ==> t.io == [] && t.rem == 0 && owed == 0)
       case _ =>
         LeadingRaws(t.io) == |t.io| && c.closes == 0 && t.p.destroys == 0 && c.ups == 1 && C.Live(c) && t.p.alive
  }

  function Unrun(s: Server, l: nat): seq<Functor>
    requires l < |s.loops|
  {
    s.loops[l].queue.Unrun()
  }

  function TrackOf(s: Server, id: nat): Track
    requires WellFormed(s) && id < |s.peers|
  {
    Track(s.peers[id], id in s.serving, Io(Unrun(s, s.peers[id].loop), id), Rem(Unrun(s, MAIN), id))
  }

  predicate Placed(s: Server, l: nat, f: Functor) {
    f.id < |s.peers| && if f.RemoveInLoop? then l == MAIN else s.peers[f.id].loop == l
  }

  predicate ActiveOk(s: Server, l: nat, active: seq<nat>, revents: map<nat, P.Mask>) {
    && (forall i, j :: 0 <= i < j < |active| ==> active[i] != active[j])
    && (forall i :: 0 <= i < |active| ==>
         active[i] in revents && active[i] < |s.peers| && s.peers[active[i]].loop == l && InEpoll(s, active[i]))
  }

  predicate LoopOk(s: Server, l: nat)
    requires l < |s.loops|
  {
    && (forall f :: f in Unrun(s, l) ==> Placed(s, l, f))
    && (s.loops[l].phase.Dispatching? ==> ActiveOk(s, l, s.loops[l].phase.active, s.loops[l].phase.revents))
    && (s.loops[l].phase != Running ==> s.loops[l].queue.todo == [])
  }

  predicate PeersOk(s: Server, x: nat, owed: nat)
    requires WellFormed(s)
  {
    forall id :: 0 <= id < |s.peers| ==> PeerOk(TrackOf(s, id), id, if id == x then owed else 0)
  }

  predicate LoopsOk(s: Server) { forall l :: 0 <= l < |s.loops| ==> LoopOk(s, l) }

  /** No two living connections share a descriptor. */
  predicate OwnFds(s: Server) {
    forall i, j :: 0 <= i < j < |s.peers| && s.peers[i].alive && s.peers[j].alive ==> s.peers[i].fd != s.peers[j].fd
  }

  predicate OkBut(s: Server, x: nat, owed: nat) {
    && WellFormed(s) && (forall id :: id in s.serving ==> id < |s.peers|)
    && PeersOk(s, x, owed) && LoopsOk(s) && OwnFds(s)
  }

  predicate Inv(s: Server) { OkBut(s, 0, 0) }

  // ------------------------------------------- what queue operations change

  lemma PushTracks(s: Server, l: nat, f: Functor)
    requires WellFormed(s) && l < |s.loops|
    ensures var r := Push(s, l, f);
            WellFormed(r) && forall id :: 0 <= id < |s.peers| ==>
              TrackOf(r, id) == Track(s.peers[id], id in s.serving,
                TrackOf(s, id).io + (if l == s.peers[id].loop && Mine(f, id) then [f] else []),
                TrackOf(s, id).rem + if l == MAIN && f == RemoveInLoop(id) then 1 else 0)
  {
    hide Io, Rem;
    var r := Push(s, l, f);
    forall id | 0 <= id < |s.peers|
      ensures TrackOf(r, id) == Track(s.peers[id], id in s.serving,
                TrackOf(s, id).io + (if l == s.peers[id].loop && Mine(f, id) then [f] else []),
                TrackOf(s, id).rem + if l == MAIN && f == RemoveInLoop(id) then 1 else 0)
    {
      PartsPush(Unrun(s, l), f, id);
    }
  }

  // The active list of a loop needs only the connections in it.
  lemma ActiveSame(s: Server, r: Server, l: nat)
    requires l < |s.loops| && LoopOk(s, l) && l < |r.loops| && r.loops[l].phase == s.loops[l].phase
    requires |s.peers| <= |r.peers|
    requires forall i :: 0 <= i < |s.peers| && s.peers[i].loop == l ==> r.peers[i].loop == l
    requires s.loops[l].phase.Dispatching? ==>
               forall i :: 0 <= i < |s.peers| && i in s.loops[l].phase.active && InEpoll(s, i) ==> InEpoll(r, i)
    ensures r.loops[l].phase.Dispatching? ==> ActiveOk(r, l, r.loops[l].phase.active, r.loops[l].phase.revents)
  {
    if s.loops[l].phase.Dispatching? {
      var active := s.loops[l].phase.active;
      assert ActiveOk(s, l, active, s.loops[l].phase.revents);
      forall i | 0 <= i < |active| ensures r.peers[active[i]].loop == l && InEpoll(r, active[i]) {
        assert active[i] in active && InEpoll(s, active[i]);
      }
    }
  }

  lemma PushLoops(s: Server, l: nat, f: Functor)
    requires WellFormed(s) && LoopsOk(s) && l < |s.loops| && Placed(s, l, f)
    ensures LoopsOk(Push(s, l, f))
  {
    var r := Push(s, l, f);
    forall k | 0 <= k < |r.loops| ensures LoopOk(r, k) {
      assert LoopOk(s, k);
      forall g | g in Unrun(r, k) ensures Placed(r, k, g) {
        assert g in Unrun(s, k) || (k == l && g == f);
        assert g in Unrun(s, k) ==> Placed(s, k, g);
      }
      ActiveSame(s, r, k);
    }
  }

  function Advanced(s: Server, l: nat): Server
    requires l < |s.loops| && s.loops[l].queue.todo != []
  {
    s.(loops := s.loops[l := s.loops[l].(queue := s.loops[l].queue.Advance())])
  }

  lemma AdvanceTracks(s: Server, l: nat)
    requires WellFormed(s) && l < |s.loops| && s.loops[l].queue.todo != []
    ensures var r := Advanced(s, l);
            var f := s.loops[l].queue.todo[0];
            WellFormed(r) && Unrun(s, l)[0] == f && forall id :: 0 <= id < |s.peers| ==>
              && TrackOf(s, id).io == (if l == s.peers[id].loop && Mine(f, id) then [f] else []) + TrackOf(r, id).io
              && TrackOf(s, id).rem == TrackOf(r, id).rem + (if l == MAIN && f == RemoveInLoop(id) then 1 else 0)
              && TrackOf(r, id).p == s.peers[id] && TrackOf(r, id).served == (id in s.serving)
  {
    var r := Advanced(s, l);
    var f := s.loops[l].queue.todo[0];
    forall id | 0 <= id < |s.peers|
      ensures TrackOf(s, id).io == (if l == s.peers[id].loop && Mine(f, id) then [f] else []) + TrackOf(r, id).io
      ensures TrackOf(s, id).rem == TrackOf(r, id).rem + (if l == MAIN && f == RemoveInLoop(id) then 1 else 0)
    {
      IoPop(Unrun(s, l), id);
      RemPop(Unrun(s, l), id);
    }
  }

  lemma AdvanceLoops(s: Server, l: nat)
    requires WellFormed(s) && LoopsOk(s) && l < |s.loops| && s.loops[l].queue.todo != []
    ensures LoopsOk(Advanced(s, l)) && Placed(s, l, s.loops[l].queue.todo[0])
  {
    var r := Advanced(s, l);
    assert LoopOk(s, l) && Unrun(s, l)[0] == s.loops[l].queue.todo[0];
    forall k | 0 <= k < |r.loops| ensures LoopOk(r, k) {
      assert LoopOk(s, k);
      if k == l {
        forall f | f in Unrun(r, l) ensures Placed(r, l, f) { assert f in Unrun(s, l) && Placed(s, l, f); }
      } else {
        forall f | f in Unrun(r, k) ensures Placed(r, k, f) { assert f in Unrun(s, k) && Placed(s, k, f); }
      }
      ActiveSame(s, r, k);
    }
  }

  // A change of one connection that leaves its loop, its descriptor and its life alone.
  predicate SameButPeer(s: Server, r: Server, id: nat) {
    && id < |s.peers| == |r.peers| && r.loops == s.loops && r.peers == s.peers[id := r.peers[id]]
    && r.peers[id].loop == s.peers[id].loop && r.peers[id].fd == s.peers[id].fd && r.peers[id].alive == s.peers[id].alive
  }

  lemma PeerChanged(s: Server, r: Server, id: nat)
    requires WellFormed(s) && SameButPeer(s, r, id)
    requires LoopsOk(s) && OwnFds(s)
    requires forall l :: 0 <= l < |s.loops| && s.loops[l].phase.Dispatching? && id in s.loops[l].phase.active ==> InEpoll(r, id)
    ensures WellFormed(r) && LoopsOk(r) && OwnFds(r)
    ensures forall i :: 0 <= i < |s.peers| ==> TrackOf(r, i) == TrackOf(s, i).(p := r.peers[i], served := i in r.serving)
  {
    forall l | 0 <= l < |r.loops| ensures LoopOk(r, l) {
      assert LoopOk(s, l);
      forall f | f in Unrun(r, l) ensures Placed(r, l, f) { assert f in Unrun(s, l) && Placed(s, l, f); }
      ActiveSame(s, r, l);
    }
  }

  // --------------------------------------------------- what handlers change

  function Rank(state: C.State): nat {
    match state
    case Connecting => 0
    case Connected => 1
    case Disconnecting => 2
    case Disconnected => 3
  }

  /** What any handler but a close keeps. */
  predicate Steady(c: C.Conn, d: C.Conn) {
    && d.ups == c.ups && d.downs == c.downs && d.closes == c.closes
    && Rank(c.state) <= Rank(d.state)
    && (Up(c) ==> Up(d)) && (!Up(c) ==> d.state == c.state && d.reg == c.reg)
    && (d.reg.listed || !c.reg.listed) && (d.reg.index.New? ==> c.reg.index.New?)
    && (c.reg.kernel.Some? && C.Interested(c) ==> d.reg.kernel.Some?)
  }

  lemma BufferedSteady(cfg: C.Config, c: C.Conn, rest: C.Bytes)
    requires Up(c)
    ensures Steady(c, C.Buffered(cfg, c, rest))
  {
  }

  lemma SendSteady(cfg: C.Config, c: C.Conn, data: C.Bytes, w: B.WriteResult)
    requires Up(c) || c.state == C.Disconnected
    ensures Steady(c, C.SendInLoop(cfg, c, data, w))
  {
    hide C.Buffered, P.Coherent;
    if Up(c) {
      BufferedSteady(cfg, C.Recorded(c, data, C.Taken), data);
      var answer := C.Answer(c, w);
      var direct := C.Recorded(C.WriteDirectly(cfg, c, data, answer), data, C.Taken);
      BufferedSteady(cfg, direct, data[C.Written(data, answer)..]);
    }
  }

  lemma CallSteady(cfg: C.Config, c: C.Conn, call: C.AppCall)
    ensures Steady(c, C.DoCall(cfg, c, call))
  {
    if call.Send? && c.state == C.Connected { SendSteady(cfg, c, call.data, call.w); }
  }

  lemma {:induction false} CallsSteady(cfg: C.Config, c: C.Conn, calls: seq<C.AppCall>)
    ensures Steady(c, C.DoCalls(cfg, c, calls))
  {
    if calls != [] {
      var d := C.DoCalls(cfg, c, calls[..|calls| - 1]);
      CallsSteady(cfg, c, calls[..|calls| - 1]);
      if C.Interested(c) { C.CallsKeepInterest(cfg, c, calls[..|calls| - 1]); }
      CallSteady(cfg, d, calls[|calls| - 1]);
    }
  }

  lemma WriteSteady(cfg: C.Config, c: C.Conn, w: B.WriteResult)
    requires C.Interested(c) && c.state != C.Connecting && (Up(c) ==> C.Live(c))
    ensures Steady(c, C.HandleWrite(cfg, c, w))
  {
    C.WritingIsOut(c);
    if Up(c) { assert P.In in c.reg.events - P.WRITE_EVENT; }
  }

  /** One dispatch: without a close it is steady; with one or two, the connection is
      down, and each is reported once. */
  predicate Dispatched(c: C.Conn, d: C.Conn) {
    && C.Interested(d) && C.Streamed(d) && d.ups == c.ups
    && c.closes <= d.closes && d.downs - c.downs == d.closes - c.closes
    && (d.closes == c.closes ==> Steady(c, d))
    && (d.closes != c.closes ==> d.state == C.Disconnected && !d.reg.index.New?)
  }

  lemma CloseEffect(c: C.Conn)
    requires C.Interested(c) && c.reg.kernel.Some?
    ensures var d := C.HandleClose(c); C.Interested(d) && d.state == C.Disconnected && !d.reg.index.New?
  {
    C.CloseKeepsInterest(c);
    P.ApplyKeepsCoherent(c.reg, P.DisableAll);
  }

  lemma ReadEffect(cfg: C.Config, c: C.Conn, r: B.ReadResult, calls: seq<C.AppCall>)
    requires C.Interested(c)
    ensures var d := C.HandleRead(cfg, c, r, calls);
            if r == B.Got([]) then d == C.HandleClose(c) && !d.reg.index.New? else Steady(c, d)
  {
    P.ApplyKeepsCoherent(c.reg, P.DisableAll);
    if r.Got? { CallsSteady(cfg, c.(input := c.input + r.bytes), calls); }
  }

  lemma DispatchEffect(cfg: C.Config, c: C.Conn, revents: P.Mask, r: B.ReadResult, calls: seq<C.AppCall>, w: B.WriteResult)
    requires C.Interested(c) && C.Streamed(c) && c.state != C.Connecting && c.reg.kernel.Some? && (Up(c) ==> C.Live(c))
    ensures Dispatched(c, C.Dispatch(cfg, c, revents, r, calls, w))
  {
    var step := C.Event(revents, r, calls, w);
    C.StepKeepsInterest(cfg, c, step);
    C.StepKeepsStream(cfg, c, step);
    CloseEffect(c);
    var d := if C.HangsUp(revents) then C.HandleClose(c) else c;
    ReadEffect(cfg, d, r, calls);
    C.ReadKeepsInterest(cfg, d, r, calls);
    var e := if C.Reads(revents) then C.HandleRead(cfg, d, r, calls) else d;
    WriteSteady(cfg, e, w);
  }

  // ------------------------------------------------------ one track at a time

  lemma TrackSteady(t: Track, id: nat, owed: nat, d: C.Conn)
    requires PeerOk(t, id, owed) && Steady(t.p.conn, d) && C.Interested(d) && C.Streamed(d)
    ensures PeerOk(t.(p := t.p.(conn := d)), id, owed)
  {
  }

  lemma TrackClosed(t: Track, id: nat, d: C.Conn)
    requires PeerOk(t, id, 0) && t.p.conn.reg.kernel.Some? && Dispatched(t.p.conn, d)
    ensures PeerOk(t.(p := t.p.(conn := d)), id, d.closes - t.p.conn.closes)
  {
    LeadingRawsBounds(t.io);
    if d.closes == t.p.conn.closes { TrackSteady(t, id, 0, d); }
  }

  lemma TrackErased(t: Track, id: nat, owed: nat)
    requires PeerOk(t, id, owed + 1) && t.p.conn.state == C.Disconnected
    ensures PeerOk(t.(p := t.p.(erases := t.p.erases + 1), served := false, io := t.io + [Destroy(id)]), id, owed)
  {
    LeadingRawsAppend(t.io, Destroy(id));
  }

  lemma TrackQueued(t: Track, id: nat, owed: nat)
    requires PeerOk(t, id, owed + 1) && t.p.conn.state == C.Disconnected
    ensures PeerOk(t.(rem := t.rem + 1), id, owed)
  {
  }

  lemma TrackRaw(t: Track, id: nat, f: Functor)
    requires PeerOk(t, id, 0) && Up(t.p.conn) && Raw(f)
    ensures PeerOk(t.(io := t.io + [f]), id, 0)
  {
    LeadingRawsAppend(t.io, f);
  }

  /** A functor at the head of a connection's own queue is legal for its state. */
  lemma TrackHead(t: Track, id: nat, f: Functor, rest: seq<Functor>)
    requires PeerOk(t, id, 0) && t.io == [f] + rest && Mine(f, id)
    ensures f.Establish? ==> t.p.conn.state == C.Connecting && rest == []
    ensures f.Destroy? ==> t.p.conn.state == C.Disconnected && LeadingRaws(t.io) == 0
    ensures Raw(f) ==> (Up(t.p.conn) || t.p.conn.state == C.Disconnected) && t.p.alive && PeerOk(t.(io := rest), id, 0)
  {
    LeadingRawsBounds(t.io);
    assert t.io[0] == f && t.io[1..] == rest;
    if Raw(f) { assert LeadingRaws(t.io) == 1 + LeadingRaws(rest); }
  }

  lemma TrackEstablished(cfg: C.Config, t: Track, id: nat, calls: seq<C.AppCall>)
    requires PeerOk(t, id, 0) && t.p.conn.state == C.Connecting
    ensures PeerOk(t.(p := t.p.(conn := C.ConnectEstablished(cfg, t.p.conn, calls)), io := []), id, 0)
  {
    var c := t.p.conn;
    var d := C.Channeled(c.(state := C.Connected), P.EnableReading).(ups := c.ups + 1);
    C.StepKeepsInterest(cfg, c, C.Establish(calls));
    C.StepKeepsStream(cfg, c, C.Establish(calls));
    CallsSteady(cfg, d, calls);
  }

  lemma TrackDestroyed(t: Track, id: nat, rest: seq<Functor>)
    requires PeerOk(t, id, 0) && t.io == [Destroy(id)] + rest
    ensures PeerOk(t.(p := t.p.(conn := C.ConnectDestroyed(t.p.conn), destroys := t.p.destroys + 1), io := rest), id, 0)
  {
    TrackHead(t, id, Destroy(id), rest);
    var c := t.p.conn;
    assert t.io[1..] == rest;
    forall i | 0 <= i < |rest| ensures rest[i] == Destroy(id) { assert rest[i] == t.io[i + 1]; }
    if rest != [] { assert rest[0] == Destroy(id); }
    assert LeadingRaws(rest) == 0;
    P.RemovalThroughReentry(c.reg);
    assert !c.reg.index.New?;
  }

  // ----------------------------------------------------------- the steps

  lemma SameQueues(s: Server, r: Server)
    requires WellFormed(s) && WellFormed(r) && r.peers == s.peers && r.serving == s.serving && |r.loops| == |s.loops|
    requires forall l :: 0 <= l < |s.loops| ==> Unrun(r, l) == Unrun(s, l)
    ensures forall id :: 0 <= id < |s.peers| ==> TrackOf(r, id) == TrackOf(s, id)
    ensures forall l, f :: 0 <= l < |s.loops| && f in Unrun(r, l) && Placed(s, l, f) ==> Placed(r, l, f)
  {
  }

  lemma PhaseStep(cfg: C.Config, s: Server, step: Step)
    requires Inv(s) && Enabled(s, step) && (step.Poll? || step.StartBatch? || step.FinishBatch?)
    ensures Inv(Next(cfg, s, step))
  {
    var r := Next(cfg, s, step);
    SameQueues(s, r);
    forall k | 0 <= k < |r.loops| ensures LoopOk(r, k) {
      assert LoopOk(s, k);
      forall f | f in Unrun(r, k) ensures Placed(r, k, f) { assert f in Unrun(s, k) && Placed(s, k, f); }
      if k != step.l { ActiveSame(s, r, k); }
    }
    assert forall id :: 0 <= id < |s.peers| ==> PeerOk(TrackOf(s, id), id, 0);
  }

  lemma ActiveInEpoll(s: Server, id: nat)
    requires LoopsOk(s) && id < |s.peers|
    ensures forall l :: 0 <= l < |s.loops| && s.loops[l].phase.Dispatching? && id in s.loops[l].phase.active
              ==> s.peers[id].loop == l && InEpoll(s, id)
  {
    forall l | 0 <= l < |s.loops| && s.loops[l].phase.Dispatching? && id in s.loops[l].phase.active
      ensures s.peers[id].loop == l && InEpoll(s, id)
    {
      assert LoopOk(s, l);
    }
  }

  lemma SetConnSteady(s: Server, id: nat, d: C.Conn)
    requires Inv(s) && id < |s.peers| && Steady(s.peers[id].conn, d) && C.Interested(d) && C.Streamed(d)
    ensures Inv(SetConn(s, id, d))
  {
    var r := SetConn(s, id, d);
    assert PeerOk(TrackOf(s, id), id, 0);
    ActiveInEpoll(s, id);
    PeerChanged(s, r, id);
    TrackSteady(TrackOf(s, id), id, 0, d);
    forall i | 0 <= i < |r.peers| ensures PeerOk(TrackOf(r, i), i, 0) {
      assert PeerOk(TrackOf(s, i), i, 0);
    }
  }

  lemma PushUnowned(s: Server, l: nat, f: Functor)
    requires Inv(s) && l < |s.loops| && Placed(s, l, f) && f.id < |s.peers|
    requires f.OwnedCall? || (Raw(f) && Up(s.peers[f.id].conn))
    ensures Inv(Push(s, l, f))
  {
    PushTracks(s, l, f);
    PushLoops(s, l, f);
    var r := Push(s, l, f);
    forall i | 0 <= i < |r.peers| ensures PeerOk(TrackOf(r, i), i, 0) {
      assert PeerOk(TrackOf(s, i), i, 0);
      if i == f.id && Raw(f) { TrackRaw(TrackOf(s, i), i, f); } else { assert TrackOf(s, i).io + [] == TrackOf(s, i).io; }
    }
  }

  lemma UserStep(cfg: C.Config, s: Server, step: Step)
    requires Inv(s) && Enabled(s, step)
    requires step.App? || step.CrossSend? || step.CrossShutdown? || step.QueueOwned?
    ensures Inv(Next(cfg, s, step))
  {
    var id := step.id;
    var c := s.peers[id].conn;
    var l := s.peers[id].loop;
    assert PeerOk(TrackOf(s, id), id, 0);
    match step
    case App(_, call) =>
      CallSteady(cfg, c, call);
      C.CallKeepsInterest(cfg, c, call);
      C.CallKeepsStream(cfg, c, call);
      SetConnSteady(s, id, C.DoCall(cfg, c, call));
    case CrossSend(_, data) =>
      if c.state == C.Connected { PushUnowned(s, l, RawSend(id, data)); }
    case CrossShutdown(_) =>
      if c.state == C.Connected {
        SetConnSteady(s, id, c.(state := C.Disconnecting));
        PushUnowned(SetConn(s, id, c.(state := C.Disconnecting)), l, RawShutdown(id));
      }
    case QueueOwned(_, _) => PushUnowned(s, l, OwnedCall(id));
  }

  lemma HolderStep(cfg: C.Config, s: Server, step: Step)
    requires Inv(s) && Enabled(s, step) && (step.Retain? || step.Release?)
    ensures Inv(Next(cfg, s, step))
  {
    var r := Next(cfg, s, step);
    ActiveInEpoll(s, step.id);
    PeerChanged(s, r, step.id);
    forall i | 0 <= i < |r.peers| ensures PeerOk(TrackOf(r, i), i, 0) {
      assert PeerOk(TrackOf(s, i), i, 0);
    }
  }

  /** Everything but connection `id` looks the same, and `id` is in order. */
  lemma Assemble(s: Server, r: Server, id: nat, owedBefore: nat, owed: nat)
    requires WellFormed(s) && WellFormed(r) && |r.peers| == |s.peers| && id < |s.peers| && PeersOk(s, id, owedBefore)
    requires forall i :: 0 <= i < |s.peers| && i != id ==> TrackOf(r, i) == TrackOf(s, i)
    requires PeerOk(TrackOf(r, id), id, owed)
    ensures PeersOk(r, id, owed)
  {
    forall i | 0 <= i < |r.peers| ensures PeerOk(TrackOf(r, i), i, if i == id then owed else 0) {
      assert i != id ==> PeerOk(TrackOf(s, i), i, 0);
    }
  }

  lemma PushKeepsOthers(s: Server, l: nat, f: Functor)
    requires WellFormed(s) && LoopsOk(s) && OwnFds(s) && l < |s.loops| && Placed(s, l, f)
    ensures var r := Push(s, l, f);
            && WellFormed(r) && LoopsOk(r) && OwnFds(r)
            && (forall i :: 0 <= i < |s.peers| && i != f.id ==> TrackOf(r, i) == TrackOf(s, i))
            && TrackOf(r, f.id) == TrackOf(s, f.id).(
                 io := TrackOf(s, f.id).io + (if Mine(f, f.id) then [f] else []),
                 rem := TrackOf(s, f.id).rem + if f.RemoveInLoop? then 1 else 0)
  {
    PushTracks(s, l, f);
    PushLoops(s, l, f);
    forall i | 0 <= i < |s.peers| && i != f.id ensures TrackOf(Push(s, l, f), i) == TrackOf(s, i) {
      assert TrackOf(s, i).io + [] == TrackOf(s, i).io;
    }
  }

  lemma EntryErased(s: Server, id: nat)
    requires WellFormed(s) && LoopsOk(s) && OwnFds(s) && id < |s.peers|
    ensures var r := Erase(s, id);
            && WellFormed(r) && LoopsOk(r) && OwnFds(r)
            && (forall i :: 0 <= i < |s.peers| && i != id ==> TrackOf(r, i) == TrackOf(s, i))
            && TrackOf(r, id) == TrackOf(s, id).(p := r.peers[id], served := false)
  {
    ActiveInEpoll(s, id);
    PeerChanged(s, Erase(s, id), id);
  }

  lemma ErasedTracks(s: Server, id: nat)
    requires WellFormed(s) && LoopsOk(s) && OwnFds(s) && id < |s.peers|
    ensures var r := RemoveConnectionInLoop(s, id);
            && WellFormed(r) && LoopsOk(r) && OwnFds(r)
            && (forall i :: 0 <= i < |s.peers| && i != id ==> TrackOf(r, i) == TrackOf(s, i))
            && TrackOf(r, id) == TrackOf(s, id).(p := Erase(s, id).peers[id], served := false,
                                                 io := TrackOf(s, id).io + [Destroy(id)])
  {
    EntryErased(s, id);
    PushKeepsOthers(Erase(s, id), s.peers[id].loop, Destroy(id));
  }

  lemma ErasedStep(s: Server, id: nat, owed: nat)
    requires OkBut(s, id, owed + 1) && id < |s.peers| && s.peers[id].conn.state == C.Disconnected
    ensures OkBut(RemoveConnectionInLoop(s, id), id, owed)
  {
    ErasedTracks(s, id);
    TrackErased(TrackOf(s, id), id, owed);
    Assemble(s, RemoveConnectionInLoop(s, id), id, owed + 1, owed);
  }

  lemma ReportedStep(s: Server, id: nat, owed: nat)
    requires OkBut(s, id, owed + 1) && id < |s.peers| && s.peers[id].conn.state == C.Disconnected
    ensures var r := RemoveConnection(s, id);
            OkBut(r, id, owed) && r.peers[id].conn == s.peers[id].conn
  {
    if s.peers[id].loop == MAIN {
      ErasedStep(s, id, owed);
    } else {
      var f := RemoveInLoop(id);
      var r := Push(s, MAIN, f);
      PushKeepsOthers(s, MAIN, f);
      TrackQueued(TrackOf(s, id), id, owed);
      assert TrackOf(r, id).io == TrackOf(s, id).io;
      Assemble(s, r, id, owed + 1, owed);
    }
  }

  lemma {:induction false} ReportedTimes(s: Server, id: nat, n: nat, owed: nat)
    requires OkBut(s, id, owed) && n <= owed && id < |s.peers| && (0 < n ==> s.peers[id].conn.state == C.Disconnected)
    ensures var r := RemoveTimes(s, id, n);
            OkBut(r, id, owed - n) && r.peers[id].conn == s.peers[id].conn
  {
    if n > 0 {
      ReportedTimes(s, id, n - 1, owed);
      ReportedStep(RemoveTimes(s, id, n - 1), id, owed - n);
    }
  }

  lemma RegisteredIsAlive(s: Server, id: nat)
    requires Inv(s) && id < |s.peers| && InEpoll(s, id)
    ensures s.peers[id].alive && s.peers[id].conn.state != C.Connecting
    ensures Up(s.peers[id].conn) ==> C.Live(s.peers[id].conn)
    ensures s.peers[id].destroys == 0
  {
    assert PeerOk(TrackOf(s, id), id, 0);
  }

  // The head of an active list leaves it before its handler runs.
  lemma ActiveTaken(s: Server, l: nat)
    requires Inv(s) && l < |s.loops| && s.loops[l].phase.Dispatching? && s.loops[l].phase.active != []
    ensures var id := s.loops[l].phase.active[0];
            && s.loops[l].phase.Handles() && var r := SetPhase(s, l, s.loops[l].phase.Rest());
            && Inv(r) && id < |s.peers| && InEpoll(s, id)
            && (forall k :: 0 <= k < |r.loops| && r.loops[k].phase.Dispatching? ==> id !in r.loops[k].phase.active)
  {
    var active := s.loops[l].phase.active;
    var id := active[0];
    assert LoopOk(s, l);
    var r := SetPhase(s, l, s.loops[l].phase.Rest());
    ActiveInEpoll(s, id);
    SameQueues(s, r);
    forall k | 0 <= k < |r.loops| ensures LoopOk(r, k) {
      assert LoopOk(s, k);
      forall f | f in Unrun(r, k) ensures Placed(r, k, f) { assert f in Unrun(s, k) && Placed(s, k, f); }
      if k != l { ActiveSame(s, r, k); }
    }
    assert forall i :: 0 <= i < |s.peers| ==> PeerOk(TrackOf(s, i), i, 0);
  }

  lemma DispatchedStep(s: Server, id: nat, d: C.Conn)
    requires Inv(s) && id < |s.peers| && InEpoll(s, id) && Dispatched(s.peers[id].conn, d)
    requires forall k :: 0 <= k < |s.loops| && s.loops[k].phase.Dispatching? ==> id !in s.loops[k].phase.active
    ensures OkBut(SetConn(s, id, d), id, d.closes - s.peers[id].conn.closes)
  {
    var t := SetConn(s, id, d);
    PeerChanged(s, t, id);
    assert PeersOk(s, id, 0);
    TrackClosed(TrackOf(s, id), id, d);
    Assemble(s, t, id, 0, d.closes - s.peers[id].conn.closes);
  }

  lemma EventStep(cfg: C.Config, s: Server, step: Step)
    requires Inv(s) && step.Event? && Enabled(s, step)
    ensures Inv(Next(cfg, s, step))
  {
    var active := s.loops[step.l].phase.active;
    var id := active[0];
    var rest := SetPhase(s, step.l, s.loops[step.l].phase.Rest());
    ActiveTaken(s, step.l);
    RegisteredIsAlive(s, id);
    var c := s.peers[id].conn;
    var d := C.Dispatch(cfg, c, s.loops[step.l].phase.Head(), step.r, step.calls, step.w);
    ConnIsSound(s, id);
    DispatchEffect(cfg, c, s.loops[step.l].phase.Head(), step.r, step.calls, step.w);
    ClosesReported(rest, id, d);
  }

  lemma ClosesReported(s: Server, id: nat, d: C.Conn)
    requires Inv(s) && id < |s.peers| && InEpoll(s, id) && Dispatched(s.peers[id].conn, d)
    requires forall k :: 0 <= k < |s.loops| && s.loops[k].phase.Dispatching? ==> id !in s.loops[k].phase.active
    ensures Inv(RemoveTimes(SetConn(s, id, d), id, d.closes - s.peers[id].conn.closes))
  {
    var n := d.closes - s.peers[id].conn.closes;
    DispatchedStep(s, id, d);
    ReportedTimes(SetConn(s, id, d), id, n, n);
    AnyoneOwesNothing(RemoveTimes(SetConn(s, id, d), id, n), id);
  }

  lemma ConnIsSound(s: Server, id: nat)
    requires Inv(s) && id < |s.peers|
    ensures C.Interested(s.peers[id].conn) && C.Streamed(s.peers[id].conn)
  {
    assert PeerOk(TrackOf(s, id), id, 0);
  }

  lemma AnyoneOwesNothing(s: Server, x: nat)
    requires OkBut(s, x, 0)
    ensures Inv(s)
  {
    assert forall i :: 0 <= i < |s.peers| ==> PeerOk(TrackOf(s, i), i, if i == x then 0 else 0);
  }

  lemma AdvanceKeepsOthers(s: Server, l: nat)
    requires WellFormed(s) && LoopsOk(s) && OwnFds(s) && l < |s.loops| && s.loops[l].queue.todo != []
    ensures var t := Advanced(s, l);
            var f := s.loops[l].queue.todo[0];
            && WellFormed(t) && LoopsOk(t) && OwnFds(t) && Placed(s, l, f)
            && (forall i :: 0 <= i < |s.peers| && i != f.id ==> TrackOf(t, i) == TrackOf(s, i))
            && TrackOf(s, f.id).io == (if Mine(f, f.id) then [f] else []) + TrackOf(t, f.id).io
            && TrackOf(s, f.id) == TrackOf(t, f.id).(io := TrackOf(s, f.id).io,
                                     rem := TrackOf(t, f.id).rem + if f.RemoveInLoop? then 1 else 0)
  {
    AdvanceTracks(s, l);
    AdvanceLoops(s, l);
    var t := Advanced(s, l);
    forall i | 0 <= i < |s.peers| && i != s.loops[l].queue.todo[0].id ensures TrackOf(t, i) == TrackOf(s, i) {
      assert [] + TrackOf(t, i).io == TrackOf(t, i).io;
    }
  }

  lemma RunStep(cfg: C.Config, s: Server, step: Step)
    requires Inv(s) && step.RunOne? && Enabled(s, step)
    ensures Inv(Next(cfg, s, step))
  {
    var f := s.loops[step.l].queue.todo[0];
    if Mine(f, f.id) {
      OwnFunctorStep(cfg, s, step);
    } else {
      MainFunctorStep(cfg, s, step);
    }
  }

  lemma MainFunctorStep(cfg: C.Config, s: Server, step: Step)
    requires Inv(s) && step.RunOne? && Enabled(s, step)
    requires !Mine(s.loops[step.l].queue.todo[0], s.loops[step.l].queue.todo[0].id)
    ensures Inv(Next(cfg, s, step))
  {
    var f := s.loops[step.l].queue.todo[0];
    var id := f.id;
    var t := Advanced(s, step.l);
    AdvanceKeepsOthers(s, step.l);
    assert [] + TrackOf(t, id).io == TrackOf(t, id).io;
    assert PeersOk(s, id, 0) && PeerOk(TrackOf(s, id), id, 0);
    if f.RemoveInLoop? {
      assert PeerOk(TrackOf(t, id), id, 1);
      Assemble(s, t, id, 0, 1);
      ErasedStep(t, id, 0);
    } else {
      Assemble(s, t, id, 0, 0);
    }
    AnyoneOwesNothing(Next(cfg, s, step), id);
  }

  // What one functor of the connection's own loop makes of its track.
  function Ran(cfg: C.Config, p: Peer, f: Functor, step: Step): Peer
    requires step.RunOne? && Mine(f, f.id)
  {
    match f
    case Establish(_) => p.(conn := C.ConnectEstablished(cfg, p.conn, step.calls))
    case Destroy(_) => p.(conn := C.ConnectDestroyed(p.conn), destroys := p.destroys + 1)
    case RawSend(_, data) => p.(conn := C.SendInLoop(cfg, p.conn, data, step.w))
    case RawShutdown(_) => p.(conn := C.ShutdownInLoop(p.conn))
    case _ => p
  }

  lemma TrackRan(cfg: C.Config, t: Track, id: nat, f: Functor, rest: seq<Functor>, step: Step)
    requires PeerOk(t, id, 0) && t.io == [f] + rest && Mine(f, id) && step.RunOne?
    ensures PeerOk(t.(p := Ran(cfg, t.p, f, step), io := rest), id, 0)
  {
    var c := t.p.conn;
    TrackHead(t, id, f, rest);
    match f
    case Establish(_) => TrackEstablished(cfg, t, id, step.calls);
    case Destroy(_) => TrackDestroyed(t, id, rest);
    case RawSend(_, data) =>
      SendSteady(cfg, c, data, step.w);
      C.SendKeepsInterest(cfg, c, data, step.w);
      C.SendKeepsStream(cfg, c, data, step.w);
      TrackSteady(t.(io := rest), id, 0, C.SendInLoop(cfg, c, data, step.w));
    case RawShutdown(_) =>
      TrackSteady(t.(io := rest), id, 0, C.ShutdownInLoop(c));
  }

  // A functor of the connection's own loop: establish, destroy, or a raw call.
  lemma OwnFunctorStep(cfg: C.Config, s: Server, step: Step)
    requires Inv(s) && step.RunOne? && Enabled(s, step)
    requires Mine(s.loops[step.l].queue.todo[0], s.loops[step.l].queue.todo[0].id)
    ensures Inv(Next(cfg, s, step))
  {
    var f := s.loops[step.l].queue.todo[0];
    var id := f.id;
    var t := Advanced(s, step.l);
    var r := Next(cfg, s, step);
    AdvanceKeepsOthers(s, step.l);
    ActiveInEpoll(s, id);
    PeerChanged(t, r, id);
    assert PeersOk(s, id, 0);
    TrackRan(cfg, TrackOf(s, id), id, f, TrackOf(t, id).io, step);
    Assemble(s, r, id, 0, 0);
    AnyoneOwesNothing(r, id);
  }

  lemma {:induction false} NoneMine(q: seq<Functor>, id: nat)
    requires forall f :: f in q ==> f.id < id
    ensures Io(q, id) == [] && Rem(q, id) == 0
  {
    if q != [] {
      assert q[|q| - 1] in q;
      NoneMine(q[..|q| - 1], id);
    }
  }

  lemma NoneYet(s: Server, l: nat)
    requires WellFormed(s) && LoopsOk(s) && l < |s.loops|
    ensures Io(Unrun(s, l), |s.peers|) == [] && Rem(Unrun(s, l), |s.peers|) == 0
  {
    assert LoopOk(s, l);
    forall f | f in Unrun(s, l) ensures f.id < |s.peers| { assert Placed(s, l, f); }
    NoneMine(Unrun(s, l), |s.peers|);
  }

  function Made(s: Server, l: nat, fd: int): Server {
    s.(peers := s.peers + [Peer(l, fd, C.NEW_CONN, 0, 0, true, 0)], serving := s.serving + {|s.peers|})
  }

  lemma MadeTracks(s: Server, l: nat, fd: int)
    requires Inv(s) && l < |s.loops|
    requires forall i :: 0 <= i < |s.peers| && s.peers[i].alive ==> s.peers[i].fd != fd
    ensures var r := Made(s, l, fd);
            && WellFormed(r) && LoopsOk(r) && OwnFds(r)
            && (forall i :: 0 <= i < |s.peers| ==> TrackOf(r, i) == TrackOf(s, i))
            && TrackOf(r, |s.peers|) == Track(Peer(l, fd, C.NEW_CONN, 0, 0, true, 0), true, [], 0)
  {
    var r := Made(s, l, fd);
    NoneYet(s, l);
    NoneYet(s, MAIN);
    forall k | 0 <= k < |r.loops| ensures LoopOk(r, k) {
      assert LoopOk(s, k);
      forall f | f in Unrun(r, k) ensures Placed(r, k, f) { assert f in Unrun(s, k) && Placed(s, k, f); }
      ActiveSame(s, r, k);
    }
  }

  lemma TrackMade(cfg: C.Config, p: Peer, id: nat)
    requires p == Peer(p.loop, p.fd, C.NEW_CONN, 0, 0, true, 0)
    ensures PeerOk(Track(p, true, [Establish(id)], 0), id, 0)
  {
  }

  lemma AcceptStep(cfg: C.Config, s: Server, step: Step)
    requires Inv(s) && step.Accept? && Enabled(s, step)
    ensures Inv(Next(cfg, s, step))
  {
    var l, id := step.l, |s.peers|;
    var made := Made(s, l, step.fd);
    var r := Next(cfg, s, step);
    MadeTracks(s, l, step.fd);
    TrackMade(cfg, made.peers[id], id);
    if l == MAIN {
      ActiveInEpoll(made, id);
      PeerChanged(made, r, id);
      TrackEstablished(cfg, TrackOf(made, id).(io := [Establish(id)]), id, step.calls);
    } else {
      PushKeepsOthers(made, l, Establish(id));
    }
    forall i | 0 <= i < |r.peers| ensures PeerOk(TrackOf(r, i), i, 0) {
      if i != id { assert PeerOk(TrackOf(s, i), i, 0) && TrackOf(r, i) == TrackOf(s, i); }
    }
  }
}
