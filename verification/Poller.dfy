/**
  Channel (src/net/Channel.cc) and Epollpoller (src/net/Epollpoller.cc): interest
  bits, the index of a channel, the poller's own map and the kernel's epoll table.

  A channel's calls touch only the entries of its own descriptor, so the
  specification is the registration record `Reg` of one channel; the classes
  below work on the real maps and say that every other entry is left alone.
 */
module Poller {
  import opened Wrappers

  datatype Event = In | Pri | Out | Err | Hup | RdHup
  type Mask = set<Event>

  const READ_EVENT: Mask := {In, Pri}
  const WRITE_EVENT: Mask := {Out}

  datatype Index = New | Added | Deleted
  datatype CtlOp = Add | Mod | Del

  // ---------------------------------------------------- one channel's record

  /** What the channel, the poller's map and the kernel's table say of one channel.
      `fatal` is the exit after a failed ADD or MOD, `delErrors` the failed DELs. */
  datatype Reg = Reg(index: Index, events: Mask, listed: bool, kernel: Option<Mask>, fatal: bool, delErrors: nat)

  const FRESH: Reg := Reg(New, {}, false, None, false, 0)

  /** epoll_ctl(2): ADD of a present entry is EEXIST, MOD or DEL of an absent one ENOENT. */
  function Ctl(r: Reg, op: CtlOp): Reg {
    match op
    case Add => if r.kernel.None? then r.(kernel := Some(r.events)) else r.(fatal := true)
    case Mod => if r.kernel.Some? then r.(kernel := Some(r.events)) else r.(fatal := true)
    case Del => if r.kernel.Some? then r.(kernel := None) else r.(delErrors := r.delErrors + 1)
  }

  /** Which epoll_ctl fails, and that one that does changes nothing in the table. */
  lemma CtlFailsExactly(r: Reg, op: CtlOp)
    ensures var d, fails := Ctl(r, op), r.kernel.Some? <==> op == Add;
            && (d.fatal <==> r.fatal || (fails && op != Del)) && (d.delErrors != r.delErrors <==> fails && op == Del)
            && d.kernel == (if fails then r.kernel else if op == Del then None else Some(r.events))
            && d.events == r.events && d.index == r.index && d.listed == r.listed
  {
  }

  function Update(r: Reg): Reg {
    if r.index.New? || r.index.Deleted? then
      Ctl(r.(listed := r.listed || r.index.New?, index := Added), Add)
    else if r.events == {} then
      Ctl(r, Del).(index := Deleted)
    else
      Ctl(r, Mod)
  }

  function Interest(r: Reg, events: Mask): Reg {
    Update(r.(events := events))
  }

  function RemoveReg(r: Reg): Reg {
    var quiet := Interest(r.(listed := false), {});
    if quiet.index.Added? then Update(quiet) else quiet
  }

  datatype Call = EnableReading | DisableReading | EnableWriting | DisableWriting | DisableAll | Remove

  function Apply(r: Reg, call: Call): Reg {
    match call
    case EnableReading => Interest(r, r.events + READ_EVENT)
    case DisableReading => Interest(r, r.events - READ_EVENT)
    case EnableWriting => Interest(r, r.events + WRITE_EVENT)
    case DisableWriting => Interest(r, r.events - WRITE_EVENT)
    case DisableAll => Interest(r, {})
    case Remove => RemoveReg(r)
  }

  /** A new channel after a history of calls, oldest first. */
  function Replay(calls: seq<Call>): Reg {
    if calls == [] then FRESH
    else Apply(Replay(calls[..|calls| - 1]), calls[|calls| - 1])
  }

  /** No call ever failed, and the channel, its index and the kernel agree. */
  predicate Coherent(r: Reg) {
    && !r.fatal && r.delErrors == 0
    && (r.kernel.Some? <==> r.index.Added?)
    && (r.kernel.Some? ==> r.kernel.value == r.events)
    && (r.kernel.None? ==> r.events == {})
    && (r.index.New? ==> r == FRESH)
  }

  lemma ApplyKeepsCoherent(r: Reg, call: Call)
    requires Coherent(r)
    ensures Coherent(Apply(r, call)) && !Apply(r, call).index.New?
  {
  }

  /** Registration legality, whatever the order of enables, disables and removes:
      every epoll_ctl is legal, the channel is in the table iff its index says
      added, and the kernel's mask is the channel's. */
  lemma {:induction false} EveryHistoryIsCoherent(calls: seq<Call>)
    ensures Coherent(Replay(calls))
    ensures Replay(calls).index.New? <==> calls == []
  {
    if calls != [] {
      EveryHistoryIsCoherent(calls[..|calls| - 1]);
      ApplyKeepsCoherent(Replay(calls[..|calls| - 1]), calls[|calls| - 1]);
    }
  }

  /** Removal, through its nested DisableAll and Update, leaves epoll and drops all
      interest from every index. The map entry goes away only if the channel had
      been updated before: a never-added channel is listed by the nested call. */
  lemma RemovalThroughReentry(r: Reg)
    requires Coherent(r)
    ensures Apply(r, Remove) == Reg(Deleted, {}, r.index.New?, None, false, 0)
    ensures !r.index.New? ==> Apply(Apply(r, Remove), Remove) == Apply(r, Remove)
    ensures r.index.New? ==> Apply(Apply(r, Remove), Remove) != Apply(r, Remove)
  {
  }

  /** Which histories leave the channel in channels_: those with a first call and
      no Remove after it. Later enables do not bring a removed channel back. */
  lemma {:induction false} ListedExactly(calls: seq<Call>)
    ensures Replay(calls).listed <==> calls != [] && Remove !in calls[1..]
  {
    if calls != [] {
      var before, last := calls[..|calls| - 1], calls[|calls| - 1];
      ListedExactly(before);
      EveryHistoryIsCoherent(before);
      ApplyKeepsCoherent(Replay(before), last);
      if before == [] {
        assert calls[1..] == [];
      } else {
        assert calls[1..] == before[1..] + [last];
        if last == Remove {
          RemovalThroughReentry(Replay(before));
        }
      }
    }
  }

  // The calls that drop interest from a channel already taken off epoll.
  lemma EmptyMaskRegistered()
    ensures var r := Replay([EnableReading, DisableAll, DisableAll]);
            r.events == {} && r.kernel == Some({}) && r.listed
  {
    var one, two: seq<Call> := [EnableReading], [EnableReading, DisableAll];
    assert one[..0] == [] && two[..1] == one && [EnableReading, DisableAll, DisableAll][..2] == two;
    assert Replay(one) == Apply(FRESH, EnableReading) && FRESH.events + READ_EVENT != {} by {
      assert In in FRESH.events + READ_EVENT;
    }
    assert Replay(two) == Apply(Replay(one), DisableAll);
  }

  /** No interest, hence not in the kernel's table. */
  predicate QuietlyOff(r: Reg) { r.events == {} ==> r.kernel.None? }

  /** The call does not drop the last interest of a channel that is off epoll already. */
  predicate DropsWhenAdded(r: Reg, call: Call) {
    call != Remove && Apply(r, call).events == {} ==> r.index.Added?
  }

  /** A call that leaves no interest takes the channel off epoll exactly when it was on it
      or is Remove; otherwise it registers the channel, with an empty mask. */
  lemma NoInterestUnregistersExactly(r: Reg, call: Call)
    requires Coherent(r)
    ensures QuietlyOff(Apply(r, call)) <==> DropsWhenAdded(r, call)
    ensures !DropsWhenAdded(r, call) ==> Apply(r, call).kernel == Some({})
  {
    ApplyKeepsCoherent(r, call);
    if call == Remove { RemovalThroughReentry(r); }
  }

  lemma ReplayNext(calls: seq<Call>, n: nat)
    requires n < |calls|
    ensures Replay(calls[..n + 1]) == Apply(Replay(calls[..n]), calls[n])
  {
    assert calls[..n + 1][..n] == calls[..n];
  }

  predicate OffAfter(calls: seq<Call>, n: nat)
    requires n <= |calls|
  {
    QuietlyOff(Replay(calls[..n]))
  }

  predicate DropsAt(calls: seq<Call>, n: nat)
    requires n < |calls|
  {
    DropsWhenAdded(Replay(calls[..n]), calls[n])
  }

  lemma OffAfterExactly(calls: seq<Call>, n: nat)
    requires n < |calls|
    ensures OffAfter(calls, n + 1) <==> DropsAt(calls, n)
  {
    EveryHistoryIsCoherent(calls[..n]);
    NoInterestUnregistersExactly(Replay(calls[..n]), calls[n]);
    ReplayNext(calls, n);
  }

  /** No interest means not registered, all along a history, exactly when none of its calls
      leaves a channel without interest that was not on epoll before it. */
  lemma QuietlyOffExactly(calls: seq<Call>)
    ensures (forall n :: 0 <= n <= |calls| ==> OffAfter(calls, n)) <==> (forall n :: 0 <= n < |calls| ==> DropsAt(calls, n))
  {
    hide OffAfter, DropsAt;
    NewIsOff(calls);
    if forall n :: 0 <= n <= |calls| ==> OffAfter(calls, n) {
      forall n | 0 <= n < |calls| ensures DropsAt(calls, n) {
        assert OffAfter(calls, n + 1);
        OffAfterExactly(calls, n);
      }
    }
    if forall n :: 0 <= n < |calls| ==> DropsAt(calls, n) {
      forall n | 0 <= n <= |calls| ensures OffAfter(calls, n) {
        if n > 0 { OffAfterExactly(calls, n - 1); }
      }
    }
  }

  lemma NewIsOff(calls: seq<Call>)
    ensures OffAfter(calls, 0)
  {
  }

  predicate Clears(call: Call, off: Call) { call == off || call == DisableAll || call == Remove }

  /** The bit the last relevant call of the history asked for. */
  ghost predicate Wants(calls: seq<Call>, on: Call, off: Call)
  {
    exists i :: 0 <= i < |calls| && calls[i] == on
                && forall j :: i < j < |calls| ==> !Clears(calls[j], off)
  }

  lemma WantsKept(before: seq<Call>, last: Call, on: Call, off: Call)
    requires last != on && !Clears(last, off)
    ensures Wants(before + [last], on, off) <==> Wants(before, on, off)
  {
    var all := before + [last];
    if Wants(before, on, off) {
      var i :| 0 <= i < |before| && before[i] == on && forall j :: i < j < |before| ==> !Clears(before[j], off);
      assert all[i] == on;
    }
    if Wants(all, on, off) {
      var i :| 0 <= i < |all| && all[i] == on && forall j :: i < j < |all| ==> !Clears(all[j], off);
      assert before[i] == on;
      forall j | i < j < |before| ensures !Clears(before[j], off) {
        assert all[j] == before[j];
      }
    }
  }

  lemma WantsStep(before: seq<Call>, last: Call, on: Call, off: Call)
    requires !Clears(on, off)
    ensures Wants(before + [last], on, off) <==> last == on || (!Clears(last, off) && Wants(before, on, off))
  {
    var all := before + [last];
    assert all[|before|] == last;
    if last != on && !Clears(last, off) {
      WantsKept(before, last, on, off);
    }
  }

  /** The kernel watches for EPOLLOUT (for EPOLLIN and EPOLLPRI) exactly when the last call
      that decides it enabled it, and for nothing else. */
  lemma {:induction false} KernelMaskExactly(calls: seq<Call>)
    ensures var k, write, read := Replay(calls).kernel, Wants(calls, EnableWriting, DisableWriting), Wants(calls, EnableReading, DisableReading);
            (k.Some? && Out in k.value <==> write) && (k.Some? && In in k.value <==> read)
            && (k.Some? ==> k.value == (if read then {In, Pri} else {}) + if write then {Out} else {})
  {
    if calls != [] {
      var before, last := calls[..|calls| - 1], calls[|calls| - 1];
      KernelMaskExactly(before);
      EveryHistoryIsCoherent(before);
      EveryHistoryIsCoherent(calls);
      assert calls == before + [last];
      WantsStep(before, last, EnableWriting, DisableWriting);
      WantsStep(before, last, EnableReading, DisableReading);
    }
  }

  // ---------------------------------------------------------------- classes

  datatype Registration = Registration(mask: Mask, ptr: Channel)

  class Channel {
    const loop: Epollpoller
    const fd: int
    var events: Mask
    var revents: Mask
    var index: Index

    constructor (loop: Epollpoller, fd: int)
      ensures this.loop == loop && this.fd == fd
      ensures events == {} && revents == {} && index == New
    {
      this.loop := loop;
      this.fd := fd;
      events, revents, index := {}, {}, New;
    }

    predicate IsNoneEvent() reads this { events == {} }

    predicate IsWriting() reads this { events * WRITE_EVENT != {} }

    method EnableReading()
      modifies this, loop
      ensures loop.View(this) == Apply(old(loop.View(this)), Call.EnableReading)
      ensures loop.OthersKept(this, old(loop.channels), old(loop.table)) && revents == old(revents)
    {
      events := events + READ_EVENT;
      loop.UpdateChannel(this);
    }

    method DisableReading()
      modifies this, loop
      ensures loop.View(this) == Apply(old(loop.View(this)), Call.DisableReading)
      ensures loop.OthersKept(this, old(loop.channels), old(loop.table)) && revents == old(revents)
    {
      events := events - READ_EVENT;
      loop.UpdateChannel(this);
    }

    method EnableWriting()
      modifies this, loop
      ensures loop.View(this) == Apply(old(loop.View(this)), Call.EnableWriting)
      ensures loop.OthersKept(this, old(loop.channels), old(loop.table)) && revents == old(revents)
    {
      events := events + WRITE_EVENT;
      loop.UpdateChannel(this);
    }

    method DisableWriting()
      modifies this, loop
      ensures loop.View(this) == Apply(old(loop.View(this)), Call.DisableWriting)
      ensures loop.OthersKept(this, old(loop.channels), old(loop.table)) && revents == old(revents)
    {
      events := events - WRITE_EVENT;
      loop.UpdateChannel(this);
    }

    method DisableAll()
      modifies this, loop
      ensures loop.View(this) == Apply(old(loop.View(this)), Call.DisableAll)
      ensures loop.OthersKept(this, old(loop.channels), old(loop.table)) && revents == old(revents)
    {
      events := {};
      loop.UpdateChannel(this);
    }

    method Remove()
      modifies this, loop
      ensures loop.View(this) == Apply(old(loop.View(this)), Call.Remove)
      ensures loop.OthersKept(this, old(loop.channels), old(loop.table)) && revents == old(revents)
    {
      loop.RemoveChannel(this);
    }
  }

  class Epollpoller {
    var channels: map<int, Channel>          // fd -> channel, kept by the poller
    var table: map<int, Registration>        // fd -> registration, kept by the kernel
    var fatal: bool
    var delErrors: nat

    constructor ()
      ensures channels == map[] && table == map[] && !fatal && delErrors == 0
    {
      channels, table, fatal, delErrors := map[], map[], false, 0;
    }

    ghost function View(c: Channel): Reg
      reads this, c
    {
      Reg(c.index, c.events, c.fd in channels && channels[c.fd] == c,
          if c.fd in table then Some(table[c.fd].mask) else None, fatal, delErrors)
    }

    /** Every entry but the one of `c` is as it was, and an entry written for `c`
        points at `c`. */
    ghost predicate OthersKept(c: Channel, channelsBefore: map<int, Channel>, tableBefore: map<int, Registration>)
      reads this
    {
      && channels - {c.fd} == channelsBefore - {c.fd}
      && table - {c.fd} == tableBefore - {c.fd}
      && (c.fd in table ==> table[c.fd].ptr == c || (c.fd in tableBefore && table[c.fd] == tableBefore[c.fd]))
    }

    // One epoll_ctl. A failed ADD or MOD ends the process; a failed DEL is logged.
    method UpdateKernel(op: CtlOp, c: Channel)
      modifies this`table, this`fatal, this`delErrors
      ensures View(c) == Ctl(old(View(c)), op)
      ensures OthersKept(c, channels, old(table))
    {
      match op
      case Add =>
        if c.fd in table { fatal := true; } else { table := table[c.fd := Registration(c.events, c)]; }
      case Mod =>
        if c.fd !in table { fatal := true; } else { table := table[c.fd := Registration(c.events, c)]; }
      case Del =>
        if c.fd !in table { delErrors := delErrors + 1; } else { table := table - {c.fd}; }
    }

    method UpdateChannel(c: Channel)
      modifies this, c`index
      ensures View(c) == Update(old(View(c)))
      ensures OthersKept(c, old(channels), old(table))
    {
      if c.index == New || c.index == Deleted {
        if c.index == New {
          channels := channels[c.fd := c];
        }
        c.index := Added;
        UpdateKernel(Add, c);
      } else {
        if c.IsNoneEvent() {
          UpdateKernel(Del, c);
          c.index := Deleted;
        } else {
          UpdateKernel(Mod, c);
        }
      }
    }

    method RemoveChannel(c: Channel)
      requires c.loop == this
      modifies this, c
      ensures View(c) == RemoveReg(old(View(c)))
      ensures OthersKept(c, old(channels), old(table)) && c.revents == old(c.revents)
    {
      channels := channels - {c.fd};
      c.DisableAll();
      if c.index == Added {
        UpdateChannel(c);
      }
    }

    /** Copies what epoll_wait reported, one entry a registered descriptor, into the
        active list and the channels' revents. */
    method FillActiveChannels(reported: seq<Registration>, active: seq<Channel>) returns (filled: seq<Channel>)
      requires forall i, j :: 0 <= i < j < |reported| ==> reported[i].ptr != reported[j].ptr
      modifies set i | 0 <= i < |reported| :: reported[i].ptr`revents
      ensures |filled| == |active| + |reported| && filled[..|active|] == active
      ensures forall i :: 0 <= i < |reported| ==> filled[|active| + i] == reported[i].ptr
      ensures forall i :: 0 <= i < |reported| ==> reported[i].ptr.revents == reported[i].mask
    {
      filled := active;
      var i := 0;
      while i < |reported|
        invariant 0 <= i <= |reported|
        invariant |filled| == |active| + i && filled[..|active|] == active
        invariant forall k :: 0 <= k < i ==> filled[|active| + k] == reported[k].ptr
        invariant forall k :: 0 <= k < i ==> reported[k].ptr.revents == reported[k].mask
      {
        reported[i].ptr.revents := reported[i].mask;
        filled := filled + [reported[i].ptr];
        i := i + 1;
      }
    }
  }

  // ------------------------------------------------------- many channels

  /** The calls of one channel in an interleaved history. */
  function Project(calls: seq<(nat, Call)>, who: nat): seq<Call> {
    if calls == [] then []
    else
      var last := calls[|calls| - 1];
      Project(calls[..|calls| - 1], who) + if last.0 == who then [last.1] else []
  }

  method Perform(c: Channel, call: Call)
    modifies c, c.loop
    ensures c.loop.View(c) == Apply(old(c.loop.View(c)), call)
    ensures c.loop.OthersKept(c, old(c.loop.channels), old(c.loop.table)) && c.revents == old(c.revents)
  {
    match call
    case EnableReading => c.EnableReading();
    case DisableReading => c.DisableReading();
    case EnableWriting => c.EnableWriting();
    case DisableWriting => c.DisableWriting();
    case DisableAll => c.DisableAll();
    case Remove => c.Remove();
  }

  ghost predicate OwnDescriptors(loop: Epollpoller, cs: seq<Channel>) {
    && (forall i :: 0 <= i < |cs| ==> cs[i].loop == loop)
    && (forall i, j :: 0 <= i < j < |cs| ==> cs[i].fd != cs[j].fd)
  }

  /** The channel is as its own calls alone would leave it, and the kernel's entry for
      its descriptor points at it. */
  ghost predicate Tracks(loop: Epollpoller, c: Channel, own: seq<Call>)
    reads loop, c
  {
    && loop.View(c) == Replay(own) && Coherent(loop.View(c))
    && (c.fd in loop.table ==> loop.table[c.fd].ptr == c)
  }

  ghost predicate Follows(loop: Epollpoller, cs: seq<Channel>, calls: seq<(nat, Call)>)
    reads loop, cs
  {
    forall i :: 0 <= i < |cs| ==> Tracks(loop, cs[i], Project(calls, i))
  }

  lemma ProjectStep(before: seq<(nat, Call)>, who: nat, call: Call, i: nat)
    ensures Project(before + [(who, call)], i)
         == if i == who then Project(before, i) + [call] else Project(before, i)
  {
    assert (before + [(who, call)])[..|before|] == before;
  }

  // `was` is the other channel's view before the call on `c`.
  lemma OtherTracks(loop: Epollpoller, c: Channel, other: Channel, was: Reg,
                    channelsBefore: map<int, Channel>, tableBefore: map<int, Registration>)
    requires other.fd != c.fd && loop.OthersKept(c, channelsBefore, tableBefore)
    requires was == Reg(other.index, other.events, other.fd in channelsBefore && channelsBefore[other.fd] == other,
                        if other.fd in tableBefore then Some(tableBefore[other.fd].mask) else None,
                        loop.fatal, loop.delErrors)
    requires other.fd in tableBefore ==> tableBefore[other.fd].ptr == other
    ensures loop.View(other) == was && (other.fd in loop.table ==> loop.table[other.fd].ptr == other)
  {
    OtherEntries(loop, c, other, channelsBefore, tableBefore);
  }

  // One call on one of the channels, by a coherent history.
  method PerformTracked(loop: Epollpoller, c: Channel, call: Call, ghost own: seq<Call>)
    requires c.loop == loop && Tracks(loop, c, own)
    modifies loop, c
    ensures Tracks(loop, c, own + [call])
    ensures loop.OthersKept(c, old(loop.channels), old(loop.table))
    ensures loop.fatal == old(loop.fatal) && loop.delErrors == old(loop.delErrors)
  {
    ApplyKeepsCoherent(loop.View(c), call);
    assert (own + [call])[..|own|] == own;
    Perform(c, call);
  }

  method PerformOne(loop: Epollpoller, cs: seq<Channel>, ghost before: seq<(nat, Call)>, who: nat, call: Call)
    requires OwnDescriptors(loop, cs) && who < |cs| && Follows(loop, cs, before)
    modifies loop, cs
    ensures Follows(loop, cs, before + [(who, call)])
  {
    PerformTracked(loop, cs[who], call, Project(before, who));
    forall i | 0 <= i < |cs|
      ensures Tracks(loop, cs[i], Project(before + [(who, call)], i))
    {
      ProjectStep(before, who, call, i);
      if i != who {
        OtherTracks(loop, cs[who], cs[i], Replay(Project(before, i)), old(loop.channels), old(loop.table));
      }
    }
  }

  /** Any interleaving of calls on new channels with distinct descriptors leaves
      every channel as its own calls alone would, takes no fatal path, and every
      entry of the kernel's table points at the channel with that descriptor. */
  method AnyInterleaving(loop: Epollpoller, cs: seq<Channel>, calls: seq<(nat, Call)>)
    requires OwnDescriptors(loop, cs)
    requires forall k :: 0 <= k < |calls| ==> calls[k].0 < |cs|
    requires forall i :: 0 <= i < |cs| ==> loop.View(cs[i]) == FRESH
    modifies loop, cs
    ensures Follows(loop, cs, calls)
  {
    var k := 0;
    while k < |calls|
      invariant 0 <= k <= |calls|
      invariant Follows(loop, cs, calls[..k])
    {
      PerformOne(loop, cs, calls[..k], calls[k].0, calls[k].1);
      assert calls[..k + 1] == calls[..k] + [calls[k]];
      k := k + 1;
    }
    assert calls[..k] == calls;
  }

  lemma OtherEntries(loop: Epollpoller, c: Channel, other: Channel,
                     channelsBefore: map<int, Channel>, tableBefore: map<int, Registration>)
    requires loop.OthersKept(c, channelsBefore, tableBefore) && other.fd != c.fd
    ensures other.fd in loop.channels <==> other.fd in channelsBefore
    ensures other.fd in loop.channels ==> loop.channels[other.fd] == channelsBefore[other.fd]
    ensures other.fd in loop.table <==> other.fd in tableBefore
    ensures other.fd in loop.table ==> loop.table[other.fd] == tableBefore[other.fd]
  {
    assert other.fd in loop.channels - {c.fd} <==> other.fd in channelsBefore - {c.fd};
    assert other.fd in loop.table - {c.fd} <==> other.fd in tableBefore - {c.fd};
  }
}
