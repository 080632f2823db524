# Verification of the networking and logging core

A Dafny model of a multi-reactor TCP framework (`src/net`) and of its asynchronous
loggers (`src/base`), with proofs about whole runs. The kernel is an input: what `write`,
`readv` and `epoll_wait` answer, when threads run and what user code does are parameters
or steps, and every theorem is for all of them. The epoll table, the eventfd counter, the
bytes a socket has taken and its SHUT_WR calls are modelled state.

Each mutable class of the source is a class here whose methods are proved against a
specification on values; the runs of that specification carry the theorems.

| file | what it holds |
|---|---|
| `ByteBuffer.dfy` | `Buffer`: the byte queue in one array, its layout over runs |
| `Poller.dfy` | `Channel` and `Epollpoller`: registration, removal through re-entry, interleaved channels |
| `ConnectionModel.dfy`, `Connection.dfy` | the handlers of `Connection`: output stream, interest, half-close; the class on a buffer each way, a channel and the poller |
| `FunctorQueue.dfy`, `EventLoopModel.dfy`, `EventLoop.dfy` | the pending functors and the wakeup protocol with any number of producers |
| `ServerModel.dfy`, `ServerSafety.dfy`, `ServerTheorems.dfy` | the life of connections over a main loop and any number of io loops: the steps, what each keeps, the results |
| `ServerStreams.dfy` | each connection of the server goes through a run of the connection model; its streams, and the order of sends from other threads |
| `ServerProgress.dfy` | closed connections are destroyed, and nothing then keeps them |
| `ServerWakeup.dfy` | the wakeups of a run of the server, loop by loop: they are a run of the wakeup protocol, so no loop sleeps on a functor |
| `ServerShutdown.dfy`, `ServerHalfClose.dfy`, `ServerLostSends.dfy` | the half-close over a server's runs: exactly when a `shutdown` on another thread issues SHUT_WR twice, that every other issues it once, that nothing is sent after it, and exactly when it loses a queued send |
| `TcpServer.dfy` | names of connections and the name-keyed map |
| `AsyncLoggingModel.dfy`, `AsyncLogging.dfy` | `Asynclogging`: rotation of buffers between producers and writer, loss; the classes over `LogBuffer` objects, each with one owner |
| `WorkQueueModel.dfy`, `WorkQueues.dfy` | `WorkThreadPool` and `AsyncLog`: queues with a condition variable |

## Where the naive claim is false

Each of these is proved with the condition under which the code does meet the claim.

- A removed channel may stay in `channels_`: removing one that was never added puts it
  there (`Poller.RemovalThroughReentry`, `Poller.ListedExactly`).
- No interest does not mean not registered: `disableAll` on a deleted channel issues ADD
  with an empty mask (`Poller.EmptyMaskRegistered`). It does exactly as long as no call but
  a removal leaves a channel without interest that was not on epoll before it
  (`Poller.QuietlyOffExactly`); index and registration agree in any case
  (`Poller.EveryHistoryIsCoherent`).
- SHUT_WR may be issued twice when `shutdown` is called on another thread: the drain sees
  kDisconnecting before the queued half runs (`ConnectionModel.RemoteShutdownMayRepeat`,
  and with nothing unsent at the call `ServerShutdown.QueuedSendRepeats`). It is issued at
  most once in every continuation exactly when at the call no drain may come first
  (`ServerShutdown.CrossShutdownOnceExactly`): either there is neither unsent output nor a
  queued send with bytes in the rest of the running batch, or the loop is handling a round
  whose poll stored no EPOLLOUT for the connection, or a hang-up that closes it first.
  Output that became unsent during the round does not matter, as EPOLLOUT is then not in
  the stored mask (`ServerShutdown.StaleMaskIsHarmless`).
- A `shutdown` on the loop thread issues it once, whoever else sends
  (`ServerHalfClose.LoopShutdownOnce`), and nothing is written after a SHUT_WR
  (`ServerHalfClose.NothingAfterShutWr`). But the kernel refuses what comes later, so a
  send that another thread queued before the shutdown is lost if SHUT_WR overtakes it
  (`ServerLostSends.LosesItsBytes`). That may happen, whichever thread shuts down, exactly
  when SHUT_WR has been issued, bytes are queued and no stored hang-up closes the connection
  first, or when it has not, bytes wait for the next batch, and an event may before that
  drain output that is unsent or that the running batch makes
  (`ServerLostSends.QueuedSendsLostExactly`). For a thread's own send followed by its
  own `shutdown` that is when an event may drain the connection before they run
  (`ServerLostSends.SendThenShutdownLosesExactly`).
- `handleClose` runs twice for one dispatch that reports EPOLLHUP without EPOLLIN together
  with EPOLLPRI or EPOLLRDHUP on a stream at its end, and only then
  (`ConnectionModel.DoubleCloseExactly`, `ServerTheorems.ClosedOnceExactly`). It may happen
  to every open connection (`ServerTheorems.OpenMayCloseTwice`).
- Functors queued by the owner thread before `loop()` are not woken for
  (`EventLoopModel.NoLostWakeupExactly`).
- The note "Dropped n logs" counts buffers, not messages
  (`AsyncLoggingModel.DropCountsBuffers`). It never overstates the loss
  (`AsyncLoggingModel.NoteNeverOverstates`), and it is exact in every run exactly when no
  message is shorter than 2048 bytes (`AsyncLoggingModel.NoteExactExactly`).
- A message longer than a log buffer is copied past its end, so the rotation is safe
  exactly without one (`AsyncLoggingModel.NeverCrashesExactly`).
- Connection names are cut at 63 characters, so they are distinct over the whole range of
  the counter exactly for listening addresses of at most 51 characters
  (`TcpServer.NamesDistinctExactly`); an IPv4 address with a port has at most 21.

## Model

| member | source | states |
|---|---|---|
| ServerTheorems.Ownership | src/net/TcpServer.cc:84-108 | in every reachable state a connection that epoll, a poller's map, an active list or a waiting functor can still reach is alive and has an owner; two such connections never share a descriptor |
| ServerTheorems.ReclaimIsSafe | src/net/Connection.cc:136-156 | a connection is reclaimed only after `connectDestroyed` ran, disconnected, out of epoll and of the poller, with no functor left that names it |
| ServerTheorems.RawsRunFirst | src/net/Connection.cc:44-52 | every queued functor bound to a raw `this` sits in its connection's own loop before any `connectDestroyed` of it, and the connection is alive and not yet destroyed |
| ServerTheorems.LifeCycle | src/net/Connection.cc:136-156 | announced up exactly once and before any epoll entry; down once a close; closed iff disconnected; after `connectDestroyed` out of epoll and poller; destroys <= erases <= closes; the fatal `epoll_ctl` path is never taken |
| ServerTheorems.OnlyForward | src/net/Connection.cc:119-156 | over any stretch of a run the state only moves forward and closes are not taken back |
| ServerTheorems.ClosedOnceExactly | src/net/Channel.cc:59-95 | every connection goes down at most once iff no step of the run reports a hang-up without EPOLLIN together with EPOLLPRI or EPOLLRDHUP at the end of the stream |
| ServerTheorems.OpenMayCloseTwice | src/net/Channel.cc:64-86 | from every reachable state in which the loop of an open connection polls, a poll and one event the kernel may report close it twice |
| ServerTheorems.MapExactly | src/net/TcpServer.cc:84-105 | the map holds exactly the connections created and not yet processed by `removeConnectionInLoop` |
| ServerTheorems.InterestInServer | src/net/Connection.cc:111-115 | under the server's protocol the kernel watches an open connection for reading always and for writing exactly when output waits |
| ServerStreams.ConnectionRefined | src/net/Connection.cc:42-213 | in every run of the server each connection goes through a legal run of the connection model, made of its establishment, its events, its user calls and its functors |
| ServerStreams.HandedOverInOrder | src/net/Connection.cc:42-55 | what other threads send while the connection is connected has run on its loop or waits for it, whole, in the order of the calls, and nothing else does |
| ServerStreams.StreamsInServer | src/net/Connection.cc:62-117 | in every run of the server what is sent and taken over is on the wire or unsent, and what was read is taken or in the input buffer, in order |
| ServerShutdown.CrossShutdownOnceExactly | src/net/Connection.cc:119-134 | in every reachable state, over all continuations by all loops, threads and kernel answers, a shutdown called on another thread issues SHUT_WR at most once iff no event may drain the connection before its queued half: the round being handled stored no EPOLLOUT for it or a hang-up that closes it first, or there is neither unsent output nor a queued send with bytes in the rest of the batch |
| ServerShutdown.QueuedSendRepeats | src/net/Connection.cc:44-52 | a reachable state with nothing unsent, where a send queued by another thread makes such a shutdown issue SHUT_WR twice |
| ServerShutdown.StaleMaskIsHarmless | src/net/Epollpoller.cc:64-67 | a reachable round that stored only EPOLLIN, in which output became unsent and a shutdown on another thread still issues SHUT_WR once |
| ServerShutdown.StepWait | src/net/EventLoop.cc:93-111 | everything one step of the server may do to one connection, its functors in batch and queue, and the events it may get before the next swap |
| ServerShutdown.NextKeepsOrder | src/net/Connection.cc:119-126 | a connection still up has issued no SHUT_WR and has no shutdown queued, and a queued one is the last raw functor |
| ServerShutdown.NextKeepsOnce | src/net/Connection.cc:187-201 | every step but an unsafe shutdown on another thread keeps it so that at most one SHUT_WR has been issued and none comes too often |
| ServerShutdown.SpentSend | src/net/Connection.cc:74-98 | after SHUT_WR a queued send is faulted or refused, writes nothing and buffers nothing |
| ServerShutdown.DispatchDrains | src/net/Connection.cc:187-201 | a dispatch of a connection shutting down issues SHUT_WR at most once, and only by a drain that leaves it not writing |
| ServerHalfClose.LoopShutdownOnce | src/net/Connection.cc:119-134 | a shutdown called on the loop thread issues SHUT_WR at most once in every continuation, whatever other threads have queued |
| ServerHalfClose.RunShutsOnce | src/net/Connection.cc:119-134 | over a whole run SHUT_WR is issued at most once on a connection, unless another thread shuts it down where a drain may get in first |
| ServerHalfClose.NothingAfterShutWr | src/net/Connection.cc:128-134 | in every run, with sends and shutdowns on any thread: a SHUT_WR on an open connection means the wire holds every byte taken over, every SHUT_WR saw that wire, and no continuation adds to it |
| ServerHalfClose.HalfCloseIsPromised | src/net/Connection.cc:187-201 | in every reachable state a connection shutting down with no queued half has issued SHUT_WR or has unsent output and EPOLLOUT watched for the drain that will |
| ServerHalfClose.NextKeepsPromises | src/net/Connection.cc:187-201 | every step keeps that |
| ServerLostSends.QueuedSendsLostExactly | src/net/Connection.cc:44-52 | in every reachable state of a connection shutting down, whichever thread asked for it, some continuation drops the bytes of a queued send after SHUT_WR iff bytes are queued that SHUT_WR may overtake: it is issued and no stored hang-up closes the connection first, or it is not, the next batch has bytes, and an event may drain before it what is unsent or what the running batch sends |
| ServerLostSends.SendThenShutdownLosesExactly | src/net/Connection.cc:119-126 | in every reachable state, a send with bytes followed by a shutdown of the same other thread may lose queued bytes iff an event may drain the connection before they run |
| ServerLostSends.LosesItsBytes | src/net/Connection.cc:77-102 | run after SHUT_WR on an open connection, a queued send is taken over as faulted: nothing reaches the wire or the buffer |
| ServerLostSends.RunKeepsNoLoss | src/net/Connection.cc:77-102 | from a state of a connection no longer up in which SHUT_WR can overtake no queued bytes, no run and no answer of the kernel leads to one in which it can |
| ServerWakeup.WokenForWork | src/net/EventLoop.cc:83-191 | after every run of the server, the eventfd written by exactly the wakeups that run owes, each by the thread that pushed, is readable at every poll of a loop with a functor queued; what a loop has run and still has queued is everything pushed to it, in order |
| ServerWakeup.WokenToDestroy | src/net/TcpServer.cc:97-108 | a closed connection not yet destroyed has its removal or its destruction in a queue, and the wakeups of the run make the eventfd of that loop readable at its poll |
| ServerWakeup.StepIsRun | src/net/EventLoop.cc:141-167 | every step of the server is, in every loop, the stretch of the wakeup protocol that `Translate` fixes: pushes by the thread that makes them, wakeups by the source's condition, with the same queue and phase after it |
| ServerProgress.ClosedIsDestroyed | src/net/TcpServer.cc:97-108 | whatever else happens, a closed connection is destroyed, out of epoll and of the poller, once a batch of the main loop and then one of its own have been run to their ends |
| ServerProgress.ClosedIsReclaimable | src/net/TcpServer.cc:101-108 | no leak: with no loop running functors, none queued and no user reference, a closed connection is out of the map, destroyed, and without an owner |
| ServerProgress.HeldExactly | src/net/Connection.cc:136-156 | over every run user code holds as many references as it took less those it dropped, and the object is alive exactly until its one reclamation |
| ServerProgress.NextKeepsDue | src/net/EventLoop.cc:187-190 | a removal or destruction taken up by a batch stays in it until it has run |
| ServerTheorems.NextKeepsInv | src/net/TcpServer.cc:62-108 | every step of every thread keeps the joint invariant of loops, queues, map and connections |
| ServerTheorems.NextKeepsOwners | src/net/EventLoop.cc:179-193 | every step keeps every owner (map entry, user reference, functor held by a queue or a batch) pointing at a living connection |
| ServerTheorems.UseIsOwned | src/net/EventLoop.cc:93-111 | from the invariant: whatever can still reach a connection comes with an owner of it |
| ServerTheorems.ReclaimStep | src/net/Connection.cc:37-40 | losing the last owner keeps the invariant, and happens only out of epoll and after destruction |
| ServerTheorems.StepMoves | src/net/Connection.cc:62-226 | what one step of the server may do to one connection: nothing that closes it, its establishment, its destruction, or exactly one dispatch |
| ServerTheorems.DoubleHangupClosesTwice | src/net/Channel.cc:64-86 | a run with such a double hang-up leaves a connection closed twice |
| ServerSafety.EventStep | src/net/EventLoop.cc:96-100 | dispatching the head of an active list, with its close callbacks, keeps the invariant |
| ServerSafety.RunStep | src/net/EventLoop.cc:187-190 | running any functor of a batch keeps the invariant |
| ServerSafety.UserStep | src/net/Connection.cc:42-55 | user calls on the loop thread or another one keep the invariant |
| ServerSafety.AcceptStep | src/net/TcpServer.cc:62-96 | accepting a connection with a free descriptor keeps the invariant |
| ServerSafety.DispatchEffect | src/net/Channel.cc:59-95 | one dispatch either keeps the connection open and registered or leaves it down, each close reported once |
| ServerSafety.TrackHead | src/net/TcpServer.cc:95-107 | a functor at the head of a connection's queue meets the state it expects: establish only when connecting, destroy only when disconnected |
| ServerSafety.TrackErased | src/net/TcpServer.cc:101-108 | one removal settles one owed close: the erase is matched by one queued destruction |
| TcpServer.NamesDistinctExactly | src/net/TcpServer.cc:65-69 | generated names are pairwise distinct up to INT_MAX iff the address part has at most 51 characters |
| TcpServer.DecimalInjective | src/net/TcpServer.cc:66 | printing in decimal is injective |
| TcpServer.DecimalDenotes | src/net/TcpServer.cc:62-67 | %d prints the number in digits without leading zeros |
| TcpServer.SuffixUntruncated | src/net/TcpServer.cc:65-66 | for addresses up to 51 characters the suffix fits the 64-byte buffer |
| TcpServer.LastDigitCut | src/net/TcpServer.cc:65-66 | for a longer address two numbers in range print the same cut suffix |
| TcpServer.TcpServer.NewConnection | src/net/TcpServer.cc:62-96 | the name is new, the map gains exactly this entry, and the server moves as the model's accept does |
| TcpServer.TcpServer.RemoveConnection | src/net/TcpServer.cc:97-100 | removes at once on the main loop and otherwise only queues there, leaving the map alone |
| TcpServer.TcpServer.RemoveConnectionInLoop | src/net/TcpServer.cc:101-108 | erases exactly this connection's entry, if any, and queues its destruction on its own loop |
| ConnectionModel.OutputStream | src/net/Connection.cc:62-117 | for every run and every kernel answer the sends are all those asked for, in order, each with the fate of the state it was made in, and the wire followed by the unsent output is the concatenation of those taken |
| ConnectionModel.SendEffect | src/net/Connection.cc:62-117 | a send adds its bytes whole at the end of the stream iff it is taken; refused and faulted ones add nothing |
| ConnectionModel.SendWrites | src/net/Connection.cc:74-112 | a send with nothing in front of it writes what the kernel takes at once and keeps exactly the rest, one behind unsent bytes keeps everything, a faulted one nothing |
| ConnectionModel.DrainEffect | src/net/Connection.cc:180-208 | a writable event moves as much as the kernel takes from the front of the output to the wire, in every open state, and changes nothing else while some is left |
| ConnectionModel.OutputIsFlushed | src/net/Connection.cc:180-208 | while a connection is open and nothing more is sent, as many productive writable events as there are unsent bytes empty the output onto the wire, in order |
| ConnectionModel.AnnouncedExactly | src/net/Connection.cc:136-156 | over every legal run a connection is announced up once, when established, and down once for every close and for a destruction before any; it is disconnected exactly after that |
| ConnectionModel.WriteKeepsStream | src/net/Connection.cc:180-214 | any partial write of the drain moves bytes from the buffer to the wire and loses none |
| ConnectionModel.StepRecordsSends | src/net/Connection.cc:42-55 | every step makes exactly the sends it asks for; one on the loop thread is refused iff the connection is not connected, a queued one iff it is disconnected; either is faulted iff it is tried directly and meets EPIPE, ECONNRESET or its own SHUT_WR, and else taken |
| ConnectionModel.InputStream | src/net/Connection.cc:158-179 | over every run the bytes user code has taken, followed by the input buffer, are all that was read, in order; a readv follows EPOLLIN, EPOLLPRI and EPOLLRDHUP |
| ConnectionModel.KernelFollowsOutput | src/net/Connection.cc:74-115 | end to end over every run: EPOLLOUT in the kernel's mask iff the output buffer is non-empty, EPOLLIN always, no illegal `epoll_ctl` |
| ConnectionModel.StepKeepsInterest | src/net/Connection.cc:187-202 | every step keeps interest bits, kernel mask and output buffer in agreement |
| ConnectionModel.HalfClose | src/net/Connection.cc:119-134 | on the loop thread SHUT_WR comes at most once, with an empty buffer and the wire equal to the whole accepted stream, which nothing later changes |
| ConnectionModel.HalfCloseIsReached | src/net/Connection.cc:187-201 | after shutdown and barring a close, as many productive writable events as there are unsent bytes reach the half-close |
| ConnectionModel.RemoteShutdownMayRepeat | src/net/Connection.cc:119-126 | a run in which a shutdown on another thread makes SHUT_WR happen twice |
| ConnectionModel.RemoteShutdownAloneOnce | src/net/Connection.cc:119-134 | with nothing unsent and no other call from another thread under way, a shutdown on another thread issues it at most once in every continuation |
| ConnectionModel.HighWaterExactly | src/net/Connection.cc:105-109 | a send queues the high-water callback once, with the new level, iff it lifts the buffer from below the mark to it or above, and never another |
| ConnectionModel.SendCompletesExactly | src/net/Connection.cc:77-84 | a send queues write-complete once iff it was written directly and left nothing unsent |
| ConnectionModel.DrainCompletesExactly | src/net/Connection.cc:187-196 | a drain queues write-complete once iff it empties the output buffer |
| ConnectionModel.DoubleCloseExactly | src/net/Channel.cc:59-95 | a dispatch closes twice iff it reports EPOLLHUP without EPOLLIN, with EPOLLPRI or EPOLLRDHUP, at the end of the stream; not at all iff it reports neither such a hang-up nor, at the end of the stream, any of EPOLLIN, EPOLLPRI and EPOLLRDHUP |
| Connection.Connection.constructor | src/net/Connection.cc:17-35 | a new connection on an unused descriptor is in the initial state, unregistered |
| Connection.Connection.SendInLoop | src/net/Connection.cc:62-117 | on the real buffer, channel and poller the send does what the model's send does |
| Connection.Connection.WriteDirectly | src/net/Connection.cc:77-98 | how much the direct write took, whether it broke the connection, and the write-complete callback |
| Connection.Connection.Send | src/net/Connection.cc:42-49 | sends only while connected, on the loop thread |
| Connection.Connection.Shutdown | src/net/Connection.cc:119-126 | moves to disconnecting once and half-closes if nothing waits |
| Connection.Connection.ShutdownInLoop | src/net/Connection.cc:128-134 | SHUT_WR iff the channel is not writing |
| Connection.Connection.HandleWrite | src/net/Connection.cc:180-214 | drains by what the kernel took; at empty drops the interest, queues write-complete and finishes a pending shutdown |
| Connection.Connection.HandleRead | src/net/Connection.cc:158-179 | data goes to the input buffer and to user code, end of stream closes, an error changes nothing |
| Connection.Connection.HandleClose | src/net/Connection.cc:217-226 | down, no interest, reported once |
| Connection.Connection.HandleEvent | src/net/Channel.cc:59-95 | the order of the callbacks for any reported mask |
| Connection.Connection.ConnectEstablished | src/net/Connection.cc:136-144 | connected and reading before user code runs |
| Connection.Connection.ConnectDestroyed | src/net/Connection.cc:146-156 | down if it was still connected, and the channel removed |
| Poller.EveryHistoryIsCoherent | src/net/Epollpoller.cc:70-142 | after any history of enables, disables and removes: in the epoll table iff the index says added, kernel mask equal to `events_`, no `epoll_ctl` illegal |
| Poller.RemovalThroughReentry | src/net/Epollpoller.cc:70-118 | removal through the nested `disableAll` ends unregistered and without interest from every index; unlisted and idempotent exactly when the channel had been updated before |
| Poller.EmptyMaskRegistered | src/net/Epollpoller.cc:91-104 | two `disableAll` after an enable leave a channel without interest registered with an empty mask |
| Poller.NoInterestUnregistersExactly | src/net/Epollpoller.cc:91-118 | a call leaves no channel without interest in the epoll table iff it is a removal, leaves interest, or finds the channel added; otherwise the mask there is empty |
| Poller.QuietlyOffExactly | src/net/Epollpoller.cc:91-118 | over a whole history no interest means not registered at every point iff every call meets that condition |
| Poller.ListedExactly | src/net/Epollpoller.cc:74-98 | `channels_` lists a channel iff it has been called and no call after the first was a remove |
| Poller.KernelMaskExactly | src/net/Channel.cc:97-121 | the kernel watches for EPOLLOUT, and for EPOLLIN and EPOLLPRI, iff the last call of the history that decides it enabled it, and for nothing else |
| Poller.CtlFailsExactly | src/net/Epollpoller.cc:122-142 | ADD of a present entry and MOD of an absent one take the fatal path, DEL of an absent one is counted, and no failed call changes the table |
| Poller.AnyInterleaving | src/net/Epollpoller.cc:86-142 | any interleaving of calls on channels with distinct descriptors leaves each as its own calls alone would, with the table pointing at it |
| Poller.ProjectStep | src/net/Epollpoller.cc:86-120 | one more call extends the history of its own channel and no other |
| Poller.OtherEntries | src/net/Epollpoller.cc:86-120 | a call on one channel leaves every other descriptor's entries alone |
| Poller.Epollpoller.UpdateKernel | src/net/Epollpoller.cc:122-142 | ADD, MOD and DEL against the kernel's table, with the errors for a wrong one |
| Poller.Epollpoller.UpdateChannel | src/net/Epollpoller.cc:86-120 | add, modify or delete by index and interest; other descriptors untouched |
| Poller.Epollpoller.RemoveChannel | src/net/Epollpoller.cc:70-83 | the removal of the model, through the nested calls; other descriptors untouched |
| Poller.Epollpoller.FillActiveChannels | src/net/Epollpoller.cc:59-69 | the active list gains exactly the reported channels in order, each with its reported mask |
| Poller.Channel.EnableReading | src/net/Channel.cc:97-101 | one call of the history: EPOLLIN and EPOLLPRI on |
| Poller.Channel.DisableReading | src/net/Channel.cc:102-106 | one call of the history: EPOLLIN and EPOLLPRI off |
| Poller.Channel.EnableWriting | src/net/Channel.cc:107-111 | one call of the history: EPOLLOUT on |
| Poller.Channel.DisableWriting | src/net/Channel.cc:112-116 | one call of the history: EPOLLOUT off |
| Poller.Channel.DisableAll | src/net/Channel.cc:117-121 | one call of the history: no interest |
| Poller.Channel.Remove | src/net/Channel.cc:35-38 | one call of the history: removal through the loop |
| EventLoopModel.NoLostWakeupExactly | src/net/EventLoop.cc:83-191 | over every interleaving from a started loop, at the poll with work or a quit the eventfd is readable or about to be written, saturated counter included: iff the loop did not start on un-woken functors |
| EventLoopModel.CounterExactly | src/net/EventLoop.cc:72-81 | in every run the eventfd holds the wakeups written since it was last read, on top of its first value if it never was, up to what it can count |
| EventLoopModel.ReportedIsRead | src/net/EventLoop.cc:72-81 | between a poll that reports a wakeup and the swap of the queue the eventfd is read |
| EventLoopModel.OwnWakeNeededExactly | src/net/EventLoop.cc:141-154 | a push of the loop's own thread left without a wakeup may be slept on iff functors are running, which is when the source writes one; other threads always write one |
| EventLoopModel.NextKeepsInv | src/net/EventLoop.cc:141-167 | every step of every thread keeps it |
| EventLoopModel.RunConserves | src/net/EventLoop.cc:141-191 | executed, rest of the batch and queue together are all pushed functors in lock order, so each runs at most once |
| EventLoopModel.BatchIsFixed | src/net/EventLoop.cc:179-191 | what is queued while a batch runs never joins it |
| EventLoopModel.ServedInOneRound | src/net/EventLoop.cc:179-191 | whatever was queued before a swap has run when its batch is finished |
| EventLoop.EventLoop.EnqueueLocked | src/net/EventLoop.cc:143-147 | the push under the lock, owing a wakeup from another thread or during a batch |
| EventLoop.EventLoop.QueueInLoop | src/net/EventLoop.cc:141-154 | the functor goes last; the eventfd is readable afterwards from another thread or during a batch |
| EventLoop.EventLoop.RunInLoop | src/net/EventLoop.cc:129-139 | runs at once on the loop thread, otherwise queued and the loop woken |
| EventLoop.EventLoop.Wakeup | src/net/EventLoop.cc:157-167 | raises the counter, or leaves it when full |
| EventLoop.EventLoop.HandleRead | src/net/EventLoop.cc:72-81 | empties the eventfd |
| EventLoop.EventLoop.Quit | src/net/EventLoop.cc:118-127 | sets the flag and wakes the loop from any other thread |
| EventLoop.EventLoop.DoPendingFunctors | src/net/EventLoop.cc:179-193 | runs exactly what was pending at the swap, in order, whatever is pushed meanwhile |
| EventLoop.EventLoop.RunBatch | src/net/EventLoop.cc:187-190 | runs the swapped vector in order |
| EventLoop.EventLoop.RunLoop | src/net/EventLoop.cc:83-116 | the loop turns every round up to the one in which quit is called and then leaves; each round runs the queue it finds and what joins it before the swap, in order, and leaves what its batch pushed; it is a run of the step system |
| FunctorQueue.Queue.Push | src/net/EventLoop.cc:143-147 | a push goes behind everything unrun |
| FunctorQueue.Queue.Swap | src/net/EventLoop.cc:183-186 | the swap changes no order of what is unrun |
| FunctorQueue.Queue.Advance | src/net/EventLoop.cc:187-190 | running one takes the oldest unrun |
| ByteBuffer.MemoryBound | include/net/Buffer.h:20-33 | over any run the array is never longer than the larger of its first size and twice the peak of unread bytes plus seven |
| ByteBuffer.NewBufferBound | include/net/Buffer.h:20-33 | from a new buffer the array is never longer than its first size, the peak plus eight, or twice the peak plus six |
| ByteBuffer.UseAll | include/net/Buffer.h:69-119 | any mix of append, readFd, retrieve and in-range retrieveAsString on one buffer brings in and takes out exactly the bytes of the uses, and leaves the rest |
| ByteBuffer.QueueLaw | include/net/Buffer.h:69-119 | over those uses the bytes out followed by those unread are those unread at first followed by bytes in, and the array keeps the memory bound |
| ByteBuffer.UseOnce | src/net/Buffer.cc:9-41 | the bytes one use brings in and takes out, a readv up to the tail and the stack area, and the operation its layout goes through |
| ByteBuffer.MemoryBoundIsTight | include/net/Buffer.h:20-33 | for every peak some run from an empty buffer reaches that sharper bound |
| ByteBuffer.GrowsOnlyWhenFull | include/net/Buffer.h:104-110 | the array grows iff unread and new bytes with the prepend area exceed it and the tail is too short, to the end of the data; the unread bytes move to the front iff the tail is too short and they fit |
| ByteBuffer.ReadOffersEnough | src/net/Buffer.cc:9-41 | a readv brings in the front of what the socket holds, up to the tail and 65536 bytes more when the tail is shorter than that; so 65536 bytes always fit, and nothing comes only when there is nothing |
| ByteBuffer.ReadIsAppend | src/net/Buffer.cc:9-41 | a scatter read leaves the indices and the array size that appending all its bytes would |
| ByteBuffer.AfterAppend | include/net/Buffer.h:113-119 | keeps 8 <= reader <= writer <= size and the one-step memory bound |
| ByteBuffer.AfterRead | src/net/Buffer.cc:25-38 | the same for a scatter read of any length |
| ByteBuffer.Buffer.constructor | include/net/Buffer.h:45-48 | empty, behind the prepend area |
| ByteBuffer.Buffer.MakeSpace | include/net/Buffer.h:20-33 | growth and overlapping in-place compaction keep the unread bytes; compaction is reached only with the reader beyond the prepend area |
| ByteBuffer.Buffer.EnsureWriteableByte | include/net/Buffer.h:104-110 | room for the asked bytes, unread bytes unchanged |
| ByteBuffer.Buffer.Append | include/net/Buffer.h:113-119 | the bytes join the queue at its end |
| ByteBuffer.Buffer.Retrieve | include/net/Buffer.h:69-81 | drops that many from the front, or all |
| ByteBuffer.Buffer.RetrieveAsString | include/net/Buffer.h:96-102 | in range: result and rest are the old queue; beyond it: the old queue is a prefix of the result and nothing is left |
| ByteBuffer.Buffer.RetrieveAllAsString | include/net/Buffer.h:92-95 | the whole queue, which is then empty |
| ByteBuffer.Buffer.FindCRLF | include/net/Buffer.h:131-135 | the first CR LF, or none |
| ByteBuffer.Buffer.ReadFd | src/net/Buffer.cc:9-41 | any byte count, spilled through the stack area or not, joins the queue in order; an error changes nothing |
| ByteBuffer.Buffer.WriteFd | src/net/Buffer.cc:43-53 | offers the unread bytes and consumes none |
| AsyncLoggingModel.RotationOwnership | src/base/AsyncLog2.cc:103-161 | at every lock release a current buffer exists and the next or a full one too; at the writer's loop head both spares are back and empty |
| AsyncLoggingModel.RotatesExactly | src/base/AsyncLog2.cc:39-70 | an append fills the current buffer while it stays shorter than 4096 bytes, and otherwise queues it whole, behind the others, and starts an empty one with the message, using up the spare |
| AsyncLoggingModel.LogConservation | src/base/AsyncLog2.cc:55-143 | batches, full buffers and current buffer hold every message whole and in order; the file is, batch by batch, the count of discarded buffers and the first two |
| AsyncLoggingModel.LossIsExact | src/base/AsyncLog2.cc:123-143 | bytes in the file and bytes of the third and later buffers make up all bytes taken |
| AsyncLoggingModel.WrittenExactly | src/base/AsyncLog2.cc:123-143 | a batch puts into the file the count of its buffers from the third on, if any, and in one write the first buffer and then the second |
| AsyncLoggingModel.FileIsExact | src/base/AsyncLog2.cc:123-143 | the bytes of the file are those of the first two buffers of every batch, in order |
| AsyncLoggingModel.NothingLost | src/base/AsyncLog2.cc:123-143 | with at most two buffers in every batch the file holds everything taken |
| AsyncLoggingModel.NeverCrashesExactly | src/base/AsyncLog2.cc:55-82 | no null buffer is used and none overflows iff no message exceeds 4096 bytes |
| AsyncLoggingModel.DropCountsBuffers | src/base/AsyncLog2.cc:123-129 | six messages that fit two to a buffer, in one round: two lost, one reported |
| AsyncLoggingModel.NoteNeverOverstates | src/base/AsyncLog2.cc:123-129 | in every run no discarded buffer is empty, so the note counts at most the messages lost |
| AsyncLoggingModel.NoteExactExactly | src/base/AsyncLog2.cc:123-129 | the note counts the messages lost in every run of messages of at least k bytes iff k is at least 2048 |
| AsyncLoggingModel.NextKeepsRotating | src/base/AsyncLog2.cc:55-161 | every step of producers and writer keeps the rotation |
| AsyncLoggingModel.NextKeepsConserved | src/base/AsyncLog2.cc:55-161 | every step keeps the messages |
| AsyncLogging.Asynclogging.constructor | src/base/AsyncLog2.cc:4-14 | four empty buffers with one owner each |
| AsyncLogging.Asynclogging.Append | src/base/AsyncLog2.cc:55-82 | on the buffer objects, for a message of any length: into the current buffer, or into the next or a new one behind it; past the end iff it is longer than a buffer; every buffer keeps one owner |
| AsyncLogging.Asynclogging.Rotate | src/base/AsyncLog2.cc:67-78 | the full buffer joins the vector and the next or a new empty one takes its place, no buffer owned twice |
| AsyncLogging.Owners.SwappedSeen | src/base/AsyncLog2.cc:114-120 | the moves of the locked section keep one owner a buffer and are the swap of the model |
| AsyncLogging.Owners.SpareSeen | src/base/AsyncLog2.cc:145-157 | emptying the last buffer of the batch as a spare changes no other buffer |
| AsyncLogging.Asynclogging.SwapLocked | src/base/AsyncLog2.cc:106-121 | the writer takes all buffers and leaves its spares, with no buffer touched |
| AsyncLogging.Asynclogging.WriteBatch | src/base/AsyncLog2.cc:123-143 | the note and one write of the bytes the two kept buffer objects hold |
| AsyncLogging.Asynclogging.RecycleBuffers | src/base/AsyncLog2.cc:145-159 | spares refilled from the batch, emptied |
| AsyncLogging.Asynclogging.ThreadFunc | src/base/AsyncLog2.cc:84-162 | over any number of rounds with appends at any point: one batch a round, the messages of the rounds all in a batch or a buffer in order, the file as the policy says, the state that of the steps of the rounds |
| AsyncLogging.LogBuffer.Append | src/base/LogBuffer.cc:13-17 | a message that fits is copied behind the others; the copy runs past the end iff it does not |
| AsyncLogging.LogBuffer.Avail | src/base/LogBuffer.cc:8-11 | what is left of 4096 |
| AsyncLogging.LogBuffer.Reset | src/base/LogBuffer.cc:33-37 | empty and zeroed |
| WorkQueueModel.QueueIsServed | src/net/WorkerThreadPool.cc:12-41 | no lost notification, submission order is dequeue order then queue, every worker runs once and in order what it took |
| WorkQueueModel.EveryTaskIsRun | src/net/WorkerThreadPool.cc:12-41 | once submissions end the pool comes to rest within a bound, in any order of steps, and then every task has run |
| WorkQueueModel.NextKeepsNoIdling | src/net/WorkerThreadPool.cc:15-25 | while a worker sleeps every queued task has a notify or a checking worker coming |
| WorkQueueModel.LogInOrder | src/base/AsyncLog.cc:67-98 | written, in hand and queued messages are all logged ones in order |
| WorkQueueModel.ExitsWhenDrained | src/base/AsyncLog.cc:105-132 | the writer leaves iff it finds the exit flag and an empty queue, and then everything logged so far is written |
| WorkQueues.WorkThreadPool.AddTask | src/net/WorkerThreadPool.cc:33-41 | the task goes last and one waiting worker, if any, is woken |
| WorkQueues.WorkThreadPool.Take | src/net/WorkerThreadPool.cc:14-25 | the first task, or the worker waits |
| WorkQueues.WorkThreadPool.WorkUntilIdle | src/net/WorkerThreadPool.cc:12-29 | a worker runs the queue and all that is submitted while each task runs, in order, and then waits |
| WorkQueues.AsyncLog.Log | src/base/AsyncLog.cc:67-99 | below the level nothing, otherwise pushed and the writer notified |
| WorkQueues.AsyncLog.RequestExit | src/base/AsyncLog.cc:33-40 | the flag, then a notification of all |
| WorkQueues.AsyncLog.TakeLocked | src/base/AsyncLog.cc:111-121 | the first message, the end of the loop on an exit with an empty queue, or the wait |
| WorkQueues.AsyncLog.AsyncWrite | src/base/AsyncLog.cc:105-134 | writes the queue and all that is logged while each message is written, in order, to the file if open and to stderr otherwise, and ends exactly on the flag, set before or meanwhile |

## Left out

- Real system calls: `write`, `readv` and `epoll_wait` are inputs; a successful write takes any amount up to what is offered, and after SHUT_WR it fails with EPIPE, as in a process that ignores SIGPIPE (the sources do not set that up, but test for EPIPE at src/net/Connection.cc:92). Event masks are sets of events; `epoll_wait` reports some of the events watched at the poll, and EPOLLERR and EPOLLHUP unasked.
- `handleError` and logging calls change no modelled state.
- The payload of a cross-thread `send`: the source queues a raw `c_str()`; the model's `sendInLoop` has bytes that are valid when it runs.
- `send` and `shutdown` on another thread test the state and then act; each call is one step here, and so is the handling of one event of a connection or the run of one functor.
- ServerWakeup.WokenForWork: in the translation a call of `queueInLoop` is not interrupted, and a readable eventfd is reported by the next poll and read before its other events; `EventLoopModel.NoLostWakeupExactly` has every other order.
- The effects of user callbacks on other objects: user code inside a callback is a list of sends, shutdowns and reads of the input on its own connection; inside a down callback it is left out (a send there is refused).
- Queued write-complete and high-water callbacks are recorded on the connection; in the server model a queued user callback is one functor that owns the connection.
- `getNextLoop`: the io loop is an arbitrary choice.
- Destruction of the server, start and stop of loop threads, `quit` before `loop()`, and the destructors of `WorkThreadPool` and `Asynclogging`, which drop queued work.
- EINTR, poll timeouts and the growth of the event list; which channels are reported, and when, is arbitrary.
- `Acceptor`, `Socket`, `InetAddress`, `Timestamp`, `Thread`, `Logger`, and the formatting of log lines.
- `peek` and `retrieveUntil`, which hand out pointers.
- Memory-model effects below mutexes and atomics; `running_` and `stop_` are not read by the modelled part.
- ConnectionModel.RemoteShutdownAloneOnce: one direction, as a run of a single connection has no rounds of its loop; `ServerShutdown.CrossShutdownOnceExactly` has the exact condition.
- ConnectionModel.HalfClose: for sends and shutdowns on the loop thread; `ServerHalfClose.NothingAfterShutWr` is for all threads.
- AsyncLogging.LogBuffer.Append: what memory holds after a copy past the end is undefined, and a run is not followed beyond it.
- TcpServer.TcpServer.NewConnection: up to INT_MAX connections and for addresses of at most 51 characters; connections are values of the model, and their handlers on real objects are verified in `Connection`.
- EventLoop.EventLoop.RunLoop: follows a given number of rounds, with the pushes of other threads at the points where callbacks run; the step system allows them anywhere.
- WorkQueues.WorkThreadPool.WorkUntilIdle: no other worker takes a task meanwhile; the step system interleaves any number of workers and producers.
