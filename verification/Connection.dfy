/**
  The class of include/net/Connection.h: the handlers of src/net/Connection.cc on a
  Buffer each way, a Channel and the poller, proved against ConnectionModel.
 */
module Connection {
  import opened ByteBuffer
  import P = Poller
  import opened M = ConnectionModel

  class Connection {
    const cfg: Config
    const channel: P.Channel
    const inputBuffer: Buffer
    const outputBuffer: Buffer
    var state: State
    var wire: Bytes              // kernel: bytes taken by write(2)
    var fins: seq<Bytes>         // kernel: the wire at every shutdown(SHUT_WR)
    var callbacks: seq<Callback> // functors handed to queueInLoop
    var ups: nat                 // connectionCallback_ with the connection up
    var downs: nat               // connectionCallback_ with the connection down
    var closes: nat              // closeCallback_
    ghost var sends: seq<Sent>

    ghost function Repr(): set<object>
      reads this, inputBuffer, outputBuffer
    {
      {this, channel, channel.loop, inputBuffer, inputBuffer.data, outputBuffer, outputBuffer.data}
    }

    ghost predicate Valid()
      reads this, inputBuffer, outputBuffer
    {
      && inputBuffer != outputBuffer && inputBuffer.data != outputBuffer.data
      && inputBuffer.Valid() && outputBuffer.Valid()
    }

    ghost function View(): Conn
      requires Valid()
      reads this, inputBuffer, outputBuffer, Repr()
    {
      Conn(state, channel.loop.View(channel), inputBuffer.Contents(), outputBuffer.Contents(),
           wire, fins, sends, callbacks, ups, downs, closes)
    }

    constructor (cfg: Config, loop: P.Epollpoller, fd: int)
      ensures Valid() && fresh(Repr() - {loop}) && channel.fd == fd && channel.loop == loop
      ensures View() == NEW_CONN.(reg := View().reg)
      ensures fd !in loop.channels && fd !in loop.table && !loop.fatal && loop.delErrors == 0 ==> View() == NEW_CONN
    {
      this.cfg := cfg;
      channel := new P.Channel(loop, fd);
      inputBuffer := new Buffer(INITIAL_SIZE);
      outputBuffer := new Buffer(INITIAL_SIZE);
      state, wire, fins, callbacks, ups, downs, closes, sends := Connecting, [], [], [], 0, 0, 0, [];
    }

    method NoteHighWater(oldLen: nat, level: nat)
      requires Valid()
      modifies this`callbacks
      ensures View() == M.Queued(old(View()), level >= cfg.mark && oldLen < cfg.mark && cfg.highWater, HighWater(level))
    {
      if level >= cfg.mark && oldLen < cfg.mark && cfg.highWater {
        callbacks := callbacks + [HighWater(level)];
      }
    }

    method AppendOutput(rest: Bytes)
      requires Valid()
      modifies Repr()
      ensures Valid() && fresh(Repr() - old(Repr()))
      ensures View() == old(View()).(output := old(View()).output + rest)
    {
      outputBuffer.Append(rest);
    }

    method KeepRest(rest: Bytes)
      requires Valid()
      modifies Repr()
      ensures Valid() && fresh(Repr() - old(Repr()))
      ensures View() == M.Kept(cfg, old(View()), rest)
    {
      var oldLen := outputBuffer.ReadableBytes();
      NoteHighWater(oldLen, oldLen + |rest|);
      AppendOutput(rest);
    }

    method StartWriting()
      requires Valid()
      modifies channel, channel.loop
      ensures View() == M.WithWriting(old(View()))
    {
      if !channel.IsWriting() {
        channel.EnableWriting();
      }
    }

    // The part of sendInLoop after the direct write.
    method BufferRest(rest: Bytes)
      requires Valid()
      modifies Repr()
      ensures Valid() && fresh(Repr() - old(Repr()))
      ensures View() == M.Buffered(cfg, old(View()), rest)
    {
      if |rest| == 0 { return; }
      KeepRest(rest);
      StartWriting();
    }

    // The direct write of sendInLoop: how much of `data` went, and whether the
    // connection is broken.
    method WriteDirectly(data: Bytes, w: WriteResult) returns (nwrote: nat, faultError: bool)
      requires Valid()
      modifies this`wire, this`callbacks
      ensures var answer := M.AnswerAfter(fins, w);
              && nwrote == M.Written(data, answer) && faultError == M.Faults(answer)
              && View() == M.WriteDirectly(cfg, old(View()), data, answer)
    {
      nwrote, faultError := 0, false;
      assert wire + [] == wire;
      match M.AnswerAfter(fins, w)
      case Room(room) =>
        nwrote := Min(room, |data|);
        wire := wire + data[..nwrote];
        if nwrote == |data| && cfg.writeComplete {
          callbacks := callbacks + [WriteComplete];
        }
      case WriteFailed(e) =>
        if e != EWOULDBLOCK {
          if e == EPIPE || e == ECONNRESET {
            faultError := true;
          }
        }
    }

    method SendInLoop(data: Bytes, w: WriteResult)
      requires Valid()
      modifies Repr()
      ensures Valid() && fresh(Repr() - old(Repr()))
      ensures View() == M.SendInLoop(cfg, old(View()), data, w)
    {
      if state == Disconnected {
        sends := sends + [Sent(data, Refused)];
        return;
      }
      hide M.Buffered, M.WriteDirectly, P.Apply;
      ghost var before := View();
      var nwrote, faultError := 0, false;
      var unsent := outputBuffer.ReadableBytes();
      if !channel.IsWriting() && unsent == 0 {
        nwrote, faultError := WriteDirectly(data, w);
      }
      ghost var direct := View();
      assert direct == if M.Writing(before) || before.output != [] then before else M.WriteDirectly(cfg, before, data, M.Answer(before, w));
      sends := sends + [Sent(data, if faultError then Faulted else Taken)];
      assert View() == M.Recorded(direct, data, if faultError then Faulted else Taken);
      assert data[0..] == data;
      if !faultError {
        BufferRest(data[nwrote..]);
      }
    }

    // send called on the loop thread.
    method Send(data: Bytes, w: WriteResult)
      requires Valid()
      modifies Repr()
      ensures Valid() && fresh(Repr() - old(Repr()))
      ensures View() == M.DoCall(cfg, old(View()), M.Send(data, w))
    {
      if state == Connected {
        SendInLoop(data, w);
      } else {
        sends := sends + [Sent(data, Refused)];
      }
    }

    // shutdown called on the loop thread.
    method Shutdown()
      requires Valid()
      modifies Repr()
      ensures Valid() && fresh(Repr() - old(Repr()))
      ensures View() == M.DoCall(cfg, old(View()), M.Shutdown)
    {
      if state == Connected {
        state := Disconnecting;
        ShutdownInLoop();
      }
    }

    method ShutdownInLoop()
      requires Valid()
      modifies this
      ensures Valid() && Repr() == old(Repr())
      ensures View() == M.ShutdownInLoop(old(View()))
    {
      if !channel.IsWriting() {
        fins := fins + [wire];
      }
    }

    method RunUserCall(call: AppCall)
      requires Valid()
      modifies Repr()
      ensures Valid() && fresh(Repr() - old(Repr()))
      ensures View() == M.DoCall(cfg, old(View()), call)
    {
      hide M.SendInLoop, M.ShutdownInLoop;
      match call
      case Send(data, w) => Send(data, w);
      case Shutdown => Shutdown();
      case Take(amount) => inputBuffer.Retrieve(amount);
    }

    // What user code does inside a callback of this connection.
    method RunUserCode(calls: seq<AppCall>)
      requires Valid()
      modifies Repr()
      ensures Valid() && fresh(Repr() - old(Repr()))
      ensures View() == M.DoCalls(cfg, old(View()), calls)
    {
      hide M.DoCall;
      ghost var before := View();
      var i := 0;
      while i < |calls|
        invariant 0 <= i <= |calls|
        invariant Valid() && fresh(Repr() - old(Repr()))
        invariant View() == M.DoCalls(cfg, before, calls[..i])
      {
        RunUserCall(calls[i]);
        assert calls[..i + 1][..i] == calls[..i];
        i := i + 1;
      }
      assert calls[..i] == calls;
    }

    // What follows when the last unsent byte has gone.
    method OutputDrained()
      requires Valid()
      modifies this, channel, channel.loop
      ensures Valid() && Repr() == old(Repr())
      ensures var e := M.Queued(M.Channeled(old(View()), P.DisableWriting), cfg.writeComplete, WriteComplete);
              View() == if e.state == Disconnecting then M.ShutdownInLoop(e) else e
    {
      channel.DisableWriting();
      if cfg.writeComplete {
        callbacks := callbacks + [WriteComplete];
      }
      if state == Disconnecting {
        ShutdownInLoop();
      }
    }

    method HandleWrite(w: WriteResult)
      requires Valid()
      modifies Repr()
      ensures Valid() && fresh(Repr() - old(Repr()))
      ensures View() == M.HandleWrite(cfg, old(View()), w)
    {
      if channel.IsWriting() {
        var n, savedErrno, taken := outputBuffer.WriteFd(M.AnswerAfter(fins, w));
        if n > 0 {
          ghost var before := View();
          wire := wire + taken;
          outputBuffer.Retrieve(n);
          assert View() == before.(wire := before.wire + taken, output := before.output[n..]);
          var unsent := outputBuffer.ReadableBytes();
          if unsent == 0 {
            OutputDrained();
          }
        }
      }
    }

    method HandleClose()
      requires Valid()
      modifies Repr()
      ensures Valid() && fresh(Repr() - old(Repr()))
      ensures inputBuffer.data == old(inputBuffer.data) && inputBuffer.Shape() == old(inputBuffer.Shape())
      ensures channel.revents == old(channel.revents)
      ensures View() == M.HandleClose(old(View()))
    {
      state := Disconnected;
      channel.DisableAll();
      downs := downs + 1;
      closes := closes + 1;
    }

    method HandleRead(r: ReadResult, calls: seq<AppCall>)
      requires Valid()
      requires r.Got? ==> |r.bytes| <= ReadLimit(inputBuffer.Shape())
      modifies Repr()
      ensures Valid() && fresh(Repr() - old(Repr()))
      ensures View() == M.HandleRead(cfg, old(View()), r, calls)
    {
      var n, savedErrno := inputBuffer.ReadFd(r);
      if n > 0 {
        assert View() == old(View()).(input := old(View()).input + r.bytes);
        RunUserCode(calls);
      } else if n == 0 {
        assert View() == old(View());
        HandleClose();
      }
    }

    // The close and read callbacks of handleEventWithGuard.
    method CloseThenRead(revents: P.Mask, r: ReadResult, calls: seq<AppCall>)
      requires Valid()
      requires r.Got? ==> |r.bytes| <= ReadLimit(inputBuffer.Shape())
      modifies Repr()
      ensures Valid() && fresh(Repr() - old(Repr()))
      ensures View() == M.CloseThenRead(cfg, old(View()), revents, r, calls)
    {
      if P.Hup in revents && P.In !in revents {
        HandleClose();
      }
      if revents * {P.In, P.Pri, P.RdHup} != {} {
        HandleRead(r, calls);
      }
    }

    /** Channel::handleEventWithGuard, on the revents the poller stored. */
    method HandleEvent(r: ReadResult, calls: seq<AppCall>, w: WriteResult)
      requires Valid()
      requires r.Got? ==> |r.bytes| <= ReadLimit(inputBuffer.Shape())
      modifies Repr()
      ensures Valid() && fresh(Repr() - old(Repr()))
      ensures View() == M.Dispatch(cfg, old(View()), old(channel.revents), r, calls, w)
    {
      var revents := channel.revents;
      CloseThenRead(revents, r, calls);
      if P.Out in revents {
        HandleWrite(w);
      }
    }

    // connectEstablished up to the user's part of the callback.
    method BringUp()
      requires Valid()
      modifies this, channel, channel.loop
      ensures Valid() && Repr() == old(Repr()) && View() == M.BroughtUp(old(View()))
    {
      state := Connected;
      channel.EnableReading();
      ups := ups + 1;
    }

    method ConnectEstablished(calls: seq<AppCall>)
      requires Valid()
      modifies Repr()
      ensures Valid() && fresh(Repr() - old(Repr()))
      ensures View() == M.ConnectEstablished(cfg, old(View()), calls)
    {
      BringUp();
      RunUserCode(calls);
    }

    method ConnectDestroyed()
      requires Valid()
      modifies Repr()
      ensures Valid() && fresh(Repr() - old(Repr()))
      ensures View() == M.ConnectDestroyed(old(View()))
    {
      if state == Connected {
        state := Disconnected;
        channel.DisableAll();
        downs := downs + 1;
      }
      channel.Remove();
    }
  }
}
