/** The connection object: the output stream model, run over a real buffer. */
module TcpConnection {
  import opened ByteBuffer
  import opened OutputStream
  import I = Interest
  import P = Poller

  /** Each method takes what the kernel and the callbacks do during the call as arguments and is
      proved to have exactly the effect of the function of the same name. Write interest is a bit of
      the channel's mask, kept by the loop's poller like any other. */
  class TcpConnection {
    const outputBuffer: Buffer
    const channel: P.Channel
    const poller: P.Poller
    var state: StateE
    var completions: nat
    ghost var armed: bool
    ghost var halfClosed: bool
    ghost var accepted: seq<seq<Byte>>
    ghost var wire: seq<Byte>
    ghost var lost: bool

    ghost predicate Valid()
      reads this, outputBuffer, channel, poller, poller.all.Values
    {
      outputBuffer.Valid() && poller.Owns(channel) && I.Agree(poller.Value())
    }

    ghost function Value(): Conn<Byte>
      requires outputBuffer.Valid()
      reads this, outputBuffer, outputBuffer.data, channel
    {
      Conn(state, outputBuffer.Contents(), channel.IsWriting(), armed, halfClosed, completions, accepted, wire, lost)
    }

    // What the channel wants to read.
    ghost function ReadInterest(): bv32
      reads channel
    {
      I.ReadPart(channel.events)
    }

    constructor (poller: P.Poller, fd: int)
      requires poller.Valid() && I.Agree(poller.Value()) && I.Legal(poller.Value(), I.Create(fd))
      modifies poller
      ensures Valid() && Value() == NewConn() && this.poller == poller && channel.fd == fd
      ensures fresh(outputBuffer) && fresh(outputBuffer.data) && fresh(channel)
      ensures outputBuffer.data.Length == 8 + 1024
      ensures poller.Value() == I.Apply(old(poller.Value()), I.Create(fd))
    {
      hide I.Agree, I.Apply, I.Legal, I.Writing;
      outputBuffer := new Buffer(INITIAL_SIZE);
      channel := new P.Channel(fd);
      this.poller := poller;
      state, completions := Connecting, 0;
      armed, halfClosed, accepted, wire, lost := false, false, [], [], false;
      new;
      I.NothingToWrite();
      poller.Enter(channel);
    }

    /** Write interest is what the kernel watches: an EPOLLOUT on this socket is asked for exactly while
        the stream is writing. */
    lemma WritingIsWatched()
      requires Valid()
      ensures Value().writing <==>
                channel.fd in poller.kernel && poller.kernel[channel.fd] & 0x4 != 0
    {
      I.WatchedForWrite(channel.events);
      hide I.Writing, I.EdgeTriggered;
      var r := poller.Value();
      assert r.channels[channel.fd] == channel.Value();
    }

    // The socket is watched for data, for urgent data, and for edges.
    ghost predicate HearsData()
      reads channel, poller
    {
      && channel.fd in poller.kernel
      && poller.kernel[channel.fd] & 0x1 != 0
      && poller.kernel[channel.fd] & 0x2 != 0
      && poller.kernel[channel.fd] & 0x8000_0000 != 0
    }

    /** A connection that wants to read is told of incoming data by the kernel. */
    lemma ReadingIsWatched()
      requires Valid() && ReadInterest() == I.READ_EVENT
      ensures HearsData()
    {
      var events := channel.events;
      I.ReadPartIsWhole(events, 0x1);
      I.ReadPartIsWhole(events, 0x2);
      I.NothingElseAsked(events, 0x1);
      I.NothingElseAsked(events, 0x2);
      I.EdgesAsked(events);
      hide I.EdgeTriggered, I.ReadPart;
      assert poller.Value().channels[channel.fd] == channel.Value();
    }

    // enableWrite and disableWrite.
    method SetWriting(on: bool)
      requires Valid()
      modifies this`armed, channel, poller
      ensures Valid() && poller.all == old(poller.all) && ReadInterest() == old(ReadInterest())
      ensures Value() == if on then EnableWrite(old(Value())) else DisableWrite(old(Value()))
    {
      hide I.Agree, I.Update, I.Writing, I.ReadPart, I.WithWrite, I.WithoutWrite;
      var mask := if on then I.WithWrite(channel.events) else I.WithoutWrite(channel.events);
      I.UpdateKeeps(poller.Value(), channel.fd, mask);
      I.WriteOnKeepsRead(channel.events);
      I.WriteOffKeepsRead(channel.events);
      if on {
        channel.EnableWrite(poller);
      } else {
        channel.DisableWrite(poller);
      }
      armed := on;
    }

    /** Connected, reading, and then whatever the connection callback does. */
    method ConnectionEstablished(callback: seq<Act<Byte>>)
      requires Valid() && Legal(Value(), Established) && LegalActs(Step(Value(), Established), callback)
      modifies this, outputBuffer, outputBuffer.data, channel, poller
      ensures Valid() && (outputBuffer.data == old(outputBuffer.data) || fresh(outputBuffer.data))
      ensures poller.all == old(poller.all) && ReadInterest() == I.READ_EVENT
      ensures HearsData()
      ensures Value() == PerformAll(Step(old(Value()), Established), callback)
    {
      hide LegalActs, PerformAll, HearsData, I.Agree, I.Writing, I.ReadPart, I.WithRead;
      state := Connected;
      EnableReading();
      RunCallback(callback);
      ReadingIsWatched();
    }

    method EnableReading()
      requires Valid()
      modifies channel, poller
      ensures Valid() && poller.all == old(poller.all) && Value() == old(Value())
      ensures ReadInterest() == I.READ_EVENT
    {
      hide I.Agree, I.Update, I.Writing, I.ReadPart, I.WithRead;
      I.UpdateKeeps(poller.Value(), channel.fd, I.WithRead(channel.events));
      I.ReadKeepsWrite(channel.events);
      I.ReadOn(channel.events);
      channel.EnableRead(poller);
    }

    /** Disconnected, and the channel off the poller, from every state and however often. */
    method ConnectionDestroyed()
      requires Valid()
      modifies this, channel, poller
      ensures Valid() && poller.all == old(poller.all)
      ensures Value() == old(Value()).(state := Disconnected, writing := false, armed := false)
      ensures poller.Value() == I.TornDown(old(poller.Value()), channel.fd)
      ensures channel.fd !in poller.fdMap && channel.fd !in poller.kernel
    {
      hide I.Agree, I.TornDown, I.Writing;
      if state != Disconnected {
        state := Disconnected;
      }
      armed := false;
      LeavePoller();
    }

    method LeavePoller()
      requires Valid()
      modifies channel, poller
      ensures Valid() && poller.all == old(poller.all) && !channel.IsWriting()
      ensures poller.Value() == I.TornDown(old(poller.Value()), channel.fd)
      ensures channel.fd !in poller.fdMap && channel.fd !in poller.kernel
    {
      hide I.Agree, I.TornDown, I.Writing;
      I.NothingToWrite();
      I.TearDownTwice(poller.Value(), channel.fd);
      channel.TearDown(poller);
    }

    /** Disconnected before the connection callback runs, so that nothing it does has any effect. */
    method HandleClose(callback: seq<Act<Byte>>)
      requires Valid() && LegalActs(Value().(state := Disconnected), callback)
      modifies this, outputBuffer, outputBuffer.data, channel, poller
      ensures Valid() && (outputBuffer.data == old(outputBuffer.data) || fresh(outputBuffer.data))
      ensures poller.all == old(poller.all) && ReadInterest() == old(ReadInterest())
      ensures Value() == old(Value()).(state := Disconnected)
    {
      hide LegalActs, PerformAll;
      state := Disconnected;
      DisconnectingIgnores(Value(), callback);
      RunCallback(callback);
    }

    method HandleError(callback: seq<Act<Byte>>)
      requires Valid() && LegalActs(Value().(state := Disconnected), callback)
      modifies this, outputBuffer, outputBuffer.data, channel, poller
      ensures Valid() && (outputBuffer.data == old(outputBuffer.data) || fresh(outputBuffer.data))
      ensures poller.all == old(poller.all) && ReadInterest() == old(ReadInterest())
      ensures Value() == old(Value()).(state := Disconnected)
    {
      HandleClose(callback);
    }

    method SendInLoop(data: seq<Byte>, w: WriteResult)
      requires Valid() && LegalWrite(Value(), data, w)
      modifies this, outputBuffer, outputBuffer.data, channel, poller
      ensures Valid() && (outputBuffer.data == old(outputBuffer.data) || fresh(outputBuffer.data))
      ensures poller.all == old(poller.all) && ReadInterest() == old(ReadInterest())
      ensures Value() == OutputStream.SendInLoop(old(Value()), data, w)
      ensures old(state) == Disconnected ==> Value() == old(Value())
    {
      if state == Disconnected {
        return;
      }
      hide Queue, Written, Remaining;
      var rest, failed := data, false;
      if !channel.IsWriting() && outputBuffer.ReadableBytes() == 0 {
        rest, failed := WriteDirectly(data, w);
      }
      if !failed && |rest| > 0 {
        QueueRest(rest);
      } else {
        QueueNothing(Value(), rest);
      }
    }

    // The direct write, when nothing is queued: what is left, and whether it is to be given up.
    method WriteDirectly(data: seq<Byte>, w: WriteResult) returns (rest: seq<Byte>, failed: bool)
      requires Valid() && (w.Wrote? ==> w.n <= |data|)
      modifies this`wire, this`completions, this`lost
      ensures failed == w.Fatal? && rest == Remaining(data, w) && Value() == Written(old(Value()), data, w)
    {
      rest, failed := data, false;
      match w
      case Wrote(n) =>
        wire := wire + data[..n];
        rest := data[n..];
        if |rest| == 0 {
          completions := completions + 1;
        }
      case Fatal =>
        failed := true;
        lost := lost || data != [];
      case WouldBlock =>
      case OtherError =>
    }

    method QueueRest(rest: seq<Byte>)
      requires Valid() && rest != []
      modifies this`armed, outputBuffer, outputBuffer.data, channel, poller
      ensures Valid() && (outputBuffer.data == old(outputBuffer.data) || fresh(outputBuffer.data))
      ensures poller.all == old(poller.all) && ReadInterest() == old(ReadInterest())
      ensures Value() == Queue(old(Value()), rest)
    {
      outputBuffer.Append(rest);
      if !channel.IsWriting() {
        SetWriting(true);
      }
    }

    method Send(data: seq<Byte>, w: WriteResult)
      requires Valid() && LegalWrite(Value(), data, w)
      modifies this, outputBuffer, outputBuffer.data, channel, poller
      ensures Valid() && (outputBuffer.data == old(outputBuffer.data) || fresh(outputBuffer.data))
      ensures poller.all == old(poller.all) && ReadInterest() == old(ReadInterest())
      ensures Value() == OutputStream.Send(old(Value()), data, w)
    {
      if state == Connected {
        accepted := accepted + [data];
        SendInLoop(data, w);
      }
    }

    method ShutdownInLoop()
      requires Valid()
      modifies this
      ensures Valid() && Value() == OutputStream.ShutdownInLoop(old(Value()))
    {
      if !channel.IsWriting() {
        halfClosed := true;
      }
    }

    method Shutdown()
      requires Valid()
      modifies this
      ensures Valid() && Value() == OutputStream.Shutdown(old(Value()))
    {
      if state == Connected {
        state := Disconnecting;
        ShutdownInLoop();
      }
    }

    method PerformAct(act: Act<Byte>)
      requires Valid() && LegalAct(Value(), act)
      modifies this, outputBuffer, outputBuffer.data, channel, poller
      ensures Valid() && (outputBuffer.data == old(outputBuffer.data) || fresh(outputBuffer.data))
      ensures poller.all == old(poller.all) && ReadInterest() == old(ReadInterest())
      ensures Value() == Perform(old(Value()), act)
    {
      match act
      case DoSend(data, w) => Send(data, w);
      case DoShutdown => Shutdown();
    }

    // What application code does from inside a callback, in order.
    method RunCallback(acts: seq<Act<Byte>>)
      requires Valid() && LegalActs(Value(), acts)
      modifies this, outputBuffer, outputBuffer.data, channel, poller
      ensures Valid() && (outputBuffer.data == old(outputBuffer.data) || fresh(outputBuffer.data))
      ensures poller.all == old(poller.all) && ReadInterest() == old(ReadInterest())
      ensures Value() == PerformAll(old(Value()), acts)
    {
      hide Perform, LegalAct;
      var i := 0;
      assert acts[0..] == acts;
      while i < |acts|
        invariant i <= |acts| && Valid()
        invariant outputBuffer.data == old(outputBuffer.data) || fresh(outputBuffer.data)
        invariant poller.all == old(poller.all) && ReadInterest() == old(ReadInterest())
        invariant LegalActs(Value(), acts[i..])
        invariant PerformAll(Value(), acts[i..]) == PerformAll(old(Value()), acts)
      {
        assert acts[i..][1..] == acts[i + 1..];
        PerformAct(acts[i]);
        i := i + 1;
      }
    }

    // The writing loop: the error it stopped on, or `drained`.
    method FlushInPlace(ws: seq<WriteResult>) returns (drained: bool, failure: WriteResult)
      requires Valid() && LegalFlush(Value(), ws)
      modifies this`wire, outputBuffer
      ensures Valid() && outputBuffer.data == old(outputBuffer.data)
      ensures drained <==> outputBuffer.Contents() == []
      ensures !failure.Wrote?
      ensures Flush(old(Value()), ws) ==
                if drained then Value()
                else if failure == WouldBlock then EnableWrite(DisableWrite(Value()))
                else Value().(state := Disconnected)
    {
      hide Flush, LegalFlush;
      drained, failure := true, WouldBlock;
      var i := 0;
      assert ws[0..] == ws;
      while drained && outputBuffer.ReadableBytes() > 0
        invariant i <= |ws| && Valid() && outputBuffer.data == old(outputBuffer.data)
        invariant !drained ==> outputBuffer.Contents() != []
        invariant !failure.Wrote?
        invariant drained ==> LegalFlush(Value(), ws[i..])
        invariant Flush(old(Value()), ws) ==
                    if drained then Flush(Value(), ws[i..])
                    else if failure == WouldBlock then EnableWrite(DisableWrite(Value()))
                    else Value().(state := Disconnected)
        decreases if drained then 1 else 0, |ws| - i
      {
        FlushOnce(Value(), ws[i..]);
        assert ws[i..][1..] == ws[i + 1..];
        match ws[i] {
          case Wrote(n) =>
            WriteSome(n);
            i := i + 1;
          case error =>
            failure, drained := error, false;
        }
      }
      FlushNothing(Value(), ws[i..]);
    }

    // A write that took `n` bytes of the buffer.
    method WriteSome(n: nat)
      requires Valid() && n <= |outputBuffer.Contents()|
      modifies this`wire, outputBuffer
      ensures Valid() && outputBuffer.data == old(outputBuffer.data) && Value() == Take(old(Value()), n)
    {
      wire := wire + outputBuffer.Contents()[..n];
      outputBuffer.Consume(n);
    }

    method HandleWrite(ws: seq<WriteResult>, callback: seq<Act<Byte>>)
      requires Valid() && LegalHandleWrite(Value(), ws, callback)
      modifies this, outputBuffer, outputBuffer.data, channel, poller
      ensures Valid() && (outputBuffer.data == old(outputBuffer.data) || fresh(outputBuffer.data))
      ensures poller.all == old(poller.all) && ReadInterest() == old(ReadInterest())
      ensures Value() == OutputStream.HandleWrite(old(Value()), ws, callback)
    {
      hide Flush, PerformAll, LegalFlush, I.Agree, I.Writing, I.ReadPart;
      if !channel.IsWriting() {
        return;
      }
      var drained, failure := FlushInPlace(ws);
      if drained {
        SetWriting(false);
        RunCallback(callback);
        if state == Disconnecting {
          ShutdownInLoop();
        }
      } else if failure == WouldBlock {
        SetWriting(false);
        SetWriting(true);
      } else {
        HandleError([]);
      }
    }
  }
}
