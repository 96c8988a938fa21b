/** The outgoing byte stream of a connection: a direct write when nothing is queued, a buffer
    behind it, edge-triggered write interest, and a half-close that waits for the buffer. */
module OutputStream {
  datatype StateE = Disconnected | Connecting | Connected | Disconnecting

  /** What write() may do with a request: take some bytes, or fail. Fatal is EPIPE or ECONNRESET. */
  datatype WriteResult = Wrote(n: nat) | WouldBlock | Fatal | OtherError

  /** The connection as its own loop sees it, with the kernel and the peer as history:
      `armed`: an EPOLLOUT edge is still to be delivered; `halfClosed`: shutdownWrite was called;
      `completions`: write-complete callbacks queued in the loop; `accepted`: messages send() took;
      `wire`: bytes write() took; `lost`: sendInLoop threw bytes away after a fatal error. */
  datatype Conn<T> = Conn(
    state: StateE, output: seq<T>, writing: bool, armed: bool, halfClosed: bool, completions: nat,
    accepted: seq<seq<T>>, wire: seq<T>, lost: bool)

  function NewConn<T>(): Conn<T> { Conn(Connecting, [], false, false, false, 0, [], [], false) }

  function Joined<T>(ms: seq<seq<T>>): seq<T> {
    if ms == [] then [] else Joined(ms[..|ms| - 1]) + ms[|ms| - 1]
  }

  /** The kernel's side of the contract: a write of something takes something or fails, and a
      fatal error that made bytes disappear is permanent. */
  predicate LegalWrite<T>(c: Conn<T>, data: seq<T>, w: WriteResult) {
    && (w.Wrote? ==> w.n <= |data|)
    && (data != [] ==> (w.Wrote? ==> 0 < w.n) && (c.lost ==> w.Fatal?))
  }

  function EnableWrite<T>(c: Conn<T>): Conn<T> { c.(writing := true, armed := true) }

  function DisableWrite<T>(c: Conn<T>): Conn<T> { c.(writing := false, armed := false) }

  function Queue<T>(c: Conn<T>, rest: seq<T>): Conn<T> {
    if rest == [] then c
    else
      var c' := c.(output := c.output + rest);
      if c.writing then c' else EnableWrite(c')
  }

  lemma QueueNothing<T>(c: Conn<T>, rest: seq<T>)
    ensures rest == [] ==> Queue(c, rest) == c
  {
  }

  // What a direct write does, and what it leaves to be sent.
  function Written<T>(c: Conn<T>, data: seq<T>, w: WriteResult): Conn<T>
    requires w.Wrote? ==> w.n <= |data|
  {
    match w
    case Wrote(n) =>
      c.(wire := c.wire + data[..n], completions := c.completions + if n == |data| then 1 else 0)
    case Fatal => c.(lost := c.lost || data != [])
    case _ => c
  }

  function Remaining<T>(data: seq<T>, w: WriteResult): seq<T>
    requires w.Wrote? ==> w.n <= |data|
  {
    if w.Wrote? then data[w.n..] else data
  }

  function SendInLoop<T>(c: Conn<T>, data: seq<T>, w: WriteResult): Conn<T>
    requires LegalWrite(c, data, w)
  {
    if c.state == Disconnected then c
    else if c.writing || c.output != [] then Queue(c, data)
    else if w.Fatal? then Written(c, data, w)
    else Queue(Written(c, data, w), Remaining(data, w))
  }

  function Send<T>(c: Conn<T>, data: seq<T>, w: WriteResult): Conn<T>
    requires LegalWrite(c, data, w)
  {
    if c.state == Connected then SendInLoop(c.(accepted := c.accepted + [data]), data, w) else c
  }

  function ShutdownInLoop<T>(c: Conn<T>): Conn<T> {
    if c.writing then c else c.(halfClosed := true)
  }

  function Shutdown<T>(c: Conn<T>): Conn<T> {
    if c.state == Connected then ShutdownInLoop(c.(state := Disconnecting)) else c
  }

  /** What application code may do with the connection from inside a callback. */
  datatype Act<T> = DoSend(data: seq<T>, w: WriteResult) | DoShutdown

  predicate LegalActs<T>(c: Conn<T>, acts: seq<Act<T>>)
    decreases |acts|
  {
    acts == [] || (LegalAct(c, acts[0]) && LegalActs(Perform(c, acts[0]), acts[1..]))
  }

  predicate LegalAct<T>(c: Conn<T>, act: Act<T>) {
    act.DoSend? ==> LegalWrite(c, act.data, act.w)
  }

  function Perform<T>(c: Conn<T>, act: Act<T>): Conn<T>
    requires LegalAct(c, act)
  {
    match act
    case DoSend(data, w) => Send(c, data, w)
    case DoShutdown => Shutdown(c)
  }

  function PerformAll<T>(c: Conn<T>, acts: seq<Act<T>>): Conn<T>
    requires LegalActs(c, acts)
    decreases |acts|
  {
    if acts == [] then c else PerformAll(Perform(c, acts[0]), acts[1..])
  }

  /** The writing loop of handleWrite: it stops when the buffer is empty or a write fails. */
  predicate LegalFlush<T>(c: Conn<T>, ws: seq<WriteResult>)
    decreases |ws|
  {
    c.output != [] ==>
      && ws != [] && LegalWrite(c, c.output, ws[0])
      && (ws[0].Wrote? ==> LegalFlush(Take(c, ws[0].n), ws[1..]))
  }

  function Take<T>(c: Conn<T>, n: nat): Conn<T>
    requires n <= |c.output|
  {
    c.(wire := c.wire + c.output[..n], output := c.output[n..])
  }

  function Flush<T>(c: Conn<T>, ws: seq<WriteResult>): Conn<T>
    requires LegalFlush(c, ws)
    decreases |ws|
  {
    if c.output == [] then c
    else match ws[0]
      case Wrote(n) => Flush(Take(c, n), ws[1..])
      case WouldBlock => EnableWrite(DisableWrite(c))
      case _ => c.(state := Disconnected)
  }

  lemma {:induction false} FlushOnce<T>(c: Conn<T>, ws: seq<WriteResult>)
    requires LegalFlush(c, ws) && c.output != []
    ensures ws != []
    ensures ws[0].Wrote? ==>
              && 0 < ws[0].n <= |c.output| && LegalFlush(Take(c, ws[0].n), ws[1..])
              && Flush(c, ws) == Flush(Take(c, ws[0].n), ws[1..])
    ensures ws[0] == WouldBlock ==> Flush(c, ws) == EnableWrite(DisableWrite(c))
    ensures ws[0] == Fatal || ws[0] == OtherError ==> Flush(c, ws) == c.(state := Disconnected)
  {
  }

  lemma {:induction false} FlushNothing<T>(c: Conn<T>, ws: seq<WriteResult>)
    ensures c.output == [] ==> LegalFlush(c, ws) && Flush(c, ws) == c
  {
  }

  // The buffer ran empty: write interest off, callback, and the half-close that was waiting.
  function Drained<T>(c: Conn<T>, callback: seq<Act<T>>): Conn<T>
    requires LegalActs(DisableWrite(c), callback)
  {
    var c' := PerformAll(DisableWrite(c), callback);
    if c'.state == Disconnecting then ShutdownInLoop(c') else c'
  }

  predicate LegalHandleWrite<T>(c: Conn<T>, ws: seq<WriteResult>, callback: seq<Act<T>>) {
    c.writing ==>
      LegalFlush(c, ws) && (Flush(c, ws).output == [] ==> LegalActs(DisableWrite(Flush(c, ws)), callback))
  }

  function HandleWrite<T>(c: Conn<T>, ws: seq<WriteResult>, callback: seq<Act<T>>): Conn<T>
    requires LegalHandleWrite(c, ws, callback)
  {
    if !c.writing then c
    else
      var c' := Flush(c, ws);
      if c'.output == [] then Drained(c', callback) else c'
  }

  datatype Event<T> =
    | Established
    | Application(act: Act<T>)
    | WriteReady(ws: seq<WriteResult>, callback: seq<Act<T>>)
    | WriteComplete(callback: seq<Act<T>>)
    | Close
    | Destroyed

  predicate Legal<T>(c: Conn<T>, e: Event<T>) {
    match e
    case Established => c.state == Connecting
    case Application(act) => LegalAct(c, act)
    case WriteReady(ws, callback) => LegalHandleWrite(c.(armed := false), ws, callback)
    case WriteComplete(callback) => 0 < c.completions && LegalActs(c.(completions := c.completions - 1), callback)
    case Close => c.state != Connecting
    case Destroyed => c.state != Connecting
  }

  function Step<T>(c: Conn<T>, e: Event<T>): Conn<T>
    requires Legal(c, e)
  {
    match e
    case Established => c.(state := Connected)
    case Application(act) => Perform(c, act)
    case WriteReady(ws, callback) => HandleWrite(c.(armed := false), ws, callback)
    case WriteComplete(callback) => PerformAll(c.(completions := c.completions - 1), callback)
    case Close => c.(state := Disconnected)
    case Destroyed => c.(state := Disconnected, writing := false, armed := false)
  }

  // ---- What every event keeps -----------------------------------------------------------------

  ghost predicate Conserved<T>(c: Conn<T>) {
    && c.wire + c.output <= Joined(c.accepted)
    && (c.lost <==> c.wire + c.output != Joined(c.accepted))
    && (c.lost ==> c.output == [])
  }

  predicate Open<T>(c: Conn<T>) { c.state == Connected || c.state == Disconnecting }

  ghost predicate Inv<T>(c: Conn<T>) {
    && Conserved(c)
    && (Open(c) ==> (c.writing <==> c.output != []) && (c.writing ==> c.armed))
    && (c.state == Connecting ==> c == NewConn())
    && (c.state == Disconnecting ==> (c.halfClosed <==> c.output == []))
    && (c.halfClosed ==> c.output == [] && !c.writing && (c.state == Disconnecting || c.state == Disconnected))
  }

  lemma QueueKeeps<T>(c: Conn<T>, sent: seq<T>, rest: seq<T>)
    requires c.wire + c.output + sent + rest == Joined(c.accepted) && !c.lost
    requires sent == [] || (c.output == [] && !c.writing)
    ensures Conserved(Queue(c.(wire := c.wire + sent), rest))
  {
    if sent == [] {
      assert c.wire + sent == c.wire;
      assert c.wire + c.output + sent + rest == c.wire + (c.output + rest);
    } else {
      assert c.wire + c.output + sent + rest == c.wire + sent + (c.output + rest);
    }
  }

  lemma {:induction false} JoinedAppend<T>(ms: seq<seq<T>>, data: seq<T>)
    ensures Joined(ms + [data]) == Joined(ms) + data
  {
    assert (ms + [data])[..|ms|] == ms;
  }

  lemma SendKeeps<T>(c: Conn<T>, data: seq<T>, w: WriteResult)
    requires Inv(c) && LegalWrite(c, data, w)
    ensures Inv(Send(c, data, w))
  {
    hide Joined;
    if c.state == Connected {
      JoinedAppend(c.accepted, data);
      if data == [] {
        assert Joined(c.accepted) + data == Joined(c.accepted) && c.wire + data[..0] == c.wire;
      } else if !c.lost {
        SendAccepted(c, data, w);
      }
    }
  }

  // The message that is neither empty nor sent after a loss: written, queued, split or dropped.
  lemma SendAccepted<T>(c: Conn<T>, data: seq<T>, w: WriteResult)
    requires Inv(c) && c.state == Connected && !c.lost && data != [] && LegalWrite(c, data, w)
    requires Joined(c.accepted + [data]) == Joined(c.accepted) + data
    ensures Inv(Send(c, data, w))
  {
    hide Joined;
    var c0 := c.(accepted := c.accepted + [data]);
    assert c.wire + c.output + data == Joined(c0.accepted);
    if c.output == [] && w.Wrote? {
      assert data == data[..w.n] + data[w.n..];
      assert c.wire + c.output + data[..w.n] + data[w.n..] == c.wire + c.output + data;
      QueueKeeps(c0, data[..w.n], data[w.n..]);
    } else if c.output != [] || !w.Fatal? {
      assert c.wire + c.output + [] + data == c.wire + c.output + data && c.wire + [] == c.wire;
      QueueKeeps(c0, [], data);
    }
  }

  lemma {:induction false} ActsKeep<T>(c: Conn<T>, acts: seq<Act<T>>)
    requires Inv(c) && LegalActs(c, acts)
    ensures Inv(PerformAll(c, acts))
    decreases |acts|
  {
    if acts != [] {
      if acts[0].DoSend? {
        SendKeeps(c, acts[0].data, acts[0].w);
      }
      ActsKeep(Perform(c, acts[0]), acts[1..]);
    }
  }

  /** The flush moves bytes from the buffer to the wire without loss, duplication or reordering,
      and ends with an empty buffer, a re-armed edge, or a closed connection. */
  lemma {:induction false} FlushKeeps<T>(c: Conn<T>, ws: seq<WriteResult>)
    requires LegalFlush(c, ws) && c.writing
    ensures var f := Flush(c, ws);
            && f.wire + f.output == c.wire + c.output
            && (f.output == [] ==> f.state == c.state)
            && (f.output != [] ==> c.output != [] && (f.state == Disconnected || (f.writing && f.armed)))
            && f == c.(wire := f.wire, output := f.output, state := f.state, armed := f.armed)
            && (f.state == c.state || f.state == Disconnected)
    decreases |ws|
  {
    if c.output != [] && ws[0].Wrote? {
      var c' := Take(c, ws[0].n);
      assert c'.wire + c'.output == c.wire + c.output;
      FlushKeeps(c', ws[1..]);
    }
  }

  lemma HandleWriteKeeps<T>(c: Conn<T>, ws: seq<WriteResult>, callback: seq<Act<T>>)
    requires Inv(c) && LegalHandleWrite(c.(armed := false), ws, callback)
    ensures Inv(HandleWrite(c.(armed := false), ws, callback))
  {
    var c0 := c.(armed := false);
    if c.writing {
      FlushKeeps(c0, ws);
      var f := Flush(c0, ws);
      if f.output == [] {
        var d := DisableWrite(f);
        if d.state == Disconnecting {
          DisconnectingIgnores(d, callback);
        } else {
          ActsKeep(d, callback);
        }
      }
    }
  }

  // While the half-close is pending, callbacks can neither send nor shut down again.
  lemma {:induction false} DisconnectingIgnores<T>(c: Conn<T>, acts: seq<Act<T>>)
    requires c.state != Connected && LegalActs(c, acts)
    ensures PerformAll(c, acts) == c
    decreases |acts|
  {
    if acts != [] {
      DisconnectingIgnores(c, acts[1..]);
    }
  }

  lemma StepKeeps<T>(c: Conn<T>, e: Event<T>)
    requires Inv(c) && Legal(c, e)
    ensures Inv(Step(c, e))
  {
    match e
    case Application(act) =>
      if act.DoSend? {
        SendKeeps(c, act.data, act.w);
      }
    case WriteReady(ws, callback) => HandleWriteKeeps(c, ws, callback);
    case WriteComplete(callback) => ActsKeep(c.(completions := c.completions - 1), callback);
    case _ =>
  }

  predicate LegalRun<T>(c: Conn<T>, es: seq<Event<T>>)
    decreases |es|
  {
    es == [] || (Legal(c, es[0]) && LegalRun(Step(c, es[0]), es[1..]))
  }

  function Run<T>(c: Conn<T>, es: seq<Event<T>>): Conn<T>
    requires LegalRun(c, es)
    decreases |es|
  {
    if es == [] then c else Run(Step(c, es[0]), es[1..])
  }

  lemma {:induction false} RunKeeps<T>(c: Conn<T>, es: seq<Event<T>>)
    requires Inv(c) && LegalRun(c, es)
    ensures Inv(Run(c, es))
    decreases |es|
  {
    if es != [] {
      StepKeeps(c, es[0]);
      RunKeeps(Step(c, es[0]), es[1..]);
    }
  }

  /** Output stream conservation over any run of a connection: the bytes on the wire followed by
      the buffered ones are the accepted messages in order, exactly until a fatal error makes
      sendInLoop drop one; from then on the wire stays a prefix of them. */
  lemma {:induction false} StreamConserved<T>(es: seq<Event<T>>)
    requires LegalRun(NewConn(), es)
    ensures var c: Conn<T> := Run(NewConn(), es);
            && c.wire <= Joined(c.accepted)
            && (c.wire + c.output == Joined(c.accepted) <==> !c.lost)
  {
    RunKeeps(NewConn<T>(), es);
    var c: Conn<T> := Run(NewConn(), es);
    assert c.wire <= c.wire + c.output;
  }

  /** Half-close exactly when drained, at every handler boundary of any run; and a connection with
      bytes still to write always has an EPOLLOUT edge to come. */
  lemma {:induction false} HalfCloseWhenDrained<T>(es: seq<Event<T>>)
    requires LegalRun(NewConn(), es)
    ensures var c: Conn<T> := Run(NewConn(), es);
            && (Open(c) ==> (c.writing <==> c.output != []) && (c.writing ==> c.armed))
            && (c.state == Disconnecting ==> (c.halfClosed <==> c.output == []))
            && (c.state == Disconnecting ==> ((c.halfClosed <==> c.wire == Joined(c.accepted)) <==> !c.lost))
            && (c.halfClosed ==> c.state == Disconnecting || c.state == Disconnected)
  {
    RunKeeps(NewConn<T>(), es);
    var c: Conn<T> := Run(NewConn(), es);
    if c.output == [] {
      assert c.wire + c.output == c.wire;
    } else {
      assert |c.wire + c.output| > |c.wire|;
    }
  }

  // ---- What the write-complete callback does ----------------------------------------------------

  /** Told from the callback alone: the messages it sends before it shuts down, and whether it does. */
  function SentBy<T>(acts: seq<Act<T>>): seq<seq<T>> {
    if acts == [] || acts[0].DoShutdown? then [] else [acts[0].data] + SentBy(acts[1..])
  }

  predicate ShutsDown<T>(acts: seq<Act<T>>) {
    exists i :: 0 <= i < |acts| && acts[i].DoShutdown?
  }

  // The writes take the `n` bytes that are waiting, all of them.
  predicate DrainedBy(ws: seq<WriteResult>, n: nat)
    decreases |ws|
  {
    n == 0 || (ws != [] && ws[0].Wrote? && ws[0].n <= n && DrainedBy(ws[1..], n - ws[0].n))
  }

  lemma {:induction false} ActsTaken<T>(c: Conn<T>, acts: seq<Act<T>>)
    requires LegalActs(c, acts)
    ensures var r := PerformAll(c, acts);
            && r.accepted == (if c.state == Connected then c.accepted + SentBy(acts) else c.accepted)
            && r.state == (if c.state == Connected && ShutsDown(acts) then Disconnecting else c.state)
    decreases |acts|
  {
    if acts == [] {
      assert c.accepted + [] == c.accepted;
    } else {
      ActTaken(c, acts[0]);
      SentParts(c.accepted, acts);
      hide Perform, LegalAct, ShutsDown, SentBy;
      ActsTaken(Perform(c, acts[0]), acts[1..]);
      ShutsDownParts(acts);
    }
  }

  lemma {:induction false} SentParts<T>(before: seq<seq<T>>, acts: seq<Act<T>>)
    requires acts != []
    ensures before + SentBy(acts)
            == if acts[0].DoSend? then before + [acts[0].data] + SentBy(acts[1..]) else before
  {
  }

  lemma ShutsDownParts<T>(acts: seq<Act<T>>)
    requires acts != []
    ensures ShutsDown(acts) <==> acts[0].DoShutdown? || ShutsDown(acts[1..])
  {
    if i :| 0 <= i < |acts| && acts[i].DoShutdown? {
      assert i == 0 || acts[1..][i - 1].DoShutdown?;
    }
    if i :| 0 <= i < |acts[1..]| && acts[1..][i].DoShutdown? {
      assert acts[i + 1].DoShutdown?;
    }
  }

  lemma ActTaken<T>(c: Conn<T>, act: Act<T>)
    requires LegalAct(c, act)
    ensures var r := Perform(c, act);
            && r.accepted == (if c.state == Connected && act.DoSend? then c.accepted + [act.data] else c.accepted)
            && r.state == (if c.state == Connected && act.DoShutdown? then Disconnecting else c.state)
  {
  }

  lemma {:induction false} FlushDrains<T>(c: Conn<T>, ws: seq<WriteResult>)
    requires LegalFlush(c, ws)
    ensures var f := Flush(c, ws);
            && f.accepted == c.accepted && (f.output == [] <==> DrainedBy(ws, |c.output|))
            && (f.output == [] ==> f.state == c.state)
    decreases |ws|
  {
    if c.output != [] && ws[0].Wrote? {
      FlushDrains(Take(c, ws[0].n), ws[1..]);
    }
  }

  /** When the writes take all that was waiting, the write-complete callback is made, once, on a stream
      that is still open: exactly the messages it sends before it shuts down are taken. In every other
      case nothing is. */
  lemma {:induction false} DrainMakesCallback<T>(c: Conn<T>, ws: seq<WriteResult>, callback: seq<Act<T>>)
    requires Legal(c, WriteReady(ws, callback))
    ensures var r := Step(c, WriteReady(ws, callback));
            var called := c.writing && DrainedBy(ws, |c.output|) && c.state == Connected;
            && r.accepted == (if called then c.accepted + SentBy(callback) else c.accepted)
            && (called ==> r.state == if ShutsDown(callback) then Disconnecting else Connected)
            && (c.writing && DrainedBy(ws, |c.output|) && c.state != Connected ==> r.state == c.state)
  {
    var c0 := c.(armed := false);
    if c.writing {
      FlushDrains(c0, ws);
      var f := Flush(c0, ws);
      hide Flush, LegalFlush, DrainedBy;
      if f.output == [] {
        ActsTaken(DisableWrite(f), callback);
      }
    }
  }

  /** The callback queued for a message written whole does the same when it is run, and no other event
      takes a message. */
  lemma {:induction false} CallbackTakes<T>(c: Conn<T>, callback: seq<Act<T>>)
    requires Legal(c, WriteComplete(callback))
    ensures var r := Step(c, WriteComplete(callback));
            && r.accepted == (if c.state == Connected then c.accepted + SentBy(callback) else c.accepted)
            && r.state == (if c.state == Connected && ShutsDown(callback) then Disconnecting else c.state)
  {
    ActsTaken(c.(completions := c.completions - 1), callback);
  }

  /** The connection's own events move its state and touch no byte and no message. */
  lemma EventsSetState<T>(c: Conn<T>)
    ensures Legal(c, Established) ==> Step(c, Established) == c.(state := Connected)
    ensures Legal(c, Close) ==> Step(c, Close) == c.(state := Disconnected)
    ensures Legal(c, Destroyed) ==> Step(c, Destroyed) == c.(state := Disconnected, writing := false, armed := false)
  {
  }

  /** A callback is queued exactly when send writes a whole message at once: when nothing is waiting and
      write() takes all of it. */
  lemma SendQueuesCallback<T>(c: Conn<T>, data: seq<T>, w: WriteResult)
    requires LegalWrite(c, data, w)
    ensures Send(c, data, w).completions ==
              var whole := c.state == Connected && !c.writing && c.output == [] && w == Wrote(|data|);
              c.completions + if whole then 1 else 0
  {
  }

  /** After the half-close nothing more is written, whatever happens to the connection. */
  lemma {:induction false} SilentAfterHalfClose<T>(c: Conn<T>, es: seq<Event<T>>)
    requires Inv(c) && c.halfClosed && LegalRun(c, es)
    ensures Run(c, es).wire == c.wire && Run(c, es).halfClosed
    decreases |es|
  {
    if es != [] {
      StepKeeps(c, es[0]);
      if es[0].WriteComplete? {
        DisconnectingIgnores(c.(completions := c.completions - 1), es[0].callback);
      }
      SilentAfterHalfClose(Step(c, es[0]), es[1..]);
    }
  }

  /** Permanence of fatal errors is needed: were a later write to succeed after one, the wire
      would skip the dropped message. */
  lemma FatalMustBePermanent()
    ensures var c := Send(NewConn<int>().(state := Connected), [1], Fatal);
            && LegalWrite(NewConn<int>().(state := Connected), [1], Fatal)
            && !LegalWrite(c, [2], Wrote(1))
            && var d := Send(c.(lost := false), [2], Wrote(1));
               Joined(d.accepted) == [1, 2] && d.wire == [2] && !(d.wire <= Joined(d.accepted))
  {
    var c := Send(NewConn<int>().(state := Connected), [1], Fatal);
    assert c.accepted == [[1]] && c.wire == [] && c.output == [] && !c.writing && c.state == Connected;
    var d := Send(c.(lost := false), [2], Wrote(1));
    assert d.accepted == c.accepted + [[2]];
    assert d.wire == [2];
    JoinedAppend([], [1]);
    assert [] + [[1]] == [[1]];
    JoinedAppend([[1]], [2]);
    hide Send, LegalWrite;
    assert Joined<int>([]) == [];
    hide Joined;
    assert Joined(d.accepted) == [1] + [2];
    assert d.wire[0] != Joined(d.accepted)[0];
  }
}
