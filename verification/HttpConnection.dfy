/** An HTTP connection from end to end: bytes arrive in any cuts, the loop answers, and the kernel
    takes the answers as it pleases. */
module HttpConnection {
  import opened HttpParser
  import opened HttpResponse
  import opened HttpServer
  import Out = OutputStream

  type Conn = Out.Conn<char>

  // One answer handed to the connection, and the shutdown that follows the last one.
  function Answer(c: Conn, reply: Reply, w: Out.WriteResult): Conn
    requires Out.LegalWrite(c, reply.text, w)
  {
    var sent := Out.Send(c, reply.text, w);
    if reply.keepAlive then sent else Out.Shutdown(sent)
  }

  predicate LegalServe(c: Conn, rs: seq<Reply>, ws: seq<Out.WriteResult>)
    decreases |rs|
  {
    && |ws| == |rs|
    && (rs != [] ==> Out.LegalWrite(c, rs[0].text, ws[0]) && LegalServe(Answer(c, rs[0], ws[0]), rs[1..], ws[1..]))
  }

  function Serve(c: Conn, rs: seq<Reply>, ws: seq<Out.WriteResult>): Conn
    requires LegalServe(c, rs, ws)
    decreases |rs|
  {
    if rs == [] then c else Serve(Answer(c, rs[0], ws[0]), rs[1..], ws[1..])
  }

  /** An established connection with its context. */
  datatype Live = Live(session: Session, conn: Conn)

  const OPENED := Live(
    Session(FRESH, NO_REQUEST, NEW_RESPONSE, "", Link(true, []), []),
    Out.NewConn<char>().(state := Out.Connected))

  /** A delivery of bytes, with the results of the writes its answers cause; or an event between two
      deliveries. The server has no callback of its own for completed writes. */
  datatype Event =
    | Deliver(bytes: string, ws: seq<Out.WriteResult>)
    | WriteReady(ws: seq<Out.WriteResult>)
    | WriteComplete
    | Close
    | Destroyed

  function OnConn(e: Event): Out.Event<char>
    requires !e.Deliver?
  {
    match e
    case WriteReady(ws) => Out.WriteReady(ws, [])
    case WriteComplete => Out.WriteComplete([])
    case Close => Out.Close
    case Destroyed => Out.Destroyed
  }

  function RepliesTo(hs: Handlers, s: Session, bytes: string): seq<Reply> {
    Replies(hs, Messages(s.machine, s.request, bytes).outcomes, s.response)
  }

  // Bytes are delivered while the connection is open, and the loop gets through them.
  predicate Legal(hs: Handlers, l: Live, e: Event) {
    if e.Deliver? then
      && Out.Open(l.conn) && Drains(l.session.machine, l.session.request, e.bytes)
      && LegalServe(l.conn, RepliesTo(hs, l.session, e.bytes), e.ws)
    else
      Out.Legal(l.conn, OnConn(e))
  }

  function Next(hs: Handlers, l: Live, e: Event): Live
    requires Legal(hs, l, e)
  {
    if e.Deliver? then
      Live(Settled(hs, l.session.(input := e.bytes)), Serve(l.conn, RepliesTo(hs, l.session, e.bytes), e.ws))
    else
      var c := Out.Step(l.conn, OnConn(e));
      Live(l.session.(link := LinkOf(c)), c)
  }

  predicate LegalRun(hs: Handlers, l: Live, es: seq<Event>)
    decreases |es|
  {
    es == [] || (Legal(hs, l, es[0]) && LegalRun(hs, Next(hs, l, es[0]), es[1..]))
  }

  function Run(hs: Handlers, l: Live, es: seq<Event>): Live
    requires LegalRun(hs, l, es)
    decreases |es|
  {
    if es == [] then l else Run(hs, Next(hs, l, es[0]), es[1..])
  }

  function Delivered(es: seq<Event>): string {
    if es == [] then "" else (if es[0].Deliver? then es[0].bytes else "") + Delivered(es[1..])
  }

  // ---- The connection against the link ----------------------------------------------------------

  lemma AnswerTracks(c: Conn, reply: Reply, w: Out.WriteResult)
    requires Out.Inv(c) && Out.LegalWrite(c, reply.text, w)
    ensures var l := SendTo(LinkOf(c), reply.text);
            LinkOf(Answer(c, reply, w)) == if reply.keepAlive then l else ShutDown(l)
    ensures Out.Inv(Answer(c, reply, w))
  {
    LinkTracksConnection(c, reply.text, w);
    Out.SendKeeps(c, reply.text, w);
    var sent := Out.Send(c, reply.text, w);
    hide Out.Inv, Out.Send;
    LinkTracksConnection(sent, "", Out.WouldBlock);
    Out.StepKeeps(sent, Out.Application(Out.DoShutdown));
  }

  /** The answers of one delivery: through the link they look as the loop counts them. */
  lemma {:induction false} ServeTracks(c: Conn, rs: seq<Reply>, ws: seq<Out.WriteResult>)
    requires Out.Inv(c) && LegalServe(c, rs, ws)
    ensures LinkOf(Serve(c, rs, ws)) == Answered(LinkOf(c), rs) && Out.Inv(Serve(c, rs, ws))
    decreases |rs|
  {
    hide Out.Inv, Answer, Out.LegalWrite;
    if rs != [] {
      AnswerTracks(c, rs[0], ws[0]);
      ServeTracks(Answer(c, rs[0], ws[0]), rs[1..], ws[1..]);
    }
  }

  // Between deliveries nothing is accepted, and an open connection stays as it is or is closed.
  lemma QuietEvent(c: Conn, e: Event)
    requires Out.Inv(c) && !e.Deliver? && Out.Legal(c, OnConn(e))
    ensures var d := Out.Step(c, OnConn(e));
            Out.Inv(d) && d.accepted == c.accepted && (Out.Open(d) ==> d.state == c.state)
  {
    Out.StepKeeps(c, OnConn(e));
    if e.WriteReady? && c.writing {
      Out.FlushKeeps(c.(armed := false), e.ws);
    }
    hide Out.Inv, Out.Flush, Out.LegalFlush;
  }

  // ---- What every event keeps -------------------------------------------------------------------

  /** Where a connection stands after the bytes `sofar`, whatever cuts they came in. */
  ghost predicate Inv(hs: Handlers, l: Live, sofar: string) {
    var m := Messages(FRESH, NO_REQUEST, sofar);
    var replies := Replies(hs, m.outcomes, NEW_RESPONSE);
    && Drains(FRESH, NO_REQUEST, sofar)
    && l.session == Session(m.machine, m.partial, ResponseAfter(NEW_RESPONSE, m.outcomes), "",
                            LinkOf(l.conn), Dispatched(m.outcomes))
    && Out.Inv(l.conn) && l.conn.accepted == UpToFirstClose(replies)
    && (Out.Open(l.conn) ==> LinkOf(l.conn) == Answered(Link(true, []), replies))
  }

  lemma DeliverKeeps(hs: Handlers, l: Live, sofar: string, e: Event)
    requires Inv(hs, l, sofar) && e.Deliver? && Legal(hs, l, e)
    ensures Inv(hs, Next(hs, l, e), sofar + e.bytes)
  {
    hide Out.Inv, Out.Open, Messages, Settled, Answered, Replies, Dispatched, UpToFirstClose, Serve, LegalServe;
    var m := Messages(FRESH, NO_REQUEST, sofar);
    var t := Messages(m.machine, m.partial, e.bytes);
    StreamChunkInvariance(FRESH, NO_REQUEST, sofar, e.bytes);
    assert "" + e.bytes == e.bytes;
    LoopServesStream(hs, l.session.(input := e.bytes));
    ServeTracks(l.conn, RepliesTo(hs, l.session, e.bytes), e.ws);
    AnswersChain(hs, Link(true, []), m.outcomes, t.outcomes, NEW_RESPONSE);
    AnsweredIsPrefix(Link(true, []), Replies(hs, m.outcomes + t.outcomes, NEW_RESPONSE));
    DispatchedChain(m.outcomes, t.outcomes);
    assert [] + UpToFirstClose(Replies(hs, m.outcomes + t.outcomes, NEW_RESPONSE))
        == UpToFirstClose(Replies(hs, m.outcomes + t.outcomes, NEW_RESPONSE));
  }

  lemma NextKeeps(hs: Handlers, l: Live, sofar: string, e: Event)
    requires Inv(hs, l, sofar) && Legal(hs, l, e)
    ensures Inv(hs, Next(hs, l, e), sofar + Delivered([e]))
  {
    assert Delivered([e]) == if e.Deliver? then e.bytes else "" by {
      assert [e][1..] == [];
    }
    if e.Deliver? {
      DeliverKeeps(hs, l, sofar, e);
    } else {
      hide Out.Inv, Messages, Answered, Replies, Dispatched, UpToFirstClose, Out.Step, Drains;
      QuietEvent(l.conn, e);
      assert sofar + "" == sofar;
    }
  }

  lemma {:induction false} RunKeeps(hs: Handlers, l: Live, sofar: string, es: seq<Event>)
    requires Inv(hs, l, sofar) && LegalRun(hs, l, es)
    ensures Inv(hs, Run(hs, l, es), sofar + Delivered(es))
    decreases |es|
  {
    hide Inv, Legal, Next;
    if es == [] {
      assert sofar + "" == sofar;
    } else {
      NextKeeps(hs, l, sofar, es[0]);
      RunKeeps(hs, Next(hs, l, es[0]), sofar + Delivered([es[0]]), es[1..]);
      assert [es[0]][1..] == [];
      assert sofar + Delivered([es[0]]) + Delivered(es[1..]) == sofar + Delivered(es);
    }
  }

  lemma OpenedIsFine(hs: Handlers)
    ensures Inv(hs, OPENED, "")
  {
    ParseEmpty(FRESH, NO_REQUEST);
    assert OPENED.conn.wire + OPENED.conn.output == [];
  }

  /** From bytes in to bytes out: for all deliveries that the loop gets through, in whatever cuts, and
      however the kernel took the answers, the requests dispatched are those of the whole stream, the
      answers taken are those up to the first that closes, and the wire carries them in order: a prefix
      always, all of them exactly when nothing is buffered and nothing was lost to a fatal error. */
  lemma {:induction false} AnswersReachTheWire(hs: Handlers, es: seq<Event>)
    requires LegalRun(hs, OPENED, es)
    ensures var l := Run(hs, OPENED, es);
            var found := Messages(FRESH, NO_REQUEST, Delivered(es)).outcomes;
            var answers := UpToFirstClose(Replies(hs, found, NEW_RESPONSE));
            && l.session.handled == Dispatched(found) && l.conn.accepted == answers
            && l.conn.wire <= Out.Joined(answers)
            && (l.conn.wire == Out.Joined(answers) <==> l.conn.output == [] && !l.conn.lost)
  {
    OpenedIsFine(hs);
    RunKeeps(hs, OPENED, "", es);
    assert "" + Delivered(es) == Delivered(es);
    hide Run, LegalRun, Messages, Replies, UpToFirstClose, Dispatched, Out.Inv;
    WireOf(Run(hs, OPENED, es).conn);
  }

  lemma WireOf(c: Conn)
    requires Out.Inv(c)
    ensures c.wire <= Out.Joined(c.accepted)
    ensures c.wire == Out.Joined(c.accepted) <==> c.output == [] && !c.lost
  {
    assert c.wire <= c.wire + c.output && |c.wire + c.output| == |c.wire| + |c.output|;
    assert c.output == [] ==> c.wire + c.output == c.wire;
  }
}
