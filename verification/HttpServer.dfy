/** The pipelining loop of the HTTP server: parse, dispatch, answer, reset, until the input
    buffer is empty. */
module HttpServer {
  import opened Optional
  import opened HttpText
  import opened HttpParser
  import opened HttpResponse
  import OutputStream
  import ByteBuffer

  /** A registered handler may rewrite both halves of the context it is given. */
  type Handlers = map<string, (Request, Response) -> (Request, Response)>

  /** What the loop sees of its connection: does send() take messages, and which has it taken. */
  datatype Link = Link(connected: bool, accepted: seq<string>)

  function SendTo(l: Link, text: string): Link {
    if l.connected then l.(accepted := l.accepted + [text]) else l
  }

  function ShutDown(l: Link): Link { l.(connected := false) }

  function LinkOf(c: OutputStream.Conn<char>): Link {
    Link(c.state == OutputStream.Connected, c.accepted)
  }

  /** The link is the connection with the kernel left out: send and shutdown show the same through
      it whatever write() does. */
  lemma LinkTracksConnection(c: OutputStream.Conn<char>, text: string, w: OutputStream.WriteResult)
    requires OutputStream.LegalWrite(c, text, w)
    ensures LinkOf(OutputStream.Send(c, text, w)) == SendTo(LinkOf(c), text)
    ensures LinkOf(OutputStream.Shutdown(c)) == ShutDown(LinkOf(c))
  {
  }

  predicate IsKeepAlive(q: Request) {
    if q.version == "HTTP/1.1" then
      "connection" in q.headers ==> q.headers["connection"] != "close"
    else
      "connection" in q.headers && q.headers["connection"] == "keep-alive"
  }

  function NotFound(q: Request, r: Response): Response {
    r.(version := q.version, statusCode := 404, body := "Not Found",
       headers := WithHeader(r.headers, "Content-Length", "10"))
  }

  function OnRequest(hs: Handlers, q: Request, r: Response): (Request, Response) {
    if q.path in hs then hs[q.path](q, r) else (q, NotFound(q, r))
  }

  /** One answer: its text, and whether the connection stays open for the next request. */
  datatype Reply = Reply(text: string, keepAlive: bool)

  function ReplyTo(hs: Handlers, q: Request, r: Response): Reply {
    var (q', r') := OnRequest(hs, q, r);
    var keepAlive := IsKeepAlive(q');
    var value := if keepAlive then "keep-alive" else "close";
    Reply(Printed(r'.(headers := WithHeader(r'.headers, "Connection", value))), keepAlive)
  }

  function BadRequest(r: Response): Response {
    r.(statusCode := 400, body := "Bad Request", headers := WithHeader(r.headers, "Connection", "close"))
  }

  /** A connection's HTTP context with its input buffer, its link, and the requests dispatched. */
  datatype Session = Session(
    machine: Machine, request: Request, response: Response,
    input: string, link: Link, handled: seq<Request>)

  function AfterReply(s: Session, rest: string, reply: Reply): Session {
    var sent := SendTo(s.link, reply.text);
    s.(machine := FRESH, request := NO_REQUEST, response := BLANK_RESPONSE, input := rest,
       link := if reply.keepAlive then sent else ShutDown(sent))
  }

  // What is sent for one message: the answer to a request, or the refusal of a malformed one.
  function ReplyFor(hs: Handlers, o: Outcome, r: Response): Reply {
    match o
    case Accepted(q) => ReplyTo(hs, q, r)
    case Malformed => Reply(Printed(BadRequest(r)), false)
  }

  function Dispatched(os: seq<Outcome>): seq<Request> {
    if os == [] then []
    else (if os[0].Accepted? then [os[0].request] else []) + Dispatched(os[1..])
  }

  /** One turn of the loop. */
  function Iterate(hs: Handlers, s: Session): Session {
    var p := Parse(s.machine, s.request, s.input);
    match p.result
    case NeedMore => s.(machine := p.machine, request := p.request, input := p.rest)
    case Success =>
      AfterReply(s, p.rest, ReplyFor(hs, Accepted(p.request), s.response)).(handled := s.handled + [p.request])
    case Error => AfterReply(s, p.rest, ReplyFor(hs, Malformed, s.response))
  }

  /** At most `n` turns: the loop stops when the input is empty. */
  function Turns(hs: Handlers, s: Session, n: nat): Session
    decreases n
  {
    if n == 0 || s.input == "" then s else Turns(hs, Iterate(hs, s), n - 1)
  }

  // ---- When does the loop end? ------------------------------------------------------------------

  /** Read off the parser alone: are all the bytes consumed as messages come out? A tail that stops
      inside a line is left over, and so is a message that starts with a malformed line. */
  predicate Drains(m: Machine, q: Request, input: string) {
    var found := Messages(m, q, input);
    found.open && found.rest == ""
  }

  /** The state the loop ends in, for inputs on which it ends. */
  function Settled(hs: Handlers, s: Session): Session
    requires Drains(s.machine, s.request, s.input)
    decreases |s.input|, if s.machine.state == StartLine then 0 else 1
  {
    if s.input == "" then s
    else
      SuccessProgress(s.machine, s.request, s.input);
      var t := Iterate(hs, s);
      if t.input == "" then t else Settled(hs, t)
  }

  // A session whose next turn changes nothing but, at most, the answers sent.
  predicate Stuck(s: Session) {
    && s.input != ""
    && var p := Parse(s.machine, s.request, s.input);
       && p.rest == s.input
       && ((p.result == NeedMore && p.machine == s.machine && p.request == s.request)
           || (p.result == Error && s.machine.state == StartLine))
  }

  lemma {:induction false} NeedMoreIsStuck(m: Machine, q: Request, input: string)
    ensures var p := Parse(m, q, input);
            p.result == NeedMore ==> Parse(p.machine, p.request, p.rest) == p
  {
    ChunkInvariance(m, q, input, "");
    var p := Parse(m, q, input);
    assert input + "" == input && p.rest + "" == p.rest;
  }

  lemma {:induction false} BadLineIsStuck(m: Machine, q: Request, input: string)
    requires m.state == StartLine && input != ""
    requires Parse(m, q, input).result == Error && |Parse(m, q, input).rest| == |input|
    ensures Parse(FRESH, NO_REQUEST, input) == Parsed(Error, FRESH, NO_REQUEST, input)
  {
  }

  lemma StuckStays(hs: Handlers, s: Session)
    requires Stuck(s)
    ensures Stuck(Iterate(hs, s)) && Iterate(hs, s).input == s.input
  {
    hide TakeTurn, ReplyFor;
    if Parse(s.machine, s.request, s.input).result == Error {
      BadLineIsStuck(s.machine, s.request, s.input);
    }
  }

  lemma {:induction false} StuckForEver(hs: Handlers, s: Session, n: nat)
    requires Stuck(s)
    ensures Turns(hs, s, n).input == s.input
    decreases n
  {
    hide Iterate, Parse;
    if n > 0 {
      StuckStays(hs, s);
      StuckForEver(hs, Iterate(hs, s), n - 1);
    }
  }

  // The message a verdict stands for.
  function OutcomeOf(p: Parsed): Outcome { if p.result == Success then Accepted(p.request) else Malformed }

  // The verdict moves the loop on: it is one, and the bytes or the parser's state are left behind.
  predicate Moves(m: Machine, q: Request, input: string) {
    var p := Parse(m, q, input);
    p.result == Success || (p.result == Error && (m.state != StartLine || |p.rest| < |input|))
  }

  // One message: the loop and the message stream advance together.
  lemma StreamOnward(hs: Handlers, s: Session)
    requires s.input != "" && Parse(s.machine, s.request, s.input).result != NeedMore
    requires Moves(s.machine, s.request, s.input) || Drains(s.machine, s.request, s.input)
    ensures var p := Parse(s.machine, s.request, s.input);
            var t := Iterate(hs, s);
            && Moves(s.machine, s.request, s.input)
            && t.machine == FRESH && t.request == NO_REQUEST && t.input == p.rest
            && Messages(s.machine, s.request, s.input)
               == Prepended(OutcomeOf(p), Messages(t.machine, t.request, t.input))
            && (Drains(t.machine, t.request, t.input) <==> Drains(s.machine, s.request, s.input))
  {
    hide Parse, ReplyFor;
  }

  /** Where the predicate holds the loop reaches the settled state; where it does not, the loop
      never empties the buffer. */
  lemma {:induction false} DrainsDecides(hs: Handlers, s: Session) returns (n: nat)
    ensures Drains(s.machine, s.request, s.input) ==> Turns(hs, s, n) == Settled(hs, s) && Turns(hs, s, n).input == ""
    ensures !Drains(s.machine, s.request, s.input) ==> forall k: nat :: Turns(hs, s, k).input != ""
    decreases |s.input|, if s.machine.state == StartLine then 0 else 1
  {
    hide Parse, ReplyFor, Answered;
    n := 0;
    ParseEmpty(s.machine, s.request);
    if s.input != "" {
      SuccessProgress(s.machine, s.request, s.input);
      var p := Parse(s.machine, s.request, s.input);
      var t := Iterate(hs, s);
      if !Moves(s.machine, s.request, s.input) {
        n := 1;
        assert Turns(hs, s, 1) == Turns(hs, t, 0) == t;
        if p.rest != "" {
          NeverEmpty(hs, s);
        }
      } else {
        StreamOnward(hs, s);
        var k := DrainsDecides(hs, t);
        n := k + 1;
        if !Drains(t.machine, t.request, t.input) {
          forall k: nat ensures Turns(hs, s, k).input != "" {
            if k > 0 {
              assert Turns(hs, s, k) == Turns(hs, t, k - 1);
            }
          }
        }
      }
    }
  }

  lemma NeverEmpty(hs: Handlers, s: Session)
    requires s.input != ""
    requires var p := Parse(s.machine, s.request, s.input);
             (p.result == NeedMore && p.rest != "")
             || (p.result == Error && s.machine.state == StartLine && |p.rest| == |s.input|)
    ensures forall k: nat :: Turns(hs, s, k).input != ""
  {
    hide TakeTurn;
    var p := Parse(s.machine, s.request, s.input);
    NeedMoreIsStuck(s.machine, s.request, s.input);
    ParseConsumesPrefix(s.machine, s.request, s.input);
    if p.result == Error {
      BadLineIsStuck(s.machine, s.request, s.input);
    }
    var t := Iterate(hs, s);
    assert Stuck(t);
    hide Stuck, Iterate, Parse;
    forall k: nat ensures Turns(hs, s, k).input != "" {
      if k > 0 {
        assert Turns(hs, s, k) == Turns(hs, t, k - 1);
        StuckForEver(hs, t, k - 1);
      }
    }
  }

  /** The loop ends if and only if the parser, reset after each message, leaves no byte over. */
  lemma LoopEndsIff(hs: Handlers, s: Session)
    ensures (exists n: nat :: Turns(hs, s, n).input == "") <==> Drains(s.machine, s.request, s.input)
  {
    var n := DrainsDecides(hs, s);
  }

  /** A line whose CRLF has not arrived yet: the loop spins on it for ever. */
  lemma {:induction false} UnterminatedLineSpins(hs: Handlers, s: Session, n: nat)
    requires s.machine.state != Body && s.input != "" && NoCrlf(s.input)
    ensures Turns(hs, s, n).input == s.input && !Drains(s.machine, s.request, s.input)
  {
    NoLineIff(s.input);
    hide SplitLine, Iterate;
    StuckForEver(hs, s, n);
  }

  // ---- Pipelining ----------------------------------------------------------------------------------

  /** The answers to a sequence of messages: only the first sees the response object as it was
      constructed, every later one gets it blank. */
  function Replies(hs: Handlers, os: seq<Outcome>, r: Response): seq<Reply> {
    if os == [] then [] else [ReplyFor(hs, os[0], r)] + Replies(hs, os[1..], BLANK_RESPONSE)
  }

  // The link after these answers: the first that is not keep-alive is the last one taken.
  function Answered(l: Link, rs: seq<Reply>): Link
    decreases |rs|
  {
    if rs == [] then l
    else
      var sent := SendTo(l, rs[0].text);
      Answered(if rs[0].keepAlive then sent else ShutDown(sent), rs[1..])
  }

  function UpToFirstClose(rs: seq<Reply>): seq<string> {
    if rs == [] then []
    else if !rs[0].keepAlive then [rs[0].text]
    else [rs[0].text] + UpToFirstClose(rs[1..])
  }

  lemma {:induction false} AnsweredIsPrefix(l: Link, rs: seq<Reply>)
    ensures Answered(l, rs).accepted == l.accepted + if l.connected then UpToFirstClose(rs) else []
    ensures Answered(l, rs).connected <==> l.connected && forall i | 0 <= i < |rs| :: rs[i].keepAlive
    decreases |rs|
  {
    if rs != [] {
      var sent := SendTo(l, rs[0].text);
      AnsweredIsPrefix(if rs[0].keepAlive then sent else ShutDown(sent), rs[1..]);
      if !rs[0].keepAlive {
        assert exists i :: 0 <= i < |rs| && !rs[i].keepAlive;
      }
      assert forall i | 0 < i < |rs| :: rs[i] == rs[1..][i - 1];
      assert l.accepted + [rs[0].text] + UpToFirstClose(rs[1..])
          == l.accepted + ([rs[0].text] + UpToFirstClose(rs[1..]));
    }
  }

  ghost predicate Served(hs: Handlers, s: Session)
    requires Drains(s.machine, s.request, s.input)
  {
    var m := Messages(s.machine, s.request, s.input);
    var t := Settled(hs, s);
    && t.handled == s.handled + Dispatched(m.outcomes)
    && t.link == Answered(s.link, Replies(hs, m.outcomes, s.response))
    && t.response == ResponseAfter(s.response, m.outcomes)
    && t.input == "" && t.machine == m.machine && t.request == m.partial
  }

  // The first answer uses the response object up.
  function ResponseAfter(r: Response, os: seq<Outcome>): Response { if os == [] then r else BLANK_RESPONSE }

  /** The loop against the message stream: whenever it ends, it has dispatched exactly the requests
      of the stream, answered them and refused what was malformed, in order, and holds exactly the
      tail that the stream holds. */
  lemma {:induction false} LoopServesStream(hs: Handlers, s: Session)
    requires Drains(s.machine, s.request, s.input)
    ensures Served(hs, s)
    decreases |s.input|, if s.machine.state == StartLine then 0 else 1
  {
    var p := Parse(s.machine, s.request, s.input);
    if s.input == "" || p.result == NeedMore {
      hide Parse;
      ParseEmpty(s.machine, s.request);
      assert s.handled + [] == s.handled;
    } else {
      hide *;
      SuccessProgress(s.machine, s.request, s.input);
      StreamOnward(hs, s);
      LoopServesStream(hs, Iterate(hs, s));
      ServedOneMore(hs, s);
    }
  }

  lemma ServedOneMore(hs: Handlers, s: Session)
    requires Drains(s.machine, s.request, s.input)
    requires s.input != "" && Parse(s.machine, s.request, s.input).result != NeedMore
    requires var t := Iterate(hs, s); Drains(t.machine, t.request, t.input) && Served(hs, t)
    ensures Served(hs, s)
  {
    hide Parse, ReplyFor, Iterate, Messages, Settled, Drains, Replies, Dispatched, Answered, SendTo, ShutDown;
    StreamOnward(hs, s);
    SettledOnward(hs, s);
    IterateReplies(hs, s);
    var t := Iterate(hs, s);
    var o := OutcomeOf(Parse(s.machine, s.request, s.input));
    var rest := Messages(t.machine, t.request, t.input).outcomes;
    RepliesFirst(hs, o, rest, s.response);
    DispatchedFirst([o] + rest);
    assert ([o] + rest)[1..] == rest;
    AnsweredOne(s.link, ReplyFor(hs, o, s.response), Replies(hs, rest, BLANK_RESPONSE));
    var one := if o.Accepted? then [o.request] else [];
    assert s.handled + one + Dispatched(rest) == s.handled + (one + Dispatched(rest));
  }

  lemma {:induction false} SettledOnward(hs: Handlers, s: Session)
    requires s.input != "" && Drains(s.machine, s.request, s.input)
    requires var t := Iterate(hs, s); Drains(t.machine, t.request, t.input)
    ensures Settled(hs, s) == Settled(hs, Iterate(hs, s))
  {
    hide Parse, ReplyFor, Messages, Iterate;
  }

  // What a turn that reaches a verdict sends, and what it has dispatched.
  lemma IterateReplies(hs: Handlers, s: Session)
    requires Parse(s.machine, s.request, s.input).result != NeedMore
    ensures var o := OutcomeOf(Parse(s.machine, s.request, s.input));
            var t := Iterate(hs, s);
            var reply := ReplyFor(hs, o, s.response);
            var sent := SendTo(s.link, reply.text);
            && t.link == (if reply.keepAlive then sent else ShutDown(sent)) && t.response == BLANK_RESPONSE
            && t.handled == s.handled + if o.Accepted? then [o.request] else []
  {
    hide Parse, ReplyTo, BadRequest, Printed;
  }

  lemma {:induction false} RepliesFirst(hs: Handlers, o: Outcome, os: seq<Outcome>, r: Response)
    ensures Replies(hs, [o] + os, r) == [ReplyFor(hs, o, r)] + Replies(hs, os, BLANK_RESPONSE)
  {
    hide ReplyFor;
    assert ([o] + os)[1..] == os;
  }

  lemma {:induction false} ParseEmpty(m: Machine, q: Request)
    ensures Parse(m, q, "") == Parsed(NeedMore, m, q, "")
  {
  }

  /** A complete request: a fresh parser takes exactly these bytes. */
  predicate Complete(w: string) {
    var p := Parse(FRESH, NO_REQUEST, w);
    p.result == Success && p.rest == ""
  }

  predicate AllComplete(ws: seq<string>) {
    forall i | 0 <= i < |ws| :: Complete(ws[i])
  }

  function RequestsOf(ws: seq<string>): seq<Request> {
    if ws == [] then [] else [Parse(FRESH, NO_REQUEST, ws[0]).request] + RequestsOf(ws[1..])
  }

  function Received(qs: seq<Request>): seq<Outcome> {
    if qs == [] then [] else [Accepted(qs[0])] + Received(qs[1..])
  }

  lemma {:induction false} DispatchedReceived(qs: seq<Request>)
    ensures Dispatched(Received(qs)) == qs
  {
    if qs != [] {
      DispatchedReceived(qs[1..]);
      assert Received(qs)[1..] == Received(qs[1..]);
    }
  }

  lemma {:induction false} CompleteRequestsAreMessages(ws: seq<string>)
    requires AllComplete(ws)
    ensures Messages(FRESH, NO_REQUEST, Concat(ws)) == Stream(Received(RequestsOf(ws)), true, FRESH, NO_REQUEST, "")
  {
    hide Parse;
    if ws == [] {
      ParseEmpty(FRESH, NO_REQUEST);
    } else {
      assert Complete(ws[0]);
      ChunkInvariance(FRESH, NO_REQUEST, ws[0], Concat(ws[1..]));
      assert "" + Concat(ws[1..]) == Concat(ws[1..]);
      CompleteRequestsAreMessages(ws[1..]);
      assert RequestsOf(ws)[1..] == RequestsOf(ws[1..]);
    }
  }

  /** Pipelining: n complete requests in one buffer are dispatched, those n and in order, each as
      if it had come alone; the buffer is emptied; and the answers accepted for sending are those
      up to and including the first that closes the connection. */
  lemma {:induction false} PipelinedRequests(hs: Handlers, s: Session, ws: seq<string>)
    requires s.machine == FRESH && s.request == NO_REQUEST && s.input == Concat(ws)
    requires AllComplete(ws) && s.link.connected
    ensures Drains(s.machine, s.request, s.input)
    ensures var t := Settled(hs, s);
            var replies := Replies(hs, Received(RequestsOf(ws)), s.response);
            && t.input == "" && t.machine == FRESH && t.request == NO_REQUEST
            && t.handled == s.handled + RequestsOf(ws)
            && t.link.accepted == s.link.accepted + UpToFirstClose(replies)
  {
    hide Parse, Messages, Settled;
    CompleteRequestsAreMessages(ws);
    DispatchedReceived(RequestsOf(ws));
    LoopServesStream(hs, s);
    AnsweredIsPrefix(s.link, Replies(hs, Received(RequestsOf(ws)), s.response));
  }

  /** Requests printed as the standard lays them out, with their length declared, are complete and
      are dispatched with exactly their own header fields and body. */
  lemma {:induction false} PrintedRequestIsComplete(
    method_: string, path: string, version: string, h: Pairs, body: string)
    requires ' ' !in method_ && ' ' !in path && NoCrlf(method_) && NoCrlf(path) && NoCrlf(version)
    requires AllPrintable(h)
    requires DeclaredLength(Request(method_, path, version, Collected(map[], h), body)) == Some(|body|)
    ensures var w := Message(method_, path, version, h, body);
            Complete(w) && RequestsOf([w]) == [Request(method_, path, version, Collected(map[], h), body)]
  {
    MessageRoundTrip(method_, path, version, h, body);
    var w := Message(method_, path, version, h, body);
    assert [w][1..] == [];
  }

  lemma {:induction false} AnswersChain(hs: Handlers, l: Link, a: seq<Outcome>, b: seq<Outcome>, r: Response)
    ensures Answered(l, Replies(hs, a + b, r))
            == Answered(Answered(l, Replies(hs, a, r)), Replies(hs, b, ResponseAfter(r, a)))
    decreases |a|
  {
    hide ReplyFor;
    if a == [] {
      assert a + b == b;
    } else {
      assert (a + b)[1..] == a[1..] + b;
      var reply := ReplyFor(hs, a[0], r);
      var sent := SendTo(l, reply.text);
      var l' := if reply.keepAlive then sent else ShutDown(sent);
      AnswersChain(hs, l', a[1..], b, BLANK_RESPONSE);
      AnsweredOne(l, reply, Replies(hs, (a + b)[1..], BLANK_RESPONSE));
      AnsweredOne(l, reply, Replies(hs, a[1..], BLANK_RESPONSE));
    }
  }

  lemma {:induction false} AnsweredOne(l: Link, reply: Reply, rs: seq<Reply>)
    ensures var sent := SendTo(l, reply.text);
            Answered(l, [reply] + rs) == Answered(if reply.keepAlive then sent else ShutDown(sent), rs)
  {
  }

  /** Arrivals: when each of two deliveries lets the loop end, the second leaves everything, the
      requests dispatched, the answers taken and the whole context, as one delivery of both would. */
  lemma {:induction false} TwoArrivalsActAsOne(hs: Handlers, s: Session, a: string, b: string)
    requires s.input == a && Drains(s.machine, s.request, a) && Drains(s.machine, s.request, a + b)
    ensures var first := Settled(hs, s);
            Drains(first.machine, first.request, b)
            && Settled(hs, first.(input := b)) == Settled(hs, s.(input := a + b))
  {
    hide Parse, Messages, Settled, Answered, Replies, Dispatched;
    StreamChunkInvariance(s.machine, s.request, a, b);
    LoopServesStream(hs, s);
    LoopServesStream(hs, s.(input := a + b));
    assert "" + b == b;
    LoopServesStream(hs, Settled(hs, s).(input := b));
    var m := Messages(s.machine, s.request, a);
    var t := Messages(m.machine, m.partial, b);
    AnswersChain(hs, s.link, m.outcomes, t.outcomes, s.response);
    DispatchedChain(m.outcomes, t.outcomes);
    assert s.handled + Dispatched(m.outcomes) + Dispatched(t.outcomes)
        == s.handled + (Dispatched(m.outcomes) + Dispatched(t.outcomes));
  }

  lemma {:induction false} DispatchedChain(a: seq<Outcome>, b: seq<Outcome>)
    ensures Dispatched(a + b) == Dispatched(a) + Dispatched(b)
  {
    if a == [] {
      assert a + b == b;
    } else {
      var c := a + b;
      assert c[0] == a[0] && c[1..] == a[1..] + b;
      DispatchedChain(a[1..], b);
      DispatchedFirst(a);
      DispatchedFirst(c);
      hide Dispatched;
      var first := if a[0].Accepted? then [a[0].request] else [];
      assert first + (Dispatched(a[1..]) + Dispatched(b)) == first + Dispatched(a[1..]) + Dispatched(b);
    }
  }

  lemma {:induction false} DispatchedFirst(os: seq<Outcome>)
    requires os != []
    ensures Dispatched(os) == (if os[0].Accepted? then [os[0].request] else []) + Dispatched(os[1..])
  {
  }

  /** The server's own 404 answer, as sent, declares one byte more than it carries: a peer with this
      parser does not read it back whole, whatever was asked for and whatever has been sent before. */
  lemma NotFoundFallsShort(hs: Handlers, q: Request, r: Response)
    requires q.path !in hs && NoCrlf(q.version) && r in {NEW_RESPONSE, BLANK_RESPONSE}
    ensures var p := Parse(FRESH, NO_REQUEST, ReplyTo(hs, q, r).text);
            !(p.result == Success && p.rest == "")
  {
    var h := NotFoundText(hs, q, r);
    TenDeclared(h);
    var line := q.version + " " + DecimalInt(404) + " " + StatusMessage(404);
    NotFoundLine(q.version, line);
    var first := ParseRequestLine(line, NO_REQUEST).value;
    PartsOfLine(line, NO_REQUEST);
    hide *;
    MessageRoundTrip(first.method_, first.path, first.version, h, "Not Found");
    SameMessage(q.version, DecimalInt(404), StatusMessage(404),
                first.method_, first.path, first.version, h, "Not Found");
  }

  lemma NotFoundText(hs: Handlers, q: Request, r: Response) returns (h: Pairs)
    requires q.path !in hs && r in {NEW_RESPONSE, BLANK_RESPONSE}
    ensures |h| == 2 && h[0].0 == "Connection" && h[0].1 in {"keep-alive", "close"}
    ensures h[1] == ("Content-Length", "10")
    ensures ReplyTo(hs, q, r).text == Message(q.version, DecimalInt(404), StatusMessage(404), h, "Not Found")
  {
    var value := if IsKeepAlive(q) then "keep-alive" else "close";
    h := [("Connection", value), ("Content-Length", "10")];
    NotFoundHeaders(value);
    hide WithHeader, Message;
  }

  // However its words are told apart, the start line is the same line.
  lemma SameMessage(a: string, b: string, c: string, a': string, b': string, c': string, h: Pairs, body: string)
    requires a + " " + b + " " + c == a' + " " + b' + " " + c'
    ensures Message(a, b, c, h, body) == Message(a', b', c', h, body)
  {
  }

  lemma NotFoundHeaders(value: string)
    ensures WithHeader(WithHeader([], "Content-Length", "10"), "Connection", value)
            == [("Connection", value), ("Content-Length", "10")]
  {
    hide AsMap;
    var a, b := "Connection", "Content-Length";
    assert Less(a, b) by {
      assert Less(a[3..], b[3..]);
      assert a[2..][1..] == a[3..] && b[2..][1..] == b[3..];
      assert a[1..][1..] == a[2..] && b[1..][1..] == b[2..];
    }
    hide Less;
    assert Assign([], b, "10") == [(b, "10")];
  }

  lemma {:induction false} TenDeclared(h: Pairs)
    requires |h| == 2 && h[0].0 == "Connection" && h[0].1 in {"keep-alive", "close"}
    requires h[1] == ("Content-Length", "10")
    ensures AllPrintable(h)
    ensures forall q: Request | q.headers == Collected(map[], h) :: DeclaredLength(q) == Some(10)
  {
    WithoutCr(h[0].0);
    WithoutCr(h[0].1);
    WithoutCr(h[1].0);
    WithoutCr(h[1].1);
    hide NoCrlf, Collected, Lowercase, Stoul;
    assert Printable(h[0]) && Printable(h[1]);
    hide Printable;
    LengthIsTen(h);
  }

  lemma {:induction false} LengthIsTen(h: Pairs)
    requires |h| == 2 && |h[0].0| == 10 && h[1] == ("Content-Length", "10")
    ensures forall q: Request | q.headers == Collected(map[], h) :: DeclaredLength(q) == Some(10)
  {
    hide Collected, Lowercase, Stoul;
    LowercaseName();
    assert DistinctLowered(h) by {
      assert |Lowercase(h[0].0)| == 10 && |Lowercase(h[1].0)| == 14;
    }
    CollectedHits(map[], h, 1);
    TenReadsBack();
  }

  lemma WithoutCr(s: string)
    requires '\r' !in s
    ensures NoCrlf(s)
  {
    forall i: nat | i < |s| ensures !CrlfAt(s, i) {
      assert s[i] in s;
    }
  }

  lemma TenReadsBack()
    ensures Stoul("10") == Some(10)
  {
    hide Stoul;
    assert Decimal(1) == "1" && Decimal(10) == "10";
    StoulOfDecimal(10);
  }

  lemma LowercaseName()
    ensures Lowercase("Content-Length") == "content-length"
  {
    hide Lowercase;
    var s, t := Lowercase("Content-Length"), "content-length";
    assert |s| == |t| && forall i | 0 <= i < |t| :: s[i] == t[i];
  }

  // A version may hold spaces of its own; the start line is still one line with two spaces in it.
  lemma NotFoundLine(version: string, line: string)
    requires NoCrlf(version) && line == version + " " + DecimalInt(404) + " " + StatusMessage(404)
    ensures NoCrlf(line) && ParseRequestLine(line, NO_REQUEST).Some?
  {
    StatusWordsAreClean(404);
    NoCrlfConcat(DecimalInt(404), ' ', StatusMessage(404));
    NoCrlfConcat(version, ' ', DecimalInt(404) + " " + StatusMessage(404));
    assert line == version + [' '] + (DecimalInt(404) + " " + StatusMessage(404));
    var second := |version| + 1 + |DecimalInt(404)|;
    assert line[|version|] == ' ' && line[second] == ' ';
    FindCharFirst(line, ' ', |version|);
    var first := FindChar(line, ' ').value;
    FindCharFirst(line[first + 1..], ' ', second - first - 1);
  }

  /** The three words taken from a line are its parts, and where they came from there was no CRLF. */
  lemma PartsOfLine(line: string, q: Request)
    requires ParseRequestLine(line, q).Some?
    ensures var p := ParseRequestLine(line, q).value;
            && line == p.method_ + " " + p.path + " " + p.version
            && ' ' !in p.method_ && ' ' !in p.path
            && (NoCrlf(line) ==> NoCrlf(p.method_) && NoCrlf(p.path) && NoCrlf(p.version))
  {
    hide FindChar, NoCrlf;
    var p := ParseRequestLine(line, q).value;
    var a, b, c := p.method_, p.path, p.version;
    var tail := line[|a| + 1..];
    assert line == a + [' '] + tail;
    assert tail == b + [' '] + c;
    ThreeParts(line, a, b, c);
  }

  lemma ThreeParts(line: string, a: string, b: string, c: string)
    requires line == a + [' '] + (b + [' '] + c)
    ensures line == a + " " + b + " " + c
    ensures NoCrlf(line) ==> NoCrlf(a) && NoCrlf(b) && NoCrlf(c)
  {
    hide NoCrlf;
    if NoCrlf(line) {
      assert line == "" + a + ([' '] + b + [' '] + c);
      PartHasNoCrlf("", a, [' '] + b + [' '] + c);
      assert line == a + [' '] + b + ([' '] + c);
      PartHasNoCrlf(a + [' '], b, [' '] + c);
      assert line == a + [' '] + b + [' '] + c + "";
      PartHasNoCrlf(a + [' '] + b + [' '], c, "");
    }
  }

  lemma PartHasNoCrlf(before: string, part: string, after: string)
    requires NoCrlf(before + part + after)
    ensures NoCrlf(part)
  {
    var s := before + part + after;
    forall i: nat | i < |part| ensures !CrlfAt(part, i) {
      assert !CrlfAt(s, |before| + i);
    }
  }

  /** Every request dispatched has a version without CRLF, so every 404 sent falls short. */
  lemma {:induction false} DispatchedVersions(m: Machine, q: Request, s: string)
    requires NoCrlf(q.version)
    ensures var found := Messages(m, q, s);
            NoCrlf(found.partial.version) && forall q' | q' in Dispatched(found.outcomes) :: NoCrlf(q'.version)
    decreases |s|, if m.state == StartLine then 0 else 1
  {
    assert NoCrlf(NO_REQUEST.version);
    hide Parse, NoCrlf;
    var p := Parse(m, q, s);
    ParsedVersion(m, q, s);
    if p.result == Success || (p.result == Error && !(m.state == StartLine && |p.rest| == |s|)) {
      SuccessProgress(m, q, s);
      DispatchedVersions(FRESH, NO_REQUEST, p.rest);
      var found := Messages(m, q, s);
      assert found.outcomes[1..] == Messages(FRESH, NO_REQUEST, p.rest).outcomes;
    }
  }

  lemma {:induction false} ParsedVersion(m: Machine, q: Request, s: string)
    requires NoCrlf(q.version)
    ensures NoCrlf(Parse(m, q, s).request.version)
    decreases |s|
  {
    hide TakeTurn, NoCrlf;
    if s != "" {
      TurnVersion(m, q, s);
      var t := TakeTurn(m, q, s);
      if !t.done {
        ParsedVersion(t.out.machine, t.out.request, t.out.rest);
      }
    }
  }

  lemma TurnVersion(m: Machine, q: Request, s: string)
    requires s != "" && NoCrlf(q.version)
    ensures NoCrlf(TakeTurn(m, q, s).out.request.version)
  {
    hide NoCrlf, SplitLine, ParseRequestLine;
    var line := SplitLine(s).0;
    LineHasNoCrlf(s);
    if ParseRequestLine(line, q).Some? {
      PartsOfLine(line, q);
    }
  }

  lemma LineHasNoCrlf(s: string)
    ensures NoCrlf(SplitLine(s).0)
  {
    var line := SplitLine(s).0;
    if !NoCrlf(s) {
      forall i: nat | i < |line| ensures !CrlfAt(line, i) {
        assert CrlfAt(line, i) ==> CrlfAt(s, i);
      }
    }
  }

  // ---- Whose answer it is, and whether it is the last ---------------------------------------------

  /** Persistence: an HTTP/1.1 connection stays open unless told to close, any other closes unless told
      to stay open. */
  function Persists(version: string, connection: Option<string>): bool {
    match connection
    case None => version == "HTTP/1.1"
    case Some(v) => if version == "HTTP/1.1" then v != "close" else v == "keep-alive"
  }

  function ConnectionOf(q: Request): Option<string> {
    if "connection" in q.headers then Some(q.headers["connection"]) else None
  }

  lemma KeepAliveIsPersistence(q: Request)
    ensures IsKeepAlive(q) == Persists(q.version, ConnectionOf(q))
  {
  }

  /** A text that parses back to the response `r`, with a Connection header added that says whether the
      connection stays open after `q`. */
  ghost predicate ReadsBackAs(text: string, q: Request, r: Response) {
    var p := Parse(FRESH, NO_REQUEST, text);
    && p.result == Success && p.rest == ""
    && p.request.method_ == r.version && p.request.path == DecimalInt(r.statusCode) && p.request.body == r.body
    && "connection" in p.request.headers
    && p.request.headers["connection"] == (if Persists(q.version, ConnectionOf(q)) then "keep-alive" else "close")
    && forall k, v, key | (k, v) in r.headers && k != "Connection" && SameName(k, key) && NoCapitals(key) ::
         key in p.request.headers && p.request.headers[key] == v
  }

  // What a handler must set for its answer to be read back.
  predicate Readable(r: Response, connection: string) {
    var h := WithHeader(r.headers, "Connection", connection);
    && ' ' !in r.version && NoCrlf(r.version) && AllPrintable(r.headers) && DistinctNames(h)
    && DeclaredLength(Request("", "", "", Collected(map[], h), r.body)) == Some(|r.body|)
  }

  /** A registered path is answered by its handler: what is sent is the handler's response and nothing
      else, with the Connection header that the handler's request asks for. */
  lemma {:induction false} HandlerAnswers(hs: Handlers, q: Request, r: Response)
    requires q.path in hs
    requires var (q', r') := hs[q.path](q, r);
             Readable(r', if Persists(q'.version, ConnectionOf(q')) then "keep-alive" else "close")
    ensures var (q', r') := hs[q.path](q, r);
            && ReadsBackAs(ReplyTo(hs, q, r).text, q', r')
            && ReplyTo(hs, q, r).keepAlive == Persists(q'.version, ConnectionOf(q'))
  {
    var (q', r') := hs[q.path](q, r);
    var value := if Persists(q'.version, ConnectionOf(q')) then "keep-alive" else "close";
    HandlerReply(hs, q, r);
    hide ReplyTo, Persists, ConnectionOf;
    SentReadsBackAs(q', r', value);
  }

  lemma HandlerReply(hs: Handlers, q: Request, r: Response)
    requires q.path in hs
    ensures var (q', r') := hs[q.path](q, r);
            var open := Persists(q'.version, ConnectionOf(q'));
            var h := WithHeader(r'.headers, "Connection", if open then "keep-alive" else "close");
            ReplyTo(hs, q, r) == Reply(Printed(r'.(headers := h)), open)
  {
    KeepAliveIsPersistence(hs[q.path](q, r).0);
    hide Printed, WithHeader, IsKeepAlive, Persists;
  }

  lemma {:induction false} SentReadsBackAs(q: Request, r: Response, value: string)
    requires value == (if Persists(q.version, ConnectionOf(q)) then "keep-alive" else "close") && Readable(r, value)
    ensures ReadsBackAs(Printed(r.(headers := WithHeader(r.headers, "Connection", value))), q, r)
  {
    hide Parse, Printed, Collected, Persists, ConnectionOf, WithHeader, Stoul, SameName, NoCapitals, Less;
    var h := WithHeader(r.headers, "Connection", value);
    ConnectionPrints(r.headers, value);
    SentReadsBack(r, h, value);
    OtherHeaders(r.headers, h, value);
    ConnectionName();
    HeaderFound(h, "Connection", value, "connection");
  }

  lemma {:induction false} OtherHeaders(h0: Fields, h: Fields, value: string)
    requires AsMap(h) == AsMap(h0)["Connection" := value] && DistinctNames(h)
    ensures forall k, v, key | (k, v) in h0 && k != "Connection" && SameName(k, key) && NoCapitals(key) ::
              key in Collected(map[], h) && Collected(map[], h)[key] == v
  {
    hide Collected, SameName, NoCapitals, DistinctNames, Less, AsMap;
    forall k, v, key | (k, v) in h0 && k != "Connection" && SameName(k, key) && NoCapitals(key)
      ensures key in Collected(map[], h) && Collected(map[], h)[key] == v
    {
      AsMapHas(h0, k, v);
      HeaderFound(h, k, v, key);
    }
  }

  lemma {:induction false} SentReadsBack(r: Response, h: Fields, value: string)
    requires h == WithHeader(r.headers, "Connection", value) && AllPrintable(h) && Readable(r, value)
    ensures var p := Parse(FRESH, NO_REQUEST, Printed(r.(headers := h)));
            && p.result == Success && p.rest == ""
            && p.request == Request(r.version, DecimalInt(r.statusCode), StatusMessage(r.statusCode),
                                    Collected(map[], h), r.body)
  {
    hide Parse, Printed, Collected, Stoul, WithHeader;
    ResponseRoundTrip(r.(headers := h));
  }

  lemma {:induction false} HeaderFound(h: Fields, k: string, v: string, key: string)
    requires k in AsMap(h) && AsMap(h)[k] == v && DistinctNames(h) && SameName(k, key) && NoCapitals(key)
    ensures key in Collected(map[], h) && Collected(map[], h)[key] == v
  {
    hide Collected, SameName, NoCapitals;
    AsMapHas(h, k, v);
    HeadersComeBack(h, key);
    var i :| 0 <= i < |h| && h[i] == (k, v);
  }

  lemma ConnectionName()
    ensures SameName("Connection", "connection") && NoCapitals("connection")
  {
  }

  lemma {:induction false} ConnectionPrints(h: Fields, value: string)
    requires AllPrintable(h) && value in {"keep-alive", "close"}
    ensures AllPrintable(WithHeader(h, "Connection", value))
  {
    var r := WithHeader(h, "Connection", value);
    WithoutCr("Connection");
    WithoutCr(value);
    hide NoCrlf, Less, AsMap;
    assert Printable(("Connection", value));
    hide Printable;
    forall i | 0 <= i < |r| ensures Printable(r[i]) {
      AsMapHas(r, r[i].0, r[i].1);
      if r[i].0 != "Connection" {
        AsMapHas(h, r[i].0, r[i].1);
      } else {
        AsMapHas(r, "Connection", value);
      }
    }
  }

  // The response object that the i-th of several requests is given.
  function ResponseAt(r: Response, i: nat): Response { if i == 0 then r else BLANK_RESPONSE }

  // The request as its handler, if it has one, leaves it.
  function HandledRequest(hs: Handlers, q: Request, r: Response): Request {
    if q.path in hs then hs[q.path](q, r).0 else q
  }

  // Does the connection stay open after this request?
  function StaysOpen(hs: Handlers, q: Request, r: Response): bool {
    var q' := HandledRequest(hs, q, r);
    Persists(q'.version, ConnectionOf(q'))
  }

  lemma {:induction false} ReplyAt(hs: Handlers, qs: seq<Request>, r: Response, i: nat)
    requires i < |qs|
    ensures var rs := Replies(hs, Received(qs), r);
            && |rs| == |qs| && rs[i] == ReplyTo(hs, qs[i], ResponseAt(r, i))
            && rs[i].keepAlive == StaysOpen(hs, qs[i], ResponseAt(r, i))
  {
    hide ReplyTo;
    LengthOfReplies(hs, qs, r);
    KeepsAlive(hs, qs[i], ResponseAt(r, i));
    if i > 0 {
      ReplyAt(hs, qs[1..], BLANK_RESPONSE, i - 1);
    }
    assert Received(qs)[1..] == Received(qs[1..]);
  }

  lemma {:induction false} LengthOfReplies(hs: Handlers, qs: seq<Request>, r: Response)
    ensures |Replies(hs, Received(qs), r)| == |qs|
  {
    hide ReplyFor;
    if qs != [] {
      LengthOfReplies(hs, qs[1..], BLANK_RESPONSE);
      assert Received(qs)[1..] == Received(qs[1..]);
    }
  }

  lemma KeepsAlive(hs: Handlers, q: Request, r: Response)
    ensures ReplyTo(hs, q, r).keepAlive == StaysOpen(hs, q, r)
  {
    KeepAliveIsPersistence(HandledRequest(hs, q, r));
    hide Printed, WithHeader, IsKeepAlive;
  }

  lemma {:induction false} AcceptedAt(rs: seq<Reply>, i: nat)
    requires i < |rs| && forall j | 0 <= j < i :: rs[j].keepAlive
    ensures i < |UpToFirstClose(rs)| && UpToFirstClose(rs)[i] == rs[i].text
    ensures !rs[i].keepAlive ==> |UpToFirstClose(rs)| == i + 1
  {
    if i > 0 {
      assert rs[0].keepAlive;
      AcceptedAt(rs[1..], i - 1);
    }
  }

  /** Which answers, and whose: of n complete requests in one buffer, as long as every one before it keeps
      the connection open, the i-th answer taken is that of the i-th request's own handler, and reads
      back as that handler's response. It is the last one taken if it closes the connection. */
  lemma {:induction false} PipelinedAnswer(hs: Handlers, s: Session, ws: seq<string>, i: nat)
    requires s.machine == FRESH && s.request == NO_REQUEST && s.input == Concat(ws)
    requires AllComplete(ws) && s.link.connected && i < |RequestsOf(ws)|
    requires forall j | 0 <= j < i :: StaysOpen(hs, RequestsOf(ws)[j], ResponseAt(s.response, j))
    ensures Drains(s.machine, s.request, s.input)
    ensures var q, r, n := RequestsOf(ws)[i], ResponseAt(s.response, i), |s.link.accepted|;
            var taken := Settled(hs, s).link.accepted;
            && n + i < |taken|
            && (!StaysOpen(hs, q, r) ==> |taken| == n + i + 1)
            && (q.path in hs && Readable(hs[q.path](q, r).1, if StaysOpen(hs, q, r) then "keep-alive" else "close") ==>
                  ReadsBackAs(taken[n + i], hs[q.path](q, r).0, hs[q.path](q, r).1))
            && (q.path !in hs && r in {NEW_RESPONSE, BLANK_RESPONSE} ==>
                  taken[n + i] == NotFoundAnswer(q.version, StaysOpen(hs, q, r)))
  {
    hide Parse, Messages, Settled, Readable, ReadsBackAs, NotFoundAnswer, Drains, StaysOpen, ReplyTo;
    PipelinedTaken(hs, s, ws, i);
    AnswerIs(hs, RequestsOf(ws)[i], ResponseAt(s.response, i));
  }

  lemma {:induction false} PipelinedTaken(hs: Handlers, s: Session, ws: seq<string>, i: nat)
    requires s.machine == FRESH && s.request == NO_REQUEST && s.input == Concat(ws)
    requires AllComplete(ws) && s.link.connected && i < |RequestsOf(ws)|
    requires forall j | 0 <= j < i :: StaysOpen(hs, RequestsOf(ws)[j], ResponseAt(s.response, j))
    ensures Drains(s.machine, s.request, s.input)
    ensures var q, r, n := RequestsOf(ws)[i], ResponseAt(s.response, i), |s.link.accepted|;
            var taken := Settled(hs, s).link.accepted;
            && n + i < |taken| && taken[n + i] == ReplyTo(hs, q, r).text
            && (!StaysOpen(hs, q, r) ==> |taken| == n + i + 1)
  {
    hide Parse, Messages, Settled, Drains, StaysOpen, ReplyTo, Replies, AllComplete, Concat, UpToFirstClose, Received;
    PipelinedRequests(hs, s, ws);
    var qs := RequestsOf(ws);
    hide RequestsOf;
    var rs := Replies(hs, Received(qs), s.response);
    ReplyAt(hs, qs, s.response, i);
    forall j | 0 <= j < i ensures rs[j].keepAlive {
      ReplyAt(hs, qs, s.response, j);
    }
    AcceptedAt(rs, i);
    After(s.link.accepted, UpToFirstClose(rs), i);
  }

  lemma After<T>(a: seq<T>, b: seq<T>, i: nat)
    requires i < |b|
    ensures (a + b)[|a| + i] == b[i] && |a + b| == |a| + |b|
  {
  }

  // One answer, told by its request's path alone.
  lemma {:induction false} AnswerIs(hs: Handlers, q: Request, r: Response)
    ensures q.path in hs && Readable(hs[q.path](q, r).1, if StaysOpen(hs, q, r) then "keep-alive" else "close") ==>
              ReadsBackAs(ReplyTo(hs, q, r).text, hs[q.path](q, r).0, hs[q.path](q, r).1)
    ensures q.path !in hs && r in {NEW_RESPONSE, BLANK_RESPONSE} ==>
              ReplyTo(hs, q, r).text == NotFoundAnswer(q.version, StaysOpen(hs, q, r))
  {
    if q.path in hs {
      hide Readable, ReadsBackAs, ReplyTo;
      if Readable(hs[q.path](q, r).1, if StaysOpen(hs, q, r) then "keep-alive" else "close") {
        HandlerAnswers(hs, q, r);
      }
    } else if r in {NEW_RESPONSE, BLANK_RESPONSE} {
      NotFoundIsText(hs, q, r);
    }
  }

  // The 404 as it goes out.
  function NotFoundAnswer(version: string, open: bool): string {
    version + " " + "404" + " " + "Not Found" + "\r\n"
    + ("Connection" + ": " + (if open then "keep-alive" else "close") + "\r\n")
    + ("Content-Length" + ": " + "10" + "\r\n")
    + "\r\n" + "Not Found"
  }

  lemma {:induction false} NotFoundIsText(hs: Handlers, q: Request, r: Response)
    requires q.path !in hs && r in {NEW_RESPONSE, BLANK_RESPONSE}
    ensures ReplyTo(hs, q, r).text == NotFoundAnswer(q.version, StaysOpen(hs, q, r))
  {
    KeepAliveIsPersistence(q);
    var value := if StaysOpen(hs, q, r) then "keep-alive" else "close";
    NotFoundHeaders(value);
    hide WithHeader, IsKeepAlive, Printed;
    var h := [("Connection", value), ("Content-Length", "10")];
    var r' := NotFound(q, r).(headers := h);
    assert ReplyTo(hs, q, r).text == Printed(r');
    TextOf(r', "404", "Not Found");
    TwoHeaderLines("Connection", value, "Content-Length", "10");
    hide StaysOpen, ReplyTo, NotFound, HeaderLines;
    Regrouped(q.version + " " + "404" + " " + "Not Found" + "\r\n", "Connection" + ": " + value + "\r\n",
              "Content-Length" + ": " + "10" + "\r\n");
  }

  // A printed response whose number is `code` and whose reason phrase is `phrase`.
  lemma {:induction false} TextOf(r: Response, code: string, phrase: string)
    requires (r.statusCode == 404 && code == "404" && phrase == "Not Found")
             || (r.statusCode == 400 && code == "400" && phrase == "Bad Request")
    ensures Printed(r)
            == r.version + " " + code + " " + phrase + "\r\n" + HeaderLines(r.headers) + "\r\n" + r.body
  {
    PrintedText(r);
    NumbersPrinted();
  }

  lemma Regrouped(a: string, b: string, c: string)
    ensures a + (b + c) == a + b + c
  {
  }

  lemma {:induction false} TwoHeaderLines(k1: string, v1: string, k2: string, v2: string)
    ensures HeaderLines([(k1, v1)]) == k1 + ": " + v1 + "\r\n"
    ensures HeaderLines([(k1, v1), (k2, v2)]) == k1 + ": " + v1 + "\r\n" + (k2 + ": " + v2 + "\r\n")
  {
    var h := [(k1, v1), (k2, v2)];
    assert h[1..] == [(k2, v2)] && [(k2, v2)][1..] == [] && [(k1, v1)][1..] == [];
    FirstHeaderLine(h);
    FirstHeaderLine([(k2, v2)]);
    FirstHeaderLine([(k1, v1)]);
    assert HeaderLines([]) == "";
  }

  lemma {:induction false} NumbersPrinted()
    ensures DecimalInt(404) == "404" && DecimalInt(400) == "400" && DecimalInt(200) == "200"
  {
    assert Decimal(4) == "4" && Decimal(2) == "2";
    assert Decimal(40) == "40" && Decimal(20) == "20";
  }

  /** The refusal of a malformed message, word for word; it is always the last answer. */
  lemma {:induction false} RefusalIsText(hs: Handlers, r: Response)
    requires r in {NEW_RESPONSE, BLANK_RESPONSE}
    ensures ReplyFor(hs, Malformed, r)
            == Reply((if r == NEW_RESPONSE then "HTTP/1.1" else "") + " " + "400" + " " + "Bad Request" + "\r\n"
                     + ("Connection" + ": " + "close" + "\r\n") + "\r\n" + "Bad Request", false)
  {
    var r' := BadRequest(r);
    assert r'.headers == [("Connection", "close")];
    hide Printed, HeaderLines, WithHeader;
    TextOf(r', "400", "Bad Request");
    TwoHeaderLines("Connection", "close", "", "");
  }

  /** Every message that starts with a malformed line: the loop refuses it for ever, without getting past
      that line. */
  lemma {:induction false} MalformedLineSpins(hs: Handlers, s: Session, line: string, after: string, n: nat)
    requires s.machine.state == StartLine && s.input == line + "\r\n" + after && NoCrlf(line)
    requires !exists i, j :: 0 <= i < j < |line| && line[i] == ' ' && line[j] == ' '
    ensures Turns(hs, s, n).input == s.input && !Drains(s.machine, s.request, s.input)
  {
    RequestLineRefusedIff(line, s.request);
    MalformedLineStays(s.machine, s.request, line, after);
    hide Parse, Iterate;
    StuckForEver(hs, s, n);
  }

  // ---- The loop as it runs ------------------------------------------------------------------------

  /** What the server keeps per connection. */
  class HttpServerContext {
    const parser: HttpParser
    const request: HttpRequest
    const response: HttpResponse
    var link: Link
    ghost var handled: seq<Request>

    constructor (l: Link)
      ensures fresh(parser) && fresh(request) && fresh(response)
      ensures parser.Snapshot() == FRESH && request.Value() == NO_REQUEST
      ensures response.Value() == NEW_RESPONSE && link == l && handled == []
    {
      parser := new HttpParser();
      request := new HttpRequest();
      response := new HttpResponse();
      link, handled := l, [];
    }

    ghost function With(buffer: ByteBuffer.Buffer): Session
      requires buffer.Valid()
      reads this, parser, request, response, buffer, buffer.data
    {
      Session(parser.Snapshot(), request.Value(), response.Value(), buffer.Contents(), link, handled)
    }

    method Reset()
      modifies parser, request, response
      ensures parser.Snapshot() == FRESH && request.Value() == NO_REQUEST && response.Value() == BLANK_RESPONSE
    {
      parser.Reset();
      request.Reset();
      response.Reset();
    }

    /** The response printed, the context reset, and then the text sent: after the last one, shut down. */
    method SendReply(keepAlive: bool)
      modifies this`link, parser, request, response
      ensures parser.Snapshot() == FRESH && request.Value() == NO_REQUEST && response.Value() == BLANK_RESPONSE
      ensures var sent := SendTo(old(link), Printed(old(response.Value())));
              link == if keepAlive then sent else ShutDown(sent)
    {
      var text := response.ToString();
      Reset();
      link := SendTo(link, text);
      if !keepAlive {
        link := ShutDown(link);
      }
    }
  }

  method OnRequestInPlace(hs: Handlers, ctx: HttpServerContext)
    modifies ctx.request, ctx.response
    ensures (ctx.request.Value(), ctx.response.Value())
            == OnRequest(hs, old(ctx.request.Value()), old(ctx.response.Value()))
  {
    var q := ctx.request;
    var r := ctx.response;
    if q.path !in hs {
      r.SetVersion(q.version);
      r.SetStatusCode(404);
      r.SetBody("Not Found");
      r.SetHeader("Content-Length", "10");
    } else {
      var (q', r') := hs[q.path](
        Request(q.method_, q.path, q.version, q.headers, q.body),
        Response(r.version, r.statusCode, r.headers, r.body));
      q.Set(q');
      r.Set(r');
    }
  }

  lemma {:induction false} TurnLeadsOn(hs: Handlers, s: Session)
    requires s.input != "" && Drains(s.machine, s.request, s.input)
    ensures var t := Iterate(hs, s);
            && Drains(t.machine, t.request, t.input) && Settled(hs, t) == Settled(hs, s)
            && (t.input == "" || |t.input| < |s.input|
                || (|t.input| == |s.input| && s.machine.state != StartLine && t.machine.state == StartLine))
  {
    hide Parse, ReplyFor;
    SuccessProgress(s.machine, s.request, s.input);
    if Parse(s.machine, s.request, s.input).result == NeedMore {
      ParseEmpty(Iterate(hs, s).machine, Iterate(hs, s).request);
    } else {
      StreamOnward(hs, s);
    }
  }

  method TurnInPlace(hs: Handlers, ctx: HttpServerContext, buffer: ByteBuffer.Buffer)
    requires buffer.Valid()
    modifies ctx, ctx.parser, ctx.request, ctx.response, buffer
    ensures buffer.Valid() && buffer.data == old(buffer.data)
    ensures ctx.With(buffer) == Iterate(hs, old(ctx.With(buffer)))
  {
    hide Parse, ReplyTo, BadRequest, Printed;
    var result := ctx.parser.ParseRequest(buffer, ctx.request);
    match result
    case NeedMore =>
    case Success => ServeInPlace(hs, ctx);
    case Error => RefuseInPlace(ctx);
  }

  // A request was parsed: dispatch it and answer.
  method ServeInPlace(hs: Handlers, ctx: HttpServerContext)
    modifies ctx`handled, ctx`link, ctx.parser, ctx.request, ctx.response
    ensures ctx.handled == old(ctx.handled) + [old(ctx.request.Value())]
    ensures ctx.parser.Snapshot() == FRESH
    ensures ctx.request.Value() == NO_REQUEST && ctx.response.Value() == BLANK_RESPONSE
    ensures var reply := ReplyTo(hs, old(ctx.request.Value()), old(ctx.response.Value()));
            var sent := SendTo(old(ctx.link), reply.text);
            ctx.link == if reply.keepAlive then sent else ShutDown(sent)
  {
    hide OnRequest, IsKeepAlive, WithHeader, Printed;
    ctx.handled := ctx.handled + [ctx.request.Value()];
    OnRequestInPlace(hs, ctx);
    var q := ctx.request;
    var keepAlive := IsKeepAlive(Request(q.method_, q.path, q.version, q.headers, q.body));
    ctx.response.SetHeader("Connection", if keepAlive then "keep-alive" else "close");
    ctx.SendReply(keepAlive);
  }

  // Something malformed was parsed.
  method RefuseInPlace(ctx: HttpServerContext)
    modifies ctx`link, ctx.parser, ctx.request, ctx.response
    ensures ctx.parser.Snapshot() == FRESH
    ensures ctx.request.Value() == NO_REQUEST && ctx.response.Value() == BLANK_RESPONSE
    ensures ctx.link == ShutDown(SendTo(old(ctx.link), Printed(BadRequest(old(ctx.response.Value())))))
  {
    hide WithHeader, Printed;
    ctx.response.SetStatusCode(400);
    ctx.response.SetHeader("Connection", "close");
    ctx.response.SetBody("Bad Request");
    ctx.SendReply(false);
  }

  /** onMessage on an input it can get through: it leaves the settled session. */
  method OnMessage(hs: Handlers, ctx: HttpServerContext, buffer: ByteBuffer.Buffer)
    requires buffer.Valid()
    requires Drains(ctx.parser.Snapshot(), ctx.request.Value(), buffer.Contents())
    modifies ctx, ctx.parser, ctx.request, ctx.response, buffer
    ensures buffer.Valid() && buffer.Contents() == []
    ensures ctx.With(buffer) == Settled(hs, old(ctx.With(buffer)))
  {
    hide Parse, Iterate;
    while buffer.ReadableBytes() > 0
      invariant buffer.Valid()
      invariant Drains(ctx.parser.Snapshot(), ctx.request.Value(), buffer.Contents())
      invariant Settled(hs, ctx.With(buffer)) == Settled(hs, old(ctx.With(buffer)))
      decreases buffer.ReadableBytes(), if ctx.parser.state == StartLine then 0 else 1
    {
      TurnLeadsOn(hs, ctx.With(buffer));
      TurnInPlace(hs, ctx, buffer);
    }
  }
}
