/** The resumable HTTP/1.1 message parser: its meaning as a function of the bytes, and the
    loop that computes it in place. */
module HttpParser {
  import opened Optional
  import opened HttpText
  import ByteBuffer

  datatype State = StartLine | Headers | Body

  datatype ParseResult = NeedMore | Success | Error

  /** The three fields that survive between two calls. */
  datatype Machine = Machine(state: State, contentLength: size_t, bodyReceived: size_t)

  const FRESH := Machine(StartLine, 0, 0)

  datatype Request = Request(
    method_: string, path: string, version: string, headers: map<string, string>, body: string)

  const NO_REQUEST := Request("", "", "", map[], "")

  /** What one call leaves behind: its verdict, both objects, and the bytes not consumed. */
  datatype Parsed = Parsed(result: ParseResult, machine: Machine, request: Request, rest: string)

  function ParseRequestLine(line: string, q: Request): Option<Request> {
    match FindChar(line, ' ')
    case None => None
    case Some(pos1) =>
      var tail := line[pos1 + 1..];
      match FindChar(tail, ' ')
      case None => None
      case Some(pos2) =>
        Some(q.(method_ := line[..pos1], path := tail[..pos2], version := tail[pos2 + 1..]))
  }

  function ParseHeaderLine(line: string, q: Request): Option<Request> {
    if line == "" then None
    else match FindChar(line, ':')
      case None => None
      case Some(pos) =>
        var value := DropTrailingSpaces(SkipSpaces(line[pos + 1..]));
        Some(q.(headers := q.headers[Lowercase(line[..pos]) := value]))
  }

  /** A request line is refused exactly when it has fewer than two spaces. */
  lemma {:induction false} RequestLineRefusedIff(line: string, q: Request)
    ensures ParseRequestLine(line, q).Some? <==>
              exists i, j :: 0 <= i < j < |line| && line[i] == ' ' && line[j] == ' '
  {
    if ParseRequestLine(line, q).Some? {
      var i := FindChar(line, ' ').value;
      var j := FindChar(line[i + 1..], ' ').value;
      assert line[i] == ' ' && line[i + 1 + j] == ' ';
    }
    if i, j :| 0 <= i < j < |line| && line[i] == ' ' && line[j] == ' ' {
      FindCharFirst(line, ' ', i);
      var first := FindChar(line, ' ').value;
      FindCharFirst(line[first + 1..], ' ', j - first - 1);
    }
  }

  lemma FiveParts(line: string, pos: nat, before: string, value: string, after: string)
    requires pos < |line| && line[pos] == ':' && line[pos + 1..] == before + value + after
    ensures line == line[..pos] + [':'] + before + value + after
  {
    assert line == line[..pos] + [':'] + line[pos + 1..];
    assert line[..pos] + [':'] + (before + value + after) == line[..pos] + [':'] + before + value + after;
  }

  /** A header line is refused exactly when it has no colon. Otherwise the text before the first colon
      is filed, in small letters, with the text after it, without the spaces around; and nothing else
      changes. */
  lemma {:induction false} HeaderLineIsFiled(line: string, q: Request)
      returns (name: string, key: string, before: string, value: string, after: string)
    ensures ParseHeaderLine(line, q).Some? <==> ':' in line
    ensures ':' in line ==>
              && line == name + [':'] + before + value + after && ':' !in name
              && SameName(name, key) && NoCapitals(key)
              && AllSpaces(before) && AllSpaces(after) && NoEdgeSpaces(value)
              && ParseHeaderLine(line, q).value == q.(headers := q.headers[key := value])
  {
    name, key, before, value, after := "", "", "", "", "";
    if ':' in line {
      var pos := FindChar(line, ':').value;
      name := line[..pos];
      var text := line[pos + 1..];
      key, value := Lowercase(name), DropTrailingSpaces(SkipSpaces(text));
      LowercaseIs(name, key);
      before, after := TrimmedParts(text);
      hide Lowercase, DropTrailingSpaces, SkipSpaces, SameName, NoCapitals, AllSpaces, NoEdgeSpaces, FindChar;
      FiveParts(line, pos, before, value, after);
    }
  }

  /** One turn of the parsing loop on a non-empty rest: `done` says that it leaves the loop. */
  datatype Turn = Turn(done: bool, out: Parsed)

  function TakeTurn(m: Machine, q: Request, cur: string): (t: Turn)
    requires cur != ""
    ensures |t.out.rest| <= |cur|
    ensures !t.done ==> |t.out.rest| < |cur| && t.out.result == NeedMore
  {
    match m.state
    case StartLine =>
      var (line, rest) := SplitLine(cur);
      if line == "" && rest == cur then Turn(true, Parsed(NeedMore, m, q, cur))
      else
        (match ParseRequestLine(line, q)
         case None => Turn(true, Parsed(Error, m, q, cur))
         case Some(q') => Turn(false, Parsed(NeedMore, m.(state := Headers), q', rest)))
    case Headers =>
      var (line, rest) := SplitLine(cur);
      if line == "" && rest == cur then Turn(true, Parsed(NeedMore, m, q, cur))
      else if line == "" then EndHeaders(m, q, rest)
      else
        (match ParseHeaderLine(line, q)
         case None => Turn(true, Parsed(Error, m, q, cur))
         case Some(q') => Turn(false, Parsed(NeedMore, m, q', rest)))
    case Body => Turn(true, ParseBody(m, q, cur))
  }

  // The empty line: does a body follow? Only a non-empty body resets the parser itself.
  function EndHeaders(m: Machine, q: Request, rest: string): Turn {
    if "content-length" in q.headers then
      match Stoul(q.headers["content-length"])
      case None => Turn(true, Parsed(Error, m.(state := Body), q, rest))
      case Some(n) =>
        var m' := m.(state := Body, contentLength := n);
        if n == 0 then Turn(true, Parsed(Success, m', q, rest)) else Turn(false, Parsed(NeedMore, m', q, rest))
    else Turn(true, Parsed(Success, m, q, rest))
  }

  // The body state: take what is missing, or all there is.
  function ParseBody(m: Machine, q: Request, cur: string): (r: Parsed)
    ensures |r.rest| <= |cur| && r.rest == cur[|cur| - |r.rest|..]
  {
    var need := SubSize(m.contentLength, m.bodyReceived);
    if need <= |cur| then Parsed(Success, FRESH, q.(body := q.body + cur[..need]), cur[need..])
    else Parsed(NeedMore, m.(bodyReceived := AddSize(m.bodyReceived, |cur|)), q.(body := q.body + cur), "")
  }

  /** The whole call: what the parser does with the readable bytes `cur`. */
  function Parse(m: Machine, q: Request, cur: string): (r: Parsed)
    ensures |r.rest| <= |cur|
    decreases |cur|
  {
    if cur == "" then Parsed(NeedMore, m, q, cur)
    else
      var t := TakeTurn(m, q, cur);
      if t.done then t.out else Parse(t.out.machine, t.out.request, t.out.rest)
  }

  /** A call consumes a prefix of its input and hands back the rest untouched. */
  lemma {:induction false} ParseConsumesPrefix(m: Machine, q: Request, cur: string)
    ensures var r := Parse(m, q, cur); r.rest == cur[|cur| - |r.rest|..]
    decreases |cur|
  {
    hide TakeTurn;
    if cur != "" {
      TurnConsumesPrefix(m, q, cur);
      var t := TakeTurn(m, q, cur);
      if !t.done {
        ParseConsumesPrefix(t.out.machine, t.out.request, t.out.rest);
        var r := Parse(m, q, cur);
        var mid := t.out.rest;
        assert mid[|mid| - |r.rest|..] == cur[|cur| - |r.rest|..];
      }
    }
  }

  lemma TurnConsumesPrefix(m: Machine, q: Request, cur: string)
    requires cur != ""
    ensures var rest := TakeTurn(m, q, cur).out.rest; rest == cur[|cur| - |rest|..]
  {
    if m.state != Body {
      hide TakeTurn, SplitLine;
      RestOfTurn(m, q, cur);
      SplitLineRest(cur);
    } else {
      hide ParseBody, EndHeaders, SplitLine;
    }
  }

  lemma RestOfTurn(m: Machine, q: Request, cur: string)
    requires cur != "" && m.state != Body
    ensures var rest := TakeTurn(m, q, cur).out.rest; rest == cur || rest == SplitLine(cur).1
  {
    hide SplitLine, Stoul, ParseRequestLine, ParseHeaderLine;
  }

  /** Chunk invariance, for every machine state and every cut of the bytes: stopping after `a`
      and resuming with what it left over plus `b` is the same as parsing `a + b` at once; and
      a verdict reached on `a` is not changed by the bytes that follow. */
  lemma {:induction false} ChunkInvariance(m: Machine, q: Request, a: string, b: string)
    ensures var r := Parse(m, q, a);
            Parse(m, q, a + b) ==
              if r.result == NeedMore then Parse(r.machine, r.request, r.rest + b)
              else r.(rest := r.rest + b)
    decreases |a|
  {
    hide TakeTurn;
    if a == "" {
      assert a + b == b;
    } else {
      var t := TakeTurn(m, q, a);
      if t.done && t.out.result == NeedMore {
        TurnWaits(m, q, a, b);
      } else {
        TurnExtends(m, q, a, b);
        if !t.done {
          ChunkInvariance(t.out.machine, t.out.request, t.out.rest, b);
        }
      }
    }
  }

  /** A turn that runs out of bytes leaves exactly what is needed to go on. */
  lemma {:induction false} TurnWaits(m: Machine, q: Request, a: string, b: string)
    requires a != ""
    requires var t := TakeTurn(m, q, a); t.done && t.out.result == NeedMore
    ensures var r := TakeTurn(m, q, a).out;
            Parse(m, q, a + b) == Parse(r.machine, r.request, r.rest + b)
  {
    if m.state == Body {
      BodyWaits(m, q, a, b);
    } else {
      assert TakeTurn(m, q, a).out == Parsed(NeedMore, m, q, a);
    }
  }

  lemma {:induction false} BodyWaits(m: Machine, q: Request, a: string, b: string)
    requires a != "" && m.state == Body && ParseBody(m, q, a).result == NeedMore
    ensures var r := ParseBody(m, q, a);
            Parse(m, q, a + b) == Parse(r.machine, r.request, r.rest + b)
  {
    BodyChunk(m, q, a, b);
    var r := ParseBody(m, q, a);
    assert r.machine.state == Body && r.rest + b == b;
    hide ParseBody;
    BodyTurn(m, q, a + b);
    if b == "" {
      assert a + b == a;
    } else {
      BodyTurn(r.machine, r.request, b);
    }
  }

  lemma {:induction false} BodyTurn(m: Machine, q: Request, cur: string)
    requires m.state == Body && cur != ""
    ensures Parse(m, q, cur) == ParseBody(m, q, cur)
  {
  }

  /** A turn that makes progress or reaches a verdict does the same when more bytes follow. */
  lemma TurnExtends(m: Machine, q: Request, a: string, b: string)
    requires a != ""
    requires var t := TakeTurn(m, q, a); !t.done || t.out.result != NeedMore
    ensures var t := TakeTurn(m, q, a); TakeTurn(m, q, a + b) == t.(out := t.out.(rest := t.out.rest + b))
  {
    if m.state == Body {
      BodyChunk(m, q, a, b);
      hide ParseBody;
    } else {
      SplitLineExtends(a, b);
      NoLineIff(a);
      hide SplitLine, Stoul, ParseRequestLine, ParseHeaderLine, ParseBody;
    }
  }

  lemma BodyChunk(m: Machine, q: Request, a: string, b: string)
    requires m.state == Body
    ensures var r := ParseBody(m, q, a);
            ParseBody(m, q, a + b) ==
              if r.result == NeedMore then ParseBody(r.machine, r.request, r.rest + b)
              else r.(rest := r.rest + b)
  {
    var need := SubSize(m.contentLength, m.bodyReceived);
    if need <= |a| {
      assert (a + b)[..need] == a[..need] && (a + b)[need..] == a[need..] + b;
    } else {
      assert "" + b == b;
      NeedLeft(m, |a|);
      hide SubSize, AddSize;
      assert q.body + (a + b) == q.body + a + b;
      if need <= |a + b| {
        var left := need - |a|;
        assert (a + b)[..need] == a + b[..left] && (a + b)[need..] == b[left..];
        assert q.body + (a + b[..left]) == q.body + a + b[..left];
      } else {
        ReceivedBoth(m, |a|, |b|);
      }
    }
  }

  lemma NeedLeft(m: Machine, n: nat)
    requires n < SubSize(m.contentLength, m.bodyReceived)
    ensures SubSize(m.contentLength, AddSize(m.bodyReceived, n)) == SubSize(m.contentLength, m.bodyReceived) - n
  {
  }

  lemma ReceivedBoth(m: Machine, n: nat, k: nat)
    requires n + k < SubSize(m.contentLength, m.bodyReceived)
    ensures AddSize(AddSize(m.bodyReceived, n), k) == AddSize(m.bodyReceived, n + k)
  {
  }

  function Concat(chunks: seq<string>): string {
    if chunks == [] then "" else chunks[0] + Concat(chunks[1..])
  }

  /** A peer whose stream TCP delivers as `chunks`: each arrival is appended to what the last
      call left over and parsed, until a verdict other than NeedMore. */
  function Feed(m: Machine, q: Request, pending: string, chunks: seq<string>): Parsed
    decreases |chunks|
  {
    if chunks == [] then Parse(m, q, pending)
    else
      var r := Parse(m, q, pending);
      if r.result == NeedMore then Feed(r.machine, r.request, r.rest + chunks[0], chunks[1..])
      else r.(rest := r.rest + Concat(chunks))
  }

  /** Every way to cut one message gives the same parse. */
  lemma {:induction false} EverySplitParsesAlike(m: Machine, q: Request, pending: string, chunks: seq<string>)
    ensures Feed(m, q, pending, chunks) == Parse(m, q, pending + Concat(chunks))
    decreases |chunks|
  {
    hide Parse;
    if chunks == [] {
      assert pending + Concat(chunks) == pending;
    } else {
      ChunkInvariance(m, q, pending, Concat(chunks));
      var r := Parse(m, q, pending);
      if r.result == NeedMore {
        EverySplitParsesAlike(r.machine, r.request, r.rest + chunks[0], chunks[1..]);
        assert r.rest + chunks[0] + Concat(chunks[1..]) == r.rest + Concat(chunks);
      }
    }
  }

  /** What the server makes of one message: a request to dispatch, or something to refuse. */
  datatype Outcome = Accepted(request: Request) | Malformed

  /** A whole connection: what is found in `s`, with both objects reset after each message and after
      each refusal, as the server does. `open` is false once a refusal gets nowhere: a message that
      starts with a malformed line leaves it where it was. */
  datatype Stream = Stream(outcomes: seq<Outcome>, open: bool, machine: Machine, partial: Request, rest: string)

  function Messages(m: Machine, q: Request, s: string): Stream
    decreases |s|, if m.state == StartLine then 0 else 1
  {
    var r := Parse(m, q, s);
    match r.result
    case NeedMore => Stream([], true, r.machine, r.request, r.rest)
    case Success =>
      SuccessProgress(m, q, s);
      var t := Messages(FRESH, NO_REQUEST, r.rest);
      t.(outcomes := [Accepted(r.request)] + t.outcomes)
    case Error =>
      if m.state == StartLine && |r.rest| == |s| then Stream([], false, r.machine, r.request, r.rest)
      else
        var t := Messages(FRESH, NO_REQUEST, r.rest);
        t.(outcomes := [Malformed] + t.outcomes)
  }

  lemma {:induction false} SuccessProgress(m: Machine, q: Request, s: string)
    ensures m.state != Body && Parse(m, q, s).result == Success ==> |Parse(m, q, s).rest| < |s|
    decreases |s|
  {
    hide TakeTurn;
    if s != "" && m.state != Body {
      var t := TakeTurn(m, q, s);
      if t.done && t.out.result == Success {
        TurnProgress(m, q, s);
      }
      if !t.done {
        SuccessProgress(t.out.machine, t.out.request, t.out.rest);
      }
    }
  }

  lemma TurnProgress(m: Machine, q: Request, s: string)
    requires s != "" && m.state != Body && TakeTurn(m, q, s).out.result == Success
    ensures |TakeTurn(m, q, s).out.rest| < |s|
  {
    NoLineIff(s);
    hide SplitLine, Stoul, ParseRequestLine, ParseHeaderLine;
  }

  // A call that runs out of bytes is still before the first line, untouched, or past it for good.
  lemma {:induction false} LeavesStartOnce(m: Machine, q: Request, s: string)
    requires Parse(m, q, s).result == NeedMore
    ensures var r := Parse(m, q, s);
            if r.machine.state == StartLine then m.state == StartLine && r.rest == s
            else m.state == StartLine ==> |r.rest| < |s|
    decreases |s|
  {
    hide TakeTurn;
    if s != "" {
      TurnLeavesStart(m, q, s);
      var t := TakeTurn(m, q, s);
      if !t.done {
        LeavesStartOnce(t.out.machine, t.out.request, t.out.rest);
      }
    }
  }

  lemma TurnLeavesStart(m: Machine, q: Request, s: string)
    requires s != "" && TakeTurn(m, q, s).out.result == NeedMore
    ensures var t := TakeTurn(m, q, s);
            && (!t.done ==> t.out.machine.state != StartLine)
            && (t.done && t.out.machine.state == StartLine ==> m.state == StartLine && t.out.rest == s)
            && (t.done && t.out.machine.state != StartLine ==> m.state != StartLine)
  {
    hide SplitLine, Stoul, ParseRequestLine, ParseHeaderLine;
  }

  // One outcome and what follows it.
  function Prepended(o: Outcome, t: Stream): Stream { t.(outcomes := [o] + t.outcomes) }

  // What `r` found, and what `t` finds in the bytes after it.
  function Followed(r: Stream, t: Stream): Stream { t.(outcomes := r.outcomes + t.outcomes) }

  lemma PrependedFollowed(o: Outcome, r: Stream, t: Stream)
    ensures Followed(Prepended(o, r), t) == Prepended(o, Followed(r, t))
  {
    assert [o] + r.outcomes + t.outcomes == [o] + (r.outcomes + t.outcomes);
  }

  /** The stream form of chunk invariance: pipelined messages, well-formed or not, come out the same
      wherever the bytes are cut, also when a cut falls between or inside messages. */
  lemma {:induction false} StreamChunkInvariance(m: Machine, q: Request, a: string, b: string)
    ensures var r := Messages(m, q, a);
            Messages(m, q, a + b) ==
              if r.open then Followed(r, Messages(r.machine, r.partial, r.rest + b))
              else r.(rest := r.rest + b)
    decreases |a|, if m.state == StartLine then 0 else 1
  {
    hide Parse;
    ChunkInvariance(m, q, a, b);
    var r := Parse(m, q, a);
    if r.result == NeedMore {
      LeavesStartOnce(m, q, a);
      var t := Messages(r.machine, r.request, r.rest + b);
      assert [] + t.outcomes == t.outcomes;
    } else if !(r.result == Error && m.state == StartLine && |r.rest| == |a|) {
      SuccessProgress(m, q, a);
      StreamChunkInvariance(FRESH, NO_REQUEST, r.rest, b);
      var u := Messages(FRESH, NO_REQUEST, r.rest);
      var o := if r.result == Success then Accepted(r.request) else Malformed;
      PrependedFollowed(o, u, Messages(u.machine, u.partial, u.rest + b));
    }
  }

  /** A peer whose whole connection arrives as `chunks`, each added to what was left over. */
  function FeedStream(m: Machine, q: Request, pending: string, chunks: seq<string>): Stream
    decreases |chunks|
  {
    var r := Messages(m, q, pending);
    if chunks == [] then r
    else if r.open then Followed(r, FeedStream(r.machine, r.partial, r.rest + chunks[0], chunks[1..]))
    else r.(rest := r.rest + Concat(chunks))
  }

  /** Every way to cut a connection's bytes gives the same messages. */
  lemma {:induction false} EverySplitStreamsAlike(m: Machine, q: Request, pending: string, chunks: seq<string>)
    ensures FeedStream(m, q, pending, chunks) == Messages(m, q, pending + Concat(chunks))
    decreases |chunks|
  {
    hide Messages;
    if chunks == [] {
      assert pending + Concat(chunks) == pending;
    } else {
      StreamChunkInvariance(m, q, pending, Concat(chunks));
      var r := Messages(m, q, pending);
      if r.open {
        EverySplitStreamsAlike(r.machine, r.partial, r.rest + chunks[0], chunks[1..]);
        assert r.rest + chunks[0] + Concat(chunks[1..]) == r.rest + Concat(chunks);
      }
    }
  }

  // ---- Accounting -------------------------------------------------------------------------

  function DeclaredLength(q: Request): Option<size_t> {
    if "content-length" in q.headers then Stoul(q.headers["content-length"]) else Some(0)
  }

  /** Every state a parser reaches that is reset, with its request, after Success and Error. */
  predicate Reachable(m: Machine, q: Request) {
    && m.bodyReceived <= m.contentLength
    && |q.body| == m.bodyReceived
    && (m.state != Body ==> m.contentLength == 0)
    && (m.state == Body ==> m.bodyReceived < m.contentLength && DeclaredLength(q) == Some(m.contentLength))
  }

  lemma TurnAccounting(m: Machine, q: Request, s: string)
    requires Reachable(m, q) && s != ""
    ensures var t := TakeTurn(m, q, s);
            && (t.out.result == NeedMore ==> Reachable(t.out.machine, t.out.request))
            && (t.done && t.out.result == NeedMore && t.out.machine.state == Body ==> t.out.rest == "")
            && (t.out.result == Success ==> DeclaredLength(t.out.request) == Some(|t.out.request.body|))
  {
    hide SplitLine, Stoul;
    if m.state == Body {
      BodyAccounting(m, q, s);
    } else {
      hide ParseBody;
    }
  }

  lemma BodyAccounting(m: Machine, q: Request, s: string)
    requires Reachable(m, q) && m.state == Body
    ensures var r := ParseBody(m, q, s);
            && (r.result == NeedMore ==> Reachable(r.machine, r.request) && r.rest == "")
            && (r.result == Success ==> DeclaredLength(r.request) == Some(|r.request.body|))
  {
  }

  /** Accounting over one call: the counters stay in step with the body, the subtraction that
      computes the missing bytes never wraps, and a success carries exactly as many body bytes
      as its request declares. */
  lemma {:induction false} Accounting(m: Machine, q: Request, s: string)
    requires Reachable(m, q)
    ensures var r := Parse(m, q, s);
            && (r.result == NeedMore ==> Reachable(r.machine, r.request))
            && (r.result == NeedMore && r.machine.state == Body ==> r.rest == "")
            && (r.result == Success ==> DeclaredLength(r.request) == Some(|r.request.body|))
    ensures m.state == Body ==> SubSize(m.contentLength, m.bodyReceived) == m.contentLength - m.bodyReceived
    decreases |s|
  {
    hide TakeTurn;
    if s != "" {
      TurnAccounting(m, q, s);
      var t := TakeTurn(m, q, s);
      if !t.done {
        Accounting(t.out.machine, t.out.request, t.out.rest);
      }
    }
  }

  /** Accounting over a whole connection, for any bytes and hence any split of them. */
  lemma {:induction false} StreamAccounting(m: Machine, q: Request, s: string)
    requires Reachable(m, q)
    ensures var r := Messages(m, q, s);
            && (forall q' :: Accepted(q') in r.outcomes ==> DeclaredLength(q') == Some(|q'.body|))
            && (r.open ==> Reachable(r.machine, r.partial))
    decreases |s|, if m.state == StartLine then 0 else 1
  {
    hide Parse, DeclaredLength;
    Accounting(m, q, s);
    var r := Parse(m, q, s);
    if r.result == Success || (r.result == Error && !(m.state == StartLine && |r.rest| == |s|)) {
      SuccessProgress(m, q, s);
      StreamAccounting(FRESH, NO_REQUEST, r.rest);
    }
  }

  // ---- What is refused, and what a verdict leaves behind ---------------------------------------

  /** A malformed line is left where it was: nothing of it is consumed, and no field changes. */
  lemma {:induction false} MalformedLineStays(m: Machine, q: Request, line: string, after: string)
    requires NoCrlf(line)
    requires m.state == StartLine ==> ParseRequestLine(line, q) == None
    requires m.state == Headers ==> line != "" && ':' !in line
    requires m.state != Body
    ensures var s := line + "\r\n" + after; Parse(m, q, s) == Parsed(Error, m, q, s)
  {
    SplitLineExact(line, after);
    hide SplitLine, Stoul;
    var s := line + "\r\n" + after;
    assert TakeTurn(m, q, s) == Turn(true, Parsed(Error, m, q, s));
  }

  /** At the empty line the message is complete, its body is awaited, or its declared length cannot be
      read and the header section is given up with what follows left in place. */
  lemma {:induction false} EmptyLineDecides(q: Request, after: string)
    ensures var declared := DeclaredLength(q);
            var p := Parse(Machine(Headers, 0, 0), q, "\r\n" + after);
            if "content-length" !in q.headers then p == Parsed(Success, Machine(Headers, 0, 0), q, after)
            else if declared == None then p == Parsed(Error, Machine(Body, 0, 0), q, after)
            else if declared == Some(0) then p == Parsed(Success, Machine(Body, 0, 0), q, after)
            else p == Parse(Machine(Body, declared.value, 0), q, after)
  {
    SplitLineExact("", after);
    hide SplitLine, Stoul;
    assert "" + "\r\n" + after == "\r\n" + after;
  }

  /** What success leaves of the parser: a fresh one after a body, and otherwise the state it ended in,
      which whoever goes on must reset. */
  lemma {:induction false} AfterSuccess(m: Machine, q: Request, s: string)
    requires Reachable(m, q) && Parse(m, q, s).result == Success
    ensures var r := Parse(m, q, s);
            r.machine == if r.request.body != "" then Machine(StartLine, 0, 0)
                         else if "content-length" in r.request.headers then Machine(Body, 0, 0)
                         else Machine(Headers, 0, 0)
    decreases |s|
  {
    hide TakeTurn;
    if s != "" {
      TurnAccounting(m, q, s);
      var t := TakeTurn(m, q, s);
      if t.done {
        TurnAfterSuccess(m, q, s);
      } else {
        AfterSuccess(t.out.machine, t.out.request, t.out.rest);
      }
    }
  }

  lemma TurnAfterSuccess(m: Machine, q: Request, s: string)
    requires Reachable(m, q) && s != "" && TakeTurn(m, q, s).done && TakeTurn(m, q, s).out.result == Success
    ensures var r := TakeTurn(m, q, s).out;
            r.machine == if r.request.body != "" then Machine(StartLine, 0, 0)
                         else if "content-length" in r.request.headers then Machine(Body, 0, 0)
                         else Machine(Headers, 0, 0)
  {
    hide SplitLine, Stoul, ParseRequestLine, ParseHeaderLine;
  }

  // ---- The parser as it runs --------------------------------------------------------------

  /** The request object the parser writes into. */
  class HttpRequest {
    var method_: string
    var path: string
    var version: string
    var headers: map<string, string>
    var body: string

    constructor ()
      ensures Value() == NO_REQUEST
      ensures method_ == "" && path == "" && version == "" && headers == map[] && body == ""
    {
      method_, path, version, headers, body := "", "", "", map[], "";
    }

    ghost function Value(): Request
      reads this
    {
      Request(method_, path, version, headers, body)
    }

    method Set(q: Request)
      modifies this
      ensures Value() == q
    {
      method_, path, version, headers, body := q.method_, q.path, q.version, q.headers, q.body;
    }

    method Reset()
      modifies this
      ensures Value() == NO_REQUEST
      ensures method_ == "" && path == "" && version == "" && headers == map[] && body == ""
    {
      method_, path, version, headers, body := "", "", "", map[], "";
    }

    method ReadRequestLine(line: string) returns (ok: bool)
      modifies this
      ensures ok == ParseRequestLine(line, old(Value())).Some?
      ensures Value() == if ok then ParseRequestLine(line, old(Value())).value else old(Value())
    {
      var first := FindChar(line, ' ');
      if first == None {
        return false;
      }
      var tail := line[first.value + 1..];
      var second := FindChar(tail, ' ');
      if second == None {
        return false;
      }
      method_ := line[..first.value];
      path := tail[..second.value];
      version := tail[second.value + 1..];
      return true;
    }

    method ReadHeaderLine(line: string) returns (ok: bool)
      modifies this
      ensures ok == ParseHeaderLine(line, old(Value())).Some?
      ensures Value() == if ok then ParseHeaderLine(line, old(Value())).value else old(Value())
    {
      if line == "" {
        return false;
      }
      var colon := FindChar(line, ':');
      if colon == None {
        return false;
      }
      var start := colon.value + 1;
      while start < |line| && line[start] == ' '
        invariant colon.value < start <= |line|
        invariant SkipSpaces(line[start..]) == SkipSpaces(line[colon.value + 1..])
      {
        assert line[start..][1..] == line[start + 1..];
        start := start + 1;
      }
      var val := line[start..];
      while val != "" && val[|val| - 1] == ' '
        invariant DropTrailingSpaces(val) == DropTrailingSpaces(SkipSpaces(line[colon.value + 1..]))
        decreases |val|
      {
        val := val[..|val| - 1];
      }
      headers := headers[Lowercase(line[..colon.value]) := val];
      return true;
    }
  }

  class HttpParser {
    var state: State
    var contentLength: size_t
    var bodyReceived: size_t

    constructor ()
      ensures Snapshot() == FRESH
    {
      state, contentLength, bodyReceived := StartLine, 0, 0;
    }

    ghost function Snapshot(): Machine
      reads this
    {
      Machine(state, contentLength, bodyReceived)
    }

    method Reset()
      modifies this
      ensures Snapshot() == FRESH
      ensures state == StartLine && contentLength == 0 && bodyReceived == 0
    {
      state, contentLength, bodyReceived := StartLine, 0, 0;
    }

    /** The body of the parsing loop, one state at a time. */
    method TurnInPlace(cur: string, outRequest: HttpRequest) returns (done: bool, result: ParseResult, rest: string)
      requires cur != ""
      modifies this, outRequest
      ensures Turn(done, Parsed(result, Snapshot(), outRequest.Value(), rest))
              == TakeTurn(old(Snapshot()), old(outRequest.Value()), cur)
    {
      done, result, rest := true, NeedMore, cur;
      if state == Body {
        var need := SubSize(contentLength, bodyReceived);
        if need <= |cur| {
          outRequest.body := outRequest.body + cur[..need];
          rest := cur[need..];
          bodyReceived := AddSize(bodyReceived, need);
          assert bodyReceived == contentLength;
          Reset();
          result := Success;
        } else {
          outRequest.body := outRequest.body + cur;
          bodyReceived := AddSize(bodyReceived, |cur|);
          rest := "";
        }
        return;
      }
      var (line, after) := SplitLine(cur);
      if line == "" && after == cur {
        return;
      }
      if state == StartLine {
        var ok := outRequest.ReadRequestLine(line);
        if !ok {
          result := Error;
        } else {
          done, rest, state := false, after, Headers;
        }
      } else if line != "" {
        var ok := outRequest.ReadHeaderLine(line);
        if !ok {
          result := Error;
        } else {
          done, rest := false, after;
        }
      } else {
        rest := after;
        if "content-length" !in outRequest.headers {
          result := Success;
        } else {
          state := Body;
          var length := Stoul(outRequest.headers["content-length"]);
          if length == None {
            result := Error;
          } else {
            contentLength := length.value;
            if contentLength == 0 {
              result := Success;
            } else {
              done := false;
            }
          }
        }
      }
    }

    /** The parsing loop computes `Parse`: same verdict, same state left in both objects, and
        `parsed` counts exactly the bytes that `Parse` does not hand back. */
    method ParseCString(data: string, outRequest: HttpRequest) returns (result: ParseResult, parsed: nat)
      modifies this, outRequest
      ensures parsed <= |data|
      ensures Parsed(result, Snapshot(), outRequest.Value(), data[parsed..])
              == Parse(old(Snapshot()), old(outRequest.Value()), data)
    {
      ghost var whole := Parse(Snapshot(), outRequest.Value(), data);
      ParseConsumesPrefix(Snapshot(), outRequest.Value(), data);
      var cur := data;
      var done := false;
      result := NeedMore;
      while !done && cur != ""
        invariant |cur| <= |data| && (!done ==> result == NeedMore)
        invariant whole == if done then Parsed(result, Snapshot(), outRequest.Value(), cur)
                           else Parse(Snapshot(), outRequest.Value(), cur)
        decreases if done then 0 else 1, |cur|
      {
        done, result, cur := TurnInPlace(cur, outRequest);
      }
      parsed := |data| - |cur|;
    }

    /** One call on the connection's input buffer: it is left holding what `Parse` hands back. */
    method ParseRequest(buffer: ByteBuffer.Buffer, outRequest: HttpRequest) returns (result: ParseResult)
      requires buffer.Valid()
      modifies this, outRequest, buffer
      ensures buffer.Valid() && buffer.data == old(buffer.data)
      ensures Parsed(result, Snapshot(), outRequest.Value(), buffer.Contents())
              == Parse(old(Snapshot()), old(outRequest.Value()), old(buffer.Contents()))
    {
      var parsed;
      result, parsed := ParseCString(buffer.data[buffer.reader..buffer.writer], outRequest);
      buffer.Consume(parsed);
    }
  }
}
