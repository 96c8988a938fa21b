# LouisNet in Dafny: what the reactor, its timers and its HTTP layer keep

LouisNet is a reactor network library: one event loop per thread, a main loop that accepts
connections and hands them to I/O loops, timers on a `timerfd`, and an HTTP/1.1 server on top. This
project models the parts of it that hold state across calls and proves what they promise over every
run, every interleaving and every way TCP can cut a stream. `dafny verify dfyconfig.toml` checks it,
with the default limits.

| file | models |
|---|---|
| `HttpText.dfy` | line splitting, trimming, decimal text, `std::stoul` with all its leniency |
| `HttpParser.dfy` | the resumable parser: its meaning as a function of the bytes, and the loop that computes it |
| `HttpResponse.dfy` | the response object, its printer, and the printer/parser round trip |
| `HttpServer.dfy` | the pipelining loop: when it ends, what it dispatches, what it answers |
| `HttpConnection.dfy` | both ends joined: bytes delivered in any cuts, answers taken by the kernel as it pleases |
| `OutputStream.dfy`, `TcpConnection.dfy` | the outgoing stream as a state machine; the connection object as its implementation over a real buffer, channel and poller |
| `TimerQueue.dfy`, `TimerRuns.dfy` | the timer scheduler as a state machine; which callbacks run, and when, over whole runs |
| `TimerPromises.dfy` | that no timer is passed over: from its add, over any run, the batches that run it are those it is due in |
| `TimerScheduler.dfy` | the scheduler object, step by step against that machine |
| `TaskQueue.dfy`, `EventLoop.dfy` | the task queue as a concurrent protocol; the loop's queue methods as its steps |
| `TcpServer.dfy` | ownership of connections and the teardown hops, over all interleavings of any number of loops |
| `LoopQueues.dfy` | what each loop of that model runs against what is posted to it, and the loops' wakeups joined to it |
| `Callbacks.dfy` | the connections of that model with their output streams |
| `Registration.dfy` | the connections of that model against the pollers of their loops |
| `Interest.dfy`, `Poller.dfy` | what the poller believes against what epoll watches; channels and poller as objects |
| `Buffer.dfy` | the byte buffer in one array, as a refinement of a byte sequence |

Each stateful component comes in two layers. A datatype with step functions says what the component
does, and the theorems are about all runs of those steps. A class with the component's own fields
has methods proved, in `ensures` clauses over `old`, to be exactly those steps; loops carry the
invariants that make this so. Ghost fields stand for what the program cannot see: bytes on the wire,
edges epoll has still to report, the batch being run. Inductions are written out: no proof leaves
one to the verifier.

## Assumptions

- A byte is a `char`; on the buffer and on the connection it is below 256. `size_t` and
  `unsigned long` are 64 bits wide and wrap around; `tolower` and `isspace` are those of the C locale.
- `write()` of a positive count takes at least one byte or fails. A fatal error (EPIPE, ECONNRESET)
  after which `sendInLoop` has thrown bytes away is permanent. Without the second the stream theorem
  is false, which `OutputStream.FatalMustBePermanent` shows on concrete bytes.
- `readv` fills its regions in order and no more than they hold. `epoll_ctl` and `timerfd_settime`
  succeed on well-formed arguments; that the arguments always are is proved (`Interest.NeverRefused`,
  `TimerQueue.SettimeIsExact`). Writing the eventfd raises a new edge; its counter does not overflow.
- The kernel gives a new connection no descriptor that a live `TcpConnection` still has open. A
  connection object lives as long as some shared_ptr to it: in `connections_`, in a queued closure or
  the batch being run, in `onNewConnection`, or in the application.
- A lock region is one atomic step. A timer object is created at an address that no timer still
  referenced has, and timers are compared by time and then address, as `std::pair` does.
- Reading the clock and arming the timerfd happen at the same instant, so that the armed deadline is
  the reading plus the duration. Nothing is assumed about how successive readings relate.
- A registered HTTP handler is a function of request and response that may change both.

## Where the code and what is said about it part ways

- The assertion after the cut in `extractExpiredTimers` (src/timer/TimerScheduler.cc:161) asks for
  `now` strictly before every timer left. Cutting at `(now, nullptr)` gives only "not after":
  `TimerQueue.CutAssertionIff` proves that the assertion holds if and only if no timer expires at
  exactly `now`, and `TimerQueue.CutAssertionCanFail` reaches a state where one does.
- `onMessage` (src/net/http/HttpServer.cc:53-92) leaves its loop only on an empty buffer, so an
  unterminated line or a malformed request line keeps it turning. `HttpServer.LoopEndsIff` gives the
  exact condition under which it ends: the messages in the buffer, found by the parser alone, leave
  no byte over. `HttpServer.UnterminatedLineSpins` and
  `HttpServer.MalformedLineSpins` give two families that never get out: every line without its CRLF,
  and every first line with fewer than two spaces.
- A response starts as version `HTTP/1.1`, but `reset()` clears the version
  (src/net/http/HttpResponse.h:20-25), so from the second message on a handler that sets none answers
  with an empty one. The model keeps both, and `HttpServer.PipelinedRequests` speaks of the right one
  for each request.
- The 404 answer declares ten bytes and sends nine (src/net/http/HttpServer.cc:102-106).
  `HttpResponse.ResponseRoundTrip` proves that a printed response is read back whole if and only if
  its declared length is that of its body; `HttpServer.NotFoundFallsShort` applies it to every 404 as
  it is sent.
- A successful parse resets the parser itself only after a non-empty body
  (src/net/http/HttpParser.cc:145); other successes leave it in the state they ended in.

## Model

| member | source | states |
|---|---|---|
| HttpParser.ChunkInvariance | src/net/http/HttpParser.cc:66-162 | from any parser state and request, stopping after `a` and resuming with the leftover plus `b` gives the verdict, state, counters, request and leftover of parsing `a + b`; a verdict reached on `a` stands, with `b` added to the leftover |
| HttpParser.EverySplitParsesAlike | src/net/http/HttpParser.cc:57-63 | however a stream is cut into arrivals, also inside a CRLF or a body, the parse is that of the uncut stream |
| HttpParser.StreamChunkInvariance | src/net/http/HttpServer.cc:53-92 | the same for a whole connection with resets after each message and each refusal: the requests found, the refusals and their order do not depend on the cut |
| HttpParser.EverySplitStreamsAlike | src/net/http/HttpServer.cc:53-92 | however a connection's bytes are cut into arrivals, the messages found in them are those of the uncut stream |
| HttpParser.TurnExtends | src/net/http/HttpParser.cc:72-157 | one turn that moves on or reaches a verdict does the same when more bytes follow |
| HttpParser.TurnWaits | src/net/http/HttpParser.cc:78-155 | one turn that runs out of bytes leaves exactly what resuming needs |
| HttpParser.ParseConsumesPrefix | src/net/http/HttpParser.cc:160-161 | a call takes a prefix of its input and hands back the rest untouched |
| HttpParser.SuccessProgress | src/net/http/HttpParser.cc:86-121 | a success that does not start inside a body consumes at least one byte, so the readable bytes strictly decrease |
| HttpParser.Accounting | src/net/http/HttpParser.cc:99-155 | over one call the counters match the body, the missing-bytes subtraction never wraps, and a success carries exactly the declared number of body bytes |
| HttpParser.TurnAccounting | src/net/http/HttpParser.cc:134-154 | each turn keeps the counters in step with the body |
| HttpParser.StreamAccounting | src/net/http/HttpParser.cc:66-169 | every request of a connection has a body of its declared length, before and after malformed messages, and the reachable parser states are kept, for any bytes |
| HttpParser.LeavesStartOnce | src/net/http/HttpParser.cc:73-87 | a call that runs out of bytes is before the first line with nothing consumed, or past it with something consumed |
| HttpParser.RequestLineRefusedIff | src/net/http/HttpParser.cc:20-32 | a request line is refused exactly when it holds fewer than two spaces |
| HttpParser.HeaderLineIsFiled | src/net/http/HttpParser.cc:35-54 | a header line is refused exactly when it has no colon; otherwise the key filed agrees up to ASCII case with the text before the first colon and holds no capital, the value is the text after it without its edge spaces, and no other key changes |
| HttpParser.MalformedLineStays | src/net/http/HttpParser.cc:80-127 | a malformed request or header line is an error that consumes none of it and changes no field |
| HttpParser.EmptyLineDecides | src/net/http/HttpParser.cc:93-121 | what the empty line leads to, for every declared length: done, a body to come, or refused past the line |
| HttpParser.AfterSuccess | src/net/http/HttpParser.cc:102-146 | the state each kind of success leaves: fresh only after a non-empty body |
| HttpParser.HttpParser.ParseCString | src/net/http/HttpParser.cc:66-162 | the loop over the three states computes that parse, and the count it reports is what was consumed |
| HttpParser.HttpParser.TurnInPlace | src/net/http/HttpParser.cc:73-156 | one pass of the loop body has exactly one turn's effect on both objects; the assertion on line 143 holds |
| HttpParser.HttpParser.ParseRequest | src/net/http/HttpParser.cc:57-63 | on the connection's buffer: what is left readable is exactly what the parse hands back |
| HttpParser.HttpParser.Reset | src/net/http/HttpParser.cc:165-169 | a fresh parser |
| HttpParser.HttpRequest.ReadRequestLine | src/net/http/HttpParser.cc:20-32 | the three words of the line, or refusal with the request untouched |
| HttpParser.HttpRequest.ReadHeaderLine | src/net/http/HttpParser.cc:35-54 | the line filed as `HeaderLineIsFiled` says, trimmed by the two loops; or refusal with the request untouched |
| HttpParser.HttpRequest.Reset | src/net/http/HttpRequest.h:15-21 | an empty request |
| HttpText.SplitLine | src/net/http/HttpParser.cc:13-17 | line and rest recombine to the data around the first CRLF; nothing is split when there is none |
| HttpText.NoLineIff | src/net/http/HttpParser.cc:78 | the caller's test for an incomplete line holds exactly when no CRLF is there |
| HttpText.SplitLineExtends | src/net/http/HttpParser.cc:13-17 | later bytes do not move the end of a complete line |
| HttpText.SplitLineExact | src/net/http/HttpParser.cc:13-17 | a line without an inner CRLF comes back exactly, whatever follows it |
| HttpText.FindCharJoined | src/net/http/HttpParser.cc:21-29 | the first separator splits a joined string back into its parts |
| HttpText.StoulOfDecimal | src/net/http/HttpParser.cc:106 | `stoul` reads back every `size_t` that `to_string` prints |
| HttpText.DecimalValueInverts | src/net/http/HttpResponse.cc:63 | decimal printing is invertible |
| HttpText.LowercaseIs | src/net/http/HttpParser.cc:48-51 | lowercasing is the one text that agrees up to ASCII case and holds no capital |
| HttpText.SameKeyIff | src/net/http/HttpParser.cc:48-51 | two names meet under one key exactly when they agree up to ASCII case |
| HttpText.TrimmedParts | src/net/http/HttpParser.cc:41-46 | what trimming takes off either end is spaces, all of them and nothing else |
| HttpText.StoulReads | src/net/http/HttpParser.cc:106 | `stoul` reads any run of white space, an optional sign, digits and any other text to the number itself below 2^64, negated modulo 2^64 after a minus; and refuses 2^64 and more |
| HttpText.DecimalPlaces | src/net/http/HttpResponse.cc:63 | decimal notation: one digit more is ten times the number and that digit |
| HttpText.DecimalIntReadsBack | src/net/http/HttpResponse.cc:60-63 | a printed status code reads back as itself, negative ones included |
| HttpResponse.ResponseRoundTrip | src/net/http/HttpResponse.cc:56-77 | parsing a printed response from a fresh parser succeeds and uses every byte if and only if Content-Length (zero when absent) is the body's length; then version, code, reason, headers and body are recovered |
| HttpResponse.MessageRoundTrip | src/net/http/HttpParser.cc:66-162 | the same for any message of three words, header lines, an empty line and a body |
| HttpResponse.HeaderLinesReadBack | src/net/http/HttpResponse.cc:69 | all printed header lines are taken in, whatever text follows them |
| HttpResponse.HeaderLineReadsBack | src/net/http/HttpParser.cc:35-54 | a printed header comes back with its value, under the one key without capitals that agrees with its name up to case |
| HttpResponse.StartLineReadsBack | src/net/http/HttpParser.cc:20-32 | the printed start line comes back as its three words |
| HttpResponse.BodyReadsBack | src/net/http/HttpParser.cc:93-155 | past the empty line the parse is complete exactly when the declared length is that of the body |
| HttpResponse.CollectedIsExact | src/net/http/HttpParser.cc:49-51 | with keys distinct after lowercasing, the parsed header map holds every printed header and nothing else |
| HttpResponse.DecimalLengthAgrees | src/net/http/HttpResponse.cc:69-74 | a header whose name agrees with `content-length` up to case and whose value is the decimal of the body's size meets the round trip's condition, wherever it sorts |
| HttpResponse.PrintedText | src/net/http/HttpResponse.cc:7-77 | the printed text itself: version, code, reason phrase of 200, 400, 404, 500 and any other code, each header on its line, the empty line and the body |
| HttpResponse.HeaderLinesAt | src/net/http/HttpResponse.cc:66-70 | the i-th header printed is the i-th pair, and the lines before and after it are those of the other pairs |
| HttpResponse.HeadersComeBack | src/net/http/HttpResponse.cc:56-77 | of headers whose names differ by more than case, each is in the parsed map under its name in small letters with its value, and no key without such a name is |
| HttpResponse.LessIsLexicographic | src/net/http/HttpResponse.h:30 | the key order is that of the first differing character, or of the lengths |
| HttpResponse.AsMapHas | src/net/http/HttpResponse.h:30 | the sorted pairs hold exactly the pairs of their map |
| HttpResponse.AssignIsMapUpdate | src/net/http/HttpResponse.cc:36-39 | setting a header keeps the pairs sorted and is a map update |
| HttpResponse.LessIsTotal | src/net/http/HttpResponse.h:30 | the key order is total, antisymmetric and irreflexive |
| HttpResponse.LessIsTransitive | src/net/http/HttpResponse.h:30 | the key order is transitive |
| HttpResponse.HttpResponse.SetHeader | src/net/http/HttpResponse.cc:36-39 | a map update of the headers and nothing else |
| HttpResponse.HttpResponse.ToString | src/net/http/HttpResponse.cc:56-77 | the appending loop prints the message that the round trip inverts |
| HttpResponse.HttpResponse.Reset | src/net/http/HttpResponse.h:20-25 | the blank response, version included |
| HttpServer.PipelinedRequests | src/net/http/HttpServer.cc:44-93 | n complete requests in one buffer: the loop ends with the buffer empty, dispatches those n in order with nothing carried over, and the answers accepted are those up to and including the first that is not keep-alive |
| HttpServer.LoopServesStream | src/net/http/HttpServer.cc:53-92 | the loop against the message stream, whenever it ends: it has dispatched the requests of the stream, answered them and refused what was malformed, in order, and holds the stream's unfinished tail |
| HttpServer.TwoArrivalsActAsOne | src/net/http/HttpServer.cc:44-93 | two deliveries leave context, answers and dispatched requests as one delivery of both does |
| HttpServer.LoopEndsIff | src/net/http/HttpServer.cc:53-92 | the loop ends if and only if the messages found in the input leave no byte over, whatever the handlers do |
| HttpServer.DrainsDecides | src/net/http/HttpServer.cc:53-92 | where it ends it reaches the settled session; where it does not, the buffer is never empty again |
| HttpServer.StuckForEver | src/net/http/HttpServer.cc:53-92 | a turn that leaves its input as it was is repeated for ever |
| HttpServer.UnterminatedLineSpins | src/net/http/HttpServer.cc:53-92 | a request or header line without its CRLF is such an input |
| HttpServer.AnsweredIsPrefix | src/net/http/HttpServer.cc:69-74 | of a sequence of answers exactly those up to the first closing one are taken |
| HttpServer.AnswersChain | src/net/http/HttpServer.cc:55-74 | answering two sequences of requests one after the other is answering their concatenation |
| HttpServer.StreamOnward | src/net/http/HttpServer.cc:53-92 | one turn that reaches a verdict takes exactly the first message off the stream |
| HttpServer.CompleteRequestsAreMessages | src/net/http/HttpServer.cc:142-147 | concatenated complete requests are recovered one by one, each as if it had come alone |
| HttpServer.PrintedRequestIsComplete | src/net/http/HttpParser.cc:20-54 | a well-formed request with its length declared is complete and is dispatched with its own fields |
| HttpServer.NotFoundFallsShort | src/net/http/HttpServer.cc:57-70 | the 404 answer as sent, Connection header included, is not read back whole: for every request without a handler whose version holds no CRLF, from a new or a reset response |
| HttpServer.DispatchedVersions | src/net/http/HttpParser.cc:20-32 | no request dispatched has a CRLF in its version, so that covers every 404 |
| HttpServer.PartsOfLine | src/net/http/HttpParser.cc:20-32 | the three words taken from a request line are that line's parts, spaces restored |
| HttpServer.HandlerAnswers | src/net/http/HttpServer.cc:56-113 | a registered path: what its handler returned is what is sent, for the text parses back to the handler's version, code, body and headers, with a Connection header and a close decision by the persistence table |
| HttpServer.PipelinedAnswer | src/net/http/HttpServer.cc:44-113 | the i-th answer accepted of n pipelined requests is that of the i-th request's handler, given the response as that position finds it |
| HttpServer.KeepAliveIsPersistence | src/net/http/HttpServer.cc:116-139 | a connection is kept as a table over version and Connection header says |
| HttpServer.NotFoundIsText | src/net/http/HttpServer.cc:57-110 | the 404 answer, character for character, for every request without a handler |
| HttpServer.RefusalIsText | src/net/http/HttpServer.cc:76-88 | the 400 answer, character for character, with the version a first or a later message finds, and that it closes |
| HttpServer.MalformedLineSpins | src/net/http/HttpServer.cc:53-92 | a first line with fewer than two spaces is never got past: after any number of turns the input is what it was |
| HttpServer.LinkTracksConnection | src/net/TcpConnection.cc:229-239 | what the loop sees of the connection is the output stream model with the kernel left out |
| HttpServer.OnMessage | src/net/http/HttpServer.cc:44-93 | the loop on real objects reaches the settled session with the buffer empty, on every input on which it ends |
| HttpServer.TurnInPlace | src/net/http/HttpServer.cc:54-91 | one turn on real objects: parse, dispatch, answer, reset, send, shut down |
| HttpServer.OnRequestInPlace | src/net/http/HttpServer.cc:96-113 | the registered handler's effect on request and response (`HandlerAnswers`), or the 404 |
| HttpServer.HttpServerContext.Reset | src/net/http/HttpServer.cc:143-147 | parser, request and response as between two messages |
| HttpServer.HttpServerContext.SendReply | src/net/http/HttpServer.cc:63-74 | the printed response is sent after the context is reset, and the connection shut down when it was the last one |
| HttpConnection.AnswersReachTheWire | src/net/http/HttpServer.cc:44-93 | from bytes in to bytes out, over all kernel behaviour and all cuts whose deliveries the loop gets through (none stops inside a line): the requests dispatched are those of the whole stream, the messages accepted are the answers up to the first that closes, the wire is a prefix of them joined, and is all of them exactly when nothing is buffered and nothing was lost |
| HttpConnection.ServeTracks | src/net/TcpConnection.cc:229-302 | the answers of one delivery, sent and shut down on the connection, look through the link as the loop counts them |
| HttpConnection.NextKeeps | src/net/TcpConnection.cc:86-205 | every delivery and every event in between keeps context, accepted answers and connection where the bytes so far put them |
| TcpServer.TeardownSafety | src/net/TcpServer.cc:54-111 | in every interleaving a registered or active channel belongs to a connection held by connections_, by onNewConnection in progress, or by a queued establish, remove or destroy task; when the last holder is gone the connection is disconnected, unregistered and not active, and no raw-pointer callback to it is queued |
| TcpServer.EraseByDescriptor | src/net/TcpServer.cc:103-111 | live connections have different descriptors, so erasing by descriptor takes out that connection or nothing, also when it was closed twice |
| TcpServer.TasksFindTheirConnection | src/net/TcpConnection.cc:54-83 | establish finds a connecting connection, destroy one disconnected and no longer stored, and a write-complete callback a connection still alive |
| TcpServer.QuietMeansSettled | src/net/TcpServer.cc:99-111 | teardown completes: with no task left, a connection is open, stored and registered, or disconnected and gone from both |
| TcpServer.NothingDangles | src/net/reactor/EventLoop.cc:59-71 | the active list and the tasks still to run only ever lead to connections of the right loop that the server keeps alive |
| TcpServer.ChannelIsHeld | src/net/TcpConnection.cc:46-51 | the invariant's core: registered, or not disconnected, means held by the server |
| TcpServer.EraseHitsOwn | src/net/TcpServer.cc:106 | erasing a held connection's descriptor removes its own entry and no other |
| TcpServer.HandleCloseKeeps | src/net/TcpConnection.cc:181-205 | closing, again and again and on any loop, keeps the invariant |
| TcpServer.AcceptKeeps | src/net/TcpServer.cc:54-75 | a new connection established at once or by a queued task keeps it, before it is stored |
| TcpServer.RunTaskKeeps | src/net/reactor/EventLoop.cc:161-176 | running any queued task keeps it |
| TcpServer.SendKeeps | src/net/TcpConnection.cc:264-266 | queueing a write-complete callback that owns nothing keeps it |
| TcpServer.NextKeeps | src/net/reactor/EventLoop.cc:54-74 | every step of every loop keeps the invariant |
| TcpServer.RunKeeps | src/net/reactor/EventLoop.cc:54-74 | so does every run |
| TcpServer.UserKeepsSocket | src/net/TcpServer.cc:54-111 | while the application keeps a shared_ptr, through any steps of any loops, the connection is alive on its loop and no other live connection has its socket |
| TcpServer.UserLetsGo | src/net/TcpServer.cc:99-111 | dropping it takes away that one holder |
| Registration.WatchedIsAlive | src/net/reactor/Poller.cc:41-138 | whatever a loop's epoll watches is the channel of exactly one connection of that loop, registered and held by the server |
| Registration.PollerKnowsRegistered | src/net/reactor/Poller.cc:64-113 | a poller's map is exactly the registered connections of its loop, and agrees with the kernel |
| Registration.PollersNeverObject | src/net/reactor/Poller.cc:68-102 | no step of any loop ever meets a failing assertion of a poller |
| Registration.NextKeeps | src/net/TcpServer.cc:54-111 | every step of the server, with the calls it makes on pollers, keeps the two in agreement, reused descriptors included |
| Registration.RegisteredHearsData | src/net/TcpConnection.cc:54-64 | over every run, a registered connection whose read bits no handler took away is watched by its loop's kernel set for EPOLLIN, EPOLLPRI and EPOLLET |
| LoopQueues.PostsAreConserved | src/net/reactor/EventLoop.cc:102-176 | over every run of the server, what a loop has run followed by what it still has to run is what the run's steps posted to it, in order: each posted task runs there at most once |
| LoopQueues.RunConserves | src/net/reactor/EventLoop.cc:102-176 | the same from any state of the server that its runs reach |
| LoopQueues.StepConserves | src/net/reactor/EventLoop.cc:161-176 | one step adds to a loop's pending tasks exactly what it posts there and takes off exactly what that loop runs |
| LoopQueues.LoopEffect | src/net/reactor/EventLoop.cc:59-71 | one step leaves a loop with its own move and the posted task at the end of its queue, and nothing else |
| LoopQueues.NextKeeps | src/net/reactor/EventLoop.cc:93-176 | with the wakeups of all loops, delayed as threads may be: every step is one the task-queue protocol allows on every loop, and its record grows by exactly what was posted and run |
| LoopQueues.RecordIsTrue | src/net/reactor/EventLoop.cc:102-176 | over all such runs the protocol's pushes and executions are the tasks the server's run posted and ran |
| LoopQueues.ServerNeverSleepsOnTasks | src/net/reactor/EventLoop.cc:102-145 | a loop of the server about to block with tasks queued has a readable eventfd with its edge unreported, or another loop is between its push and its wakeup, which it can make |
| LoopQueues.SettledLoopWakes | src/net/reactor/EventLoop.cc:102-145 | with no post half done the eventfd is readable and its edge unreported |
| LoopQueues.EveryServerRun | src/net/reactor/EventLoop.cc:54-74 | every run of the server is the server's part of a run with wakeups, so joining them excludes nothing |
| Callbacks.CallbacksArePending | src/net/TcpConnection.cc:257-266 | over all runs of a server and its streams, a stream's count of callbacks to come is the number of write-complete callbacks pending for its connection on its loop, both see the same state, and the stream invariant holds |
| Callbacks.CallbackFindsConnection | src/net/TcpConnection.cc:264-266 | a callback to come finds its connection registered and held by the server, though it holds only a raw pointer |
| Callbacks.NextKeeps | src/net/TcpConnection.cc:127-309 | every event of a stream, with the callbacks, shutdown and close it causes on the server, and every step of the server keeps the two in step |
| Callbacks.EventShape | src/net/TcpConnection.cc:127-302 | an event queues callbacks only from a connected stream, and ends in the disconnected state exactly as handleClose runs |
| TimerQueue.AlarmNeverLost | src/timer/TimerScheduler.cc:76-197 | between handleReads waiting timers mean an alarm armed or fired unread; an armed deadline is at most every expiration or within 100 ms of its arming |
| TimerQueue.IndexesAgree | src/timer/TimerScheduler.cc:76-151 | in every state, also between callbacks: the two indexes hold the same timers, sizes equal, each under its current expiration, none of the running batch |
| TimerQueue.SettimeIsExact | src/timer/TimerScheduler.cc:23-34 | seconds and nanoseconds recombine to the duration, are in range, and are never both zero |
| TimerQueue.AddInLoopKeeps | src/timer/TimerScheduler.cc:76-105 | both insertions take place (`inserted` holds) and the indexes and the alarm stay right |
| TimerQueue.CancelKeeps | src/timer/TimerScheduler.cc:108-127 | the timer is in neither index afterwards and they still agree |
| TimerQueue.ExtractsExpired | src/timer/TimerScheduler.cc:154-180 | the cut takes exactly the timers expired strictly before now, earliest first, and leaves the rest |
| TimerQueue.CutAssertionIff | src/timer/TimerScheduler.cc:160-161 | the assertion after the cut holds if and only if no timer expires at exactly now |
| TimerQueue.CutAssertionCanFail | src/timer/TimerScheduler.cc:160-161 | a legal run after which it fails: a timer for time 5 and a clock that reads 5 |
| TimerQueue.BeginKeeps | src/timer/TimerScheduler.cc:129-143 | extraction leaves the indexes in agreement with each other and apart from the batch |
| TimerQueue.RestoreFirstKeeps | src/timer/TimerScheduler.cc:184-190 | restarting a timer, which changes its key, and putting it back keeps them in agreement |
| TimerQueue.RestoreKeeps | src/timer/TimerScheduler.cc:183-190 | the whole loop of reset() does |
| TimerQueue.NextKeeps | src/timer/TimerScheduler.cc:76-197 | every step keeps the whole invariant, calls made from callbacks included |
| TimerQueue.RunKeeps | src/timer/TimerScheduler.cc:76-197 | so does every run |
| TimerQueue.InsertKeepsOrder | src/timer/TimerScheduler.cc:87 | insertion keeps the set sorted and adds exactly one entry |
| TimerQueue.EraseKeepsOrder | src/timer/TimerScheduler.cc:116 | erasure keeps it sorted and removes exactly one entry |
| TimerQueue.SizesAgree | src/timer/TimerScheduler.cc:96 | distinct entries have as many ids |
| TimerQueue.AddFiles | src/timer/TimerScheduler.cc:54-105 | an add told in full: one entry more, under the time asked for and the next id, and the alarm set for it exactly when no waiting timer is earlier |
| TimerQueue.CancelTakesOne | src/timer/TimerScheduler.cc:108-127 | a cancel told in full: that entry goes, every other stays, and only a timer that is out of the indexes while a batch runs is remembered |
| TimerQueue.BeginReads | src/timer/TimerScheduler.cc:129-143 | the start of a batch reads a fired alarm, forgets earlier cancels and changes no timer |
| TimerRuns.FiringRate | src/timer/TimerScheduler.cc:129-190 | consecutive runs of a repeating timer are in batches whose clocks differ by more than its interval; a one-shot timer runs at most once |
| TimerRuns.FiringsInWindow | src/timer/Timer.h:23-29 | any window of length T holds at most floor(T / interval) + 1 runs |
| TimerRuns.BatchRunsExactlyExpired | src/timer/TimerScheduler.cc:129-151 | a batch runs exactly the timers expired strictly before its clock, once each, earliest first, whatever its callbacks add or cancel |
| TimerRuns.HandleReadIsRun | src/timer/TimerScheduler.cc:129-151 | one handleRead with its callbacks' calls is a legal run of the state machine, so the theorems over runs hold of the object |
| TimerRuns.CancelTakesHold | src/timer/TimerScheduler.cc:108-127 | a cancel after the add leaves the timer in neither index and not to be put back |
| TimerRuns.CancelledStaysQuiet | src/timer/TimerScheduler.cc:108-190 | over any later run a cancelled timer runs at most once more, and only if the batch then executing still had it ahead |
| TimerRuns.CancelledNeverRunsAgain | src/timer/TimerScheduler.cc:108-190 | cancelled while in no running batch, it never runs again |
| TimerRuns.NextKeepsCancelled | src/timer/TimerScheduler.cc:183-190 | each step keeps it cancelled, and no new batch contains it |
| TimerRuns.NextKeepsLives | src/timer/Timer.h:23-29 | each step keeps every timer's history in line with where it is filed |
| TimerRuns.RunKeepsAllLives | src/timer/TimerScheduler.cc:76-197 | so does every run |
| TimerRuns.FiledForNextRun | src/timer/Timer.h:23-29 | after any run, a timer that has run and waits again is filed for exactly the clock of its last run plus its interval |
| TimerPromises.RunsWhenDue | src/timer/TimerScheduler.cc:54-190 | from a timer's add over any run that does not cancel it: the next batch runs it, once, if and only if its clock is past the time asked for or, once it has run, past its last run plus its interval |
| TimerPromises.NextKeepsPromise | src/timer/TimerScheduler.cc:76-197 | each step but its cancel keeps a timer filed and due for what was asked |
| TimerPromises.RestorePutsBack | src/timer/TimerScheduler.cc:183-190 | reset() puts back every repeating timer of the batch that was not cancelled, and loses none |
| TimerScheduler.TimerObject.Restart | src/timer/Timer.h:23-29 | a repeating timer expires at `now` plus its interval, a one-shot one never again; nothing else changes |
| TimerScheduler.TimerScheduler.HandleRead | src/timer/TimerScheduler.cc:129-151 | one whole batch, from the cut through callbacks that add and cancel to the re-arming, is the model's, and a legal run of its steps |
| TimerScheduler.TimerScheduler.Reset | src/timer/TimerScheduler.cc:183-197 | the loop puts back the repeating timers not cancelled and arms for the new earliest |
| TimerScheduler.TimerScheduler.ExtractExpiredTimers | src/timer/TimerScheduler.cc:154-180 | what is cut from the set, and erased from the id map by the loop |
| TimerScheduler.TimerScheduler.ResetTimerfd | src/timer/TimerScheduler.cc:23-35 | the kernel's sum of clock, seconds and nanoseconds is the model's deadline |
| TimerScheduler.TimerScheduler.AddTimerInLoop | src/timer/TimerScheduler.cc:76-105 | the model's insertion, with re-arming when the earliest changed |
| TimerScheduler.TimerScheduler.AddTimer | src/timer/TimerScheduler.cc:54-68 | a new timer object under the next id |
| TimerScheduler.TimerScheduler.CancelTimerInLoop | src/timer/TimerScheduler.cc:108-127 | the model's cancel |
| TimerScheduler.TimerScheduler.RestoreTimer | src/timer/TimerScheduler.cc:185-189 | one turn of reset()'s loop |
| TimerScheduler.TimerScheduler.RunTimer | src/timer/TimerScheduler.cc:145 | one callback with all its calls into the scheduler |
| OutputStream.StreamConserved | src/net/TcpConnection.cc:127-293 | over any run, with short writes, EAGAIN and re-entrant callbacks: wire followed by buffer is the accepted messages in order, exactly until a fatal error drops one; then the wire stays a prefix |
| OutputStream.HalfCloseWhenDrained | src/net/TcpConnection.cc:127-309 | while open, write interest holds exactly when bytes are buffered, with an edge still to come; when disconnecting, the half-close was issued exactly when the buffer is empty, and that this means everything accepted is on the wire holds exactly while nothing was lost |
| OutputStream.SilentAfterHalfClose | src/net/TcpConnection.cc:296-309 | after the half-close nothing more is written |
| OutputStream.FatalMustBePermanent | src/net/TcpConnection.cc:275-284 | a write succeeding after a fatal one would skip a message on the wire |
| OutputStream.SendKeeps | src/net/TcpConnection.cc:229-293 | send keeps the stream invariant, on the direct and on the buffered path |
| OutputStream.FlushKeeps | src/net/TcpConnection.cc:134-163 | the writing loop moves bytes without loss, duplication or reordering and ends drained, re-armed or closed |
| OutputStream.HandleWriteKeeps | src/net/TcpConnection.cc:127-179 | handleWrite keeps the invariant, whatever the write-complete callback sends or shuts down |
| OutputStream.ActsKeep | src/net/TcpConnection.cc:140-143 | so does any callback |
| OutputStream.StepKeeps | src/net/TcpConnection.cc:54-309 | so does every event of the connection |
| OutputStream.RunKeeps | src/net/TcpConnection.cc:54-309 | and every run of events |
| OutputStream.DrainMakesCallback | src/net/TcpConnection.cc:127-179 | when the writes take all that was waiting, the write-complete callback is made on an open stream: exactly what it sends before its first shutdown is accepted, and the stream is left disconnecting exactly if it shuts down; in every other case nothing is accepted |
| OutputStream.CallbackTakes | src/net/TcpConnection.cc:257-266 | a queued write-complete callback does the same when it is run |
| OutputStream.SendQueuesCallback | src/net/TcpConnection.cc:257-266 | one is queued exactly when a message is written whole with nothing waiting |
| OutputStream.EventsSetState | src/net/TcpConnection.cc:54-205 | establishing, closing and destroying touch no byte and no message |
| TcpConnection.TcpConnection.HandleWrite | src/net/TcpConnection.cc:127-179 | the method on a real buffer is the model's step, the write-complete callback included (`OutputStream.DrainMakesCallback`) |
| TcpConnection.TcpConnection.FlushInPlace | src/net/TcpConnection.cc:134-163 | the writing loop, and the error it stops on |
| TcpConnection.TcpConnection.SendInLoop | src/net/TcpConnection.cc:242-293 | direct write, remainder queued, write interest on; nothing when disconnected |
| TcpConnection.TcpConnection.WriteDirectly | src/net/TcpConnection.cc:257-281 | the four outcomes of the direct write |
| TcpConnection.TcpConnection.QueueRest | src/net/TcpConnection.cc:284-292 | the remainder appended, and interest switched on once |
| TcpConnection.TcpConnection.Send | src/net/TcpConnection.cc:229-239 | taken only when connected |
| TcpConnection.TcpConnection.Shutdown | src/net/TcpConnection.cc:296-302 | half-close now or once drained; nothing when not connected |
| TcpConnection.TcpConnection.ShutdownInLoop | src/net/TcpConnection.cc:304-309 | half-close unless bytes are waiting |
| TcpConnection.TcpConnection.RunCallback | src/net/TcpConnection.cc:141-143 | everything a callback does, in order |
| TcpConnection.TcpConnection.HandleClose | src/net/TcpConnection.cc:181-205 | disconnected, stream untouched, whatever the connection callback tries to send |
| TcpConnection.TcpConnection.HandleError | src/net/TcpConnection.cc:207-224 | an error closes the connection |
| TcpConnection.TcpConnection.ConnectionEstablished | src/net/TcpConnection.cc:54-64 | from connecting to connected, the kernel asked for EPOLLIN, EPOLLPRI and EPOLLET on its socket, and then all that the connection callback does |
| TcpConnection.TcpConnection.ConnectionDestroyed | src/net/TcpConnection.cc:67-83 | disconnected, the channel without interest and in neither the poller's map nor the kernel's set, from every state and however often |
| TcpConnection.TcpConnection.WritingIsWatched | src/net/reactor/Channel.h:57 | the stream is writing exactly while the kernel is asked for EPOLLOUT on its socket |
| TcpConnection.TcpConnection.ReadingIsWatched | src/net/reactor/Channel.h:66-69 | a connection that wants to read is watched by the kernel for data, for urgent data and for edges, bit by bit |
| TcpConnection.TcpConnection.SetWriting | src/net/reactor/Channel.h:74-81 | the model's write interest is the channel's bit; reading stays as it was and poller and kernel agree |
| TcpConnection.TcpConnection.constructor | src/net/TcpConnection.cc:21-32 | a new stream and a new channel under the loop's poller |
| TaskQueue.NoLostWakeup | src/net/reactor/EventLoop.cc:54-176 | in every interleaving, a loop about to block with tasks queued has a readable eventfd with its edge unreported, or a thread between its push and its wakeup |
| TaskQueue.SleepEnds | src/net/reactor/EventLoop.cc:138-153 | so poll can return for the eventfd at once or after any pending wakeup |
| TaskQueue.TasksConserved | src/net/reactor/EventLoop.cc:102-176 | executed tasks, the rest of the batch and the queue are together the pushes in order |
| TaskQueue.BatchIsClosed | src/net/reactor/EventLoop.cc:164-173 | tasks pushed meanwhile never join the running batch |
| TaskQueue.SwapRunsEverything | src/net/reactor/EventLoop.cc:161-176 | when doPendingFunctors returns, everything pushed before its swap has run |
| TaskQueue.NextKeeps | src/net/reactor/EventLoop.cc:54-176 | every step of every thread keeps the invariant |
| EventLoop.EventLoop.DoPendingFunctors | src/net/reactor/EventLoop.cc:161-176 | runs exactly the tasks queued before, leaves exactly those they queued, and leaves the loop awake if there are any |
| EventLoop.EventLoop.QueueInLoop | src/net/reactor/EventLoop.cc:102-111 | push, and wakeup exactly while a batch is running |
| EventLoop.EventLoop.QueueFromTask | src/net/reactor/EventLoop.cc:102-111 | a task queued by a running task leaves the eventfd readable with its edge to come |
| EventLoop.EventLoop.QueueFromThread | src/net/reactor/EventLoop.cc:102-111 | push, then wakeup |
| EventLoop.EventLoop.Wakeup | src/net/reactor/EventLoop.cc:138-145 | counter up by one, edge raised |
| EventLoop.EventLoop.HandleRead | src/net/reactor/EventLoop.cc:147-153 | counter back to zero |
| Interest.AlwaysAgree | src/net/reactor/Poller.cc:64-138 | after any run the kernel watches exactly the added channels, edge-triggered with their current masks, and fdMap_ holds exactly those not new |
| Interest.NeverRefused | src/net/reactor/Poller.cc:68-111 | every control operation is asked of a descriptor it fits, and the map assertions hold |
| Interest.TearDownTwice | src/net/TcpConnection.cc:67-83 | disableAll then remove is legal from every state, clears the channel from both sides, leaves every other one alone, and repeating it changes nothing |
| Interest.ApplyKeeps | src/net/reactor/Channel.h:66-85 | each enable, disable and remove keeps the agreement |
| Interest.UpdateCases | src/net/reactor/Poller.cc:64-93 | updating a channel told in full: watched afterwards exactly if it was not watched or wants something, with the new mask and the top bit; known in any case; no other descriptor touched |
| Interest.TakeCases | src/net/reactor/Poller.cc:95-113 | removing one told in full: unknown and not watched; no other descriptor touched |
| Interest.ReadSetsBoth | src/net/reactor/Channel.h:27 | enabling reads sets bits 1 and 2 |
| Interest.ReadClearsBoth | src/net/reactor/Channel.h:27 | disabling reads clears bits 1 and 2 |
| Interest.WriteSetsNoOther | src/net/reactor/Channel.h:28 | enabling writes sets no bit but 4 |
| Interest.EdgesAsked | src/net/reactor/Poller.cc:127-130 | whatever is asked of the kernel is asked for edges |
| Poller.Poller.UpdateChannel | src/net/reactor/Poller.cc:64-93 | the model's update, with ADD for a channel not watched even when it wants nothing |
| Poller.Poller.RemoveChannel | src/net/reactor/Poller.cc:95-113 | the model's removal |
| Poller.Poller.Enter | src/net/reactor/Channel.cc:11-18 | a new channel comes under its loop, for a descriptor the poller does not know any more |
| Poller.Channel.EnableRead | src/net/reactor/Channel.h:66-69 | bits 1 and 2 of the mask set, bit 4 as before, and the poller told |
| Poller.Channel.DisableRead | src/net/reactor/Channel.h:70-73 | bits 1 and 2 of the mask cleared, bit 4 as before, and the poller told |
| Poller.Channel.EnableWrite | src/net/reactor/Channel.h:74-77 | bit 4 set, bits 1 and 2 as before, so that isWriting() holds |
| Poller.Channel.DisableWrite | src/net/reactor/Channel.h:78-81 | bit 4 cleared, bits 1 and 2 as before, so that isWriting() does not hold |
| Poller.Channel.DisableAll | src/net/reactor/Channel.h:82-85 | an empty mask |
| Poller.Channel.SetEvents | src/net/reactor/Channel.cc:72-75 | a new mask reaches the kernel as the model says |
| Poller.Channel.TearDown | src/net/TcpConnection.cc:73-77 | the channel object is new again, in no map |
| ByteBuffer.ExactCapacity | src/base/Buffer.cc:46-79 | without prepends the capacity is always the header room plus the largest demand so far, over appends, reads, consumes and requests for room |
| ByteBuffer.CapacityBounds | src/base/Buffer.h:109-155 | with prepends it stays between the largest demand and that plus the header room |
| ByteBuffer.Ensured | src/base/Buffer.h:109-113 | enough room after either branch, layout valid, readable count kept |
| ByteBuffer.BigEndianRoundTrip | src/base/Buffer.h:141-161 | network byte order is inverted for every int32 |
| ByteBuffer.MostSignificantFirst | src/base/Buffer.h:141-161 | the four bytes are those of the number, or of the number plus 2^32 when negative, the most significant first |
| ByteBuffer.ReadRoom | src/base/Buffer.cc:13-27 | a read is always given room for 65536 bytes: the writable region, and a side array of that size while the region is smaller |
| ByteBuffer.Buffer.MakeSpace | src/base/Buffer.cc:46-79 | the readable bytes survive growth and the overlapping forward copy; the assertion on line 68 holds, also after prepends |
| ByteBuffer.Buffer.ReadFd | src/base/Buffer.cc:13-44 | reading n bytes appends those n, spilled or not; a failed read changes nothing |
| ByteBuffer.Buffer.EnsureWritableBytes | src/base/Buffer.h:109-113 | contents kept, layout as computed |
| ByteBuffer.Buffer.Append | src/base/Buffer.h:132-138 | concatenation |
| ByteBuffer.Buffer.Prepend | src/base/Buffer.h:148-155 | prefixing, in place |
| ByteBuffer.Buffer.Consume | src/base/Buffer.h:60-70 | dropping; the last byte dropped puts the indices back at 8 |
| ByteBuffer.Buffer.ConsumeAll | src/base/Buffer.h:73 | empty, both indices back at 8 |
| ByteBuffer.Buffer.RetrieveAsString | src/base/Buffer.h:99-106 | a split: what is returned followed by what is left is what was there |
| ByteBuffer.Buffer.RetrieveInt32 | src/base/Buffer.h:81-93 | whatever int32 was appended or prepended there comes out |
| ByteBuffer.Buffer.AppendInt32 | src/base/Buffer.h:141-145 | its four bytes at the end |
| ByteBuffer.Buffer.PrependInt32 | src/base/Buffer.h:157-161 | its four bytes in front |
| ByteBuffer.Buffer.Swap | src/base/Buffer.h:34-38 | arrays and indices exchanged |
| ByteBuffer.Copy | src/base/Buffer.cc:54-70 | a forward copy within one array preserves the source bytes when it does not run into them |

## Left out

- HttpServer.OnMessage: requires an input on which the loop ends, since the code does not return otherwise; `LoopEndsIff` shows the requirement to be exact.
- HttpServer.PipelinedRequests: handlers are functions of request and response; one that sends on the connection itself is not modelled, nor one whose answer depends on anything else.
- HttpServer.LinkTracksConnection: the server's link keeps only the accepted messages and whether send takes more; how their bytes reach the wire is the output stream model's business.
- EventLoop.EventLoop.DoPendingFunctors: no foreign thread moves during the method; all interleavings are in the `TaskQueue` theorems.
- EventLoop.EventLoop.QueueFromThread: its two halves run back to back; the protocol lets anything happen in between.
- TimerQueue.IndexesAgree: creating a timer and inserting it are one step, and adds are serialised; two threads in addTimer at once can draw the same id (src/timer/TimerScheduler.cc:56-58), and a cancel posted before its add is not modelled.
- TimerScheduler.TimerScheduler.AddTimer: called off the loop thread, the source makes the timer at once and posts its insertion; here both happen when the posted task runs, until which nothing else can reach the timer.
- TcpConnection.TcpConnection.HandleClose: the close callback, which starts removal on the main loop, is in `TcpServer`, not in this contract.
- HttpConnection.AnswersReachTheWire: deliveries that the loop does not get through are excluded, for the code does not return from them; so are deliveries after a close, when the context is gone.
- TimerPromises.RunsWhenDue: speaks of the batches there are; how late the next one comes is up to the kernel's clock and poll.
- ByteBuffer.ExactCapacity: swap with another buffer is outside its runs; swap itself is specified, and prepends are in `CapacityBounds`.
- TcpServer is a state machine only: several loops sharing objects across threads have no sequential class form. Its connections carry state and registration; `Callbacks` joins their output streams to them, `Registration` their channels' masks.
- `send` from a foreign thread captures a raw pointer to the caller's bytes (src/net/TcpConnection.cc:236), and `shutdown` from one a raw `this` (src/net/TcpConnection.cc:300); only sends and shutdowns on the connection's own loop are modelled.
- `Registration` has the channels of connections only; those of the eventfd, the timerfd and the listening socket live as long as their loop and are not in it.
- `Channel::handler` dispatch order, `tie` and `revents_`: a turn may deliver any events of an active channel, in any order and number.
- `handleRead`'s read loop of a connection: its parts, readFd and onMessage, are modelled, its EAGAIN exit is not.
- Tasks queued on the loop thread before `loop()` starts, `quit()`, and the tasks left behind by it.
- Destructors of the server, the loops and the thread pool, and the number of disconnect callbacks.
- Growth of epoll's event array; an event not reported in one turn is reported in a later one.
- `Acceptor`, `Connector`, `TcpClient`, `Socket`, `InetAddress`, `ThreadPool`, round-robin choice of a loop, logging: thin wrappers, or only easy members.
