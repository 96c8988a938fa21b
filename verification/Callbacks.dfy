/** The connections of a server with their outgoing streams: what a stream counts as write-complete
    callbacks to come is what is queued for it on its loop. */
module Callbacks {
  import S = TcpServer
  import Out = OutputStream
  import Q = LoopQueues

  type Conn = Out.Conn<char>

  /** `streams[c]` is the output stream of connection c. */
  datatype World = World(server: S.Server, streams: map<nat, Conn>)

  /** A step of the server that no stream takes part in as a cause; or something that happens to a
      stream on loop `loop`: a call by the application, an EPOLLOUT, a close. */
  datatype Step = Move(st: S.Step) | Happens(loop: nat, conn: nat, e: Out.Event<char>)

  function Started(threads: nat): World { World(S.Started(threads), map[]) }

  // ---- What an event on a stream makes the server do --------------------------------------------

  // The writing loop ends on an error other than a full socket.
  predicate Fails(c: Conn, ws: seq<Out.WriteResult>)
    requires Out.LegalFlush(c, ws)
    decreases |ws|
  {
    c.output != [] &&
    match ws[0]
    case Wrote(n) => Fails(Out.Take(c, n), ws[1..])
    case WouldBlock => false
    case _ => true
  }

  // Does the event run handleClose?
  predicate Closes(c: Conn, e: Out.Event<char>)
    requires Out.Legal(c, e)
  {
    e.Close? || (e.WriteReady? && c.writing && Fails(c.(armed := false), e.ws))
  }

  function Sends(k: nat, c: nat, n: nat): seq<S.Step> {
    if n == 0 then [] else [S.Send(k, c)] + Sends(k, c, n - 1)
  }

  // A callback queued for every message written whole; then a shutdown; then a close.
  function Causes(v: Conn, e: Out.Event<char>, k: nat, c: nat): seq<S.Step>
    requires Out.Legal(v, e)
  {
    var r := Out.Step(v, e);
    Sends(k, c, if r.completions >= v.completions then r.completions - v.completions else 0)
    + (if v.state == Out.Connected && r.state == Out.Disconnecting then [S.Shutdown(k, c)] else [])
    + (if Closes(v, e) then [S.HandleClose(k)] else [])
  }

  // What a step of the server makes the streams do.
  function StreamsAfter(w: World, st: S.Step): map<nat, Conn>
    requires S.Legal(w.server, st)
  {
    match st
    case Accept(c, _, home) =>
      w.streams[c := if home == 0 then Out.NewConn().(state := Out.Connected) else Out.NewConn()]
    case RunTask(k) =>
      var t := w.server.loops[k].batch[w.server.loops[k].pos];
      if t.conn in w.streams then w.streams[t.conn := TaskStep(w.streams[t.conn], t)] else w.streams
    case _ => w.streams
  }

  function TaskStep(v: Conn, t: S.Task): Conn {
    match t
    case Establish(_) => Stepped(v, Out.Established)
    case Destroy(_) => Stepped(v, Out.Destroyed)
    case Completion(_) => Stepped(v, Out.WriteComplete([]))
    case Remove(_) => v
  }

  function Stepped(v: Conn, e: Out.Event<char>): Conn { if Out.Legal(v, e) then Out.Step(v, e) else v }

  // The application's calls are made while the loop handles events or runs tasks, the others come to
  // the active channel whose turn it is.
  predicate Possible(w: World, step: Step) {
    match step
    case Move(st) => S.Legal(w.server, st) && !st.Send? && !st.Shutdown? && !st.HandleClose?
    case Happens(k, c, e) =>
      && k < |w.server.loops| && S.Resident(w.server, k, c) && c in w.streams && Out.Legal(w.streams[c], e)
      && (e.Application? || e.WriteReady? || e.Close?)
      && S.Acting(w.server.loops[k])
      && (!e.Application? ==>
            && S.Free(w.server, k) && w.server.loops[k].phase == S.Dispatching
            && w.server.loops[k].at < |w.server.loops[k].active|
            && w.server.loops[k].active[w.server.loops[k].at] == c)
  }

  predicate Legal(w: World, step: Step) {
    && Possible(w, step)
    && (step.Happens? ==> S.LegalRun(w.server, Causes(w.streams[step.conn], step.e, step.loop, step.conn)))
  }

  function Next(w: World, step: Step): World
    requires Legal(w, step)
  {
    match step
    case Move(st) => World(S.Next(w.server, st), StreamsAfter(w, st))
    case Happens(k, c, e) =>
      World(S.Run(w.server, Causes(w.streams[c], e, k, c)), w.streams[c := Out.Step(w.streams[c], e)])
  }

  predicate LegalRun(w: World, steps: seq<Step>)
    decreases |steps|
  {
    steps == [] || (Legal(w, steps[0]) && LegalRun(Next(w, steps[0]), steps[1..]))
  }

  function Run(w: World, steps: seq<Step>): World
    requires LegalRun(w, steps)
    decreases |steps|
  {
    if steps == [] then w else Run(Next(w, steps[0]), steps[1..])
  }

  // ---- The invariant ----------------------------------------------------------------------------

  // Write-complete callbacks queued for connection c.
  function Queued(s: S.Server, c: nat): nat
    requires c in s.conns && s.conns[c].home < |s.loops|
  {
    multiset(S.Pending(s.loops[s.conns[c].home]))[S.Completion(c)]
  }

  ghost predicate Joined(s: S.Server, c: nat, v: Conn)
    requires c in s.conns && s.conns[c].home < |s.loops|
  {
    v.state == s.conns[c].state && v.completions == Queued(s, c) && Out.Inv(v)
  }

  ghost predicate Inv(w: World) {
    && S.Inv(w.server) && w.streams.Keys == w.server.conns.Keys
    && (forall c | c in w.streams :: w.server.conns[c].home < |w.server.loops| && Joined(w.server, c, w.streams[c]))
  }

  // ---- Counting ---------------------------------------------------------------------------------

  function Times(ts: seq<S.Task>, t: S.Task): nat { multiset(ts)[t] }

  lemma CountParts(a: seq<S.Task>, b: seq<S.Task>, c: seq<S.Task>, d: seq<S.Task>, t: S.Task)
    requires a + b == c + d
    ensures Times(a, t) + Times(b, t) == Times(c, t) + Times(d, t)
  {
    assert Times(a + b, t) == Times(a, t) + Times(b, t);
    assert Times(c + d, t) == Times(c, t) + Times(d, t);
  }

  // One step of the server: a callback more for a send, one less for a callback run.
  lemma StepCounts(s: S.Server, st: S.Step, c: nat)
    requires S.Inv(s) && S.Legal(s, st) && c in s.conns && s.conns[c].home < |s.loops|
    requires c in S.Next(s, st).conns && S.Next(s, st).conns[c].home == s.conns[c].home < |S.Next(s, st).loops|
    ensures Queued(S.Next(s, st), c) + Times(Q.RanBy(s, st, s.conns[c].home), S.Completion(c))
            == Queued(s, c) + Times(Q.PostedBy(s, st, s.conns[c].home), S.Completion(c))
  {
    var k := s.conns[c].home;
    S.LoopIsFine(s, k);
    Q.StepConserves(s, st, k);
    hide S.Inv, S.Legal, S.Next, Q.RanBy, Q.PostedBy, S.Pending;
    CountParts(Q.RanBy(s, st, k), S.Pending(S.Next(s, st).loops[k]), S.Pending(s.loops[k]), Q.PostedBy(s, st, k),
               S.Completion(c));
  }

  // ---- Steps that no stream causes --------------------------------------------------------------

  predicate Quiet(st: S.Step) { !st.Send? && !st.Shutdown? && !st.HandleClose? }

  // The task a step runs, if it is one of connection c.
  function TaskRun(s: S.Server, st: S.Step, c: nat): seq<S.Task>
    requires S.Legal(s, st)
  {
    if st.RunTask? && s.loops[st.loop].batch[s.loops[st.loop].pos].conn == c
    then [s.loops[st.loop].batch[s.loops[st.loop].pos]] else []
  }

  lemma MoveCounts(s: S.Server, st: S.Step, c: nat)
    requires S.Inv(s) && S.Legal(s, st) && Quiet(st) && c in s.conns && s.conns[c].home < |s.loops|
    requires c in S.Next(s, st).conns && S.Next(s, st).conns[c].home == s.conns[c].home < |S.Next(s, st).loops|
    ensures Queued(s, c) == Queued(S.Next(s, st), c) + Times(TaskRun(s, st, c), S.Completion(c))
  {
    hide S.Inv, S.Legal, S.Next, Queued, Times, TaskRun, Q.PostedBy, Q.RanBy, Quiet;
    StepCounts(s, st, c);
    QuietPosts(s, st, c);
    QuietRuns(s, st, c);
  }

  lemma QuietPosts(s: S.Server, st: S.Step, c: nat)
    requires S.Legal(s, st) && Quiet(st) && c in s.conns
    ensures Times(Q.PostedBy(s, st, s.conns[c].home), S.Completion(c)) == 0
  {
    hide S.Held, S.Resident, S.Free;
  }

  // A callback runs on its connection's loop.
  lemma QuietRuns(s: S.Server, st: S.Step, c: nat)
    requires S.Legal(s, st) && Quiet(st) && c in s.conns
    ensures Times(Q.RanBy(s, st, s.conns[c].home), S.Completion(c)) == Times(TaskRun(s, st, c), S.Completion(c))
  {
    hide S.Held, S.Resident, S.Free;
  }

  // What a quiet step does to the connections.
  lemma MoveConns(s: S.Server, st: S.Step)
    requires S.Legal(s, st) && Quiet(st)
    ensures var r := S.Next(s, st);
            && |r.loops| == |s.loops|
            && r.conns.Keys == s.conns.Keys + (if st.Accept? then {st.conn} else {})
            && (forall c | c in s.conns :: r.conns[c].home == s.conns[c].home)
            && (forall c | c in s.conns && TaskRun(s, st, c) == [] :: r.conns[c].state == s.conns[c].state)
            && (st.Accept? ==>
                  && st.conn !in s.conns && r.conns[st.conn].home == st.home < |s.loops|
                  && r.conns[st.conn].state == if st.home == 0 then Out.Connected else Out.Connecting)
  {
    hide S.Held, S.Ordered;
  }

  lemma TaskConns(s: S.Server, k: nat)
    requires S.Legal(s, S.RunTask(k))
    ensures var t, r := s.loops[k].batch[s.loops[k].pos], S.Next(s, S.RunTask(k));
            && t.conn in s.conns && t.conn in r.conns
            && r.conns[t.conn].state ==
                 if t.Establish? then Out.Connected
                 else if t.Destroy? then Out.Disconnected else s.conns[t.conn].state
  {
  }

  // A task finds its connection in the state that its stream's event asks for.
  lemma TaskState(s: S.Server, k: nat)
    requires S.Inv(s) && S.Legal(s, S.RunTask(k))
    ensures var t := s.loops[k].batch[s.loops[k].pos];
            && t.conn in s.conns
            && (t.Establish? ==> s.conns[t.conn].state == Out.Connecting)
            && (t.Destroy? ==> s.conns[t.conn].state == Out.Disconnected)
  {
    var t := s.loops[k].batch[s.loops[k].pos];
    S.AdvanceViews(s, k);
    hide S.Structure, S.FdsApart, S.Held;
    assert S.Consistent(S.ViewOf(s, t.conn));
  }

  // The stream of a task's connection: its event is one it is ready for.
  lemma TaskJoins(s: S.Server, r: S.Server, c: nat, v: Conn, t: S.Task)
    requires c in s.conns && c in r.conns && s.conns[c].home < |s.loops| && r.conns[c].home < |r.loops|
    requires Joined(s, c, v) && t.conn == c && Queued(s, c) == Queued(r, c) + Times([t], S.Completion(c))
    requires t.Establish? ==> s.conns[c].state == Out.Connecting
    requires t.Destroy? ==> s.conns[c].state == Out.Disconnected
    requires r.conns[c].state ==
               if t.Establish? then Out.Connected else if t.Destroy? then Out.Disconnected else s.conns[c].state
    ensures Joined(r, c, TaskStep(v, t))
  {
    hide Queued, Out.Inv;
    match t
    case Establish(_) => Out.StepKeeps(v, Out.Established);
    case Destroy(_) => Out.StepKeeps(v, Out.Destroyed);
    case Completion(_) => Out.StepKeeps(v, Out.WriteComplete([]));
    case Remove(_) =>
  }

  lemma NewJoins(w: World, c: nat, fd: nat, home: nat)
    requires Inv(w) && S.Legal(w.server, S.Accept(c, fd, home))
    requires c in S.Next(w.server, S.Accept(c, fd, home)).conns
    requires S.Next(w.server, S.Accept(c, fd, home)).conns[c].home == home < |w.server.loops|
    requires |S.Next(w.server, S.Accept(c, fd, home)).loops| == |w.server.loops|
    requires S.Next(w.server, S.Accept(c, fd, home)).conns[c].state
             == if home == 0 then Out.Connected else Out.Connecting
    ensures var st := S.Accept(c, fd, home);
            c in StreamsAfter(w, st) && Joined(S.Next(w.server, st), c, StreamsAfter(w, st)[c])
  {
    NewConnIsFine();
    NothingQueuedYet(w.server, c, fd, home);
    hide S.Inv, S.Next, S.Legal, Out.Inv;
  }

  lemma NewConnIsFine()
    ensures Out.Inv(Out.NewConn<char>()) && Out.Inv(Out.NewConn<char>().(state := Out.Connected))
  {
    assert Out.NewConn<char>().wire + Out.NewConn<char>().output == [];
    Out.StepKeeps(Out.NewConn<char>(), Out.Established);
  }

  lemma NothingQueuedYet(s: S.Server, c: nat, fd: nat, home: nat)
    requires S.Inv(s) && S.Legal(s, S.Accept(c, fd, home))
    requires c in S.Next(s, S.Accept(c, fd, home)).conns && S.Next(s, S.Accept(c, fd, home)).conns[c].home == home
    requires home < |s.loops| == |S.Next(s, S.Accept(c, fd, home)).loops|
    ensures Queued(S.Next(s, S.Accept(c, fd, home)), c) == 0
  {
    var st := S.Accept(c, fd, home);
    S.LoopIsFine(s, home);
    Q.StepConserves(s, st, home);
    if S.Queued(s, home, S.Completion(c)) {
      S.TaskIsKnown(s, home, S.Completion(c));
      FreshConn(s, c, fd, home);
    }
    AcceptPosts(s, c, fd, home);
    hide S.Inv, S.Legal, S.Next, Q.RanBy, Q.PostedBy, S.Pending;
    CountParts(Q.RanBy(s, st, home), S.Pending(S.Next(s, st).loops[home]), S.Pending(s.loops[home]),
               Q.PostedBy(s, st, home), S.Completion(c));
  }

  lemma FreshConn(s: S.Server, c: nat, fd: nat, home: nat)
    requires S.Legal(s, S.Accept(c, fd, home))
    ensures c !in s.conns
  {
  }

  lemma AcceptPosts(s: S.Server, c: nat, fd: nat, home: nat)
    requires S.Legal(s, S.Accept(c, fd, home))
    ensures Times(Q.PostedBy(s, S.Accept(c, fd, home), home), S.Completion(c)) == 0
  {
    hide S.Held;
  }

  lemma MoveKeeps(w: World, st: S.Step)
    requires Inv(w) && S.Legal(w.server, st) && Quiet(st)
    ensures Inv(World(S.Next(w.server, st), StreamsAfter(w, st)))
  {
    var s, r := w.server, S.Next(w.server, st);
    S.NextKeeps(s, st);
    MoveConns(s, st);
    SameStreams(w, st);
    forall c | c in r.conns ensures r.conns[c].home < |r.loops| && Joined(r, c, StreamsAfter(w, st)[c]) {
      if c !in s.conns {
        NewJoins(w, c, st.fd, st.home);
      } else {
        OldJoins(w, st, c);
      }
    }
    hide S.Legal, S.Next, S.Inv, StreamsAfter, Joined;
  }

  lemma OldJoins(w: World, st: S.Step, c: nat)
    requires Inv(w) && S.Legal(w.server, st) && Quiet(st) && c in w.server.conns
    ensures var r := S.Next(w.server, st);
            && c in r.conns && r.conns[c].home < |r.loops|
            && c in StreamsAfter(w, st) && Joined(r, c, StreamsAfter(w, st)[c])
  {
    hide S.Inv, S.Legal, S.Next, Queued, Joined, TaskStep;
    var s, r := w.server, S.Next(w.server, st);
    MoveConns(s, st);
    MoveCounts(s, st, c);
    StreamOf(w, st, c);
    if TaskRun(s, st, c) == [] {
      StaysJoined(s, r, c, w.streams[c]);
    } else {
      TaskState(s, st.loop);
      TaskConns(s, st.loop);
      TaskJoins(s, r, c, w.streams[c], TaskRun(s, st, c)[0]);
    }
  }

  lemma StreamOf(w: World, st: S.Step, c: nat)
    requires S.Legal(w.server, st) && Quiet(st) && c in w.streams && (st.Accept? ==> st.conn != c)
    ensures c in StreamsAfter(w, st)
    ensures StreamsAfter(w, st)[c] ==
              if TaskRun(w.server, st, c) == [] then w.streams[c]
              else TaskStep(w.streams[c], TaskRun(w.server, st, c)[0])
  {
    hide S.Held, TaskStep;
  }

  lemma StaysJoined(s: S.Server, r: S.Server, c: nat, v: Conn)
    requires c in s.conns && c in r.conns && s.conns[c].home < |s.loops| && r.conns[c].home < |r.loops|
    requires Joined(s, c, v) && Queued(r, c) == Queued(s, c) && r.conns[c].state == s.conns[c].state
    ensures Joined(r, c, v)
  {
  }

  lemma SameStreams(w: World, st: S.Step)
    requires S.Legal(w.server, st)
    ensures StreamsAfter(w, st).Keys == w.streams.Keys + (if st.Accept? then {st.conn} else {})
  {
    hide S.Legal, Out.Step, Out.Legal;
  }

  // ---- Events on a stream -----------------------------------------------------------------------

  // Whatever application code does, callbacks are queued only while the connection is open for sending.
  lemma {:induction false} ActsShape(v: Conn, acts: seq<Out.Act<char>>)
    requires Out.LegalActs(v, acts)
    ensures var r := Out.PerformAll(v, acts);
            && v.completions <= r.completions && (v.completions < r.completions ==> v.state == Out.Connected)
            && (r.state == v.state || (v.state == Out.Connected && r.state == Out.Disconnecting))
    decreases |acts|
  {
    if acts != [] {
      ActShape(v, acts[0]);
      hide Out.Perform, Out.LegalAct;
      ActsShape(Out.Perform(v, acts[0]), acts[1..]);
    }
  }

  lemma ActShape(v: Conn, act: Out.Act<char>)
    requires Out.LegalAct(v, act)
    ensures var r := Out.Perform(v, act);
            && v.completions <= r.completions && (v.completions < r.completions ==> v.state == Out.Connected)
            && (r.state == v.state || (v.state == Out.Connected && r.state == Out.Disconnecting))
  {
  }

  lemma {:induction false} FlushShape(v: Conn, ws: seq<Out.WriteResult>)
    requires Out.LegalFlush(v, ws)
    ensures var f := Out.Flush(v, ws);
            && f.completions == v.completions
            && (if Fails(v, ws) then f.output != [] && f.state == Out.Disconnected else f.state == v.state)
    decreases |ws|
  {
    if v.output != [] && ws[0].Wrote? {
      FlushShape(Out.Take(v, ws[0].n), ws[1..]);
    }
  }

  /** What an event leaves of a stream: more callbacks only from an open connection, and it is closed
      exactly when handleClose runs. */
  lemma EventShape(v: Conn, e: Out.Event<char>)
    requires Out.Legal(v, e) && (e.Application? || e.WriteReady? || e.Close?)
    ensures var r := Out.Step(v, e);
            && v.completions <= r.completions && (v.completions < r.completions ==> v.state == Out.Connected)
            && (if Closes(v, e) then r.state == Out.Disconnected && r.completions == v.completions
                else r.state == v.state || (v.state == Out.Connected && r.state == Out.Disconnecting))
  {
    hide Out.PerformAll, Out.LegalActs, Out.Flush, Out.LegalFlush, Fails;
    match e
    case Application(act) => ActShape(v, act);
    case WriteReady(ws, callback) =>
      if v.writing {
        FlushShape(v.(armed := false), ws);
        var f := Out.Flush(v.(armed := false), ws);
        if f.output == [] {
          ActsShape(Out.DisableWrite(f), callback);
        }
      }
    case _ =>
  }

  // ---- The server steps an event causes ---------------------------------------------------------

  /** Loop `k` is where it was, and c's connection is as it was except for its state. */
  predicate SameTurn(s: S.Server, r: S.Server, k: nat, c: nat) {
    && |r.loops| == |s.loops| && r.accepting == s.accepting && r.conns.Keys == s.conns.Keys
    && k < |s.loops| && r.loops[k].phase == s.loops[k].phase && r.loops[k].pos == s.loops[k].pos
    && r.loops[k].active == s.loops[k].active && r.loops[k].at == s.loops[k].at
    && (forall d | d in s.conns :: r.conns[d].home == s.conns[d].home && (d != c ==> r.conns[d] == s.conns[d]))
  }

  predicate Homes(s: S.Server) { forall c | c in s.conns :: s.conns[c].home < |s.loops| }

  // `n` more callbacks for c, and no other change in what is queued.
  predicate More(s: S.Server, r: S.Server, c: nat, n: nat)
    requires Homes(s) && Homes(r) && r.conns.Keys == s.conns.Keys
  {
    forall d | d in s.conns :: Queued(r, d) == Queued(s, d) + if d == c then n else 0
  }

  lemma HomesKnown(s: S.Server)
    requires S.Inv(s)
    ensures Homes(s)
  {
  }

  lemma SendConns(s: S.Server, k: nat, c: nat)
    requires S.Legal(s, S.Send(k, c))
    ensures var r := S.Next(s, S.Send(k, c)); r.conns == s.conns && SameTurn(s, r, k, c)
  {
  }

  lemma SendPostsOne(s: S.Server, k: nat, c: nat, d: nat)
    requires S.Legal(s, S.Send(k, c)) && d in s.conns
    ensures var st, home := S.Send(k, c), s.conns[d].home;
            && Times(Q.PostedBy(s, st, home), S.Completion(d)) == (if d == c then 1 else 0)
            && Times(Q.RanBy(s, st, home), S.Completion(d)) == 0
  {
  }

  lemma SendEffect(s: S.Server, k: nat, c: nat)
    requires S.Inv(s) && S.Legal(s, S.Send(k, c))
    ensures var r := S.Next(s, S.Send(k, c));
            && r.conns == s.conns && SameTurn(s, r, k, c) && Homes(s) && Homes(r) && More(s, r, c, 1)
  {
    hide S.Inv, S.Legal, S.Next, Queued, Q.PostedBy, Q.RanBy, Times;
    HomesKnown(s);
    SendConns(s, k, c);
    var r := S.Next(s, S.Send(k, c));
    forall d | d in s.conns ensures Queued(r, d) == Queued(s, d) + if d == c then 1 else 0 {
      StepCounts(s, S.Send(k, c), d);
      SendPostsOne(s, k, c, d);
    }
  }

  lemma {:induction false} SendsRun(s: S.Server, k: nat, c: nat, n: nat)
    requires S.Inv(s) && k < |s.loops| && S.Acting(s.loops[k]) && S.Resident(s, k, c)
    requires n > 0 ==> s.conns[c].state == Out.Connected
    ensures S.LegalRun(s, Sends(k, c, n))
    ensures var r := S.Run(s, Sends(k, c, n));
            && S.Inv(r) && r.conns == s.conns && SameTurn(s, r, k, c)
            && Homes(s) && Homes(r) && More(s, r, c, n)
    decreases n
  {
    hide S.Inv, S.Legal, S.Next, Queued;
    HomesKnown(s);
    if n > 0 {
      var st := S.Send(k, c);
      SendIsLegal(s, k, c);
      SendEffect(s, k, c);
      S.NextKeeps(s, st);
      assert Sends(k, c, n)[0] == st && Sends(k, c, n)[1..] == Sends(k, c, n - 1);
      SendsRun(S.Next(s, st), k, c, n - 1);
    }
  }

  lemma SendIsLegal(s: S.Server, k: nat, c: nat)
    requires k < |s.loops| && S.Acting(s.loops[k]) && S.Resident(s, k, c) && s.conns[c].state == Out.Connected
    ensures S.Legal(s, S.Send(k, c)) && S.Legal(s, S.Shutdown(k, c))
  {
  }

  lemma {:induction false} RunOne(s: S.Server, st: S.Step)
    requires S.Legal(s, st)
    ensures S.LegalRun(s, [st]) && S.Run(s, [st]) == S.Next(s, st)
  {
    assert [st][1..] == [];
  }

  lemma {:induction false} RunAppend(s: S.Server, a: seq<S.Step>, b: seq<S.Step>)
    requires S.LegalRun(s, a) && S.LegalRun(S.Run(s, a), b)
    ensures S.LegalRun(s, a + b) && S.Run(s, a + b) == S.Run(S.Run(s, a), b)
    decreases |a|
  {
    hide S.Legal, S.Next;
    if a == [] {
      assert a + b == b;
    } else {
      RunAppend(S.Next(s, a[0]), a[1..], b);
      assert (a + b)[0] == a[0] && (a + b)[1..] == a[1..] + b;
    }
  }

  lemma ShutdownConns(s: S.Server, k: nat, c: nat)
    requires S.Legal(s, S.Shutdown(k, c))
    ensures var r := S.Next(s, S.Shutdown(k, c));
            r.loops == s.loops && SameTurn(s, r, k, c) && c in s.conns && r.conns[c].state == Out.Disconnecting
  {
  }

  lemma ShutdownEffect(s: S.Server, k: nat, c: nat)
    requires S.Inv(s) && S.Legal(s, S.Shutdown(k, c))
    ensures var r := S.Next(s, S.Shutdown(k, c));
            && SameTurn(s, r, k, c) && c in s.conns && r.conns[c].state == Out.Disconnecting
            && Homes(s) && Homes(r) && More(s, r, c, 0)
  {
    hide S.Inv, S.Legal, S.Next;
    HomesKnown(s);
    ShutdownConns(s, k, c);
  }

  lemma CloseEffect(s: S.Server, k: nat, c: nat)
    requires S.Inv(s) && S.Legal(s, S.HandleClose(k))
    requires k < |s.loops| && s.loops[k].at < |s.loops[k].active| && s.loops[k].active[s.loops[k].at] == c
    ensures var r := S.Next(s, S.HandleClose(k));
            && |r.loops| == |s.loops| && r.conns.Keys == s.conns.Keys && c in s.conns
            && (forall d | d in s.conns :: r.conns[d].home == s.conns[d].home && (d != c ==> r.conns[d] == s.conns[d]))
            && r.conns[c].state == Out.Disconnected && Homes(s) && Homes(r) && More(s, r, c, 0)
  {
    hide S.Inv, S.Legal, S.Next, Queued, Q.PostedBy, Q.RanBy, Times;
    HomesKnown(s);
    var st := S.HandleClose(k);
    var r := S.Next(s, st);
    CloseConns(s, k);
    forall d | d in s.conns ensures Queued(r, d) == Queued(s, d) {
      StepCounts(s, st, d);
      ClosePostsNone(s, k, d);
    }
  }

  lemma CloseConns(s: S.Server, k: nat)
    requires S.Legal(s, S.HandleClose(k))
    ensures var r, c := S.Next(s, S.HandleClose(k)), s.loops[k].active[s.loops[k].at];
            && |r.loops| == |s.loops| && c in s.conns
            && r.conns == s.conns[c := s.conns[c].(state := Out.Disconnected)]
  {
  }

  lemma ClosePostsNone(s: S.Server, k: nat, d: nat)
    requires S.Legal(s, S.HandleClose(k)) && d in s.conns
    ensures var st, home := S.HandleClose(k), s.conns[d].home;
            && Times(Q.PostedBy(s, st, home), S.Completion(d)) == 0
            && Times(Q.RanBy(s, st, home), S.Completion(d)) == 0
  {
  }

  /** The server steps an event causes can be taken, and keep the stream and the queue in step. */
  lemma CausesRun(w: World, k: nat, c: nat, e: Out.Event<char>)
    requires Inv(w) && Possible(w, Happens(k, c, e))
    ensures var v := w.streams[c];
            var sts, r := Causes(v, e, k, c), Out.Step(v, e);
            && r.completions >= v.completions
            && S.LegalRun(w.server, sts)
            && Led(w.server, S.Run(w.server, sts), c, r.completions - v.completions, r.state)
  {
    hide Inv, Possible, Causes, Out.Step, Out.Legal, S.Inv, Closes, Sends, S.Free, S.Resident, S.LegalRun, S.Run, Led;
    hide SameTurn, More, Homes;
    PossibleParts(w, k, c, e);
    var s, v := w.server, w.streams[c];
    EventShape(v, e);
    CausesAre(v, e, k, c);
    var r := Out.Step(v, e);
    var n := r.completions - v.completions;
    SendsRun(s, k, c, n);
    var a := Sends(k, c, n);
    if Closes(v, e) {
      ThenClose(s, k, c, a, n);
    } else if r.state != v.state {
      ThenShutdown(s, k, c, a, n);
    } else {
      assert a + [] == a;
      ThenNothing(s, k, c, a, n);
    }
  }

  lemma {:induction false} ThenNothing(s: S.Server, k: nat, c: nat, a: seq<S.Step>, n: nat)
    requires S.LegalRun(s, a) && S.Resident(s, k, c)
    requires var s1 := S.Run(s, a);
             S.Inv(s1) && s1.conns == s.conns && SameTurn(s, s1, k, c) && Homes(s) && Homes(s1) && More(s, s1, c, n)
    ensures Led(s, S.Run(s, a), c, n, s.conns[c].state)
  {
    hide S.LegalRun, S.Run, S.Inv, Queued;
  }

  // Where the server is led: `n` callbacks more for c, whose state is now `state`.
  predicate Led(s: S.Server, t: S.Server, c: nat, n: nat, state: Out.StateE) {
    && S.Inv(t) && t.conns.Keys == s.conns.Keys && Homes(s) && Homes(t)
    && (forall d | d in s.conns :: t.conns[d].home == s.conns[d].home && (d != c ==> t.conns[d] == s.conns[d]))
    && More(s, t, c, n)
    && c in s.conns && t.conns[c].state == state
  }

  lemma PossibleParts(w: World, k: nat, c: nat, e: Out.Event<char>)
    requires Inv(w) && Possible(w, Happens(k, c, e))
    ensures var s := w.server;
            && S.Inv(s) && k < |s.loops| && S.Resident(s, k, c) && S.Acting(s.loops[k])
            && c in w.streams && c in s.conns && s.conns[c].state == w.streams[c].state && Out.Inv(w.streams[c])
            && Out.Legal(w.streams[c], e) && (e.Application? || e.WriteReady? || e.Close?)
            && (Closes(w.streams[c], e) ==>
                  && S.Free(s, k) && s.loops[k].phase == S.Dispatching
                  && s.loops[k].at < |s.loops[k].active| && s.loops[k].active[s.loops[k].at] == c)
  {
    hide S.Inv, S.Free, Out.Inv, Out.Legal, Fails;
    assert Joined(w.server, c, w.streams[c]);
  }

  lemma {:induction false} CausesAre(v: Conn, e: Out.Event<char>, k: nat, c: nat)
    requires Out.Legal(v, e) && (e.Application? || e.WriteReady? || e.Close?)
    ensures var r := Out.Step(v, e);
            && r.completions >= v.completions
            && Causes(v, e, k, c) ==
                 Sends(k, c, r.completions - v.completions)
                 + if Closes(v, e) then [S.HandleClose(k)] else if r.state != v.state then [S.Shutdown(k, c)] else []
  {
    EventShape(v, e);
    hide Out.Step, Out.Legal, Closes, Sends;
  }

  lemma {:induction false} ThenClose(s: S.Server, k: nat, c: nat, a: seq<S.Step>, n: nat)
    requires S.LegalRun(s, a) && k < |s.loops| && S.Resident(s, k, c)
    requires S.Free(s, k) && s.loops[k].phase == S.Dispatching
    requires s.loops[k].at < |s.loops[k].active| && s.loops[k].active[s.loops[k].at] == c
    requires var s1 := S.Run(s, a);
             S.Inv(s1) && s1.conns == s.conns && SameTurn(s, s1, k, c) && Homes(s) && Homes(s1) && More(s, s1, c, n)
    ensures var sts := a + [S.HandleClose(k)];
            S.LegalRun(s, sts) && Led(s, S.Run(s, sts), c, n, Out.Disconnected)
  {
    hide S.LegalRun, S.Run, S.Inv, S.Legal, S.Next, Queued;
    var st, s1 := S.HandleClose(k), S.Run(s, a);
    CloseIsLegal(s1, k, c);
    CloseEffect(s1, k, c);
    S.NextKeeps(s1, st);
    RunOne(s1, st);
    RunAppend(s, a, [st]);
  }

  lemma CloseIsLegal(s: S.Server, k: nat, c: nat)
    requires k < |s.loops| && S.Resident(s, k, c) && S.Free(s, k) && s.loops[k].phase == S.Dispatching
    requires s.loops[k].at < |s.loops[k].active| && s.loops[k].active[s.loops[k].at] == c
    ensures S.Legal(s, S.HandleClose(k))
  {
  }

  lemma {:induction false} ThenShutdown(s: S.Server, k: nat, c: nat, a: seq<S.Step>, n: nat)
    requires S.LegalRun(s, a) && k < |s.loops| && S.Resident(s, k, c) && S.Acting(s.loops[k])
    requires s.conns[c].state == Out.Connected
    requires var s1 := S.Run(s, a);
             S.Inv(s1) && s1.conns == s.conns && SameTurn(s, s1, k, c) && Homes(s) && Homes(s1) && More(s, s1, c, n)
    ensures var sts := a + [S.Shutdown(k, c)];
            S.LegalRun(s, sts) && Led(s, S.Run(s, sts), c, n, Out.Disconnecting)
  {
    hide S.LegalRun, S.Run, S.Inv, S.Legal, S.Next, Queued;
    var st, s1 := S.Shutdown(k, c), S.Run(s, a);
    SendIsLegal(s1, k, c);
    ShutdownEffect(s1, k, c);
    S.NextKeeps(s1, st);
    RunOne(s1, st);
    RunAppend(s, a, [st]);
  }

  lemma HappensKeeps(w: World, k: nat, c: nat, e: Out.Event<char>)
    requires Inv(w) && Possible(w, Happens(k, c, e))
    ensures Legal(w, Happens(k, c, e)) && Inv(Next(w, Happens(k, c, e)))
  {
    hide Possible, Causes, Out.Step, Out.Legal, Out.Inv, S.LegalRun, S.Run, S.Inv, Queued;
    PossibleParts(w, k, c, e);
    var v := w.streams[c];
    Out.StepKeeps(v, e);
    CausesRun(w, k, c, e);
    var r := Next(w, Happens(k, c, e));
    StillJoined(w, r.server, c, Out.Step(v, e));
  }

  lemma StillJoined(w: World, t: S.Server, c: nat, r: Conn)
    requires Inv(w) && c in w.streams && Out.Inv(r) && r.completions >= w.streams[c].completions
    requires Led(w.server, t, c, r.completions - w.streams[c].completions, r.state)
    ensures Inv(World(t, w.streams[c := r]))
  {
    hide S.Inv, Queued, Out.Inv;
    forall d | d in t.conns ensures t.conns[d].home < |t.loops| && Joined(t, d, w.streams[c := r][d]) {
      assert Joined(w.server, d, w.streams[d]);
    }
  }

  /** Every event and every step keeps streams, connections and queues in step, and what an event makes
      the server do can always be done. */
  lemma NextKeeps(w: World, step: Step)
    requires Inv(w) && Possible(w, step)
    ensures Legal(w, step) && Inv(Next(w, step))
  {
    hide Inv, S.LegalRun, S.Run, S.Legal, S.Next, StreamsAfter, Causes, Out.Step, Out.Legal;
    match step
    case Move(st) => MoveKeeps(w, st);
    case Happens(k, c, e) => HappensKeeps(w, k, c, e);
  }

  lemma {:induction false} RunKeeps(w: World, steps: seq<Step>)
    requires Inv(w) && LegalRun(w, steps)
    ensures Inv(Run(w, steps))
    decreases |steps|
  {
    hide Inv, Possible, Next;
    if steps != [] {
      NextKeeps(w, steps[0]);
      RunKeeps(Next(w, steps[0]), steps[1..]);
    }
  }

  lemma StartedIsFine(threads: nat)
    ensures Inv(Started(threads))
  {
    S.StartedIsFine(threads);
  }

  // ---- The theorems -----------------------------------------------------------------------------

  /** Over all runs of a server and its streams: a stream's count of callbacks to come is the number of
      write-complete callbacks pending for its connection on its loop; both see the same state; and the
      stream keeps all that is proved of a stream by itself. */
  lemma {:induction false} CallbacksArePending(threads: nat, steps: seq<Step>, c: nat)
    requires LegalRun(Started(threads), steps) && c in Run(Started(threads), steps).streams
    ensures var w := Run(Started(threads), steps);
            && c in w.server.conns && w.server.conns[c].home < |w.server.loops|
            && w.streams[c].completions
               == multiset(S.Pending(w.server.loops[w.server.conns[c].home]))[S.Completion(c)]
            && w.streams[c].state == w.server.conns[c].state && Out.Inv(w.streams[c])
  {
    StartedIsFine(threads);
    RunKeeps(Started(threads), steps);
    var w := Run(Started(threads), steps);
    assert Joined(w.server, c, w.streams[c]);
  }

  /** A stream with a callback to come belongs to a connection that the server keeps alive. */
  lemma {:induction false} CallbackFindsConnection(threads: nat, steps: seq<Step>, c: nat)
    requires LegalRun(Started(threads), steps) && c in Run(Started(threads), steps).streams
    requires Run(Started(threads), steps).streams[c].completions > 0
    ensures var s := Run(Started(threads), steps).server;
            c in s.conns && s.conns[c].registered && S.HeldByServer(s, c)
  {
    StartedIsFine(threads);
    RunKeeps(Started(threads), steps);
    var w := Run(Started(threads), steps);
    assert Joined(w.server, c, w.streams[c]);
    var s, home := w.server, w.server.conns[c].home;
    assert S.Completion(c) in multiset(S.Pending(s.loops[home]));
    assert S.Queued(s, home, S.Completion(c));
    S.ChannelIsHeld(s, c);
  }
}
