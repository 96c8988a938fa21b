/** Ownership of connections across loops: acceptance on the main loop, events on an I/O loop, and
    the teardown that hops I/O loop, main loop, I/O loop, over all interleavings of their threads. */
module TcpServer {
  import opened Optional
  import opened OutputStream

  /** A queued closure. The first three hold a shared_ptr to the connection; Completion only a raw
      pointer. */
  datatype Task = Establish(conn: nat) | Remove(conn: nat) | Destroy(conn: nat) | Completion(conn: nat)

  datatype Phase = Polling | Dispatching | Running

  /** One event loop: its queue, the batch of doPendingFunctors with the number of tasks already run,
      and the active channels of this turn with the one being handled. */
  datatype LoopState = LoopState(
    phase: Phase, queue: seq<Task>, batch: seq<Task>, pos: nat, active: seq<nat>, at: nat)

  /** A connection object, ever created: its socket, its loop, its state, and whether its channel is
      known to that loop's poller. */
  datatype Connection = Connection(fd: nat, home: nat, state: StateE, registered: bool)

  /** Loop 0 is the main loop; `accepting` is the connection onNewConnection is busy with, and
      `userHeld` those the application keeps a shared_ptr to. */
  datatype Server = Server(
    loops: seq<LoopState>, conns: map<nat, Connection>, connections: map<nat, nat>,
    accepting: Option<nat>, userHeld: set<nat>)

  const IDLE_LOOP := LoopState(Polling, [], [], 0, [], 0)

  function Started(threads: nat): Server {
    Server(seq(threads + 1, _ => IDLE_LOOP), map[], map[], None, {})
  }

  // ---- Who keeps a connection alive -------------------------------------------------------------------

  function Holders(tasks: seq<Task>): set<nat> {
    set i | 0 <= i < |tasks| && !tasks[i].Completion? :: tasks[i].conn
  }

  // The batch vector lives until doPendingFunctors returns, tasks already run included.
  predicate HeldByTask(s: Server, c: nat) {
    exists k | 0 <= k < |s.loops| :: c in Holders(s.loops[k].batch) || c in Holders(s.loops[k].queue)
  }

  predicate Stored(s: Server, c: nat) {
    && c in s.conns
    && (s.accepting == Some(c)
        || (s.conns[c].fd in s.connections && s.connections[s.conns[c].fd] == c))
  }

  predicate HeldByServer(s: Server, c: nat) { Stored(s, c) || HeldByTask(s, c) }

  // While this is false no shared_ptr to the connection exists: its destructor has run.
  predicate Held(s: Server, c: nat) { HeldByServer(s, c) || c in s.userHeld }

  // ---- The steps ----------------------------------------------------------------------------------------

  datatype Step =
    | Accept(conn: nat, fd: nat, home: nat)
    | Store
    | Poll(loop: nat, ready: seq<nat>)
    | HandleClose(loop: nat)
    | NextChannel(loop: nat)
    | Send(loop: nat, conn: nat)
    | Shutdown(loop: nat, conn: nat)
    | Swap(loop: nat)
    | RunTask(loop: nat)
    | Finish(loop: nat)
    | UserTake(conn: nat)
    | UserDrop(conn: nat)

  // Loop `k` may move: inside onNewConnection the main loop does nothing else, though the connection
  // callback it makes may send and shut down.
  predicate Free(s: Server, k: nat) { k < |s.loops| && (k == 0 ==> s.accepting == None) }

  // Code of the application runs inside a handler or a task.
  predicate Acting(l: LoopState) { l.phase == Dispatching || (l.phase == Running && 0 < l.pos) }

  predicate Resident(s: Server, k: nat, c: nat) { c in s.conns && s.conns[c].home == k }

  // Remove tasks run on the main loop, the others on the connection's own.
  predicate WellAimed(s: Server, k: nat, t: Task) {
    t.conn in s.conns && s.conns[t.conn].home < |s.loops|
    && (if t.Remove? then k == 0 else s.conns[t.conn].home == k)
  }

  predicate Legal(s: Server, st: Step) {
    match st
    case Accept(c, fd, home) =>
      && Free(s, 0) && s.loops[0].phase == Dispatching && home < |s.loops|
      && c !in s.conns && (forall d | d in s.conns :: Held(s, d) ==> s.conns[d].fd != fd)
    case Store => s.accepting.Some? && s.accepting.value in s.conns
    case Poll(k, ready) =>
      && Free(s, k) && s.loops[k].phase == Polling
      && (forall c | c in ready :: Resident(s, k, c) && s.conns[c].registered)
    case HandleClose(k) =>
      && Free(s, k) && s.loops[k].phase == Dispatching && s.loops[k].at < |s.loops[k].active|
      && Resident(s, k, s.loops[k].active[s.loops[k].at])
    case NextChannel(k) => Free(s, k) && s.loops[k].phase == Dispatching && s.loops[k].at < |s.loops[k].active|
    case Send(k, c) =>
      k < |s.loops| && Acting(s.loops[k]) && Resident(s, k, c) && s.conns[c].state == Connected
    case Shutdown(k, c) =>
      k < |s.loops| && Acting(s.loops[k]) && Resident(s, k, c) && s.conns[c].state == Connected
    case Swap(k) => Free(s, k) && s.loops[k].phase == Dispatching && s.loops[k].at == |s.loops[k].active|
    case RunTask(k) =>
      && Free(s, k) && s.loops[k].phase == Running && s.loops[k].pos < |s.loops[k].batch|
      && WellAimed(s, k, s.loops[k].batch[s.loops[k].pos])
    case Finish(k) => Free(s, k) && s.loops[k].phase == Running && s.loops[k].pos == |s.loops[k].batch|
    case UserTake(c) => c in s.conns && Held(s, c)
    case UserDrop(c) => true
  }

  function With(s: Server, k: nat, l: LoopState): Server
    requires k < |s.loops|
  {
    s.(loops := s.loops[k := l])
  }

  function Post(s: Server, k: nat, t: Task): Server
    requires k < |s.loops|
  {
    With(s, k, s.loops[k].(queue := s.loops[k].queue + [t]))
  }

  function SetConn(s: Server, c: nat, v: Connection): Server { s.(conns := s.conns[c := v]) }

  function ConnectionEstablished(s: Server, c: nat): Server
    requires c in s.conns
  {
    SetConn(s, c, s.conns[c].(state := Connected, registered := true))
  }

  function ConnectionDestroyed(s: Server, c: nat): Server
    requires c in s.conns
  {
    SetConn(s, c, s.conns[c].(state := Disconnected, registered := false))
  }

  function Erased(s: Server, c: nat): Server
    requires c in s.conns
  {
    s.(connections := s.connections - {s.conns[c].fd})
  }

  // removeConnectionInLoop, on the main loop.
  function RemoveInLoop(s: Server, c: nat): Server
    requires c in s.conns && s.conns[c].home < |s.loops|
  {
    Post(Erased(s, c), s.conns[c].home, Destroy(c))
  }

  // handleClose on loop `k`: runInLoop on the main loop is immediate when `k` is the main loop.
  function Closed(s: Server, k: nat, c: nat): Server
    requires c in s.conns && k < |s.loops| && s.conns[c].home == k
  {
    var s' := SetConn(s, c, s.conns[c].(state := Disconnected));
    if k == 0 then RemoveInLoop(s', c) else Post(s', 0, Remove(c))
  }

  function Executed(s: Server, t: Task): Server
    requires t.conn in s.conns && s.conns[t.conn].home < |s.loops|
  {
    match t
    case Establish(c) => ConnectionEstablished(s, c)
    case Remove(c) => RemoveInLoop(s, c)
    case Destroy(c) => ConnectionDestroyed(s, c)
    case Completion(_) => s
  }

  function Next(s: Server, st: Step): Server
    requires Legal(s, st)
  {
    match st
    case Accept(c, fd, home) =>
      var s' := SetConn(s, c, Connection(fd, home, Connecting, false)).(accepting := Some(c));
      if home == 0 then ConnectionEstablished(s', c) else Post(s', home, Establish(c))
    case Store =>
      var c := s.accepting.value;
      s.(connections := s.connections[s.conns[c].fd := c], accepting := None)
    case Poll(k, ready) => With(s, k, s.loops[k].(phase := Dispatching, active := ready, at := 0))
    case HandleClose(k) => Closed(s, k, s.loops[k].active[s.loops[k].at])
    case NextChannel(k) => With(s, k, s.loops[k].(at := s.loops[k].at + 1))
    case Send(k, c) => Post(s, k, Completion(c))
    case Shutdown(k, c) => SetConn(s, c, s.conns[c].(state := Disconnecting))
    case Swap(k) =>
      With(s, k, s.loops[k].(phase := Running, batch := s.loops[k].queue, queue := [], pos := 0, active := [], at := 0))
    case RunTask(k) =>
      var t := s.loops[k].batch[s.loops[k].pos];
      Executed(With(s, k, s.loops[k].(pos := s.loops[k].pos + 1)), t)
    case Finish(k) => With(s, k, s.loops[k].(phase := Polling, batch := [], pos := 0))
    case UserTake(c) => s.(userHeld := s.userHeld + {c})
    case UserDrop(c) => s.(userHeld := s.userHeld - {c})
  }

  // ---- The invariant --------------------------------------------------------------------------------------

  // The tasks of a loop still to run, in order.
  function Pending(l: LoopState): seq<Task> {
    (if l.pos <= |l.batch| then l.batch[l.pos..] else []) + l.queue
  }

  /** One connection as the invariant sees it: its state against the tasks still to run for it, to
      establish (e), remove (r), destroy (d) or report a completed write (w); whether connections_ has
      it; and whether its channel is among the active ones of this turn (a). */
  datatype View = View(state: StateE, registered: bool, stored: bool, e: bool, r: bool, d: bool, w: bool, a: bool)

  predicate Consistent(v: View) {
    && (v.state == Connecting ==> v.e && !v.registered && v.stored && !v.r && !v.d && !v.w && !v.a)
    && (v.state == Connected || v.state == Disconnecting ==> v.registered && v.stored && !v.r && !v.d)
    && (v.state == Disconnected && v.registered ==> v.r || v.d)
    && (v.state == Disconnected && !v.registered ==> !v.stored && !v.w && !v.a)
    && (v.e ==> v.state == Connecting)
    && (v.r ==> v.state == Disconnected)
    && (v.d ==> v.state == Disconnected && !v.stored)
    && (v.w || v.a ==> v.registered)
  }

  function ViewOf(s: Server, c: nat): View
    requires c in s.conns && s.conns[c].home < |s.loops|
  {
    var v := s.conns[c];
    View(v.state, v.registered, Stored(s, c),
         Queued(s, v.home, Establish(c)), Queued(s, 0, Remove(c)), Queued(s, v.home, Destroy(c)),
         Queued(s, v.home, Completion(c)), Active(s, v.home, c))
  }

  predicate Queued(s: Server, k: nat, t: Task) { k < |s.loops| && t in Pending(s.loops[k]) }

  predicate Active(s: Server, k: nat, c: nat) { k < |s.loops| && c in s.loops[k].active }

  /** Order within a queue: an establish is queued once, and no write-complete comes after a destroy
      of the same connection. */
  predicate Ordered(q: seq<Task>) {
    && (forall i, j | 0 <= i < j < |q| :: q[i].Establish? ==> q[j] != q[i])
    && (forall i, j | 0 <= i < j < |q| :: q[i].Destroy? ==> q[j] != Completion(q[i].conn))
  }

  predicate LoopInv(s: Server, k: nat)
    requires k < |s.loops|
  {
    var l := s.loops[k];
    && l.pos <= |l.batch| && l.at <= |l.active|
    && (l.phase != Running ==> l.batch == []) && (l.phase != Dispatching ==> l.active == [])
    && (forall t | t in l.batch :: WellAimed(s, k, t)) && (forall t | t in l.queue :: WellAimed(s, k, t))
    && Ordered(Pending(l))
    && (forall c | c in l.active :: Resident(s, k, c))
  }

  predicate FdsApart(s: Server) {
    forall c, d | c in s.conns && d in s.conns && c != d && Held(s, c) && Held(s, d) ::
      s.conns[c].fd != s.conns[d].fd
  }

  predicate Structure(s: Server) {
    && 0 < |s.loops|
    && (forall c | c in s.conns :: s.conns[c].home < |s.loops|)
    && (forall k | 0 <= k < |s.loops| :: LoopInv(s, k))
    && (forall fd | fd in s.connections :: s.connections[fd] in s.conns && s.conns[s.connections[fd]].fd == fd)
    && (s.accepting.Some? ==> s.accepting.value in s.conns && s.loops[0].phase == Dispatching)
    && s.userHeld <= s.conns.Keys
  }

  predicate Inv(s: Server) {
    && Structure(s) && FdsApart(s)
    && (forall c | c in s.conns :: Consistent(ViewOf(s, c)))
  }

  // ---- Building blocks ---------------------------------------------------------------------------------------

  // Only the connections' own fields changed: queues, table and holders are as before.
  ghost predicate SamePlaces(s: Server, r: Server) {
    && (forall k, t :: Queued(r, k, t) == Queued(s, k, t))
    && (forall k, c :: Active(r, k, c) == Active(s, k, c))
    && (forall c :: HeldByTask(r, c) == HeldByTask(s, c))
  }

  lemma LoopUnmoved(s: Server, r: Server, k: nat)
    requires k < |s.loops| && LoopInv(s, k) && r.loops == s.loops
    requires forall c | c in s.conns :: c in r.conns && r.conns[c].home == s.conns[c].home
    ensures LoopInv(r, k)
  {
  }

  lemma SameLoops(s: Server, r: Server)
    requires Structure(s) && r.loops == s.loops
    requires forall c | c in s.conns :: c in r.conns && r.conns[c].home == s.conns[c].home
    ensures SamePlaces(s, r) && forall k | 0 <= k < |r.loops| :: LoopInv(r, k)
  {
    forall k | 0 <= k < |r.loops| ensures LoopInv(r, k) {
      LoopUnmoved(s, r, k);
    }
  }

  lemma SetConnKeeps(s: Server, c: nat, v: Connection)
    requires Structure(s) && c in s.conns && v.home == s.conns[c].home && v.fd == s.conns[c].fd
    ensures var r := SetConn(s, c, v);
            Structure(r) && SamePlaces(s, r) && forall d :: Stored(r, d) == Stored(s, d)
  {
    var r := SetConn(s, c, v);
    SameLoops(s, r);
    hide LoopInv, SamePlaces;
  }

  lemma PostKeeps(s: Server, k: nat, t: Task)
    requires Structure(s) && k < |s.loops| && WellAimed(s, k, t)
    requires t.Completion? ==> !Queued(s, k, Destroy(t.conn))
    requires t.Establish? ==> !Queued(s, k, t)
    ensures var r := Post(s, k, t);
            && Structure(r)
            && (forall j, u :: Queued(r, j, u) <==> Queued(s, j, u) || (j == k && u == t))
            && (forall j, c :: Active(r, j, c) == Active(s, j, c))
            && (forall d :: Stored(r, d) == Stored(s, d))
            && (forall d :: HeldByTask(r, d) ==> HeldByTask(s, d) || (d == t.conn && !t.Completion?))
  {
    PostKeepsLoop(s, k, t);
    PostKeepsRest(s, k, t);
    HoldersPosted(s, k, t);
    hide LoopInv, HeldByTask, Pending;
    var r := Post(s, k, t);
    assert forall j, u | j != k :: Queued(r, j, u) == Queued(s, j, u);
  }

  // The other loops, and who is stored, are as before.
  lemma PostKeepsRest(s: Server, k: nat, t: Task)
    requires Structure(s) && k < |s.loops| && LoopInv(Post(s, k, t), k)
    ensures Structure(Post(s, k, t)) && forall d :: Stored(Post(s, k, t), d) == Stored(s, d)
  {
    hide LoopInv;
    var r := Post(s, k, t);
    forall j | 0 <= j < |r.loops| ensures LoopInv(r, j) {
      if j != k {
        LoopElsewhere(s, r, j);
      }
    }
    OthersStay(s, r);
  }

  lemma OthersStay(s: Server, r: Server)
    requires Structure(s) && r == s.(loops := r.loops) && |r.loops| == |s.loops|
    requires r.loops[0].phase == s.loops[0].phase && forall j | 0 <= j < |r.loops| :: LoopInv(r, j)
    ensures Structure(r) && forall d :: Stored(r, d) == Stored(s, d)
  {
    hide LoopInv;
  }

  lemma LoopElsewhere(s: Server, r: Server, j: nat)
    requires j < |s.loops| && LoopInv(s, j)
    requires r.conns == s.conns && |r.loops| == |s.loops| && r.loops[j] == s.loops[j]
    ensures LoopInv(r, j)
  {
    hide Ordered, Pending;
  }

  lemma HoldersPosted(s: Server, k: nat, t: Task)
    requires k < |s.loops|
    ensures forall d :: HeldByTask(Post(s, k, t), d) ==> HeldByTask(s, d) || (d == t.conn && !t.Completion?)
  {
    hide Holders;
    var r := Post(s, k, t);
    forall d | HeldByTask(r, d) ensures HeldByTask(s, d) || (d == t.conn && !t.Completion?) {
      var j :| 0 <= j < |r.loops| && (d in Holders(r.loops[j].batch) || d in Holders(r.loops[j].queue));
      HoldersAppend(s.loops[k].queue, t);
      assert j != k ==> r.loops[j] == s.loops[j];
    }
  }

  lemma PostKeepsLoop(s: Server, k: nat, t: Task)
    requires k < |s.loops| && LoopInv(s, k) && WellAimed(s, k, t)
    requires t.Completion? ==> !Queued(s, k, Destroy(t.conn))
    requires t.Establish? ==> !Queued(s, k, t)
    ensures var r := Post(s, k, t);
            && LoopInv(r, k)
            && (forall u :: Queued(r, k, u) <==> Queued(s, k, u) || u == t)
  {
    var r := Post(s, k, t);
    var p := Pending(s.loops[k]);
    assert Pending(r.loops[k]) == p + [t];
    OrderedAppend(p, t);
    hide Ordered, Pending;
    assert forall u | u in r.loops[k].queue :: u in s.loops[k].queue || u == t;
    assert forall u | WellAimed(s, k, u) :: WellAimed(r, k, u);
    assert forall c | Resident(s, k, c) :: Resident(r, k, c);
  }

  lemma HoldersAppend(q: seq<Task>, t: Task)
    ensures Holders(q + [t]) == Holders(q) + if t.Completion? then {} else {t.conn}
  {
    var r := q + [t];
    assert r[|q|] == t;
    forall i | 0 <= i < |q| ensures r[i] == q[i] {
    }
    forall d | d in Holders(r) ensures d in Holders(q) || (d == t.conn && !t.Completion?) {
      var i :| 0 <= i < |r| && !r[i].Completion? && r[i].conn == d;
      assert i < |q| ==> q[i] == r[i];
    }
    forall d | d in Holders(q) ensures d in Holders(r) {
      var i :| 0 <= i < |q| && !q[i].Completion? && q[i].conn == d;
      assert r[i] == q[i];
    }
  }

  lemma OrderedAppend(p: seq<Task>, t: Task)
    requires Ordered(p) && (t.Completion? ==> Destroy(t.conn) !in p) && (t.Establish? ==> t !in p)
    ensures Ordered(p + [t])
  {
  }

  lemma OrderedTail(p: seq<Task>)
    requires Ordered(p) && p != []
    ensures Ordered(p[1..])
    ensures p[0].Establish? ==> p[0] !in p[1..]
    ensures p[0].Destroy? ==> Completion(p[0].conn) !in p[1..]
  {
  }

  lemma PendingHolds(s: Server, k: nat, t: Task)
    requires k < |s.loops| && LoopInv(s, k) && Queued(s, k, t) && !t.Completion?
    ensures HeldByTask(s, t.conn)
  {
  }

  /** The heart of the protocol: a channel known to a poller, or active in this turn, belongs to a
      connection that connections_, onNewConnection, or a queued establish, remove or destroy task keeps alive. */
  lemma ChannelIsHeld(s: Server, c: nat)
    requires Inv(s) && c in s.conns
    ensures s.conns[c].registered || s.conns[c].state != Disconnected ==> HeldByServer(s, c)
    ensures Active(s, s.conns[c].home, c) || Queued(s, s.conns[c].home, Completion(c)) ==> s.conns[c].registered
  {
    assert Consistent(ViewOf(s, c));
    var home := s.conns[c].home;
    assert LoopInv(s, home) && LoopInv(s, 0);
    if Queued(s, home, Establish(c)) {
      PendingHolds(s, home, Establish(c));
    }
    if Queued(s, 0, Remove(c)) {
      PendingHolds(s, 0, Remove(c));
    }
    if Queued(s, home, Destroy(c)) {
      PendingHolds(s, home, Destroy(c));
    }
  }

  // ---- Every step keeps the invariant -------------------------------------------------------------------------

  // After a post, only the posted task's connection is seen differently.
  lemma PostedViews(s: Server, k: nat, t: Task)
    requires Structure(s) && k < |s.loops| && WellAimed(s, k, t)
    requires t.Completion? ==> !Queued(s, k, Destroy(t.conn))
    requires t.Establish? ==> !Queued(s, k, t)
    ensures var r := Post(s, k, t);
            forall c | c in s.conns ::
              ViewOf(r, c) == if c == t.conn then Announced(ViewOf(s, c), t) else ViewOf(s, c)
  {
    hide Structure, Queued, Active, Stored, HeldByTask, LoopInv;
    Basics(s);
    PostKeeps(s, k, t);
  }

  function Announced(v: View, t: Task): View {
    match t
    case Establish(_) => v.(e := true)
    case Remove(_) => v.(r := true)
    case Destroy(_) => v.(d := true)
    case Completion(_) => v.(w := true)
  }

  lemma QueuedAimed(s: Server, k: nat, t: Task)
    requires k < |s.loops| && LoopInv(s, k) && Queued(s, k, t)
    ensures WellAimed(s, k, t)
  {
  }

  // A connection object nobody has heard of yet.
  lemma NewConnKeeps(s: Server, c: nat, v: Connection)
    requires Structure(s) && c !in s.conns && v.home < |s.loops|
    requires s.accepting == None && s.loops[0].phase == Dispatching
    ensures var r := SetConn(s, c, v).(accepting := Some(c));
            && Structure(r) && SamePlaces(s, r)
            && (forall k, t | Queued(s, k, t) :: t.conn != c)
            && (forall k :: !Active(s, k, c))
            && Stored(r, c) && (forall d | d != c :: Stored(r, d) == Stored(s, d))
  {
    var r := SetConn(s, c, v).(accepting := Some(c));
    SameLoops(s, r);
    hide LoopInv, SamePlaces, Queued, Active;
    forall k, t | Queued(s, k, t) ensures t.conn != c {
      TaskIsKnown(s, k, t);
    }
    forall k ensures !Active(s, k, c) {
      UnknownIsIdle(s, k, c);
    }
  }

  lemma TaskIsKnown(s: Server, k: nat, t: Task)
    requires Structure(s) && Queued(s, k, t)
    ensures t.conn in s.conns
  {
    hide Pending, Ordered;
    assert LoopInv(s, k);
    QueuedAimed(s, k, t);
  }

  lemma UnknownIsIdle(s: Server, k: nat, c: nat)
    requires Structure(s) && c !in s.conns
    ensures !Active(s, k, c)
  {
    hide Pending, Ordered;
    assert k < |s.loops| ==> LoopInv(s, k);
  }

  function Accepted(s: Server, c: nat, v: Connection): Server { SetConn(s, c, v).(accepting := Some(c)) }

  lemma AcceptKeeps(s: Server, c: nat, fd: nat, home: nat)
    requires Inv(s) && Legal(s, Accept(c, fd, home))
    ensures Inv(Next(s, Accept(c, fd, home)))
  {
    hide Structure, FdsApart, Queued, Active, ViewOf, Stored, HeldByTask, Consistent;
    var v := Connection(fd, home, if home == 0 then Connected else Connecting, home == 0);
    NewConnKeeps(s, c, v);
    NewConnViews(s, c, v);
    NewConnApart(s, c, v);
    var s1 := Accepted(s, c, v);
    if home == 0 {
      AcceptedViews(v);
      assert Next(s, Accept(c, fd, home)) == s1;
    } else {
      AcceptedViews(v);
      PostStep(s1, s1, home, Establish(c));
    }
  }

  lemma AcceptedViews(v: Connection)
    ensures v.state == Connected && v.registered ==>
              Consistent(View(v.state, v.registered, true, false, false, false, false, false))
    ensures v.state == Connecting && !v.registered ==>
              Consistent(View(v.state, v.registered, true, true, false, false, false, false))
  {
  }

  /** A post completes a step: the invariant holds again once the posted task is counted in. Sockets
      stay apart because whoever is held now was held in `base`. */
  lemma PostStep(base: Server, s: Server, k: nat, t: Task)
    requires Structure(s) && k < |s.loops| && WellAimed(s, k, t)
    requires t.Completion? ==> !Queued(s, k, Destroy(t.conn))
    requires t.Establish? ==> !Queued(s, k, t)
    requires forall c | c in s.conns :: Consistent(if c == t.conn then Announced(ViewOf(s, c), t) else ViewOf(s, c))
    requires FdsApart(base) && (t.Completion? || Held(base, t.conn))
    requires forall c | c in s.conns ::
               c in base.conns && s.conns[c].fd == base.conns[c].fd && (Held(s, c) ==> Held(base, c))
    ensures Inv(Post(s, k, t))
  {
    var r := Post(s, k, t);
    PostKeeps(s, k, t);
    PostedViews(s, k, t);
    hide Structure, FdsApart, Queued, Active, ViewOf, Stored, HeldByTask, Consistent, Announced;
    HeldShrinks(base, r);
  }

  lemma NewConnApart(s: Server, c: nat, v: Connection)
    requires Inv(s) && Legal(s, Accept(c, v.fd, v.home))
    ensures FdsApart(Accepted(s, c, v))
  {
    NewConnKeeps(s, c, v);
    hide Structure, Stored, HeldByTask;
    var r := Accepted(s, c, v);
    forall d | d in s.conns && Held(r, d) ensures Held(s, d) {
    }
  }

  // Steps that only move or drop holders keep sockets apart.
  lemma HeldShrinks(s: Server, r: Server)
    requires FdsApart(s)
    requires forall c | c in r.conns :: c in s.conns && r.conns[c].fd == s.conns[c].fd
    requires forall c | c in r.conns && Held(r, c) :: Held(s, c)
    ensures FdsApart(r)
  {
  }

  lemma NewConnViews(s: Server, c: nat, v: Connection)
    requires Structure(s) && c !in s.conns && v.home < |s.loops|
    requires s.accepting == None && s.loops[0].phase == Dispatching
    ensures var r := SetConn(s, c, v).(accepting := Some(c));
            && ViewOf(r, c) == View(v.state, v.registered, true, false, false, false, false, false)
            && (forall d | d in s.conns :: ViewOf(r, d) == ViewOf(s, d))
  {
    NewConnKeeps(s, c, v);
    hide Structure, HeldByTask, Queued, Active;
  }

  lemma SendKeeps(s: Server, k: nat, c: nat)
    requires Inv(s) && Legal(s, Send(k, c))
    ensures Inv(Next(s, Send(k, c)))
  {
    assert Consistent(ViewOf(s, c));
    hide Structure, FdsApart, Queued, Active, Stored, HeldByTask;
    PostStep(s, s, k, Completion(c));
  }

  lemma SetConnViews(s: Server, c: nat, v: Connection)
    requires Structure(s) && c in s.conns && v.home == s.conns[c].home && v.fd == s.conns[c].fd
    ensures var r := SetConn(s, c, v);
            forall d | d in s.conns ::
              ViewOf(r, d) ==
                if d == c then ViewOf(s, d).(state := v.state, registered := v.registered) else ViewOf(s, d)
  {
  }

  lemma SetConnStep(s: Server, c: nat, v: Connection)
    requires Structure(s) && FdsApart(s) && c in s.conns && v.home == s.conns[c].home && v.fd == s.conns[c].fd
    requires forall d | d in s.conns ::
               Consistent(if d == c then ViewOf(s, d).(state := v.state, registered := v.registered) else ViewOf(s, d))
    ensures Inv(SetConn(s, c, v))
  {
    SetConnKeeps(s, c, v);
    SetConnViews(s, c, v);
    hide Structure, FdsApart, Queued, Active, ViewOf, Stored, HeldByTask, Consistent;
    HeldShrinks(s, SetConn(s, c, v));
  }

  lemma ShutdownKeeps(s: Server, k: nat, c: nat)
    requires Inv(s) && Legal(s, Shutdown(k, c))
    ensures Inv(Next(s, Shutdown(k, c)))
  {
    hide FdsApart, Queued, Active, Stored, HeldByTask, LoopInv;
    SetConnStep(s, c, s.conns[c].(state := Disconnecting));
  }

  /** connections_.erase(conn->fd()) takes out that connection or nothing, however often the
      connection was closed: no other connection can own the same socket meanwhile. */
  lemma EraseHitsOwn(s: Server, c: nat)
    requires Structure(s) && FdsApart(s) && c in s.conns && Held(s, c) && s.accepting == None
    ensures s.conns[c].fd in s.connections ==> s.connections[s.conns[c].fd] == c
    ensures forall d :: Stored(Erased(s, c), d) == (Stored(s, d) && d != c)
  {
  }

  lemma EraseKeeps(s: Server, c: nat)
    requires Structure(s) && c in s.conns
    ensures Structure(Erased(s, c)) && SamePlaces(s, Erased(s, c))
  {
    SameLoops(s, Erased(s, c));
    hide LoopInv, SamePlaces;
  }

  lemma RemoveStep(s: Server, c: nat)
    requires Structure(s) && FdsApart(s) && c in s.conns && Held(s, c) && s.accepting == None
    requires s.conns[c].home < |s.loops|
    requires forall d | d in s.conns ::
               Consistent(if d == c then ViewOf(s, d).(stored := false, d := true) else ViewOf(s, d))
    ensures Inv(RemoveInLoop(s, c))
  {
    EraseKeeps(s, c);
    EraseHitsOwn(s, c);
    var r := Erased(s, c);
    hide Structure, FdsApart, Queued, Active, Stored, HeldByTask, Consistent;
    var home := s.conns[c].home;
    forall d | d in s.conns ensures ViewOf(r, d) == if d == c then ViewOf(s, d).(stored := false) else ViewOf(s, d) {
    }
    hide ViewOf;
    PostStep(s, r, home, Destroy(c));
  }

  lemma HandleCloseKeeps(s: Server, k: nat)
    requires Inv(s) && Legal(s, HandleClose(k))
    ensures Inv(Next(s, HandleClose(k)))
  {
    var c := s.loops[k].active[s.loops[k].at];
    hide Structure, FdsApart, Queued, Stored, HeldByTask;
    assert Active(s, k, c) && Consistent(ViewOf(s, c));
    ChannelIsHeld(s, c);
    CloseStep(s, k, c);
  }

  // setState(kDisconnected) on its own: the rest of handleClose must make the invariant whole again.
  lemma MarkClosed(s: Server, c: nat)
    requires Inv(s) && c in s.conns && s.conns[c].registered && Held(s, c)
    ensures var s1 := SetConn(s, c, s.conns[c].(state := Disconnected));
            && Structure(s1) && FdsApart(s1) && Held(s1, c)
            && (forall d | d in s.conns :: s.conns[d].home < |s.loops| && (d != c ==> Consistent(ViewOf(s1, d))))
            && Consistent(ViewOf(s1, c).(r := true))
            && Consistent(ViewOf(s1, c).(stored := false, d := true))
  {
    hide FdsApart, Queued, Active, Stored, HeldByTask, LoopInv, Consistent;
    var v := s.conns[c].(state := Disconnected);
    var s1 := SetConn(s, c, v);
    SetConnKeeps(s, c, v);
    SetConnViews(s, c, v);
    assert Consistent(ViewOf(s, c));
    ClosedViews(ViewOf(s, c));
    hide Structure, FdsApart, Queued, Active, ViewOf, Stored, HeldByTask, Consistent;
    HeldShrinks(s, s1);
  }

  lemma ClosedViews(v: View)
    requires Consistent(v) && v.registered
    ensures Consistent(v.(state := Disconnected, r := true))
    ensures Consistent(v.(state := Disconnected, stored := false, d := true))
  {
  }

  lemma CloseStep(s: Server, k: nat, c: nat)
    requires Inv(s) && Free(s, k) && Resident(s, k, c) && s.conns[c].registered && Held(s, c)
    ensures Inv(Closed(s, k, c))
  {
    hide Structure, FdsApart, Queued, Active, ViewOf, Stored, HeldByTask, Consistent;
    MarkClosed(s, c);
    var s1 := SetConn(s, c, s.conns[c].(state := Disconnected));
    if k == 0 {
      RemoveStep(s1, c);
    } else {
      StructureHasMain(s1);
      PostStep(s1, s1, 0, Remove(c));
    }
  }

  lemma StructureHasMain(s: Server)
    requires Structure(s)
    ensures 0 < |s.loops|
  {
  }

  // ---- Moves of one loop ---------------------------------------------------------------------------------

  lemma LoopMoveKeeps(s: Server, k: nat, l: LoopState)
    requires Structure(s) && Free(s, k) && LoopInv(With(s, k, l), k)
    ensures var r := With(s, k, l);
            && Structure(r)
            && (forall d :: Stored(r, d) == Stored(s, d))
            && (forall j, u | j != k :: Queued(r, j, u) == Queued(s, j, u))
            && (forall j, c | j != k :: Active(r, j, c) == Active(s, j, c))
  {
    var r := With(s, k, l);
    forall j | 0 <= j < |r.loops| ensures LoopInv(r, j) {
      if j != k {
        LoopElsewhere(s, r, j);
      }
    }
    hide LoopInv;
  }

  lemma HeldAfterMove(s: Server, k: nat, l: LoopState)
    requires k < |s.loops|
    requires Holders(l.batch) + Holders(l.queue) <= Holders(s.loops[k].batch) + Holders(s.loops[k].queue)
    ensures forall d :: HeldByTask(With(s, k, l), d) ==> HeldByTask(s, d)
  {
  }

  lemma Basics(s: Server)
    requires Structure(s)
    ensures 0 < |s.loops| && forall c | c in s.conns :: s.conns[c].home < |s.loops|
  {
  }

  // Only who is active changed, and a newly active channel is a registered one.
  lemma ActiveViews(s: Server, r: Server)
    requires r.conns == s.conns && |r.loops| == |s.loops|
    requires forall c | c in s.conns :: s.conns[c].home < |s.loops| && Consistent(ViewOf(s, c))
    requires forall j, u :: Queued(r, j, u) == Queued(s, j, u)
    requires forall c :: Stored(r, c) == Stored(s, c)
    requires forall j, c | c in s.conns && Active(r, j, c) :: Active(s, j, c) || s.conns[c].registered
    ensures forall c | c in r.conns :: Consistent(ViewOf(r, c))
  {
  }

  // Polling, stepping through the active channels, swapping and returning run no task.
  lemma QuietMove(s: Server, k: nat, l: LoopState)
    requires Inv(s) && Free(s, k) && LoopInv(With(s, k, l), k)
    requires Pending(l) == Pending(s.loops[k])
    requires forall c | c in l.active :: c in s.conns && s.conns[c].registered
    requires Holders(l.batch) + Holders(l.queue) <= Holders(s.loops[k].batch) + Holders(s.loops[k].queue)
    ensures Inv(With(s, k, l))
  {
    hide Structure, Stored, HeldByTask, LoopInv, Pending, Holders, ViewOf, Consistent, FdsApart;
    var r := With(s, k, l);
    Basics(s);
    LoopMoveKeeps(s, k, l);
    HeldAfterMove(s, k, l);
    assert forall u :: Queued(r, k, u) == Queued(s, k, u);
    assert forall c | Active(r, k, c) :: c in s.conns && s.conns[c].registered;
    hide Queued, Active;
    ActiveViews(s, r);
    HeldShrinks(s, r);
  }

  lemma PollKeeps(s: Server, k: nat, ready: seq<nat>)
    requires Inv(s) && Legal(s, Poll(k, ready))
    ensures Inv(Next(s, Poll(k, ready)))
  {
    assert LoopInv(s, k);
    var l := s.loops[k].(phase := Dispatching, active := ready, at := 0);
    hide Consistent, ViewOf, FdsApart;
    QuietMove(s, k, l);
  }

  lemma NextChannelKeeps(s: Server, k: nat)
    requires Inv(s) && Legal(s, NextChannel(k))
    ensures Inv(Next(s, NextChannel(k)))
  {
    assert LoopInv(s, k);
    var l := s.loops[k].(at := s.loops[k].at + 1);
    forall c | c in l.active ensures c in s.conns && s.conns[c].registered {
      assert Consistent(ViewOf(s, c));
      assert Active(s, k, c);
    }
    hide Consistent, ViewOf, FdsApart;
    QuietMove(s, k, l);
  }

  lemma SwapKeeps(s: Server, k: nat)
    requires Inv(s) && Legal(s, Swap(k))
    ensures Inv(Next(s, Swap(k)))
  {
    assert LoopInv(s, k);
    var l := s.loops[k].(phase := Running, batch := s.loops[k].queue, queue := [], pos := 0, active := [], at := 0);
    assert Pending(l) == Pending(s.loops[k]);
    hide Consistent, ViewOf, FdsApart;
    QuietMove(s, k, l);
  }

  lemma FinishKeeps(s: Server, k: nat)
    requires Inv(s) && Legal(s, Finish(k))
    ensures Inv(Next(s, Finish(k)))
  {
    assert LoopInv(s, k);
    var l := s.loops[k].(phase := Polling, batch := [], pos := 0);
    assert Pending(l) == Pending(s.loops[k]);
    hide Consistent, ViewOf, FdsApart;
    QuietMove(s, k, l);
  }

  // ---- Running a task ------------------------------------------------------------------------------------

  function Advanced(s: Server, k: nat): Server
    requires k < |s.loops|
  {
    With(s, k, s.loops[k].(pos := s.loops[k].pos + 1))
  }

  // The task to run is at the head of the pending ones; behind it, order says what cannot come.
  lemma AdvanceKeeps(s: Server, k: nat)
    requires Structure(s) && Legal(s, RunTask(k))
    ensures var t := s.loops[k].batch[s.loops[k].pos];
            var r := Advanced(s, k);
            && Structure(r)
            && Queued(s, k, t)
            && (forall u | u != t :: Queued(r, k, u) == Queued(s, k, u))
            && (t.Establish? ==> !Queued(r, k, t))
            && (t.Destroy? ==> !Queued(r, k, Completion(t.conn)))
            && (forall j, u | j != k :: Queued(r, j, u) == Queued(s, j, u))
            && (forall j, c :: Active(r, j, c) == Active(s, j, c)) && (forall c :: !Active(s, k, c))
            && (forall d :: Stored(r, d) == Stored(s, d))
            && (forall d :: HeldByTask(r, d) ==> HeldByTask(s, d))
            && (!t.Completion? ==> HeldByTask(r, t.conn))
  {
    assert LoopInv(s, k);
    var l := s.loops[k];
    var t := l.batch[l.pos];
    assert !t.Completion? ==> t.conn in Holders(l.batch);
    var r := Advanced(s, k);
    var p := Pending(l);
    assert p[0] == t && Pending(r.loops[k]) == p[1..];
    assert p == [t] + p[1..];
    OrderedTail(p);
    LoopMoveKeeps(s, k, r.loops[k]);
    HeldAfterMove(s, k, r.loops[k]);
  }

  // The view with the executed task's own flag replaced by whether a copy of it is still pending.
  function Retired(v: View, t: Task, again: bool): View {
    match t
    case Establish(_) => v.(e := again)
    case Remove(_) => v.(r := again)
    case Destroy(_) => v.(d := again)
    case Completion(_) => v.(w := again)
  }

  lemma AdvanceViews(s: Server, k: nat)
    requires Structure(s) && Legal(s, RunTask(k))
    ensures var t := s.loops[k].batch[s.loops[k].pos];
            var r := Advanced(s, k);
            && (forall d | d in s.conns ::
                  ViewOf(r, d) == if d == t.conn then Retired(ViewOf(s, d), t, Queued(r, k, t)) else ViewOf(s, d))
            && (t.Establish? ==> ViewOf(s, t.conn).e && !ViewOf(r, t.conn).e)
            && (t.Remove? ==> ViewOf(s, t.conn).r)
            && (t.Destroy? ==> ViewOf(s, t.conn).d && !ViewOf(r, t.conn).w && !ViewOf(r, t.conn).a)
            && (t.Completion? ==> ViewOf(s, t.conn).w)
  {
    hide Structure, Queued, Active, Stored, HeldByTask, LoopInv, Pending;
    Basics(s);
    AdvanceKeeps(s, k);
    AdvancedView(s, Advanced(s, k), k, s.loops[k].batch[s.loops[k].pos]);
  }

  lemma AdvancedView(s: Server, r: Server, k: nat, t: Task)
    requires r.conns == s.conns && |r.loops| == |s.loops| && WellAimed(s, k, t)
    requires 0 < |s.loops| && forall c | c in s.conns :: s.conns[c].home < |s.loops|
    requires forall u | u != t :: Queued(r, k, u) == Queued(s, k, u)
    requires forall j, u | j != k :: Queued(r, j, u) == Queued(s, j, u)
    requires forall j, c :: Active(r, j, c) == Active(s, j, c)
    requires forall d :: Stored(r, d) == Stored(s, d)
    ensures forall d | d in s.conns ::
              ViewOf(r, d) == if d == t.conn then Retired(ViewOf(s, d), t, Queued(r, k, t)) else ViewOf(s, d)
  {
    hide Queued, Active, Stored;
  }

  lemma RunTaskKeeps(s: Server, k: nat)
    requires Inv(s) && Legal(s, RunTask(k))
    ensures Inv(Next(s, RunTask(k)))
  {
    hide Structure, FdsApart, Queued, Active, ViewOf, Stored, HeldByTask, LoopInv;
    var t := s.loops[k].batch[s.loops[k].pos];
    var c := t.conn;
    var s0 := Advanced(s, k);
    Basics(s);
    AdvanceKeeps(s, k);
    AdvanceViews(s, k);
    HeldShrinks(s, s0);
    assert Next(s, RunTask(k)) == Executed(s0, t);
    assert forall d | d in s.conns && d != c :: Consistent(ViewOf(s0, d));
    assert Consistent(ViewOf(s, c));
    ExecuteStep(s0, k, t, ViewOf(s, c));
  }

  lemma ExecuteStep(s0: Server, k: nat, t: Task, before: View)
    requires Structure(s0) && FdsApart(s0) && Free(s0, k) && WellAimed(s0, k, t)
    requires forall d | d in s0.conns :: s0.conns[d].home < |s0.loops| && (d != t.conn ==> Consistent(ViewOf(s0, d)))
    requires Consistent(before) && ViewOf(s0, t.conn) == Retired(before, t, Queued(s0, k, t))
    requires t.Establish? ==> before.e && !ViewOf(s0, t.conn).e
    requires t.Remove? ==> before.r
    requires t.Destroy? ==> before.d && !ViewOf(s0, t.conn).w && !ViewOf(s0, t.conn).a
    requires t.Completion? ==> before.w
    requires !t.Completion? ==> HeldByTask(s0, t.conn)
    ensures Inv(Executed(s0, t))
  {
    hide Structure, FdsApart, Queued, Active, ViewOf, Stored, HeldByTask, LoopInv;
    var c := t.conn;
    match t
    case Establish(_) => SetConnStep(s0, c, s0.conns[c].(state := Connected, registered := true));
    case Remove(_) => RemoveStep(s0, c);
    case Destroy(_) => SetConnStep(s0, c, s0.conns[c].(state := Disconnected, registered := false));
    case Completion(_) => Basics(s0);
  }

  // ---- The remaining steps -------------------------------------------------------------------------------

  lemma StoreKeeps(s: Server)
    requires Inv(s) && Legal(s, Store)
    ensures Inv(Next(s, Store))
  {
    var r := Next(s, Store);
    StoreStructure(s);
    StoreTable(s);
    hide Structure, Queued, Active, Stored, HeldByTask;
    Basics(s);
    ActiveViews(s, r);
    HeldShrinks(s, r);
  }

  lemma StoreStructure(s: Server)
    requires Structure(s) && Legal(s, Store)
    ensures var r := Next(s, Store);
            Structure(r) && SamePlaces(s, r)
  {
    SameLoops(s, Next(s, Store));
    hide LoopInv, SamePlaces;
  }

  // The socket's slot in connections_ is free: its last owner is gone.
  lemma StoreTable(s: Server)
    requires Structure(s) && FdsApart(s) && Legal(s, Store)
    ensures forall d :: Stored(Next(s, Store), d) == Stored(s, d)
  {
  }

  lemma UserKeeps(s: Server, held: set<nat>)
    requires Inv(s) && held <= s.conns.Keys
    requires forall c | c in held :: Held(s, c)
    ensures Inv(s.(userHeld := held))
  {
    var r := s.(userHeld := held);
    SameLoops(s, r);
    hide LoopInv, Queued, Active, HeldByTask;
    assert Structure(r);
    assert forall c :: Stored(r, c) == Stored(s, c);
    hide Structure, Stored;
    Basics(r);
    ActiveViews(s, r);
    HeldShrinks(s, r);
  }

  lemma NextKeeps(s: Server, st: Step)
    requires Inv(s) && Legal(s, st)
    ensures Inv(Next(s, st))
  {
    hide Inv;
    match st
    case Accept(c, fd, home) => AcceptKeeps(s, c, fd, home);
    case Store => StoreKeeps(s);
    case Poll(k, ready) => PollKeeps(s, k, ready);
    case HandleClose(k) => HandleCloseKeeps(s, k);
    case NextChannel(k) => NextChannelKeeps(s, k);
    case Send(k, c) => SendKeeps(s, k, c);
    case Shutdown(k, c) => ShutdownKeeps(s, k, c);
    case Swap(k) => SwapKeeps(s, k);
    case RunTask(k) => RunTaskKeeps(s, k);
    case Finish(k) => FinishKeeps(s, k);
    case UserTake(c) =>
      HoldersKnown(s);
      UserKeeps(s, s.userHeld + {c});
    case UserDrop(c) =>
      HoldersKnown(s);
      UserKeeps(s, s.userHeld - {c});
  }

  lemma HoldersKnown(s: Server)
    requires Inv(s)
    ensures s.userHeld <= s.conns.Keys && forall c | c in s.userHeld :: Held(s, c)
  {
  }

  predicate LegalRun(s: Server, sts: seq<Step>)
    decreases |sts|
  {
    sts == [] || (Legal(s, sts[0]) && LegalRun(Next(s, sts[0]), sts[1..]))
  }

  function Run(s: Server, sts: seq<Step>): Server
    requires LegalRun(s, sts)
    decreases |sts|
  {
    if sts == [] then s else Run(Next(s, sts[0]), sts[1..])
  }

  lemma {:induction false} RunKeeps(s: Server, sts: seq<Step>)
    requires Inv(s) && LegalRun(s, sts)
    ensures Inv(Run(s, sts))
    decreases |sts|
  {
    hide Inv, Legal, Next;
    if sts != [] {
      NextKeeps(s, sts[0]);
      RunKeeps(Next(s, sts[0]), sts[1..]);
    }
  }

  lemma StartedIsFine(threads: nat)
    ensures Inv(Started(threads))
  {
  }

  // ---- The theorems ---------------------------------------------------------------------------------------

  /** Teardown safety over all interleavings, with any number of loops: a channel known to a poller or
      sitting among the active channels belongs to a connection that connections_, onNewConnection, or
      a queued establish, remove or destroy task keeps alive; when the last holder of any kind is gone the
      connection is disconnected, its channel unregistered and not active, and no callback holding a
      raw pointer to it is queued. */
  lemma {:induction false} TeardownSafety(threads: nat, sts: seq<Step>, c: nat)
    requires LegalRun(Started(threads), sts) && c in Run(Started(threads), sts).conns
    ensures var s := Run(Started(threads), sts);
            var v := s.conns[c];
            && (v.registered || Active(s, v.home, c) ==> HeldByServer(s, c))
            && (!Held(s, c) ==> v.state == Disconnected && !v.registered && !Active(s, v.home, c)
                                && !Queued(s, v.home, Completion(c)))
  {
    StartedIsFine(threads);
    RunKeeps(Started(threads), sts);
    ChannelIsHeld(Run(Started(threads), sts), c);
  }

  /** Sockets are never confused: two connections still alive have different ones, so a poller never
      finds another channel under a connection's descriptor, and erasing by descriptor, also on a
      second close of the same connection, takes that connection out of connections_ or nothing. */
  lemma {:induction false} EraseByDescriptor(threads: nat, sts: seq<Step>, c: nat, d: nat)
    requires LegalRun(Started(threads), sts)
    requires var s := Run(Started(threads), sts); c in s.conns && d in s.conns && Held(s, c) && Held(s, d)
    ensures var s := Run(Started(threads), sts);
            && (c != d ==> s.conns[c].fd != s.conns[d].fd)
            && (s.conns[c].fd in s.connections ==> s.connections[s.conns[c].fd] == c)
  {
    StartedIsFine(threads);
    RunKeeps(Started(threads), sts);
    var s := Run(Started(threads), sts);
    if s.conns[c].fd in s.connections {
      var e := s.connections[s.conns[c].fd];
      assert Stored(s, e) && Held(s, e);
    }
  }

  /** What each task relies on when it runs: establish finds a connecting connection, destroy a
      disconnected one that connections_ no longer has, and a write-complete callback, which owns
      nothing, finds its connection alive. */
  lemma {:induction false} TasksFindTheirConnection(threads: nat, sts: seq<Step>, k: nat)
    requires LegalRun(Started(threads), sts) && Legal(Run(Started(threads), sts), RunTask(k))
    ensures var s := Run(Started(threads), sts);
            var t := s.loops[k].batch[s.loops[k].pos];
            && (t.Establish? ==> s.conns[t.conn].state == Connecting && !s.conns[t.conn].registered)
            && (t.Remove? ==> s.conns[t.conn].state == Disconnected)
            && (t.Destroy? ==> s.conns[t.conn].state == Disconnected && !Stored(s, t.conn))
            && HeldByServer(s, t.conn)
  {
    StartedIsFine(threads);
    RunKeeps(Started(threads), sts);
    var s := Run(Started(threads), sts);
    var t := s.loops[k].batch[s.loops[k].pos];
    AdvanceKeeps(s, k);
    assert Consistent(ViewOf(s, t.conn));
    ChannelIsHeld(s, t.conn);
    if !t.Completion? {
      PendingHolds(s, k, t);
    }
  }

  /** Teardown completes: once no loop has a task still to run, every connection is either open, in
      connections_ and known to its poller, or disconnected and gone from both. */
  lemma {:induction false} QuietMeansSettled(threads: nat, sts: seq<Step>, c: nat)
    requires LegalRun(Started(threads), sts) && c in Run(Started(threads), sts).conns
    requires forall l | l in Run(Started(threads), sts).loops :: Pending(l) == []
    ensures var s := Run(Started(threads), sts);
            && (s.conns[c].state == Connected || s.conns[c].state == Disconnecting <==> Stored(s, c))
            && (s.conns[c].state == Disconnected <==> !Stored(s, c))
            && (s.conns[c].registered <==> Stored(s, c))
  {
    StartedIsFine(threads);
    RunKeeps(Started(threads), sts);
    var s := Run(Started(threads), sts);
    assert Consistent(ViewOf(s, c));
    hide Pending, Stored, Consistent, LegalRun, Run;
    forall k: nat, t | k < |s.loops| ensures !Queued(s, k, t) {
      assert s.loops[k] in s.loops;
    }
    SettledView(ViewOf(s, c));
  }

  lemma SettledView(v: View)
    requires Consistent(v) && !v.e && !v.r && !v.d
    ensures v.state != Connecting && (v.state == Disconnected <==> !v.stored) && (v.registered <==> v.stored)
  {
  }

  /** The raw pointers in the active list and in the queues always lead to live connections of the
      right loop, so nothing but the loop's own position decides whether it can go on. */
  lemma {:induction false} NothingDangles(threads: nat, sts: seq<Step>, k: nat)
    requires LegalRun(Started(threads), sts) && Free(Run(Started(threads), sts), k)
    ensures var s := Run(Started(threads), sts);
            var l := s.loops[k];
            && (forall c | c in l.active :: Resident(s, k, c) && HeldByServer(s, c))
            && (forall t | t in Pending(l) :: WellAimed(s, k, t) && HeldByServer(s, t.conn))
            && (l.phase == Dispatching && l.at < |l.active| ==> Legal(s, HandleClose(k)))
            && (l.phase == Running && l.pos < |l.batch| ==> Legal(s, RunTask(k)))
  {
    StartedIsFine(threads);
    RunKeeps(Started(threads), sts);
    var s := Run(Started(threads), sts);
    hide Run, LegalRun, Started, Inv, Pending;
    LoopIsFine(s, k);
    LoopGoesOn(s, k);
    forall c | c in s.loops[k].active ensures Resident(s, k, c) && HeldByServer(s, c) {
      LiveChannel(s, k, c);
    }
    forall t | t in Pending(s.loops[k]) ensures WellAimed(s, k, t) && HeldByServer(s, t.conn) {
      LiveTask(s, k, t);
    }
  }

  lemma LoopIsFine(s: Server, k: nat)
    requires Inv(s) && k < |s.loops|
    ensures LoopInv(s, k)
  {
    hide LoopInv;
  }

  lemma LoopGoesOn(s: Server, k: nat)
    requires Free(s, k) && LoopInv(s, k)
    ensures var l := s.loops[k];
            && (l.phase == Dispatching && l.at < |l.active| ==> Legal(s, HandleClose(k)))
            && (l.phase == Running && l.pos < |l.batch| ==> Legal(s, RunTask(k)))
  {
    hide Ordered, Pending, WellAimed, Resident, Held;
  }

  lemma LiveChannel(s: Server, k: nat, c: nat)
    requires Inv(s) && k < |s.loops| && c in s.loops[k].active
    ensures Resident(s, k, c) && HeldByServer(s, c)
  {
    assert LoopInv(s, k) && Active(s, k, c);
    ChannelIsHeld(s, c);
  }

  lemma LiveTask(s: Server, k: nat, t: Task)
    requires Inv(s) && k < |s.loops| && Queued(s, k, t)
    ensures WellAimed(s, k, t) && HeldByServer(s, t.conn)
  {
    assert LoopInv(s, k);
    QueuedAimed(s, k, t);
    hide Pending, Ordered, FdsApart;
    ChannelIsHeld(s, t.conn);
    if !t.Completion? {
      PendingHolds(s, k, t);
    }
  }

  // ---- What the application holds -------------------------------------------------------------------------

  lemma UserStep(s: Server, st: Step, c: nat)
    requires Legal(s, st) && st != UserDrop(c) && c in s.conns && c in s.userHeld
    ensures var r := Next(s, st);
            && c in r.conns && c in r.userHeld
            && r.conns[c].fd == s.conns[c].fd && r.conns[c].home == s.conns[c].home
  {
    hide Held, WellAimed;
  }

  lemma {:induction false} UserRun(s: Server, sts: seq<Step>, c: nat)
    requires LegalRun(s, sts) && UserDrop(c) !in sts && c in s.conns && c in s.userHeld
    ensures var r := Run(s, sts);
            && c in r.conns && c in r.userHeld
            && r.conns[c].fd == s.conns[c].fd && r.conns[c].home == s.conns[c].home
    decreases |sts|
  {
    hide Legal, Next;
    if sts != [] {
      assert sts[0] in sts && forall st | st in sts[1..] :: st in sts;
      UserStep(s, sts[0], c);
      UserRun(Next(s, sts[0]), sts[1..], c);
    }
  }

  /** From the moment the application takes a shared_ptr of a connection until it drops it, whatever the
      loops do, teardown included, the connection is alive on its loop with its own socket, which no other
      live connection is given. */
  lemma {:induction false} UserKeepsSocket(s: Server, c: nat, sts: seq<Step>)
    requires Inv(s) && Legal(s, UserTake(c)) && LegalRun(Next(s, UserTake(c)), sts) && UserDrop(c) !in sts
    ensures var r := Run(Next(s, UserTake(c)), sts);
            && c in r.conns && Held(r, c)
            && r.conns[c].fd == s.conns[c].fd && r.conns[c].home == s.conns[c].home
            && forall d | d in r.conns && d != c && Held(r, d) :: r.conns[d].fd != s.conns[c].fd
  {
    var t := Next(s, UserTake(c));
    NextKeeps(s, UserTake(c));
    RunKeeps(t, sts);
    UserRun(t, sts, c);
    hide Structure, Consistent, ViewOf;
    assert Held(Run(t, sts), c);
  }

  /** Dropping it takes away that one holder of that one connection. */
  lemma UserLetsGo(s: Server, c: nat, d: nat)
    ensures Held(Next(s, UserDrop(c)), d) <==> HeldByServer(s, d) || (d != c && d in s.userHeld)
  {
    assert Stored(Next(s, UserDrop(c)), d) == Stored(s, d);
    assert HeldByTask(Next(s, UserDrop(c)), d) == HeldByTask(s, d);
  }
}
