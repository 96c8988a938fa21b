/** Every loop of the server runs the task-queue protocol: what it runs is what was posted to it, in
    order, and its thread never sleeps on a posted task, whatever the other loops do meanwhile. */
module LoopQueues {
  import opened Optional
  import S = TcpServer
  import Q = TaskQueue

  type Queue = Q.Loop<S.Task>
  type QueueStep = Q.Step<S.Task>

  // ---- What a step of the server posts, and what it runs ----------------------------------------

  /** A queueInLoop made by loop `poster` on loop `target`. */
  datatype Posting = NoPosting | Posting(poster: nat, target: nat, task: S.Task)

  // Every step makes at most one.
  function PostingOf(s: S.Server, st: S.Step): Posting
    requires S.Legal(s, st)
  {
    match st
    case Accept(c, fd, home) => if home == 0 then NoPosting else Posting(0, home, S.Establish(c))
    case HandleClose(k) =>
      var c := s.loops[k].active[s.loops[k].at];
      if k == 0 then Posting(0, 0, S.Destroy(c)) else Posting(k, 0, S.Remove(c))
    case Send(k, c) => Posting(k, k, S.Completion(c))
    case RunTask(k) =>
      (match s.loops[k].batch[s.loops[k].pos]
       case Remove(c) => Posting(k, s.conns[c].home, S.Destroy(c))
       case _ => NoPosting)
    case _ => NoPosting
  }

  function PostedBy(s: S.Server, st: S.Step, k: nat): seq<S.Task>
    requires S.Legal(s, st)
  {
    var p := PostingOf(s, st);
    if p.Posting? && p.target == k then [p.task] else []
  }

  function RanBy(s: S.Server, st: S.Step, k: nat): seq<S.Task>
    requires S.Legal(s, st)
  {
    if st.RunTask? && st.loop == k then [s.loops[k].batch[s.loops[k].pos]] else []
  }

  /** All that a run posts to loop `k`, and all that loop `k` runs in it. */
  function Posted(s: S.Server, sts: seq<S.Step>, k: nat): seq<S.Task>
    requires S.LegalRun(s, sts)
    decreases |sts|
  {
    if sts == [] then [] else PostedBy(s, sts[0], k) + Posted(S.Next(s, sts[0]), sts[1..], k)
  }

  function Ran(s: S.Server, sts: seq<S.Step>, k: nat): seq<S.Task>
    requires S.LegalRun(s, sts)
    decreases |sts|
  {
    if sts == [] then [] else RanBy(s, sts[0], k) + Ran(S.Next(s, sts[0]), sts[1..], k)
  }

  // ---- One step, seen from one loop -------------------------------------------------------------

  // The loop's own move, its queue aside.
  function Moved(l: S.LoopState, st: S.Step, k: nat): S.LoopState {
    match st
    case Poll(j, ready) => if j == k then l.(phase := S.Dispatching, active := ready, at := 0) else l
    case NextChannel(j) => if j == k then l.(at := l.at + 1) else l
    case Swap(j) =>
      if j == k then l.(phase := S.Running, batch := l.queue, queue := [], pos := 0, active := [], at := 0) else l
    case RunTask(j) => if j == k then l.(pos := l.pos + 1) else l
    case Finish(j) => if j == k then l.(phase := S.Polling, batch := [], pos := 0) else l
    case _ => l
  }

  lemma LoopEffect(s: S.Server, st: S.Step, k: nat)
    requires S.Legal(s, st) && k < |s.loops|
    ensures |S.Next(s, st).loops| == |s.loops|
    ensures var m := Moved(s.loops[k], st, k);
            S.Next(s, st).loops[k] == m.(queue := m.queue + PostedBy(s, st, k))
  {
    hide S.Held;
    var m := Moved(s.loops[k], st, k);
    assert m.queue + [] == m.queue;
  }

  lemma StepConserves(s: S.Server, st: S.Step, k: nat)
    requires S.Legal(s, st) && k < |s.loops| && S.LoopInv(s, k)
    ensures |S.Next(s, st).loops| == |s.loops|
    ensures RanBy(s, st, k) + S.Pending(S.Next(s, st).loops[k]) == S.Pending(s.loops[k]) + PostedBy(s, st, k)
  {
    LoopEffect(s, st, k);
    MoveConserves(s, st, k);
    var m := Moved(s.loops[k], st, k);
    var posted := PostedBy(s, st, k);
    hide S.Legal, S.Next, S.LoopInv, PostedBy, RanBy, Moved;
    PendingGrows(m, posted);
    assert RanBy(s, st, k) + (S.Pending(m) + posted) == RanBy(s, st, k) + S.Pending(m) + posted;
  }

  lemma PendingGrows(l: S.LoopState, posted: seq<S.Task>)
    ensures S.Pending(l.(queue := l.queue + posted)) == S.Pending(l) + posted
  {
  }

  lemma MoveConserves(s: S.Server, st: S.Step, k: nat)
    requires S.Legal(s, st) && k < |s.loops| && S.LoopInv(s, k)
    ensures RanBy(s, st, k) + S.Pending(Moved(s.loops[k], st, k)) == S.Pending(s.loops[k])
  {
    MoveFinds(s, st, k);
    RanIs(s, st, k);
    hide S.Legal, S.LoopInv, S.Pending, RanBy, Moved;
    var l := s.loops[k];
    if st == S.RunTask(k) {
      HeadOfPending(l);
    } else {
      SamePending(l, Moved(l, st, k));
      NothingBefore(S.Pending(l));
    }
  }

  lemma RanIs(s: S.Server, st: S.Step, k: nat)
    requires S.Legal(s, st) && k < |s.loops| && (st == S.RunTask(k) ==> s.loops[k].pos < |s.loops[k].batch|)
    ensures var l := s.loops[k];
            if st == S.RunTask(k)
            then RanBy(s, st, k) == [l.batch[l.pos]] && Moved(l, st, k) == l.(pos := l.pos + 1)
            else RanBy(s, st, k) == []
  {
    hide S.Legal;
  }

  lemma NothingBefore(ts: seq<S.Task>)
    ensures [] + ts == ts
  {
  }

  // A loop's other moves leave what it still has to run as it is.
  lemma SamePending(l: S.LoopState, m: S.LoopState)
    requires l.pos <= |l.batch| && m.pos <= |m.batch|
    requires l.batch[l.pos..] + l.queue == m.batch[m.pos..] + m.queue
    ensures S.Pending(m) == S.Pending(l)
  {
  }

  // Where a loop is when it moves.
  lemma MoveFinds(s: S.Server, st: S.Step, k: nat)
    requires S.Legal(s, st) && k < |s.loops| && S.LoopInv(s, k)
    ensures var l, m := s.loops[k], Moved(s.loops[k], st, k);
            && (st == S.RunTask(k) ==> l.pos < |l.batch|)
            && (st != S.RunTask(k) ==>
                  && l.pos <= |l.batch| && m.pos <= |m.batch|
                  && l.batch[l.pos..] + l.queue == m.batch[m.pos..] + m.queue)
  {
    hide S.Held, S.Ordered, S.Resident, S.WellAimed, S.Pending;
    var l := s.loops[k];
    match st
    case Swap(j) =>
      assert j == k ==> l.batch == [] && l.batch[l.pos..] == [];
      assert [] + l.queue == l.queue + [];
    case Finish(j) =>
      assert j == k ==> l.batch[l.pos..] == [];
    case _ =>
  }

  lemma HeadOfPending(l: S.LoopState)
    requires l.pos < |l.batch|
    ensures [l.batch[l.pos]] + S.Pending(l.(pos := l.pos + 1)) == S.Pending(l)
  {
    assert l.batch[l.pos..] == [l.batch[l.pos]] + l.batch[l.pos + 1..];
  }

  /** Tasks are conserved and kept in order on every loop, over every run: what it has run, followed by
      what it still has to run, is what it had followed by all that was posted to it. */
  lemma {:induction false} RunConserves(s: S.Server, sts: seq<S.Step>, k: nat)
    requires S.Inv(s) && S.LegalRun(s, sts) && k < |s.loops|
    ensures |S.Run(s, sts).loops| == |s.loops|
    ensures Ran(s, sts, k) + S.Pending(S.Run(s, sts).loops[k]) == S.Pending(s.loops[k]) + Posted(s, sts, k)
    decreases |sts|
  {
    hide S.Inv, S.Legal, S.Next, S.Pending, PostedBy, RanBy;
    if sts == [] {
      assert [] + S.Pending(s.loops[k]) == S.Pending(s.loops[k]) + [];
    } else {
      var s' := S.Next(s, sts[0]);
      S.LoopIsFine(s, k);
      StepConserves(s, sts[0], k);
      S.NextKeeps(s, sts[0]);
      RunConserves(s', sts[1..], k);
      Regroup(RanBy(s, sts[0], k), Ran(s', sts[1..], k), S.Pending(S.Run(s', sts[1..]).loops[k]),
              S.Pending(s'.loops[k]), Posted(s', sts[1..], k), S.Pending(s.loops[k]), PostedBy(s, sts[0], k));
    }
  }

  lemma Regroup<T>(ran: seq<T>, later: seq<T>, left: seq<T>, now: seq<T>, more: seq<T>, had: seq<T>, posted: seq<T>)
    requires ran + now == had + posted && later + left == now + more
    ensures ran + later + left == had + (posted + more)
  {
    assert ran + later + left == ran + (later + left);
    assert ran + (now + more) == ran + now + more;
    assert had + posted + more == had + (posted + more);
  }

  /** From the start: each task posted to a loop is run there at most once, in the order of the posts,
      and what has not been run is still pending. */
  lemma {:induction false} PostsAreConserved(threads: nat, sts: seq<S.Step>, k: nat)
    requires S.LegalRun(S.Started(threads), sts) && k <= threads
    ensures var s := S.Run(S.Started(threads), sts);
            && k < |s.loops|
            && Ran(S.Started(threads), sts, k) + S.Pending(s.loops[k]) == Posted(S.Started(threads), sts, k)
  {
    var s := S.Started(threads);
    S.StartedIsFine(threads);
    RunConserves(s, sts, k);
    assert S.Pending(s.loops[k]) == [];
    assert [] + Posted(s, sts, k) == Posted(s, sts, k);
  }

  // ---- The server with the wakeups of its loops -------------------------------------------------

  /** `queues[k]` is loop k's eventfd and queue in the protocol's own terms. */
  datatype World = World(server: S.Server, queues: seq<Queue>)

  /** A step of the server, saying of a poll whether it reports the eventfd; the wakeup that follows a
      post, by another loop or by the loop itself; the read of a reported eventfd. */
  datatype Step =
    | Move(st: S.Step, deliver: bool)
    | Wake(loop: nat, poster: nat)
    | SelfWake(loop: nat)
    | ReadEvent(loop: nat)

  function Started(threads: nat): World {
    World(S.Started(threads), seq(threads + 1, _ => Q.Idle()))
  }

  // The loop whose thread makes a step; references come and go on any thread.
  function MoverOf(st: S.Step): Option<nat> {
    match st
    case Accept(_, _, _) => Some(0)
    case Store => Some(0)
    case Poll(k, _) => Some(k)
    case HandleClose(k) => Some(k)
    case NextChannel(k) => Some(k)
    case Send(k, _) => Some(k)
    case Shutdown(k, _) => Some(k)
    case Swap(k) => Some(k)
    case RunTask(k) => Some(k)
    case Finish(k) => Some(k)
    case UserTake(_) => None
    case UserDrop(_) => None
  }

  // The thread of loop `j` is not between a push and its wakeup.
  predicate Between(w: World, j: nat) {
    exists k | 0 <= k < |w.queues| :: j in w.queues[k].waking || (j == k && w.queues[k].selfWaking)
  }

  // The protocol steps that a server step is, for loop `k`.
  function OwnSteps(st: S.Step, deliver: bool, k: nat): seq<QueueStep> {
    match st
    case Poll(j, _) => if j == k then [Q.Poll(deliver)] else []
    case Swap(j) => if j == k then [Q.Swap] else []
    case RunTask(j) => if j == k then [Q.Execute] else []
    case Finish(j) => if j == k then [Q.Finish] else []
    case _ => []
  }

  function PushSteps(p: Posting, k: nat): seq<QueueStep> {
    if p.NoPosting? || p.target != k then []
    else if p.poster == k then [Q.LoopPush(p.task)] else [Q.Push(p.poster, p.task)]
  }

  function StepsOf(s: S.Server, e: Step, k: nat): seq<QueueStep>
    requires e.Move? ==> S.Legal(s, e.st)
  {
    match e
    case Move(st, deliver) => OwnSteps(st, deliver, k) + PushSteps(PostingOf(s, st), k)
    case Wake(j, poster) => if j == k then [Q.Wake(poster)] else []
    case SelfWake(j) => if j == k then [Q.SelfWake] else []
    case ReadEvent(j) => if j == k then [Q.ReadEvent] else []
  }

  /** When a step can be taken: a thread finishes a queueInLoop before it goes on, epoll reports the
      eventfd only on an edge, and a reported eventfd is read before the tasks are taken. */
  predicate Possible(w: World, e: Step) {
    match e
    case Move(st, deliver) =>
      && S.Legal(w.server, st)
      && (MoverOf(st).Some? ==> !Between(w, MoverOf(st).value))
      && (st.Poll? && deliver ==> st.loop < |w.queues| && w.queues[st.loop].edge && w.queues[st.loop].counter > 0)
      && (st.Swap? ==> st.loop < |w.queues| && !w.queues[st.loop].ready)
    case Wake(k, poster) => k < |w.queues| && poster in w.queues[k].waking
    case SelfWake(k) => k < |w.queues| && w.queues[k].selfWaking
    case ReadEvent(k) => k < |w.queues| && w.queues[k].ready && !Between(w, k)
  }

  // What a step posts to loop `k`, what loop `k` runs in it, and the server after it.
  function PostedIn(s: S.Server, e: Step, k: nat): seq<S.Task>
    requires e.Move? ==> S.Legal(s, e.st)
  {
    if e.Move? then PostedBy(s, e.st, k) else []
  }

  function RanIn(s: S.Server, e: Step, k: nat): seq<S.Task>
    requires e.Move? ==> S.Legal(s, e.st)
  {
    if e.Move? then RanBy(s, e.st, k) else []
  }

  function After(s: S.Server, e: Step): S.Server
    requires e.Move? ==> S.Legal(s, e.st)
  {
    if e.Move? then S.Next(s, e.st) else s
  }

  predicate Legal(w: World, e: Step) {
    Possible(w, e) && forall k | 0 <= k < |w.queues| :: Q.LegalRun(w.queues[k], StepsOf(w.server, e, k))
  }

  function Next(w: World, e: Step): World
    requires Legal(w, e)
  {
    World(After(w.server, e),
          seq(|w.queues|, k requires 0 <= k < |w.queues| => Q.Run(w.queues[k], StepsOf(w.server, e, k))))
  }

  predicate LegalRun(w: World, es: seq<Step>)
    decreases |es|
  {
    es == [] || (Legal(w, es[0]) && LegalRun(Next(w, es[0]), es[1..]))
  }

  function Run(w: World, es: seq<Step>): World
    requires LegalRun(w, es)
    decreases |es|
  {
    if es == [] then w else Run(Next(w, es[0]), es[1..])
  }

  // ---- Every step keeps the two in step ---------------------------------------------------------

  function PhaseOf(p: S.Phase): Q.Phase {
    match p
    case Polling => Q.Polling
    case Dispatching => Q.Dispatching
    case Running => Q.Running
  }

  predicate Matches(l: S.LoopState, t: Queue) {
    t.phase == PhaseOf(l.phase) && t.tasks == l.queue && t.batch == l.batch && t.pos == l.pos
  }

  ghost predicate QueueInv(l: S.LoopState, t: Queue) { Matches(l, t) && Q.Inv(t) }

  ghost predicate Inv(w: World) {
    |w.queues| == |w.server.loops| && forall k | 0 <= k < |w.queues| :: QueueInv(w.server.loops[k], w.queues[k])
  }

  lemma {:induction false} RunOne(t: Queue, a: QueueStep)
    requires Q.Legal(t, a)
    ensures Q.LegalRun(t, [a]) && Q.Run(t, [a]) == Q.Next(t, a)
  {
    assert [a][1..] == [];
  }

  lemma {:induction false} RunNone(t: Queue)
    ensures Q.LegalRun(t, []) && Q.Run(t, []) == t
  {
  }

  lemma {:induction false} RunAppend(t: Queue, a: seq<QueueStep>, b: seq<QueueStep>)
    requires Q.LegalRun(t, a) && Q.LegalRun(Q.Run(t, a), b)
    ensures Q.LegalRun(t, a + b) && Q.Run(t, a + b) == Q.Run(Q.Run(t, a), b)
    decreases |a|
  {
    hide Q.Legal, Q.Next;
    if a == [] {
      assert a + b == b;
    } else {
      RunAppend(Q.Next(t, a[0]), a[1..], b);
      assert (a + b)[0] == a[0] && (a + b)[1..] == a[1..] + b;
    }
  }

  /** What steps of the protocol do to one queue: `posted` pushed, `ran` executed. */
  ghost predicate Did(t: Queue, sts: seq<QueueStep>, posted: seq<S.Task>, ran: seq<S.Task>) {
    && Q.LegalRun(t, sts)
    && Q.Run(t, sts).history == t.history + posted && Q.Run(t, sts).executed == t.executed + ran
  }

  lemma {:induction false} DidNothing(t: Queue)
    ensures Did(t, [], [], []) && Q.Run(t, []) == t
  {
    assert t.history + [] == t.history && t.executed + [] == t.executed;
  }

  lemma {:induction false} DidOne(t: Queue, sts: seq<QueueStep>, posted: seq<S.Task>, ran: seq<S.Task>)
    requires |sts| == 1 && Q.Legal(t, sts[0])
    requires Q.Next(t, sts[0]).history == t.history + posted && Q.Next(t, sts[0]).executed == t.executed + ran
    requires Q.Inv(t)
    ensures Did(t, sts, posted, ran) && Q.Run(t, sts) == Q.Next(t, sts[0]) && Q.Inv(Q.Run(t, sts))
  {
    Q.NextKeeps(t, sts[0]);
    hide Q.Inv, Q.Legal, Q.Next, Q.Run, Q.LegalRun;
    assert sts == [sts[0]];
    RunOne(t, sts[0]);
  }

  // The loop's own move is a legal protocol step, or none.
  lemma {:induction false} OwnStepsFit(s: S.Server, st: S.Step, deliver: bool, k: nat, t: Queue)
    requires S.Legal(s, st) && k < |s.loops| && QueueInv(s.loops[k], t)
    requires MoverOf(st) == Some(k) ==> !t.selfWaking
    requires st.Poll? && st.loop == k && deliver ==> t.edge && t.counter > 0
    requires st.Swap? && st.loop == k ==> !t.ready
    ensures var sts := OwnSteps(st, deliver, k);
            && Did(t, sts, [], RanBy(s, st, k))
            && var r := Q.Run(t, sts);
               && QueueInv(Moved(s.loops[k], st, k), r)
               && r.waking == t.waking && r.selfWaking == t.selfWaking && (r.ready ==> t.ready || deliver)
  {
    var sts := OwnSteps(st, deliver, k);
    if sts == [] {
      NoOwnStep(s, st, deliver, k);
      DidNothing(t);
      hide S.Legal, Q.Inv, Q.Run, Q.LegalRun, Did, RanBy, Moved, OwnSteps;
    } else {
      OwnStepIsLegal(s, st, deliver, k, t);
      OwnStepEffect(s, st, deliver, k, t);
      DidOne(t, sts, [], RanBy(s, st, k));
      hide S.Legal, Q.Inv, Q.Legal, Q.Next, Q.Run, Q.LegalRun, Did, Matches, Moved, RanBy, OwnSteps;
    }
  }

  lemma NoOwnStep(s: S.Server, st: S.Step, deliver: bool, k: nat)
    requires S.Legal(s, st) && k < |s.loops| && OwnSteps(st, deliver, k) == []
    ensures RanBy(s, st, k) == []
    ensures var l, m := s.loops[k], Moved(s.loops[k], st, k);
            m.phase == l.phase && m.queue == l.queue && m.batch == l.batch && m.pos == l.pos
  {
    hide S.Legal;
  }

  lemma OwnStepEffect(s: S.Server, st: S.Step, deliver: bool, k: nat, t: Queue)
    requires S.Legal(s, st) && k < |s.loops| && Matches(s.loops[k], t) && OwnSteps(st, deliver, k) != []
    requires Q.Legal(t, OwnSteps(st, deliver, k)[0]) && (st.RunTask? ==> s.loops[k].pos < |s.loops[k].batch|)
    ensures var r := Q.Next(t, OwnSteps(st, deliver, k)[0]);
            && Matches(Moved(s.loops[k], st, k), r)
            && r.waking == t.waking && r.selfWaking == t.selfWaking && (r.ready ==> t.ready || deliver)
            && r.history == t.history + [] && r.executed == t.executed + RanBy(s, st, k)
  {
    hide S.Legal, Q.Legal;
    assert t.executed + [] == t.executed && t.history + [] == t.history;
  }

  lemma OwnStepIsLegal(s: S.Server, st: S.Step, deliver: bool, k: nat, t: Queue)
    requires S.Legal(s, st) && k < |s.loops| && QueueInv(s.loops[k], t) && OwnSteps(st, deliver, k) != []
    requires !t.selfWaking && (st.Swap? ==> !t.ready)
    requires st.Poll? && deliver ==> t.edge && t.counter > 0
    ensures |OwnSteps(st, deliver, k)| == 1 && Q.Legal(t, OwnSteps(st, deliver, k)[0])
    ensures st.RunTask? ==> s.loops[k].pos < |s.loops[k].batch|
  {
    hide S.Held, S.Resident, S.WellAimed, Q.Inv;
  }

  // So is a push, by another loop's thread or by the loop's own.
  lemma {:induction false} PushStepsFit(p: Posting, k: nat, l: S.LoopState, t: Queue)
    requires QueueInv(l, t)
    requires p.Posting? && p.target == k && p.poster == k ==> S.Acting(l) && !t.selfWaking
    requires p.Posting? && p.target == k && p.poster != k ==> p.poster !in t.waking
    ensures var sts := PushSteps(p, k);
            var posted := if p.Posting? && p.target == k then [p.task] else [];
            && Did(t, sts, posted, [])
            && var r := Q.Run(t, sts);
               && QueueInv(l.(queue := l.queue + posted), r) && r.ready == t.ready
               && r.waking == (if posted != [] && p.poster != k then t.waking + {p.poster} else t.waking)
               && (r.selfWaking ==> t.selfWaking || (posted != [] && p.poster == k))
  {
    hide Q.Inv, Q.Run, Q.LegalRun, Did;
    var sts := PushSteps(p, k);
    if sts == [] {
      DidNothing(t);
      assert l.queue + [] == l.queue;
    } else {
      assert t.executed + [] == t.executed;
      DidOne(t, sts, [p.task], []);
    }
  }

  // A loop posts to itself only while it is handling events or running tasks.
  lemma PosterActs(s: S.Server, st: S.Step, k: nat)
    requires S.Legal(s, st) && k < |s.loops|
    ensures var p := PostingOf(s, st);
            p.Posting? ==>
              && MoverOf(st) == Some(p.poster) && p.poster < |s.loops| && p.target < |s.loops|
              && (p.poster == k ==> S.Acting(Moved(s.loops[k], st, k)))
  {
    hide S.Held, S.Resident;
  }

  lemma {:induction false} DidBoth(
    t: Queue, a: seq<QueueStep>, b: seq<QueueStep>, posted: seq<S.Task>, ran: seq<S.Task>)
    requires Did(t, a, [], ran) && Did(Q.Run(t, a), b, posted, [])
    ensures Did(t, a + b, posted, ran) && Q.Run(t, a + b) == Q.Run(Q.Run(t, a), b)
  {
    hide Q.Run, Q.LegalRun;
    RunAppend(t, a, b);
    assert t.history + [] == t.history && t.executed + ran + [] == t.executed + ran;
  }

  lemma MoveFits(w: World, e: Step, k: nat)
    requires Inv(w) && e.Move? && Possible(w, e) && k < |w.queues|
    ensures Fits(w, e, k)
    ensures var p := PostingOf(w.server, e.st);
            var t, r := w.queues[k], Q.Run(w.queues[k], StepsOf(w.server, e, k));
            var hit := p.Posting? && p.target == k;
            && r.waking == (if hit && p.poster != k then t.waking + {p.poster} else t.waking)
            && (r.selfWaking ==> t.selfWaking || (hit && p.poster == k)) && (r.ready ==> t.ready || e.deliver)
  {
    hide S.Legal, S.Next, QueueInv, Moved, OwnSteps, PushSteps, PostingOf, Q.LegalRun, Q.Run, S.Acting;
    var s, t, st := w.server, w.queues[k], e.st;
    LoopEffect(s, st, k);
    PosterActs(s, st, k);
    var p := PostingOf(s, st);
    assert MoverOf(st) == Some(k) ==> !t.selfWaking;
    assert p.Posting? ==> p.poster !in t.waking;
    OwnStepsFit(s, st, e.deliver, k, t);
    var m := Q.Run(t, OwnSteps(st, e.deliver, k));
    PushStepsFit(p, k, Moved(s.loops[k], st, k), m);
    DidBoth(t, OwnSteps(st, e.deliver, k), PushSteps(p, k), PostedBy(s, st, k), RanBy(s, st, k));
  }

  // A step is legal for loop `k`'s queue, keeps it in step, and does to it what the server's step did.
  ghost predicate Fits(w: World, e: Step, k: nat)
    requires k < |w.queues| && (e.Move? ==> S.Legal(w.server, e.st))
  {
    var sts := StepsOf(w.server, e, k);
    && Did(w.queues[k], sts, PostedIn(w.server, e, k), RanIn(w.server, e, k))
    && |After(w.server, e).loops| == |w.server.loops| && k < |w.server.loops|
    && QueueInv(After(w.server, e).loops[k], Q.Run(w.queues[k], sts))
  }

  // A wakeup or a read of the eventfd leaves queue and batch alone.
  lemma SignalFits(w: World, e: Step, k: nat)
    requires Inv(w) && !e.Move? && Possible(w, e) && k < |w.queues|
    ensures Fits(w, e, k)
  {
    hide Q.Run, Q.LegalRun, Q.Inv, Did;
    var t, sts := w.queues[k], StepsOf(w.server, e, k);
    assert QueueInv(w.server.loops[k], t);
    if sts == [] {
      DidNothing(t);
    } else {
      ReadyDispatches(t);
      assert t.history + [] == t.history && t.executed + [] == t.executed;
      DidOne(t, sts, [], []);
    }
  }

  lemma ReadyDispatches(t: Queue)
    requires Q.Inv(t)
    ensures t.ready ==> t.phase == Q.Dispatching
  {
  }

  /** Every step the threads can take is, on every loop, one the protocol allows; it leaves the two in
      step, and the protocol's record grows by exactly what was posted and what was run. */
  lemma NextKeeps(w: World, e: Step)
    requires Inv(w) && Possible(w, e)
    ensures Legal(w, e) && Inv(Next(w, e))
    ensures forall k | 0 <= k < |w.queues| ::
              && Next(w, e).queues[k].history == w.queues[k].history + PostedIn(w.server, e, k)
              && Next(w, e).queues[k].executed == w.queues[k].executed + RanIn(w.server, e, k)
  {
    forall k | 0 <= k < |w.queues| ensures Fits(w, e, k) {
      if e.Move? {
        MoveFits(w, e, k);
      } else {
        SignalFits(w, e, k);
      }
    }
    SameCount(w, e);
    hide S.Legal, S.Next, QueueInv, StepsOf, Q.LegalRun, Q.Run, PostedIn, RanIn, Possible, After;
    forall k | 0 <= k < |w.queues| ensures Q.LegalRun(w.queues[k], StepsOf(w.server, e, k)) {
      assert Fits(w, e, k);
    }
    var r := Next(w, e);
    forall k | 0 <= k < |w.queues|
      ensures QueueInv(r.server.loops[k], r.queues[k])
      ensures r.queues[k].history == w.queues[k].history + PostedIn(w.server, e, k)
      ensures r.queues[k].executed == w.queues[k].executed + RanIn(w.server, e, k)
    {
      assert Fits(w, e, k);
    }
  }

  lemma SameCount(w: World, e: Step)
    requires Possible(w, e)
    ensures |After(w.server, e).loops| == |w.server.loops|
  {
    if e.Move? {
      LoopsStay(w.server, e.st);
    }
  }

  lemma LoopsStay(s: S.Server, st: S.Step)
    requires S.Legal(s, st)
    ensures |S.Next(s, st).loops| == |s.loops|
  {
    hide S.Held;
  }

  // The steps of the server in a run.
  function Moves(es: seq<Step>): seq<S.Step> {
    if es == [] then [] else (if es[0].Move? then [es[0].st] else []) + Moves(es[1..])
  }

  /** A run of both is a run of the server, and the protocol's record of each loop is exactly what that
      run posted to it and what it ran. */
  lemma {:induction false} RunKeeps(w: World, es: seq<Step>)
    requires Inv(w) && LegalRun(w, es)
    ensures S.LegalRun(w.server, Moves(es)) && Run(w, es).server == S.Run(w.server, Moves(es))
    ensures Inv(Run(w, es)) && |Run(w, es).queues| == |w.queues|
    ensures forall k | 0 <= k < |w.queues| ::
              && Run(w, es).queues[k].history == w.queues[k].history + Posted(w.server, Moves(es), k)
              && Run(w, es).queues[k].executed == w.queues[k].executed + Ran(w.server, Moves(es), k)
    decreases |es|
  {
    hide Inv, Legal, Next, S.Legal, S.Next, Possible, S.LegalRun, S.Run, Posted, Ran;
    if es == [] {
      NothingMoves(w);
    } else {
      var e, w' := es[0], Next(w, es[0]);
      LegalIsPossible(w, e);
      NextKeeps(w, e);
      RunKeeps(w', es[1..]);
      FirstMove(w, e, es);
      var r := Run(w, es);
      forall k | 0 <= k < |w.queues|
        ensures r.queues[k].history == w.queues[k].history + Posted(w.server, Moves(es), k)
        ensures r.queues[k].executed == w.queues[k].executed + Ran(w.server, Moves(es), k)
      {
        var p, q := PostedIn(w.server, e, k), Posted(w'.server, Moves(es[1..]), k);
        assert w.queues[k].history + p + q == w.queues[k].history + (p + q);
        var a, b := RanIn(w.server, e, k), Ran(w'.server, Moves(es[1..]), k);
        assert w.queues[k].executed + a + b == w.queues[k].executed + (a + b);
      }
    }
  }

  lemma NothingMoves(w: World)
    ensures S.LegalRun(w.server, []) && S.Run(w.server, []) == w.server
    ensures forall k: nat, h: seq<S.Task> :: h + Posted(w.server, [], k) == h && h + Ran(w.server, [], k) == h
  {
  }

  // The first step of a run: the server's part of it, if it has one.
  lemma {:induction false} FirstMove(w: World, e: Step, es: seq<Step>)
    requires Legal(w, e) && es != [] && es[0] == e && S.LegalRun(Next(w, e).server, Moves(es[1..]))
    ensures S.LegalRun(w.server, Moves(es)) && |Next(w, e).queues| == |w.queues|
    ensures S.Run(w.server, Moves(es)) == S.Run(Next(w, e).server, Moves(es[1..]))
    ensures forall k: nat ::
              && Posted(w.server, Moves(es), k)
                 == PostedIn(w.server, e, k) + Posted(Next(w, e).server, Moves(es[1..]), k)
              && Ran(w.server, Moves(es), k) == RanIn(w.server, e, k) + Ran(Next(w, e).server, Moves(es[1..]), k)
  {
    AfterStep(w, e);
    MovesFirst(es);
    hide Legal, Next, Moves, Posted, Ran, S.Next, S.Legal, S.Run, S.LegalRun, PostedBy, RanBy;
    var rest := Moves(es[1..]);
    if e.Move? {
      FirstOfRun(w.server, e.st, rest);
    } else {
      assert Moves(es) == rest;
      forall k: nat ensures [] + Posted(w.server, rest, k) == Posted(w.server, rest, k) {
      }
      forall k: nat ensures [] + Ran(w.server, rest, k) == Ran(w.server, rest, k) {
      }
    }
  }

  lemma AfterStep(w: World, e: Step)
    requires Legal(w, e)
    ensures Next(w, e).server == After(w.server, e) && |Next(w, e).queues| == |w.queues|
    ensures e.Move? ==> S.Legal(w.server, e.st)
  {
    hide S.Legal, S.Next;
  }

  lemma {:induction false} FirstOfRun(s: S.Server, st: S.Step, sts: seq<S.Step>)
    requires S.Legal(s, st) && S.LegalRun(S.Next(s, st), sts)
    ensures S.LegalRun(s, [st] + sts) && S.Run(s, [st] + sts) == S.Run(S.Next(s, st), sts)
    ensures forall k: nat ::
              && Posted(s, [st] + sts, k) == PostedBy(s, st, k) + Posted(S.Next(s, st), sts, k)
              && Ran(s, [st] + sts, k) == RanBy(s, st, k) + Ran(S.Next(s, st), sts, k)
  {
    hide S.Legal, S.Next, PostedBy, RanBy;
    assert ([st] + sts)[0] == st && ([st] + sts)[1..] == sts;
  }

  lemma LegalIsPossible(w: World, e: Step)
    requires Legal(w, e)
    ensures Possible(w, e)
  {
  }

  lemma StartedIsFine(threads: nat)
    ensures Inv(Started(threads))
  {
  }

  // ---- The theorems -----------------------------------------------------------------------------

  /** No lost wakeup on any loop of the server, in every interleaving of its loops: a loop about to block
      with tasks queued has a readable eventfd whose edge is still to be reported, or some other loop
      is between its push and its wakeup. */
  lemma {:induction false} ServerNeverSleepsOnTasks(threads: nat, es: seq<Step>, k: nat)
    requires LegalRun(Started(threads), es) && k <= threads
    ensures var w := Run(Started(threads), es);
            && k < |w.queues| == |w.server.loops|
            && (w.server.loops[k].phase == S.Polling && w.server.loops[k].queue != [] ==>
                  (w.queues[k].counter > 0 && w.queues[k].edge) || w.queues[k].waking != {})
            && (forall j | j in w.queues[k].waking :: Possible(w, Wake(k, j)))
  {
    StartedIsFine(threads);
    RunKeeps(Started(threads), es);
    var w := Run(Started(threads), es);
    hide Run, LegalRun, Started;
    assert QueueInv(w.server.loops[k], w.queues[k]);
  }

  /** With nobody half-way through a post, the wakeup is there. */
  lemma {:induction false} SettledLoopWakes(threads: nat, es: seq<Step>, k: nat)
    requires LegalRun(Started(threads), es) && k <= threads
    requires k < |Run(Started(threads), es).queues| && Run(Started(threads), es).queues[k].waking == {}
    ensures var w := Run(Started(threads), es);
            && k < |w.server.loops|
            && (w.server.loops[k].phase == S.Polling && w.server.loops[k].queue != [] ==>
                  w.queues[k].counter > 0 && w.queues[k].edge)
  {
    ServerNeverSleepsOnTasks(threads, es, k);
  }

  /** What the protocol records of each loop is what the server's run did, and it is conserved. */
  lemma {:induction false} RecordIsTrue(threads: nat, es: seq<Step>, k: nat)
    requires LegalRun(Started(threads), es) && k <= threads
    ensures S.LegalRun(S.Started(threads), Moves(es))
    ensures var w := Run(Started(threads), es);
            && k < |w.queues| == |w.server.loops| && w.server == S.Run(S.Started(threads), Moves(es))
            && w.queues[k].history == Posted(S.Started(threads), Moves(es), k)
            && w.queues[k].executed == Ran(S.Started(threads), Moves(es), k)
            && w.queues[k].executed + S.Pending(w.server.loops[k]) == w.queues[k].history
  {
    StartedIsFine(threads);
    RunKeeps(Started(threads), es);
    PostsAreConserved(threads, Moves(es), k);
    assert Started(threads).queues[k] == Q.Idle();
  }

  // ---- Every run of the server is possible ------------------------------------------------------

  // Nobody is half-way through a post, and no eventfd has been reported and not read.
  predicate Calm(w: World) {
    forall k | 0 <= k < |w.queues| ::
      w.queues[k].waking == {} && !w.queues[k].selfWaking && !w.queues[k].ready
  }

  // The wakeup owed after a step that posts.
  function Owed(w: World, p: Posting): seq<Step> {
    if p.NoPosting? || p.target >= |w.queues| then []
    else if p.poster != p.target then [Wake(p.target, p.poster)]
    else if w.queues[p.target].selfWaking then [SelfWake(p.target)] else []
  }

  lemma MoveThenWake(w: World, st: S.Step) returns (es: seq<Step>)
    requires Inv(w) && Calm(w) && S.Legal(w.server, st)
    ensures LegalRun(w, es) && Moves(es) == [st] && Inv(Run(w, es)) && Calm(Run(w, es))
  {
    var move := Move(st, false);
    CalmMoves(w, st);
    NextKeeps(w, move);
    AfterMove(w, st);
    hide S.Legal, S.Next, Inv, PostingOf, Calm, AlmostCalm, Owed, Legal, Next, Possible;
    var w1, p := Next(w, move), PostingOf(w.server, st);
    var owed := Owed(w1, p);
    OwedIsPossible(w1, p);
    es := [move] + owed;
    assert es[0] == move && es[1..] == owed;
    if owed == [] {
      assert LegalRun(w1, owed) && Run(w1, owed) == w1;
    } else {
      NextKeeps(w1, owed[0]);
      WakeCalms(w1, p);
      RunOneStep(w1, owed);
      assert Moves(owed[1..]) == [];
    }
  }

  lemma {:induction false} RunOneStep(w: World, es: seq<Step>)
    requires |es| == 1 && Legal(w, es[0])
    ensures LegalRun(w, es) && Run(w, es) == Next(w, es[0])
  {
    hide Legal, Next;
    assert es[1..] == [];
  }

  lemma CalmMoves(w: World, st: S.Step)
    requires Inv(w) && Calm(w) && S.Legal(w.server, st)
    ensures Possible(w, Move(st, false))
  {
    hide S.Held, QueueInv;
  }

  lemma OwedIsPossible(w: World, p: Posting)
    requires AlmostCalm(w, p) && (p.Posting? ==> p.target < |w.queues|)
    ensures var owed := Owed(w, p);
            && (owed == [] ==> Calm(w))
            && (owed != [] ==> |owed| == 1 && !owed[0].Move? && Possible(w, owed[0]))
  {
    hide S.Legal;
  }

  // After a move from calm, at most the target of its post has a wakeup to come.
  predicate AlmostCalm(w: World, p: Posting) {
    forall k | 0 <= k < |w.queues| ::
      && !w.queues[k].ready
      && w.queues[k].waking == (if p.Posting? && p.target == k && p.poster != k then {p.poster} else {})
      && (w.queues[k].selfWaking ==> p.Posting? && p.target == k == p.poster)
  }

  lemma AfterMove(w: World, st: S.Step)
    requires Inv(w) && Calm(w) && S.Legal(w.server, st) && Possible(w, Move(st, false)) && Legal(w, Move(st, false))
    ensures var w1, p := Next(w, Move(st, false)), PostingOf(w.server, st);
            AlmostCalm(w1, p) && (p.Posting? ==> p.target < |w1.queues|)
  {
    var e := Move(st, false);
    forall k | 0 <= k < |w.queues|
      ensures var p, r := PostingOf(w.server, st), Q.Run(w.queues[k], StepsOf(w.server, e, k));
              && !r.ready && (r.selfWaking ==> p.Posting? && p.target == k == p.poster)
              && r.waking == (if p.Posting? && p.target == k && p.poster != k then {p.poster} else {})
              && (p.Posting? ==> p.target < |w.queues|)
    {
      MoveFits(w, e, k);
      PosterActs(w.server, st, k);
    }
    hide S.Legal, S.Next, Inv, PostingOf, StepsOf, Q.Run, Q.LegalRun, Possible;
  }

  lemma WakeCalms(w: World, p: Posting)
    requires AlmostCalm(w, p) && Owed(w, p) != [] && Legal(w, Owed(w, p)[0])
    ensures Calm(Next(w, Owed(w, p)[0]))
  {
    hide S.Legal, Q.LegalRun, Q.Run;
    var e := Owed(w, p)[0];
    forall k | 0 <= k < |w.queues|
      ensures var r := Q.Run(w.queues[k], StepsOf(w.server, e, k)); r.waking == {} && !r.selfWaking && !r.ready
    {
      var t, sts := w.queues[k], StepsOf(w.server, e, k);
      if k == p.target {
        assert Q.Legal(t, sts[0]);
        RunOne(t, sts[0]);
      } else {
        RunNone(t);
      }
    }
  }

  /** No restriction is put on the server by its wakeups: each of its runs is the server's part of a run
      of both. */
  lemma EveryServerRun(threads: nat, sts: seq<S.Step>) returns (es: seq<Step>)
    requires S.LegalRun(S.Started(threads), sts)
    ensures LegalRun(Started(threads), es) && Moves(es) == sts
  {
    StartedIsFine(threads);
    es := EveryRunIsPossible(Started(threads), sts);
  }

  lemma {:induction false} EveryRunIsPossible(w: World, sts: seq<S.Step>) returns (es: seq<Step>)
    requires Inv(w) && Calm(w) && S.LegalRun(w.server, sts)
    ensures LegalRun(w, es) && Moves(es) == sts
    decreases |sts|
  {
    hide Inv, Calm, Legal, Next, S.Legal, S.Next;
    es := [];
    if sts != [] {
      var first := MoveThenWake(w, sts[0]);
      RunKeeps(w, first);
      assert [sts[0]][1..] == [];
      var rest := EveryRunIsPossible(Run(w, first), sts[1..]);
      es := first + rest;
      RunJoins(w, first, rest);
      MovesJoin(first, rest);
    }
  }

  lemma {:induction false} RunJoins(w: World, a: seq<Step>, b: seq<Step>)
    requires LegalRun(w, a) && LegalRun(Run(w, a), b)
    ensures LegalRun(w, a + b) && Run(w, a + b) == Run(Run(w, a), b)
    decreases |a|
  {
    hide Legal, Next;
    if a == [] {
      assert a + b == b;
    } else {
      RunJoins(Next(w, a[0]), a[1..], b);
      assert (a + b)[0] == a[0] && (a + b)[1..] == a[1..] + b;
    }
  }

  lemma {:induction false} MovesJoin(a: seq<Step>, b: seq<Step>)
    ensures Moves(a + b) == Moves(a) + Moves(b)
  {
    if a == [] {
      assert a + b == b;
    } else {
      var c := a + b;
      assert c[0] == a[0] && c[1..] == a[1..] + b;
      MovesJoin(a[1..], b);
      MovesFirst(a);
      MovesFirst(c);
      hide Moves;
      var first := if a[0].Move? then [a[0].st] else [];
      assert first + (Moves(a[1..]) + Moves(b)) == first + Moves(a[1..]) + Moves(b);
    }
  }

  lemma {:induction false} MovesFirst(es: seq<Step>)
    requires es != []
    ensures Moves(es) == (if es[0].Move? then [es[0].st] else []) + Moves(es[1..])
  {
  }
}
