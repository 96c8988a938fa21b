/** The event loop's task queue as a concurrent protocol: any number of foreign threads push under
    the lock and then write the eventfd; the loop polls, dispatches, swaps the queue and runs it. */
module TaskQueue {

  /** Where the loop thread is: about to block or blocked in poll; handling active channels; or
      inside doPendingFunctors after the swap. */
  datatype Phase = Polling | Dispatching | Running

  /** `edge`: an EPOLLIN edge of the eventfd not yet reported; `ready`: it is among the channels of
      this dispatch; `waking`: threads between their push and their wakeup(), and `selfWaking` the
      same for the loop thread; `history` and `executed`: every push and every run so far. */
  datatype Loop<T> = Loop(
    phase: Phase, tasks: seq<T>, batch: seq<T>, pos: nat, calling: bool,
    counter: nat, edge: bool, ready: bool, waking: set<nat>, selfWaking: bool,
    history: seq<T>, executed: seq<T>)

  function Idle<T>(): Loop<T> { Loop(Polling, [], [], 0, false, 0, false, false, {}, false, [], []) }

  datatype Step<T> =
    | Push(thread: nat, task: T)     // the locked half of queueInLoop on a foreign thread
    | Wake(thread: nat)              // its wakeup()
    | Poll(deliver: bool)            // epoll_wait returns, with or without the eventfd
    | ReadEvent                      // handleRead of the eventfd channel
    | LoopPush(task: T)              // queueInLoop on the loop thread, by a handler or a task
    | SelfWake
    | Swap                           // doPendingFunctors takes the queue
    | Execute                        // the next task of the batch
    | Finish                         // doPendingFunctors returns

  // The test queueInLoop makes after pushing.
  predicate NeedsWakeup<T>(s: Loop<T>, inLoopThread: bool) { !inLoopThread || s.calling }

  predicate Legal<T>(s: Loop<T>, st: Step<T>) {
    match st
    case Push(thread, _) => thread !in s.waking
    case Wake(thread) => thread in s.waking
    case Poll(deliver) => s.phase == Polling && (deliver ==> s.edge && s.counter > 0)
    case ReadEvent => s.phase == Dispatching && s.ready
    case LoopPush(_) => !s.selfWaking && (s.phase == Dispatching || (s.phase == Running && 0 < s.pos))
    case SelfWake => s.selfWaking
    case Swap => s.phase == Dispatching && !s.ready
    case Execute => s.phase == Running && !s.selfWaking && s.pos < |s.batch|
    case Finish => s.phase == Running && !s.selfWaking && s.pos == |s.batch|
  }

  function Pushed<T>(s: Loop<T>, task: T): Loop<T> {
    s.(tasks := s.tasks + [task], history := s.history + [task])
  }

  function Woken<T>(s: Loop<T>): Loop<T> { s.(counter := s.counter + 1, edge := true) }

  function Next<T>(s: Loop<T>, st: Step<T>): Loop<T>
    requires Legal(s, st)
  {
    match st
    case Push(thread, task) =>
      var s' := Pushed(s, task);
      if NeedsWakeup(s, false) then s'.(waking := s.waking + {thread}) else s'
    case Wake(thread) => Woken(s).(waking := s.waking - {thread})
    case Poll(deliver) => s.(phase := Dispatching, ready := deliver, edge := s.edge && !deliver)
    case ReadEvent => s.(counter := 0, ready := false)
    case LoopPush(task) => Pushed(s, task).(selfWaking := NeedsWakeup(s, true))
    case SelfWake => Woken(s).(selfWaking := false)
    case Swap => s.(phase := Running, calling := true, batch := s.tasks, tasks := [], pos := 0)
    case Execute => s.(executed := s.executed + [s.batch[s.pos]], pos := s.pos + 1)
    case Finish => s.(phase := Polling, calling := false, batch := [], pos := 0)
  }

  predicate LegalRun<T>(s: Loop<T>, sts: seq<Step<T>>)
    decreases |sts|
  {
    sts == [] || (Legal(s, sts[0]) && LegalRun(Next(s, sts[0]), sts[1..]))
  }

  function Run<T>(s: Loop<T>, sts: seq<Step<T>>): Loop<T>
    requires LegalRun(s, sts)
    decreases |sts|
  {
    if sts == [] then s else Run(Next(s, sts[0]), sts[1..])
  }

  // ---- What every interleaving keeps ------------------------------------------------------------------

  ghost predicate Inv<T>(s: Loop<T>) {
    && s.pos <= |s.batch|
    && (s.phase == Running <==> s.calling) && (s.phase != Running ==> s.batch == [])
    && (s.selfWaking ==> s.phase == Running) && (s.ready ==> s.phase == Dispatching)
    && s.executed + s.batch[s.pos..] + s.tasks == s.history
    && (s.tasks != [] ==>
          (s.counter > 0 && s.edge) || s.waking != {} || s.selfWaking || s.phase == Dispatching)
  }

  lemma NextKeeps<T>(s: Loop<T>, st: Step<T>)
    requires Inv(s) && Legal(s, st)
    ensures Inv(Next(s, st))
  {
    match st
    case Push(_, task) => PushedInOrder(s, task);
    case LoopPush(task) => PushedInOrder(s, task);
    case Execute => ExecutedInOrder(s);
    case Swap =>
      assert s.batch[s.pos..] == [] && s.executed + [] + s.tasks == s.executed + s.tasks + [];
    case Finish =>
      assert s.batch[s.pos..] == [];
    case _ =>
  }

  lemma PushedInOrder<T>(s: Loop<T>, task: T)
    requires s.pos <= |s.batch| && s.executed + s.batch[s.pos..] + s.tasks == s.history
    ensures var r := Pushed(s, task); r.executed + r.batch[r.pos..] + r.tasks == r.history
  {
    assert s.executed + s.batch[s.pos..] + (s.tasks + [task]) == s.executed + s.batch[s.pos..] + s.tasks + [task];
  }

  lemma ExecutedInOrder<T>(s: Loop<T>)
    requires s.pos < |s.batch|
    ensures s.executed + [s.batch[s.pos]] + s.batch[s.pos + 1..] == s.executed + s.batch[s.pos..]
  {
    assert s.batch[s.pos..] == [s.batch[s.pos]] + s.batch[s.pos + 1..];
  }

  lemma {:induction false} RunKeeps<T>(s: Loop<T>, sts: seq<Step<T>>)
    requires Inv(s) && LegalRun(s, sts)
    ensures Inv(Run(s, sts))
    decreases |sts|
  {
    if sts != [] {
      NextKeeps(s, sts[0]);
      RunKeeps(Next(s, sts[0]), sts[1..]);
    }
  }

  /** No lost wakeup, in every interleaving: when the loop is about to block with tasks queued, the
      eventfd is readable with its edge still to be reported, or some thread has yet to write it. */
  lemma {:induction false} NoLostWakeup<T>(sts: seq<Step<T>>)
    requires LegalRun(Idle(), sts)
    ensures var s: Loop<T> := Run(Idle(), sts);
            s.phase == Polling && s.tasks != [] ==> (s.counter > 0 && s.edge) || s.waking != {}
  {
    RunKeeps(Idle<T>(), sts);
  }

  /** So the loop cannot sleep on a queued task: either poll may return with the eventfd at once, or
      it may after any one of the pending wakeups. */
  lemma SleepEnds<T>(s: Loop<T>)
    requires Inv(s) && s.phase == Polling && s.tasks != []
    ensures Legal(s, Poll(true)) || s.waking != {}
    ensures forall thread | thread in s.waking ::
              Legal(s, Wake(thread)) && Legal(Next(s, Wake(thread)), Poll(true))
  {
  }

  /** Task conservation and order, in every interleaving: what has run, the rest of the batch and the
      queue are together the pushes in order; so each push runs at most once, in push order. */
  lemma {:induction false} TasksConserved<T>(sts: seq<Step<T>>)
    requires LegalRun(Idle(), sts)
    ensures var s: Loop<T> := Run(Idle(), sts);
            && s.pos <= |s.batch|
            && s.executed + s.batch[s.pos..] + s.tasks == s.history
            && s.executed <= s.history
  {
    RunKeeps(Idle<T>(), sts);
  }

  ghost predicate SameBatch<T>(s: Loop<T>, r: Loop<T>) {
    && r.phase == s.phase == Running && r.batch == s.batch && s.pos <= r.pos <= |r.batch|
    && r.executed == s.executed + s.batch[s.pos..r.pos]
    && s.history <= r.history
  }

  lemma NextKeepsBatch<T>(s: Loop<T>, st: Step<T>)
    requires Inv(s) && s.phase == Running && Legal(s, st) && st != Finish
    ensures SameBatch(s, Next(s, st)) && Next(s, st).phase == Running
  {
  }

  /** A batch is closed at its swap: whatever is pushed meanwhile, it runs exactly the tasks taken. */
  lemma {:induction false} BatchIsClosed<T>(s: Loop<T>, sts: seq<Step<T>>)
    requires Inv(s) && s.phase == Running && LegalRun(s, sts) && Finish !in sts
    ensures Run(s, sts).phase == Running && SameBatch(s, Run(s, sts))
    decreases |sts|
  {
    if sts == [] {
      assert s.batch[s.pos..s.pos] == [];
    } else {
      NextKeeps(s, sts[0]);
      NextKeepsBatch(s, sts[0]);
      hide Inv, Legal, Next, SameBatch;
      assert sts[0] in sts && forall st | st in sts[1..] :: st in sts;
      var s' := Next(s, sts[0]);
      BatchIsClosed(s', sts[1..]);
      SameBatchChains(s, s', Run(s, sts));
    }
  }

  lemma SameBatchChains<T>(s: Loop<T>, t: Loop<T>, r: Loop<T>)
    requires SameBatch(s, t) && SameBatch(t, r)
    ensures SameBatch(s, r) && r.phase == Running
  {
  }

  /** Progress: by the end of the doPendingFunctors call that follows, everything pushed before its
      swap has run. */
  lemma {:induction false} SwapRunsEverything<T>(s: Loop<T>, sts: seq<Step<T>>)
    requires Inv(s) && Legal(s, Swap) && LegalRun(Next(s, Swap), sts) && Finish !in sts
    requires Legal(Run(Next(s, Swap), sts), Finish)
    ensures var r := Next(Run(Next(s, Swap), sts), Finish);
            r.executed == s.history && s.history <= r.history
  {
    NextKeeps(s, Swap);
    var t := Next(s, Swap);
    BatchIsClosed(t, sts);
    var r := Run(t, sts);
    assert t.batch[0..r.pos] == t.batch[0..] == s.tasks;
    assert s.executed + s.batch[s.pos..] == s.executed;
  }
}
