/** The event loop object: its queue methods, proved to be steps of the protocol. */
module EventLoop {
  import opened TaskQueue

  class EventLoop<T> {
    var tasks: seq<T>
    var callingPendingFunctors: bool
    var eventfd: nat
    ghost var phase: Phase
    ghost var batch: seq<T>
    ghost var pos: nat
    ghost var edge: bool
    ghost var ready: bool
    ghost var waking: set<nat>
    ghost var selfWaking: bool
    ghost var history: seq<T>
    ghost var executed: seq<T>

    ghost function Value(): Loop<T>
      reads this
    {
      Loop(phase, tasks, batch, pos, callingPendingFunctors, eventfd, edge, ready, waking, selfWaking,
           history, executed)
    }

    constructor ()
      ensures Value() == Idle()
    {
      tasks, callingPendingFunctors, eventfd := [], false, 0;
      phase, batch, pos, edge, ready := Polling, [], 0, false, false;
      waking, selfWaking, history, executed := {}, false, [], [];
    }

    method Wakeup()
      modifies this`eventfd, this`edge
      ensures Value() == Woken(old(Value())) && eventfd == old(eventfd) + 1 && edge
    {
      eventfd := eventfd + 1;
      edge := true;
    }

    method HandleRead()
      requires Legal(Value(), ReadEvent)
      modifies this`eventfd, this`ready
      ensures Value() == Next(old(Value()), ReadEvent) && eventfd == 0 && !ready
    {
      eventfd := 0;
      ready := false;
    }

    /** queueInLoop called by foreign thread `thread`: its two atomic halves, one after the other. */
    method QueueFromThread(task: T, thread: nat)
      requires thread !in waking
      modifies this
      ensures Value() == Next(Next(old(Value()), Push(thread, task)), Wake(thread))
      ensures tasks == old(tasks) + [task] && eventfd == old(eventfd) + 1 && edge
    {
      tasks := tasks + [task];
      history := history + [task];
      Wakeup();
      assert waking + {thread} - {thread} == waking;
    }

    /** queueInLoop called on the loop thread: it wakes the loop only while a batch is running. */
    method QueueInLoop(task: T)
      requires Legal(Value(), LoopPush(task))
      modifies this`tasks, this`history, this`eventfd, this`edge, this`selfWaking
      ensures Value() ==
                var s := Next(old(Value()), LoopPush(task));
                if s.selfWaking then Next(s, SelfWake) else s
      ensures tasks == old(tasks) + [task]
      ensures eventfd == old(eventfd) + if callingPendingFunctors then 1 else 0
      ensures edge <==> old(edge) || callingPendingFunctors
    {
      tasks := tasks + [task];
      history := history + [task];
      if callingPendingFunctors {
        Wakeup();
      }
      selfWaking := false;
    }

    /** doPendingFunctors, where running the i-th task queues the tasks `effects[i]`: it runs exactly
        the tasks queued before it, in order, and leaves exactly the ones queued by them. */
    method DoPendingFunctors(effects: seq<seq<T>>)
      requires Inv(Value()) && Legal(Value(), Swap) && |effects| == |tasks|
      modifies this
      ensures Inv(Value()) && phase == Polling && !callingPendingFunctors
      ensures executed == old(history) && tasks == Flat(effects) && history == old(history) + Flat(effects)
      ensures tasks != [] ==> eventfd > 0 && edge
    {
      var taken := tasks;
      TakeTasks();
      hide Inv, Flat;
      FlatNothing<T>();
      assert effects[..0] == [];
      var i := 0;
      while i < |taken|
        invariant i <= |taken| && batch == taken && pos == i
        invariant Inv(Value()) && phase == Running && !selfWaking && callingPendingFunctors
        invariant tasks == Flat(effects[..i]) && history == old(history) + tasks
        invariant tasks != [] ==> eventfd > 0 && edge
      {
        FlatNext(effects, i);
        RunTask(effects[i]);
        i := i + 1;
      }
      assert effects[..i] == effects;
      Return();
      SameFront(executed, old(history), tasks);
    }

    method TakeTasks()
      requires Inv(Value()) && Legal(Value(), Swap)
      modifies this
      ensures Inv(Value()) && Value() == Next(old(Value()), Swap)
    {
      NextKeeps(Value(), Swap);
      callingPendingFunctors, phase := true, Running;
      batch, tasks, pos := tasks, [], 0;
    }

    method Return()
      requires Inv(Value()) && Legal(Value(), Finish)
      modifies this
      ensures Inv(Value()) && Value() == Next(old(Value()), Finish) && executed + tasks == history
    {
      NextKeeps(Value(), Finish);
      assert batch[pos..] == [] && executed + batch[pos..] == executed;
      callingPendingFunctors, phase, batch, pos := false, Polling, [], 0;
    }

    // queueInLoop called by a running task.
    method QueueFromTask(task: T)
      requires Inv(Value()) && callingPendingFunctors && phase == Running && !selfWaking && 0 < pos
      modifies this`tasks, this`history, this`eventfd, this`edge, this`selfWaking
      ensures Inv(Value()) && !selfWaking && eventfd > 0 && edge
      ensures tasks == old(tasks) + [task] && history == old(history) + [task]
    {
      hide Inv;
      NextKeeps(Value(), LoopPush(task));
      NextKeeps(Next(Value(), LoopPush(task)), SelfWake);
      QueueInLoop(task);
    }

    // The next task of the batch, and what it queues.
    method RunTask(queued: seq<T>)
      requires Inv(Value()) && Legal(Value(), Execute) && callingPendingFunctors
      modifies this
      ensures Inv(Value()) && phase == Running && !selfWaking && callingPendingFunctors
      ensures batch == old(batch) && pos == old(pos) + 1
      ensures tasks == old(tasks) + queued && history == old(history) + queued
      ensures (old(tasks) != [] ==> old(eventfd > 0 && edge)) ==> (tasks != [] ==> eventfd > 0 && edge)
    {
      hide Inv;
      NextKeeps(Value(), Execute);
      executed := executed + [batch[pos]];
      pos := pos + 1;
      var j := 0;
      while j < |queued|
        invariant j <= |queued| && Inv(Value()) && phase == Running && !selfWaking && callingPendingFunctors
        invariant batch == old(batch) && pos == old(pos) + 1
        invariant tasks == old(tasks) + queued[..j] && history == old(history) + queued[..j]
        invariant (old(tasks) != [] ==> old(eventfd > 0 && edge)) ==> (tasks != [] ==> eventfd > 0 && edge)
      {
        QueueFromTask(queued[j]);
        j := j + 1;
      }
      assert queued[..j] == queued;
    }
  }

  lemma FlatNothing<T>()
    ensures Flat<T>([]) == []
  {
  }

  lemma FlatNext<T>(xs: seq<seq<T>>, i: nat)
    requires i < |xs|
    ensures Flat(xs[..i + 1]) == Flat(xs[..i]) + xs[i]
  {
    assert xs[..i + 1][..i] == xs[..i];
  }

  lemma SameFront<T>(a: seq<T>, b: seq<T>, tail: seq<T>)
    requires a + tail == b + tail
    ensures a == b
  {
    assert |a| == |b|;
    assert a == (a + tail)[..|a|] && b == (b + tail)[..|b|];
  }

  function Flat<T>(xs: seq<seq<T>>): seq<T> {
    if xs == [] then [] else Flat(xs[..|xs| - 1]) + xs[|xs| - 1]
  }
}
