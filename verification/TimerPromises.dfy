/** What addTimer promises: a timer runs in the first batch whose clock is past its time, and a
    repeating one again in the first batch past its last run plus its interval, until it is cancelled. */
module TimerPromises {
  import opened Optional
  import opened TimerQueue
  import opened TimerRuns

  /** In the indexes, or in the running batch and to be put back unless it is one-shot. */
  predicate Filed(s: Scheduler, id: nat) {
    id in s.active || (s.calling && id in Ids(s.batch) && id !in s.canceling)
  }

  /** What was asked for, kept: interval and first expiration, and the timer filed as long as it has a run
      to come. */
  predicate Promise(s: Scheduler, id: nat, first: int, interval: int) {
    && id in s.objects
    && s.objects[id].repeat == (interval > 0) && s.objects[id].interval == interval
    && (Nows(s.log, id) == [] ==> s.objects[id].expiration == Some(first))
    && (interval > 0 || Nows(s.log, id) == [] ==> Filed(s, id))
  }

  lemma CallKeepsPromise(s: Scheduler, op: Op, id: nat, first: int, interval: int)
    requires Agree(s) && Promise(s, id, first, interval) && op != DoCancel(id)
    ensures Promise(Perform(s, op), id, first, interval)
  {
    match op
    case DoAdd(expiration, i, addr, clock) =>
      AddFiles(s, expiration, i, addr, clock);
      hide Add, Agree;
    case DoCancel(other) =>
      CancelTakesOne(s, other);
      hide Cancel, Agree;
  }

  lemma BeginKeepsPromise(s: Scheduler, now: int, id: nat, first: int, interval: int)
    requires Inv(s) && !s.calling && Promise(s, id, first, interval)
    ensures Promise(Begin(s, now), id, first, interval)
  {
    ExpiredByIds(s, now);
    BeginReads(s, now);
    hide Begin, Inv, Ids;
  }

  lemma RunKeepsPromise(s: Scheduler, id: nat, first: int, interval: int)
    requires s.pos < |s.batch| && Promise(s, id, first, interval)
    ensures Promise(RunNext(s), id, first, interval)
  {
    NowsAppend(s.log, Firing(s.batch[s.pos].id, s.batchNow), id);
    hide Nows, Ids;
  }

  /** reset() puts back every repeating timer of the batch that was not cancelled, and loses none. */
  lemma {:induction false} RestorePutsBack(s: Scheduler, clocks: seq<int>, id: nat)
    requires CanRestore(s) && |s.batch| <= |clocks| && Distinct(s.batch) && id in s.objects
    ensures var r := Restore(s, clocks);
            && r.log == s.log && id in r.objects
            && r.objects[id].repeat == s.objects[id].repeat && r.objects[id].interval == s.objects[id].interval
            && (id !in Ids(s.batch) ==> r.objects[id] == s.objects[id])
            && (id in s.active ==> id in r.active)
            && (id in Ids(s.batch) && s.objects[id].repeat && id !in s.canceling ==> id in r.active)
    decreases |s.batch|
  {
    if s.batch != [] {
      RestoredParts(s, clocks[0]);
      FirstLeaves(s.batch);
      CanRestoreRest(s, clocks[0]);
      RestoredCanceling(s, clocks[0]);
      DistinctRest(s.batch);
      hide RestoreFirst, Ids, Distinct, CanRestore;
      RestorePutsBack(RestoreFirst(s, clocks[0]), clocks[1..], id);
    } else {
      NoIds();
    }
  }

  lemma RestoredCanceling(s: Scheduler, clock: int)
    requires s.batch != [] && 0 < s.pos && s.batch[0].id in s.objects
    ensures RestoreFirst(s, clock).canceling == s.canceling
  {
  }

  lemma DistinctRest(b: seq<Entry>)
    requires Distinct(b) && b != []
    ensures Distinct(b[1..])
  {
  }

  lemma EndKeepsPromise(s: Scheduler, clocks: seq<int>, id: nat, first: int, interval: int)
    requires Inv(s) && Lives(s) && Legal(s, EndRead(clocks)) && Promise(s, id, first, interval)
    ensures Promise(End(s, clocks), id, first, interval)
  {
    assert Life(s, id);
    assert s.batch[..s.pos] == s.batch;
    RestorePutsBack(s.(calling := false), clocks, id);
    EndIs(s, clocks);
    hide Inv, Restore, End, Ids, Nows, Lives;
  }

  lemma {:induction false} EndIs(s: Scheduler, clocks: seq<int>)
    requires CanRestore(s) && |clocks| == |s.batch| + 1
    ensures var r, t := Restore(s.(calling := false), clocks), End(s, clocks);
            t.objects == r.objects && t.active == r.active && t.log == r.log
  {
    hide Restore;
  }

  lemma NextKeepsPromise(s: Scheduler, st: Step, id: nat, first: int, interval: int)
    requires Inv(s) && Lives(s) && Legal(s, st) && Promise(s, id, first, interval) && st != Call(DoCancel(id))
    ensures Promise(Next(s, st), id, first, interval)
  {
    match st
    case Call(op) => CallKeepsPromise(s, op, id, first, interval);
    case Expire(_) =>
    case BeginRead(now) => BeginKeepsPromise(s, now, id, first, interval);
    case RunCallback => RunKeepsPromise(s, id, first, interval);
    case EndRead(clocks) => EndKeepsPromise(s, clocks, id, first, interval);
  }

  lemma {:induction false} RunKeepsAllPromises(s: Scheduler, sts: seq<Step>, id: nat, first: int, interval: int)
    requires Inv(s) && Lives(s) && LegalRun(s, sts) && Promise(s, id, first, interval) && Call(DoCancel(id)) !in sts
    ensures Inv(Run(s, sts)) && Lives(Run(s, sts)) && Promise(Run(s, sts), id, first, interval)
    decreases |sts|
  {
    if sts != [] {
      assert sts[0] in sts && forall st | st in sts[1..] :: st in sts;
      hide Inv, Lives, Legal, Next, Promise;
      TimerQueue.NextKeeps(s, sts[0]);
      LegalLives(s, sts[0]);
      NextKeepsLives(s, sts[0]);
      NextKeepsPromise(s, sts[0], id, first, interval);
      RunKeepsAllPromises(Next(s, sts[0]), sts[1..], id, first, interval);
    }
  }

  lemma LegalLives(s: Scheduler, st: Step)
    requires Inv(s) && Legal(s, st)
    ensures s.pos <= |s.batch|
  {
  }

  // Each timer of a batch is run once in it.
  lemma {:induction false} BatchNows(log: seq<Firing>, b: seq<Entry>, now: int, id: nat)
    requires Distinct(b)
    ensures Nows(log + Firings(b, now), id) == Nows(log, id) + if id in Ids(b) then [now] else []
    decreases |b|
  {
    if b == [] {
      NoIds();
      assert log + [] == log && Nows(log, id) + [] == Nows(log, id);
    } else {
      var f, rest := Firing(b[0].id, now), b[1..];
      FirstLeaves(b);
      DistinctRest(b);
      NowsAppend(log, f, id);
      BatchNows(log + [f], rest, now, id);
      assert Firings(b, now) == [f] + Firings(rest, now);
      hide Nows, Ids, Distinct, Firings;
      assert log + ([f] + Firings(rest, now)) == log + [f] + Firings(rest, now);
      AtMostOne(Nows(log, id), b[0].id == id, id in Ids(rest), now);
    }
  }

  lemma AtMostOne(ns: seq<int>, p: bool, q: bool, now: int)
    requires !(p && q)
    ensures ns + (if p then [now] else []) + (if q then [now] else []) == ns + if p || q then [now] else []
  {
  }

  /** A timer, followed from its add over any run in which it is not cancelled: the next batch runs it, once,
      if and only if its clock is past the time asked for, or, once the timer has run, past its last run
      plus its interval. So it is neither early nor ever passed over. */
  lemma {:induction false} RunsWhenDue(s0: Scheduler, expiration: int, interval: int, addr: nat, clock: int,
                                       sts: seq<Step>, now: int, scripts: seq<seq<Op>>)
    requires Inv(s0) && Lives(s0) && Legal(s0, Call(DoAdd(expiration, interval, addr, clock)))
    requires var s1 := Add(s0, expiration, interval, addr, clock);
             LegalRun(s1, sts) && Call(DoCancel(s0.nextId + 1)) !in sts
    requires var s := Run(Add(s0, expiration, interval, addr, clock), sts);
             && !s.calling && LegalBatch(Begin(s, now), scripts)
             && (interval > 0 || Nows(s.log, s0.nextId + 1) == [])
    ensures var s, id := Run(Add(s0, expiration, interval, addr, clock), sts), s0.nextId + 1;
            var ns := Nows(s.log, id);
            var due := if ns == [] then expiration else ns[|ns| - 1] + interval;
            Nows(RunBatch(Begin(s, now), scripts).log, id) == ns + if due < now then [now] else []
  {
    var id := s0.nextId + 1;
    var s1 := Add(s0, expiration, interval, addr, clock);
    JustAdded(s0, expiration, interval, addr, clock);
    hide Inv, Lives, Legal, Add, Promise, Run, LegalRun, Nows, Begin, LegalBatch, RunBatch;
    RunKeepsAllPromises(s1, sts, id, expiration, interval);
    DueBatch(Run(s1, sts), id, expiration, interval, now, scripts);
  }

  lemma {:induction false} JustAdded(s0: Scheduler, expiration: int, interval: int, addr: nat, clock: int)
    requires Inv(s0) && Lives(s0) && Legal(s0, Call(DoAdd(expiration, interval, addr, clock)))
    ensures var s1 := Add(s0, expiration, interval, addr, clock);
            Inv(s1) && Lives(s1) && Promise(s1, s0.nextId + 1, expiration, interval)
  {
    var st := Call(DoAdd(expiration, interval, addr, clock));
    NextIdIsNew(s0);
    UnknownNeverRan(s0.log, s0.nextId + 1);
    AddFiles(s0, expiration, interval, addr, clock);
    hide Inv, Legal, Lives, Add, Nows;
    LegalLives(s0, st);
    TimerQueue.NextKeeps(s0, st);
    NextKeepsLives(s0, st);
    AddIsStep(s0, expiration, interval, addr, clock);
  }

  lemma AddIsStep(s: Scheduler, expiration: int, interval: int, addr: nat, clock: int)
    requires Legal(s, Call(DoAdd(expiration, interval, addr, clock)))
    ensures Next(s, Call(DoAdd(expiration, interval, addr, clock))) == Add(s, expiration, interval, addr, clock)
  {
  }

  lemma {:induction false} DueBatch(s: Scheduler, id: nat, first: int, interval: int, now: int, scripts: seq<seq<Op>>)
    requires Inv(s) && Lives(s) && Promise(s, id, first, interval) && !s.calling && LegalBatch(Begin(s, now), scripts)
    requires interval > 0 || Nows(s.log, id) == []
    ensures var ns := Nows(s.log, id);
            var due := if ns == [] then first else ns[|ns| - 1] + interval;
            Nows(RunBatch(Begin(s, now), scripts).log, id) == ns + if due < now then [now] else []
  {
    assert Life(s, id);
    hide Nows, Ids, LegalBatch, RunBatch, Begin;
    BatchRunsExactlyExpired(s, now, scripts);
    var b := Begin(s, now).batch;
    BeginIsDistinct(s, now);
    BatchNows(s.log, b, now, id);
  }

  lemma BeginIsDistinct(s: Scheduler, now: int)
    requires Inv(s) && !s.calling
    ensures Distinct(Begin(s, now).batch)
  {
    BeginKeeps(s, now);
    hide Begin;
  }
}
