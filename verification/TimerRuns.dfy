/** Which callbacks the timer scheduler runs, and when: spacing of repeating timers, one-shot
    timers, and cancellation, over every run of the state machine. */
module TimerRuns {
  import opened TimerQueue

  /** The clock readings of the batches that ran the callback of timer `id`. */
  function Nows(log: seq<Firing>, id: nat): seq<int> {
    if log == [] then []
    else
      var last := log[|log| - 1];
      Nows(log[..|log| - 1], id) + if last.id == id then [last.now] else []
  }

  lemma {:induction false} NowsAppend(log: seq<Firing>, f: Firing, id: nat)
    ensures Nows(log + [f], id) == Nows(log, id) + if f.id == id then [f.now] else []
  {
  }

  predicate Spaced(ns: seq<int>, gap: int) {
    forall k | 0 < k < |ns| :: ns[k] - ns[k - 1] > gap
  }

  function Last(ns: seq<int>): int
    requires ns != []
  {
    ns[|ns| - 1]
  }

  predicate Waiting(s: Scheduler, id: nat)
    requires s.pos <= |s.batch|
  {
    id in Ids(s.batch[s.pos..])
  }

  /** One timer's history `ns` against where it is filed: in the indexes, ahead in the running
      batch, or already run by the batch whose clock is `now`. */
  predicate Consistent(t: Timer, ns: seq<int>, active: bool, waiting: bool, done: bool, now: int) {
    && (if t.repeat then Spaced(ns, t.interval) else |ns| <= 1)
    && (ns != [] && active ==>
          t.repeat && t.expiration.Some? && t.expiration.value == Last(ns) + t.interval)
    && (ns != [] && waiting ==> t.repeat && Last(ns) + t.interval < now)
    && (done ==> ns != [] && Last(ns) == now)
  }

  predicate Life(s: Scheduler, id: nat)
    requires s.pos <= |s.batch| && id in s.objects
  {
    Consistent(s.objects[id], Nows(s.log, id), id in s.active, Waiting(s, id), id in Ids(s.batch[..s.pos]), s.batchNow)
  }

  predicate Lives(s: Scheduler)
    requires s.pos <= |s.batch|
  {
    && (forall id | id in s.objects :: Life(s, id))
    && (forall f | f in s.log :: f.id in s.objects)
  }

  lemma {:induction false} UnknownNeverRan(log: seq<Firing>, id: nat)
    requires forall f | f in log :: f.id != id
    ensures Nows(log, id) == []
  {
    if log != [] {
      assert log[|log| - 1] in log;
      UnknownNeverRan(log[..|log| - 1], id);
    }
  }

  lemma CallKeepsLives(s: Scheduler, op: Op)
    requires s.pos <= |s.batch| && Lives(s)
    requires s.nextId + 1 !in s.objects && forall e | e in s.batch :: e.id in s.objects
    ensures Lives(Perform(s, op))
  {
    var r := Perform(s, op);
    BatchKnown(s);
    CallParts(s, op);
    hide Perform, Life;
    forall id | id in r.objects ensures Life(r, id) {
      if id in s.objects {
        assert Life(s, id);
        OldLife(s, r, id);
      } else {
        UnknownNeverRan(s.log, id);
        NewLife(s, r, id);
      }
    }
  }

  // What a call may touch: the indexes, and the object of one new timer.
  lemma CallParts(s: Scheduler, op: Op)
    requires s.nextId + 1 !in s.objects
    ensures var r := Perform(s, op);
            && r.log == s.log && r.batch == s.batch && r.pos == s.pos && r.batchNow == s.batchNow
            && (forall id | id in s.objects :: id in r.objects && r.objects[id] == s.objects[id])
            && (forall id | id in r.objects :: id in s.objects || id == s.nextId + 1)
            && (forall id | id in s.objects && id in r.active :: id in s.active)
  {
    hide Insert, Erase;
  }

  lemma OldLife(s: Scheduler, r: Scheduler, id: nat)
    requires s.pos <= |s.batch| && id in s.objects && Life(s, id)
    requires id in r.objects && r.objects[id] == s.objects[id] && (id in r.active ==> id in s.active)
    requires r.log == s.log && r.batch == s.batch && r.pos == s.pos && r.batchNow == s.batchNow
    ensures Life(r, id)
  {
    hide Consistent, Ids, Nows;
    FilingChanges(s.objects[id], Nows(s.log, id), id in s.active, Waiting(s, id), id in Ids(s.batch[..s.pos]),
                  s.batchNow, id in r.active, Waiting(r, id));
  }

  lemma {:induction false} NewLife(s: Scheduler, r: Scheduler, id: nat)
    requires s.pos <= |s.batch| && id !in s.objects && Nows(s.log, id) == []
    requires forall d | d in Ids(s.batch[..s.pos]) :: d in s.objects
    requires id in r.objects && r.log == s.log && r.batch == s.batch && r.pos == s.pos
    ensures Life(r, id)
  {
    hide Consistent, Waiting, Ids, Nows;
    NothingYet(r.objects[id], id in r.active, Waiting(r, id), r.batchNow);
  }

  lemma BatchKnown(s: Scheduler)
    requires s.pos <= |s.batch| && forall e | e in s.batch :: e.id in s.objects
    ensures forall id | id in Ids(s.batch[..s.pos]) :: id in s.objects
  {
  }

  // Leaving the indexes, or the part of the batch still ahead, never hurts.
  lemma FilingChanges(t: Timer, ns: seq<int>, active: bool, waiting: bool, done: bool, now: int,
                      active': bool, waiting': bool)
    requires Consistent(t, ns, active, waiting, done, now) && (active' ==> active) && (waiting' ==> waiting)
    ensures Consistent(t, ns, active', waiting', done, now)
  {
  }

  lemma NothingYet(t: Timer, active: bool, waiting: bool, now: int)
    ensures Consistent(t, [], active, waiting, false, now)
  {
  }

  lemma BeginKeepsLives(s: Scheduler, now: int)
    requires Inv(s) && Lives(s) && !s.calling
    ensures Lives(Begin(s, now))
  {
    var r := Begin(s, now);
    ExpiredByIds(s, now);
    assert r.batch[..0] == [] && r.batch[0..] == r.batch;
    forall id | id in r.objects ensures Life(r, id) {
      assert Life(s, id);
    }
  }

  // Who is taken, by id.
  lemma ExpiredByIds(s: Scheduler, now: int)
    requires Inv(s) && !s.calling
    ensures var r := Begin(s, now);
            && (forall id :: id in Ids(r.batch) <==> id in s.active && s.objects[id].expiration.Some?
                                                     && s.objects[id].expiration.value < now)
            && r.active == s.active - Ids(r.batch)
  {
  }

  lemma RunKeepsLives(s: Scheduler)
    requires s.pos < |s.batch| && Lives(s) && Distinct(s.batch) && s.active !! Ids(s.batch)
    requires forall e | e in s.batch :: e.id in s.objects
    ensures Lives(RunNext(s))
  {
    var r := RunNext(s);
    assert s.batch[s.pos] in s.batch;
    forall id | id in r.objects ensures Life(r, id) {
      assert Life(s, id);
      RunKeepsLife(s, id);
    }
  }

  lemma RunKeepsLife(s: Scheduler, id: nat)
    requires s.pos < |s.batch| && Distinct(s.batch) && s.active !! Ids(s.batch)
    requires id in s.objects && Life(s, id)
    ensures Life(RunNext(s), id)
  {
    var e := s.batch[s.pos];
    NextInBatch(s);
    NowsAppend(s.log, Firing(e.id, s.batchNow), id);
    hide Distinct, Ids, Nows;
  }

  // How the three parts of the batch change when its next entry is run.
  lemma NextInBatch(s: Scheduler)
    requires s.pos < |s.batch| && Distinct(s.batch)
    ensures var e := s.batch[s.pos];
            && Ids(s.batch[..s.pos + 1]) == Ids(s.batch[..s.pos]) + {e.id}
            && Ids(s.batch[s.pos..]) == Ids(s.batch[s.pos + 1..]) + {e.id}
            && e.id in Ids(s.batch)
            && e.id !in Ids(s.batch[..s.pos]) && e.id !in Ids(s.batch[s.pos + 1..])
  {
    var a, e, b := s.batch[..s.pos], s.batch[s.pos], s.batch[s.pos + 1..];
    assert s.batch[..s.pos + 1] == a + [e] && s.batch[s.pos..] == [e] + b;
    IdsOfParts(a, [e]);
    IdsOfParts([e], b);
    IdOfOne(e);
  }

  // What one turn of reset() may touch: the entry taken off the batch and nothing else.
  lemma RestoredParts(s: Scheduler, clock: int)
    requires s.batch != [] && s.pos == |s.batch| && s.batch[0].id in s.objects
    ensures var e := s.batch[0];
            var r := RestoreFirst(s, clock);
            && r.log == s.log && r.batchNow == s.batchNow && r.batch == s.batch[1..] && r.pos == |r.batch|
            && r.objects.Keys == s.objects.Keys
            && (forall id | id in s.objects && id != e.id ::
                  r.objects[id] == s.objects[id] && (id in r.active <==> id in s.active))
            && (if s.objects[e.id].repeat && e.id !in s.canceling then
                  r.objects[e.id] == s.objects[e.id].Restart(s.batchNow) && e.id in r.active
                else r.objects[e.id] == s.objects[e.id] && (e.id in r.active <==> e.id in s.active))
  {
    hide Insert;
  }

  lemma RestoreFirstKeepsLives(s: Scheduler, clock: int)
    requires s.batch != [] && s.pos == |s.batch| && s.batch[0].id in s.objects && Distinct(s.batch)
    requires Lives(s)
    ensures Lives(RestoreFirst(s, clock))
  {
    var e := s.batch[0];
    FirstLeaves(s.batch);
    RestoredParts(s, clock);
    hide RestoreFirst, Distinct, Ids, Consistent, Waiting;
    var r := RestoreFirst(s, clock);
    assert s.batch[..s.pos] == s.batch && r.batch[..r.pos] == r.batch;
    NoneWaiting(s);
    NoneWaiting(r);
    forall id | id in r.objects ensures Life(r, id) {
      assert Life(s, id);
      RestoredLife(s.objects[id], Nows(s.log, id), id in s.active, false, id in Ids(s.batch), s.batchNow,
                   id in Ids(r.batch));
    }
  }

  lemma FirstLeaves(b: seq<Entry>)
    requires b != [] && Distinct(b)
    ensures b[0].id in Ids(b) && Ids(b[1..]) == Ids(b) - {b[0].id}
  {
  }

  lemma NoneWaiting(s: Scheduler)
    requires s.pos == |s.batch|
    ensures forall id :: !Waiting(s, id)
  {
  }

  // Leaving the batch, a timer that ran may be filed again one interval after the batch's clock.
  lemma RestoredLife(t: Timer, ns: seq<int>, active: bool, waiting: bool, done: bool, now: int,
                     done': bool)
    requires Consistent(t, ns, active, waiting, done, now) && (done' ==> done)
    ensures Consistent(t, ns, active, false, done', now)
    ensures done && t.repeat ==> Consistent(t.Restart(now), ns, true, false, done', now)
  {
  }

  lemma {:induction false} RestoreKeepsLives(s: Scheduler, clocks: seq<int>)
    requires Agree(s) && AlarmSet(s) && Lives(s) && CanRestore(s) && |s.batch| <= |clocks|
    ensures var r := Restore(s, clocks); r.pos <= |r.batch| && Lives(r)
    decreases |s.batch|
  {
    if s.batch != [] {
      RestoreFirstKeeps(s, clocks[0]);
      assert Distinct(s.batch);
      hide Agree, AlarmSet, Distinct, Lives, AddInLoop;
      RestoreFirstKeepsLives(s, clocks[0]);
      var s' := RestoreFirst(s, clocks[0]);
      CanRestoreRest(s, clocks[0]);
      RestoreKeepsLives(s', clocks[1..]);
    }
  }

  lemma CanRestoreRest(s: Scheduler, clock: int)
    requires CanRestore(s) && s.batch != []
    ensures CanRestore(RestoreFirst(s, clock)) && |RestoreFirst(s, clock).batch| == |s.batch| - 1
  {
  }

  lemma NextKeepsLives(s: Scheduler, st: Step)
    requires Inv(s) && Lives(s) && Legal(s, st)
    ensures Next(s, st).pos <= |Next(s, st).batch| && Lives(Next(s, st))
  {
    match st
    case Call(op) =>
      hide Lives, Perform;
      NextIdIsNew(s);
      CallKeepsLives(s, op);
    case Expire(_) => SameLives(s, Next(s, st));
    case BeginRead(now) =>
      hide Lives, Begin;
      BeginKeepsLives(s, now);
    case RunCallback =>
      hide Lives;
      NextIdIsNew(s);
      ApartIds(s.timers, s.batch);
      RunKeepsLives(s);
    case EndRead(clocks) =>
      hide Lives, Restore;
      EndKeepsLives(s, clocks);
  }

  lemma NextIdIsNew(s: Scheduler)
    requires Inv(s)
    ensures s.nextId + 1 !in s.objects && forall e | e in s.batch :: e.id in s.objects
  {
  }

  lemma EndKeepsLives(s: Scheduler, clocks: seq<int>)
    requires Inv(s) && Lives(s) && Legal(s, EndRead(clocks))
    ensures var r := End(s, clocks); r.pos <= |r.batch| && Lives(r)
  {
    var s' := s.(calling := false);
    SameLives(s, s');
    hide Lives, Restore;
    RestoreKeepsLives(s', clocks);
    SameLives(Restore(s', clocks), End(s, clocks));
  }

  // The alarm and the flag play no part in a timer's history.
  lemma SameLives(s: Scheduler, r: Scheduler)
    requires s.pos <= |s.batch| && Lives(s)
    requires r == s.(fd := r.fd, armedAt := r.armedAt, calling := r.calling)
    ensures Lives(r)
  {
  }

  lemma {:induction false} RunKeepsAllLives(s: Scheduler, sts: seq<Step>)
    requires Inv(s) && Lives(s) && LegalRun(s, sts)
    ensures Inv(Run(s, sts)) && Lives(Run(s, sts))
    decreases |sts|
  {
    if sts != [] {
      NextKeeps(s, sts[0]);
      NextKeepsLives(s, sts[0]);
      RunKeepsAllLives(Next(s, sts[0]), sts[1..]);
    }
  }

  lemma {:induction false} SpacedFarApart(ns: seq<int>, gap: nat, i: nat, j: nat)
    requires Spaced(ns, gap) && i <= j < |ns|
    ensures ns[j] - ns[i] >= (j - i) * (gap + 1)
    decreases j
  {
    if i < j {
      SpacedFarApart(ns, gap, i, j - 1);
      assert (j - i) * (gap + 1) == (j - 1 - i) * (gap + 1) + gap + 1;
    }
  }

  /** Firing rate over any run: consecutive runs of a repeating timer are in batches whose clocks
      differ by more than its interval, so k of them need more than k - 1 intervals; and a one-shot
      timer runs at most once. */
  lemma {:induction false} FiringRate(sts: seq<Step>, id: nat)
    requires LegalRun(EMPTY, sts) && id in Run(EMPTY, sts).objects
    ensures var s := Run(EMPTY, sts);
            var t := s.objects[id];
            var ns := Nows(s.log, id);
            && (t.repeat ==> t.interval > 0 && forall k | 0 < k < |ns| :: ns[k] - ns[k - 1] > t.interval)
            && (!t.repeat ==> |ns| <= 1)
  {
    RunKeepsAllLives(EMPTY, sts);
    assert Life(Run(EMPTY, sts), id);
  }

  /** A timer that has run and waits again is filed for exactly the clock of its last run plus its
      interval. */
  lemma {:induction false} FiledForNextRun(sts: seq<Step>, id: nat)
    requires LegalRun(EMPTY, sts) && id in Run(EMPTY, sts).active && Nows(Run(EMPTY, sts).log, id) != []
    ensures var s := Run(EMPTY, sts);
            var ns := Nows(s.log, id);
            id in s.objects && Entry(ns[|ns| - 1] + s.objects[id].interval, s.objects[id].addr, id) in s.timers
  {
    hide Run, LegalRun, Next, Legal;
    RunKeepsAllLives(EMPTY, sts);
    hide Inv, Lives, Nows;
    FiledNext(Run(EMPTY, sts), id);
  }

  lemma {:induction false} FiledNext(s: Scheduler, id: nat)
    requires Inv(s) && Lives(s) && id in s.active && Nows(s.log, id) != []
    ensures var ns := Nows(s.log, id);
            id in s.objects && Entry(ns[|ns| - 1] + s.objects[id].interval, s.objects[id].addr, id) in s.timers
  {
    FiledUnder(s, id);
    hide Nows, Inv, Waiting;
    assert Life(s, id);
  }

  lemma FiledUnder(s: Scheduler, id: nat)
    requires Agree(s) && id in s.active
    ensures id in s.objects
    ensures s.objects[id].expiration.Some? &&
              Entry(s.objects[id].expiration.value, s.objects[id].addr, id) in s.timers
  {
    var e := OwnEntry(s, id);
  }

  /** Any window of length T holds at most floor(T / interval) + 1 runs of a repeating timer. */
  lemma {:induction false} FiringsInWindow(sts: seq<Step>, id: nat, i: nat, j: nat, T: nat)
    requires LegalRun(EMPTY, sts) && id in Run(EMPTY, sts).objects && Run(EMPTY, sts).objects[id].repeat
    requires var ns := Nows(Run(EMPTY, sts).log, id); i <= j < |ns| && ns[j] - ns[i] <= T
    ensures var d := Run(EMPTY, sts).objects[id].interval;
            0 < d && j - i + 1 <= T / d + 1
  {
    hide Run, LegalRun, Nows;
    FiringRate(sts, id);
    var s := Run(EMPTY, sts);
    WindowOf(Nows(s.log, id), s.objects[id].interval, i, j, T);
  }

  lemma WindowOf(ns: seq<int>, d: nat, i: nat, j: nat, T: nat)
    requires 0 < d && Spaced(ns, d) && i <= j < |ns| && ns[j] - ns[i] <= T
    ensures j - i <= T / d
  {
    SpacedFarApart(ns, d, i, j);
    var n := j - i;
    assert n * (d + 1) == n * d + n;
    IntervalsFit(n, d, T);
  }

  lemma IntervalsFit(n: nat, d: nat, T: nat)
    requires 0 < d && n * d <= T
    ensures n <= T / d
  {
    var q := T / d;
    assert T == d * q + T % d;
    assert d * (n - q) == n * d - d * q;
    PositiveFactor(d, n - q);
  }

  lemma PositiveFactor(d: nat, k: int)
    ensures k >= 1 ==> d * k >= d
  {
  }

  // ---- A whole handleRead ---------------------------------------------------------------------------

  /** The callbacks of a batch, each followed by what it does to the scheduler. */
  function RunBatch(s: Scheduler, scripts: seq<seq<Op>>): Scheduler
    requires LegalBatch(s, scripts)
    decreases |scripts|
  {
    if scripts == [] then s else RunBatch(PerformAll(RunNext(s), scripts[0]), scripts[1..])
  }

  predicate LegalBatch(s: Scheduler, scripts: seq<seq<Op>>)
    decreases |scripts|
  {
    && s.pos + |scripts| == |s.batch|
    && (scripts != [] ==>
          LegalOps(RunNext(s), scripts[0]) && LegalBatch(PerformAll(RunNext(s), scripts[0]), scripts[1..]))
  }

  predicate LegalOps(s: Scheduler, ops: seq<Op>)
    decreases |ops|
  {
    ops == [] || (LegalOp(s, ops[0]) && LegalOps(Perform(s, ops[0]), ops[1..]))
  }

  function PerformAll(s: Scheduler, ops: seq<Op>): (r: Scheduler)
    requires LegalOps(s, ops)
    ensures r == s.(objects := r.objects, nextId := r.nextId, timers := r.timers, active := r.active,
                    canceling := r.canceling, fd := r.fd, armedAt := r.armedAt)
    decreases |ops|
  {
    if ops == [] then s else PerformAll(Perform(s, ops[0]), ops[1..])
  }

  function Firings(es: seq<Entry>, now: int): seq<Firing> {
    if es == [] then [] else [Firing(es[0].id, now)] + Firings(es[1..], now)
  }

  lemma {:induction false} BatchRunsAll(s: Scheduler, scripts: seq<seq<Op>>)
    requires LegalBatch(s, scripts)
    ensures RunBatch(s, scripts).log == s.log + Firings(s.batch[s.pos..], s.batchNow)
    ensures RunBatch(s, scripts).batch == s.batch
    decreases |scripts|
  {
    if scripts != [] {
      var s' := PerformAll(RunNext(s), scripts[0]);
      BatchRunsAll(s', scripts[1..]);
      assert s.batch[s.pos..][1..] == s.batch[s.pos + 1..];
      var f := [Firing(s.batch[s.pos].id, s.batchNow)];
      var rest := Firings(s.batch[s.pos + 1..], s.batchNow);
      assert s.log + f + rest == s.log + (f + rest);
    }
  }

  /** Each batch runs exactly the timers that had expired strictly before its clock reading, once
      each, earliest first, whatever its callbacks add or cancel meanwhile. */
  lemma {:induction false} BatchRunsExactlyExpired(s: Scheduler, now: int, scripts: seq<seq<Op>>)
    requires Inv(s) && !s.calling && LegalBatch(Begin(s, now), scripts)
    ensures var b := Begin(s, now).batch;
            && RunBatch(Begin(s, now), scripts).log == s.log + Firings(b, now)
            && (forall id :: id in Ids(b) <==> id in s.active && s.objects[id].expiration.Some?
                                               && s.objects[id].expiration.value < now)
            && (forall i, j | 0 <= i < j < |b| :: b[i].id != b[j].id && b[i].when <= b[j].when)
  {
    hide UpperBound, Ids, RunBatch, LegalBatch;
    ExtractsExpired(s, now);
    BeginKeeps(s, now);
    ExpiredByIds(s, now);
    var r := Begin(s, now);
    BatchRunsAll(r, scripts);
    assert r.batch[0..] == r.batch && r.log == s.log && r.batchNow == now && r.pos == 0;
    assert Distinct(r.batch);
  }

  // ---- A handleRead is a run ------------------------------------------------------------------------

  function CallSteps(ops: seq<Op>): seq<Step> {
    if ops == [] then [] else [Call(ops[0])] + CallSteps(ops[1..])
  }

  function BatchSteps(scripts: seq<seq<Op>>): seq<Step> {
    if scripts == [] then [] else [RunCallback] + CallSteps(scripts[0]) + BatchSteps(scripts[1..])
  }

  function ReadSteps(now: int, scripts: seq<seq<Op>>, clocks: seq<int>): seq<Step> {
    [BeginRead(now)] + BatchSteps(scripts) + [EndRead(clocks)]
  }

  lemma {:induction false} RunOne(s: Scheduler, st: Step)
    requires Legal(s, st)
    ensures LegalRun(s, [st]) && Run(s, [st]) == Next(s, st)
  {
    assert [st][1..] == [];
  }

  lemma {:induction false} RunAppend(s: Scheduler, a: seq<Step>, b: seq<Step>)
    requires LegalRun(s, a) && LegalRun(Run(s, a), b)
    ensures LegalRun(s, a + b) && Run(s, a + b) == Run(Run(s, a), b)
    decreases |a|
  {
    hide Legal, Next;
    if a == [] {
      assert a + b == b;
    } else {
      RunAppend(Next(s, a[0]), a[1..], b);
      assert (a + b)[0] == a[0] && (a + b)[1..] == a[1..] + b;
    }
  }

  lemma {:induction false} CallsAreRun(s: Scheduler, ops: seq<Op>)
    requires LegalOps(s, ops) && (s.calling ==> 0 < s.pos)
    ensures LegalRun(s, CallSteps(ops)) && Run(s, CallSteps(ops)) == PerformAll(s, ops)
    decreases |ops|
  {
    if ops != [] {
      PerformKeepsPlace(s, ops[0]);
      hide LegalOp, Perform;
      CallsAreRun(Perform(s, ops[0]), ops[1..]);
      assert CallSteps(ops)[1..] == CallSteps(ops[1..]);
    }
  }

  lemma PerformKeepsPlace(s: Scheduler, op: Op)
    ensures Perform(s, op).calling == s.calling && Perform(s, op).pos == s.pos
  {
    hide Insert, Erase;
  }

  lemma {:induction false} BatchIsRun(s: Scheduler, scripts: seq<seq<Op>>)
    requires s.calling && LegalBatch(s, scripts)
    ensures LegalRun(s, BatchSteps(scripts)) && Run(s, BatchSteps(scripts)) == RunBatch(s, scripts)
    ensures var r := RunBatch(s, scripts); r.calling && r.pos == |r.batch| == |s.batch|
    decreases |scripts|
  {
    if scripts != [] {
      var s1 := RunNext(s);
      var s2 := PerformAll(s1, scripts[0]);
      assert Legal(s, RunCallback) && Next(s, RunCallback) == s1;
      RunOne(s, RunCallback);
      CallsAreRun(s1, scripts[0]);
      hide Legal, Next, LegalOps, PerformAll, RunNext, LegalRun, Run;
      BatchIsRun(s2, scripts[1..]);
      RunAppend(s, [RunCallback], CallSteps(scripts[0]));
      RunAppend(s, [RunCallback] + CallSteps(scripts[0]), BatchSteps(scripts[1..]));
    }
  }

  /** One handleRead, with whatever its callbacks call, is a legal run of the state machine: what is
      proved of all runs holds of the scheduler object. */
  lemma {:induction false} HandleReadIsRun(s: Scheduler, now: int, scripts: seq<seq<Op>>, clocks: seq<int>)
    requires Inv(s) && !s.calling && LegalBatch(Begin(s, now), scripts) && |clocks| == |scripts| + 1
    ensures var r := RunBatch(Begin(s, now), scripts);
            && CanRestore(r) && |clocks| == |r.batch| + 1
            && LegalRun(s, ReadSteps(now, scripts, clocks))
            && Run(s, ReadSteps(now, scripts, clocks)) == End(r, clocks)
  {
    var b := Begin(s, now);
    var r := RunBatch(b, scripts);
    var sts := [BeginRead(now)] + BatchSteps(scripts);
    assert Legal(s, BeginRead(now)) && Next(s, BeginRead(now)) == b;
    RunOne(s, BeginRead(now));
    BatchIsRun(b, scripts);
    hide LegalRun, Run, Inv, Begin, LegalBatch, RunBatch;
    RunAppend(s, [BeginRead(now)], BatchSteps(scripts));
    RunKeeps(s, sts);
    BatchIsKnown(r);
    assert Legal(r, EndRead(clocks)) && Next(r, EndRead(clocks)) == End(r, clocks);
    RunOne(r, EndRead(clocks));
    RunAppend(s, sts, [EndRead(clocks)]);
  }

  lemma BatchIsKnown(s: Scheduler)
    requires Inv(s) && s.pos == |s.batch|
    ensures CanRestore(s)
  {
  }

  // ---- Cancellation ---------------------------------------------------------------------------------

  /** A timer that was added and then cancelled: in neither index, and not to be put back. */
  predicate Cancelled(s: Scheduler, id: nat) {
    id in s.objects && id !in s.active && (id in Ids(s.batch) ==> id in s.canceling)
  }

  lemma CancelTakesHold(s: Scheduler, id: nat)
    requires Inv(s) && id in s.objects
    ensures Cancelled(Cancel(s, id), id)
  {
  }

  // Runs of the timer so far, plus the one still to come if the running batch has it ahead.
  function Committed(s: Scheduler, id: nat): nat
    requires s.pos <= |s.batch|
  {
    |Nows(s.log, id)| + if Waiting(s, id) then 1 else 0
  }

  lemma {:induction false} RestoreKeepsCancelled(s: Scheduler, clocks: seq<int>, id: nat)
    requires Cancelled(s, id) && CanRestore(s) && |s.batch| <= |clocks|
    ensures var r := Restore(s, clocks);
            r.batch == [] && r.pos == 0 && r.log == s.log && Cancelled(r, id)
    decreases |s.batch|
  {
    if s.batch != [] {
      RestoreFirstKeepsCancelled(s, clocks[0], id);
      CanRestoreRest(s, clocks[0]);
      hide RestoreFirst, Cancelled;
      RestoreKeepsCancelled(RestoreFirst(s, clocks[0]), clocks[1..], id);
    }
  }

  lemma RestoreFirstKeepsCancelled(s: Scheduler, clock: int, id: nat)
    requires Cancelled(s, id) && CanRestore(s) && s.batch != []
    ensures var r := RestoreFirst(s, clock); Cancelled(r, id) && r.log == s.log
  {
  }

  lemma {:induction false} NextKeepsCancelled(s: Scheduler, st: Step, id: nat)
    requires Inv(s) && Legal(s, st) && Cancelled(s, id)
    ensures var r := Next(s, st);
            && r.pos <= |r.batch| && Cancelled(r, id)
            && Nows(s.log, id) <= Nows(r.log, id) && Committed(r, id) <= Committed(s, id)
    ensures st.BeginRead? ==> id !in Ids(Next(s, st).batch)
  {
    match st
    case Call(op) =>
      NextIdIsNew(s);
      CallKeepsCancelled(s, op, id);
      hide Inv, LegalOp, Perform, Ids, Nows;
    case Expire(_) =>
      hide Inv, Ids, Nows;
    case BeginRead(now) => BeginKeepsCancelled(s, now, id);
    case RunCallback => CallbackKeepsCancelled(s, id);
    case EndRead(clocks) =>
      RestoreKeepsCancelled(s.(calling := false), clocks, id);
      hide Inv, Restore, Ids, Nows;
      assert Waiting(End(s, clocks), id) ==> id in Ids([]);
      NoIds();
  }

  lemma NoIds()
    ensures Ids([]) == {}
  {
  }

  lemma BeginKeepsCancelled(s: Scheduler, now: int, id: nat)
    requires Inv(s) && !s.calling && Cancelled(s, id)
    ensures var r := Begin(s, now);
            && r.pos <= |r.batch| && Cancelled(r, id) && r.log == s.log
            && Committed(r, id) <= Committed(s, id) && id !in Ids(r.batch)
  {
    ExtractsExpired(s, now);
    var r := Begin(s, now);
    IdsOfParts(r.batch, r.timers);
    assert r.batch[0..] == r.batch;
    hide UpperBound, Ids, Nows;
  }

  lemma {:induction false} CallbackKeepsCancelled(s: Scheduler, id: nat)
    requires Inv(s) && s.pos < |s.batch| && Cancelled(s, id)
    ensures var r := RunNext(s);
            && r.pos <= |r.batch| && Cancelled(r, id)
            && Nows(s.log, id) <= Nows(r.log, id) && Committed(r, id) <= Committed(s, id)
  {
    NextInBatch(s);
    NowsAppend(s.log, Firing(s.batch[s.pos].id, s.batchNow), id);
    hide Inv, Ids, Nows;
  }

  lemma CallKeepsCancelled(s: Scheduler, op: Op, id: nat)
    requires Cancelled(s, id) && s.nextId + 1 !in s.objects
    ensures Cancelled(Perform(s, op), id)
    ensures Perform(s, op).batch == s.batch && Perform(s, op).log == s.log && Perform(s, op).pos == s.pos
  {
  }

  /** Cancellation over whole runs: once cancelled after its add, a timer is in no later batch, and
      it runs at most once more, namely if the batch then executing still had it ahead. */
  lemma {:induction false} CancelledStaysQuiet(s: Scheduler, sts: seq<Step>, id: nat)
    requires Inv(s) && Cancelled(s, id) && LegalRun(s, sts)
    ensures var r := Run(s, sts);
            r.pos <= |r.batch| && Cancelled(r, id)
            && Nows(s.log, id) <= Nows(r.log, id)
            && |Nows(r.log, id)| <= Committed(r, id) <= Committed(s, id)
    decreases |sts|
  {
    if sts != [] {
      NextKeeps(s, sts[0]);
      NextKeepsCancelled(s, sts[0], id);
      CancelledStaysQuiet(Next(s, sts[0]), sts[1..], id);
    }
  }

  /** The usual case: cancelled while not part of a running batch, a timer never runs again. */
  lemma {:induction false} CancelledNeverRunsAgain(s: Scheduler, sts: seq<Step>, id: nat)
    requires Inv(s) && id in s.objects && id !in Ids(s.batch) && LegalRun(Cancel(s, id), sts)
    ensures Nows(Run(Cancel(s, id), sts).log, id) == Nows(s.log, id)
  {
    CancelTakesHold(s, id);
    NextKeepsCancel(s, id);
    NotAhead(s, id);
    hide Inv, Run, LegalRun, Cancelled;
    CancelledStaysQuiet(Cancel(s, id), sts, id);
  }

  lemma NotAhead(s: Scheduler, id: nat)
    requires Inv(s) && id !in Ids(s.batch)
    ensures var r := Cancel(s, id); r.log == s.log && r.pos <= |r.batch| && !Waiting(r, id)
  {
  }

  lemma NextKeepsCancel(s: Scheduler, id: nat)
    requires Inv(s)
    ensures Inv(Cancel(s, id))
  {
    CancelKeeps(s, id);
  }
}
