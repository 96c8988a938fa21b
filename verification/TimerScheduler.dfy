/** The timer scheduler object, proved step by step against its state machine. */
module TimerScheduler {
  import opened Optional
  import opened TimerQueue
  import opened TimerRuns

  /** A timer object on the heap: only its expiration ever changes. */
  class TimerObject {
    const id: nat
    const addr: nat
    const repeat: bool
    const interval: int
    var expiration: Option<int>

    constructor (expiration: int, interval: int, id: nat, addr: nat)
      ensures this.id == id && Value() == Timer(addr, Some(expiration), interval > 0, interval)
    {
      this.expiration := Some(expiration);
      this.repeat := interval > 0;
      this.interval := interval;
      this.id := id;
      this.addr := addr;
    }

    ghost function Value(): Timer
      reads this
    {
      Timer(addr, expiration, repeat, interval)
    }

    method Restart(now: int)
      modifies this
      ensures Value() == old(Value()).Restart(now)
      ensures expiration == if repeat then Some(now + interval) else None
    {
      if repeat {
        expiration := Some(now + interval);
      } else {
        expiration := None;
      }
    }
  }

  /** `pool` is the heap the pointers in both indexes go to; `fd` is what timerfd holds. The clock
      readings and the callbacks' own calls come in as arguments. */
  class TimerScheduler {
    var pool: map<nat, TimerObject>
    var nextId: nat
    var timers: seq<Entry>
    var activeTimers: map<nat, TimerObject>
    var cancelingTimers: set<nat>
    var callingExpiredTimers: bool
    var fd: TimerFd
    ghost var batch: seq<Entry>
    ghost var pos: nat
    ghost var batchNow: int
    ghost var armedAt: int
    ghost var log: seq<Firing>

    ghost predicate Valid()
      reads this
    {
      && (forall id | id in pool :: pool[id].id == id)
      && (forall id | id in activeTimers :: id in pool && activeTimers[id] == pool[id])
    }

    // Timers the pool did not hold before are new objects.
    twostate predicate NewOnly(known: map<nat, TimerObject>)
      reads this
    {
      forall id | id in pool :: (id in known && pool[id] == known[id]) || fresh(pool[id])
    }

    ghost function Objects(): map<nat, Timer>
      reads this`pool, pool.Values
    {
      map id | id in pool :: pool[id].Value()
    }

    ghost function Value(): Scheduler
      reads this, pool.Values
    {
      Scheduler(Objects(), nextId, timers, activeTimers.Keys, cancelingTimers, callingExpiredTimers,
                batch, pos, batchNow, fd, armedAt, log)
    }

    constructor ()
      ensures Valid() && Value() == EMPTY
    {
      pool, nextId, timers, activeTimers := map[], 0, [], map[];
      cancelingTimers, callingExpiredTimers, fd := {}, false, Disarmed;
      batch, pos, batchNow, armedAt, log := [], 0, 0, 0, [];
    }

    /** Arming: the kernel adds the two parts of the interval to its clock. */
    method ResetTimerfd(expiration: int, clock: int)
      requires Valid()
      modifies this`fd, this`armedAt
      ensures Valid() && Value() == Arm(old(Value()), expiration, clock)
    {
      var duration := expiration - clock;
      if duration <= 0 {
        duration := MIN_DELAY;
      }
      SettimeIsExact(expiration, clock);
      var sec, nsec := Seconds(duration), Nanoseconds(duration);
      fd := Armed(clock + sec * NANOS_PER_SECOND + nsec);
      armedAt := clock;
    }

    method AddTimerInLoop(timer: TimerObject, clock: int)
      requires Valid() && timer.id in pool && pool[timer.id] == timer && timer.expiration.Some?
      modifies this`timers, this`activeTimers, this`fd, this`armedAt
      ensures Valid() && Value() == AddInLoop(old(Value()), timer.id, clock)
    {
      hide Insert, Delay;
      var when := timer.expiration.value;
      var earliestChanged := timers == [] || when <= timers[0].when;
      timers := Insert(timers, Entry(when, timer.addr, timer.id));
      activeTimers := activeTimers[timer.id := timer];
      if earliestChanged {
        ResetTimerfd(when, clock);
      }
    }

    method AddTimer(expiration: int, interval: int, addr: nat, clock: int) returns (id: nat)
      requires Valid() && nextId + 1 !in pool
      modifies this`pool, this`nextId, this`timers, this`activeTimers, this`fd, this`armedAt
      ensures Valid() && id in pool && pool == old(pool)[id := pool[id]] && fresh(pool[id])
      ensures id == nextId && Value() == Add(old(Value()), expiration, interval, addr, clock)
    {
      hide AddInLoop;
      var timer := MakeTimer(expiration, interval, addr);
      id := timer.id;
      AddTimerInLoop(timer, clock);
    }

    // The shared_ptr of a new timer exists from here on.
    method MakeTimer(expiration: int, interval: int, addr: nat) returns (timer: TimerObject)
      requires Valid() && nextId + 1 !in pool
      modifies this`pool, this`nextId
      ensures Valid() && fresh(timer) && timer.id == nextId == old(nextId) + 1 && timer.expiration.Some?
      ensures pool == old(pool)[timer.id := timer]
      ensures Value() == WithTimer(old(Value()), Timer(addr, Some(expiration), interval > 0, interval))
    {
      timer := new TimerObject(expiration, interval, nextId + 1, addr);
      pool := pool[timer.id := timer];
      nextId := timer.id;
      assert Objects() == old(Objects())[timer.id := timer.Value()];
    }

    method CancelTimerInLoop(id: nat)
      requires Valid()
      modifies this`timers, this`activeTimers, this`cancelingTimers
      ensures Valid() && Value() == Cancel(old(Value()), id)
    {
      if id in activeTimers {
        var timer := activeTimers[id];
        if timer.expiration.Some? {
          timers := Erase(timers, Entry(timer.expiration.value, timer.addr, id));
          activeTimers := activeTimers - {id};
        }
      } else if callingExpiredTimers {
        cancelingTimers := cancelingTimers + {id};
      }
    }

    method ExtractExpiredTimers(now: int) returns (expired: seq<Entry>)
      requires Valid()
      modifies this`timers, this`activeTimers
      ensures Valid()
      ensures var cut := UpperBound(old(timers), Entry(now, NULLPTR, 0));
              expired == old(timers)[..cut] && timers == old(timers)[cut..]
      ensures activeTimers.Keys == old(activeTimers.Keys) - Ids(expired)
    {
      var cut := UpperBound(timers, Entry(now, NULLPTR, 0));
      expired := timers[..cut];
      timers := timers[cut..];
      var i := 0;
      while i < |expired|
        invariant i <= |expired| && Valid() && timers == old(timers)[cut..]
        invariant activeTimers.Keys == old(activeTimers.Keys) - Ids(expired[..i])
      {
        var id := expired[i].id;
        if id in activeTimers {
          activeTimers := activeTimers - {id};
        }
        assert expired[..i + 1] == expired[..i] + [expired[i]];
        IdsOfParts(expired[..i], [expired[i]]);
        i := i + 1;
      }
      assert expired[..i] == expired;
    }

    // A call made by a callback, already on the loop thread.
    method Call(op: Op)
      requires Valid() && Inv(Value()) && LegalOp(Value(), op) && (callingExpiredTimers ==> 0 < pos)
      modifies this
      ensures Valid() && Inv(Value()) && Value() == Perform(old(Value()), op)
      ensures NewOnly(old(pool)) && callingExpiredTimers == old(callingExpiredTimers) && pos == old(pos)
    {
      hide AlarmSet, LegalOp, Agree, Inv, Add, Cancel;
      NextKeeps(Value(), Step.Call(op));
      IdIsNew(Value());
      match op
      case DoAdd(expiration, interval, addr, clock) =>
        var id := AddTimer(expiration, interval, addr, clock);
      case DoCancel(id) => CancelTimerInLoop(id);
    }

    // One callback: its own calls into the scheduler, in order.
    method RunTimer(ops: seq<Op>)
      requires Valid() && Inv(Value()) && callingExpiredTimers && pos < |batch|
      requires LegalOps(RunNext(Value()), ops)
      modifies this
      ensures Valid() && Inv(Value()) && Value() == PerformAll(RunNext(old(Value())), ops)
      ensures NewOnly(old(pool))
    {
      hide Agree, AlarmSet, Inv, Perform;
      NextKeeps(Value(), RunCallback);
      ghost var before := RunNext(Value());
      log := log + [Firing(batch[pos].id, batchNow)];
      pos := pos + 1;
      var i := 0;
      assert ops[0..] == ops;
      assert Value() == before;
      while i < |ops|
        invariant i <= |ops| && Valid() && Inv(Value()) && callingExpiredTimers && 0 < pos
        invariant LegalOps(Value(), ops[i..]) && PerformAll(Value(), ops[i..]) == PerformAll(before, ops)
        invariant NewOnly(old(pool))
      {
        assert ops[i..][1..] == ops[i + 1..];
        Call(ops[i]);
        i := i + 1;
      }
    }

    /** reset(): repeating timers that were not cancelled go back in, restarted from `now`; then the
        alarm is set to the earliest. */
    method Reset(expired: seq<Entry>, now: int, clocks: seq<int>)
      requires Valid() && Agree(Value()) && AlarmSet(Value())
      requires expired == batch && pos == |batch| && now == batchNow && |clocks| == |expired| + 1
      requires CanRestore(Value())
      modifies this, pool.Values
      ensures Valid() && pool == old(pool)
      ensures var r := Restore(old(Value()), clocks);
              Value() == if r.timers != [] then Arm(r, r.timers[0].when, clocks[|expired|]) else r
    {
      hide Agree, AlarmSet, RestoreFirst;
      ghost var r := Restore(Value(), clocks);
      assert clocks[0..] == clocks && expired[0..] == expired;
      var i := 0;
      while i < |expired|
        invariant i <= |expired| && Valid() && pool == old(pool)
        invariant batch == expired[i..] && pos == |batch| && batchNow == now
        invariant Agree(Value()) && AlarmSet(Value()) && CanRestore(Value())
        invariant Restore(Value(), clocks[i..]) == r
      {
        assert clocks[i..][1..] == clocks[i + 1..] && batch[1..] == expired[i + 1..];
        RestoreNext(expired[i].id, now, clocks[i]);
        i := i + 1;
      }
      assert Value() == r;
      if timers != [] {
        ResetTimerfd(timers[0].when, clocks[|expired|]);
      }
    }

    // One turn of that loop.
    method RestoreNext(id: nat, now: int, clock: int)
      requires Valid() && Agree(Value()) && AlarmSet(Value()) && CanRestore(Value())
      requires batch != [] && batch[0].id == id && batchNow == now
      modifies this`timers, this`activeTimers, this`fd, this`armedAt, this`batch, this`pos, pool.Values
      ensures Valid() && Agree(Value()) && AlarmSet(Value()) && CanRestore(Value())
      ensures Value() == RestoreFirst(old(Value()), clock) && batch == old(batch)[1..]
    {
      hide Agree, AlarmSet, RestoreFirst;
      RestoreFirstKeeps(Value(), clock);
      CanRestoreRest(Value(), clock);
      RestoreTimer(id, now, clock);
    }

    method RestoreTimer(id: nat, now: int, clock: int)
      requires Valid() && batch != [] && 0 < pos && batch[0].id == id && batchNow == now && id in pool
      modifies this`timers, this`activeTimers, this`fd, this`armedAt, this`batch, this`pos, pool[id]
      ensures Valid() && Value() == RestoreFirst(old(Value()), clock)
      ensures batch == old(batch)[1..] && pos == old(pos) - 1
    {
      hide AddInLoop;
      var timer := pool[id];
      batch, pos := batch[1..], pos - 1;
      if timer.repeat && id !in cancelingTimers {
        RestartTimer(id, now);
        AddTimerInLoop(timer, clock);
      }
    }

    method RestartTimer(id: nat, now: int)
      requires Valid() && id in pool
      modifies pool[id]
      ensures pool[id].Value() == old(pool[id].Value()).Restart(now)
      ensures Valid() && Objects() == old(Objects())[id := pool[id].Value()]
    {
      pool[id].Restart(now);
    }

    // handleRead up to the first callback.
    method StartBatch(now: int) returns (expired: seq<Entry>)
      requires Valid() && Inv(Value()) && !callingExpiredTimers
      modifies this
      ensures Valid() && Inv(Value()) && Value() == Begin(old(Value()), now) && expired == batch && pool == old(pool)
      ensures callingExpiredTimers && pos == 0 && batchNow == now
    {
      hide Agree, AlarmSet, Inv, Begin, Taken;
      ghost var s := Value();
      BeginKeepsInv(s, now);
      expired := TakeExpired(now);
      FinishBegin(s, now, Value(), expired);
      EnterBatch(expired, now);
    }

    // From here on callbacks are being run.
    method EnterBatch(expired: seq<Entry>, now: int)
      requires Valid()
      modifies this`callingExpiredTimers, this`cancelingTimers, this`batch, this`pos, this`batchNow
      ensures Valid()
      ensures Value() == old(Value()).(calling := true, canceling := {}, batch := expired, pos := 0, batchNow := now)
    {
      callingExpiredTimers, cancelingTimers := true, {};
      batch, pos, batchNow := expired, 0, now;
    }

    // The timerfd read and the expired timers taken out.
    method TakeExpired(now: int) returns (expired: seq<Entry>)
      requires Valid()
      modifies this`fd, this`timers, this`activeTimers
      ensures Valid()
      ensures Taken(old(Value()), now, Value(), expired)
    {
      hide UpperBound, Ids;
      if fd == Fired {
        fd := Disarmed;
      }
      expired := ExtractExpiredTimers(now);
    }

    /** handleRead: one batch from the cut to the re-arming, with callbacks that may add and cancel. */
    method HandleRead(now: int, scripts: seq<seq<Op>>, clocks: seq<int>)
      requires Valid() && Inv(Value()) && !callingExpiredTimers
      requires LegalBatch(Begin(Value(), now), scripts) && |clocks| == |scripts| + 1
      modifies this, pool.Values
      ensures Valid() && Inv(Value())
      ensures var s := RunBatch(Begin(old(Value()), now), scripts);
              CanRestore(s) && |clocks| == |s.batch| + 1 && Value() == End(s, clocks)
      ensures var sts := ReadSteps(now, scripts, clocks);
              LegalRun(old(Value()), sts) && Value() == Run(old(Value()), sts)
    {
      hide Agree, AlarmSet, Inv, Begin, Restore, End, PerformAll, LegalOps, CanRestore, LegalRun, Run, ReadSteps;
      HandleReadIsRun(Value(), now, scripts, clocks);
      ghost var begun := Begin(Value(), now);
      var expired := StartBatch(now);
      assert scripts[0..] == scripts;
      BatchRunsAll(begun, scripts);
      var i := 0;
      while i < |expired|
        invariant i <= |expired| && Valid() && Inv(Value()) && callingExpiredTimers
        invariant batch == expired && pos == i && batchNow == now
        invariant LegalBatch(Value(), scripts[i..]) && RunBatch(Value(), scripts[i..]) == RunBatch(begun, scripts)
        invariant NewOnly(old(pool))
      {
        assert scripts[i..][1..] == scripts[i + 1..];
        RunTimer(scripts[i]);
        i := i + 1;
      }
      assert Value() == RunBatch(begun, scripts);
      Finish(expired, now, clocks);
    }

    method Finish(expired: seq<Entry>, now: int, clocks: seq<int>)
      requires Valid() && Inv(Value()) && callingExpiredTimers
      requires expired == batch && pos == |batch| && now == batchNow && |clocks| == |expired| + 1
      modifies this, pool.Values
      ensures Valid() && Inv(Value()) && CanRestore(old(Value())) && Value() == End(old(Value()), clocks)
    {
      hide Agree, AlarmSet, Inv, Restore;
      ghost var s := Value();
      ReadyToEnd(s);
      NextKeeps(s, EndRead(clocks));
      callingExpiredTimers := false;
      assert Objects() == s.objects;
      assert Value() == s.(calling := false);
      Reset(expired, now, clocks);
    }
  }

  predicate Taken(s: Scheduler, now: int, t: Scheduler, expired: seq<Entry>) {
    var cut := UpperBound(s.timers, Entry(now, NULLPTR, 0));
    && expired == s.timers[..cut]
    && t == s.(timers := s.timers[cut..], active := s.active - Ids(expired),
               fd := if s.fd == Fired then Disarmed else s.fd)
  }

  // Only the flags and the batch are missing from what Begin leaves.
  lemma FinishBegin(s: Scheduler, now: int, t: Scheduler, expired: seq<Entry>)
    requires Taken(s, now, t, expired)
    ensures Begin(s, now) == t.(calling := true, canceling := {}, batch := expired, pos := 0, batchNow := now)
  {
  }

  lemma IdIsNew(s: Scheduler)
    requires Inv(s)
    ensures s.nextId + 1 !in s.objects
  {
  }

  lemma BeginKeepsInv(s: Scheduler, now: int)
    requires Inv(s) && !s.calling
    ensures Inv(Begin(s, now))
  {
    NextKeeps(s, BeginRead(now));
  }

  lemma ReadyToEnd(s: Scheduler)
    requires Inv(s) && s.pos == |s.batch|
    ensures CanRestore(s)
    ensures var s' := s.(calling := false); Agree(s') && AlarmSet(s')
  {
  }
}
