/** The timer scheduler as a state machine over the steps of its loop thread: an ordered set and
    an id table kept in agreement through re-entrant callbacks, and a one-shot kernel alarm. */
module TimerQueue {
  import opened Optional

  const NULLPTR: nat := 0
  const NANOS_PER_SECOND: int := 1_000_000_000
  const MIN_DELAY: int := 100_000_000

  /** A timer object; `addr` is where it lives. Times are nanoseconds of one steady clock. */
  datatype Timer = Timer(addr: nat, expiration: Option<int>, repeat: bool, interval: int) {
    function Restart(now: int): Timer {
      this.(expiration := if repeat then Some(now + interval) else None)
    }
  }

  /** An element of the ordered set: a time and a pointer, with the id of the timer pointed to. */
  datatype Entry = Entry(when: int, addr: nat, id: nat)

  // The order of std::pair<Timestamp, shared_ptr<Timer>>.
  predicate Before(e: Entry, f: Entry) {
    e.when < f.when || (e.when == f.when && e.addr < f.addr)
  }

  /** timerfd with no interval: one expiry per arming; reading it once makes it quiet again. */
  datatype TimerFd = Disarmed | Armed(deadline: int) | Fired

  datatype Firing = Firing(id: nat, now: int)

  /** `batch` and `pos`: the expired entries of a handleRead in progress and how many of them have
      been run; `armedAt`: the clock at the last arming; `log`: every callback run so far. */
  datatype Scheduler = Scheduler(
    objects: map<nat, Timer>, nextId: nat,
    timers: seq<Entry>, active: set<nat>, canceling: set<nat>,
    calling: bool, batch: seq<Entry>, pos: nat, batchNow: int,
    fd: TimerFd, armedAt: int, log: seq<Firing>)

  const EMPTY := Scheduler(map[], 0, [], {}, {}, false, [], 0, 0, Disarmed, 0, [])

  // ---- The alarm ----------------------------------------------------------------------------------

  // The duration given to the kernel for an expiration, never zero.
  function Delay(when: int, clock: int): (d: int)
    ensures 0 < d && (clock < when ==> d == when - clock)
  {
    if when - clock <= 0 then MIN_DELAY else when - clock
  }

  // it_value of the itimerspec.
  function Seconds(d: int): int { d / NANOS_PER_SECOND }
  function Nanoseconds(d: int): int { d % NANOS_PER_SECOND }

  /** The pair handed to timerfd_settime is exactly the duration, well formed, and never the zero
      that would disarm the timer. */
  lemma SettimeIsExact(when: int, clock: int)
    ensures var d := Delay(when, clock);
            && Seconds(d) * 1_000_000_000 + Nanoseconds(d) == d
            && 0 <= Seconds(d) && 0 <= Nanoseconds(d) < 1_000_000_000
            && !(Seconds(d) == 0 && Nanoseconds(d) == 0)
            && clock + d == if clock < when then when else clock + 100_000_000
  {
  }

  function Arm(s: Scheduler, when: int, clock: int): Scheduler {
    s.(fd := Armed(clock + Delay(when, clock)), armedAt := clock)
  }

  // ---- The ordered set ------------------------------------------------------------------------------

  predicate Sorted(ts: seq<Entry>) {
    forall i, j | 0 <= i < j < |ts| :: Before(ts[i], ts[j])
  }

  function UpperBound(ts: seq<Entry>, key: Entry): (i: nat)
    ensures i <= |ts| && forall j | 0 <= j < i :: !Before(key, ts[j])
    ensures i < |ts| ==> Before(key, ts[i])
  {
    if ts == [] || Before(key, ts[0]) then 0 else UpperBound(ts[1..], key) + 1
  }

  function Insert(ts: seq<Entry>, e: Entry): seq<Entry> {
    var i := UpperBound(ts, e);
    ts[..i] + [e] + ts[i..]
  }

  function Find(ts: seq<Entry>, e: Entry): (i: nat)
    ensures i <= |ts| && (i < |ts| ==> ts[i] == e) && (i == |ts| ==> e !in ts)
  {
    if ts == [] || ts[0] == e then 0 else Find(ts[1..], e) + 1
  }

  function Erase(ts: seq<Entry>, e: Entry): seq<Entry> {
    var i := Find(ts, e);
    if i == |ts| then ts else ts[..i] + ts[i + 1..]
  }

  function Ids(es: seq<Entry>): set<nat> { set i | 0 <= i < |es| :: es[i].id }

  // ---- The operations --------------------------------------------------------------------------------

  function EntryOf(s: Scheduler, id: nat): Entry
    requires id in s.objects && s.objects[id].expiration.Some?
  {
    Entry(s.objects[id].expiration.value, s.objects[id].addr, id)
  }

  function AddInLoop(s: Scheduler, id: nat, clock: int): Scheduler
    requires id in s.objects && s.objects[id].expiration.Some?
  {
    var e := EntryOf(s, id);
    var earliestChanged := s.timers == [] || e.when <= s.timers[0].when;
    var s' := s.(timers := Insert(s.timers, e), active := s.active + {id});
    if earliestChanged then Arm(s', e.when, clock) else s'
  }

  function Add(s: Scheduler, expiration: int, interval: int, addr: nat, clock: int): Scheduler {
    var id := s.nextId + 1;
    var t := Timer(addr, Some(expiration), interval > 0, interval);
    AddInLoop(s.(objects := s.objects[id := t], nextId := id), id, clock)
  }

  function Cancel(s: Scheduler, id: nat): Scheduler {
    if id in s.active && id in s.objects && s.objects[id].expiration.Some? then
      s.(timers := Erase(s.timers, EntryOf(s, id)), active := s.active - {id})
    else if id !in s.active && s.calling then s.(canceling := s.canceling + {id})
    else s
  }

  // handleRead up to the first callback.
  function Begin(s: Scheduler, now: int): Scheduler {
    var cut := UpperBound(s.timers, Entry(now, NULLPTR, 0));
    var expired := s.timers[..cut];
    s.(fd := if s.fd == Fired then Disarmed else s.fd,
       timers := s.timers[cut..], active := s.active - Ids(expired),
       calling := true, canceling := {}, batch := expired, pos := 0, batchNow := now)
  }

  function RunNext(s: Scheduler): Scheduler
    requires s.pos < |s.batch|
  {
    s.(log := s.log + [Firing(s.batch[s.pos].id, s.batchNow)], pos := s.pos + 1)
  }

  // One turn of the loop in reset(): the first entry of the batch is either put back or dropped.
  function RestoreFirst(s: Scheduler, clock: int): Scheduler
    requires s.batch != [] && 0 < s.pos && s.batch[0].id in s.objects
  {
    var id := s.batch[0].id;
    var s' := s.(batch := s.batch[1..], pos := s.pos - 1);
    if s.objects[id].repeat && id !in s.canceling then
      AddInLoop(s'.(objects := s.objects[id := s.objects[id].Restart(s.batchNow)]), id, clock)
    else s'
  }

  predicate CanRestore(s: Scheduler) {
    s.pos == |s.batch| && forall e | e in s.batch :: e.id in s.objects
  }

  function Restore(s: Scheduler, clocks: seq<int>): (r: Scheduler)
    requires CanRestore(s) && |s.batch| <= |clocks|
    decreases |s.batch|
  {
    if s.batch == [] then s else Restore(RestoreFirst(s, clocks[0]), clocks[1..])
  }

  // The end of handleRead: flag down, repeating timers back in, alarm set to the new earliest.
  function End(s: Scheduler, clocks: seq<int>): Scheduler
    requires CanRestore(s) && |clocks| == |s.batch| + 1
  {
    var r := Restore(s.(calling := false), clocks);
    if r.timers != [] then Arm(r, r.timers[0].when, clocks[|clocks| - 1]) else r
  }

  datatype Op = DoAdd(expiration: int, interval: int, addr: nat, clock: int) | DoCancel(id: nat)

  // A new timer object lives where no object still referenced lives.
  predicate LegalOp(s: Scheduler, op: Op) {
    op.DoAdd? ==>
      op.addr != NULLPTR && forall e | e in s.timers + s.batch :: e.addr != op.addr
  }

  function Perform(s: Scheduler, op: Op): Scheduler {
    match op
    case DoAdd(expiration, interval, addr, clock) => Add(s, expiration, interval, addr, clock)
    case DoCancel(id) => Cancel(s, id)
  }

  /** Calls are made between handleReads or from a callback, that is, once one has been run. */
  datatype Step = Call(op: Op) | Expire(time: int) | BeginRead(now: int) | RunCallback | EndRead(clocks: seq<int>)

  predicate Legal(s: Scheduler, st: Step) {
    match st
    case Call(op) => LegalOp(s, op) && (s.calling ==> 0 < s.pos)
    case Expire(time) => s.fd.Armed? && s.fd.deadline <= time
    case BeginRead(_) => !s.calling
    case RunCallback => s.calling && s.pos < |s.batch|
    case EndRead(clocks) => s.calling && CanRestore(s) && |clocks| == |s.batch| + 1
  }

  function Next(s: Scheduler, st: Step): Scheduler
    requires Legal(s, st)
  {
    match st
    case Call(op) => Perform(s, op)
    case Expire(_) => s.(fd := Fired)
    case BeginRead(now) => Begin(s, now)
    case RunCallback => RunNext(s)
    case EndRead(clocks) => End(s, clocks)
  }

  predicate LegalRun(s: Scheduler, sts: seq<Step>)
    decreases |sts|
  {
    sts == [] || (Legal(s, sts[0]) && LegalRun(Next(s, sts[0]), sts[1..]))
  }

  function Run(s: Scheduler, sts: seq<Step>): Scheduler
    requires LegalRun(s, sts)
    decreases |sts|
  {
    if sts == [] then s else Run(Next(s, sts[0]), sts[1..])
  }

  // ---- What every step keeps ----------------------------------------------------------------------

  predicate Distinct(es: seq<Entry>) {
    forall i, j | 0 <= i < j < |es| :: es[i].id != es[j].id && es[i].addr != es[j].addr
  }

  predicate Apart(es: seq<Entry>, fs: seq<Entry>) {
    forall e, f | e in es && f in fs :: e.id != f.id && e.addr != f.addr
  }

  predicate Tracked(s: Scheduler, es: seq<Entry>) {
    forall e | e in es :: e.id in s.objects && s.objects[e.id].addr == e.addr && e.addr != NULLPTR
  }

  /** The two indexes agree: the same timers, each filed under its current expiration; and the
      timers of the running batch are in neither. */
  predicate Agree(s: Scheduler) {
    && Sorted(s.timers) && Distinct(s.timers) && Distinct(s.batch) && Apart(s.timers, s.batch)
    && s.active == Ids(s.timers)
    && Tracked(s, s.timers) && Tracked(s, s.batch)
    && (forall e | e in s.timers :: s.objects[e.id].expiration == Some(e.when))
    && (forall id | id in s.objects :: id <= s.nextId && (s.objects[id].repeat <==> s.objects[id].interval > 0))
    && s.pos <= |s.batch|
    && (!s.calling ==> s.pos == |s.batch|)
  }

  predicate AlarmSet(s: Scheduler) {
    s.timers != [] && s.fd.Armed? ==>
      s.fd.deadline <= s.timers[0].when || s.fd.deadline <= s.armedAt + MIN_DELAY
  }

  lemma IdsOfParts(a: seq<Entry>, b: seq<Entry>)
    ensures Ids(a + b) == Ids(a) + Ids(b)
  {
    forall i | 0 <= i < |b| ensures b[i].id in Ids(a + b) {
      assert (a + b)[|a| + i] == b[i];
    }
    forall i | 0 <= i < |a| ensures a[i].id in Ids(a + b) {
      assert (a + b)[i] == a[i];
    }
  }

  lemma IdOfOne(e: Entry)
    ensures Ids([e]) == {e.id}
  {
    assert [e][0] == e;
  }

  lemma {:induction false} SizesAgree(es: seq<Entry>)
    requires Distinct(es)
    ensures |Ids(es)| == |es|
  {
    if es != [] {
      var front, last := es[..|es| - 1], es[|es| - 1];
      SizesAgree(front);
      assert es == front + [last];
      IdsOfParts(front, [last]);
      IdOfOne(last);
      assert last.id !in Ids(front);
    }
  }

  lemma InsertKeepsOrder(ts: seq<Entry>, e: Entry)
    requires Sorted(ts) && Distinct(ts) && Apart(ts, [e])
    ensures Sorted(Insert(ts, e)) && Distinct(Insert(ts, e))
    ensures Ids(Insert(ts, e)) == Ids(ts) + {e.id}
    ensures forall f :: f in Insert(ts, e) <==> f in ts || f == e
    ensures Insert(ts, e)[0] == if ts == [] || e.when < ts[0].when || (e.when == ts[0].when && e.addr < ts[0].addr)
                                then e else ts[0]
  {
    InsertKeepsSorted(ts, e);
    var i := UpperBound(ts, e);
    InsertKeepsDistinct(ts, e, i);
    hide Sorted, Distinct, Apart;
    InsertAddsId(ts, e, i);
    assert ts == ts[..i] + ts[i..];
  }

  lemma InsertKeepsSorted(ts: seq<Entry>, e: Entry)
    requires Sorted(ts) && Apart(ts, [e])
    ensures Sorted(Insert(ts, e))
  {
  }

  lemma InsertAddsId(ts: seq<Entry>, e: Entry, i: nat)
    requires i <= |ts|
    ensures Ids(ts[..i] + [e] + ts[i..]) == Ids(ts) + {e.id}
  {
    IdsOfParts(ts[..i], [e]);
    IdsOfParts(ts[..i] + [e], ts[i..]);
    IdsOfParts(ts[..i], ts[i..]);
    IdOfOne(e);
    assert ts[..i] + ts[i..] == ts;
  }

  lemma InsertKeepsDistinct(ts: seq<Entry>, e: Entry, i: nat)
    requires i <= |ts| && Distinct(ts) && Apart(ts, [e])
    ensures Distinct(ts[..i] + [e] + ts[i..])
  {
  }

  lemma EraseKeepsOrder(ts: seq<Entry>, e: Entry)
    requires Sorted(ts) && Distinct(ts) && e in ts
    ensures Sorted(Erase(ts, e)) && Distinct(Erase(ts, e))
    ensures Ids(Erase(ts, e)) == Ids(ts) - {e.id}
    ensures forall f :: f in Erase(ts, e) <==> f in ts && f != e
    ensures Erase(ts, e) != [] ==> !Before(Erase(ts, e)[0], ts[0])
  {
    var i := Find(ts, e);
    WithoutOne(ts, i);
    EraseDropsId(ts, i);
  }

  lemma WithoutOne(ts: seq<Entry>, i: nat)
    requires i < |ts| && Sorted(ts) && Distinct(ts)
    ensures var r := ts[..i] + ts[i + 1..];
            && Sorted(r) && Distinct(r) && (r != [] ==> !Before(r[0], ts[0]))
            && (forall f :: f in r <==> f in ts && f != ts[i])
  {
  }

  lemma EraseDropsId(ts: seq<Entry>, i: nat)
    requires i < |ts| && Distinct(ts)
    ensures Ids(ts[..i] + ts[i + 1..]) == Ids(ts) - {ts[i].id}
  {
    var a, e, b := ts[..i], ts[i], ts[i + 1..];
    IdsOfParts(a, b);
    IdsOfParts(a, [e]);
    IdsOfParts(a + [e], b);
    IdOfOne(e);
    assert ts == a + [e] + b;
    assert e.id !in Ids(a) && e.id !in Ids(b);
  }

  /** Putting a timer in: `inserted` holds for both indexes, and they still agree. */
  lemma AddInLoopKeeps(s: Scheduler, id: nat, clock: int)
    requires Agree(s) && AlarmSet(s)
    requires id in s.objects && s.objects[id].expiration.Some? && s.objects[id].addr != NULLPTR
    requires Apart(s.timers, [EntryOf(s, id)]) && Apart([EntryOf(s, id)], s.batch)
    ensures EntryOf(s, id) !in s.timers && id !in s.active
    ensures var r := AddInLoop(s, id, clock);
            Agree(r) && AlarmSet(r) && (s.timers == [] || s.fd != Disarmed ==> r.fd != Disarmed)
  {
    var e := EntryOf(s, id);
    assert e in [e];
    InsertKeepsOrder(s.timers, e);
  }

  lemma CancelKeeps(s: Scheduler, id: nat)
    requires Agree(s) && AlarmSet(s)
    ensures Agree(Cancel(s, id)) && AlarmSet(Cancel(s, id))
    ensures id !in Cancel(s, id).active
  {
    if id in s.active {
      var i :| 0 <= i < |s.timers| && s.timers[i].id == id;
      var e := s.timers[i];
      assert e in s.timers && EntryOf(s, id) == e;
      EraseKeepsOrder(s.timers, e);
      WithoutTimer(s, e, Erase(s.timers, e));
    }
  }

  lemma WithoutTimer(s: Scheduler, e: Entry, rest: seq<Entry>)
    requires Agree(s) && AlarmSet(s) && e in s.timers
    requires Sorted(rest) && Distinct(rest) && Ids(rest) == Ids(s.timers) - {e.id}
    requires forall f :: f in rest <==> f in s.timers && f != e
    requires rest != [] ==> !Before(rest[0], s.timers[0])
    ensures var r := s.(timers := rest, active := s.active - {e.id}); Agree(r) && AlarmSet(r)
  {
  }

  /** An add, told in full: one entry more, under the time asked for and the next id; and the alarm set
      for it exactly when no waiting timer is earlier. */
  lemma AddFiles(s: Scheduler, expiration: int, interval: int, addr: nat, clock: int)
    ensures var r := Add(s, expiration, interval, addr, clock);
            var id := s.nextId + 1;
            && r == s.(nextId := id, objects := s.objects[id := Timer(addr, Some(expiration), interval > 0, interval)],
                       timers := r.timers, active := s.active + {id}, fd := r.fd, armedAt := r.armedAt)
            && (forall f :: f in r.timers <==> f in s.timers || f == Entry(expiration, addr, id))
            && |r.timers| == |s.timers| + 1
            && (if s.timers == [] || expiration <= s.timers[0].when
                then r.fd == Armed(if clock < expiration then expiration else clock + 100_000_000) && r.armedAt == clock
                else r.fd == s.fd && r.armedAt == s.armedAt)
  {
    var e := Entry(expiration, addr, s.nextId + 1);
    InsertAddsOne(s.timers, e);
    SettimeIsExact(expiration, clock);
    hide Insert, Delay;
    assert Add(s, expiration, interval, addr, clock).timers == Insert(s.timers, e);
  }

  lemma InsertAddsOne(ts: seq<Entry>, e: Entry)
    ensures forall f :: f in Insert(ts, e) <==> f in ts || f == e
    ensures |Insert(ts, e)| == |ts| + 1
  {
    var i := UpperBound(ts, e);
    assert ts == ts[..i] + ts[i..];
    hide UpperBound;
  }

  /** A cancel, told in full: that timer's entry goes, every other stays, and only a timer of the running
      batch is marked. */
  lemma CancelTakesOne(s: Scheduler, id: nat)
    requires Agree(s)
    ensures var r := Cancel(s, id);
            && r == s.(timers := r.timers, active := s.active - {id}, canceling := r.canceling)
            && (forall f :: f in r.timers <==> f in s.timers && f.id != id)
            && r.canceling == s.canceling + if id !in s.active && s.calling then {id} else {}
  {
    if id in s.active {
      var e := OwnEntry(s, id);
      EraseKeepsOrder(s.timers, e);
      OneOfAKind(s.timers, e);
      hide Erase, Agree;
    } else {
      assert forall f | f in s.timers :: f.id in Ids(s.timers);
      hide Agree;
    }
  }

  // An active timer's entry, and what EraseKeepsOrder needs of the set.
  lemma OwnEntry(s: Scheduler, id: nat) returns (e: Entry)
    requires Agree(s) && id in s.active
    ensures Sorted(s.timers) && Distinct(s.timers)
    ensures id in s.objects && s.objects[id].expiration.Some?
    ensures e in s.timers && e.id == id && EntryOf(s, id) == e
  {
    var i :| 0 <= i < |s.timers| && s.timers[i].id == id;
    e := s.timers[i];
    assert e in s.timers;
  }

  lemma OneOfAKind(ts: seq<Entry>, e: Entry)
    requires Distinct(ts) && e in ts
    ensures forall f | f in ts && f.id == e.id :: f == e
  {
  }

  /** handleRead's start, told of the rest: a fired alarm has been read, no cancel is remembered, and no
      timer object has changed. */
  lemma BeginReads(s: Scheduler, now: int)
    ensures var r := Begin(s, now);
            && r.fd == (if s.fd == Fired then Disarmed else s.fd) && r.canceling == {} && r.calling
            && r.objects == s.objects && r.log == s.log && r.batchNow == now && r.pos == 0
  {
  }

  lemma PerformKeeps(s: Scheduler, op: Op)
    requires Agree(s) && AlarmSet(s) && LegalOp(s, op)
    ensures Agree(Perform(s, op)) && AlarmSet(Perform(s, op))
    ensures s.timers == [] || s.fd != Disarmed ==>
              Perform(s, op).timers == [] || Perform(s, op).fd != Disarmed
  {
    match op
    case DoCancel(id) =>
      CancelKeeps(s, id);
    case DoAdd(expiration, interval, addr, clock) =>
      var t := Timer(addr, Some(expiration), interval > 0, interval);
      NewTimer(s, t);
      hide Agree, AlarmSet, LegalOp, Apart;
      AddInLoopKeeps(WithTimer(s, t), s.nextId + 1, clock);
  }

  function WithTimer(s: Scheduler, t: Timer): Scheduler {
    s.(objects := s.objects[s.nextId + 1 := t], nextId := s.nextId + 1)
  }

  // A timer object with a new id, at an address no referenced timer has.
  lemma NewTimer(s: Scheduler, t: Timer)
    requires Agree(s) && AlarmSet(s) && (t.repeat <==> t.interval > 0)
    requires t.expiration.Some? && forall e | e in s.timers + s.batch :: e.addr != t.addr
    ensures var r := WithTimer(s, t);
            && Agree(r) && AlarmSet(r)
            && Apart(r.timers, [EntryOf(r, r.nextId)]) && Apart([EntryOf(r, r.nextId)], r.batch)
  {
  }

  /** extractExpiredTimers: cutting at (now, nullptr) takes exactly the timers that expired strictly
      before `now`, in non-decreasing order of expiration, and leaves the rest. */
  lemma ExtractsExpired(s: Scheduler, now: int)
    requires Agree(s)
    ensures var r := Begin(s, now);
            && s.timers == r.batch + r.timers
            && (forall e | e in r.batch :: e.when < now)
            && (forall e | e in r.timers :: now <= e.when)
            && (forall i, j | 0 <= i < j < |r.batch| :: r.batch[i].when <= r.batch[j].when)
  {
    CutAt(s.timers, now);
    TimesAscend(s.timers);
    hide Agree, UpperBound, Ids;
    SplitByTime(s.timers, UpperBound(s.timers, Entry(now, NULLPTR, 0)), now);
  }

  lemma SplitByTime(ts: seq<Entry>, cut: nat, now: int)
    requires cut <= |ts| && forall i | 0 <= i < |ts| :: i < cut <==> ts[i].when < now
    requires forall i, j | 0 <= i < j < |ts| :: ts[i].when <= ts[j].when
    ensures ts == ts[..cut] + ts[cut..]
    ensures (forall e | e in ts[..cut] :: e.when < now) && (forall e | e in ts[cut..] :: now <= e.when)
    ensures forall i, j | 0 <= i < j < cut :: ts[..cut][i].when <= ts[..cut][j].when
  {
  }

  lemma TimesAscend(ts: seq<Entry>)
    requires Sorted(ts)
    ensures forall i, j | 0 <= i < j < |ts| :: ts[i].when <= ts[j].when
  {
  }

  lemma {:induction false} CutAt(ts: seq<Entry>, now: int)
    requires Sorted(ts) && forall e | e in ts :: e.addr != NULLPTR
    ensures var cut := UpperBound(ts, Entry(now, NULLPTR, 0));
            forall i | 0 <= i < |ts| :: i < cut <==> ts[i].when < now
  {
  }

  /** The assertion after the cut asks for more than the cut gives: it holds if and only if no timer
      expires at exactly `now`. */
  lemma CutAssertionIff(s: Scheduler, now: int)
    requires Agree(s)
    ensures var r := Begin(s, now);
            (r.timers == [] || now < r.timers[0].when) <==> forall e | e in s.timers :: e.when != now
  {
  }

  /** It can fail: a timer added for time 5 is left over by a handleRead that reads 5 off the clock. */
  lemma CutAssertionCanFail()
    ensures var sts := [Call(DoAdd(5, 0, 1, 0))];
            && LegalRun(EMPTY, sts) && Legal(Run(EMPTY, sts), BeginRead(5))
            && var r := Next(Run(EMPTY, sts), BeginRead(5));
               r.timers != [] && !(5 < r.timers[0].when)
  {
    var st := Call(DoAdd(5, 0, 1, 0));
    var s := Next(EMPTY, st);
    var e, key := Entry(5, 1, 1), Entry(5, NULLPTR, 0);
    assert [st][1..] == [];
    assert LegalRun(s, []) && Run(s, []) == s;
    assert LegalRun(EMPTY, [st]) && Run(EMPTY, [st]) == s;
    assert s.timers == [e];
    assert Before(key, e) && UpperBound([e], key) == 0;
  }

  lemma ApartIds(xs: seq<Entry>, ys: seq<Entry>)
    requires Apart(xs, ys)
    ensures Ids(xs) !! Ids(ys)
  {
  }

  lemma PartsStayDistinct(ts: seq<Entry>, cut: nat)
    requires cut <= |ts| && Distinct(ts)
    ensures Distinct(ts[..cut]) && Distinct(ts[cut..]) && Apart(ts[cut..], ts[..cut])
    ensures Ids(ts[cut..]) == Ids(ts) - Ids(ts[..cut])
  {
  }

  lemma BeginKeeps(s: Scheduler, now: int)
    requires Agree(s) && AlarmSet(s) && s.batch == []
    ensures Agree(Begin(s, now)) && AlarmSet(Begin(s, now))
  {
    var cut := UpperBound(s.timers, Entry(now, NULLPTR, 0));
    PartsStayDistinct(s.timers, cut);
    TimesAscend(s.timers);
    PartsStaySorted(s.timers, cut);
    var r := Begin(s, now);
    hide UpperBound, Sorted, Distinct, Apart, Ids;
    assert forall e | e in r.batch :: e in s.timers;
    assert forall e | e in r.timers :: e in s.timers;
  }

  lemma PartsStaySorted(ts: seq<Entry>, cut: nat)
    requires cut <= |ts| && Sorted(ts)
    ensures Sorted(ts[cut..])
  {
  }

  lemma RestoreFirstKeeps(s: Scheduler, clock: int)
    requires Agree(s) && AlarmSet(s) && s.batch != [] && s.pos == |s.batch|
    ensures s.batch[0].id in s.objects
    ensures Agree(RestoreFirst(s, clock)) && AlarmSet(RestoreFirst(s, clock))
  {
    OffTheBatch(s);
    var s' := s.(batch := s.batch[1..], pos := s.pos - 1);
    hide Agree, AlarmSet, Apart, Tracked, AddInLoop;
    RestoreOne(s', s.batch[0], s.batchNow, clock);
  }

  lemma OffTheBatch(s: Scheduler)
    requires Agree(s) && AlarmSet(s) && s.batch != [] && s.pos == |s.batch|
    ensures var e := s.batch[0];
            var r := s.(batch := s.batch[1..], pos := s.pos - 1);
            Agree(r) && AlarmSet(r) && Apart(r.timers, [e]) && Apart(r.batch, [e]) && Tracked(r, [e])
  {
    var e := s.batch[0];
    assert e in s.batch;
    PartsStayDistinct(s.batch, 1);
    assert s.batch[..1] == [e] && e in [e];
    assert forall f | f in s.batch[1..] :: f in s.batch;
    hide Sorted, Distinct, UpperBound;
  }

  // The entry taken off the batch, put back under its restarted expiration.
  lemma RestoreOne(s: Scheduler, e: Entry, now: int, clock: int)
    requires Agree(s) && AlarmSet(s)
    requires Apart(s.timers, [e]) && Apart(s.batch, [e]) && Tracked(s, [e])
    ensures e.id in s.objects
    ensures s.objects[e.id].repeat ==>
              var s' := s.(objects := s.objects[e.id := s.objects[e.id].Restart(now)]);
              var r := AddInLoop(s', e.id, clock);
              Agree(r) && AlarmSet(r)
  {
    assert e in [e];
    if s.objects[e.id].repeat {
      var s' := s.(objects := s.objects[e.id := s.objects[e.id].Restart(now)]);
      assert forall f | f in s.timers || f in s.batch :: s'.objects[f.id] == s.objects[f.id];
      AddInLoopKeeps(s', e.id, clock);
    }
  }

  lemma {:induction false} RestoreKeeps(s: Scheduler, clocks: seq<int>)
    requires Agree(s) && AlarmSet(s) && CanRestore(s) && |s.batch| <= |clocks|
    ensures var r := Restore(s, clocks); Agree(r) && AlarmSet(r) && r.batch == [] && r.calling == s.calling
    decreases |s.batch|
  {
    if s.batch != [] {
      RestoreFirstKeeps(s, clocks[0]);
      var s' := RestoreFirst(s, clocks[0]);
      assert forall e | e in s'.batch :: e in s.batch;
      RestoreKeeps(s', clocks[1..]);
    }
  }

  /** The whole invariant at every point a callback or the kernel can observe. */
  predicate Inv(s: Scheduler) {
    && Agree(s) && AlarmSet(s)
    && (!s.calling ==> s.batch == [] && (s.timers != [] ==> s.fd != Disarmed))
  }

  lemma NextKeeps(s: Scheduler, st: Step)
    requires Inv(s) && Legal(s, st)
    ensures Inv(Next(s, st))
  {
    match st
    case Call(op) => CallKeeps(s, op);
    case Expire(_) =>
    case BeginRead(now) =>
      BeginKeeps(s, now);
      hide Agree, AlarmSet, UpperBound, Ids;
    case RunCallback =>
    case EndRead(clocks) => EndKeeps(s, clocks);
  }

  lemma CallKeeps(s: Scheduler, op: Op)
    requires Inv(s) && LegalOp(s, op)
    ensures Inv(Perform(s, op))
  {
    PerformKeeps(s, op);
    hide Agree, AlarmSet, LegalOp, Insert, Erase;
  }

  lemma EndKeeps(s: Scheduler, clocks: seq<int>)
    requires Inv(s) && s.calling && CanRestore(s) && |clocks| == |s.batch| + 1
    ensures Inv(End(s, clocks))
  {
    var s' := s.(calling := false);
    assert Agree(s') && AlarmSet(s');
    RestoreKeeps(s', clocks);
    var r := Restore(s', clocks);
    hide Restore;
    if r.timers != [] {
      ArmKeeps(r, clocks[|clocks| - 1]);
    }
  }

  // Arming for the earliest timer.
  lemma ArmKeeps(s: Scheduler, clock: int)
    requires Agree(s) && s.timers != []
    ensures var r := Arm(s, s.timers[0].when, clock); Agree(r) && AlarmSet(r) && r.fd != Disarmed
  {
    hide Sorted, Distinct, Apart, Ids;
  }

  lemma {:induction false} RunKeeps(s: Scheduler, sts: seq<Step>)
    requires Inv(s) && LegalRun(s, sts)
    ensures Inv(Run(s, sts))
    decreases |sts|
  {
    if sts != [] {
      NextKeeps(s, sts[0]);
      RunKeeps(Next(s, sts[0]), sts[1..]);
    }
  }

  /** Index agreement after any run, also in the middle of a batch: the set and the table hold the
      same timers, each under its current expiration, and none of the batch. */
  lemma {:induction false} IndexesAgree(sts: seq<Step>)
    requires LegalRun(EMPTY, sts)
    ensures var s := Run(EMPTY, sts);
            && |s.timers| == |s.active|
            && (forall id :: id in s.active <==> exists i :: 0 <= i < |s.timers| && s.timers[i].id == id)
            && (forall i | 0 <= i < |s.timers| ::
                  s.timers[i].id in s.objects && s.objects[s.timers[i].id].expiration == Some(s.timers[i].when))
            && (forall i, j | 0 <= i < j < |s.timers| ::
                  s.timers[i].when <= s.timers[j].when && s.timers[i].id != s.timers[j].id)
            && Ids(s.batch) !! s.active
  {
    RunKeeps(EMPTY, sts);
    var s := Run(EMPTY, sts);
    SizesAgree(s.timers);
    forall i | 0 <= i < |s.timers|
      ensures s.timers[i].id in s.objects && s.objects[s.timers[i].id].expiration == Some(s.timers[i].when)
    {
      assert s.timers[i] in s.timers;
    }
    ApartIds(s.timers, s.batch);
  }

  /** The alarm is never lost: between handleReads, waiting timers mean an alarm that is armed or
      has fired unread; and an armed one goes off by the earliest expiration, or within the minimal
      delay of when it was set. */
  lemma {:induction false} AlarmNeverLost(sts: seq<Step>)
    requires LegalRun(EMPTY, sts)
    ensures var s := Run(EMPTY, sts);
            && (s.timers != [] && !s.calling ==> s.fd.Armed? || s.fd.Fired?)
            && (s.timers != [] && s.fd.Armed? ==>
                  forall e | e in s.timers :: s.fd.deadline <= e.when || s.fd.deadline <= s.armedAt + 100_000_000)
  {
    RunKeeps(EMPTY, sts);
    var s := Run(EMPTY, sts);
    forall e | e in s.timers ensures s.timers[0].when <= e.when {
      var i :| 0 <= i < |s.timers| && s.timers[i] == e;
      assert i == 0 || Before(s.timers[0], s.timers[i]);
    }
  }
}
