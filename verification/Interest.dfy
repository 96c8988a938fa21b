/** What a poller knows of its channels against what the kernel watches: the bookkeeping behind
    enabling, disabling and removing channels. */
module Interest {

  const EPOLLIN: bv32 := 0x1
  const EPOLLPRI: bv32 := 0x2
  const EPOLLOUT: bv32 := 0x4
  const EPOLLET: bv32 := 0x8000_0000

  const NONE_EVENT: bv32 := 0
  const READ_EVENT: bv32 := EPOLLIN | EPOLLPRI
  const WRITE_EVENT: bv32 := EPOLLOUT

  // The masks the enabling and disabling methods set, and the two parts of a mask.
  function WithRead(events: bv32): bv32 { events | READ_EVENT }
  function WithoutRead(events: bv32): bv32 { events & !READ_EVENT }
  function WithWrite(events: bv32): bv32 { events | WRITE_EVENT }
  function WithoutWrite(events: bv32): bv32 { events & !WRITE_EVENT }
  predicate Writing(events: bv32) { events & WRITE_EVENT != 0 }
  function ReadPart(events: bv32): bv32 { events & READ_EVENT }

  lemma WriteOn(e: bv32)
    ensures Writing(WithWrite(e))
  {
  }

  lemma WriteOff(e: bv32)
    ensures !Writing(WithoutWrite(e))
  {
  }

  lemma WriteOnKeepsRead(e: bv32)
    ensures ReadPart(WithWrite(e)) == ReadPart(e)
  {
  }

  lemma WriteOffKeepsRead(e: bv32)
    ensures ReadPart(WithoutWrite(e)) == ReadPart(e)
  {
  }

  lemma ReadOn(e: bv32)
    ensures ReadPart(WithRead(e)) == READ_EVENT
  {
  }

  lemma ReadKeepsWrite(e: bv32)
    ensures Writing(WithRead(e)) == Writing(e)
  {
  }

  lemma NothingToWrite()
    ensures !Writing(NONE_EVENT)
  {
  }

  lemma WatchedForWrite(e: bv32)
    ensures EdgeTriggered(e) & EPOLLOUT != 0 <==> Writing(e)
  {
  }

  // ---- The masks, bit by bit: 1 and 2 ask for data and urgent data, 4 for room to write, the top bit
  //      for edges ---------------------------------------------------------------------------------

  predicate AsksRead(events: bv32) {
    events & 0x1 != 0 && events & 0x2 != 0
  }

  lemma ReadSetsBoth(e: bv32, bit: bv32)
    requires bit == 0x1 || bit == 0x2
    ensures WithRead(e) & bit != 0
  {
  }

  lemma ReadSetsNoOther(e: bv32, bits: bv32)
    requires bits & 0x3 == 0
    ensures WithRead(e) & bits == e & bits
  {
  }

  lemma ReadClearsBoth(e: bv32)
    ensures WithoutRead(e) & 0x3 == 0
  {
  }

  lemma ReadClearsNoOther(e: bv32, bits: bv32)
    requires bits & 0x3 == 0
    ensures WithoutRead(e) & bits == e & bits
  {
  }

  lemma WriteSetsOne(e: bv32)
    ensures WithWrite(e) & 0x4 != 0
  {
  }

  lemma WriteSetsNoOther(e: bv32, bits: bv32)
    requires bits & 0x4 == 0
    ensures WithWrite(e) & bits == e & bits
  {
  }

  lemma WriteClearsOne(e: bv32)
    ensures WithoutWrite(e) & 0x4 == 0
  {
  }

  lemma WriteClearsNoOther(e: bv32, bits: bv32)
    requires bits & 0x4 == 0
    ensures WithoutWrite(e) & bits == e & bits
  {
  }

  lemma EdgesAsked(e: bv32)
    ensures EdgeTriggered(e) & 0x8000_0000 != 0
  {
  }

  lemma NothingElseAsked(e: bv32, bits: bv32)
    requires bits & 0x8000_0000 == 0
    ensures EdgeTriggered(e) & bits == e & bits
  {
  }

  lemma ReadPartIsWhole(e: bv32, bit: bv32)
    requires (bit == 0x1 || bit == 0x2) && ReadPart(e) == READ_EVENT
    ensures e & bit != 0
  {
  }

  lemma WritingBit(e: bv32)
    ensures Writing(e) <==> e & 0x4 != 0
  {
  }

  /** A channel's life in the poller: unknown; known and watched; known but not watched. */
  datatype Index = New | Added | Deleted

  datatype Watched = Watched(events: bv32, index: Index)

  /** All channels of a loop by descriptor, the poller's map, and the kernel's interest set. */
  datatype Registry = Registry(channels: map<int, Watched>, fdMap: set<int>, kernel: map<int, bv32>)

  datatype Control = Add | Modify | Delete

  // What the kernel is asked to report: always edge-triggered.
  function EdgeTriggered(events: bv32): bv32 { events | EPOLLET }

  // epoll_ctl succeeds exactly then.
  predicate KernelAccepts(kernel: map<int, bv32>, op: Control, fd: int) {
    if op == Add then fd !in kernel else fd in kernel
  }

  function Controlled(kernel: map<int, bv32>, op: Control, fd: int, events: bv32): map<int, bv32> {
    if op == Delete then kernel - {fd} else kernel[fd := EdgeTriggered(events)]
  }

  // The operation updateChannel chooses: a channel not watched is added even with an empty mask.
  function UpdateControl(c: Watched): Control {
    if c.index != Added then Add else if c.events == NONE_EVENT then Delete else Modify
  }

  // updateChannel: the poller acts on the channel's mask as it finds it.
  function Refresh(r: Registry, fd: int): Registry
    requires fd in r.channels
  {
    var c := r.channels[fd];
    var op := UpdateControl(c);
    Registry(r.channels[fd := c.(index := if op == Delete then Deleted else Added)],
             if c.index == New then r.fdMap + {fd} else r.fdMap,
             Controlled(r.kernel, op, fd, c.events))
  }

  /** A channel's event mask is set and the poller told. */
  function Update(r: Registry, fd: int, events: bv32): Registry
    requires fd in r.channels
  {
    Refresh(r.(channels := r.channels[fd := r.channels[fd].(events := events)]), fd)
  }

  function Remove(r: Registry, fd: int): Registry
    requires fd in r.channels
  {
    var c := r.channels[fd];
    Registry(r.channels[fd := c.(index := New)], r.fdMap - {fd},
             if c.index == Added then Controlled(r.kernel, Delete, fd, c.events) else r.kernel)
  }

  /** The kernel watches exactly the added channels, edge-triggered and with their current masks; the
      poller's map holds exactly the known ones; a channel not watched wants nothing. */
  predicate Agree(r: Registry) {
    && (forall fd | fd in r.channels :: fd in r.fdMap <==> r.channels[fd].index != New)
    && (forall fd | fd in r.channels :: fd in r.kernel <==> r.channels[fd].index == Added)
    && (forall fd | fd in r.kernel :: fd in r.channels && r.kernel[fd] == EdgeTriggered(r.channels[fd].events))
    && r.fdMap <= r.channels.Keys
    && (forall fd | fd in r.channels :: r.channels[fd].index != Added ==> r.channels[fd].events == NONE_EVENT)
  }

  datatype Op = Create(fd: int) | SetEvents(fd: int, events: bv32) | Take(fd: int)

  // A descriptor may be reused for a new channel once the poller has let go of the old one; remove()
  // is called on a channel that wants nothing and that the poller knows.
  predicate Legal(r: Registry, op: Op) {
    match op
    case Create(fd) => fd in r.channels ==> r.channels[fd].index == New
    case SetEvents(fd, _) => fd in r.channels
    case Take(fd) => fd in r.channels && r.channels[fd].events == NONE_EVENT && r.channels[fd].index != New
  }

  function Apply(r: Registry, op: Op): Registry
    requires Legal(r, op)
  {
    match op
    case Create(fd) => r.(channels := r.channels[fd := Watched(NONE_EVENT, New)])
    case SetEvents(fd, events) => Update(r, fd, events)
    case Take(fd) => Remove(r, fd)
  }

  predicate LegalRun(r: Registry, ops: seq<Op>)
    decreases |ops|
  {
    ops == [] || (Legal(r, ops[0]) && LegalRun(Apply(r, ops[0]), ops[1..]))
  }

  function Run(r: Registry, ops: seq<Op>): Registry
    requires LegalRun(r, ops)
    decreases |ops|
  {
    if ops == [] then r else Run(Apply(r, ops[0]), ops[1..])
  }

  const EMPTY := Registry(map[], {}, map[])

  lemma ApplyKeeps(r: Registry, op: Op)
    requires Agree(r) && Legal(r, op)
    ensures Agree(Apply(r, op))
  {
    hide EdgeTriggered;
    match op
    case Create(fd) =>
    case SetEvents(fd, events) => UpdateKeeps(r, fd, events);
    case Take(fd) => RemoveKeeps(r, fd);
  }

  lemma UpdateKeeps(r: Registry, fd: int, events: bv32)
    requires Agree(r) && fd in r.channels
    ensures Agree(Update(r, fd, events))
  {
    hide EdgeTriggered;
  }

  lemma RemoveKeeps(r: Registry, fd: int)
    requires Agree(r) && fd in r.channels && r.channels[fd].events == NONE_EVENT
    ensures Agree(Remove(r, fd))
  {
  }

  // Nothing but descriptor `fd` is touched.
  ghost predicate OnlyTouches(r: Registry, t: Registry, fd: int) {
    forall g | g != fd ::
      && (g in t.channels <==> g in r.channels) && (g in r.channels ==> t.channels[g] == r.channels[g])
      && (g in t.fdMap <==> g in r.fdMap)
      && (g in t.kernel <==> g in r.kernel) && (g in r.kernel ==> t.kernel[g] == r.kernel[g])
  }

  /** A channel that was not watched is watched afterwards, even with an empty mask; one that was is
      dropped on an empty mask, and stays known. What is watched is asked for with the new mask, and the
      top bit for edges. */
  lemma UpdateCases(r: Registry, fd: int, events: bv32)
    requires Agree(r) && fd in r.channels
    ensures var t := Update(r, fd, events);
            && OnlyTouches(r, t, fd)
            && fd in t.fdMap
            && (fd in t.kernel <==> fd !in r.kernel || events != 0x0)
            && (fd in t.kernel ==> t.kernel[fd] == events | 0x8000_0000)
            && t.channels[fd] == Watched(events, if fd in t.kernel then Added else Deleted)
  {
  }

  lemma TakeCases(r: Registry, fd: int)
    requires Agree(r) && fd in r.channels && r.channels[fd].events == NONE_EVENT
    ensures var t := Remove(r, fd);
            && OnlyTouches(r, t, fd)
            && fd !in t.fdMap && fd !in t.kernel && t.channels[fd] == Watched(NONE_EVENT, New)
  {
  }

  /** Interest-set agreement after any run over any channels with distinct descriptors. */
  lemma {:induction false} AlwaysAgree(r: Registry, ops: seq<Op>)
    requires Agree(r) && LegalRun(r, ops)
    ensures Agree(Run(r, ops))
    decreases |ops|
  {
    if ops != [] {
      ApplyKeeps(r, ops[0]);
      AlwaysAgree(Apply(r, ops[0]), ops[1..]);
    }
  }

  /** The kernel never has a reason to refuse: every control operation is asked of a descriptor it
      watches, or does not watch, as that operation needs; and the poller's map assertions hold. */
  lemma {:induction false} NeverRefused(ops: seq<Op>, fd: int, events: bv32)
    requires LegalRun(EMPTY, ops) && fd in Run(EMPTY, ops).channels
    ensures var r := Run(EMPTY, ops);
            var c := r.channels[fd];
            && KernelAccepts(r.kernel, UpdateControl(c.(events := events)), fd)
            && (c.index == Added ==> KernelAccepts(r.kernel, Delete, fd))
            && (c.index == New <==> fd !in r.fdMap)
  {
    AlwaysAgree(EMPTY, ops);
  }

  // connectionDestroyed: disableAll, then remove.
  function TornDown(r: Registry, fd: int): Registry
    requires fd in r.channels
  {
    Remove(Update(r, fd, NONE_EVENT), fd)
  }

  /** Tearing a channel down is legal and complete from every state it can be in, new ones included,
      and repeating it changes nothing. */
  lemma TearDownTwice(r: Registry, fd: int)
    requires Agree(r) && fd in r.channels
    ensures Legal(Update(r, fd, NONE_EVENT), Take(fd))
    ensures var t := TornDown(r, fd);
            && Agree(t) && fd !in t.fdMap && fd !in t.kernel && t.channels[fd] == Watched(NONE_EVENT, New)
            && (forall g | g != fd && g in r.channels ::
                  t.channels[g] == r.channels[g] && (g in t.fdMap <==> g in r.fdMap)
                  && (g in t.kernel <==> g in r.kernel) && (g in r.kernel ==> t.kernel[g] == r.kernel[g]))
            && TornDown(t, fd) == t
  {
    var u := Update(r, fd, NONE_EVENT);
    ApplyKeeps(r, SetEvents(fd, NONE_EVENT));
    ApplyKeeps(u, Take(fd));
    assert u.channels[fd].events == NONE_EVENT && u.channels[fd].index != New;
    TornDownAgain(TornDown(r, fd), fd);
  }

  // A channel already torn down: added with an empty mask, and deleted again.
  lemma TornDownAgain(t: Registry, fd: int)
    requires fd in t.channels && t.channels[fd] == Watched(NONE_EVENT, New) && fd !in t.fdMap && fd !in t.kernel
    ensures TornDown(t, fd) == t
  {
  }
}
