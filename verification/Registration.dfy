/** The server's connections joined to the pollers of their loops: what epoll watches is alive. */
module Registration {
  import S = TcpServer
  import I = Interest

  /** `polls[k]` is what loop k's poller and the kernel know of the channels of connections. */
  datatype World = World(server: S.Server, polls: seq<I.Registry>)

  /** A step of the server; or a handler changing the mask of a registered channel. */
  datatype Step = Move(st: S.Step) | SetInterest(conn: nat, events: bv32)

  function Started(threads: nat): World {
    World(S.Started(threads), seq(threads + 1, _ => I.EMPTY))
  }

  /** The calls a step makes on one poller. */
  datatype Calls = Calls(loop: nat, ops: seq<I.Op>)

  function CallsOf(s: S.Server, st: Step): Calls
    requires Possible(s, st)
  {
    match st
    case SetInterest(c, events) => Calls(s.conns[c].home, [I.SetEvents(s.conns[c].fd, events)])
    case Move(Accept(c, fd, home)) =>
      Calls(home, [I.Create(fd)] + if home == 0 then [I.SetEvents(fd, I.READ_EVENT)] else [])
    case Move(RunTask(k)) =>
      (match s.loops[k].batch[s.loops[k].pos]
       case Establish(c) => Calls(k, [I.SetEvents(s.conns[c].fd, I.READ_EVENT)])
       case Destroy(c) => Calls(k, [I.SetEvents(s.conns[c].fd, I.NONE_EVENT), I.Take(s.conns[c].fd)])
       case _ => Calls(k, []))
    case Move(_) => Calls(0, [])
  }

  predicate Possible(s: S.Server, st: Step) {
    match st
    case SetInterest(c, _) => c in s.conns && s.conns[c].registered && s.conns[c].home < |s.loops|
    case Move(m) => S.Legal(s, m)
  }

  // The poller's own assertions hold of every call.
  predicate Legal(w: World, st: Step) {
    && Possible(w.server, st)
    && var calls := CallsOf(w.server, st);
       calls.loop < |w.polls| && I.LegalRun(w.polls[calls.loop], calls.ops)
  }

  function Next(w: World, st: Step): World
    requires Legal(w, st)
  {
    var calls := CallsOf(w.server, st);
    World(if st.Move? then S.Next(w.server, st.st) else w.server,
          w.polls[calls.loop := I.Run(w.polls[calls.loop], calls.ops)])
  }

  predicate LegalRun(w: World, sts: seq<Step>)
    decreases |sts|
  {
    sts == [] || (Legal(w, sts[0]) && LegalRun(Next(w, sts[0]), sts[1..]))
  }

  function Run(w: World, sts: seq<Step>): World
    requires LegalRun(w, sts)
    decreases |sts|
  {
    if sts == [] then w else Run(Next(w, sts[0]), sts[1..])
  }

  // ---- The invariant ----------------------------------------------------------------------------

  // The descriptors of the channels that are registered with loop k.
  function Registered(s: S.Server, k: nat): set<int> {
    set c | c in s.conns && s.conns[c].home == k && s.conns[c].registered :: s.conns[c].fd
  }

  predicate PollerInv(s: S.Server, k: nat, r: I.Registry) {
    && I.Agree(r) && r.fdMap == Registered(s, k)
    && forall c | c in s.conns && s.conns[c].home == k :: s.conns[c].fd in r.channels
  }

  predicate Inv(w: World) {
    && S.Inv(w.server) && |w.polls| == |w.server.loops|
    && forall k | 0 <= k < |w.polls| :: PollerInv(w.server, k, w.polls[k])
  }

  // ---- What one call sequence does to one poller ------------------------------------------------

  lemma {:induction false} RunTwo(r: I.Registry, a: I.Op, b: I.Op)
    requires I.Legal(r, a) && I.Legal(I.Apply(r, a), b)
    ensures I.LegalRun(r, [a, b]) && I.Run(r, [a, b]) == I.Apply(I.Apply(r, a), b)
  {
    RunOne(I.Apply(r, a), b);
    assert [a, b][1..] == [b];
  }

  lemma {:induction false} RunOne(r: I.Registry, a: I.Op)
    requires I.Legal(r, a)
    ensures I.LegalRun(r, [a]) && I.Run(r, [a]) == I.Apply(r, a)
  {
    assert [a][1..] == [];
  }

  lemma {:induction false} SetEventsCall(r: I.Registry, fd: int, events: bv32)
    requires I.Agree(r) && fd in r.channels
    ensures var op := I.SetEvents(fd, events);
            && I.LegalRun(r, [op])
            && var t := I.Run(r, [op]);
               I.Agree(t) && t.fdMap == r.fdMap + {fd} && t.channels.Keys == r.channels.Keys
  {
    RunOne(r, I.SetEvents(fd, events));
    I.ApplyKeeps(r, I.SetEvents(fd, events));
  }

  lemma {:induction false} CreateCall(r: I.Registry, fd: int)
    requires I.Agree(r) && fd !in r.fdMap
    ensures var op := I.Create(fd);
            && I.LegalRun(r, [op])
            && var t := I.Run(r, [op]);
               I.Agree(t) && t.fdMap == r.fdMap && t.channels.Keys == r.channels.Keys + {fd}
  {
    RunOne(r, I.Create(fd));
    I.ApplyKeeps(r, I.Create(fd));
  }

  lemma {:induction false} CreateEnableCall(r: I.Registry, fd: int, events: bv32)
    requires I.Agree(r) && fd !in r.fdMap
    ensures var ops := [I.Create(fd)] + [I.SetEvents(fd, events)];
            && I.LegalRun(r, ops)
            && var t := I.Run(r, ops);
               I.Agree(t) && t.fdMap == r.fdMap + {fd} && t.channels.Keys == r.channels.Keys + {fd}
  {
    var a, b := I.Create(fd), I.SetEvents(fd, events);
    I.ApplyKeeps(r, a);
    I.ApplyKeeps(I.Apply(r, a), b);
    assert [a] + [b] == [a, b];
    RunTwo(r, a, b);
  }

  lemma {:induction false} TearDownCall(r: I.Registry, fd: int)
    requires I.Agree(r) && fd in r.channels
    ensures var ops := [I.SetEvents(fd, I.NONE_EVENT), I.Take(fd)];
            && I.LegalRun(r, ops)
            && var t := I.Run(r, ops);
               I.Agree(t) && t.fdMap == r.fdMap - {fd} && t.channels.Keys == r.channels.Keys
  {
    I.TearDownTwice(r, fd);
    RunTwo(r, I.SetEvents(fd, I.NONE_EVENT), I.Take(fd));
  }

  // ---- Every step keeps it ----------------------------------------------------------------------

  // Nobody registered shares a socket with a connection that is held.
  lemma OwnSocket(s: S.Server, c: nat, d: nat)
    requires S.Inv(s) && c in s.conns && d in s.conns && c != d && S.Held(s, c) && s.conns[d].registered
    ensures s.conns[c].fd != s.conns[d].fd
  {
    S.ChannelIsHeld(s, d);
  }

  // Steps that make no call leave the registered channels as they are.
  lemma QuietStep(s: S.Server, st: S.Step)
    requires S.Inv(s) && S.Legal(s, st) && CallsOf(s, Move(st)).ops == []
    ensures var r := S.Next(s, st);
            && |r.loops| == |s.loops| && r.conns.Keys == s.conns.Keys
            && forall c | c in s.conns ::
                 r.conns[c].fd == s.conns[c].fd && r.conns[c].home == s.conns[c].home
                 && r.conns[c].registered == s.conns[c].registered
  {
    hide S.Structure, S.FdsApart, S.ViewOf, S.Consistent;
  }

  lemma SameRegistered(s: S.Server, r: S.Server)
    requires r.conns.Keys == s.conns.Keys
    requires forall c | c in s.conns ::
               r.conns[c].fd == s.conns[c].fd && r.conns[c].home == s.conns[c].home
               && r.conns[c].registered == s.conns[c].registered
    ensures forall k: nat :: Registered(r, k) == Registered(s, k)
  {
  }

  lemma QuietKeeps(w: World, st: S.Step)
    requires Inv(w) && S.Legal(w.server, st) && CallsOf(w.server, Move(st)).ops == []
    ensures Legal(w, Move(st)) && Inv(Next(w, Move(st)))
  {
    S.NextKeeps(w.server, st);
    QuietStep(w.server, st);
    SameRegistered(w.server, S.Next(w.server, st));
    var s, r := w.server, S.Next(w.server, st);
    hide S.Inv, S.Legal, S.Next, Registered, I.Agree;
    QuietPoller(w, st);
  }

  lemma QuietPoller(w: World, st: S.Step)
    requires Inv(w) && S.Legal(w.server, st) && CallsOf(w.server, Move(st)).ops == []
    ensures Legal(w, Move(st)) && Next(w, Move(st)) == World(S.Next(w.server, st), w.polls)
  {
    hide S.FdsApart, S.ViewOf, S.Consistent, S.Next;
  }

  /** One poller changes: the others see the same registered channels as before. */
  lemma OnePollerKeeps(w: World, r: S.Server, k: nat, t: I.Registry)
    requires Inv(w) && S.Inv(r) && k < |w.polls| && |r.loops| == |w.server.loops|
    requires PollerInv(r, k, t)
    requires forall c | c in r.conns && r.conns[c].home != k :: c in w.server.conns && r.conns[c] == w.server.conns[c]
    requires forall c | c in w.server.conns :: c in r.conns && r.conns[c].home == w.server.conns[c].home
    ensures Inv(World(r, w.polls[k := t]))
  {
    hide S.Inv, I.Agree;
    var s := w.server;
    forall j | 0 <= j < |w.polls| && j != k ensures PollerInv(r, j, w.polls[j]) {
      assert PollerInv(s, j, w.polls[j]);
      assert Registered(r, j) == Registered(s, j);
    }
  }

  lemma SetInterestKeeps(w: World, c: nat, events: bv32)
    requires Inv(w) && Possible(w.server, SetInterest(c, events))
    ensures Legal(w, SetInterest(c, events)) && Inv(Next(w, SetInterest(c, events)))
  {
    var s := w.server;
    var k, fd := s.conns[c].home, s.conns[c].fd;
    assert PollerInv(s, k, w.polls[k]) && fd in Registered(s, k);
    hide S.Inv, I.Agree;
    SetEventsCall(w.polls[k], fd, events);
    var t := I.Run(w.polls[k], [I.SetEvents(fd, events)]);
    assert t.fdMap == w.polls[k].fdMap;
    OnePollerKeeps(w, s, k, t);
  }

  lemma AcceptEffect(s: S.Server, c: nat, fd: nat, home: nat)
    requires S.Legal(s, S.Accept(c, fd, home))
    ensures var r := S.Next(s, S.Accept(c, fd, home));
            && c !in s.conns && home < |s.loops| == |r.loops|
            && c in r.conns && r.conns == s.conns[c := r.conns[c]]
            && r.conns[c].fd == fd && r.conns[c].home == home && r.conns[c].registered == (home == 0)
  {
    hide S.Held;
  }

  lemma AcceptKeeps(w: World, c: nat, fd: nat, home: nat)
    requires Inv(w) && S.Legal(w.server, S.Accept(c, fd, home))
    ensures var st := Move(S.Accept(c, fd, home)); Legal(w, st) && Inv(Next(w, st))
  {
    hide S.Inv, S.Legal, S.Next, I.Agree, I.Run, I.LegalRun, Registered;
    var s, st := w.server, S.Accept(c, fd, home);
    var r := S.Next(s, st);
    S.NextKeeps(s, st);
    AcceptEffect(s, c, fd, home);
    FreshSocket(s, c, fd, home);
    assert PollerInv(s, home, w.polls[home]);
    if home == 0 {
      CreateEnableCall(w.polls[0], fd, I.READ_EVENT);
      RegisteredGains(s, r, c);
    } else {
      CreateCall(w.polls[home], fd);
      assert [I.Create(fd)] + [] == [I.Create(fd)];
      RegisteredStays(s, r, c);
    }
    OnePollerKeeps(w, r, home, I.Run(w.polls[home], CallsOf(s, Move(st)).ops));
  }

  lemma RegisteredGains(s: S.Server, r: S.Server, c: nat)
    requires c in r.conns && r.conns == s.conns[c := r.conns[c]] && r.conns[c].registered
    requires c in s.conns ==> s.conns[c].home == r.conns[c].home && s.conns[c].fd == r.conns[c].fd
    ensures var k := r.conns[c].home; Registered(r, k) == Registered(s, k) + {r.conns[c].fd as int}
  {
    var k := r.conns[c].home;
    var a, b := Registered(s, k), Registered(r, k);
    assert forall d | d in s.conns && d != c :: d in r.conns && r.conns[d] == s.conns[d];
    assert forall d | d in r.conns && d != c :: d in s.conns && r.conns[d] == s.conns[d];
    assert r.conns[c].fd as int in b;
    forall x | x in b ensures x in a || x == r.conns[c].fd {
    }
    forall x | x in a ensures x in b {
    }
  }

  lemma RegisteredStays(s: S.Server, r: S.Server, c: nat)
    requires c !in s.conns && c in r.conns && r.conns == s.conns[c := r.conns[c]] && !r.conns[c].registered
    ensures var k := r.conns[c].home; Registered(r, k) == Registered(s, k)
  {
    var k := r.conns[c].home;
    var a, b := Registered(s, k), Registered(r, k);
    assert forall d | d in s.conns && d != c :: d in r.conns && r.conns[d] == s.conns[d];
    assert forall d | d in r.conns && d != c :: d in s.conns && r.conns[d] == s.conns[d];
    forall x ensures x in b <==> x in a {
    }
  }

  lemma RegisteredLoses(s: S.Server, r: S.Server, c: nat)
    requires c in s.conns && c in r.conns && r.conns == s.conns[c := r.conns[c]] && !r.conns[c].registered
    requires s.conns[c].home == r.conns[c].home
    requires forall d | d in s.conns && d != c && s.conns[d].registered :: s.conns[d].fd != s.conns[c].fd
    ensures var k := r.conns[c].home; Registered(r, k) == Registered(s, k) - {s.conns[c].fd as int}
  {
    var k := r.conns[c].home;
    var a, b := Registered(s, k), Registered(r, k);
    assert forall d | d in s.conns && d != c :: d in r.conns && r.conns[d] == s.conns[d];
    assert forall d | d in r.conns && d != c :: d in s.conns && r.conns[d] == s.conns[d];
    forall x | x in b ensures x in a && x != s.conns[c].fd {
    }
    forall x | x in a && x != s.conns[c].fd ensures x in b {
    }
  }

  // The kernel's new descriptor is none that a poller still knows.
  lemma FreshSocket(s: S.Server, c: nat, fd: nat, home: nat)
    requires S.Inv(s) && S.Legal(s, S.Accept(c, fd, home))
    ensures fd !in Registered(s, home)
  {
    forall d | d in s.conns && s.conns[d].registered ensures s.conns[d].fd != fd {
      S.ChannelIsHeld(s, d);
    }
  }

  lemma TaskEffect(s: S.Server, k: nat)
    requires S.Legal(s, S.RunTask(k))
    ensures k < |s.loops| && s.loops[k].pos < |s.loops[k].batch|
    ensures var t := s.loops[k].batch[s.loops[k].pos];
            var r := S.Next(s, S.RunTask(k));
            t.Establish? || t.Destroy? ==>
              && |r.loops| == |s.loops|
              && t.conn in s.conns && s.conns[t.conn].home == k
              && t.conn in r.conns && r.conns == s.conns[t.conn := r.conns[t.conn]]
              && r.conns[t.conn].fd == s.conns[t.conn].fd && r.conns[t.conn].home == k
              && r.conns[t.conn].registered == t.Establish?
  {
  }

  lemma EstablishKeeps(w: World, k: nat, c: nat)
    requires Inv(w) && S.Legal(w.server, S.RunTask(k)) && k < |w.server.loops|
    requires w.server.loops[k].pos < |w.server.loops[k].batch|
    requires w.server.loops[k].batch[w.server.loops[k].pos] == S.Establish(c)
    ensures Legal(w, Move(S.RunTask(k))) && Inv(Next(w, Move(S.RunTask(k))))
  {
    hide S.Inv, S.Legal, S.Next, I.Agree, I.Run, I.LegalRun, Registered;
    var s := w.server;
    var r := S.Next(s, S.RunTask(k));
    S.NextKeeps(s, S.RunTask(k));
    TaskEffect(s, k);
    assert PollerInv(s, k, w.polls[k]);
    SetEventsCall(w.polls[k], s.conns[c].fd, I.READ_EVENT);
    RegisteredGains(s, r, c);
    OnePollerKeeps(w, r, k, I.Run(w.polls[k], CallsOf(s, Move(S.RunTask(k))).ops));
  }

  lemma DestroyKeeps(w: World, k: nat, c: nat)
    requires Inv(w) && S.Legal(w.server, S.RunTask(k)) && k < |w.server.loops|
    requires w.server.loops[k].pos < |w.server.loops[k].batch|
    requires w.server.loops[k].batch[w.server.loops[k].pos] == S.Destroy(c)
    ensures Legal(w, Move(S.RunTask(k))) && Inv(Next(w, Move(S.RunTask(k))))
  {
    hide S.Inv, S.Legal, S.Next, I.Agree, I.Run, I.LegalRun, Registered;
    var s := w.server;
    var r := S.Next(s, S.RunTask(k));
    S.NextKeeps(s, S.RunTask(k));
    TaskEffect(s, k);
    HeldByBatch(s, k);
    forall d | d in s.conns && d != c && s.conns[d].registered ensures s.conns[d].fd != s.conns[c].fd {
      OwnSocket(s, c, d);
    }
    assert PollerInv(s, k, w.polls[k]);
    TearDownCall(w.polls[k], s.conns[c].fd);
    RegisteredLoses(s, r, c);
    OnePollerKeeps(w, r, k, I.Run(w.polls[k], CallsOf(s, Move(S.RunTask(k))).ops));
  }

  lemma HeldByBatch(s: S.Server, k: nat)
    requires S.Inv(s) && S.Legal(s, S.RunTask(k)) && !s.loops[k].batch[s.loops[k].pos].Completion?
    ensures S.Held(s, s.loops[k].batch[s.loops[k].pos].conn)
  {
    S.AdvanceKeeps(s, k);
    assert S.LoopInv(s, k);
    S.PendingHolds(s, k, s.loops[k].batch[s.loops[k].pos]);
  }

  /** Every call a step makes on a poller meets that poller's assertions, and every step keeps what
      each poller knows equal to what is registered with it. */
  lemma NextKeeps(w: World, st: Step)
    requires Inv(w) && Possible(w.server, st)
    ensures Legal(w, st) && Inv(Next(w, st))
  {
    hide Inv, Legal, S.Legal, S.Next;
    match st
    case SetInterest(c, events) => SetInterestKeeps(w, c, events);
    case Move(Accept(c, fd, home)) => AcceptKeeps(w, c, fd, home);
    case Move(RunTask(k)) =>
      TaskEffect(w.server, k);
      match w.server.loops[k].batch[w.server.loops[k].pos] {
        case Establish(c) => EstablishKeeps(w, k, c);
        case Destroy(c) => DestroyKeeps(w, k, c);
        case _ => QuietKeeps(w, S.RunTask(k));
      }
    case Move(m) => QuietKeeps(w, m);
  }

  lemma {:induction false} RunKeeps(w: World, sts: seq<Step>)
    requires Inv(w) && LegalRun(w, sts)
    ensures Inv(Run(w, sts))
    decreases |sts|
  {
    hide Inv, Legal, Next;
    if sts != [] {
      StepIsPossible(w, sts[0]);
      NextKeeps(w, sts[0]);
      RunKeeps(Next(w, sts[0]), sts[1..]);
    }
  }

  lemma StepIsPossible(w: World, st: Step)
    requires Legal(w, st)
    ensures Possible(w.server, st)
  {
  }

  lemma StartedIsFine(threads: nat)
    ensures Inv(Started(threads))
  {
    S.StartedIsFine(threads);
    hide S.Inv;
    assert I.Agree(I.EMPTY);
  }

  // ---- The theorems -----------------------------------------------------------------------------

  /** Whatever epoll watches, and so whatever it can report, is the channel of exactly one connection
      of that loop, registered and kept alive by the server; over all runs, with any changes of the
      masks in between. */
  lemma {:induction false} WatchedIsAlive(threads: nat, sts: seq<Step>, k: nat, fd: int)
    requires LegalRun(Started(threads), sts)
    requires var w := Run(Started(threads), sts); k < |w.polls| && fd in w.polls[k].kernel
    ensures var s := Run(Started(threads), sts).server;
            && (exists c :: S.Resident(s, k, c) && s.conns[c].registered && s.conns[c].fd == fd && S.HeldByServer(s, c))
            && (forall c, d | S.Resident(s, k, c) && S.Resident(s, k, d) && s.conns[c].registered
                              && s.conns[d].registered && s.conns[c].fd == fd == s.conns[d].fd :: c == d)
  {
    StartedIsFine(threads);
    RunKeeps(Started(threads), sts);
    var w := Run(Started(threads), sts);
    hide Run, LegalRun, Started;
    WatchedNow(w, k, fd);
  }

  lemma WatchedNow(w: World, k: nat, fd: int)
    requires Inv(w) && k < |w.polls| && fd in w.polls[k].kernel
    ensures var s := w.server;
            && (exists c :: S.Resident(s, k, c) && s.conns[c].registered && s.conns[c].fd == fd && S.HeldByServer(s, c))
            && (forall c, d | S.Resident(s, k, c) && S.Resident(s, k, d) && s.conns[c].registered
                              && s.conns[d].registered && s.conns[c].fd == fd == s.conns[d].fd :: c == d)
  {
    var s := w.server;
    assert PollerInv(s, k, w.polls[k]);
    assert fd in Registered(s, k);
    var c :| c in s.conns && s.conns[c].home == k && s.conns[c].registered && s.conns[c].fd == fd;
    S.ChannelIsHeld(s, c);
    hide S.Inv;
    forall d | S.Resident(s, k, d) && s.conns[d].registered && s.conns[d].fd == fd ensures d == c {
      if d != c {
        OwnSocket(s, c, d);
      }
    }
  }

  /** A poller's map and the registered connections of its loop are the same thing. */
  lemma {:induction false} PollerKnowsRegistered(threads: nat, sts: seq<Step>, k: nat)
    requires LegalRun(Started(threads), sts) && k < |Run(Started(threads), sts).polls|
    ensures var w := Run(Started(threads), sts);
            && w.polls[k].fdMap == Registered(w.server, k)
            && I.Agree(w.polls[k])
  {
    StartedIsFine(threads);
    RunKeeps(Started(threads), sts);
    assert PollerInv(Run(Started(threads), sts).server, k, Run(Started(threads), sts).polls[k]);
  }

  /** Nothing the server does is ever held up by a poller: a step it can make is a legal one. */
  lemma {:induction false} PollersNeverObject(threads: nat, sts: seq<Step>, st: Step)
    requires LegalRun(Started(threads), sts) && Possible(Run(Started(threads), sts).server, st)
    ensures Legal(Run(Started(threads), sts), st)
  {
    StartedIsFine(threads);
    RunKeeps(Started(threads), sts);
    hide Run, LegalRun;
    NextKeeps(Run(Started(threads), sts), st);
  }

  // ---- Registered connections hear their data ---------------------------------------------------

  /** If connection c is registered, its channel wants to read. */
  predicate WantsData(w: World, c: nat) {
    c in w.server.conns && w.server.conns[c].registered ==>
      && var d := w.server.conns[c];
      && d.home < |w.polls| && d.fd in w.polls[d.home].channels
      && I.AsksRead(w.polls[d.home].channels[d.fd].events)
  }

  // No handler stops c from reading.
  predicate LeavesReading(sts: seq<Step>, c: nat) {
    forall i | 0 <= i < |sts| && sts[i].SetInterest? && sts[i].conn == c :: I.AsksRead(sts[i].events)
  }

  lemma ReadEventAsks()
    ensures I.AsksRead(I.READ_EVENT)
  {
    I.ReadPartIsWhole(I.READ_EVENT, 0x1);
    I.ReadPartIsWhole(I.READ_EVENT, 0x2);
  }

  // Calls about another descriptor.
  lemma {:induction false} Elsewhere(r: I.Registry, ops: seq<I.Op>, fd: int)
    requires I.LegalRun(r, ops) && fd in r.channels
    requires forall op | op in ops :: op.fd != fd
    ensures fd in I.Run(r, ops).channels && I.Run(r, ops).channels[fd] == r.channels[fd]
    decreases |ops|
  {
    if ops != [] {
      assert ops[0] in ops;
      ApplyElsewhere(r, ops[0], fd);
      Elsewhere(I.Apply(r, ops[0]), ops[1..], fd);
    }
  }

  lemma ApplyElsewhere(r: I.Registry, op: I.Op, fd: int)
    requires I.Legal(r, op) && fd in r.channels && op.fd != fd
    ensures fd in I.Apply(r, op).channels && I.Apply(r, op).channels[fd] == r.channels[fd]
  {
  }

  // A new mask, for a channel old or new.
  lemma {:induction false} MaskSet(r: I.Registry, ops: seq<I.Op>, fd: int, events: bv32)
    requires I.LegalRun(r, ops) && (ops == [I.SetEvents(fd, events)] || ops == [I.Create(fd), I.SetEvents(fd, events)])
    ensures fd in I.Run(r, ops).channels && I.Run(r, ops).channels[fd].events == events
  {
    if |ops| == 1 {
      RunOne(r, ops[0]);
    } else {
      assert ops[1..] == [ops[1]];
      RunOne(I.Apply(r, ops[0]), ops[1]);
    }
  }

  // A step whose calls are about other descriptors, or another loop.
  lemma OthersKeep(w: World, st: Step, c: nat)
    requires Legal(w, st) && WantsData(w, c) && c in Next(w, st).server.conns
    requires var d := Next(w, st).server.conns[c];
             d.registered ==>
               && c in w.server.conns && w.server.conns[c] == d
               && var calls := CallsOf(w.server, st);
               calls.loop == d.home ==> forall op | op in calls.ops :: op.fd != d.fd
    ensures WantsData(Next(w, st), c)
  {
    hide I.LegalRun, I.Run, CallsOf, S.Next;
    var d := Next(w, st).server.conns[c];
    var calls := CallsOf(w.server, st);
    if d.registered && calls.loop == d.home {
      Elsewhere(w.polls[d.home], calls.ops, d.fd);
    }
  }

  lemma QuietWants(w: World, st: S.Step, c: nat)
    requires Inv(w) && S.Legal(w.server, st) && CallsOf(w.server, Move(st)).ops == [] && WantsData(w, c)
    ensures Legal(w, Move(st)) && WantsData(Next(w, Move(st)), c)
  {
    QuietStep(w.server, st);
    QuietPoller(w, st);
  }

  // Its own mask is set.
  lemma MaskedWants(w: World, st: Step, c: nat, events: bv32)
    requires Legal(w, st) && I.AsksRead(events) && c in Next(w, st).server.conns
    requires var d := Next(w, st).server.conns[c];
             var calls := CallsOf(w.server, st);
             && d.home == calls.loop < |w.polls|
             && (calls.ops == [I.SetEvents(d.fd, events)] || calls.ops == [I.Create(d.fd), I.SetEvents(d.fd, events)])
    ensures WantsData(Next(w, st), c)
  {
    hide I.LegalRun, I.Run, CallsOf, S.Next, I.AsksRead;
    var calls := CallsOf(w.server, st);
    MaskSet(w.polls[calls.loop], calls.ops, Next(w, st).server.conns[c].fd, events);
  }

  lemma RegisteredApart(w: World, c: nat, d: nat)
    requires Inv(w) && c in w.server.conns && d in w.server.conns && c != d
    requires w.server.conns[c].registered && w.server.conns[d].registered
    ensures w.server.conns[c].fd != w.server.conns[d].fd
  {
    S.ChannelIsHeld(w.server, c);
    OwnSocket(w.server, c, d);
  }

  lemma SetInterestWants(w: World, d: nat, events: bv32, c: nat)
    requires Inv(w) && Possible(w.server, SetInterest(d, events)) && WantsData(w, c)
    requires c == d ==> I.AsksRead(events)
    ensures Legal(w, SetInterest(d, events)) && WantsData(Next(w, SetInterest(d, events)), c)
  {
    SetInterestKeeps(w, d, events);
    if c in w.server.conns && w.server.conns[c].registered && c != d {
      RegisteredApart(w, c, d);
    }
    hide Inv, S.Inv, S.Next, I.Run, I.LegalRun, I.AsksRead;
    if c == d {
      MaskedWants(w, SetInterest(d, events), c, events);
    } else if c in w.server.conns {
      OthersKeep(w, SetInterest(d, events), c);
    }
  }

  lemma AcceptCalls(s: S.Server, d: nat, fd: nat, home: nat)
    requires S.Legal(s, S.Accept(d, fd, home))
    ensures var calls := CallsOf(s, Move(S.Accept(d, fd, home)));
            && calls.loop == home && (forall op | op in calls.ops :: op.fd == fd)
            && (home == 0 ==> calls.ops == [I.Create(fd), I.SetEvents(fd, I.READ_EVENT)])
  {
  }

  lemma AcceptWants(w: World, d: nat, fd: nat, home: nat, c: nat)
    requires Inv(w) && S.Legal(w.server, S.Accept(d, fd, home)) && WantsData(w, c)
    ensures var st := Move(S.Accept(d, fd, home)); Legal(w, st) && WantsData(Next(w, st), c)
  {
    var st := Move(S.Accept(d, fd, home));
    AcceptKeeps(w, d, fd, home);
    AcceptEffect(w.server, d, fd, home);
    AcceptCalls(w.server, d, fd, home);
    FreshSocket(w.server, d, fd, home);
    assert Next(w, st).server == S.Next(w.server, st.st);
    assert home < |w.polls|;
    hide Inv, Legal, Next, CallsOf, S.Inv, S.Legal, S.Next, I.Run, I.LegalRun, I.AsksRead;
    if c == d && home == 0 {
      ReadEventAsks();
      MaskedWants(w, st, c, I.READ_EVENT);
    } else if c in w.server.conns {
      OthersKeep(w, st, c);
    }
  }

  lemma TaskWants(w: World, k: nat, c: nat)
    requires Inv(w) && S.Legal(w.server, S.RunTask(k)) && WantsData(w, c)
    ensures var st := Move(S.RunTask(k)); Legal(w, st) && WantsData(Next(w, st), c)
  {
    NextKeeps(w, Move(S.RunTask(k)));
    TaskEffect(w.server, k);
    hide Inv, Legal, S.Legal, S.Next, WantsData;
    var t := w.server.loops[k].batch[w.server.loops[k].pos];
    if t.Completion? || t.Remove? {
      QuietWants(w, S.RunTask(k), c);
    } else {
      OwnTaskWants(w, k, c);
    }
  }

  // Establishing or destroying a connection leaves the other ones and their sockets alone.
  lemma OtherTask(s: S.Server, k: nat, c: nat)
    requires S.Inv(s) && S.Legal(s, S.RunTask(k))
    requires var t := s.loops[k].batch[s.loops[k].pos]; (t.Establish? || t.Destroy?) && t.conn != c
    ensures var r, d := S.Next(s, S.RunTask(k)), s.loops[k].batch[s.loops[k].pos].conn;
            c in r.conns && r.conns[c].registered ==>
              c in s.conns && s.conns[c] == r.conns[c] && d in s.conns && s.conns[d].fd != r.conns[c].fd
  {
    TaskEffect(s, k);
    HeldByBatch(s, k);
    hide S.Inv, S.Legal, S.Next;
    if c in s.conns && s.conns[c].registered {
      OwnSocket(s, s.loops[k].batch[s.loops[k].pos].conn, c);
    }
  }

  // What such a task calls on its loop's poller.
  lemma TaskCalls(s: S.Server, k: nat)
    requires S.Legal(s, S.RunTask(k))
    requires var t := s.loops[k].batch[s.loops[k].pos]; t.Establish? || t.Destroy?
    ensures var t := s.loops[k].batch[s.loops[k].pos];
            var calls := CallsOf(s, Move(S.RunTask(k)));
            && calls.loop == k && (forall op | op in calls.ops :: op.fd == s.conns[t.conn].fd)
            && (t.Establish? ==> calls.ops == [I.SetEvents(s.conns[t.conn].fd, I.READ_EVENT)])
  {
  }

  lemma OwnTaskWants(w: World, k: nat, c: nat)
    requires Inv(w) && S.Legal(w.server, S.RunTask(k)) && Legal(w, Move(S.RunTask(k))) && WantsData(w, c)
    requires var t := w.server.loops[k].batch[w.server.loops[k].pos]; t.Establish? || t.Destroy?
    ensures WantsData(Next(w, Move(S.RunTask(k))), c)
  {
    var s, st := w.server, Move(S.RunTask(k));
    var t := s.loops[k].batch[s.loops[k].pos];
    TaskEffect(s, k);
    TaskCalls(s, k);
    ReadEventAsks();
    assert Next(w, st).server == S.Next(s, S.RunTask(k));
    hide Inv, Legal, Next, CallsOf, S.Inv, S.Legal, S.Next, I.Run, I.LegalRun, I.AsksRead;
    if c !in Next(w, st).server.conns {
    } else if c != t.conn {
      OtherTask(s, k, c);
      OthersKeep(w, st, c);
    } else if t.Establish? {
      MaskedWants(w, st, c, I.READ_EVENT);
    }
  }

  lemma NextWants(w: World, st: Step, c: nat)
    requires Inv(w) && Possible(w.server, st) && WantsData(w, c)
    requires st.SetInterest? && st.conn == c ==> I.AsksRead(st.events)
    ensures Legal(w, st) && WantsData(Next(w, st), c)
  {
    hide Inv, Legal, S.Legal, S.Next, WantsData, I.AsksRead;
    match st
    case SetInterest(d, events) => SetInterestWants(w, d, events, c);
    case Move(Accept(d, fd, home)) => AcceptWants(w, d, fd, home, c);
    case Move(RunTask(k)) => TaskWants(w, k, c);
    case Move(m) => QuietWants(w, m, c);
  }

  lemma {:induction false} RunWants(w: World, sts: seq<Step>, c: nat)
    requires Inv(w) && LegalRun(w, sts) && WantsData(w, c) && LeavesReading(sts, c)
    ensures WantsData(Run(w, sts), c)
    decreases |sts|
  {
    hide Inv, Legal, Next, WantsData, I.AsksRead;
    if sts != [] {
      StepIsPossible(w, sts[0]);
      NextKeeps(w, sts[0]);
      NextWants(w, sts[0], c);
      RunWants(Next(w, sts[0]), sts[1..], c);
    }
  }

  /** A registered connection is told of its incoming data: as long as no handler takes its read bits
      away, the kernel watches its socket for data, for urgent data and for edges; over all runs. */
  lemma {:induction false} RegisteredHearsData(threads: nat, sts: seq<Step>, c: nat)
    requires LegalRun(Started(threads), sts) && LeavesReading(sts, c)
    requires var s := Run(Started(threads), sts).server; c in s.conns && s.conns[c].registered
    ensures var w := Run(Started(threads), sts);
            var d := w.server.conns[c];
            && d.home < |w.polls| && d.fd in w.polls[d.home].kernel
            && var asked := w.polls[d.home].kernel[d.fd];
               asked & 0x1 != 0 && asked & 0x2 != 0 && asked & 0x8000_0000 != 0
  {
    StartedIsFine(threads);
    RunKeeps(Started(threads), sts);
    RunWants(Started(threads), sts, c);
    var w := Run(Started(threads), sts);
    hide Run, LegalRun, Started, LeavesReading;
    HearsNow(w, c);
  }

  lemma HearsNow(w: World, c: nat)
    requires Inv(w) && WantsData(w, c) && c in w.server.conns && w.server.conns[c].registered
    ensures var d := w.server.conns[c];
            && d.home < |w.polls| && d.fd in w.polls[d.home].kernel
            && var asked := w.polls[d.home].kernel[d.fd];
               asked & 0x1 != 0 && asked & 0x2 != 0 && asked & 0x8000_0000 != 0
  {
    var d := w.server.conns[c];
    var r := w.polls[d.home];
    assert PollerInv(w.server, d.home, r);
    hide S.Inv, I.EdgeTriggered;
    var events := r.channels[d.fd].events;
    I.NothingElseAsked(events, 0x1);
    I.NothingElseAsked(events, 0x2);
    I.EdgesAsked(events);
  }
}
