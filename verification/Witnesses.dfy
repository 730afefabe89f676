/** When `wait_for_flush` can stop the logger: exactly from which starts there is a run to a
    deadlock, and to a log thread that sleeps over queued entries. */
module Witnesses {
  import opened VecPools
  import opened Workers
  import opened Pipeline
  import opened Locking
  import opened Queueing
  import opened Runs
  import opened Progress
  import opened Quiescence
  import S = Semaphores

  /** A fair run from `init` leads to `s`. */
  ghost predicate Comes(init: State, s: State) {
    exists acts :: Reached(init, acts, s) && FairRun(init, acts)
  }

  lemma Go(init: State, s: State, a: Action, s': State)
    requires Comes(init, s) && Fair(s, a) && s' == Step(s, a)
    ensures Comes(init, s')
  {
    var acts :| Reached(init, acts, s) && FairRun(init, acts);
    Append(init, acts, a);
    assert Reached(init, acts + [a], s');
  }

  lemma ComesInv(init: State, s: State)
    requires Comes(init, s)
    ensures Inv(s)
  {
    var acts :| Reached(init, acts, s) && FairRun(init, acts);
    ReachedInv(init, acts, s);
  }

  lemma {:induction false} Append(s: State, acts: seq<Action>, a: Action)
    requires Legal(s, acts) && FairRun(s, acts) && Fair(After(s, acts), a)
    ensures Legal(s, acts + [a]) && FairRun(s, acts + [a]) && After(s, acts + [a]) == Step(After(s, acts), a)
    decreases acts
  {
    if acts == [] {
      assert [a][1..] == [];
    } else {
      Append(Step(s, acts[0]), acts[1..], a);
      assert (acts + [a])[1..] == acts[1..] + [a];
    }
  }

  lemma Starts(init: State)
    requires Init(init)
    ensures Comes(init, init) && Inv(init)
  {
    InitInv(init);
    assert Reached(init, [], init) && FairRun(init, []);
  }

  /** The threads that may call `wait_for_flush`, and what the producers have to log, are fixed. */
  ghost predicate SameThreads(s: State, s': State) {
    && s'.callers.Keys == s.callers.Keys && s'.prods.Keys == s.prods.Keys
    && forall p :: p in s.prods ==> s'.prods[p].calls == s.prods[p].calls
  }

  lemma StepThreads(s: State, a: Action)
    requires Enabled(s, a)
    ensures SameThreads(s, Step(s, a))
  {
  }

  lemma {:induction false} RunThreads(s: State, acts: seq<Action>)
    requires Legal(s, acts)
    ensures SameThreads(s, After(s, acts))
    decreases acts
  {
    if acts != [] {
      StepThreads(s, acts[0]);
      RunThreads(Step(s, acts[0]), acts[1..]);
    }
  }

  // ----- A call of `wait_for_flush` -----

  /** Thread `t` has called `wait_for_flush`, sleeps in it, or found the flag up. */
  function Called(s: State, t: nat): State { s.(callers := s.callers[t := Holding(false)], readers := s.readers + {t}) }

  function Sleeping(s: State, t: nat): State {
    s.(callers := s.callers[t := Waiting], readers := s.readers + {t},
       sem := s.sem.(waiters := s.sem.waiters[t := S.Asleep(false)]))
  }

  function Served(s: State, t: nat): State {
    s.(callers := s.callers[t := Returning], readers := s.readers + {t},
       sem := s.sem.(flag := false, waiters := s.sem.waiters - {t}, takes := s.sem.takes + 1),
       stolen := s.stolen + if s.queue != [] then 1 else 0)
  }

  lemma CallsIt(s: State, t: nat)
    requires Quiet(s) && !WantsWrite(s.w) && t in s.callers
    ensures Fair(s, Begin(t, false)) && Step(s, Begin(t, false)) == Called(s, t)
  {
  }

  lemma SleepsInIt(s: State, t: nat)
    requires t in s.callers && t !in s.sem.waiters && !s.sem.flag
    ensures Fair(Called(s, t), Caller(t)) && Step(Called(s, t), Caller(t)) == Sleeping(s, t)
  {
    assert Step(Called(s, t), Caller(t)).callers == Sleeping(s, t).callers;
  }

  lemma IsServed(s: State, t: nat)
    requires t in s.callers && t !in s.sem.waiters && s.sem.flag
    ensures Fair(Called(s, t), Caller(t)) && Step(Called(s, t), Caller(t)) == Served(s, t)
  {
    assert Step(Called(s, t), Caller(t)).callers == Served(s, t).callers;
  }

  lemma Leaves(s: State, t: nat)
    requires Quiet(s) && t in s.callers
    ensures Fair(Served(s, t), Caller(t))
    ensures var s' := Step(Served(s, t), Caller(t));
      && Quiet(s') && s'.callers.Keys == s.callers.Keys && !s'.sem.flag && s'.sem.waiters == s.sem.waiters - {t}
      && s'.prods == s.prods && s'.w == s.w && s'.queue == s.queue && s'.max == s.max && s'.qLock == s.qLock
  {
    assert t in s.callers.Keys;
  }

  /** A thread calls `wait_for_flush` while nobody else is inside and no writer waits: it
      sleeps with the read guard if the flag is down. */
  lemma FallsAsleep(init: State, s: State, t: nat)
    requires Comes(init, s) && Quiet(s) && !WantsWrite(s.w) && t in s.callers && t !in s.sem.waiters && !s.sem.flag
    ensures Comes(init, Sleeping(s, t))
  {
    CallsIt(s, t);
    Go(init, s, Begin(t, false), Called(s, t));
    SleepsInIt(s, t);
    Go(init, Called(s, t), Caller(t), Sleeping(s, t));
  }

  /** And it takes the token and leaves if the flag is up. */
  lemma Takes(init: State, s: State, t: nat) returns (s': State)
    requires Comes(init, s) && Quiet(s) && !WantsWrite(s.w) && t in s.callers && t !in s.sem.waiters && s.sem.flag
    ensures Comes(init, s') && Quiet(s') && s'.callers.Keys == s.callers.Keys
    ensures !s'.sem.flag && s'.sem.waiters == s.sem.waiters - {t}
    ensures s'.prods == s.prods && s'.w == s.w && s'.queue == s.queue && s'.max == s.max && s'.qLock == s.qLock
  {
    CallsIt(s, t);
    Go(init, s, Begin(t, false), Called(s, t));
    IsServed(s, t);
    Go(init, Called(s, t), Caller(t), Served(s, t));
    Leaves(s, t);
    s' := Step(Served(s, t), Caller(t));
    Go(init, Served(s, t), Caller(t), s');
  }

  // ----- Deadlock -----

  /** Thread `t` sleeps in `wait_for_flush`, nobody else but the log thread is inside. */
  ghost predicate Dozing(s: State, t: nat) {
    && SleepsInside(s, t) && s.admin == [] && s.qLock.None? && s.max > 0 && PoolOk(s.w)
    && (forall p :: p in s.prods ==> s.prods[p].pc.Idle?)
    && (forall u :: u in s.callers && u != t ==> s.callers[u].Out?)
  }

  /** With its first two steps the log thread comes to want the write guard. */
  lemma FirstStep(s: State, t: nat)
    requires Dozing(s, t) && s.w.pc.Drain?
    ensures Fair(s, Log(GoodIoFor([])))
    ensures var s' := Step(s, Log(GoodIoFor([])));
      Dozing(s', t) && s'.queue == [] && (s'.w.pc.CheckFlush? || s'.w.pc.ReadConfig?)
  {
    TakeIsEmpty(s.w.pool);
  }

  lemma SecondStep(s: State, t: nat)
    requires Dozing(s, t) && s.queue == [] && (s.w.pc.CheckFlush? || s.w.pc.ReadConfig?)
    ensures Fair(s, Log(GoodIoFor([])))
    ensures var s' := Step(s, Log(GoodIoFor([]))); Dozing(s', t) && WantsWrite(s'.w)
  {
  }

  lemma WedgedIsStuck(init: State, s: State, t: nat)
    requires Comes(init, s) && Dozing(s, t) && WantsWrite(s.w)
    ensures !CanMove(s) && !AllDone(s)
  {
    var acts :| Reached(init, acts, s) && FairRun(init, acts);
    StuckExactly(init, acts, s);
  }

  lemma Wedges(init: State, s: State, t: nat) returns (s': State)
    requires Comes(init, s) && Dozing(s, t) && s.w.pc.Drain?
    ensures Comes(init, s') && !CanMove(s') && !AllDone(s')
  {
    FirstStep(s, t);
    var s1 := Step(s, Log(GoodIoFor([])));
    Go(init, s, Log(GoodIoFor([])), s1);
    SecondStep(s1, t);
    s' := Step(s1, Log(GoodIoFor([])));
    Go(init, s1, Log(GoodIoFor([])), s');
    WedgedIsStuck(init, s', t);
  }

  lemma StartIsQuiet(init: State)
    requires Init(init)
    ensures Quiet(init) && !Starved(init) && init.w.pc.Drain? && PoolOk(init.w)
    ensures init.max > 0 && init.qLock.None? && init.sem.waiters == map[]
  {
  }

  lemma SleepingDozes(s: State, t: nat)
    requires Quiet(s) && t in s.callers && s.max > 0 && s.qLock.None? && PoolOk(s.w)
    ensures Dozing(Sleeping(s, t), t)
  {
  }

  /** A thread calls `wait_for_flush` before the first drain, a second time if the flag was up. */
  lemma LeadsToDeadlock(init: State, t: nat) returns (s: State)
    requires Init(init) && t in init.callers
    ensures Comes(init, s) && !CanMove(s) && !AllDone(s)
  {
    Starts(init);
    StartIsQuiet(init);
    s := init;
    if s.sem.flag {
      s := Takes(init, s, t);
      assert t in s.callers.Keys;
    }
    FallsAsleep(init, s, t);
    SleepingDozes(s, t);
    s := Wedges(init, Sleeping(s, t), t);
  }

  /** A fair run from a start of the logger can lead to a state in which no thread can move
      and not all are done if and only if some thread calls `wait_for_flush`: it holds the
      read guard in its sleep, for which the log thread's writes and flushes wait. */
  lemma DeadlockExactly(init: State)
    requires Init(init)
    ensures (exists s :: Comes(init, s) && !CanMove(s) && !AllDone(s)) <==> init.callers.Keys != {}
  {
    if init.callers.Keys != {} {
      var t :| t in init.callers.Keys;
      var s := LeadsToDeadlock(init, t);
    } else if s :| Comes(init, s) && !CanMove(s) && !AllDone(s) {
      var acts :| Reached(init, acts, s) && FairRun(init, acts);
      RunThreads(init, acts);
      forall t ensures !SleepsInside(s, t) {
        assert t !in s.callers.Keys;
      }
      DeadlockFreedom(init, acts, s);
    }
  }

  // ----- Starvation -----

  /** All are done, and the log thread sleeps over queued entries. */
  ghost predicate SleepsOverEntries(s: State) { AllDone(s) && LogAsleep(s) && s.queue != [] }

  /** A run of the log thread alone is fair. */
  lemma {:induction false} LogRunIsFair(s: State, acts: seq<Action>)
    requires s.admin == [] && Legal(s, acts) && LogRun(acts)
    ensures FairRun(s, acts)
    decreases acts
  {
    if acts != [] {
      LogRunTail(acts);
      LogKeepsOthers(s, acts[0].io);
      LogRunIsFair(Step(s, acts[0]), acts[1..]);
    }
  }

  /** The log thread sleeps, no `wait_for_flush` caller is inside, and no token was taken. */
  ghost predicate LogWaits(s: State) {
    && LocksOk(s) && s.w.pc.Parked? && s.admin == [] && s.stolen == 0 && (s.qLock.Some? ==> s.calls != [])
    && forall t :: t in s.callers ==> s.callers[t].Out?
  }

  /** And of the producers only `p` may be inside the logger. */
  ghost predicate Alone(s: State, p: nat) {
    && LogWaits(s) && p in s.prods
    && forall q :: q in s.prods && q != p ==> s.prods[q].pc.Idle?
  }

  /** Group `i` of the producer has entries that are not pushed yet. */
  predicate Ahead(p: Producer, i: nat) {
    && i < |p.calls| && p.calls[i] != []
    && match p.pc
       case Idle => p.next <= i
       case Reading => p.next <= i
       case Pushing(done) => p.next < i || (p.next == i && done < |p.calls[i]|)
       case Pushed => p.next < i
       case Signalled => p.next < i
  }

  /** The next step of a producer that has calls to make. */
  function Moves(p: Producer): Producer
    requires CallInRange(p)
  {
    match p.pc
    case Idle => p.(pc := Reading)
    case Reading => p.(pc := Pushing(0))
    case Pushing(done) => p.(pc := if done < |p.calls[p.next]| then Pushing(done + 1) else Pushed)
    case Pushed => p.(pc := Signalled)
    case Signalled => p.(pc := Idle, next := p.next + 1)
  }

  predicate Pushes(p: Producer)
    requires CallInRange(p)
  {
    p.pc.Pushing? && p.pc.done < |p.calls[p.next]|
  }

  function Rank(p: Producer): nat
    requires CallInRange(p)
  {
    match p.pc
    case Idle => 4
    case Reading => 3
    case Pushing(done) => 2
    case Pushed => 1
    case Signalled => 0
  }

  function ToPush(p: Producer): nat
    requires CallInRange(p)
  {
    if p.pc.Pushing? then |p.calls[p.next]| - p.pc.done else 0
  }

  /** A move leaves fewer, and group `i` ahead unless it pushes. */
  lemma MovesAhead(p: Producer, i: nat)
    requires CallInRange(p) && !p.Finished()
    ensures var q := Moves(p);
      && CallInRange(q) && q.calls == p.calls && p.next <= q.next <= |q.calls|
      && (q.next == p.next ==> Rank(q) < Rank(p) || (Rank(q) == Rank(p) && ToPush(q) < ToPush(p)))
      && (Ahead(p, i) ==> Ahead(q, i) || Pushes(p))
  {
  }

  lemma ProducerMoves(s: State, p: nat)
    requires Alone(s, p) && !s.prods[p].Finished()
    ensures CallInRange(s.prods[p]) && Fair(s, Prod(p)) && ProdStep(s, p).prods == s.prods[p := Moves(s.prods[p])]
    ensures ProdStep(s, p).callers == s.callers
    ensures if Pushes(s.prods[p]) then ProdStep(s, p).queue != [] else ProdStep(s, p).queue == s.queue
  {
    if s.qLock.Some? {
      assert s.prods[s.qLock.value].pc.Pushing?;
    }
  }

  lemma StaysAlone(s: State, p: nat)
    requires Alone(s, p) && ProdEnabled(s, p)
    ensures Alone(ProdStep(s, p), p)
  {
    ProdLocks(s, p);
  }

  ghost predicate OnlyMoved(s: State, s': State, p: nat) {
    && s'.callers == s.callers && s'.prods.Keys == s.prods.Keys
    && forall q :: q in s.prods && q != p ==> s'.prods[q] == s.prods[q]
  }

  lemma OneMove(init: State, s: State, p: nat) returns (s': State)
    requires Comes(init, s) && Alone(s, p) && !s.prods[p].Finished() && CallInRange(s.prods[p])
    ensures Comes(init, s') && Alone(s', p) && OnlyMoved(s, s', p)
    ensures s'.prods[p] == Moves(s.prods[p])
    ensures if Pushes(s.prods[p]) then s'.queue != [] else s'.queue == s.queue
  {
    ProducerMoves(s, p);
    StaysAlone(s, p);
    s' := ProdStep(s, p);
    Go(init, s, Prod(p), s');
  }

  /** Producer `p` makes all its calls. */
  lemma ProducerFinishes(init: State, s: State, p: nat, i: nat) returns (s': State)
    requires Comes(init, s) && Alone(s, p)
    ensures Comes(init, s') && Alone(s', p) && s'.prods[p].Finished()
    ensures OnlyMoved(s, s', p)
    ensures s.queue != [] || Ahead(s.prods[p], i) ==> s'.queue != []
    decreases |s.prods[p].calls| - s.prods[p].next, Rank(s.prods[p]), ToPush(s.prods[p])
  {
    s' := s;
    if !s.prods[p].Finished() {
      MovesAhead(s.prods[p], i);
      var next := OneMove(init, s, p);
      s' := ProducerFinishes(init, next, p, i);
    }
  }

  ghost function Unfinished(s: State): set<nat> { set q | q in s.prods && !s.prods[q].Finished() }

  lemma FewerUnfinished(s: State, next: State, q: nat)
    requires q in s.prods && OnlyMoved(s, next, q) && next.prods[q].Finished()
    ensures Unfinished(next) == Unfinished(s) - {q}
  {
    assert forall r :: r in next.prods <==> r in s.prods.Keys;
  }

  /** All producers finish, one after the other; one of them has an entry to log. */
  lemma AllFinish(init: State, s: State, p: nat, i: nat) returns (s': State)
    requires Comes(init, s) && LogWaits(s) && forall q :: q in s.prods ==> s.prods[q].pc.Idle?
    requires s.queue != [] || (p in s.prods && Ahead(s.prods[p], i))
    ensures Comes(init, s') && LogWaits(s') && s'.queue != [] && s'.callers == s.callers
    ensures forall q :: q in s'.prods ==> s'.prods[q].Finished()
    decreases Unfinished(s)
  {
    s' := s;
    if q :| q in Unfinished(s) {
      var next := ProducerFinishes(init, s, q, i);
      FewerUnfinished(s, next, q);
      s' := AllFinish(init, next, p, i);
    } else {
      assert forall q :: q in s.prods && !s.prods[q].Finished() ==> q in Unfinished(s);
    }
  }

  lemma FlagIsUp(s: State)
    requires WakeOk(s) && WaitsOk(s) && LogWaits(s) && s.queue != []
    requires forall q :: q in s.prods ==> s.prods[q].Finished()
    ensures s.sem.flag && LOG in s.sem.waiters && s.sem.waiters[LOG] == S.Notified(false)
  {
    assert !SignalComing(s);
  }

  lemma LastSignal(init: State, s: State, t: nat)
    requires Comes(init, s) && LogWaits(s) && s.queue != [] && t in s.callers
    requires forall q :: q in s.prods ==> s.prods[q].Finished()
    ensures s.sem.flag && LOG in s.sem.waiters && s.sem.waiters[LOG] == S.Notified(false)
    ensures t != LOG && t !in s.sem.waiters
  {
    ComesInv(init, s);
    FlagIsUp(s);
  }

  lemma LogParksAgain(s: State)
    requires s.w.pc.Parked? && LOG in s.sem.waiters && s.sem.waiters[LOG] == S.Notified(false) && !s.sem.flag
    ensures Fair(s, Log(GoodIoFor([])))
    ensures var s' := Step(s, Log(GoodIoFor([])));
      && LogAsleep(s') && s'.queue == s.queue
      && s'.prods == s.prods && s'.callers == s.callers && s'.admin == s.admin
  {
  }

  /** The caller takes the token of the last signal before the log thread does. */
  lemma CallerIsFirst(init: State, s: State, t: nat) returns (s': State)
    requires Comes(init, s) && LogWaits(s) && s.queue != [] && t in s.callers
    requires forall q :: q in s.prods ==> s.prods[q].Finished()
    ensures Comes(init, s') && SleepsOverEntries(s')
  {
    LastSignal(init, s, t);
    var s1 := Takes(init, s, t);
    LogParksAgain(s1);
    s' := Step(s1, Log(GoodIoFor([])));
    Go(init, s1, Log(GoodIoFor([])), s');
  }

  lemma LeadsToStarvation(init: State, t: nat, p: nat, i: nat) returns (s: State)
    requires Init(init) && t in init.callers
    requires p in init.prods && i < |init.prods[p].calls| && init.prods[p].calls[i] != []
    ensures Comes(init, s) && SleepsOverEntries(s)
  {
    s := ComesToWait(init);
    s := AllFinish(init, s, p, i);
    s := CallerIsFirst(init, s, t);
  }

  /** The log thread runs alone until it sleeps. */
  lemma ComesToWait(init: State) returns (s: State)
    requires Init(init)
    ensures Comes(init, s) && LogWaits(s) && s.prods == init.prods && s.callers == init.callers
  {
    Starts(init);
    StartIsQuiet(init);
    var acts := RestIsReached(init, [], init);
    LogRunIsFair(init, acts);
    LogKeepsRun(init, acts);
    s := After(init, acts);
    assert Reached(init, acts, s);
    ReachedInv(init, acts, s);
  }

  lemma {:induction false} LogKeepsRun(s: State, acts: seq<Action>)
    requires Legal(s, acts) && LogRun(acts)
    ensures OthersSame(s, After(s, acts))
    decreases acts
  {
    if acts != [] {
      LogRunTail(acts);
      LogKeepsOthers(s, acts[0].io);
      LogKeepsRun(Step(s, acts[0]), acts[1..]);
    }
  }

  /** Producer `p` has an entry to log. */
  ghost predicate HasEntries(s: State, p: nat) {
    p in s.prods && exists i :: 0 <= i < |s.prods[p].calls| && s.prods[p].calls[i] != []
  }

  /** Without an entry to log, only what was queued before the first drain is ever queued. */
  lemma {:induction false} NothingToQueue(s: State, acts: seq<Action>)
    requires Inv(s) && Legal(s, acts) && (s.queue == [] || s.w.pc.Drain?) && forall p :: !HasEntries(s, p)
    ensures After(s, acts).queue == [] || After(s, acts).w.pc.Drain?
    decreases acts
  {
    if acts != [] {
      StepInv(s, acts[0]);
      NothingPushed(s, acts[0]);
      NothingToQueue(Step(s, acts[0]), acts[1..]);
    }
  }

  lemma NothingPushed(s: State, a: Action)
    requires Inv(s) && Enabled(s, a) && (s.queue == [] || s.w.pc.Drain?) && forall p :: !HasEntries(s, p)
    ensures Step(s, a).queue == [] || Step(s, a).w.pc.Drain?
    ensures forall p :: !HasEntries(Step(s, a), p)
  {
    StepThreads(s, a);
    SameEntries(s, Step(s, a));
    if a.Prod? {
      assert !HasEntries(s, a.p);
      NoPush(s, a.p);
    } else if a.Log? {
      LogPushesNothing(s, a.io);
    }
  }

  lemma SameEntries(s: State, s': State)
    requires SameThreads(s, s') && forall p :: !HasEntries(s, p)
    ensures forall p :: !HasEntries(s', p)
  {
    forall p ensures !HasEntries(s', p) {
      assert !HasEntries(s, p);
      assert p in s'.prods.Keys ==> p in s.prods;
    }
  }

  lemma NoPush(s: State, p: nat)
    requires LocksOk(s) && ProdEnabled(s, p) && !HasEntries(s, p)
    ensures ProdStep(s, p).queue == s.queue && ProdStep(s, p).w == s.w
  {
  }

  lemma LogPushesNothing(s: State, io: Io)
    requires PoolOk(s.w) && LogEnabled(s, io) && (s.queue == [] || s.w.pc.Drain?)
    ensures LogStep(s, io).queue == []
  {
    if s.w.pc.Drain? {
      TakeIsEmpty(s.w.pool);
    }
  }

  /** A fair run from a start of the logger can lead to the end of all work with the log thread
      asleep over queued entries if and only if some thread calls `wait_for_flush`, whose wait
      can take the token meant for the log thread, and some producer has an entry to log. */
  lemma StarvationExactly(init: State)
    requires Init(init)
    ensures (exists s :: Comes(init, s) && SleepsOverEntries(s))
       <==> (init.callers.Keys != {} && exists p :: HasEntries(init, p))
  {
    if init.callers.Keys != {} && exists p :: HasEntries(init, p) {
      var t :| t in init.callers.Keys;
      var p :| HasEntries(init, p);
      var i :| 0 <= i < |init.prods[p].calls| && init.prods[p].calls[i] != [];
      var s := LeadsToStarvation(init, t, p, i);
    }
    if s :| Comes(init, s) && SleepsOverEntries(s) {
      var acts :| Reached(init, acts, s) && FairRun(init, acts);
      RunThreads(init, acts);
      DeadlockFreedom(init, acts, s);
      InitInv(init);
      if forall p :: !HasEntries(init, p) {
        NothingToQueue(init, acts);
      }
    }
  }

  /** Every producer is done, and the log thread waits with the flag down. */
  ghost predicate Abandoned(s: State) {
    s.w.pc.Parked? && !s.sem.flag && forall p :: p in s.prods ==> s.prods[p].Finished()
  }

  lemma StaysAbandoned(s: State, a: Action)
    requires Abandoned(s) && Enabled(s, a)
    ensures Abandoned(Step(s, a)) && Step(s, a).queue == s.queue && Step(s, a).w.hist.drained == s.w.hist.drained
  {
    match a {
      case Caller(t) => CallerRaisesNothing(s, t);
      case Log(io) => LogSleepsOn(s, io);
      case _ =>
    }
  }

  lemma CallerRaisesNothing(s: State, t: nat)
    requires CallerEnabled(s, t) && !s.sem.flag
    ensures var s' := CallerStep(s, t);
      !s'.sem.flag && s'.w == s.w && s'.queue == s.queue && s'.prods == s.prods
  {
  }

  lemma LogSleepsOn(s: State, io: Io)
    requires LogEnabled(s, io) && s.w.pc.Parked? && !s.sem.flag
    ensures var s' := LogStep(s, io);
      !s'.sem.flag && s'.w == s.w && s'.queue == s.queue && s'.prods == s.prods
  {
  }

  lemma {:induction false} AbandonedForEver(s: State, acts: seq<Action>)
    requires Abandoned(s) && Legal(s, acts)
    ensures Abandoned(After(s, acts)) && After(s, acts).queue == s.queue
    ensures After(s, acts).w.hist.drained == s.w.hist.drained
    decreases acts
  {
    if acts != [] {
      StaysAbandoned(s, acts[0]);
      AbandonedForEver(Step(s, acts[0]), acts[1..]);
    }
  }

  /** Nobody wakes it any more, whoever calls `wait_for_flush` or registers something, and
      whatever wakes up for no reason: the entries stay queued for ever. */
  lemma StarvedForEver(init: State, before: seq<Action>, s: State, acts: seq<Action>)
    requires Reached(init, before, s) && SleepsOverEntries(s) && Legal(s, acts)
    ensures !CanMove(s)
    ensures After(s, acts).queue == s.queue && After(s, acts).w.hist.drained == s.w.hist.drained
  {
    DeadlockFreedom(init, before, s);
    ReachedInv(init, before, s);
    AbandonedForEver(s, acts);
  }
}
