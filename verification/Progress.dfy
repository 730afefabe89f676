/** Who can move: deadlocks, and where they come from. */
module Progress {
  import opened Records
  import opened Fanout
  import opened Workers
  import opened Pipeline
  import opened Locking
  import opened Delivery
  import opened Queueing
  import opened Runs
  import S = Semaphores

  /** The step takes the logger's read guard. */
  ghost predicate NeedsRead(s: State, a: Action) {
    match a
    case Prod(p) => p in s.prods && s.prods[p].pc.Idle?
    case Begin(_, _) => true
    case Log(_) => WantsRead(s.w)
    case _ => false
  }

  /** Some thread waits for the write guard. */
  ghost predicate WriterWaits(s: State) { WantsWrite(s.w) || s.admin != [] }

  /** The reader-writer lock lets no reader in while a writer waits: under this policy the
      fewest steps are possible. */
  ghost predicate Fair(s: State, a: Action) {
    Enabled(s, a) && (NeedsRead(s, a) ==> !WriterWaits(s))
  }

  ghost predicate FairRun(s: State, acts: seq<Action>)
    requires Legal(s, acts)
    decreases acts
  {
    acts == [] || (Fair(s, acts[0]) && FairRun(Step(s, acts[0]), acts[1..]))
  }

  /** Some thread that is inside the logger, or has something to do there, can move. */
  ghost predicate CanMove(s: State) {
    exists a: Action :: (a.Prod? || a.Caller? || a.Admin? || a.Log?) && Fair(s, a)
  }

  /** Thread `t` sleeps in `wait_for_flush`, un-notified, and holds the read guard. */
  ghost predicate SleepsInside(s: State, t: nat) {
    t in s.callers && s.callers[t].Waiting? && t in s.sem.waiters && s.sem.waiters[t] == S.Asleep(false)
  }

  ghost predicate LogAsleep(s: State) {
    s.w.pc.Parked? && LOG in s.sem.waiters && s.sem.waiters[LOG] == S.Asleep(false)
  }

  /** No producer is in a call; those that still have calls to make are kept out by a
      waiting writer. Every caller in `wait_for_flush` sleeps. Registrations wait behind such
      a sleeper only. The log thread is dead, asleep, waits for such a sleeper's read guard,
      or is kept out by a waiting registration. */
  ghost predicate Blocked(s: State) {
    && (forall p :: p in s.prods ==> s.prods[p].Finished() || (s.prods[p].pc.Idle? && WriterWaits(s)))
    && (forall t :: t in s.callers ==> s.callers[t].Out? || SleepsInside(s, t))
    && (s.admin != [] ==> exists t :: SleepsInside(s, t))
    && (s.w.pc.Dead? || LogAsleep(s)
        || (WantsWrite(s.w) && exists t :: SleepsInside(s, t))
        || (WantsRead(s.w) && s.admin != []))
  }

  /** Everybody is done: every producer finished, no caller or registration inside, and the
      log thread asleep, or dead. */
  ghost predicate AllDone(s: State) {
    && (forall p :: p in s.prods ==> s.prods[p].Finished())
    && (forall t :: t in s.callers ==> s.callers[t].Out?)
    && s.admin == []
    && (s.w.pc.Dead? || LogAsleep(s))
  }

  // ----- A thread that is not blocked can move -----

  lemma ProdMoves(s: State, p: nat)
    requires LocksOk(s) && CallsOk(s) && p in s.prods && !s.prods[p].Finished()
    requires s.prods[p].pc.Idle? ==> !WriterWaits(s)
    ensures CanMove(s)
  {
    if s.prods[p].pc.Reading? && s.qLock.Some? {
      var holder := s.qLock.value;
      assert s.prods[holder].pc.Pushing?;
      assert Fair(s, Prod(holder));
    } else {
      assert Fair(s, Prod(p));
    }
  }

  lemma CallerMoves(s: State, t: nat)
    requires WaitsOk(s) && t in s.callers && !s.callers[t].Out? && !SleepsInside(s, t)
    ensures CanMove(s)
  {
    assert t in s.sem.waiters <==> s.callers[t].Waiting?;
    assert Fair(s, Caller(t));
  }

  lemma NobodyInside(s: State)
    requires LocksOk(s) && !InSinks(s.w)
    requires forall p :: p in s.prods ==> s.prods[p].pc.Idle?
    requires forall t :: t in s.callers ==> s.callers[t].Out?
    ensures s.readers == {} && s.qLock.None?
  {
    forall t: nat ensures t !in s.readers {
      assert t in s.readers <==> HoldsRead(s, t);
    }
  }

  lemma Enumerate(keys: set<string>) returns (order: seq<string>)
    ensures Enumerates(order, keys)
  {
    order := [];
    var rest := keys;
    while rest != {}
      invariant rest <= keys && Enumerates(order, keys - rest)
      decreases rest
    {
      var tag :| tag in rest;
      order := order + [tag];
      rest := rest - {tag};
    }
    assert keys - {} == keys;
  }

  /** A record such as `init` writes on an error. */
  const SOME_ERROR := LogData(Error, Some(ERROR_TAG), ERROR_PREFIX, "", "", 0, 0, None)

  function GoodIoFor(order: seq<string>): Io { Io([], FlushPlan(order, |order| + 1, 0), true, SOME_ERROR) }

  /** The log thread can move if it is neither dead nor asleep and no lock is in its way. */
  lemma LogMoves(s: State) returns (io: Io)
    requires LocksOk(s) && WaitsOk(s) && SinksOk(s.w) && !s.w.pc.Dead? && !LogAsleep(s)
    requires s.qLock.None? && (WantsWrite(s.w) ==> s.readers == {}) && (WantsRead(s.w) ==> s.admin == [])
    ensures Fair(s, Log(io)) && io == GoodIoFor(io.flush.order)
  {
    var order := Enumerate(s.w.out.contexts.Keys);
    io := GoodIoFor(order);
    assert IsErrorRecord(io.error);
    LogEnabledBy(s, io);
  }

  lemma LogEnabledBy(s: State, io: Io)
    requires LocksOk(s) && WaitsOk(s) && SinksOk(s.w) && !s.w.pc.Dead? && !LogAsleep(s)
    requires s.qLock.None? && (WantsWrite(s.w) ==> s.readers == {})
    requires Enumerates(io.flush.order, s.w.out.contexts.Keys) && IsErrorRecord(io.error)
    ensures LogEnabled(s, io)
  {
    if s.w.pc.WaitSem? || s.w.pc.Parked? {
      assert LOG in s.sem.waiters <==> s.w.pc.Parked?;
    }
  }

  // ----- Deadlock -----

  /** In a reachable state no thread can move exactly when all are blocked in the sense of
      `Blocked`. */
  lemma StuckExactly(init: State, acts: seq<Action>, s: State)
    requires Reached(init, acts, s)
    ensures !CanMove(s) <==> Blocked(s)
  {
    ReachedInv(init, acts, s);
    if !CanMove(s) {
      StuckIsBlocked(s);
    }
    if Blocked(s) {
      BlockedIsStuck(s);
    }
  }

  lemma StuckIsBlocked(s: State)
    requires Inv(s) && !CanMove(s)
    ensures Blocked(s)
  {
    forall p | p in s.prods ensures s.prods[p].Finished() || (s.prods[p].pc.Idle? && WriterWaits(s)) {
      if !s.prods[p].Finished() && !(s.prods[p].pc.Idle? && WriterWaits(s)) {
        ProdMoves(s, p);
      }
    }
    forall t | t in s.callers ensures s.callers[t].Out? || SleepsInside(s, t) {
      if !s.callers[t].Out? && !SleepsInside(s, t) {
        CallerMoves(s, t);
      }
    }
    if InSinks(s.w) {
      SinksMove(s);
    } else {
      OutsideSinksStuck(s);
    }
  }

  lemma SinksMove(s: State)
    requires SinksOk(s.w) && InSinks(s.w)
    ensures CanMove(s)
  {
    assert Fair(s, Log(GoodIoFor([])));
  }

  lemma OutsideSinksStuck(s: State)
    requires LocksOk(s) && WaitsOk(s) && SinksOk(s.w) && !CanMove(s) && !InSinks(s.w)
    requires forall p :: p in s.prods ==> s.prods[p].pc.Idle?
    requires forall t :: t in s.callers ==> s.callers[t].Out? || SleepsInside(s, t)
    ensures s.admin != [] ==> exists t :: SleepsInside(s, t)
    ensures s.w.pc.Dead? || LogAsleep(s)
            || (WantsWrite(s.w) && exists t :: SleepsInside(s, t)) || (WantsRead(s.w) && s.admin != [])
  {
    if !exists t :: SleepsInside(s, t) {
      NobodyInside(s);
      if s.admin != [] {
        assert Fair(s, Admin(0));
      }
    }
    if !(s.w.pc.Dead? || LogAsleep(s)
         || (WantsWrite(s.w) && exists t :: SleepsInside(s, t)) || (WantsRead(s.w) && s.admin != [])) {
      var io := LogMoves(s);
    }
  }

  lemma BlockedIsStuck(s: State)
    requires LocksOk(s) && WaitsOk(s) && Blocked(s)
    ensures !CanMove(s)
  {
    if exists t :: SleepsInside(s, t) {
      var t :| SleepsInside(s, t);
      assert HoldsRead(s, t) && t in s.readers;
    }
    forall a: Action | a.Prod? || a.Caller? || a.Admin? || a.Log? ensures !Fair(s, a) {
      match a {
        case Prod(p) =>
        case Caller(t) =>
        case Admin(k) =>
        case Log(io) => BlockedLog(s, io);
      }
    }
  }

  lemma BlockedLog(s: State, io: Io)
    requires Blocked(s)
    requires (exists t :: SleepsInside(s, t)) ==> s.readers != {}
    ensures !Fair(s, Log(io))
  {
  }

  /** Unless a `wait_for_flush` caller sleeps with the read guard in its hands, some thread
      can always move until all are done; and then, unless the log thread is dead, nothing is
      queued exactly when no `wait_for_flush` caller took a token over queued entries. */
  lemma DeadlockFreedom(init: State, acts: seq<Action>, s: State)
    requires Reached(init, acts, s) && forall t :: !SleepsInside(s, t)
    ensures !CanMove(s) <==> AllDone(s)
    ensures AllDone(s) && !s.w.pc.Dead? ==> (s.queue == [] <==> s.stolen == 0)
    ensures s.callers.Keys == {} ==> s.stolen == 0
  {
    StuckExactly(init, acts, s);
    ReachedInv(init, acts, s);
    BlockedIsDone(s);
    if AllDone(s) && !s.w.pc.Dead? {
      NobodySignals(s);
    }
  }

  lemma BlockedIsDone(s: State)
    requires forall t :: !SleepsInside(s, t)
    ensures Blocked(s) <==> AllDone(s)
  {
  }

  lemma NobodySignals(s: State)
    requires WaitsOk(s) && WakeOk(s) && LogAsleep(s) && forall p :: p in s.prods ==> s.prods[p].pc.Idle?
    ensures s.queue == [] <==> s.stolen == 0
  {
    assert !SignalComing(s);
  }
}
