/** What every step keeps about the locks, the semaphore and the pool. */
module Locking {
  import opened Records
  import opened VecPools
  import opened Workers
  import opened Pipeline
  import S = Semaphores

  /** Thread `t` holds the logger's read guard. */
  ghost predicate HoldsRead(s: State, t: nat) {
    if t == LOG then InSinks(s.w)
    else if t in s.prods then !s.prods[t].pc.Idle?
    else t in s.callers && !s.callers[t].Out?
  }

  ghost predicate CallInRange(p: Producer) {
    && (!p.pc.Idle? ==> p.next < |p.calls|)
    && (p.pc.Pushing? ==> p.next < |p.calls| && p.pc.done <= |p.calls[p.next]|)
  }

  /** The read guards are those of the threads inside the logger; the queue lock is held by
      the one producer that is pushing. */
  ghost predicate LocksOk(s: State) {
    && s.max > 0
    && LOG !in s.prods && LOG !in s.callers && s.prods.Keys !! s.callers.Keys
    && (forall t: nat :: t in s.readers <==> HoldsRead(s, t))
    && (forall p :: p in s.prods ==> CallInRange(s.prods[p]))
    && (forall p :: p in s.prods ==> (s.prods[p].pc.Pushing? <==> s.qLock == Some(p)))
    && (s.qLock.Some? ==> s.qLock.value in s.prods)
  }

  lemma InitLocks(s: State)
    requires Init(s)
    ensures LocksOk(s)
  {
  }

  lemma StepLocks(s: State, a: Action)
    requires LocksOk(s) && Enabled(s, a)
    ensures LocksOk(Step(s, a))
  {
    match a {
      case Prod(p) => ProdLocks(s, p);
      case Log(io) => LogLocks(s, io);
      case _ =>
    }
  }

  lemma ProdLocks(s: State, p: nat)
    requires LocksOk(s) && ProdEnabled(s, p)
    ensures LocksOk(ProdStep(s, p))
  {
    var s' := ProdStep(s, p);
    assert p != LOG && p !in s.callers;
    forall t: nat | t != p ensures HoldsRead(s', t) == HoldsRead(s, t) {}
  }

  lemma LogLocks(s: State, io: Io)
    requires LocksOk(s) && LogEnabled(s, io)
    ensures LocksOk(LogStep(s, io))
  {
    assert LOG in s.readers <==> InSinks(s.w) by { assert HoldsRead(s, LOG) <==> InSinks(s.w); }
    var s' := LogStep(s, io);
    if !(s.w.pc.Drain? || s.w.pc.CheckFlush? || s.w.pc.CheckSleep? || s.w.pc.WaitSem? || s.w.pc.Parked?) {
      LocksKept(s, s');
    } else {
      assert !InSinks(s.w) && !InSinks(s'.w);
      LocksKept(s, s');
    }
  }

  lemma LocksKept(s: State, s': State)
    requires LocksOk(s)
    requires s'.max == s.max && s'.prods == s.prods && s'.callers == s.callers && s'.qLock == s.qLock
    requires s'.readers == if InSinks(s'.w) then s.readers + {LOG} else s.readers - {LOG}
    ensures LocksOk(s')
  {
    forall t: nat | t != LOG ensures HoldsRead(s', t) == HoldsRead(s, t) {}
  }

  /** The semaphore's waiters are the parked log thread and the callers inside `wait_for_flush`. */
  ghost predicate WaitsOk(s: State) {
    && LOG !in s.callers
    && S.Inv(s.sem)
    && (LOG in s.sem.waiters <==> s.w.pc.Parked?)
    && (LOG in s.sem.waiters ==> S.WaitsForEver(s.sem, LOG))
    && (forall t :: t in s.sem.waiters ==> t == LOG || t in s.callers)
    && (forall t :: t in s.callers ==> (s.callers[t].Waiting? <==> t in s.sem.waiters))
  }

  lemma InitWaits(s: State)
    requires Init(s)
    ensures WaitsOk(s)
  {
  }

  lemma StepWaits(s: State, a: Action)
    requires WaitsOk(s) && Enabled(s, a)
    ensures WaitsOk(Step(s, a))
  {
    match a {
      case Prod(p) => S.StepInv(s.sem, S.Raise);
      case Caller(t) => CallerWaits(s, t);
      case Spurious(t) => S.StepInv(s.sem, S.Spurious(t));
      case Log(io) => LogWaits(s, io);
      case _ =>
    }
  }

  lemma CallerWaits(s: State, t: nat)
    requires WaitsOk(s) && CallerEnabled(s, t)
    ensures WaitsOk(CallerStep(s, t))
  {
    if !s.callers[t].Returning? {
      S.StepInv(s.sem, CallerEvent(s, t));
    }
  }

  lemma LogWaits(s: State, io: Io)
    requires WaitsOk(s) && LogEnabled(s, io)
    ensures WaitsOk(LogStep(s, io))
  {
    if s.w.pc.WaitSem? {
      SemaphoredWaits(s, S.Enter(LOG, false));
    } else if s.w.pc.Parked? {
      SemaphoredWaits(s, S.Recheck(LOG));
    }
  }

  lemma SemaphoredWaits(s: State, e: S.Event)
    requires WaitsOk(s) && S.Enabled(s.sem, e)
    requires e == S.Enter(LOG, false) || (e == S.Recheck(LOG) && s.w.pc.Parked?)
    ensures WaitsOk(Semaphored(s, e))
  {
    S.StepInv(s.sem, e);
  }

  // ----- The log thread's part of a step -----

  ghost function TurnOf(s: State, a: Action): Turn {
    if a.Log? then
      match s.w.pc
      case Drain => Swap(s.queue)
      case CheckFlush => TestFlush(s.queue)
      case CheckSleep => TestSleep(s.queue)
      case WaitSem => if s.sem.flag then Wake else Park
      case Parked => if s.sem.flag then Wake else Park
      case _ => Act(a.io)
    else if a.Admin? && a.k < |s.admin| then Enlist(s.admin[a.k])
    else Stay
  }

  /** The log thread, and the registrations, are all that changes the worker's part of the state. */
  lemma StepTurns(s: State, a: Action)
    requires LocksOk(s) && WaitsOk(s) && Enabled(s, a)
    ensures CanTurn(s.w, s.max, TurnOf(s, a))
    ensures Step(s, a).w == Turned(s.w, s.max, TurnOf(s, a))
    ensures Step(s, a).max == s.max
  {
    match a {
      case Log(io) => LogTurns(s, io);
      case Admin(k) => assert HoldsRead(s, LOG) <==> InSinks(s.w);
      case _ =>
    }
  }

  lemma LogTurns(s: State, io: Io)
    requires WaitsOk(s) && LogEnabled(s, io)
    ensures CanTurn(s.w, s.max, TurnOf(s, Log(io)))
    ensures LogStep(s, io).w == Turned(s.w, s.max, TurnOf(s, Log(io)))
  {
    if s.w.pc.WaitSem? || s.w.pc.Parked? {
    } else {
      assert LogStep(s, io).sem == s.sem;
    }
  }

  /** The pool and the guard in hand hold empty vectors. */
  ghost predicate PoolOk(w: Worker) {
    AllEmpty(w.pool) && w.guard.items == []
  }

  lemma TurnPool(w: Worker, max: nat, t: Turn)
    requires PoolOk(w) && CanTurn(w, max, t)
    ensures PoolOk(Turned(w, max, t))
  {
    if t.Swap? {
      TakeIsEmpty(w.pool);
    }
  }

  /** The pool as it is when the vector in hand, if there is one, is back. */
  function WholePool(w: Worker): Pool<LogData> {
    if w.pc.Drain? then w.pool else PutBack(w.pool, w.guard)
  }

  /** The two pooled vectors have turned by one for each drain; no third was ever made. */
  ghost predicate PoolTurns(w: Worker) { TurnedBy(WholePool(w), 2, w.hist.turns) }

  lemma FreshPool(w: Worker)
    requires Fresh(w)
    ensures PoolTurns(w)
  {
    TurnedAfter<LogData>(2, 1024, []);
  }

  lemma SwapTurns(w: Worker, queue: seq<LogData>)
    requires PoolTurns(w) && w.pc.Drain?
    ensures PoolTurns(Drained(w, queue))
    ensures Drained(w, queue).guard.id == w.hist.turns % 2
  {
    var vec := Take(w.pool).0;
    TurnOnce(w.pool, 2, w.hist.turns, Use(vec.items, vec.capacity));
    assert w.pool.free[0].id == (w.hist.turns + 0) % 2;
  }

  lemma TurnPools(w: Worker, max: nat, t: Turn)
    requires PoolTurns(w) && CanTurn(w, max, t)
    ensures PoolTurns(Turned(w, max, t))
  {
    if t.Swap? {
      SwapTurns(w, t.queue);
    } else {
      TurnKeepsPool(w, max, t);
    }
  }

  lemma TurnKeepsPool(w: Worker, max: nat, t: Turn)
    requires CanTurn(w, max, t) && !t.Swap?
    ensures WholePool(Turned(w, max, t)) == WholePool(w) && Turned(w, max, t).hist.turns == w.hist.turns
  {
  }
}
