/** What every step keeps about the queue: what was accepted, in which order, and who wakes
    the log thread for it. */
module Queueing {
  import opened Records
  import opened VecPools
  import opened Workers
  import opened Pipeline
  import opened Locking

  // ----- Nothing leaves the queue but by a drain -----

  /** Every accepted entry was drained or is queued, in order. */
  ghost predicate QueueOk(s: State) {
    Accepted(s) == s.w.hist.drained + s.queue
  }

  lemma EntriesPush(calls: seq<Call>, e: LogData)
    requires calls != []
    ensures Entries(PushLast(calls, e)) == Entries(calls) + [e]
  {
    var n := |calls| - 1;
    var after := PushLast(calls, e);
    assert after[..n] == calls[..n];
    AppendAssoc(Entries(calls[..n]), calls[n].entries, [e]);
  }

  lemma EntriesCall(calls: seq<Call>, p: nat)
    ensures Entries(calls + [Call(p, [])]) == Entries(calls)
  {
    var after := calls + [Call(p, [])];
    assert after[..|calls|] == calls;
  }

  lemma ProdQueue(s: State, p: nat)
    requires QueueOk(s) && ProdEnabled(s, p)
    ensures QueueOk(ProdStep(s, p))
  {
    var me := s.prods[p];
    if me.pc.Reading? {
      EntriesCall(s.calls, p);
    } else if me.pc.Pushing? && me.pc.done < |me.calls[me.next]| {
      var e := me.calls[me.next][me.pc.done];
      EntriesPush(s.calls, e);
      AppendAssoc(s.w.hist.drained, s.queue, [e]);
    }
  }

  lemma StepQueue(s: State, a: Action)
    requires QueueOk(s) && PoolOk(s.w) && LocksOk(s) && WaitsOk(s) && Enabled(s, a)
    ensures QueueOk(Step(s, a))
  {
    if a.Prod? {
      ProdQueue(s, a.p);
    } else {
      StepTurns(s, a);
      if a.Log? {
        LogQueue(s, a.io);
      }
    }
  }

  lemma LogQueue(s: State, io: Io)
    requires QueueOk(s) && PoolOk(s.w) && WaitsOk(s) && LogEnabled(s, io)
    ensures QueueOk(LogStep(s, io))
  {
    var s' := LogStep(s, io);
    assert s'.calls == s.calls;
    if s.w.pc.Drain? {
      TakeIsEmpty(s.w.pool);
      assert s'.queue == [];
    } else {
      LogTurns(s, io);
      TurnKeepsDrained(s.w, s.max, TurnOf(s, Log(io)));
    }
  }

  lemma TurnKeepsDrained(w: Worker, max: nat, t: Turn)
    requires CanTurn(w, max, t) && !t.Swap?
    ensures Turned(w, max, t).hist.drained == w.hist.drained
  {
  }

  // ----- Calls -----

  /** What producer `p` pushed, call by call. */
  function CallsOf(calls: seq<Call>, p: nat): seq<seq<LogData>> {
    if calls == [] then []
    else
      var last := calls[|calls| - 1];
      CallsOf(calls[..|calls| - 1], p) + if last.who == p then [last.entries] else []
  }

  /** What a producer has pushed so far: the groups of its calls in order, the one in
      progress perhaps in part. */
  function Made(p: Producer): seq<seq<LogData>>
    requires CallInRange(p) && p.next <= |p.calls|
  {
    match p.pc
    case Idle => p.calls[..p.next]
    case Reading => p.calls[..p.next]
    case Pushing(done) => p.calls[..p.next] + [p.calls[p.next][..done]]
    case Pushed => p.calls[..p.next + 1]
    case Signalled => p.calls[..p.next + 1]
  }

  /** Each producer's calls are in its program order, and one call's entries stay together:
      only the last call of all, that of the thread holding the queue lock, can be in part. */
  ghost predicate CallsOk(s: State) {
    && (forall p :: p in s.prods ==> CallInRange(s.prods[p]) && s.prods[p].next <= |s.prods[p].calls|)
    && (forall p :: p in s.prods ==> CallsOf(s.calls, p) == Made(s.prods[p]))
    && (s.qLock.Some? ==> s.calls != [] && s.calls[|s.calls| - 1].who == s.qLock.value)
  }

  lemma CallsOfCall(calls: seq<Call>, c: Call, p: nat)
    ensures CallsOf(calls + [c], p) == CallsOf(calls, p) + if c.who == p then [c.entries] else []
  {
    assert (calls + [c])[..|calls|] == calls;
  }

  lemma CallsOfPush(calls: seq<Call>, e: LogData, p: nat)
    requires calls != []
    ensures var last := calls[|calls| - 1];
      CallsOf(PushLast(calls, e), p) ==
        CallsOf(calls[..|calls| - 1], p) + if last.who == p then [last.entries + [e]] else []
  {
    var n := |calls| - 1;
    assert PushLast(calls, e)[..n] == calls[..n];
  }

  lemma ProdCalls(s: State, p: nat)
    requires CallsOk(s) && LocksOk(s) && ProdEnabled(s, p)
    ensures CallsOk(ProdStep(s, p))
  {
    ProdLocks(s, p);
    ProdLastCall(s, p);
    forall q | q in ProdStep(s, p).prods
      ensures ProdStep(s, p).prods[q].next <= |ProdStep(s, p).prods[q].calls|
      ensures CallsOf(ProdStep(s, p).calls, q) == Made(ProdStep(s, p).prods[q])
    {
      if q == p {
        SelfMade(s, p);
      } else {
        OtherMade(s, p, q);
      }
    }
  }

  /** The last call of all stays that of the thread holding the queue lock. */
  lemma ProdLastCall(s: State, p: nat)
    requires CallsOk(s) && LocksOk(s) && ProdEnabled(s, p)
    ensures var s' := ProdStep(s, p);
      s'.qLock.Some? ==> s'.calls != [] && s'.calls[|s'.calls| - 1].who == s'.qLock.value
  {
  }

  /** The producer that moves. */
  lemma SelfMade(s: State, p: nat)
    requires CallsOk(s) && LocksOk(s) && ProdEnabled(s, p)
    requires CallInRange(ProdStep(s, p).prods[p])
    ensures var s' := ProdStep(s, p);
      s'.prods[p].next <= |s'.prods[p].calls| && CallsOf(s'.calls, p) == Made(s'.prods[p])
  {
    var me := s.prods[p];
    assert CallsOf(s.calls, p) == Made(me);
    if me.pc.Reading? {
      CallsOfCall(s.calls, Call(p, []), p);
      MadeAtEnds(me);
    } else if me.pc.Pushing? {
      if me.pc.done < |me.calls[me.next]| {
        PushMade(s, p, p);
      } else {
        MadeAtEnds(me);
      }
    }
  }

  lemma MadeAtEnds(p: Producer)
    requires CallInRange(p) && p.next < |p.calls|
    ensures Made(p.(pc := Pushing(0))) == p.calls[..p.next] + [[]]
    ensures Made(p.(pc := Pushing(|p.calls[p.next]|))) == Made(p.(pc := Pushed))
  {
    assert p.calls[p.next][..0] == [];
    assert p.calls[p.next][..|p.calls[p.next]|] == p.calls[p.next];
    assert p.calls[..p.next + 1] == p.calls[..p.next] + [p.calls[p.next]];
  }

  /** The others. */
  lemma OtherMade(s: State, p: nat, q: nat)
    requires CallsOk(s) && LocksOk(s) && ProdEnabled(s, p) && q in s.prods && q != p
    ensures ProdStep(s, p).prods[q] == s.prods[q]
    ensures CallsOf(ProdStep(s, p).calls, q) == Made(s.prods[q])
  {
    var me := s.prods[p];
    if me.pc.Reading? {
      CallsOfCall(s.calls, Call(p, []), q);
    } else if me.pc.Pushing? && me.pc.done < |me.calls[me.next]| {
      PushMade(s, p, q);
    }
  }

  lemma PushMade(s: State, p: nat, q: nat)
    requires CallsOk(s) && LocksOk(s) && p in s.prods && q in s.prods && s.prods[p].pc.Pushing?
    requires s.prods[p].pc.done < |s.prods[p].calls[s.prods[p].next]|
    ensures var me := s.prods[p]; var after := PushLast(s.calls, me.calls[me.next][me.pc.done]);
      CallsOf(after, q) == Made(if q == p then me.(pc := Pushing(me.pc.done + 1)) else s.prods[q])
  {
    var me := s.prods[p];
    var group, done := me.calls[me.next], me.pc.done;
    CallsOfPush(s.calls, group[done], q);
    assert s.calls[|s.calls| - 1].who == p;
    if q == p {
      PushedOne(CallsOf(s.calls[..|s.calls| - 1], p), s.calls[|s.calls| - 1].entries, me.calls[..me.next], group, done);
    }
  }

  lemma PushedOne(x: seq<seq<LogData>>, last: seq<LogData>, before: seq<seq<LogData>>, group: seq<LogData>, done: nat)
    requires done < |group| && x + [last] == before + [group[..done]]
    ensures x + [last + [group[done]]] == before + [group[..done + 1]]
  {
    assert x == (x + [last])[..|x|] && last == (x + [last])[|x|];
    assert before == (before + [group[..done]])[..|before|] && group[..done] == (before + [group[..done]])[|before|];
    assert group[..done + 1] == group[..done] + [group[done]];
  }

  lemma StepCalls(s: State, a: Action)
    requires CallsOk(s) && LocksOk(s) && Enabled(s, a)
    ensures CallsOk(Step(s, a))
  {
    if a.Prod? {
      ProdCalls(s, a.p);
    } else {
      OthersKeepCalls(s, a);
      var s' := Step(s, a);
      forall p | p in s'.prods ensures CallsOf(s'.calls, p) == Made(s'.prods[p]) {
        assert p in s.prods;
      }
    }
  }

  lemma OthersKeepCalls(s: State, a: Action)
    requires Enabled(s, a) && !a.Prod?
    ensures var s' := Step(s, a); s'.calls == s.calls && s'.prods == s.prods && s'.qLock == s.qLock
    ensures a.Log? ==> Step(s, a).callers == s.callers
  {
  }

  lemma {:induction false} InitCalls(calls: seq<Call>, p: nat)
    requires forall i :: 0 <= i < |calls| ==> calls[i].who != p
    ensures CallsOf(calls, p) == []
  {
    if calls != [] {
      InitCalls(calls[..|calls| - 1], p);
    }
  }

  // ----- Wakeup -----

  /** The log thread found the queue empty and is about to wait, or waits. */
  predicate InWait(w: Worker) { w.pc.WaitSem? || w.pc.Parked? }

  /** Producer `p` has pushed, or has unlocked the queue, and has still to signal. */
  ghost predicate HasToSignal(s: State, p: nat) {
    p in s.prods && ((s.prods[p].pc.Pushing? && s.prods[p].pc.done > 0) || s.prods[p].pc.Pushed?)
  }

  ghost predicate SignalComing(s: State) { exists p :: HasToSignal(s, p) }

  ghost predicate WakeOk(s: State) {
    && (InWait(s.w) && s.queue != [] ==> s.sem.flag || SignalComing(s) || s.stolen > 0)
    && (s.callers.Keys == {} ==> s.stolen == 0)
    && (s.stolen > 0 ==> s.queue != [])
  }

  lemma StepWake(s: State, a: Action)
    requires WakeOk(s) && Enabled(s, a)
    ensures WakeOk(Step(s, a))
  {
    match a {
      case Prod(p) => ProdWake(s, p);
      case Caller(t) => CallerWake(s, t);
      case Log(io) => LogWake(s, io);
      case _ =>
        var s' := Step(s, a);
        assert s'.prods == s.prods;
        assert SignalComing(s) ==> SignalComing(s') by { SignalKept(s, s'); }
        assert s'.callers.Keys == s.callers.Keys;
    }
  }

  lemma ProdWake(s: State, p: nat)
    requires WakeOk(s) && ProdEnabled(s, p)
    ensures WakeOk(ProdStep(s, p))
  {
    var s' := ProdStep(s, p);
    if s'.queue != s.queue {
      assert HasToSignal(s', p);
    } else if !s.prods[p].pc.Pushed? && SignalComing(s) {
      var q :| HasToSignal(s, q);
      assert HasToSignal(s', q);
    }
  }

  lemma CallerWake(s: State, t: nat)
    requires WakeOk(s) && CallerEnabled(s, t)
    ensures WakeOk(CallerStep(s, t))
  {
    SignalKept(s, CallerStep(s, t));
    assert t in CallerStep(s, t).callers.Keys;
  }

  /** Where the log thread may wait after a step, it waited before, over the same queue and flag. */
  lemma LogStepWaits(s: State, io: Io)
    requires LogEnabled(s, io)
    ensures var s' := LogStep(s, io);
      && (InWait(s'.w) && s'.queue != [] ==>
            InWait(s.w) && s'.queue == s.queue && s'.sem.flag == s.sem.flag && s'.stolen == s.stolen)
      && (s'.stolen == 0 || (s'.stolen == s.stolen && s'.queue == s.queue))
  {
    if s.w.pc.Drain? || s.w.pc.CheckFlush? || s.w.pc.CheckSleep? || s.w.pc.WaitSem? || s.w.pc.Parked? {
    } else {
      assert !InWait(Work(s.w, s.max, io));
    }
  }

  lemma LogWake(s: State, io: Io)
    requires WakeOk(s) && LogEnabled(s, io)
    ensures WakeOk(LogStep(s, io))
  {
    LogStepWaits(s, io);
    OthersKeepCalls(s, Log(io));
    WakeKept(s, LogStep(s, io));
  }

  lemma WakeKept(s: State, s': State)
    requires WakeOk(s) && s'.prods == s.prods && s'.callers == s.callers
    requires InWait(s'.w) && s'.queue != [] ==>
      InWait(s.w) && s'.queue == s.queue && s'.sem.flag == s.sem.flag && s'.stolen == s.stolen
    requires s'.stolen == 0 || (s'.stolen == s.stolen && s'.queue == s.queue)
    ensures WakeOk(s')
  {
    SignalKept(s, s');
  }

  lemma SignalKept(s: State, s': State)
    requires s'.prods == s.prods
    ensures SignalComing(s) ==> SignalComing(s')
  {
    if p :| HasToSignal(s, p) {
      assert HasToSignal(s', p);
    }
  }
}
