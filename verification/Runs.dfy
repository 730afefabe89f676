/** The invariant of the whole system, kept by every step of every thread, and so over every run. */
module Runs {
  import opened Records
  import opened Workers
  import opened Pipeline
  import opened Locking
  import opened Delivery
  import opened Queueing

  ghost predicate Inv(s: State) {
    && LocksOk(s) && WaitsOk(s) && CallsOk(s) && QueueOk(s) && WakeOk(s)
    && WorkerOk(s.w, s.max) && FlushOk(s.w, s.queue)
  }

  ghost predicate WorkerOk(w: Worker, max: nat) {
    && PoolOk(w) && PoolTurns(w) && StreamOk(w, max) && TextsOk(w) && SinksOk(w) && ExposureOk(w, max)
    && ContextsHold(w, max) && BatchOk(w, max)
  }

  lemma InitInv(s: State)
    requires Init(s)
    ensures Inv(s)
  {
    InitLocks(s);
    InitWaits(s);
    FreshOk(s.w, s.max);
    assert QueueOk(s);
    forall p | p in s.prods ensures CallsOf(s.calls, p) == Made(s.prods[p]) {
      InitCalls(s.calls, p);
    }
  }

  lemma FreshOk(w: Worker, max: nat)
    requires Fresh(w) && max > 0
    ensures WorkerOk(w, max)
  {
    FreshPool(w);
    assert Render(Body, []) == "" && Render(CompactBody, []) == "";
    forall tag: string ensures WithTag([], tag) == [] {}
    forall k | 0 <= k < |w.out.sinks| ensures SinkShows(w, k) {}
  }

  lemma StepInv(s: State, a: Action)
    requires Inv(s) && Enabled(s, a)
    ensures Inv(Step(s, a))
  {
    StepLocks(s, a);
    StepWaits(s, a);
    StepCalls(s, a);
    StepQueue(s, a);
    StepWake(s, a);
    StepTurns(s, a);
    TurnWorker(s.w, s.max, TurnOf(s, a));
    StepFlush(s, a);
  }

  lemma TurnWorker(w: Worker, max: nat, t: Turn)
    requires WorkerOk(w, max) && CanTurn(w, max, t)
    ensures WorkerOk(Turned(w, max, t), max)
  {
    TurnPool(w, max, t);
    TurnPools(w, max, t);
    TurnStream(w, max, t);
    TurnTexts(w, max, t);
    TurnSinks(w, max, t);
    TurnExposure(w, max, t);
    TurnContexts(w, max, t);
    TurnBatch(w, max, t);
  }

  lemma StepFlush(s: State, a: Action)
    requires FlushOk(s.w, s.queue) && LocksOk(s) && WaitsOk(s) && Enabled(s, a)
    ensures FlushOk(Step(s, a).w, Step(s, a).queue)
  {
    StepTurns(s, a);
    TurnFlush(s.w, s.max, TurnOf(s, a), s.queue);
    QueueOnlyGrows(s, a);
  }

  /** The queue loses entries only to a drain. */
  lemma QueueOnlyGrows(s: State, a: Action)
    requires Enabled(s, a)
    ensures s.queue <= Step(s, a).queue || Step(s, a).w.pc.CheckFlush? || Step(s, a).w.pc.ReadConfig?
  {
  }

  lemma {:induction false} RunInv(s: State, acts: seq<Action>)
    requires Inv(s) && Legal(s, acts)
    ensures Inv(After(s, acts))
    decreases acts
  {
    if acts != [] {
      StepInv(s, acts[0]);
      RunInv(Step(s, acts[0]), acts[1..]);
    }
  }

  /** `s` is reached from a start of the logger by the steps `acts`. */
  ghost predicate Reached(init: State, acts: seq<Action>, s: State) {
    Init(init) && Legal(init, acts) && s == After(init, acts)
  }

  lemma ReachedInv(init: State, acts: seq<Action>, s: State)
    requires Reached(init, acts, s)
    ensures Inv(s)
  {
    InitInv(init);
    RunInv(init, acts);
  }
}
