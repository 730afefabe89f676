/** Once the producers are done the log thread comes to rest with everything durable. */
module Quiescence {
  import opened Records
  import opened Splitter
  import opened Fanout
  import opened Workers
  import opened Pipeline
  import opened Locking
  import opened Delivery
  import opened Queueing
  import opened Runs
  import opened Guarantees
  import opened Progress
  import S = Semaphores

  /** Nothing fails in the step. */
  ghost predicate GoodIo(io: Io) {
    FaultFree(io.plan) && io.flush.failAt > |io.flush.order| && io.sinkOk
  }

  /** Nobody but the log thread is inside the logger or waits to get in, and nothing failed. */
  ghost predicate Quiet(s: State) {
    && (forall p :: p in s.prods ==> s.prods[p].pc.Idle?)
    && (forall t :: t in s.callers ==> s.callers[t].Out?)
    && s.admin == [] && !Failed(s.w)
  }

  /** The log thread waits, or is about to, over queued entries and with the flag down. */
  ghost predicate Starved(s: State) { InWait(s.w) && s.queue != [] && !s.sem.flag }

  /** The log thread runs alone, without I/O failure. */
  ghost predicate LogRun(acts: seq<Action>) {
    forall i :: 0 <= i < |acts| ==> acts[i].Log? && GoodIo(acts[i].io)
  }

  // ----- The measure -----

  /** The steps the sink loop takes for one record: lock, one call a sink, unlock. */
  function PerRecord(w: Worker): nat { |w.out.sinks| + 2 }

  /** The steps left for `n` records. */
  function ForRecords(w: Worker, n: int): nat { if n <= 0 then 0 else n * PerRecord(w) }

  /** The log thread was notified and has to test the flag. */
  predicate WokenUp(s: State) { LOG in s.sem.waiters && s.sem.waiters[LOG].Notified? }

  /** How far the iteration of worker `w` is from its end, with `queue` queued. */
  function Place(w: Worker, max: nat, queue: seq<LogData>, woken: bool): nat
    requires max > 0
  {
    match w.pc
    case Drain => if queue == [] then 6 else 2
    case ReadConfig => 8 + ForRecords(w, |SplitAll(w.batch, max)|)
    case WriteFiles => 7 + ForRecords(w, |w.recs|)
    case NextRecord(i) => 6 + ForRecords(w, |w.recs| - i)
    case CallSinks(i, j) => 7 + ForRecords(w, |w.recs| - i - 1) + if j < |w.out.sinks| then |w.out.sinks| - j else 0
    case CheckFlush => 5
    case FlushFiles => 4
    case CheckSleep => 3
    case WaitSem => 2
    case Parked => if woken then 1 else 0
    case _ => 0
  }

  function ForQueue(w: Worker, max: nat, queue: seq<LogData>): nat
    requires max > 0
  {
    if queue == [] then 0 else 9 + ForRecords(w, |SplitAll(queue, max)|)
  }

  function ForFlag(flag: bool): nat { if flag then 7 else 0 }

  /** The steps the log thread takes at most before it comes to rest. */
  function Measure(s: State): nat
    requires s.max > 0
  {
    Place(s.w, s.max, s.queue, WokenUp(s)) + ForQueue(s.w, s.max, s.queue) + ForFlag(s.sem.flag)
  }

  /** The drains the log thread makes at most before it comes to rest. */
  function DrainsLeft(s: State): nat {
    (if s.queue != [] then 1 else 0) + (if s.sem.flag then 1 else 0)
    + (if s.w.pc.Drain? && s.queue == [] then 1 else 0)
  }

  // ----- One step -----

  lemma ForRecordsStep(w: Worker, n: nat)
    requires n > 0
    ensures ForRecords(w, n) == ForRecords(w, n - 1) + PerRecord(w)
  {
    assert n * PerRecord(w) == (n - 1) * PerRecord(w) + PerRecord(w);
  }

  /** A step of the worker alone brings the iteration nearer to its end. */
  lemma WorkNearer(w: Worker, max: nat, io: Io, queue: seq<LogData>, woken: bool)
    requires max > 0 && SinksOk(w) && WorkEnabled(w, max, io) && GoodIo(io) && !Failed(w)
    ensures var w' := Work(w, max, io);
      && Place(w', max, queue, woken) < Place(w, max, queue, woken)
      && !Failed(w') && !w'.pc.Drain? && !w'.pc.Parked? && PerRecord(w') == PerRecord(w)
  {
    match w.pc
    case WriteFiles => WrittenNearer(w, max, io, queue, woken);
    case NextRecord(_) => SinksNearer(w, max, io, queue, woken);
    case CallSinks(_, _) => SinksNearer(w, max, io, queue, woken);
    case FlushFiles => FlushKeepsTexts(w.out, io.flush);
    case _ =>
  }

  lemma SinksNearer(w: Worker, max: nat, io: Io, queue: seq<LogData>, woken: bool)
    requires max > 0 && WorkEnabled(w, max, io) && io.sinkOk && (w.pc.NextRecord? || w.pc.CallSinks?)
    ensures var w' := Work(w, max, io);
      && Place(w', max, queue, woken) < Place(w, max, queue, woken)
      && (w'.pc.NextRecord? || w'.pc.CallSinks? || w'.pc.CheckFlush?) && PerRecord(w') == PerRecord(w)
  {
    if w.pc.NextRecord? && w.pc.i < |w.recs| {
      ForRecordsStep(w, |w.recs| - w.pc.i);
    }
  }

  lemma WrittenNearer(w: Worker, max: nat, io: Io, queue: seq<LogData>, woken: bool)
    requires max > 0 && w.pc.WriteFiles? && FaultFree(io.plan)
    ensures var w' := Written(w, io);
      Place(w', max, queue, woken) < Place(w, max, queue, woken) && w'.pc.NextRecord? && PerRecord(w') == PerRecord(w)
  {
    FaultFreeSucceeds(w.out, w.recs, io.plan);
    WriteBatchReceived(w.out, w.recs, io.plan);
  }

  /** A step that leaves the queue and the flag alone, and starts no iteration. */
  lemma NearerByPlace(s: State, s': State)
    requires s.max > 0 && s'.max == s.max && s'.queue == s.queue && s'.sem == s.sem && s'.calls == s.calls
    requires PerRecord(s'.w) == PerRecord(s.w)
    requires Place(s'.w, s.max, s.queue, WokenUp(s)) < Place(s.w, s.max, s.queue, WokenUp(s))
    requires !s.w.pc.Drain? && (s'.w.pc.Drain? ==> s.queue != [])
    ensures Nearer(s, s')
  {
  }

  /** Each step of the log thread brings it nearer to rest, and each drain uses one up. */
  ghost predicate Nearer(s: State, s': State)
    requires s.max > 0 && s'.max > 0
  {
    && Measure(s') < Measure(s)
    && DrainsLeft(s') + DrainsNow(s) <= DrainsLeft(s)
    && Accepted(s') == Accepted(s)
  }

  /** The state of the others, by which `Quiet` is judged. */
  ghost predicate OthersSame(s: State, s': State) {
    && s'.max == s.max && s'.prods == s.prods && s'.callers == s.callers && s'.admin == s.admin && s'.calls == s.calls
  }

  lemma QuietStep(s: State, io: Io)
    requires Inv(s) && Quiet(s) && LogEnabled(s, io) && GoodIo(io)
    ensures Quiet(LogStep(s, io)) && LogStep(s, io).max == s.max
    ensures Nearer(s, LogStep(s, io))
  {
    LogKeepsOthers(s, io);
    if s.w.pc.Drain? {
      DrainNearer(s, io);
    } else if s.w.pc.CheckFlush? || s.w.pc.CheckSleep? {
      CheckNearer(s, io);
    } else if s.w.pc.WaitSem? || s.w.pc.Parked? {
      WaitNearer(s, io);
    } else {
      WorkNearer(s.w, s.max, io, s.queue, WokenUp(s));
      WorkedNearer(s, io);
    }
  }

  lemma StarvedStays(s: State, io: Io)
    requires LogEnabled(s, io)
    ensures Starved(LogStep(s, io)) <==> Starved(s)
  {
    LogStepWaits(s, io);
  }

  lemma LogKeepsOthers(s: State, io: Io)
    requires LogEnabled(s, io)
    ensures OthersSame(s, LogStep(s, io))
  {
  }

  lemma WorkedNearer(s: State, io: Io)
    requires s.max > 0 && WorkEnabled(s.w, s.max, io) && LogEnabled(s, io)
    requires var w' := Work(s.w, s.max, io);
      && Place(w', s.max, s.queue, WokenUp(s)) < Place(s.w, s.max, s.queue, WokenUp(s))
      && !Failed(w') && !w'.pc.Drain? && PerRecord(w') == PerRecord(s.w)
    ensures Nearer(s, LogStep(s, io)) && !Failed(LogStep(s, io).w)
  {
    assert LogStep(s, io) == Worked(s, Work(s.w, s.max, io));
    NearerByPlace(s, LogStep(s, io));
  }

  lemma DrainNearer(s: State, io: Io)
    requires s.max > 0 && PoolOk(s.w) && LogEnabled(s, io) && s.w.pc.Drain?
    ensures Nearer(s, LogStep(s, io)) && !Failed(LogStep(s, io).w)
  {
    var s' := LogStep(s, io);
    assert s'.queue == [] && s'.w.batch == s.queue && PerRecord(s'.w) == PerRecord(s.w);
  }

  lemma CheckNearer(s: State, io: Io)
    requires s.max > 0 && LogEnabled(s, io) && (s.w.pc.CheckFlush? || s.w.pc.CheckSleep?)
    ensures Nearer(s, LogStep(s, io)) && !Failed(LogStep(s, io).w)
  {
    NearerByPlace(s, LogStep(s, io));
  }

  lemma WaitNearer(s: State, io: Io)
    requires s.max > 0 && LogEnabled(s, io) && (s.w.pc.WaitSem? || s.w.pc.Parked?)
    ensures Nearer(s, LogStep(s, io)) && !Failed(LogStep(s, io).w)
  {
    var e := if s.w.pc.WaitSem? then S.Enter(LOG, false) else S.Recheck(LOG);
    var s' := Semaphored(s, e);
    assert LogStep(s, io) == s';
    assert s'.queue == s.queue && PerRecord(s'.w) == PerRecord(s.w);
  }

  // ----- Runs -----

  lemma QuietAdvance(s: State, a: Action) returns (next: State)
    requires Inv(s) && Quiet(s) && Enabled(s, a) && a.Log? && GoodIo(a.io)
    ensures next == Step(s, a)
    ensures Inv(next) && Quiet(next) && next.max == s.max && Accepted(next) == Accepted(s)
    ensures Measure(next) < Measure(s) && DrainsLeft(next) + DrainsNow(s) <= DrainsLeft(s)
  {
    next := Step(s, a);
    StepInv(s, a);
    QuietStep(s, a.io);
  }

  lemma LogRunTail(acts: seq<Action>)
    requires LogRun(acts) && acts != []
    ensures acts[0].Log? && GoodIo(acts[0].io) && LogRun(acts[1..])
  {
  }

  /** The first step of a run of the log thread, and what the rest of the run starts from. */
  lemma QuietFirst(s: State, acts: seq<Action>) returns (next: State)
    requires Inv(s) && Quiet(s) && Legal(s, acts) && LogRun(acts) && acts != []
    ensures Inv(next) && Quiet(next) && next.max == s.max && Accepted(next) == Accepted(s)
    ensures Measure(next) < Measure(s) && DrainsLeft(next) + DrainsNow(s) <= DrainsLeft(s)
    ensures Legal(next, acts[1..]) && LogRun(acts[1..]) && After(s, acts) == After(next, acts[1..])
    ensures Drains(s, acts) == DrainsNow(s) + Drains(next, acts[1..])
  {
    LogRunTail(acts);
    next := QuietAdvance(s, acts[0]);
  }

  lemma {:induction false} QuietRun(s: State, acts: seq<Action>)
    requires Inv(s) && Quiet(s) && Legal(s, acts) && LogRun(acts)
    ensures Quiet(After(s, acts)) && After(s, acts).max == s.max && Accepted(After(s, acts)) == Accepted(s)
    decreases acts
  {
    if acts != [] {
      var next := QuietFirst(s, acts);
      QuietRun(next, acts[1..]);
    }
  }

  /** The log thread alone neither starves nor recovers. */
  lemma {:induction false} StarvedRun(s: State, acts: seq<Action>)
    requires Legal(s, acts) && LogRun(acts)
    ensures Starved(After(s, acts)) <==> Starved(s)
    decreases acts
  {
    if acts != [] {
      StarvedStays(s, acts[0].io);
      StarvedRun(Step(s, acts[0]), acts[1..]);
    }
  }

  lemma {:induction false} QuietDrains(s: State, acts: seq<Action>)
    requires Inv(s) && Quiet(s) && Legal(s, acts) && LogRun(acts)
    ensures Drains(s, acts) + DrainsLeft(After(s, acts)) <= DrainsLeft(s)
    decreases acts
  {
    if acts != [] {
      var next := QuietFirst(s, acts);
      QuietDrains(next, acts[1..]);
    }
  }

  lemma {:induction false} QuietRunLength(s: State, acts: seq<Action>)
    requires Inv(s) && Quiet(s) && Legal(s, acts) && LogRun(acts)
    ensures After(s, acts).max > 0 && |acts| + Measure(After(s, acts)) <= Measure(s)
    decreases acts
  {
    if acts != [] {
      var next := QuietFirst(s, acts);
      QuietRunLength(next, acts[1..]);
    }
  }

  /** A quiet log thread that is not asleep can take a step. */
  lemma QuietProgress(s: State) returns (io: Io)
    requires LocksOk(s) && WaitsOk(s) && SinksOk(s.w) && Quiet(s) && !LogAsleep(s)
    ensures GoodIo(io) && LogEnabled(s, io)
  {
    if InSinks(s.w) {
      io := GoodIoFor([]);
    } else {
      NobodyInside(s);
      io := LogMoves(s);
    }
  }

  lemma SleeperIsDone(s: State, io: Io)
    requires LogAsleep(s)
    ensures !LogEnabled(s, io)
  {
  }

  /** Asleep with nothing to do: the queue is empty and all text is in the files. */
  ghost predicate AtRest(s: State)
    requires s.max > 0
  {
    && LogAsleep(s) && s.queue == []
    && s.w.out.global == Writer(Render(Body, SplitAll(Accepted(s), s.max)), "")
    && AllDurable(s.w.out)
  }

  lemma QuietSleeperAtRest(s: State)
    requires Inv(s) && Quiet(s) && LogAsleep(s) && !Starved(s)
    ensures AtRest(s)
  {
    WaitIsDurable(s.w, s.max);
    assert s.w.hist.drained + [] == s.w.hist.drained;
  }

  /** When nobody else is inside the logger, the log thread alone, whatever its writers spill
      and in whatever order it flushes, takes at most `Measure` steps and makes at most two
      drains; it stops exactly when it sleeps. Then the queue is empty and the global file
      holds, durably, the split of everything accepted, exactly if the run did not start with
      the log thread waiting over queued entries and the flag down. */
  lemma ComesToRest(init: State, before: seq<Action>, s: State, acts: seq<Action>)
    requires Reached(init, before, s) && Quiet(s) && Legal(s, acts) && LogRun(acts)
    ensures s.max > 0
    ensures |acts| <= Measure(s) && Drains(s, acts) <= 2
    ensures var e := After(s, acts);
      && e.max == s.max && Accepted(e) == Accepted(s)
      && ((forall io :: GoodIo(io) ==> !LogEnabled(e, io)) <==> LogAsleep(e))
      && (LogAsleep(e) ==> (AtRest(e) <==> !Starved(s)))
  {
    ReachedInv(init, before, s);
    QuietRun(s, acts);
    StarvedRun(s, acts);
    QuietDrains(s, acts);
    QuietRunLength(s, acts);
    RunInv(s, acts);
    DrainsAtMostTwo(s);
    var e := After(s, acts);
    if LogAsleep(e) {
      if !Starved(e) {
        QuietSleeperAtRest(e);
      }
      forall io | GoodIo(io) ensures !LogEnabled(e, io) {
        SleeperIsDone(e, io);
      }
    } else {
      var io := QuietProgress(e);
    }
  }

  lemma DrainsAtMostTwo(s: State)
    ensures DrainsLeft(s) <= 2
  {
  }

  lemma LegalCons(s: State, a: Action, rest: seq<Action>)
    requires Enabled(s, a) && Legal(Step(s, a), rest)
    ensures Legal(s, [a] + rest) && After(s, [a] + rest) == After(Step(s, a), rest)
  {
    assert ([a] + rest)[1..] == rest;
  }

  lemma QuietNext(s: State) returns (io: Io, next: State)
    requires Inv(s) && Quiet(s) && !LogAsleep(s)
    ensures GoodIo(io) && Enabled(s, Log(io)) && next == Step(s, Log(io))
    ensures Inv(next) && Quiet(next)
  {
    io := QuietProgress(s);
    next := QuietAdvance(s, Log(io));
  }

  lemma LogRunCons(io: Io, rest: seq<Action>)
    requires GoodIo(io) && LogRun(rest)
    ensures LogRun([Log(io)] + rest)
  {
  }

  /** The log thread can run for `n` steps, or sleeps before. */
  lemma {:induction false} RunFor(s: State, n: nat) returns (acts: seq<Action>)
    requires Inv(s) && Quiet(s)
    ensures Legal(s, acts) && LogRun(acts)
    ensures |acts| == n || LogAsleep(After(s, acts))
    decreases n
  {
    acts := [];
    if n > 0 && !LogAsleep(s) {
      var io, next := QuietNext(s);
      var rest := RunFor(next, n - 1);
      LegalCons(s, Log(io), rest);
      LogRunCons(io, rest);
      acts := [Log(io)] + rest;
    }
  }

  /** And rest is reached: there is such a run to it. */
  lemma RestIsReached(init: State, before: seq<Action>, s: State) returns (acts: seq<Action>)
    requires Reached(init, before, s) && Quiet(s) && !Starved(s)
    ensures Legal(s, acts) && LogRun(acts)
    ensures After(s, acts).max > 0 && AtRest(After(s, acts))
  {
    ReachedInv(init, before, s);
    acts := RunFor(s, Measure(s) + 1);
    QuietRun(s, acts);
    StarvedRun(s, acts);
    QuietRunLength(s, acts);
    RunInv(s, acts);
    QuietSleeperAtRest(After(s, acts));
  }
}
