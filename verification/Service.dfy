/** Progress under load: whatever the other threads do meanwhile, what is accepted now is
    written, delivered and durable within a bounded number of steps of the log thread. Steps
    in its wait are counted as well where nothing but a signal can wake it. */
module Service {
  import opened Records
  import opened Splitter
  import opened Fanout
  import opened Workers
  import opened Pipeline
  import opened Locking
  import opened Delivery
  import opened Queueing
  import opened Runs
  import opened Guarantees
  import S = Semaphores

  /** The steps that the log thread takes in a run; those in its wait only if `waits`. */
  ghost function Steps(s: State, acts: seq<Action>, waits: bool): nat
    requires Legal(s, acts)
    decreases acts
  {
    if acts == [] then 0
    else Counted(s, acts[0], waits) + Steps(Step(s, acts[0]), acts[1..], waits)
  }

  function Counted(s: State, a: Action, waits: bool): nat { if a.Log? && (waits || !InWait(s.w)) then 1 else 0 }

  /** Nothing wakes the log thread but a signal, and nobody else takes one. */
  ghost predicate Undisturbed(s: State, acts: seq<Action>) {
    s.callers.Keys == {} && forall i :: 0 <= i < |acts| ==> !acts[i].Spurious?
  }

  /** The steps of the sink loop for `k` records, with at most `n` sinks. */
  function Calls(k: int, n: nat): nat { if k <= 0 then 0 else k * (n + 2) }

  /** The steps left in this turn of the loop, with at most `n` sinks. */
  function TurnLeft(w: Worker, max: nat, n: nat): nat
    requires max > 0
  {
    match w.pc
    case ReadConfig => 6 + Calls(|SplitAll(w.batch, max)|, n)
    case WriteFiles => 5 + Calls(|w.recs|, n)
    case NextRecord(i) => 4 + Calls(|w.recs| - i, n)
    case CallSinks(i, j) => 5 + Calls(|w.recs| - i - 1, n) + if j < n then n - j else 0
    case CheckFlush => 3
    case FlushFiles => 2
    case CheckSleep => 1
    case _ => 0
  }

  /** The steps left to the end of the wait, the one in progress or that of this turn. */
  function WaitLeft(w: Worker, sem: S.Sem): nat {
    if w.pc.WaitSem? then (if sem.flag then 1 else 2)
    else if w.pc.Parked? then (if LOG in sem.waiters && sem.waiters[LOG].Notified? && !sem.flag then 2 else 1)
    else if w.pc.Drain? then 0
    else 2
  }

  /** The steps that count left before the log thread is back at the top of its loop. */
  function Left(s: State, n: nat, waits: bool): nat
    requires s.max > 0
  {
    TurnLeft(s.w, s.max, n) + if waits then WaitLeft(s.w, s.sem) else 0
  }

  lemma CallsAdd(a: nat, b: nat, n: nat)
    ensures Calls(a + b, n) == Calls(a, n) + Calls(b, n)
  {
    assert (a + b) * (n + 2) == a * (n + 2) + b * (n + 2);
  }

  // ----- One step -----

  lemma ActShortens(w: Worker, max: nat, io: Io, n: nat)
    requires max > 0 && WorkEnabled(w, max, io) && |w.out.sinks| <= n && !Failed(Work(w, max, io))
    ensures TurnLeft(Work(w, max, io), max, n) < TurnLeft(w, max, n)
  {
    if w.pc.NextRecord? && w.pc.i < |w.recs| {
      CallsAdd(1, |w.recs| - w.pc.i - 1, n);
    }
  }

  /** A turn gets shorter with every step of the log thread in it, and with no other. */
  lemma TurnShortens(w: Worker, max: nat, t: Turn, n: nat)
    requires max > 0 && CanTurn(w, max, t) && |w.out.sinks| <= n && !Failed(Turned(w, max, t)) && !t.Swap?
    ensures var left := TurnLeft(Turned(w, max, t), max, n);
      && left <= TurnLeft(w, max, n)
      && (t.Act? || t.TestFlush? || t.TestSleep? ==> left < TurnLeft(w, max, n))
  {
    if t.Act? {
      ActShortens(w, max, t.io, n);
    }
  }

  lemma StepShortens(s: State, a: Action, s': State, n: nat)
    requires Inv(s) && Enabled(s, a) && s' == Step(s, a)
    requires |s.w.out.sinks| <= n && !Failed(s'.w) && !(a.Log? && s.w.pc.Drain?)
    ensures s'.max == s.max
    ensures TurnLeft(s'.w, s.max, n) + (if a.Log? && !InWait(s.w) then 1 else 0) <= TurnLeft(s.w, s.max, n)
  {
    StepTurns(s, a);
    TurnShortens(s.w, s.max, TurnOf(s, a), n);
  }

  /** A wait takes at most two steps, since it is over after the next signal. */
  lemma LogShortensWait(s: State, io: Io, s': State)
    requires WaitsOk(s) && LogEnabled(s, io) && s' == LogStep(s, io) && !s.w.pc.Drain?
    ensures WaitLeft(s'.w, s'.sem) + (if InWait(s.w) then 1 else 0) <= WaitLeft(s.w, s.sem)
  {
    if !InWait(s.w) {
      LogTurns(s, io);
    }
  }

  lemma OthersKeepWait(s: State, a: Action, s': State)
    requires Enabled(s, a) && s' == Step(s, a) && !a.Log? && !a.Spurious? && s.callers.Keys == {}
    ensures WaitLeft(s'.w, s'.sem) <= WaitLeft(s.w, s.sem)
    ensures s'.callers.Keys == {}
  {
    assert forall t :: t in s.callers ==> t in s.callers.Keys;
  }

  lemma UndisturbedTail(s: State, acts: seq<Action>)
    requires Legal(s, acts) && acts != [] && Undisturbed(s, acts)
    ensures !acts[0].Spurious? && Undisturbed(Step(s, acts[0]), acts[1..])
  {
    if acts[0].Log? {
      OthersKeepCalls(s, acts[0]);
    } else {
      OthersKeepWait(s, acts[0], Step(s, acts[0]));
    }
  }

  lemma StepLess(s: State, a: Action, s': State, n: nat, waits: bool)
    requires Inv(s) && Enabled(s, a) && s' == Step(s, a)
    requires |s.w.out.sinks| <= n && !Failed(s'.w) && !(a.Log? && s.w.pc.Drain?)
    requires waits ==> s.callers.Keys == {} && !a.Spurious?
    ensures s'.max == s.max && Left(s', n, waits) + Counted(s, a, waits) <= Left(s, n, waits)
  {
    StepShortens(s, a, s', n);
    if waits {
      if a.Log? {
        LogShortensWait(s, a.io, s');
      } else {
        OthersKeepWait(s, a, s');
      }
    }
  }

  /** What only grows. */
  ghost predicate Grows(s: State, s': State) {
    && s'.max == s.max && Accepted(s) <= Accepted(s')
    && s.w.hist.drained <= s'.w.hist.drained && s.w.hist.flushed <= s'.w.hist.flushed
    && s.w.hist.written <= s'.w.hist.written && s.w.hist.delivered <= s'.w.hist.delivered
    && |s.w.out.sinks| <= |s'.w.out.sinks| && (Failed(s.w) ==> Failed(s'.w))
  }

  /** The same of the worker alone. */
  ghost predicate Advances(w: Worker, w': Worker) {
    && w.hist.drained <= w'.hist.drained && w.hist.flushed <= w'.hist.flushed
    && w.hist.delivered <= w'.hist.delivered
    && |w.out.sinks| <= |w'.out.sinks| && (Failed(w) ==> Failed(w'))
  }

  lemma ActAdvances(w: Worker, max: nat, io: Io)
    requires WorkEnabled(w, max, io) && w.hist.flushed <= |w.hist.drained|
    ensures Advances(w, Work(w, max, io))
  {
    if w.pc.WriteFiles? {
      WriteBatchReceived(w.out, w.recs, io.plan);
    }
  }

  lemma TurnAdvances(w: Worker, max: nat, t: Turn)
    requires CanTurn(w, max, t) && w.hist.flushed <= |w.hist.drained|
    ensures Advances(w, Turned(w, max, t))
  {
    if t.Act? {
      ActAdvances(w, max, t.io);
    }
  }

  lemma StepAdvances(s: State, a: Action, s': State)
    requires Inv(s) && Enabled(s, a) && s' == Step(s, a)
    ensures Grows(s, s')
  {
    StepTurns(s, a);
    StepGrows(s, a);
    TurnAdvances(s.w, s.max, TurnOf(s, a));
  }

  lemma GrowsTwice(s: State, s1: State, s2: State)
    requires Grows(s, s1) && Grows(s1, s2)
    ensures Grows(s, s2)
  {
    PrefixTransitive(Accepted(s), Accepted(s1), Accepted(s2));
    PrefixTransitive(s.w.hist.drained, s1.w.hist.drained, s2.w.hist.drained);
    PrefixTransitive(s.w.hist.written, s1.w.hist.written, s2.w.hist.written);
  }

  lemma {:induction false} RunGrows(s: State, acts: seq<Action>)
    requires Inv(s) && Legal(s, acts)
    ensures Grows(s, After(s, acts))
    decreases acts
  {
    if acts != [] {
      var s' := Step(s, acts[0]);
      StepInv(s, acts[0]);
      StepAdvances(s, acts[0], s');
      RunGrows(s', acts[1..]);
      GrowsTwice(s, s', After(s, acts));
    }
  }

  /** The first step of a run without failure, and what the rest starts from. */
  lemma First(s: State, acts: seq<Action>, e: State, waits: bool) returns (s': State)
    requires Inv(s) && Legal(s, acts) && e == After(s, acts) && acts != [] && !Failed(e.w)
    ensures Enabled(s, acts[0]) && s' == Step(s, acts[0]) && Inv(s') && Grows(s, s')
    ensures Legal(s', acts[1..]) && After(s', acts[1..]) == e
    ensures Grows(s', e) && Grows(s, e) && !Failed(s'.w) && !Failed(s.w)
    ensures Steps(s, acts, waits) == Counted(s, acts[0], waits) + Steps(s', acts[1..], waits)
  {
    s' := Step(s, acts[0]);
    StepInv(s, acts[0]);
    StepAdvances(s, acts[0], s');
    RunGrows(s', acts[1..]);
    GrowsTwice(s, s', e);
  }

  lemma DrainTakesAll(s: State, io: Io, s': State)
    requires Inv(s) && s.w.pc.Drain? && LogEnabled(s, io) && s' == LogStep(s, io)
    ensures s'.w.hist.drained == s.w.hist.drained + s.queue == Accepted(s) && s'.max == s.max
    ensures AfterDrain(s.w, s'.w, s.queue)
  {
  }

  /** The worker after a drain. */
  ghost predicate AfterDrain(w: Worker, w': Worker, queue: seq<LogData>) {
    && w.pc.Drain? && w.logged < 100 && w'.logged == w.logged + |queue| && w'.batch == queue
    && w'.pc == if queue == [] then CheckFlush else ReadConfig
  }

  lemma SplitPrefix(a: seq<LogData>, b: seq<LogData>, max: nat)
    requires max > 0 && a <= b
    ensures SplitAll(a, max) <= SplitAll(b, max)
  {
    SplitAllAppend(a, b[|a|..], max);
    assert b == a + b[|a|..];
  }

  /** What the first drain of the run takes out of the queue. */
  ghost function NextBatch(s: State, acts: seq<Action>): seq<LogData>
    requires Legal(s, acts)
    decreases acts
  {
    if acts == [] then []
    else if acts[0].Log? && s.w.pc.Drain? then s.queue
    else NextBatch(Step(s, acts[0]), acts[1..])
  }

  /** What is drained in the run up to the first flush that follows a drain. */
  ghost function UntilFlush(s: State, acts: seq<Action>, drained: bool): seq<LogData>
    requires Legal(s, acts)
    decreases acts
  {
    if acts == [] then []
    else if acts[0].Log? && s.w.pc.Drain? then s.queue + UntilFlush(Step(s, acts[0]), acts[1..], true)
    else if acts[0].Log? && s.w.pc.FlushFiles? && drained then []
    else UntilFlush(Step(s, acts[0]), acts[1..], drained)
  }

  /** These are among the entries drained in the run. */
  lemma {:induction false} UntilFlushDrained(s: State, acts: seq<Action>, e: State, drained: bool)
    requires Inv(s) && Legal(s, acts) && e == After(s, acts)
    ensures s.w.hist.drained + UntilFlush(s, acts, drained) <= e.w.hist.drained
    decreases acts
  {
    if UntilFlush(s, acts, drained) == [] {
      RunGrows(s, acts);
      assert s.w.hist.drained + [] == s.w.hist.drained;
    } else {
      var s' := DrainedStep(s, acts, e, drained);
      UntilFlushDrained(s', acts[1..], e, drained || (acts[0].Log? && s.w.pc.Drain?));
    }
  }

  lemma DrainedStep(s: State, acts: seq<Action>, e: State, drained: bool) returns (s': State)
    requires Inv(s) && Legal(s, acts) && e == After(s, acts) && UntilFlush(s, acts, drained) != []
    ensures acts != [] && Inv(s') && Legal(s', acts[1..]) && e == After(s', acts[1..])
    ensures s.w.hist.drained + UntilFlush(s, acts, drained)
         == s'.w.hist.drained + UntilFlush(s', acts[1..], drained || (acts[0].Log? && s.w.pc.Drain?))
  {
    s' := Step(s, acts[0]);
    StepInv(s, acts[0]);
    if acts[0].Log? && s.w.pc.Drain? {
      DrainTakesAll(s, acts[0].io, s');
      AppendAssoc(s.w.hist.drained, s.queue, UntilFlush(s', acts[1..], true));
    } else {
      StepKeepsDrained(s, acts[0], s');
    }
  }

  lemma {:induction false} NextBatchFirst(s: State, acts: seq<Action>)
    requires Legal(s, acts)
    ensures NextBatch(s, acts) <= UntilFlush(s, acts, false)
    decreases acts
  {
    if acts != [] && !(acts[0].Log? && s.w.pc.Drain?) {
      NextBatchFirst(Step(s, acts[0]), acts[1..]);
    }
  }

  lemma StepKeepsDrained(s: State, a: Action, s': State)
    requires Inv(s) && Enabled(s, a) && s' == Step(s, a) && !(a.Log? && s.w.pc.Drain?)
    ensures s'.w.hist.drained == s.w.hist.drained
  {
    StepTurns(s, a);
    TurnKeepsDrained(s.w, s.max, TurnOf(s, a));
  }

  /** The steps of a turn whose batch is `batch`. */
  function TurnOfBatch(batch: seq<LogData>, max: nat, n: nat): nat
    requires max > 0
  {
    6 + Calls(|SplitAll(batch, max)|, n)
  }

  /** The log thread has drained and not flushed since: it comes to no wait, and back to the
      top of the loop only over a queue that is not empty. */
  ghost predicate Unflushed(w: Worker, queue: seq<LogData>) {
    !InWait(w) && (w.pc.CheckSleep? || w.pc.Drain? ==> queue != [])
  }

  /** The steps to the next flush at most, with at most `n` sinks and `d` records drained
      before: this turn; the turns to come, each of which drains an entry; and the sink calls
      in these. */
  function FlushLeft(w: Worker, max: nat, n: nat, d: nat): nat
    requires max > 0
  {
    TurnLeft(w, max, n) + (if w.logged < 100 then 7 * (100 - w.logged) else 0) + Calls(d, n)
  }

  lemma DrainedLeft(w: Worker, w': Worker, max: nat, queue: seq<LogData>, rest: seq<LogData>, n: nat)
    requires max > 0 && AfterDrain(w, w', queue)
    ensures TurnLeft(w', max, n) <= TurnOfBatch(queue, max, n)
    ensures var left, d := FlushLeft(w', max, n, |SplitAll(rest, max)|), |SplitAll(queue + rest, max)|;
      && (queue != [] ==> left < FlushLeft(w, max, n, d))
      && left <= 706 + Calls(d, n)
  {
    SplitAllAppend(queue, rest, max);
    CallsAdd(|SplitAll(queue, max)|, |SplitAll(rest, max)|, n);
  }

  /** The first step of a run, if it is no drain: it brings the log thread nearer to the next. */
  lemma Toward(s: State, acts: seq<Action>, e: State, n: nat, waits: bool) returns (s': State)
    requires Inv(s) && Legal(s, acts) && e == After(s, acts) && acts != [] && !Failed(e.w) && |e.w.out.sinks| <= n
    requires (waits ==> Undisturbed(s, acts)) && !(acts[0].Log? && s.w.pc.Drain?)
    ensures Inv(s') && Legal(s', acts[1..]) && e == After(s', acts[1..])
    ensures s'.max == s.max && Accepted(s) <= Accepted(s') && (waits ==> Undisturbed(s', acts[1..]))
    ensures Left(s', n, waits) + Steps(s, acts, waits) <= Left(s, n, waits) + Steps(s', acts[1..], waits)
    ensures NextBatch(s', acts[1..]) == NextBatch(s, acts)
    ensures UntilFlush(s', acts[1..], false) == UntilFlush(s, acts, false)
  {
    s' := First(s, acts, e, waits);
    if waits {
      UndisturbedTail(s, acts);
    }
    StepLess(s, acts[0], s', n, waits);
  }

  lemma DrainedNow(s: State, acts: seq<Action>, s': State, n: nat)
    requires s.max > 0 && Legal(s, acts) && acts != [] && acts[0].Log? && s.w.pc.Drain? && s' == Step(s, acts[0])
    requires AfterDrain(s.w, s'.w, s.queue)
    ensures ToWrite(s'.w) <= 2 && Unflushed(s'.w, s'.queue)
    ensures TurnLeft(s'.w, s.max, n) <= TurnOfBatch(NextBatch(s, acts), s.max, n)
    ensures FlushLeft(s'.w, s.max, n, |SplitAll(UntilFlush(s', acts[1..], true), s.max)|)
         <= 706 + Calls(|SplitAll(UntilFlush(s, acts, false), s.max)|, n)
  {
    DrainedLeft(s.w, s'.w, s.max, s.queue, UntilFlush(s', acts[1..], true), n);
  }

  /** The first step of a run, if it is a drain: all that is accepted is in hand. */
  lemma DrainFirst(s: State, acts: seq<Action>, e: State, n: nat, waits: bool) returns (s': State)
    requires Inv(s) && Legal(s, acts) && e == After(s, acts) && acts != [] && !Failed(e.w)
    requires acts[0].Log? && s.w.pc.Drain?
    ensures Inv(s') && Legal(s', acts[1..]) && e == After(s', acts[1..])
    ensures s'.max == s.max && s'.w.hist.drained == Accepted(s) && Unflushed(s'.w, s'.queue)
    ensures Steps(s, acts, waits) == 1 + Steps(s', acts[1..], waits)
    ensures ToWrite(s'.w) <= 2
    ensures TurnLeft(s'.w, s.max, n) <= TurnOfBatch(NextBatch(s, acts), s.max, n)
    ensures FlushLeft(s'.w, s.max, n, |SplitAll(UntilFlush(s', acts[1..], true), s.max)|)
         <= 706 + Calls(|SplitAll(UntilFlush(s, acts, false), s.max)|, n)
  {
    s' := First(s, acts, e, waits);
    DrainTakesAll(s, acts[0].io, s');
    DrainedNow(s, acts, s', n);
  }

  // ----- Written -----

  /** The steps from a drain to the end of the batch write. */
  function ToWrite(w: Worker): nat { if w.pc.ReadConfig? then 2 else if w.pc.WriteFiles? then 1 else 0 }

  lemma TurnToWrite(w: Worker, max: nat, t: Turn)
    requires CanTurn(w, max, t) && ToWrite(w) > 0 && !Failed(Turned(w, max, t))
    ensures ToWrite(Turned(w, max, t)) == ToWrite(w) - if t.Act? then 1 else 0
  {
  }

  lemma StepToWrite(s: State, a: Action, s': State)
    requires Inv(s) && Enabled(s, a) && s' == Step(s, a) && ToWrite(s.w) > 0 && !Failed(s'.w)
    ensures ToWrite(s'.w) == ToWrite(s.w) - if a.Log? then 1 else 0
  {
    StepTurns(s, a);
    TurnToWrite(s.w, s.max, TurnOf(s, a));
  }

  lemma WrittenNow(w: Worker, max: nat, a: seq<LogData>)
    requires StreamOk(w, max) && !Failed(w) && ToWrite(w) == 0 && a <= w.hist.drained
    ensures SplitAll(a, max) <= w.hist.written
  {
    assert w.hist.written + [] == w.hist.written;
    SplitPrefix(a, w.hist.drained, max);
  }

  /** Entries that were drained are written after two more steps. */
  lemma {:induction false} WrittenAfterDrain(s: State, acts: seq<Action>, e: State, a: seq<LogData>, waits: bool)
    requires Inv(s) && Legal(s, acts) && e == After(s, acts) && !Failed(e.w)
    requires a <= s.w.hist.drained && Steps(s, acts, waits) >= ToWrite(s.w)
    ensures SplitAll(a, s.max) <= e.w.hist.written
    decreases acts
  {
    if ToWrite(s.w) == 0 {
      RunGrows(s, acts);
      WrittenNow(s.w, s.max, a);
      PrefixTransitive(SplitAll(a, s.max), s.w.hist.written, e.w.hist.written);
    } else {
      var s' := First(s, acts, e, waits);
      StepToWrite(s, acts[0], s');
      PrefixTransitive(a, s.w.hist.drained, s'.w.hist.drained);
      WrittenAfterDrain(s', acts[1..], e, a, waits);
    }
  }

  lemma {:induction false} WrittenWithin(s: State, acts: seq<Action>, e: State, a: seq<LogData>, n: nat, waits: bool)
    requires Inv(s) && Legal(s, acts) && e == After(s, acts) && !Failed(e.w) && |e.w.out.sinks| <= n
    requires waits ==> Undisturbed(s, acts)
    requires a <= Accepted(s) && Steps(s, acts, waits) >= Left(s, n, waits) + 3
    ensures SplitAll(a, s.max) <= e.w.hist.written
    decreases acts
  {
    if acts[0].Log? && s.w.pc.Drain? {
      var s' := DrainFirst(s, acts, e, n, waits);
      WrittenAfterDrain(s', acts[1..], e, a, waits);
    } else {
      var s' := Toward(s, acts, e, n, waits);
      PrefixTransitive(a, Accepted(s), Accepted(s'));
      WrittenWithin(s', acts[1..], e, a, n, waits);
    }
  }

  /** From any state of any run: whatever the others do, as long as nothing fails, all that is
      accepted now is in the global file once the log thread finished its turn and took three
      more steps. Steps in its wait count too if nothing disturbs the wait. */
  lemma WrittenSoon(init: State, before: seq<Action>, s: State, acts: seq<Action>, waits: bool)
    requires Reached(init, before, s) && Legal(s, acts) && !Failed(After(s, acts).w) && s.max > 0
    requires waits ==> Undisturbed(s, acts)
    requires Steps(s, acts, waits) >= Left(s, |After(s, acts).w.out.sinks|, waits) + 3
    ensures SplitAll(Accepted(s), s.max) <= After(s, acts).w.hist.written
  {
    ReachedInv(init, before, s);
    WrittenWithin(s, acts, After(s, acts), Accepted(s), |After(s, acts).w.out.sinks|, waits);
  }

  // ----- Delivered -----

  /** Between two turns the sinks have all records of the entries drained. */
  lemma DeliveredNow(w: Worker, max: nat, n: nat, a: seq<LogData>)
    requires StreamOk(w, max) && SinksOk(w) && !Failed(w) && TurnLeft(w, max, n) == 0 && a <= w.hist.drained
    ensures |SplitAll(a, max)| <= w.hist.delivered
  {
    WrittenNow(w, max, a);
  }

  /** Entries that were drained are delivered at the end of the turn. */
  lemma {:induction false} DeliveredAfterDrain(
    s: State, acts: seq<Action>, e: State, a: seq<LogData>, n: nat, waits: bool)
    requires Inv(s) && Legal(s, acts) && e == After(s, acts) && !Failed(e.w) && |e.w.out.sinks| <= n
    requires a <= s.w.hist.drained && Steps(s, acts, waits) >= TurnLeft(s.w, s.max, n)
    ensures |SplitAll(a, s.max)| <= e.w.hist.delivered
    decreases acts
  {
    RunGrows(s, acts);
    if TurnLeft(s.w, s.max, n) == 0 {
      DeliveredNow(s.w, s.max, n, a);
    } else {
      var s' := First(s, acts, e, waits);
      StepShortens(s, acts[0], s', n);
      PrefixTransitive(a, s.w.hist.drained, s'.w.hist.drained);
      DeliveredAfterDrain(s', acts[1..], e, a, n, waits);
    }
  }

  lemma {:induction false} DeliveredWithin(
    s: State, acts: seq<Action>, e: State, a: seq<LogData>, n: nat, waits: bool)
    requires Inv(s) && Legal(s, acts) && e == After(s, acts) && !Failed(e.w) && |e.w.out.sinks| <= n
    requires waits ==> Undisturbed(s, acts)
    requires a <= Accepted(s)
    requires Steps(s, acts, waits) > Left(s, n, waits) + TurnOfBatch(NextBatch(s, acts), s.max, n)
    ensures |SplitAll(a, s.max)| <= e.w.hist.delivered
    decreases acts
  {
    if acts[0].Log? && s.w.pc.Drain? {
      var s' := DrainFirst(s, acts, e, n, waits);
      DeliveredAfterDrain(s', acts[1..], e, a, n, waits);
    } else {
      var s' := Toward(s, acts, e, n, waits);
      PrefixTransitive(a, Accepted(s), Accepted(s'));
      DeliveredWithin(s', acts[1..], e, a, n, waits);
    }
  }

  lemma SinkServed(w: Worker, m: nat, j: nat)
    requires SinksOk(w) && !Failed(w) && m <= w.hist.delivered && j < |w.out.sinks|
    ensures j < |w.hist.sinkSince| && w.hist.sinkSince[j] <= Seen(w.hist, j) <= |w.hist.written| && m <= Seen(w.hist, j)
    ensures w.out.sinks[j] == w.hist.written[w.hist.sinkSince[j]..Seen(w.hist, j)]
  {
    SinkReads(w, j);
  }

  /** All that is accepted now is delivered to every sink within the turn in progress and the
      next, whatever comes later: each sink holds the written records from its registration
      on, these included. */
  lemma DeliveredSoon(init: State, before: seq<Action>, s: State, acts: seq<Action>, j: nat, waits: bool)
    requires Reached(init, before, s) && Legal(s, acts) && !Failed(After(s, acts).w) && s.max > 0
    requires waits ==> Undisturbed(s, acts)
    requires var n := |After(s, acts).w.out.sinks|;
      j < n && Steps(s, acts, waits) > Left(s, n, waits) + TurnOfBatch(NextBatch(s, acts), s.max, n)
    ensures var h := After(s, acts).w.hist;
      && j < |h.sinkSince| && h.sinkSince[j] <= Seen(h, j) <= |h.written|
      && After(s, acts).w.out.sinks[j] == h.written[h.sinkSince[j]..Seen(h, j)]
      && |SplitAll(Accepted(s), s.max)| <= Seen(h, j)
  {
    ReachedInv(init, before, s);
    var e := After(s, acts);
    RunInv(s, acts);
    DeliveredWithin(s, acts, e, Accepted(s), |e.w.out.sinks|, waits);
    SinkServed(e.w, |SplitAll(Accepted(s), s.max)|, j);
  }

  // ----- Durable -----

  /** The log thread's other turns keep what it logged and drained, but for the flush. */
  lemma TurnKeepsLogged(w: Worker, max: nat, t: Turn)
    requires CanTurn(w, max, t) && !t.Swap? && !(t.Act? && w.pc.FlushFiles?)
    ensures Turned(w, max, t).logged == w.logged && Turned(w, max, t).hist.drained == w.hist.drained
  {
  }

  lemma WorkNearsFlush(s: State, a: Action, s': State, n: nat, d: nat)
    requires Inv(s) && Enabled(s, a) && s' == Step(s, a) && Unflushed(s.w, s.queue) && !Failed(s'.w)
    requires |s.w.out.sinks| <= n && !(a.Log? && (s.w.pc.FlushFiles? || s.w.pc.Drain?))
    ensures s'.max == s.max && Unflushed(s'.w, s'.queue)
    ensures FlushLeft(s'.w, s.max, n, d) + (if a.Log? then 1 else 0) <= FlushLeft(s.w, s.max, n, d)
  {
    StepShortens(s, a, s', n);
    StaysUnflushed(s, a, s');
    ShorterLeft(s.w, s'.w, s.max, n, d, if a.Log? then 1 else 0);
  }

  lemma ShorterLeft(w: Worker, w': Worker, max: nat, n: nat, d: nat, k: nat)
    requires max > 0 && w'.logged == w.logged && w'.hist.drained == w.hist.drained
    requires TurnLeft(w', max, n) + k <= TurnLeft(w, max, n)
    ensures FlushLeft(w', max, n, d) + k <= FlushLeft(w, max, n, d)
  {
  }

  lemma TurnStaysUnflushed(w: Worker, max: nat, t: Turn, queue: seq<LogData>)
    requires CanTurn(w, max, t) && !t.Swap? && !(t.Act? && w.pc.FlushFiles?) && Unflushed(w, queue)
    requires t.TestFlush? || t.TestSleep? ==> t.queue == queue
    ensures Unflushed(Turned(w, max, t), queue)
  {
  }

  lemma StaysUnflushed(s: State, a: Action, s': State)
    requires Inv(s) && Enabled(s, a) && s' == Step(s, a) && Unflushed(s.w, s.queue)
    requires !(a.Log? && (s.w.pc.Drain? || s.w.pc.FlushFiles?))
    ensures Unflushed(s'.w, s'.queue)
    ensures s'.w.logged == s.w.logged && s'.w.hist.drained == s.w.hist.drained
  {
    StepTurns(s, a);
    TurnKeepsLogged(s.w, s.max, TurnOf(s, a));
    TurnStaysUnflushed(s.w, s.max, TurnOf(s, a), s.queue);
    KeepsQueued(s, a, s');
  }

  lemma KeepsQueued(s: State, a: Action, s': State)
    requires Enabled(s, a) && s' == Step(s, a) && !(a.Log? && s.w.pc.Drain?)
    ensures s.queue <= s'.queue
  {
  }

  lemma FlushCatchesUp(s: State, io: Io, s': State)
    requires Inv(s) && s.w.pc.FlushFiles? && LogEnabled(s, io) && s' == LogStep(s, io) && !Failed(s'.w)
    ensures s'.w.hist.flushed == |s.w.hist.drained|
  {
  }

  /** The first step of a run after a drain, if it is no flush: it brings the flush nearer. */
  lemma TowardFlush(s: State, acts: seq<Action>, e: State, n: nat, waits: bool) returns (s': State)
    requires Inv(s) && Legal(s, acts) && e == After(s, acts) && acts != [] && !Failed(e.w) && |e.w.out.sinks| <= n
    requires Unflushed(s.w, s.queue) && !(acts[0].Log? && s.w.pc.FlushFiles?)
    ensures Inv(s') && Legal(s', acts[1..]) && e == After(s', acts[1..])
    ensures s'.max == s.max && Unflushed(s'.w, s'.queue) && |s.w.hist.drained| <= |s'.w.hist.drained|
    ensures var d, d' := |SplitAll(UntilFlush(s, acts, true), s.max)|, |SplitAll(UntilFlush(s', acts[1..], true), s.max)|;
      FlushLeft(s'.w, s.max, n, d') + Steps(s, acts, waits) <= FlushLeft(s.w, s.max, n, d) + Steps(s', acts[1..], waits)
  {
    s' := First(s, acts, e, waits);
    if acts[0].Log? && s.w.pc.Drain? {
      DrainTakesAll(s, acts[0].io, s');
      DrainedLeft(s.w, s'.w, s.max, s.queue, UntilFlush(s', acts[1..], true), n);
    } else {
      WorkNearsFlush(s, acts[0], s', n, |SplitAll(UntilFlush(s, acts, true), s.max)|);
    }
  }

  /** Entries that were drained, at least `k`, are flushed. */
  lemma {:induction false} FlushedAfterDrain(s: State, acts: seq<Action>, e: State, k: nat, n: nat, waits: bool)
    requires Inv(s) && Legal(s, acts) && e == After(s, acts) && !Failed(e.w) && |e.w.out.sinks| <= n
    requires Unflushed(s.w, s.queue) && k <= |s.w.hist.drained|
    requires Steps(s, acts, waits) > FlushLeft(s.w, s.max, n, |SplitAll(UntilFlush(s, acts, true), s.max)|)
    ensures k <= e.w.hist.flushed
    decreases acts
  {
    if acts[0].Log? && s.w.pc.FlushFiles? {
      var s' := First(s, acts, e, waits);
      FlushCatchesUp(s, acts[0].io, s');
    } else {
      var s' := TowardFlush(s, acts, e, n, waits);
      FlushedAfterDrain(s', acts[1..], e, k, n, waits);
    }
  }

  lemma {:induction false} FlushedWithin(s: State, acts: seq<Action>, e: State, k: nat, n: nat, waits: bool)
    requires Inv(s) && Legal(s, acts) && e == After(s, acts) && !Failed(e.w) && |e.w.out.sinks| <= n
    requires (waits ==> Undisturbed(s, acts)) && k <= |Accepted(s)|
    requires Steps(s, acts, waits) > Left(s, n, waits) + 707 + Calls(|SplitAll(UntilFlush(s, acts, false), s.max)|, n)
    ensures k <= e.w.hist.flushed
    decreases acts
  {
    if acts[0].Log? && s.w.pc.Drain? {
      var s' := DrainFirst(s, acts, e, n, waits);
      FlushedAfterDrain(s', acts[1..], e, k, n, waits);
    } else {
      var s' := Toward(s, acts, e, n, waits);
      FlushedWithin(s', acts[1..], e, k, n, waits);
    }
  }

  lemma FlushedIsDurable(w: Worker, max: nat, a: seq<LogData>)
    requires ExposureOk(w, max) && a <= w.hist.drained && |a| <= w.hist.flushed
    ensures Render(Body, SplitAll(a, max)) <= w.out.global.durable
  {
    var flushed := w.hist.drained[..w.hist.flushed];
    var rest := flushed[|a|..];
    assert flushed == a + rest;
    SplitAllAppend(a, rest, max);
    RenderAppend(Body, SplitAll(a, max), SplitAll(rest, max));
    PrefixTransitive(Render(Body, SplitAll(a, max)), Render(Body, SplitAll(flushed, max)), w.out.global.durable);
  }

  lemma FlushedInContexts(w: Worker, max: nat, a: seq<LogData>)
    requires ContextsHold(w, max) && a <= w.hist.drained && |a| <= w.hist.flushed
    ensures |SplitAll(a, max)| <= |w.hist.complete|
    ensures forall tag :: tag in w.hist.since ==> ContextHolds(w, |SplitAll(a, max)|, tag)
  {
    var n := FlushedCount(w.hist, max);
    SplitPrefix(a, w.hist.drained[..w.hist.flushed], max);
    forall tag | tag in w.hist.since ensures ContextHolds(w, |SplitAll(a, max)|, tag) {
      ContextHoldsLess(w, |SplitAll(a, max)|, n, tag);
    }
  }

  /** And all that is accepted now is durable within a number of steps that depends only on
      the turn in progress, the number of sinks, and what is drained up to that flush: however
      the others keep the queue filled, a flush comes. It is durable in the global file, and in
      the file of each context from its registration on. */
  lemma DurableSoon(init: State, before: seq<Action>, s: State, acts: seq<Action>, waits: bool)
    requires Reached(init, before, s) && Legal(s, acts) && !Failed(After(s, acts).w) && s.max > 0
    requires waits ==> Undisturbed(s, acts)
    requires var n := |After(s, acts).w.out.sinks|;
      Steps(s, acts, waits) > Left(s, n, waits) + 707 + Calls(|SplitAll(UntilFlush(s, acts, false), s.max)|, n)
    ensures Render(Body, SplitAll(Accepted(s), s.max)) <= After(s, acts).w.out.global.durable
    ensures var w, m := After(s, acts).w, |SplitAll(Accepted(s), s.max)|;
      m <= |w.hist.complete| && forall tag :: tag in w.hist.since ==> ContextHolds(w, m, tag)
  {
    ReachedInv(init, before, s);
    var e := After(s, acts);
    RunInv(s, acts);
    RunGrows(s, acts);
    FlushedWithin(s, acts, e, |Accepted(s)|, |e.w.out.sinks|, waits);
    assert Accepted(s) <= e.w.hist.drained;
    FlushedIsDurable(e.w, e.max, Accepted(s));
    FlushedInContexts(e.w, e.max, Accepted(s));
  }
}
