/** What a failing write, sink or flush does: exactly these stop the log thread, and then it
    flushes and reports the error (`src/logger/logger_thread_ctx.rs:157-175`). */
module Failures {
  import opened Records
  import opened Splitter
  import opened Fanout
  import opened Workers
  import opened Pipeline
  import opened Locking
  import opened Delivery
  import opened Queueing
  import opened Runs
  import opened Guarantees
  import opened Progress
  import opened Quiescence

  // ----- What stops the log thread -----

  /** The step of the log thread meets a failing write, a failing sink, or a failing flush. */
  ghost predicate Faulty(w: Worker, io: Io) {
    match w.pc
    case WriteFiles => exists i :: 0 <= i < |w.recs| && Fails(w.out.contexts.Keys, w.recs[i], At(io.plan, i))
    case CallSinks(_, j) => j < |w.out.sinks| && !io.sinkOk
    case FlushFiles => io.flush.failAt <= |io.flush.order|
    case _ => false
  }

  /** Some step of the run does. */
  ghost predicate Meets(s: State, acts: seq<Action>)
    requires Legal(s, acts)
    decreases acts
  {
    acts != [] && ((acts[0].Log? && Faulty(s.w, acts[0].io)) || Meets(Step(s, acts[0]), acts[1..]))
  }

  lemma ActFails(w: Worker, max: nat, io: Io)
    requires WorkEnabled(w, max, io) && !Failed(w)
    ensures Failed(Work(w, max, io)) <==> Faulty(w, io)
    ensures Failed(Work(w, max, io)) ==> Work(w, max, io).pc.ErrFlush?
  {
    if w.pc.WriteFiles? {
      WriteBatchExactly(w.out, w.recs, io.plan);
      var n := WriteBatch(w.out, w.recs, io.plan).complete;
      assert n < |w.recs| ==> Fails(w.out.contexts.Keys, w.recs[n], At(io.plan, n));
    } else if w.pc.FlushFiles? {
      FlushKeepsTexts(w.out, io.flush);
    }
  }

  lemma TurnFails(w: Worker, max: nat, t: Turn)
    requires CanTurn(w, max, t) && !Failed(w)
    ensures Failed(Turned(w, max, t)) <==> t.Act? && Faulty(w, t.io)
    ensures Failed(Turned(w, max, t)) ==> Turned(w, max, t).pc.ErrFlush?
  {
    if t.Act? {
      ActFails(w, max, t.io);
    }
  }

  lemma StepFails(s: State, a: Action, s': State)
    requires Inv(s) && Enabled(s, a) && s' == Step(s, a) && !Failed(s.w)
    ensures Failed(s'.w) <==> a.Log? && Faulty(s.w, a.io)
    ensures Failed(s'.w) ==> s'.w.pc.ErrFlush?
  {
    StepTurns(s, a);
    TurnFails(s.w, s.max, TurnOf(s, a));
  }

  /** The log thread stops in a run exactly if some step meets a failure. */
  lemma {:induction false} FailsExactly(s: State, acts: seq<Action>)
    requires Inv(s) && Legal(s, acts) && !Failed(s.w)
    ensures Failed(After(s, acts).w) <==> Meets(s, acts)
    decreases acts
  {
    if acts != [] {
      var s' := Step(s, acts[0]);
      StepInv(s, acts[0]);
      StepFails(s, acts[0], s');
      if Failed(s'.w) {
        FailureIsFinal(s', acts[1..]);
      } else {
        FailsExactly(s', acts[1..]);
      }
    }
  }

  lemma StopsExactly(init: State, acts: seq<Action>, s: State)
    requires Reached(init, acts, s)
    ensures Failed(s.w) <==> Meets(init, acts)
  {
    InitInv(init);
    FailsExactly(init, acts);
  }

  // ----- The sinks after a failure -----

  /** What the sinks got from the batches, and which sinks there were, stay. */
  ghost predicate SinksStop(w: Worker, w': Worker) {
    && w'.hist.written == w.hist.written && w'.hist.delivered == w.hist.delivered && w'.hist.ahead == w.hist.ahead
    && w.hist.sinkSince <= w'.hist.sinkSince && Failed(w')
  }

  lemma TurnStops(w: Worker, max: nat, t: Turn)
    requires Failed(w) && CanTurn(w, max, t)
    ensures SinksStop(w, Turned(w, max, t))
  {
  }

  lemma {:induction false} RunStops(s: State, acts: seq<Action>)
    requires Inv(s) && Failed(s.w) && Legal(s, acts)
    ensures SinksStop(s.w, After(s, acts).w)
    decreases acts
  {
    if acts != [] {
      StepInv(s, acts[0]);
      StepTurns(s, acts[0]);
      TurnStops(s.w, s.max, TurnOf(s, acts[0]));
      RunStops(Step(s, acts[0]), acts[1..]);
      PrefixTransitive(s.w.hist.sinkSince, Step(s, acts[0]).w.hist.sinkSince, After(s, acts).w.hist.sinkSince);
    }
  }

  /** From a failure on, a sink gets the error record at most. */
  lemma SinkAfterFailure(w: Worker, e: Worker, k: nat)
    requires SinksOk(w) && SinksOk(e) && w.pc.ErrFlush? && SinksStop(w, e) && k < |w.out.sinks|
    ensures k < |e.out.sinks| && (k < e.hist.errSinks ==> e.hist.err.Some?)
    ensures e.out.sinks[k] == w.out.sinks[k] + if k < e.hist.errSinks then [e.hist.err.value] else []
  {
    assert SinkShows(w, k) && SinkShows(e, k);
  }

  lemma SinksAfterFailure(w: Worker, e: Worker)
    requires SinksOk(w) && SinksOk(e) && w.pc.ErrFlush? && SinksStop(w, e)
    ensures |w.out.sinks| <= |e.out.sinks|
    ensures forall k :: 0 <= k < |w.out.sinks| ==>
      e.out.sinks[k] == w.out.sinks[k] + if k < e.hist.errSinks && e.hist.err.Some? then [e.hist.err.value] else []
  {
    forall k | 0 <= k < |w.out.sinks|
      ensures e.out.sinks[k] == w.out.sinks[k] + if k < e.hist.errSinks && e.hist.err.Some? then [e.hist.err.value] else []
    {
      SinkAfterFailure(w, e, k);
    }
  }

  /** A sink that returns an error has been called with the record, and stops the log thread:
      no later sink is called with that record, or with another one, ever after, but perhaps
      with the error record. */
  lemma SinkFailureStops(
    init: State, before: seq<Action>, s: State, io: Io, s': State, acts: seq<Action>, e: State)
    requires Reached(init, before, s) && s.w.pc.CallSinks? && s.w.pc.j < |s.w.out.sinks| && !io.sinkOk
    requires Enabled(s, Log(io)) && s' == Step(s, Log(io)) && Legal(s', acts) && e == After(s', acts)
    ensures Failed(e.w) && s.w.pc.i < |s.w.recs| && |s.w.out.sinks| <= |e.w.out.sinks|
    ensures forall k :: 0 <= k < |s.w.out.sinks| ==>
      e.w.out.sinks[k] == s.w.out.sinks[k] + (if k == s.w.pc.j then [s.w.recs[s.w.pc.i]] else [])
                          + if k < e.w.hist.errSinks && e.w.hist.err.Some? then [e.w.hist.err.value] else []
  {
    ReachedInv(init, before, s);
    FailedCallRuns(s, io, s', acts, e);
    FailedCall(s.w, io, e.w);
  }

  lemma FailedCallRuns(s: State, io: Io, s': State, acts: seq<Action>, e: State)
    requires Inv(s) && s.w.pc.CallSinks? && s.w.pc.j < |s.w.out.sinks| && !io.sinkOk
    requires Enabled(s, Log(io)) && s' == Step(s, Log(io)) && Legal(s', acts) && e == After(s', acts)
    ensures s.w.pc.i < |s.w.recs| && SinksOk(s.w) && SinksOk(SinkCalled(s.w, io)) && SinksOk(e.w)
    ensures SinksStop(SinkCalled(s.w, io), e.w)
  {
    StepInv(s, Log(io));
    CalledSink(s, io, s');
    SinkFails(s.w, io);
    RunStops(s', acts);
    RunInv(s', acts);
  }

  lemma FailedCall(w: Worker, io: Io, e: Worker)
    requires SinksOk(w) && w.pc.CallSinks? && w.pc.i < |w.recs| && w.pc.j < |w.out.sinks| && !io.sinkOk
    requires SinksOk(SinkCalled(w, io)) && SinksOk(e) && SinksStop(SinkCalled(w, io), e)
    ensures |w.out.sinks| <= |e.out.sinks|
    ensures forall k :: 0 <= k < |w.out.sinks| ==>
      e.out.sinks[k] == w.out.sinks[k] + (if k == w.pc.j then [w.recs[w.pc.i]] else [])
                        + if k < e.hist.errSinks && e.hist.err.Some? then [e.hist.err.value] else []
  {
    SinkFails(w, io);
    SinksAfterFailure(SinkCalled(w, io), e);
    AppendEmpty(w.out.sinks);
  }

  lemma CalledSink(s: State, io: Io, s': State)
    requires s.w.pc.CallSinks? && LogEnabled(s, io) && s' == LogStep(s, io)
    ensures s.w.pc.i < |s.w.recs| && s.w.pc.j <= |s.w.out.sinks| && s'.w == SinkCalled(s.w, io)
  {
  }

  lemma AppendEmpty<T>(ss: seq<seq<T>>)
    ensures forall k :: 0 <= k < |ss| ==> ss[k] + [] == ss[k]
  {
  }

  lemma SinkFails(w: Worker, io: Io)
    requires SinksOk(w) && w.pc.CallSinks? && w.pc.j < |w.out.sinks| && !io.sinkOk
    ensures SinkCalled(w, io).pc.ErrFlush?
    ensures SinkCalled(w, io).out.sinks == w.out.sinks[w.pc.j := w.out.sinks[w.pc.j] + [w.recs[w.pc.i]]]
  {
  }

  // ----- The error report -----

  /** The step meets a failing write of the error record, or a failing sink. */
  ghost predicate ReportFaulty(w: Worker, io: Io) {
    match w.pc
    case ErrWrite => Fails(w.out.contexts.Keys, io.error, At(io.plan, 0))
    case ErrSinks(j) => j < |w.out.sinks| && !io.sinkOk
    case _ => false
  }

  ghost predicate ReportMeets(s: State, acts: seq<Action>)
    requires Legal(s, acts)
    decreases acts
  {
    acts != [] && ((acts[0].Log? && ReportFaulty(s.w, acts[0].io)) || ReportMeets(Step(s, acts[0]), acts[1..]))
  }

  /** The steps left of the report, with at most `n` sinks. */
  function ReportLeft(w: Worker, n: nat): nat {
    match w.pc
    case ErrFlush => n + 4
    case ErrWrite => n + 3
    case ErrRead => n + 2
    case ErrSinks(j) => if j <= n then n - j + 1 else 1
    case _ => 0
  }

  /** The report is under way or done: the error record is in the files that take it, and at
      the end at least `m` sinks have it. */
  ghost predicate OnTrack(w: Worker, m: nat) {
    && Failed(w)
    && (w.pc.ErrRead? || w.pc.ErrSinks? || w.pc.Dead? ==>
          w.hist.err.Some? && w.hist.complete != [] && w.hist.complete[|w.hist.complete| - 1] == w.hist.err.value)
    && (w.pc.Dead? ==> m <= w.hist.errSinks)
  }

  lemma ActOnTrack(w: Worker, max: nat, io: Io, m: nat, n: nat)
    requires OnTrack(w, m) && SinksOk(w) && m <= |w.out.sinks| <= n && WorkEnabled(w, max, io) && !ReportFaulty(w, io)
    ensures OnTrack(Work(w, max, io), m) && ReportLeft(Work(w, max, io), n) < ReportLeft(w, n)
  {
    if w.pc.ErrWrite? {
      WriteRecordExactly(w.out, io.error, At(io.plan, 0));
    }
  }

  lemma TurnOnTrack(w: Worker, max: nat, t: Turn, m: nat, n: nat)
    requires OnTrack(w, m) && SinksOk(w) && m <= |w.out.sinks| <= n && CanTurn(w, max, t)
    requires t.Act? ==> !ReportFaulty(w, t.io)
    ensures OnTrack(Turned(w, max, t), m)
    ensures ReportLeft(Turned(w, max, t), n) + (if t.Act? then 1 else 0) <= ReportLeft(w, n)
    ensures |w.out.sinks| <= |Turned(w, max, t).out.sinks|
  {
    if t.Act? {
      ActOnTrack(w, max, t.io, m, n);
      ActKeepsSinkCount(w, max, t.io);
    }
  }

  lemma ActKeepsSinkCount(w: Worker, max: nat, io: Io)
    requires WorkEnabled(w, max, io) && Failed(w)
    ensures |Work(w, max, io).out.sinks| == |w.out.sinks|
  {
  }

  function LogSteps(acts: seq<Action>): nat {
    if acts == [] then 0 else (if acts[0].Log? then 1 else 0) + LogSteps(acts[1..])
  }

  lemma StepOnTrack(s: State, a: Action, s': State, m: nat, n: nat)
    requires Inv(s) && Enabled(s, a) && s' == Step(s, a) && OnTrack(s.w, m) && m <= |s.w.out.sinks| <= n
    requires !(a.Log? && ReportFaulty(s.w, a.io))
    ensures OnTrack(s'.w, m) && |s.w.out.sinks| <= |s'.w.out.sinks|
    ensures ReportLeft(s'.w, n) + (if a.Log? then 1 else 0) <= ReportLeft(s.w, n)
  {
    StepTurns(s, a);
    TurnOnTrack(s.w, s.max, TurnOf(s, a), m, n);
  }

  lemma {:induction false} RunOnTrack(s: State, acts: seq<Action>, e: State, m: nat, n: nat)
    requires Inv(s) && Legal(s, acts) && e == After(s, acts) && !ReportMeets(s, acts)
    requires OnTrack(s.w, m) && m <= |s.w.out.sinks| && |e.w.out.sinks| <= n
    ensures OnTrack(e.w, m) && ReportLeft(e.w, n) + LogSteps(acts) <= ReportLeft(s.w, n)
    decreases acts
  {
    if acts != [] {
      var s' := Step(s, acts[0]);
      StepInv(s, acts[0]);
      SinksOnlyGrow(s', acts[1..]);
      SinksOnlyGrow(s, acts);
      StepOnTrack(s, acts[0], s', m, n);
      RunOnTrack(s', acts[1..], e, m, n);
    }
  }

  lemma SinksOnlyGrow(s: State, acts: seq<Action>)
    requires Inv(s) && Legal(s, acts)
    ensures |s.w.out.sinks| <= |After(s, acts).w.out.sinks|
  {
    SinksStayRegistered(s, acts);
    RunInv(s, acts);
  }

  /** The log thread has just stopped on an error. As long as the report itself meets no
      failure, it is over after at most four steps of the log thread and one for each sink;
      and when it is over the global file reads as the records written and one error record,
      the complete records end with it, and each sink got it after all it had. */
  lemma ErrorReported(init: State, before: seq<Action>, s: State, acts: seq<Action>, e: State)
    requires Reached(init, before, s) && s.w.pc.ErrFlush?
    requires Legal(s, acts) && e == After(s, acts) && !ReportMeets(s, acts)
    ensures LogSteps(acts) + ReportLeft(e.w, |e.w.out.sinks|) <= |e.w.out.sinks| + 4
    ensures e.w.pc.Dead? || ReportLeft(e.w, |e.w.out.sinks|) > 0
    ensures e.w.pc.Dead? ==> Reports(s.w, e.w)
  {
    ReportReached(init, before, s, acts, e);
    if e.w.pc.Dead? {
      ReportIsOut(s.w, e.w, e.max);
    }
  }

  lemma ReportReached(init: State, before: seq<Action>, s: State, acts: seq<Action>, e: State)
    requires Reached(init, before, s) && s.w.pc.ErrFlush?
    requires Legal(s, acts) && e == After(s, acts) && !ReportMeets(s, acts)
    ensures LogSteps(acts) + ReportLeft(e.w, |e.w.out.sinks|) <= |e.w.out.sinks| + 4
    ensures OnTrack(e.w, |s.w.out.sinks|) && SinksStop(s.w, e.w)
    ensures SinksOk(s.w) && StreamOk(e.w, e.max) && SinksOk(e.w) && TextsOk(e.w)
  {
    ReachedInv(init, before, s);
    ReportCourse(s, acts, e);
  }

  lemma ReportCourse(s: State, acts: seq<Action>, e: State)
    requires Inv(s) && s.w.pc.ErrFlush? && Legal(s, acts) && e == After(s, acts) && !ReportMeets(s, acts)
    ensures LogSteps(acts) + ReportLeft(e.w, |e.w.out.sinks|) <= |e.w.out.sinks| + 4
    ensures OnTrack(e.w, |s.w.out.sinks|) && SinksStop(s.w, e.w)
    ensures StreamOk(e.w, e.max) && SinksOk(e.w) && TextsOk(e.w)
  {
    RunInv(s, acts);
    SinksOnlyGrow(s, acts);
    RunOnTrack(s, acts, e, |s.w.out.sinks|, |e.w.out.sinks|);
    RunStops(s, acts);
  }

  /** `e` has one error record more than `w`, in the file and in every sink of `w`. */
  ghost predicate Reports(w: Worker, e: Worker) {
    && e.hist.err.Some? && IsErrorRecord(e.hist.err.value)
    && e.out.global.Text() == Render(Body, w.hist.written + [e.hist.err.value])
    && e.hist.complete != [] && e.hist.complete[|e.hist.complete| - 1] == e.hist.err.value
    && |w.out.sinks| <= |e.out.sinks|
    && forall k :: 0 <= k < |w.out.sinks| ==> e.out.sinks[k] == w.out.sinks[k] + [e.hist.err.value]
  }

  lemma ReportIsOut(w: Worker, e: Worker, max: nat)
    requires SinksOk(w) && StreamOk(e, max) && SinksOk(e) && TextsOk(e) && w.pc.ErrFlush? && SinksStop(w, e)
    requires OnTrack(e, |w.out.sinks|) && e.pc.Dead?
    ensures Reports(w, e)
  {
    forall k | 0 <= k < |w.out.sinks| ensures e.out.sinks[k] == w.out.sinks[k] + [e.hist.err.value] {
      SinkAfterFailure(w, e, k);
    }
  }

  /** Before it reports, the log thread flushes: no text changes, and if no file's flush
      fails, all that was written is durable. */
  lemma ErrorFlushes(init: State, before: seq<Action>, s: State, io: Io, s': State)
    requires Reached(init, before, s) && s.w.pc.ErrFlush? && Enabled(s, Log(io)) && s' == Step(s, Log(io))
    ensures s'.w.pc.ErrWrite? && SameTexts(s.w.out, s'.w.out)
    ensures io.flush.failAt > |io.flush.order| ==>
      AllDurable(s'.w.out) && s'.w.out.global.durable == Render(Body, s.w.hist.written)
  {
    ReachedInv(init, before, s);
    StepTurns(s, Log(io));
    ReportFlush(s.w, s.max, io);
  }

  lemma ReportFlush(w: Worker, max: nat, io: Io)
    requires TextsOk(w) && w.pc.ErrFlush? && WorkEnabled(w, max, io)
    ensures var w' := Work(w, max, io);
      && w'.pc.ErrWrite? && SameTexts(w.out, w'.out)
      && (io.flush.failAt > |io.flush.order| ==>
            AllDurable(w'.out) && w'.out.global.durable == Render(Body, w.hist.written))
  {
    FlushKeepsTexts(w.out, io.flush);
    assert w.hist.written + ErrorPart(w.hist) == w.hist.written;
    var w' := Work(w, max, io);
    assert w'.out.global.durable + "" == w'.out.global.durable;
  }

  lemma ReportFails(w: Worker, max: nat, io: Io)
    requires WorkEnabled(w, max, io) && ReportFaulty(w, io)
    ensures Work(w, max, io).pc.Dead?
  {
    if w.pc.ErrWrite? {
      WriteRecordExactly(w.out, io.error, At(io.plan, 0));
    }
  }

  /** What a log thread that is dead has written and delivered stays. */
  ghost predicate SaysNoMore(w: Worker, w': Worker) {
    && w'.pc.Dead? && w'.out.global == w.out.global && w.out.sinks <= w'.out.sinks && w'.hist.complete == w.hist.complete
  }

  lemma DeadTurn(w: Worker, max: nat, t: Turn)
    requires w.pc.Dead? && CanTurn(w, max, t)
    ensures SaysNoMore(w, Turned(w, max, t))
  {
  }

  lemma {:induction false} DeadForEver(s: State, acts: seq<Action>)
    requires Inv(s) && s.w.pc.Dead? && Legal(s, acts)
    ensures SaysNoMore(s.w, After(s, acts).w)
    decreases acts
  {
    if acts != [] {
      StepInv(s, acts[0]);
      StepTurns(s, acts[0]);
      DeadTurn(s.w, s.max, TurnOf(s, acts[0]));
      DeadForEver(Step(s, acts[0]), acts[1..]);
      PrefixTransitive(s.w.out.sinks, Step(s, acts[0]).w.out.sinks, After(s, acts).w.out.sinks);
    }
  }

  /** A failure in the report ends it, at the write or at the sink that fails: nothing more is
      written, and no sink is called any more. */
  lemma ReportFailureEnds(init: State, before: seq<Action>, s: State, io: Io, s': State, acts: seq<Action>, e: State)
    requires Reached(init, before, s) && Enabled(s, Log(io)) && ReportFaulty(s.w, io)
    requires s' == Step(s, Log(io)) && Legal(s', acts) && e == After(s', acts)
    ensures s'.w.pc.Dead? && SaysNoMore(s'.w, e.w)
  {
    ReachedInv(init, before, s);
    StepInv(s, Log(io));
    StepTurns(s, Log(io));
    ReportFails(s.w, s.max, io);
    DeadForEver(s', acts);
  }

  /** Nobody but the log thread is inside the logger or waits to get in. */
  ghost predicate LeftAlone(s: State) {
    && (forall p :: p in s.prods ==> s.prods[p].pc.Idle?)
    && (forall t :: t in s.callers ==> s.callers[t].Out?)
    && s.admin == []
  }

  lemma ReportMoves(s: State) returns (io: Io)
    requires LocksOk(s) && WaitsOk(s) && SinksOk(s.w) && LeftAlone(s) && Failed(s.w) && !s.w.pc.Dead?
    ensures LogEnabled(s, io) && !ReportFaulty(s.w, io)
  {
    if InSinks(s.w) {
      io := GoodIoFor([]);
    } else {
      NobodyInside(s);
      io := LogMoves(s);
    }
  }

  lemma ReportStep(s: State) returns (io: Io, s': State)
    requires Inv(s) && LeftAlone(s) && OnTrack(s.w, 0) && !s.w.pc.Dead?
    ensures LogEnabled(s, io) && s' == LogStep(s, io) && Inv(s') && LeftAlone(s') && OnTrack(s'.w, 0)
    ensures !ReportFaulty(s.w, io) && |s'.w.out.sinks| == |s.w.out.sinks|
    ensures ReportLeft(s'.w, |s'.w.out.sinks|) < ReportLeft(s.w, |s.w.out.sinks|)
  {
    io := ReportMoves(s);
    s' := LogStep(s, io);
    StepInv(s, Log(io));
    LogKeepsOthers(s, io);
    StepOnTrack(s, Log(io), s', 0, |s.w.out.sinks|);
    assert s'.w == Work(s.w, s.max, io);
    ActKeepsSinkCount(s.w, s.max, io);
  }

  /** With nobody else inside the logger the report does come to its end. */
  lemma {:induction false} ReportEnds(s: State) returns (acts: seq<Action>)
    requires Inv(s) && LeftAlone(s) && OnTrack(s.w, 0)
    ensures Legal(s, acts) && !ReportMeets(s, acts) && After(s, acts).w.pc.Dead?
    decreases ReportLeft(s.w, |s.w.out.sinks|)
  {
    acts := [];
    if !s.w.pc.Dead? {
      var io, s' := ReportStep(s);
      var rest := ReportEnds(s');
      LegalCons(s, Log(io), rest);
      assert ([Log(io)] + rest)[1..] == rest;
      acts := [Log(io)] + rest;
    }
  }

  lemma ReportIsMade(init: State, before: seq<Action>, s: State) returns (acts: seq<Action>)
    requires Reached(init, before, s) && s.w.pc.ErrFlush? && LeftAlone(s)
    ensures Legal(s, acts) && !ReportMeets(s, acts) && After(s, acts).w.pc.Dead? && Reports(s.w, After(s, acts).w)
  {
    ReachedInv(init, before, s);
    acts := ReportEnds(s);
    ErrorReported(init, before, s, acts, After(s, acts));
  }
}
