/** The logger object (`src/logger/logger_thread_ctx.rs`, with the file and sink loops of
    `src/logger/file_logger.rs` and `src/logger/sink_logger.rs`), each method proved against
    the functions of module Fanout. What other threads do between two lock regions of the
    log thread, and what fails, are parameters. */
module LoggerThreads {
  import opened Records
  import opened Splitter
  import opened Fanout
  import opened VecPools
  import opened Semaphores
  import W = Workers

  /** What comes into one iteration of the log thread from outside: the entries that others
      log before its first test of the queue, between the two tests, and while it sleeps;
      the fate of the writes and of the flush; and for each record the sink that fails. */
  datatype Round = Round(
    late: seq<LogData>, later: seq<LogData>, wake: seq<LogData>,
    plan: Plan, flush: FlushPlan, sinkFails: seq<nat>)

  function Drop(plan: Plan, n: nat): Plan { if n <= |plan| then plan[n..] else [] }

  /** The rest of a batch from record `i`, as an outcome of the whole. */
  function Resumed(o: Output, logs: seq<LogData>, plan: Plan, i: nat): Outcome
    requires i <= |logs|
  {
    var r := WriteBatch(o, logs[i..], Drop(plan, i));
    Outcome(r.out, i + r.written, i + r.complete, r.ok)
  }

  lemma ResumeNext(o: Output, logs: seq<LogData>, plan: Plan, i: nat)
    requires i < |logs|
    ensures var head := WriteRecord(o, logs[i], At(plan, i));
      Resumed(o, logs, plan, i) ==
        if head.ok then Resumed(head.out, logs, plan, i + 1) else Outcome(head.out, i + head.written, i + head.complete, false)
  {
    assert logs[i..][0] == logs[i] && logs[i..][1..] == logs[i + 1..];
    assert At(Drop(plan, i), 0) == At(plan, i);
    assert Rest(Drop(plan, i)) == Drop(plan, i + 1);
  }

  function DropFails(fails: seq<nat>, n: nat): seq<nat> { if n <= |fails| then fails[n..] else [] }

  /** The rest of the sink calls from record `k`. */
  function Redelivered(o: Output, logs: seq<LogData>, fails: seq<nat>, k: nat): Delivery
    requires k <= |logs|
  {
    var d := DeliverEach(o, logs[k..], DropFails(fails, k));
    Delivery(d.out, k + d.delivered, d.ok)
  }

  lemma RedeliverNext(o: Output, logs: seq<LogData>, fails: seq<nat>, k: nat)
    requires k < |logs|
    ensures var failAt := if k < |fails| then fails[k] else |o.sinks|;
      var next := DeliverAll(o, logs[k], failAt);
      Redelivered(o, logs, fails, k) ==
        if failAt < |o.sinks| then Delivery(next, k, false) else Redelivered(next, logs, fails, k + 1)
  {
    assert logs[k..][0] == logs[k] && logs[k..][1..] == logs[k + 1..];
    assert Later(DropFails(fails, k)) == DropFails(fails, k + 1);
  }

  lemma FlushNext(contexts: map<string, Writer>, order: seq<string>, i: nat)
    requires i < |order| && order[i] in contexts && order[i] !in order[..i]
    ensures var before := FlushContexts(contexts, order[..i]);
      before[order[i] := Flushed(before[order[i]])] == FlushContexts(contexts, order[..i + 1])
  {
    assert order[..i + 1] == order[..i] + [order[i]];
  }

  /** `o'` is `o` after all files and sinks got the records `rs`. */
  ghost predicate Grew(o: Output, o': Output, rs: seq<LogData>) {
    && o'.global.Text() == o.global.Text() + Render(Body, rs)
    && ContextsReceived(o, o', rs)
    && |o'.sinks| == |o.sinks|
    && forall j :: 0 <= j < |o.sinks| ==> o'.sinks[j] == o.sinks[j] + rs
  }

  lemma GrewTwice(o: Output, o1: Output, o2: Output, a: seq<LogData>, b: seq<LogData>)
    requires Grew(o, o1, a) && Grew(o1, o2, b)
    ensures Grew(o, o2, a + b)
  {
    GlobalTwice(o.global.Text(), a, b);
    ContextsReceivedTwice(o, o1, o2, a, b);
    forall j | 0 <= j < |o.sinks| ensures o2.sinks[j] == o.sinks[j] + (a + b) {
      AppendAssoc(o.sinks[j], a, b);
    }
  }

  lemma TailSplits<T>(before: seq<T>, mid: seq<T>, after: seq<T>)
    requires before <= mid <= after
    ensures after[|before|..] == mid[|before|..] + after[|mid|..]
  {
  }

  /** The same after a failure: the contexts may lack the last record, and the sinks any of
      the last ones. */
  ghost predicate GrewNearly(o: Output, o': Output, rs: seq<LogData>) {
    && o'.global.Text() == o.global.Text() + Render(Body, rs)
    && ContextsNearly(o, o', rs)
    && |o'.sinks| == |o.sinks|
    && forall j :: 0 <= j < |o.sinks| ==> o.sinks[j] <= o'.sinks[j] <= o.sinks[j] + rs
  }

  ghost predicate ContextsNearly(o: Output, o': Output, rs: seq<LogData>) {
    ContextsReceived(o, o', rs) || (rs != [] && ContextsReceived(o, o', rs[..|rs| - 1]))
  }

  lemma ContextsThenNearly(o: Output, o1: Output, o2: Output, a: seq<LogData>, b: seq<LogData>)
    requires ContextsReceived(o, o1, a) && ContextsNearly(o1, o2, b)
    ensures ContextsNearly(o, o2, a + b)
  {
    if ContextsReceived(o1, o2, b) {
      ContextsReceivedTwice(o, o1, o2, a, b);
    } else {
      assert (a + b)[..|a + b| - 1] == a + b[..|b| - 1];
      ContextsReceivedTwice(o, o1, o2, a, b[..|b| - 1]);
    }
  }

  lemma GrewThenNearly(o: Output, o1: Output, o2: Output, a: seq<LogData>, b: seq<LogData>)
    requires Grew(o, o1, a) && GrewNearly(o1, o2, b)
    ensures GrewNearly(o, o2, a + b)
  {
    GlobalTwice(o.global.Text(), a, b);
    ContextsThenNearly(o, o1, o2, a, b);
    forall j | 0 <= j < |o.sinks| ensures o.sinks[j] <= o2.sinks[j] <= o.sinks[j] + (a + b) {
      AppendAssoc(o.sinks[j], a, b);
    }
  }

  /** What the global file reads as after more records. */
  lemma GlobalReads(o: Output, o': Output, had: seq<LogData>, written: seq<LogData>)
    requires o.global.Text() == Render(Body, had) && had <= written && GrewNearly(o, o', written[|had|..])
    ensures o'.global.Text() == Render(Body, written)
  {
    RenderAppend(Body, had, written[|had|..]);
    assert written == had + written[|had|..];
  }

  /** A batch that all files received, and the sinks as far as none failed. */
  lemma SinksGrewNearly(o: Output, o1: Output, logs: seq<LogData>, fails: seq<nat>)
    requires Received(o, o1, logs)
    ensures var d := DeliverEach(o1, logs, fails);
      GrewNearly(o, d.out, logs) && (d.ok ==> Grew(o, d.out, logs))
  {
    DeliverEachReceived(o1, logs, fails);
    var d := DeliverEach(o1, logs, fails);
    var n :| SinksReceived(o1, d, logs, n);
    SinksGrew(o, o1, d, logs, n);
  }

  /** A batch whose writes stopped at a failure. */
  lemma FilesGrewNearly(o: Output, r: Outcome, logs: seq<LogData>)
    requires BatchReceived(o, r, logs)
    ensures GrewNearly(o, r.out, logs[..r.written])
  {
    if r.complete < r.written {
      assert logs[..r.written][..r.written - 1] == logs[..r.complete];
    }
  }

  /** A batch written to the files and, if no write fails, handed to the sinks. */
  function Dispatched(o: Output, logs: seq<LogData>, plan: Plan, fails: seq<nat>): Outcome {
    var r := WriteBatch(o, logs, plan);
    var d := DeliverEach(r.out, logs, fails);
    if r.ok then Outcome(d.out, r.written, r.complete, d.ok) else r
  }

  lemma DispatchedGrew(o: Output, logs: seq<LogData>, plan: Plan, fails: seq<nat>)
    ensures var r := Dispatched(o, logs, plan, fails);
      && r.written <= |logs| && GrewNearly(o, r.out, logs[..r.written])
      && (r.ok ==> r.written == |logs| && Grew(o, r.out, logs))
  {
    var r := WriteBatch(o, logs, plan);
    WriteBatchReceived(o, logs, plan);
    if r.ok {
      SinksGrewNearly(o, r.out, logs, fails);
      assert logs[..r.written] == logs;
    } else {
      FilesGrewNearly(o, r, logs);
    }
  }

  lemma SinksGrew(o: Output, o1: Output, d: Delivery, logs: seq<LogData>, n: nat)
    requires Received(o, o1, logs) && SinksReceived(o1, d, logs, n)
    requires d.out.global == o1.global && d.out.contexts == o1.contexts && (d.ok <==> d.delivered == |logs|)
    ensures GrewNearly(o, d.out, logs)
    ensures d.ok ==> Grew(o, d.out, logs)
  {
    if d.ok {
      assert logs[..d.delivered] == logs;
    }
  }

  /** Nothing was written; buffers may have moved. */
  lemma GrewNothing(o: Output, o': Output)
    requires SameTexts(o, o')
    ensures Grew(o, o', [])
  {
    assert Render(Body, []) == "" && Render(CompactBody, []) == "";
  }

  lemma GrewSettled(o: Output, o1: Output, o2: Output, rs: seq<LogData>)
    requires Grew(o, o1, rs) && SameTexts(o1, o2)
    ensures Grew(o, o2, rs) && GrewNearly(o, o2, rs)
  {
  }

  // ----- One turn of the loop -----

  /** No write and no sink fails for `logs`, with the files of `tags` and `n` sinks. */
  ghost predicate BatchSucceeds(tags: set<string>, n: nat, logs: seq<LogData>, plan: Plan, fails: seq<nat>) {
    forall i :: 0 <= i < |logs| ==> !Fails(tags, logs[i], At(plan, i)) && SinkFailure(n, fails, i) >= n
  }

  lemma DispatchedExactly(o: Output, logs: seq<LogData>, plan: Plan, fails: seq<nat>)
    ensures Dispatched(o, logs, plan, fails).ok <==> BatchSucceeds(o.contexts.Keys, |o.sinks|, logs, plan, fails)
  {
    WriteBatchExactly(o, logs, plan);
    WriteBatchReceived(o, logs, plan);
    DeliverEachExactly(WriteBatch(o, logs, plan).out, logs, fails);
  }

  /** What a turn starts from: the queue, the entries logged since the last flush, the flag. */
  datatype Loop = Loop(queue: seq<LogData>, logged: nat, raised: bool)

  /** The flush test of the turn, with what came into the emptied queue meanwhile. */
  predicate FlushDue(l: Loop, round: Round) { round.late == [] || l.logged + |l.queue| >= 100 }

  /** Nothing that the turn does fails. */
  ghost predicate RoundSucceeds(tags: set<string>, n: nat, max: nat, l: Loop, round: Round)
    requires max > 0
  {
    && BatchSucceeds(tags, n, SplitAll(l.queue, max), round.plan, round.sinkFails)
    && (FlushDue(l, round) ==> round.flush.failAt > |round.flush.order|)
  }

  /** What the next turn starts from. The thread waits only if nothing came; then the flag is
      taken down, at once or, if it was down, after the next signal. */
  function NextLoop(l: Loop, round: Round): Loop {
    var came := round.late + round.later;
    Loop(came + (if came == [] && !l.raised then round.wake else []),
         if FlushDue(l, round) then 0 else l.logged + |l.queue|,
         came != [])
  }

  lemma NextLoopIs(l: Loop, round: Round)
    ensures var waits := round.late == [] && round.later == [] && !l.raised;
      && NextLoop(l, round).queue == [] + round.late + (if waits then round.wake else round.later)
      && NextLoop(l, round).logged == (if [] + round.late == [] || l.logged + |l.queue| >= 100 then 0 else l.logged + |l.queue|)
      && NextLoop(l, round).raised == (round.late != [] || round.later != [])
  {
  }

  /** The drain comes first: after it the turn goes on with an empty queue. */
  lemma DrainFirst(tags: set<string>, n: nat, max: nat, l: Loop, round: Round)
    requires max > 0
    ensures var drained := Loop([], l.logged + |l.queue|, l.raised);
      && NextLoop(drained, round) == NextLoop(l, round)
      && (RoundSucceeds(tags, n, max, l, round) <==>
            BatchSucceeds(tags, n, SplitAll(l.queue, max), round.plan, round.sinkFails)
            && (FlushDue(drained, round) ==> round.flush.failAt > |round.flush.order|))
  {
  }

  ghost predicate RoundsSucceed(tags: set<string>, n: nat, max: nat, l: Loop, rounds: seq<Round>)
    requires max > 0
    decreases rounds
  {
    rounds == []
    || (RoundSucceeds(tags, n, max, l, rounds[0]) && RoundsSucceed(tags, n, max, NextLoop(l, rounds[0]), rounds[1..]))
  }

  class LoggerThreadCtx {
    const maxStringLen: nat
    const semaphore: SemaphoreLite
    const flushSemaphore: SemaphoreLite
    var inited: bool
    var queue: seq<LogData>
    var globalFile: Writer
    var contextMap: map<string, Writer>
    var sinks: seq<seq<LogData>>
    ghost var accepted: seq<LogData>  // all entries ever queued
    ghost var written: seq<LogData>   // all records ever written for them

    function Out(): Output
      reads this
    {
      Output(globalFile, contextMap, sinks)
    }

    ghost predicate Valid()
      reads this, semaphore, flushSemaphore
    {
      && maxStringLen > 0 && semaphore != flushSemaphore
      && Inv(semaphore.View()) && Inv(flushSemaphore.View())
    }

    /** The records written and the split of the queue are the split of everything accepted. */
    ghost predicate Complete()
      requires maxStringLen > 0
      reads this
    {
      written + SplitAll(queue, maxStringLen) == SplitAll(accepted, maxStringLen)
    }

    constructor (maxStringLen: nat)
      requires maxStringLen > 0
      ensures Valid() && Complete() && fresh(semaphore) && fresh(flushSemaphore)
      ensures this.maxStringLen == maxStringLen && !inited && queue == [] && Out() == Output(EMPTY, map[], [])
      ensures accepted == [] && written == []
    {
      this.maxStringLen := maxStringLen;
      semaphore := new SemaphoreLite();
      flushSemaphore := new SemaphoreLite();
      inited, queue, globalFile, contextMap, sinks := false, [], EMPTY, map[], [];
      accepted, written := [], [];
    }

    /** The check at the head of `init`: a logger is started once. */
    method Init() returns (ok: bool)
      modifies this`inited
      ensures ok == !old(inited) && inited
    {
      ok := !inited;
      inited := true;
    }

    // ----- Queueing -----

    method QueueLog(entry: LogData)
      requires Valid()
      modifies this`queue, this`accepted, semaphore
      ensures Valid() && queue == old(queue) + [entry] && accepted == old(accepted) + [entry]
      ensures semaphore.View() == Step(old(semaphore.View()), Raise)
      ensures old(Complete()) ==> Complete()
    {
      queue := queue + [entry];
      accepted := accepted + [entry];
      semaphore.Signal();
      QueuedComplete(old(written), old(queue), old(accepted), [entry]);
    }

    method QueueLogs(entries: seq<LogData>)
      requires Valid()
      modifies this`queue, this`accepted, semaphore
      ensures Valid() && queue == old(queue) + entries && accepted == old(accepted) + entries
      ensures semaphore.View() == Step(old(semaphore.View()), Raise)
      ensures old(Complete()) ==> Complete()
    {
      for i := 0 to |entries|
        invariant queue == old(queue) + entries[..i] && accepted == old(accepted) + entries[..i]
        invariant Valid() && semaphore.View() == old(semaphore.View())
      {
        queue := queue + [entries[i]];
        accepted := accepted + [entries[i]];
        assert entries[..i + 1] == entries[..i] + [entries[i]];
      }
      assert entries[..|entries|] == entries;
      semaphore.Signal();
      QueuedComplete(old(written), old(queue), old(accepted), entries);
    }

    lemma QueuedComplete(written: seq<LogData>, queue: seq<LogData>, accepted: seq<LogData>, more: seq<LogData>)
      requires maxStringLen > 0
      ensures written + SplitAll(queue, maxStringLen) == SplitAll(accepted, maxStringLen) ==>
        written + SplitAll(queue + more, maxStringLen) == SplitAll(accepted + more, maxStringLen)
    {
      SplitAllAppend(queue, more, maxStringLen);
      SplitAllAppend(accepted, more, maxStringLen);
      AppendAssoc(written, SplitAll(queue, maxStringLen), SplitAll(more, maxStringLen));
    }

    // ----- Registration -----

    method AddContext(tag: string, created: bool) returns (ok: bool)
      modifies this`contextMap
      ensures ok == created
      ensures Out() == Administer(old(Out()), AdminOp.AddContext(tag, created))
    {
      ok := created;
      if created {
        contextMap := contextMap[tag := EMPTY];
      }
    }

    method RemoveContext(tag: string)
      modifies this`contextMap
      ensures Out() == Administer(old(Out()), AdminOp.RemoveContext(tag))
      ensures tag !in contextMap && forall t :: t != tag ==>
        (t in contextMap <==> t in old(contextMap)) && (t in contextMap ==> contextMap[t] == old(contextMap)[t])
    {
      contextMap := contextMap - {tag};
    }

    method AddSink()
      modifies this`sinks
      ensures Out() == Administer(old(Out()), AdminOp.AddSink)
    {
      sinks := sinks + [[]];
    }

    // ----- Files -----

    method DoLogFile(log: LogData, io: RecordIo) returns (ok: bool, count: nat)
      modifies this`globalFile, this`contextMap
      ensures var r := WriteRecord(old(Out()), log, io); Out() == r.out && count == r.written && ok == r.ok
    {
      if io.fault.GlobalFault? {
        return false, 0;
      }
      globalFile := Append(globalFile, Body(log) + "\n", io.globalSpill);
      if log.tag.Some? && log.tag.value in contextMap {
        if io.fault.ContextFault? {
          return false, 1;
        }
        var tag := log.tag.value;
        contextMap := contextMap[tag := Append(contextMap[tag], CompactBody(log) + "\n", io.contextSpill)];
      }
      return true, 1;
    }

    method DoLogBatch(logs: seq<LogData>, plan: Plan) returns (ok: bool, count: nat)
      modifies this`globalFile, this`contextMap
      ensures var r := WriteBatch(old(Out()), logs, plan); Out() == r.out && count == r.written && ok == r.ok
      ensures count <= |logs|
    {
      ghost var r := WriteBatch(Out(), logs, plan);
      assert logs[0..] == logs && Drop(plan, 0) == plan;
      for i := 0 to |logs|
        invariant Resumed(Out(), logs, plan, i) == r
      {
        ResumeNext(Out(), logs, plan, i);
        var written, n := DoLogFile(logs[i], At(plan, i));
        if !written {
          return false, i + n;
        }
      }
      return true, |logs|;
    }

    method FlushContextFiles(plan: FlushPlan) returns (ok: bool)
      requires Enumerates(plan.order, contextMap.Keys) && plan.failAt > 0
      modifies this`contextMap
      ensures Out().(contexts := old(contextMap)) == old(Out())
      ensures ok <==> plan.failAt > |plan.order|
      ensures ok ==> contextMap == FlushContexts(old(contextMap), plan.order)
      ensures !ok ==>
        var done := FlushContexts(old(contextMap), plan.order[..plan.failAt - 1]);
        var tag := plan.order[plan.failAt - 1];
        tag in done && contextMap == done[tag := Spill(done[tag], plan.spill)]
    {
      assert contextMap == FlushContexts(old(contextMap), plan.order[..0]);
      for i := 0 to |plan.order|
        invariant plan.failAt > i
        invariant contextMap == FlushContexts(old(contextMap), plan.order[..i])
      {
        var tag := plan.order[i];
        assert tag in old(contextMap).Keys && tag !in plan.order[..i];
        if plan.failAt == i + 1 {
          contextMap := contextMap[tag := Spill(contextMap[tag], plan.spill)];
          return false;
        }
        FlushNext(old(contextMap), plan.order, i);
        contextMap := contextMap[tag := Flushed(contextMap[tag])];
      }
      assert plan.order[..|plan.order|] == plan.order;
      return true;
    }

    method Flush(plan: FlushPlan) returns (ok: bool)
      requires Valid() && Enumerates(plan.order, contextMap.Keys)
      modifies this`globalFile, this`contextMap, flushSemaphore
      ensures Valid() && FlushOutcome(Out(), ok) == Fanout.Flush(old(Out()), plan)
      ensures flushSemaphore.View() ==
        if ok then Step(old(flushSemaphore.View()), Raise) else old(flushSemaphore.View())
    {
      if plan.failAt == 0 {
        globalFile := Spill(globalFile, plan.spill);
        return false;
      }
      globalFile := Flushed(globalFile);
      ok := FlushContextFiles(plan);
      if ok {
        flushSemaphore.Signal();
      }
    }

    // ----- Sinks -----

    /** Sink `failAt` returns an error; there may be no such sink. */
    method DoLogSinks(log: LogData, failAt: nat) returns (ok: bool)
      modifies this`sinks
      ensures Out() == DeliverAll(old(Out()), log, failAt)
      ensures ok <==> failAt >= |sinks|
    {
      for j := 0 to |sinks|
        invariant |sinks| == |old(sinks)| && j <= failAt
        invariant Out() == DeliverFirst(old(Out()), log, j)
      {
        sinks := sinks[j := sinks[j] + [log]];
        if j == failAt {
          return false;
        }
      }
      return true;
    }

    /** `do_log`: the files, then the sinks. */
    method DoLog(log: LogData, io: RecordIo, failAt: nat) returns (ok: bool, count: nat)
      modifies this`globalFile, this`contextMap, this`sinks
      ensures var r := WriteRecord(old(Out()), log, io);
        && count == r.written && Out() == (if r.ok then DeliverAll(r.out, log, failAt) else r.out)
        && ok == (r.ok && failAt >= |sinks|)
    {
      ok, count := DoLogFile(log, io);
      if ok {
        ok := DoLogSinks(log, failAt);
      }
    }

    // ----- The log thread -----

    /** Every record is handed to the sinks; `fails` says which sink fails for it. */
    method CallSinks(logs: seq<LogData>, fails: seq<nat>) returns (ok: bool)
      modifies this`sinks
      ensures var d := DeliverEach(old(Out()), logs, fails); Out() == d.out && ok == d.ok
    {
      assert logs[0..] == logs && DropFails(fails, 0) == fails;
      for k := 0 to |logs|
        invariant Redelivered(Out(), logs, fails, k) == DeliverEach(old(Out()), logs, fails)
      {
        RedeliverNext(Out(), logs, fails, k);
        ok := DoLogSinks(logs[k], if k < |fails| then fails[k] else |sinks|);
        if !ok {
          return;
        }
      }
      return true;
    }

    /** The files first; the sinks only if no write fails. */
    method Dispatch(logs: seq<LogData>, plan: Plan, sinkFails: seq<nat>) returns (ok: bool, count: nat)
      modifies this`globalFile, this`contextMap, this`sinks
      ensures var r := Dispatched(old(Out()), logs, plan, sinkFails); Out() == r.out && count == r.written && ok == r.ok
    {
      ok, count := DoLogBatch(logs, plan);
      if ok {
        ok := CallSinks(logs, sinkFails);
      }
    }

    /** The drained batch is split, written to the files and handed to the sinks. */
    method WriteOut(batch: seq<LogData>, plan: Plan, sinkFails: seq<nat>) returns (ok: bool)
      requires maxStringLen > 0
      modifies this`globalFile, this`contextMap, this`sinks, this`written
      ensures contextMap.Keys == old(contextMap.Keys)
      ensures var logs := SplitAll(batch, maxStringLen);
        && old(written) <= written <= old(written) + logs
        && GrewNearly(old(Out()), Out(), written[|old(written)|..])
        && (ok ==> written == old(written) + logs && Grew(old(Out()), Out(), logs))
        && (ok <==> BatchSucceeds(old(contextMap.Keys), |old(sinks)|, logs, plan, sinkFails))
    {
      var logs := SplitAll(batch, maxStringLen);
      DispatchedGrew(Out(), logs, plan, sinkFails);
      DispatchedExactly(Out(), logs, plan, sinkFails);
      var count;
      ok, count := Dispatch(logs, plan, sinkFails);
      written := written + logs[..count];
      assert written[|old(written)|..] == logs[..count];
    }

    /** Others log `entries` between two lock regions of the log thread; they may log nothing. */
    method OthersLog(entries: seq<LogData>)
      requires Valid() && Complete() && W.LOG !in semaphore.waiters
      modifies this`queue, this`accepted, semaphore
      ensures Valid() && Complete() && W.LOG !in semaphore.waiters
      ensures queue == old(queue) + entries && accepted == old(accepted) + entries
      ensures semaphore.flag == (old(semaphore.flag) || entries != [])
    {
      if entries != [] {
        QueueLogs(entries);
      }
    }

    /** Waits on the queue's semaphore; while it sleeps somebody logs `wake`. */
    method Sleep(wake: seq<LogData>)
      requires Valid() && Complete() && W.LOG !in semaphore.waiters
      modifies this`queue, this`accepted, semaphore
      ensures Valid() && Complete() && W.LOG !in semaphore.waiters && !semaphore.flag
      ensures var came := if old(semaphore.flag) then [] else wake;
        queue == old(queue) + came && accepted == old(accepted) + came
    {
      var returned := semaphore.Begin(W.LOG, false);
      if !returned {
        QueueLogs(wake);
        returned := semaphore.Retest(W.LOG);
        assert returned;
      }
    }

    /** A flush if nothing is queued or 100 entries were logged since the last one. `before`
        and `after` count these. */
    method FlushIfDue(before: nat, plan: FlushPlan) returns (ok: bool, after: nat)
      requires Valid() && Enumerates(plan.order, contextMap.Keys)
      modifies this`globalFile, this`contextMap, flushSemaphore
      ensures Valid() && SameTexts(old(Out()), Out())
      ensures var due := queue == [] || before >= 100;
        && (ok <==> (due ==> plan.failAt > |plan.order|))
        && (ok ==> after == (if due then 0 else before) && (due ==> AllDurable(Out())))
    {
      after := before;
      ok := true;
      if queue == [] || after >= 100 {
        FlushKeepsTexts(Out(), plan);
        ok := Flush(plan);
        after := if ok then 0 else after;
      }
    }

    /** The second test: the thread waits only if nothing is queued, and everything durable. */
    method Rest(later: seq<LogData>, wake: seq<LogData>)
      requires Valid() && Complete() && W.LOG !in semaphore.waiters && (queue == [] ==> AllDurable(Out()))
      modifies this`queue, this`accepted, semaphore
      ensures Valid() && Complete() && W.LOG !in semaphore.waiters
      ensures var more := if old(queue) == [] && later == [] && !old(semaphore.flag) then wake else later;
        queue == old(queue) + more && accepted == old(accepted) + more
      ensures semaphore.flag == ((old(queue) != [] && old(semaphore.flag)) || later != [])
    {
      OthersLog(later);
      if queue == [] {
        assert AllDurable(Out());
        Sleep(wake);
      }
    }

    /** The rest of an iteration after the batch is written. */
    method Settle(before: nat, round: Round) returns (ok: bool, after: nat)
      requires Valid() && Complete() && W.LOG !in semaphore.waiters && queue == []
      requires Enumerates(round.flush.order, contextMap.Keys)
      modifies this`queue, this`accepted, this`globalFile, this`contextMap, semaphore, flushSemaphore
      ensures Valid() && SameTexts(old(Out()), Out())
      ensures Complete() && accepted == old(accepted) + queue
      ensures ok ==> W.LOG !in semaphore.waiters
      ensures var l := Loop([], before, old(semaphore.flag));
        && (ok <==> (FlushDue(l, round) ==> round.flush.failAt > |round.flush.order|))
        && (ok ==> Loop(queue, after, semaphore.flag) == NextLoop(l, round))
      ensures ok ==> (after == 0 && AllDurable(Out())) || (after == before < 100 && queue != [])
    {
      ghost var l, waits := Loop([], before, semaphore.flag), round.late == [] && round.later == [] && !semaphore.flag;
      AppendAssoc(accepted, round.late, if waits then round.wake else round.later);
      NextLoopIs(l, round);
      OthersLog(round.late);
      ok, after := FlushIfDue(before, round.flush);
      if !ok {
        return;
      }
      Rest(round.later, round.wake);
    }

    /** The queue is swapped for the empty vector `vec`, and what was in it is written. */
    method DrainInto(vec: seq<LogData>, round: Round) returns (ok: bool)
      requires Valid() && Complete() && vec == []
      modifies this`queue, this`globalFile, this`contextMap, this`sinks, this`written
      ensures contextMap.Keys == old(contextMap.Keys) && queue == []
      ensures old(written) <= written <= SplitAll(accepted, maxStringLen)
      ensures GrewNearly(old(Out()), Out(), written[|old(written)|..])
      ensures ok ==> Complete() && Grew(old(Out()), Out(), written[|old(written)|..])
      ensures ok <==> BatchSucceeds(
        old(contextMap.Keys), |old(sinks)|, SplitAll(old(queue), maxStringLen), round.plan, round.sinkFails)
    {
      var batch := queue;
      queue := vec;
      ok := true;
      if batch != [] {
        ok := WriteOut(batch, round.plan, round.sinkFails);
      } else {
        GrewNothing(Out(), Out());
        GrewSettled(Out(), Out(), Out(), []);
      }
      assert written + SplitAll([], maxStringLen) == written;
    }

    /** One turn of the loop with an empty vector in hand. */
    method TurnWith(vec: seq<LogData>, before: nat, round: Round) returns (ok: bool, after: nat)
      requires Valid() && Complete() && W.LOG !in semaphore.waiters && vec == [] && before < 100
      requires Enumerates(round.flush.order, contextMap.Keys)
      modifies this`queue, this`accepted, this`globalFile, this`contextMap, this`sinks, this`written
      modifies semaphore, flushSemaphore
      ensures Valid() && contextMap.Keys == old(contextMap.Keys)
      ensures old(accepted) <= accepted && old(written) <= written <= SplitAll(accepted, maxStringLen)
      ensures GrewNearly(old(Out()), Out(), written[|old(written)|..])
      ensures ok <==> RoundSucceeds(
        old(contextMap.Keys), |old(sinks)|, maxStringLen, Loop(old(queue), before, old(semaphore.flag)), round)
      ensures ok ==> Loop(queue, after, semaphore.flag) == NextLoop(Loop(old(queue), before, old(semaphore.flag)), round)
      ensures ok ==> accepted == old(accepted) + queue && Complete() && W.LOG !in semaphore.waiters
      ensures ok ==> Grew(old(Out()), Out(), written[|old(written)|..])
      ensures ok ==> (after == 0 && AllDurable(Out())) || (after == before + |old(queue)| < 100 && queue != [])
    {
      after := before + |queue|;
      DrainFirst(contextMap.Keys, |sinks|, maxStringLen, Loop(queue, before, semaphore.flag), round);
      ok := DrainInto(vec, round);
      if !ok {
        return;
      }
      ghost var wrote := Out();
      ok, after := Settle(after, round);
      GrewSettled(old(Out()), wrote, Out(), written[|old(written)|..]);
    }

    /** One turn of the loop. */
    method Iterate(pool: VecPool<LogData>, before: nat, round: Round) returns (ok: bool, after: nat)
      requires Valid() && Complete() && W.LOG !in semaphore.waiters && pool.Valid() && before < 100
      requires Enumerates(round.flush.order, contextMap.Keys)
      modifies this`queue, this`accepted, this`globalFile, this`contextMap, this`sinks, this`written
      modifies semaphore, flushSemaphore, pool
      ensures Valid() && contextMap.Keys == old(contextMap.Keys)
      ensures old(accepted) <= accepted && old(written) <= written <= SplitAll(accepted, maxStringLen)
      ensures GrewNearly(old(Out()), Out(), written[|old(written)|..])
      ensures ok <==> RoundSucceeds(
        old(contextMap.Keys), |old(sinks)|, maxStringLen, Loop(old(queue), before, old(semaphore.flag)), round)
      ensures ok ==> Loop(queue, after, semaphore.flag) == NextLoop(Loop(old(queue), before, old(semaphore.flag)), round)
      ensures ok ==> accepted == old(accepted) + queue && Complete() && W.LOG !in semaphore.waiters
      ensures ok ==> Grew(old(Out()), Out(), written[|old(written)|..])
      ensures ok ==> (after == 0 && AllDurable(Out())) || (after == before + |old(queue)| < 100 && queue != [])
      ensures pool.Valid()
      ensures old(pool.pool) != [] ==>
        pool.pool == old(pool.pool)[1..] + [old(pool.pool)[0]] && pool.created == old(pool.created)
    {
      var guard := pool.TakeVec();
      ok, after := TurnWith(guard.vec.items, before, round);
      guard.Drop();
      if old(pool.pool) != [] {
        GivesBack(old(pool.View()));
      }
    }

    /** The log thread, for as many turns as `rounds` tells of, or until something fails. */
    method LogThread(rounds: seq<Round>) returns (ok: bool)
      requires Valid() && Complete() && W.LOG !in semaphore.waiters
      requires forall i :: 0 <= i < |rounds| ==> Enumerates(rounds[i].flush.order, contextMap.Keys)
      modifies this`queue, this`accepted, this`globalFile, this`contextMap, this`sinks, this`written
      modifies semaphore, flushSemaphore
      ensures Valid() && contextMap.Keys == old(contextMap.Keys)
      ensures old(accepted) <= accepted && old(written) <= written
      ensures written <= SplitAll(accepted, maxStringLen)
      ensures GrewNearly(old(Out()), Out(), written[|old(written)|..])
      ensures ok <==> RoundsSucceed(old(contextMap.Keys), |old(sinks)|, maxStringLen, Loop(old(queue), 0, old(semaphore.flag)), rounds)
      ensures ok ==> Complete() && Grew(old(Out()), Out(), written[|old(written)|..])
      ensures ok && rounds != [] && queue == [] ==> AllDurable(Out())
    {
      var pool := new VecPool<LogData>.WithInitialAmount(2, 1024);
      var logged := 0;
      GrewNothing(Out(), Out());
      assert written[|written|..] == [] && rounds[0..] == rounds;
      for i := 0 to |rounds|
        invariant Valid() && Complete() && W.LOG !in semaphore.waiters && pool.Valid() && logged < 100
        invariant contextMap.Keys == old(contextMap.Keys)
        invariant old(accepted) <= accepted && old(written) <= written
        invariant Grew(old(Out()), Out(), written[|old(written)|..])
        invariant i > 0 && queue == [] ==> AllDurable(Out())
        invariant RoundsSucceed(contextMap.Keys, |sinks|, maxStringLen, Loop(queue, logged, semaphore.flag), rounds[i..])
          == RoundsSucceed(old(contextMap.Keys), |old(sinks)|, maxStringLen, Loop(old(queue), 0, old(semaphore.flag)), rounds)
      {
        ghost var before, had := Out(), written;
        assert rounds[i..][0] == rounds[i] && rounds[i..][1..] == rounds[i + 1..];
        ok, logged := Iterate(pool, logged, rounds[i]);
        TailSplits(old(written), had, written);
        if !ok {
          GrewThenNearly(old(Out()), before, Out(), had[|old(written)|..], written[|had|..]);
          return;
        }
        GrewTwice(old(Out()), before, Out(), had[|old(written)|..], written[|had|..]);
      }
      return true;
    }

    /** Whatever fails is ignored. */
    method FlushThenLog(error: LogData, flush: FlushPlan, io: RecordIo, failAt: nat)
      requires Valid() && Enumerates(flush.order, contextMap.Keys)
      modifies this`globalFile, this`contextMap, this`sinks, flushSemaphore
      ensures Valid()
      ensures var r := WriteRecord(Fanout.Flush(old(Out()), flush).out, error, io);
        Out() == if r.ok then DeliverAll(r.out, error, failAt) else r.out
    {
      var _ := Flush(flush);
      var _, _ := DoLog(error, io, failAt);
    }

    /** The end of a log thread that gave up: the files are flushed as well as they can be,
        and one record reports the error; whatever fails in that is ignored. */
    method ReportError(error: LogData, flush: FlushPlan, io: RecordIo, failAt: nat)
      requires Valid() && globalFile.Text() == Render(Body, written)
      requires Enumerates(flush.order, contextMap.Keys)
      modifies this`globalFile, this`contextMap, this`sinks, flushSemaphore
      ensures Valid()
      ensures globalFile.Text() == Render(Body, if io.fault.GlobalFault? then written else written + [error])
      ensures |sinks| == |old(sinks)| && forall k :: 0 <= k < |sinks| ==>
        sinks[k] == old(sinks)[k] + if !Fails(old(contextMap.Keys), error, io) && k <= failAt then [error] else []
    {
      ReportedOut(Out(), written, error, flush, io, failAt);
      FlushThenLog(error, flush, io, failAt);
    }

    /** The thread that `init` spawns. */
    method Run(rounds: seq<Round>, error: LogData, flush: FlushPlan, io: RecordIo, failAt: nat) returns (ok: bool)
      requires Valid() && Complete() && W.LOG !in semaphore.waiters
      requires globalFile.Text() == Render(Body, written) && W.IsErrorRecord(error)
      requires Enumerates(flush.order, contextMap.Keys)
      requires forall i :: 0 <= i < |rounds| ==> Enumerates(rounds[i].flush.order, contextMap.Keys)
      modifies this`queue, this`accepted, this`globalFile, this`contextMap, this`sinks, this`written
      modifies semaphore, flushSemaphore
      ensures Valid()
      ensures old(accepted) <= accepted && written <= SplitAll(accepted, maxStringLen)
      ensures ok <==> RoundsSucceed(old(contextMap.Keys), |old(sinks)|, maxStringLen, Loop(old(queue), 0, old(semaphore.flag)), rounds)
      ensures globalFile.Text() == Render(Body, if ok || io.fault.GlobalFault? then written else written + [error])
      ensures !ok && !Fails(old(contextMap.Keys), error, io) ==>
        forall k :: 0 <= k < |sinks| && k <= failAt ==> sinks[k] != [] && sinks[k][|sinks[k]| - 1] == error
    {
      ok := LogThread(rounds);
      GlobalReads(old(Out()), Out(), old(written), written);
      if !ok {
        ReportError(error, flush, io, failAt);
      }
    }

    lemma ReportedOut(o: Output, written: seq<LogData>, error: LogData, flush: FlushPlan, io: RecordIo, failAt: nat)
      requires Enumerates(flush.order, o.contexts.Keys) && o.global.Text() == Render(Body, written)
      ensures var r := WriteRecord(Fanout.Flush(o, flush).out, error, io);
        var o' := if r.ok then DeliverAll(r.out, error, failAt) else r.out;
        && o'.global.Text() == Render(Body, if io.fault.GlobalFault? then written else written + [error])
        && |o'.sinks| == |o.sinks|
        && forall k :: 0 <= k < |o.sinks| ==>
             o'.sinks[k] == o.sinks[k] + if !Fails(o.contexts.Keys, error, io) && k <= failAt then [error] else []
    {
      FlushKeepsTexts(o, flush);
      ReportedText(Fanout.Flush(o, flush).out, written, error, io);
      ReportedSinks(Fanout.Flush(o, flush).out, error, io, failAt);
    }

    lemma ReportedSinks(o: Output, error: LogData, io: RecordIo, failAt: nat)
      ensures var r := WriteRecord(o, error, io);
        var o' := if r.ok then DeliverAll(r.out, error, failAt) else r.out;
        && o'.global == r.out.global && |o'.sinks| == |o.sinks|
        && forall k :: 0 <= k < |o.sinks| ==>
             o'.sinks[k] == o.sinks[k] + if !Fails(o.contexts.Keys, error, io) && k <= failAt then [error] else []
    {
      WriteRecordExactly(o, error, io);
      assert forall k :: 0 <= k < |o.sinks| ==> o.sinks[k] + [] == o.sinks[k];
    }

    lemma ReportedText(o: Output, written: seq<LogData>, error: LogData, io: RecordIo)
      requires o.global.Text() == Render(Body, written)
      ensures WriteRecord(o, error, io).out.global.Text()
           == Render(Body, if io.fault.GlobalFault? then written else written + [error])
    {
      RenderAppend(Body, written, [error]);
      RenderOne(Body, error);
    }
  }
}
