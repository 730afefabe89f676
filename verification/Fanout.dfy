/** Where records go: the global file, one file per registered context, the sinks
    (`src/logger/file_logger.rs`, `src/logger/sink_logger.rs`, and the file and sink
    operations of `src/logger/logger_thread_ctx.rs`). What the outside world decides,
    such as which write fails, is a parameter. */
module Fanout {
  import opened Records

  /** A buffered file: the text in the file and the text still in the writer's buffer. */
  datatype Writer = Writer(durable: string, buffered: string) {
    function Text(): string { durable + buffered }
  }

  const EMPTY := Writer("", "")

  /** A write may push any part of the buffer down to the file: `spill` characters of it. */
  function Append(w: Writer, text: string, spill: nat): (w': Writer)
    ensures w'.Text() == w.Text() + text
    ensures w.durable <= w'.durable
  {
    var all := w.buffered + text;
    var k := if spill <= |all| then spill else |all|;
    assert all == all[..k] + all[k..];
    Writer(w.durable + all[..k], all[k..])
  }

  function Flushed(w: Writer): Writer { Writer(w.Text(), "") }

  /** A failing flush may still have pushed a part of the buffer down. */
  function Spill(w: Writer, spill: nat): (w': Writer)
    ensures w'.Text() == w.Text()
  {
    Append(w, "", spill)
  }

  datatype Output = Output(global: Writer, contexts: map<string, Writer>, sinks: seq<seq<LogData>>)

  // ----- Writing records -----

  datatype Fault = NoFault | GlobalFault | ContextFault

  /** What the file system does with one record's writes. */
  datatype RecordIo = RecordIo(fault: Fault, globalSpill: nat, contextSpill: nat)

  /** The fate of each record of a batch; past the end of the list nothing fails. */
  type Plan = seq<RecordIo>

  function At(plan: Plan, i: nat): RecordIo {
    if i < |plan| then plan[i] else RecordIo(NoFault, 0, 0)
  }

  function Rest(plan: Plan): Plan { if plan == [] then [] else plan[1..] }

  ghost predicate FaultFree(plan: Plan) { forall i :: 0 <= i < |plan| ==> plan[i].fault.NoFault? }

  /** `written` counts the records that reached the global file, `complete` those whose
      context line, if any, was written too. */
  datatype Outcome = Outcome(out: Output, written: nat, complete: nat, ok: bool)

  /** The writer a record's tag selects. */
  predicate Routed(o: Output, r: LogData) { r.tag.Some? && r.tag.value in o.contexts }

  /** `file_logger::do_log`: the global line first, then the context line. */
  function WriteRecord(o: Output, r: LogData, io: RecordIo): Outcome {
    if io.fault.GlobalFault? then Outcome(o, 0, 0, false)
    else
      var g := o.(global := Append(o.global, Body(r) + "\n", io.globalSpill));
      if !Routed(o, r) then Outcome(g, 1, 1, true)
      else if io.fault.ContextFault? then Outcome(g, 1, 0, false)
      else
        var tag := r.tag.value;
        Outcome(g.(contexts := o.contexts[tag := Append(o.contexts[tag], CompactBody(r) + "\n", io.contextSpill)]), 1, 1, true)
  }

  /** `file_logger::do_log_batch`: stops at the first failing write. */
  function WriteBatch(o: Output, logs: seq<LogData>, plan: Plan): (r: Outcome)
    ensures r.complete <= r.written <= |logs|
    ensures r.ok ==> r.complete == |logs|
    decreases logs
  {
    if logs == [] then Outcome(o, 0, 0, true)
    else
      var head := WriteRecord(o, logs[0], At(plan, 0));
      if !head.ok then head
      else
        var tail := WriteBatch(head.out, logs[1..], Rest(plan));
        Outcome(tail.out, 1 + tail.written, 1 + tail.complete, tail.ok)
  }

  /** The contexts `o'` are those of `o` after they received `rs`. */
  ghost predicate ContextsReceived(o: Output, o': Output, rs: seq<LogData>) {
    && o'.contexts.Keys == o.contexts.Keys
    && forall tag :: tag in o.contexts ==>
         o'.contexts[tag].Text() == o.contexts[tag].Text() + Render(CompactBody, WithTag(rs, tag))
  }

  lemma ContextsReceivedTwice(o: Output, o1: Output, o2: Output, a: seq<LogData>, b: seq<LogData>)
    requires ContextsReceived(o, o1, a) && ContextsReceived(o1, o2, b)
    ensures ContextsReceived(o, o2, a + b)
  {
    forall tag | tag in o.contexts
      ensures o2.contexts[tag].Text() == o.contexts[tag].Text() + Render(CompactBody, WithTag(a + b, tag))
    {
      WithTagAppend(a, b, tag);
      RenderAppend(CompactBody, WithTag(a, tag), WithTag(b, tag));
      AppendAssoc(o.contexts[tag].Text(), Render(CompactBody, WithTag(a, tag)), Render(CompactBody, WithTag(b, tag)));
    }
  }

  lemma ContextsReceivedNothing(o: Output, o': Output)
    requires o'.contexts == o.contexts
    ensures ContextsReceived(o, o', [])
  {
    assert Render(CompactBody, []) == "";
  }

  /** `o'` is `o` after the files received `rs`: the global file all of them, the file of
      each context those with its tag. */
  ghost predicate Received(o: Output, o': Output, rs: seq<LogData>) {
    && o'.global.Text() == o.global.Text() + Render(Body, rs)
    && ContextsReceived(o, o', rs)
    && o'.sinks == o.sinks
  }

  lemma ReceivedNothing(o: Output)
    ensures Received(o, o, [])
  {
    assert Render(Body, []) == "" && Render(CompactBody, []) == "";
  }

  lemma ReceivedTwice(o: Output, o1: Output, o2: Output, a: seq<LogData>, b: seq<LogData>)
    requires Received(o, o1, a) && Received(o1, o2, b)
    ensures Received(o, o2, a + b)
  {
    RenderAppend(Body, a, b);
    AppendAssoc(o.global.Text(), Render(Body, a), Render(Body, b));
    ContextsReceivedTwice(o, o1, o2, a, b);
  }

  lemma WithTagOne(r: LogData, tag: string)
    ensures WithTag([r], tag) == if r.tag == Some(tag) then [r] else []
  {
    assert [r][1..] == [];
  }

  /** A record whose writes succeed reaches the global file and the file of its tag, nothing else. */
  lemma WriteRecordReceived(o: Output, r: LogData, io: RecordIo)
    requires WriteRecord(o, r, io).ok
    ensures Received(o, WriteRecord(o, r, io).out, [r])
  {
    var o' := WriteRecord(o, r, io).out;
    RenderOne(Body, r);
    assert o'.contexts.Keys == o.contexts.Keys;
    forall tag | tag in o.contexts
      ensures o'.contexts[tag].Text() == o.contexts[tag].Text() + Render(CompactBody, WithTag([r], tag))
    {
      WithTagOne(r, tag);
      RenderOne(CompactBody, r);
      assert Render(CompactBody, []) == "";
    }
  }

  /** With or without a failure, the global file got the first `written` records of the
      batch and the context files the tagged ones of the first `complete`. */
  ghost predicate BatchReceived(o: Output, r: Outcome, logs: seq<LogData>) {
    && r.complete <= r.written <= r.complete + 1 && r.written <= |logs|
    && r.out.global.Text() == o.global.Text() + Render(Body, logs[..r.written])
    && ContextsReceived(o, r.out, logs[..r.complete])
    && r.out.sinks == o.sinks
  }

  lemma {:induction false} WriteBatchReceived(o: Output, logs: seq<LogData>, plan: Plan)
    ensures BatchReceived(o, WriteBatch(o, logs, plan), logs)
    ensures WriteBatch(o, logs, plan).ok ==> Received(o, WriteBatch(o, logs, plan).out, logs)
    decreases logs
  {
    var r := WriteBatch(o, logs, plan);
    if logs == [] {
      ReceivedNothing(o);
      assert logs[..0] == [];
    } else {
      var head := WriteRecord(o, logs[0], At(plan, 0));
      if head.ok {
        var tail := WriteBatch(head.out, logs[1..], Rest(plan));
        WriteRecordReceived(o, logs[0], At(plan, 0));
        WriteBatchReceived(head.out, logs[1..], Rest(plan));
        BatchFromTail(o, head.out, tail, logs, r);
      } else {
        BatchStops(o, logs, At(plan, 0));
      }
    }
    if r.ok {
      WholeBatch(o, r, logs);
    }
  }

  lemma WholeBatch(o: Output, r: Outcome, logs: seq<LogData>)
    requires BatchReceived(o, r, logs) && r.complete == |logs|
    ensures Received(o, r.out, logs)
  {
    assert logs[..r.written] == logs && logs[..r.complete] == logs;
  }

  lemma BatchStops(o: Output, logs: seq<LogData>, io: RecordIo)
    requires logs != [] && !WriteRecord(o, logs[0], io).ok
    ensures BatchReceived(o, WriteRecord(o, logs[0], io), logs)
  {
    var head := WriteRecord(o, logs[0], io);
    FailedRecord(o, logs[0], io);
    ContextsReceivedNothing(o, head.out);
    assert logs[..head.written] == if head.written == 1 then [logs[0]] else [];
    assert logs[..0] == [];
  }

  lemma BatchFromTail(o: Output, head: Output, tail: Outcome, logs: seq<LogData>, r: Outcome)
    requires logs != [] && Received(o, head, [logs[0]]) && BatchReceived(head, tail, logs[1..])
    requires r.out == tail.out && r.written == 1 + tail.written && r.complete == 1 + tail.complete
    ensures BatchReceived(o, r, logs)
  {
    HeadAndTail(logs, tail.written);
    HeadAndTail(logs, tail.complete);
    GlobalTwice(o.global.Text(), [logs[0]], logs[1..][..tail.written]);
    ContextsReceivedTwice(o, head, tail.out, [logs[0]], logs[1..][..tail.complete]);
  }

  lemma GlobalTwice(text: string, a: seq<LogData>, b: seq<LogData>)
    ensures text + Render(Body, a) + Render(Body, b) == text + Render(Body, a + b)
  {
    RenderAppend(Body, a, b);
    AppendAssoc(text, Render(Body, a), Render(Body, b));
  }

  lemma HeadAndTail(logs: seq<LogData>, n: nat)
    requires logs != [] && n <= |logs| - 1
    ensures logs[..n + 1] == [logs[0]] + logs[1..][..n]
  {
  }

  /** What is durable stays, in the same files. */
  ghost predicate DurableGrows(o: Output, o': Output) {
    && o.global.durable <= o'.global.durable
    && o'.contexts.Keys == o.contexts.Keys
    && forall tag :: tag in o.contexts ==> o.contexts[tag].durable <= o'.contexts[tag].durable
  }

  lemma DurableGrowsTwice(o: Output, o1: Output, o2: Output)
    requires DurableGrows(o, o1) && DurableGrows(o1, o2)
    ensures DurableGrows(o, o2)
  {
  }

  lemma WriteRecordDurable(o: Output, r: LogData, io: RecordIo)
    ensures DurableGrows(o, WriteRecord(o, r, io).out)
  {
    assert WriteRecord(o, r, io).out.contexts.Keys == o.contexts.Keys;
  }

  lemma {:induction false} WriteBatchDurable(o: Output, logs: seq<LogData>, plan: Plan)
    ensures DurableGrows(o, WriteBatch(o, logs, plan).out)
    decreases logs
  {
    if logs != [] {
      var head := WriteRecord(o, logs[0], At(plan, 0));
      WriteRecordDurable(o, logs[0], At(plan, 0));
      if head.ok {
        WriteBatchDurable(head.out, logs[1..], Rest(plan));
        DurableGrowsTwice(o, head.out, WriteBatch(o, logs, plan).out);
      }
    }
  }

  lemma FailedRecord(o: Output, r: LogData, io: RecordIo)
    requires !WriteRecord(o, r, io).ok
    ensures var w := WriteRecord(o, r, io);
      && w.written <= 1 && w.complete == 0
      && w.out.contexts == o.contexts && w.out.sinks == o.sinks
      && w.out.global.Text() == o.global.Text() + Render(Body, if w.written == 1 then [r] else [])
  {
    RenderOne(Body, r);
    assert Render(Body, []) == "";
  }

  /** A write of record `r` fails: the global line, or the context line if the tag has a file. */
  predicate Fails(tags: set<string>, r: LogData, io: RecordIo) {
    io.fault.GlobalFault? || (io.fault.ContextFault? && r.tag.Some? && r.tag.value in tags)
  }

  lemma WriteRecordExactly(o: Output, r: LogData, io: RecordIo)
    ensures var w := WriteRecord(o, r, io);
      && (w.ok <==> !Fails(o.contexts.Keys, r, io))
      && w.complete == (if w.ok then 1 else 0) && w.written == (if io.fault.GlobalFault? then 0 else 1)
      && w.out.contexts.Keys == o.contexts.Keys
  {
    assert WriteRecord(o, r, io).out.contexts.Keys == o.contexts.Keys;
  }

  /** `n` records are written completely before the first whose write fails, if one does. */
  ghost predicate StopsAt(tags: set<string>, logs: seq<LogData>, plan: Plan, n: nat) {
    && n <= |logs| && (forall i :: 0 <= i < n ==> !Fails(tags, logs[i], At(plan, i)))
    && (n < |logs| ==> Fails(tags, logs[n], At(plan, n)))
  }

  /** A batch write stops at the first record whose write fails, and only there. */
  lemma {:induction false} WriteBatchExactly(o: Output, logs: seq<LogData>, plan: Plan)
    ensures var r := WriteBatch(o, logs, plan);
      && StopsAt(o.contexts.Keys, logs, plan, r.complete)
      && (r.ok <==> r.complete == |logs|)
      && r.written == r.complete + if !r.ok && !At(plan, r.complete).fault.GlobalFault? then 1 else 0
    decreases logs
  {
    if logs != [] {
      var head := WriteRecord(o, logs[0], At(plan, 0));
      WriteRecordExactly(o, logs[0], At(plan, 0));
      if head.ok {
        WriteBatchExactly(head.out, logs[1..], Rest(plan));
        StopsLater(o.contexts.Keys, logs, plan, WriteBatch(head.out, logs[1..], Rest(plan)).complete);
      }
    }
  }

  lemma StopsLater(tags: set<string>, logs: seq<LogData>, plan: Plan, n: nat)
    requires logs != [] && !Fails(tags, logs[0], At(plan, 0)) && StopsAt(tags, logs[1..], Rest(plan), n)
    ensures StopsAt(tags, logs, plan, n + 1) && At(Rest(plan), n) == At(plan, n + 1)
  {
    forall i | 0 < i < n + 1 ensures !Fails(tags, logs[i], At(plan, i)) {
      assert logs[1..][i - 1] == logs[i] && At(Rest(plan), i - 1) == At(plan, i);
    }
  }

  lemma {:induction false} FaultFreeSucceeds(o: Output, logs: seq<LogData>, plan: Plan)
    requires FaultFree(plan)
    ensures WriteBatch(o, logs, plan).ok
    decreases logs
  {
    if logs != [] {
      FaultFreeSucceeds(WriteRecord(o, logs[0], At(plan, 0)).out, logs[1..], Rest(plan));
    }
  }

  /** The files hold the same texts. */
  ghost predicate SameTexts(x: Output, y: Output) {
    && x.global.Text() == y.global.Text()
    && SameContexts(x.contexts, y.contexts)
    && x.sinks == y.sinks
  }

  ghost predicate SameContexts(x: map<string, Writer>, y: map<string, Writer>) {
    && x.Keys == y.Keys
    && forall tag :: tag in x ==> x[tag].Text() == y[tag].Text()
  }

  /** Each record written on its own, as `do_log` does. */
  function WriteEach(o: Output, logs: seq<LogData>, plan: Plan): Outcome {
    if logs == [] then Outcome(o, 0, 0, true)
    else
      var head := WriteEach(o, logs[..|logs| - 1], plan);
      if !head.ok then head
      else
        var last := WriteRecord(head.out, logs[|logs| - 1], At(plan, |logs| - 1));
        Outcome(last.out, head.written + last.written, head.complete + last.complete, last.ok)
  }

  lemma {:induction false} WriteEachReceived(o: Output, logs: seq<LogData>, plan: Plan)
    requires FaultFree(plan)
    ensures WriteEach(o, logs, plan).ok
    ensures Received(o, WriteEach(o, logs, plan).out, logs)
  {
    if logs == [] {
      ReceivedNothing(o);
    } else {
      var n := |logs| - 1;
      WriteEachReceived(o, logs[..n], plan);
      var head := WriteEach(o, logs[..n], plan).out;
      LastReceived(o, head, logs[..n], logs[n], At(plan, n));
      assert logs == logs[..n] + [logs[n]];
    }
  }

  lemma LastReceived(o: Output, head: Output, before: seq<LogData>, r: LogData, io: RecordIo)
    requires Received(o, head, before) && io.fault.NoFault?
    ensures WriteRecord(head, r, io).ok && Received(o, WriteRecord(head, r, io).out, before + [r])
  {
    WriteRecordReceived(head, r, io);
    ReceivedTwice(o, head, WriteRecord(head, r, io).out, before, [r]);
  }

  /** However a stream of records is cut into batches, or written record by record, and
      whatever the writers spill, every file ends with the same text. */
  lemma BatchCut(o: Output, a: seq<LogData>, b: seq<LogData>, plan: Plan, planA: Plan, planB: Plan)
    requires FaultFree(plan) && FaultFree(planA) && FaultFree(planB)
    ensures var one := WriteBatch(o, a + b, plan);
      var two := WriteBatch(WriteBatch(o, a, planA).out, b, planB);
      && one.ok && two.ok && SameTexts(one.out, two.out)
      && SameTexts(one.out, WriteEach(o, a + b, plan).out)
  {
    var first := WriteBatch(o, a, planA).out;
    FaultFreeSucceeds(o, a + b, plan);
    FaultFreeSucceeds(o, a, planA);
    FaultFreeSucceeds(first, b, planB);
    WriteBatchReceived(o, a + b, plan);
    WriteBatchReceived(o, a, planA);
    WriteBatchReceived(first, b, planB);
    ReceivedTwice(o, first, WriteBatch(first, b, planB).out, a, b);
    WriteEachReceived(o, a + b, plan);
  }

  // ----- Flushing -----

  /** How a flush goes: `order` is the order in which the hash map hands out its files,
      `failAt` the position of the file whose flush fails (0 is the global file), and
      `spill` what that file still wrote. */
  datatype FlushPlan = FlushPlan(order: seq<string>, failAt: nat, spill: nat)

  ghost predicate Enumerates(order: seq<string>, keys: set<string>) {
    && (forall tag :: tag in keys <==> tag in order)
    && forall i, j :: 0 <= i < j < |order| ==> order[i] != order[j]
  }

  /** The context files of the tags in `done` flushed. */
  function FlushContexts(contexts: map<string, Writer>, done: seq<string>): map<string, Writer> {
    map tag | tag in contexts :: if tag in done then Flushed(contexts[tag]) else contexts[tag]
  }

  datatype FlushOutcome = FlushOutcome(out: Output, ok: bool)

  /** `LoggerThreadCtx::flush` without the lock and the signal. */
  function Flush(o: Output, plan: FlushPlan): FlushOutcome
    requires Enumerates(plan.order, o.contexts.Keys)
  {
    if plan.failAt == 0 then FlushOutcome(o.(global := Spill(o.global, plan.spill)), false)
    else
      var g := o.(global := Flushed(o.global));
      if plan.failAt <= |plan.order| then
        var done := FlushContexts(o.contexts, plan.order[..plan.failAt - 1]);
        var tag := plan.order[plan.failAt - 1];
        FlushOutcome(g.(contexts := done[tag := Spill(done[tag], plan.spill)]), false)
      else FlushOutcome(g.(contexts := FlushContexts(o.contexts, plan.order)), true)
  }

  /** Nothing is left in a buffer. */
  ghost predicate AllDurable(o: Output) {
    o.global.buffered == "" && forall tag :: tag in o.contexts ==> o.contexts[tag].buffered == ""
  }

  /** A flush changes no text; when it succeeds, whatever the order, all text is durable. */
  lemma FlushKeepsTexts(o: Output, plan: FlushPlan)
    requires Enumerates(plan.order, o.contexts.Keys)
    ensures SameTexts(o, Flush(o, plan).out)
    ensures Flush(o, plan).ok ==> AllDurable(Flush(o, plan).out)
    ensures Flush(o, plan).ok <==> plan.failAt > |plan.order|
  {
    if 0 < plan.failAt <= |plan.order| {
      var done := FlushContexts(o.contexts, plan.order[..plan.failAt - 1]);
      assert done.Keys == o.contexts.Keys;
    } else if plan.failAt > |plan.order| {
      forall tag | tag in o.contexts ensures tag in plan.order {
        assert tag in o.contexts.Keys;
      }
    }
  }

  /** A flush that fails has flushed the files before the one that fails, and not touched those
      after it. */
  lemma FlushStops(o: Output, plan: FlushPlan, i: nat)
    requires Enumerates(plan.order, o.contexts.Keys) && plan.failAt <= |plan.order| && i < |plan.order|
    ensures var o', tag := Flush(o, plan).out, plan.order[i];
      && (plan.failAt > 0 ==> o'.global.buffered == "")
      && tag in o.contexts && tag in o'.contexts
      && (i + 1 < plan.failAt ==> o'.contexts[tag].buffered == "")
      && (i + 1 > plan.failAt ==> o'.contexts[tag] == o.contexts[tag])
  {
    assert plan.order[i] in plan.order && plan.order[i] in o.contexts.Keys;
    if plan.failAt > 0 {
      var before := plan.order[..plan.failAt - 1];
      assert i + 1 < plan.failAt ==> before[i] == plan.order[i];
      assert i + 1 >= plan.failAt ==> plan.order[i] !in before;
    }
  }

  lemma FlushDurable(o: Output, plan: FlushPlan)
    requires Enumerates(plan.order, o.contexts.Keys)
    ensures DurableGrows(o, Flush(o, plan).out)
  {
    FlushKeepsTexts(o, plan);
  }

  // ----- Registration -----

  datatype AdminOp =
    | AddContext(tag: string, created: bool) // `created`: the file could be created
    | RemoveContext(tag: string)
    | AddSink

  function Administer(o: Output, op: AdminOp): Output {
    match op
    case AddContext(tag, created) => if created then o.(contexts := o.contexts[tag := EMPTY]) else o
    case RemoveContext(tag) => o.(contexts := o.contexts - {tag})
    case AddSink => o.(sinks := o.sinks + [[]])
  }

  // ----- Sinks -----

  /** Sink `j` is called with `r`. */
  function Deliver(o: Output, r: LogData, j: nat): Output
    requires j < |o.sinks|
  {
    o.(sinks := o.sinks[j := o.sinks[j] + [r]])
  }

  /** The first `n` sinks are called with `r`, in order: all of them, or those up to the one that fails. */
  function DeliverFirst(o: Output, r: LogData, n: nat): (o': Output)
    requires n <= |o.sinks|
    ensures |o'.sinks| == |o.sinks|
    ensures forall k :: 0 <= k < |o.sinks| ==> o'.sinks[k] == if k < n then o.sinks[k] + [r] else o.sinks[k]
    ensures o'.global == o.global && o'.contexts == o.contexts
  {
    if n == 0 then o else Deliver(DeliverFirst(o, r, n - 1), r, n - 1)
  }

  /** `sink_logger::do_log` when sink `failAt` returns an error; there may be no such sink. */
  function DeliverAll(o: Output, r: LogData, failAt: nat): Output {
    DeliverFirst(o, r, if failAt < |o.sinks| then failAt + 1 else |o.sinks|)
  }

  /** `delivered` counts the records that all sinks were called with. */
  datatype Delivery = Delivery(out: Output, delivered: nat, ok: bool)

  /** The sinks are called with each record in turn, up to the first failure; `fails` tells
      which sink fails for which record. */
  function DeliverEach(o: Output, logs: seq<LogData>, fails: seq<nat>): (d: Delivery)
    ensures d.delivered <= |logs| && (d.ok <==> d.delivered == |logs|)
    decreases logs
  {
    if logs == [] then Delivery(o, 0, true)
    else
      var next := DeliverAll(o, logs[0], FailAt(o, fails));
      if FailAt(o, fails) < |o.sinks| then Delivery(next, 0, false)
      else
        var tail := DeliverEach(next, logs[1..], Later(fails));
        Delivery(tail.out, 1 + tail.delivered, tail.ok)
  }

  function FailAt(o: Output, fails: seq<nat>): nat { if fails == [] then |o.sinks| else fails[0] }

  function Later(fails: seq<nat>): seq<nat> { if fails == [] then [] else fails[1..] }

  /** Every sink received, in order, the records that all were called with, and some the
      next one after a failure: those up to the sink that failed. */
  lemma {:induction false} DeliverEachReceived(o: Output, logs: seq<LogData>, fails: seq<nat>)
    ensures var d := DeliverEach(o, logs, fails);
      && d.out.global == o.global && d.out.contexts == o.contexts && |d.out.sinks| == |o.sinks|
      && exists n :: SinksReceived(o, d, logs, n)
    decreases logs
  {
    var d := DeliverEach(o, logs, fails);
    if logs == [] {
      assert SinksReceived(o, d, logs, 0);
    } else {
      var failAt := FailAt(o, fails);
      var next := DeliverAll(o, logs[0], failAt);
      assert logs[..0] == [] && logs[..1] == [logs[0]];
      if failAt < |o.sinks| {
        assert SinksReceived(o, d, logs, failAt + 1);
      } else {
        DeliverEachReceived(next, logs[1..], Later(fails));
        var tail := DeliverEach(next, logs[1..], Later(fails));
        var n :| SinksReceived(next, tail, logs[1..], n);
        SinksFromTail(o, next, tail, d, logs, n);
      }
    }
  }

  /** The one of `n` sinks that fails for record `i`; there may be no such sink. */
  function SinkFailure(n: nat, fails: seq<nat>, i: nat): nat { if i < |fails| then fails[i] else n }

  /** All sinks were called with the first `d.delivered` records, and the calls stopped after
      the sink that fails for the next, if there is one. */
  ghost predicate CallsStop(o: Output, d: Delivery, logs: seq<LogData>, fails: seq<nat>) {
    && (forall i :: 0 <= i < d.delivered ==> SinkFailure(|o.sinks|, fails, i) >= |o.sinks|)
    && (!d.ok ==> SinkFailure(|o.sinks|, fails, d.delivered) < |o.sinks|
                  && SinksReceived(o, d, logs, SinkFailure(|o.sinks|, fails, d.delivered) + 1))
  }

  lemma {:induction false} DeliverEachExactly(o: Output, logs: seq<LogData>, fails: seq<nat>)
    ensures CallsStop(o, DeliverEach(o, logs, fails), logs, fails)
    decreases logs
  {
    if logs != [] {
      var failAt := FailAt(o, fails);
      var next := DeliverAll(o, logs[0], failAt);
      assert logs[..0] == [] && logs[..1] == [logs[0]];
      assert failAt == SinkFailure(|o.sinks|, fails, 0);
      if failAt >= |o.sinks| {
        DeliverEachExactly(next, logs[1..], Later(fails));
        StopLater(o, next, DeliverEach(next, logs[1..], Later(fails)), DeliverEach(o, logs, fails), logs, fails);
      }
    }
  }

  lemma StopLater(o: Output, next: Output, tail: Delivery, d: Delivery, logs: seq<LogData>, fails: seq<nat>)
    requires logs != [] && |next.sinks| == |o.sinks| && CallsStop(next, tail, logs[1..], Later(fails))
    requires forall j :: 0 <= j < |o.sinks| ==> next.sinks[j] == o.sinks[j] + [logs[0]]
    requires d == Delivery(tail.out, 1 + tail.delivered, tail.ok) && SinkFailure(|o.sinks|, fails, 0) >= |o.sinks|
    ensures CallsStop(o, d, logs, fails)
  {
    forall i | 0 < i <= d.delivered ensures SinkFailure(|o.sinks|, fails, i) == SinkFailure(|next.sinks|, Later(fails), i - 1) {}
    if !d.ok {
      SinksFromTail(o, next, tail, d, logs, SinkFailure(|o.sinks|, fails, d.delivered) + 1);
    }
  }

  lemma SinksFromTail(o: Output, next: Output, tail: Delivery, d: Delivery, logs: seq<LogData>, n: nat)
    requires logs != [] && |next.sinks| == |o.sinks| && SinksReceived(next, tail, logs[1..], n)
    requires forall j :: 0 <= j < |o.sinks| ==> next.sinks[j] == o.sinks[j] + [logs[0]]
    requires d == Delivery(tail.out, 1 + tail.delivered, tail.ok)
    ensures SinksReceived(o, d, logs, n)
  {
    forall j | 0 <= j < |o.sinks| ensures d.out.sinks[j] == o.sinks[j] + logs[..d.delivered + if j < n then 1 else 0] {
      var k := tail.delivered + if j < n then 1 else 0;
      HeadAndTail(logs, k);
      AppendAssoc(o.sinks[j], [logs[0]], logs[1..][..k]);
    }
  }

  /** The first `n` sinks are one record ahead of the others. */
  ghost predicate SinksReceived(o: Output, d: Delivery, logs: seq<LogData>, n: nat) {
    && |d.out.sinks| == |o.sinks| && n <= |o.sinks| && (n > 0 <==> !d.ok) && d.delivered + (if n > 0 then 1 else 0) <= |logs|
    && forall j :: 0 <= j < |o.sinks| ==> d.out.sinks[j] == o.sinks[j] + logs[..d.delivered + if j < n then 1 else 0]
  }
}
