/** The guarantees of the logging pipeline, over every run: any interleaving of producers,
    `wait_for_flush` callers and registrations with the log thread, and any I/O failure. */
module Guarantees {
  import opened Records
  import opened Splitter
  import opened Reading
  import opened Fanout
  import opened Workers
  import opened Pipeline
  import opened Locking
  import opened Delivery
  import opened Queueing
  import opened Runs
  import S = Semaphores
  import VecPools

  // ----- Refinement -----

  /** As long as nothing fails: the records written, the rest of the batch in hand, and the
      split of the queue are together the split of everything accepted, in queue-lock order;
      they spell the messages accepted, without their newlines, in that order; and the global
      file reads as the records written. Nothing is lost, doubled or moved. */
  lemma Refinement(init: State, acts: seq<Action>, s: State)
    requires Reached(init, acts, s) && !Failed(s.w)
    ensures s.max > 0
    ensures s.w.hist.written + Pending(s.w, s.max) + SplitAll(s.queue, s.max) == SplitAll(Accepted(s), s.max)
    ensures Concat(Messages(s.w.hist.written + Pending(s.w, s.max) + SplitAll(s.queue, s.max))) == PlainText(Accepted(s))
    ensures s.w.out.global.Text() == Render(Body, s.w.hist.written)
  {
    ReachedInv(init, acts, s);
    SplitAllAppend(s.w.hist.drained, s.queue, s.max);
    QueueText(Accepted(s), s.max);
    assert s.w.hist.written + ErrorPart(s.w.hist) == s.w.hist.written;
  }

  /** Whatever fails, and whenever: the global file reads as a prefix of the split of what
      was accepted, followed by at most one record, which reports the error. */
  lemma FailureSafety(init: State, acts: seq<Action>, s: State)
    requires Reached(init, acts, s)
    ensures s.max > 0
    ensures s.w.hist.written <= SplitAll(Accepted(s), s.max)
    ensures Concat(Messages(s.w.hist.written)) <= PlainText(Accepted(s))
    ensures s.w.out.global.Text() == Render(Body, s.w.hist.written + ErrorPart(s.w.hist))
    ensures forall i :: 0 <= i < |ErrorPart(s.w.hist)| ==> IsErrorRecord(ErrorPart(s.w.hist)[i])
    ensures ErrorPart(s.w.hist) != [] ==> Failed(s.w)
  {
    ReachedInv(init, acts, s);
    SplitAllAppend(s.w.hist.drained, s.queue, s.max);
    var all, drained := SplitAll(Accepted(s), s.max), SplitAll(s.w.hist.drained, s.max);
    assert drained <= all;
    assert s.w.hist.written <= drained;
    PrefixText(s.w.hist.written, Accepted(s), s.max);
  }

  lemma PrefixText(written: seq<LogData>, queue: seq<LogData>, max: nat)
    requires max > 0 && written <= SplitAll(queue, max)
    ensures Concat(Messages(written)) <= PlainText(queue)
  {
    var all := SplitAll(queue, max);
    QueueText(queue, max);
    assert all == written + all[|written|..];
    MessagesAppend(written, all[|written|..]);
    ConcatAppend(Messages(written), Messages(all[|written|..]));
  }

  /** The error record is an error of tag "Paper2" that says where it comes from. */
  lemma ErrorRecordSays(init: State, acts: seq<Action>, s: State)
    requires Reached(init, acts, s) && s.w.hist.err.Some?
    ensures var r := s.w.hist.err.value;
      && r.level.Short() == 'E' && r.tag == Some("Paper2") && "Error occurred in logging thread: " <= r.message
  {
    ReachedInv(init, acts, s);
  }

  /** After a failure the log thread drains nothing and writes no record of an entry any more. */
  lemma {:induction false} FailureIsFinal(s: State, acts: seq<Action>)
    requires Inv(s) && Failed(s.w) && Legal(s, acts)
    ensures Failed(After(s, acts).w)
    ensures After(s, acts).w.hist.drained == s.w.hist.drained
    ensures After(s, acts).w.hist.written == s.w.hist.written
    decreases acts
  {
    if acts != [] {
      StepInv(s, acts[0]);
      StepTurns(s, acts[0]);
      FailedTurn(s.w, s.max, TurnOf(s, acts[0]));
      FailureIsFinal(Step(s, acts[0]), acts[1..]);
    }
  }

  lemma FailedTurn(w: Worker, max: nat, t: Turn)
    requires Failed(w) && CanTurn(w, max, t)
    ensures var w' := Turned(w, max, t);
      Failed(w') && w'.hist.drained == w.hist.drained && w'.hist.written == w.hist.written
  {
  }

  /** What was accepted and what was written only ever grows at its end. */
  lemma {:induction false} StreamsGrow(s: State, acts: seq<Action>)
    requires Inv(s) && Legal(s, acts)
    ensures Accepted(s) <= Accepted(After(s, acts))
    ensures s.w.hist.written <= After(s, acts).w.hist.written
    decreases acts
  {
    if acts != [] {
      var s' := Step(s, acts[0]);
      StepInv(s, acts[0]);
      StepGrows(s, acts[0]);
      StreamsGrow(s', acts[1..]);
      PrefixTransitive(Accepted(s), Accepted(s'), Accepted(After(s, acts)));
      PrefixTransitive(s.w.hist.written, s'.w.hist.written, After(s, acts).w.hist.written);
    }
  }

  lemma StepGrows(s: State, a: Action)
    requires Inv(s) && Enabled(s, a)
    ensures Accepted(s) <= Accepted(Step(s, a))
    ensures s.w.hist.written <= Step(s, a).w.hist.written
  {
    StepTurns(s, a);
    TurnGrows(s.w, s.max, TurnOf(s, a));
    if a.Prod? {
      ProdGrows(s, a.p);
    } else {
      OthersKeepCalls(s, a);
    }
  }

  lemma TurnGrows(w: Worker, max: nat, t: Turn)
    requires CanTurn(w, max, t)
    ensures w.hist.written <= Turned(w, max, t).hist.written
  {
  }

  lemma ProdGrows(s: State, p: nat)
    requires ProdEnabled(s, p)
    ensures Accepted(s) <= Accepted(ProdStep(s, p))
  {
    var me := s.prods[p];
    if me.pc.Reading? {
      EntriesCall(s.calls, p);
    } else if me.pc.Pushing? && me.pc.done < |me.calls[me.next]| {
      EntriesPush(s.calls, me.calls[me.next][me.pc.done]);
    }
  }

  // ----- Producer order and groups -----

  /** The records of `calls`, one block for each call. */
  function Blocks(calls: seq<Call>, max: nat): seq<LogData>
    requires max > 0
  {
    if calls == [] then [] else Blocks(calls[..|calls| - 1], max) + SplitAll(calls[|calls| - 1].entries, max)
  }

  lemma {:induction false} SplitInBlocks(calls: seq<Call>, max: nat)
    requires max > 0
    ensures SplitAll(Entries(calls), max) == Blocks(calls, max)
  {
    if calls != [] {
      SplitInBlocks(calls[..|calls| - 1], max);
      SplitAllAppend(Entries(calls[..|calls| - 1]), calls[|calls| - 1].entries, max);
    }
  }

  /** Producer `p` made its calls whole and in its program order, but for the one call that
      may be pushing right now, which is the last call of all. */
  ghost predicate InOrder(s: State, p: nat)
    requires p in s.prods
  {
    var me := s.prods[p];
    var made := CallsOf(s.calls, p);
    && me.next <= |me.calls| && |made| <= |me.calls|
    && (if me.pc.Pushing? then
          && |made| == me.next + 1 && made[..me.next] == me.calls[..me.next] && made[me.next] <= me.calls[me.next]
          && s.calls != [] && s.calls[|s.calls| - 1] == Call(p, made[me.next])
        else made == me.calls[..|made|])
  }

  /** In every run the global record stream is a prefix of the blocks of the calls in the
      order in which they took the queue lock: the records of one `queue_logs` call stay
      together, and each producer's calls come in its program order. */
  lemma ProducerOrder(init: State, acts: seq<Action>, s: State, p: nat)
    requires Reached(init, acts, s) && p in s.prods
    ensures s.max > 0
    ensures s.w.hist.written <= Blocks(s.calls, s.max)
    ensures InOrder(s, p)
  {
    ReachedInv(init, acts, s);
    FailureSafety(init, acts, s);
    SplitInBlocks(s.calls, s.max);
    MadeInOrder(s, p);
  }

  lemma MadeInOrder(s: State, p: nat)
    requires CallsOk(s) && LocksOk(s) && p in s.prods
    ensures InOrder(s, p)
  {
    var me := s.prods[p];
    assert CallsOf(s.calls, p) == Made(me);
    if me.pc.Pushing? {
      var n := |s.calls| - 1;
      assert CallsOf(s.calls, p) == CallsOf(s.calls[..n], p) + [s.calls[n].entries];
      assert CallsOf(s.calls, p)[me.next] == s.calls[n].entries;
    }
  }

  /** A drain takes the calls made so far whole: no producer is in the middle of one. */
  lemma GroupsStayWhole(init: State, acts: seq<Action>, s: State, io: Io, p: nat)
    requires Reached(init, acts, s) && s.w.pc.Drain? && Enabled(s, Log(io)) && p in s.prods
    ensures Step(s, Log(io)).w.hist.drained == Entries(s.calls)
    ensures CallsOf(s.calls, p) <= s.prods[p].calls
  {
    ReachedInv(init, acts, s);
    MadeInOrder(s, p);
  }

  // ----- Sleep and wakeup -----

  /** At every point of a wait all text is durable: the global file holds the split of
      everything drained, and each context file everything written to it. */
  lemma NeverSleepsUnflushed(init: State, acts: seq<Action>, s: State)
    requires Reached(init, acts, s) && InWait(s.w)
    ensures s.max > 0
    ensures s.w.out.global == Writer(Render(Body, SplitAll(s.w.hist.drained, s.max)), "")
    ensures s.w.hist.since.Keys == s.w.out.contexts.Keys
    ensures forall tag :: tag in s.w.hist.since ==>
      s.w.hist.since[tag] <= |s.w.hist.written| &&
      s.w.out.contexts[tag] == Writer(TaggedText(s.w.hist.written, s.w.hist.since[tag], tag), "")
  {
    ReachedInv(init, acts, s);
    WaitIsDurable(s.w, s.max);
  }

  lemma WaitIsDurable(w: Worker, max: nat)
    requires StreamOk(w, max) && TextsOk(w) && InWait(w) && AllDurable(w.out)
    ensures w.out.global == Writer(Render(Body, SplitAll(w.hist.drained, max)), "")
    ensures forall tag :: tag in w.hist.since ==>
      w.hist.since[tag] <= |w.hist.written| &&
      w.out.contexts[tag] == Writer(TaggedText(w.hist.written, w.hist.since[tag], tag), "")
  {
    assert w.hist.written + ErrorPart(w.hist) == w.hist.written;
    assert w.hist.written + [] == w.hist.written;
    assert w.out.global.durable + "" == w.out.global.durable;
    forall tag | tag in w.hist.since
      ensures w.hist.since[tag] <= |w.hist.written|
      ensures w.out.contexts[tag] == Writer(TaggedText(w.hist.written, w.hist.since[tag], tag), "")
    {
      assert ContextShows(w, tag);
      assert w.out.contexts[tag].durable + "" == w.out.contexts[tag].durable;
    }
  }

  /** While the log thread waits, or is about to, over a non-empty queue: the flag is up, or
      a producer has still to signal, or a `wait_for_flush` caller took a token since the
      last drain while entries were queued; without such callers one of the first two holds,
      and tokens taken over an empty queue do no harm. And the flag is never up
      over a log thread that sleeps without having been notified. */
  lemma NoLostWakeup(init: State, acts: seq<Action>, s: State)
    requires Reached(init, acts, s)
    ensures InWait(s.w) && s.queue != [] ==> s.sem.flag || SignalComing(s) || s.stolen > 0
    ensures s.stolen > 0 ==> s.queue != [] && s.callers.Keys != {}
    ensures s.sem.flag && s.w.pc.Parked? ==> LOG in s.sem.waiters && s.sem.waiters[LOG] == S.Notified(false)
  {
    ReachedInv(init, acts, s);
  }

  /** Accepted entries that are not durable are at most 99, the batch in hand and the queue;
      once the log thread has passed the flush test, at most 99 and the queue. The others are
      durable in the global file and in the context files. */
  lemma BoundedExposure(init: State, acts: seq<Action>, s: State)
    requires Reached(init, acts, s) && !Failed(s.w)
    ensures s.max > 0
    ensures s.w.hist.flushed <= |Accepted(s)|
    ensures Render(Body, SplitAll(Accepted(s)[..s.w.hist.flushed], s.max)) <= s.w.out.global.durable
    ensures |Accepted(s)| - s.w.hist.flushed <= 99 + |s.w.batch| + |s.queue|
    ensures var n := |SplitAll(Accepted(s)[..s.w.hist.flushed], s.max)|;
      n <= |s.w.hist.complete| && forall tag :: tag in s.w.out.contexts ==> ContextHolds(s.w, n, tag)
    ensures s.w.pc.Drain? || s.w.pc.CheckSleep? || InWait(s.w) ==> |Accepted(s)| - s.w.hist.flushed <= 99 + |s.queue|
    ensures s.w.pc.Drain? ==> s.w.logged == |s.w.hist.drained| - s.w.hist.flushed < 100
  {
    ReachedInv(init, acts, s);
    assert Accepted(s)[..s.w.hist.flushed] == s.w.hist.drained[..s.w.hist.flushed];
    forall tag | tag in s.w.out.contexts ensures ContextHolds(s.w, FlushedCount(s.w.hist, s.max), tag) {
      assert tag in s.w.hist.since.Keys;
    }
  }

  /** A flush is made exactly when its test finds nothing queued, or at least 100 entries
      drained since the last one. */
  lemma FlushesWhenDue(init: State, acts: seq<Action>, s: State, io: Io)
    requires Reached(init, acts, s) && s.w.pc.CheckFlush? && Enabled(s, Log(io))
    ensures var s' := Step(s, Log(io));
      && (s'.w.pc.FlushFiles? <==> s.queue == [] || |s.w.hist.drained| - s.w.hist.flushed >= 100)
      && (!s'.w.pc.FlushFiles? ==> s'.w.pc.CheckSleep?)
  {
    ReachedInv(init, acts, s);
    ChecksFlush(s, io);
  }

  lemma ChecksFlush(s: State, io: Io)
    requires s.w.pc.CheckFlush? && LogEnabled(s, io) && s.w.hist.flushed + s.w.logged == |s.w.hist.drained|
    ensures var pc := LogStep(s, io).w.pc;
      pc == if s.queue == [] || |s.w.hist.drained| - s.w.hist.flushed >= 100 then FlushFiles else CheckSleep
  {
  }

  // ----- Contexts and sinks -----

  /** The writer registered for a tag received the compact form of exactly the complete
      records with that tag since its registration. Complete are all written records, but
      after a failure perhaps not the last one; and the error record if its line was written. */
  lemma ContextProjection(init: State, acts: seq<Action>, s: State, tag: string)
    requires Reached(init, acts, s) && tag in s.w.out.contexts
    ensures s.max > 0
    ensures var h := s.w.hist;
      && tag in h.since && h.since[tag] <= |h.complete|
      && s.w.out.contexts[tag].Text() == TaggedText(h.complete, h.since[tag], tag)
      && CompleteOk(s.w)
      && (!Failed(s.w) ==> h.complete == h.written <= SplitAll(Accepted(s), s.max))
  {
    ReachedInv(init, acts, s);
    FailureSafety(init, acts, s);
    assert tag in s.w.hist.since.Keys;
    assert ContextShows(s.w, tag);
  }

  /** The registration is none of `tag`. */
  predicate Spares(op: AdminOp, tag: string) {
    match op
    case AddContext(t, _) => t != tag
    case RemoveContext(t) => t != tag
    case AddSink => true
  }

  /** No step of the run registers or removes a context for `tag`. */
  ghost predicate Untouched(s: State, acts: seq<Action>, tag: string)
    requires Legal(s, acts)
    decreases acts
  {
    acts == [] ||
      ((acts[0].Admin? ==> Spares(s.admin[acts[0].k], tag)) && Untouched(Step(s, acts[0]), acts[1..], tag))
  }

  lemma TurnKeepsSinkSince(w: Worker, max: nat, t: Turn)
    requires CanTurn(w, max, t)
    ensures w.hist.sinkSince <= Turned(w, max, t).hist.sinkSince
  {
  }

  lemma TurnKeepsSince(w: Worker, max: nat, t: Turn, tag: string)
    requires CanTurn(w, max, t) && tag in w.hist.since && (t.Enlist? ==> Spares(t.op, tag))
    ensures tag in Turned(w, max, t).hist.since && Turned(w, max, t).hist.since[tag] == w.hist.since[tag]
  {
  }

  lemma TurnSpares(s: State, a: Action, tag: string)
    requires Enabled(s, a) && (a.Admin? ==> Spares(s.admin[a.k], tag))
    ensures TurnOf(s, a).Enlist? ==> Spares(TurnOf(s, a).op, tag)
  {
  }

  lemma StepKeepsSince(s: State, a: Action, s': State, tag: string)
    requires LocksOk(s) && WaitsOk(s) && Enabled(s, a) && s' == Step(s, a)
    requires tag in s.w.hist.since && (a.Admin? ==> Spares(s.admin[a.k], tag))
    ensures tag in s'.w.hist.since && s'.w.hist.since[tag] == s.w.hist.since[tag]
  {
    StepTurns(s, a);
    TurnSpares(s, a, tag);
    TurnKeepsSince(s.w, s.max, TurnOf(s, a), tag);
  }

  lemma {:induction false} SinksStayRegistered(s: State, acts: seq<Action>)
    requires Inv(s) && Legal(s, acts)
    ensures s.w.hist.sinkSince <= After(s, acts).w.hist.sinkSince
    decreases acts
  {
    if acts != [] {
      StepInv(s, acts[0]);
      StepTurns(s, acts[0]);
      TurnKeepsSinkSince(s.w, s.max, TurnOf(s, acts[0]));
      SinksStayRegistered(Step(s, acts[0]), acts[1..]);
      PrefixTransitive(s.w.hist.sinkSince, Step(s, acts[0]).w.hist.sinkSince, After(s, acts).w.hist.sinkSince);
    }
  }

  lemma {:induction false} ContextStaysRegistered(s: State, acts: seq<Action>, tag: string, since: nat)
    requires Inv(s) && Legal(s, acts) && Untouched(s, acts, tag)
    requires tag in s.w.hist.since && s.w.hist.since[tag] == since
    ensures tag in After(s, acts).w.hist.since && After(s, acts).w.hist.since[tag] == since
    decreases acts
  {
    if acts != [] {
      StepInv(s, acts[0]);
      StepKeepsSince(s, acts[0], Step(s, acts[0]), tag);
      ContextStaysRegistered(Step(s, acts[0]), acts[1..], tag, since);
    }
  }

  /** What is written are the records of the first `k` entries: of all that were drained, or
      of all but the batch in hand. */
  ghost predicate BetweenBatches(s: State, k: nat) {
    && s.max > 0 && k <= |s.w.hist.drained| && s.w.hist.written == SplitAll(s.w.hist.drained[..k], s.max)
    && (k == |s.w.hist.drained| || k == |s.w.hist.drained| - |s.w.batch|)
  }

  /** From its registration in any state of any run on, and until it is registered anew or
      removed, a context's file reads as the records with its tag completed since then; as long
      as nothing fails, these are the records written since then, which are those of the
      entries after a whole number of batches. */
  lemma ContextFromRegistration(init: State, before: seq<Action>, s: State, k: nat, tag: string, acts: seq<Action>)
    requires Reached(init, before, s) && Enabled(s, Admin(k)) && s.admin[k] == AddContext(tag, true)
    requires Legal(Step(s, Admin(k)), acts) && Untouched(Step(s, Admin(k)), acts, tag)
    ensures var e, since := After(Step(s, Admin(k)), acts).w, |s.w.hist.complete|;
      && tag in e.out.contexts && since <= |e.hist.complete|
      && e.out.contexts[tag].Text() == TaggedText(e.hist.complete, since, tag)
      && CompleteOk(e)
      && (!Failed(s.w) ==> since == |s.w.hist.written| && exists k :: BetweenBatches(s, k))
  {
    ReachedInv(init, before, s);
    if !Failed(s.w) {
      var at := WrittenAreWhole(s.w, s.max);
      assert BetweenBatches(s, at);
    }
    var s' := Step(s, Admin(k));
    StepInv(s, Admin(k));
    ContextStaysRegistered(s', acts, tag, |s.w.hist.complete|);
    RunInv(s', acts);
    var e := After(s', acts).w;
    assert ContextShows(e, tag);
  }

  /** A registration does what it says, once, and nothing else. */
  lemma Registers(init: State, acts: seq<Action>, s: State, k: nat)
    requires Reached(init, acts, s) && Enabled(s, Admin(k))
    ensures var s', op := Step(s, Admin(k)), s.admin[k];
      var o, o' := s.w.out, s'.w.out;
      && s'.queue == s.queue && s'.w.pc == s.w.pc && o'.global == o.global
      && s.admin == s'.admin[..k] + [op] + s'.admin[k..]
      && (op.AddSink? ==> o'.sinks == o.sinks + [[]] && o'.contexts == o.contexts)
      && (!op.AddSink? ==> o'.sinks == o.sinks)
      && (op.AddContext? ==>
            (if op.created then op.tag in o'.contexts && o'.contexts[op.tag] == Writer("", "") && SameButFor(o, o', op.tag)
             else o'.contexts == o.contexts))
      && (op.RemoveContext? ==> op.tag !in o'.contexts && SameButFor(o, o', op.tag))
  {
  }

  ghost predicate SameButFor(o: Output, o': Output, tag: string) {
    forall t :: t != tag ==> (t in o'.contexts <==> t in o.contexts) && (t in o.contexts ==> o'.contexts[t] == o.contexts[t])
  }

  lemma TurnKeepsAbsent(w: Worker, max: nat, t: Turn, tag: string)
    requires CanTurn(w, max, t) && tag !in w.hist.since && (t.Enlist? ==> Spares(t.op, tag))
    ensures tag !in Turned(w, max, t).hist.since
  {
  }

  lemma {:induction false} ContextStaysAway(s: State, acts: seq<Action>, tag: string)
    requires Inv(s) && Legal(s, acts) && Untouched(s, acts, tag) && tag !in s.w.hist.since
    ensures tag !in After(s, acts).w.hist.since
    decreases acts
  {
    if acts != [] {
      StepInv(s, acts[0]);
      StepTurns(s, acts[0]);
      TurnSpares(s, acts[0], tag);
      TurnKeepsAbsent(s.w, s.max, TurnOf(s, acts[0]), tag);
      ContextStaysAway(Step(s, acts[0]), acts[1..], tag);
    }
  }

  /** A removed context is gone until its tag is registered anew. */
  lemma ContextRemoved(init: State, before: seq<Action>, s: State, k: nat, tag: string, acts: seq<Action>)
    requires Reached(init, before, s) && Enabled(s, Admin(k)) && s.admin[k] == RemoveContext(tag)
    requires Legal(Step(s, Admin(k)), acts) && Untouched(Step(s, Admin(k)), acts, tag)
    ensures tag !in After(Step(s, Admin(k)), acts).w.out.contexts
  {
    ReachedInv(init, before, s);
    var s' := Step(s, Admin(k));
    StepInv(s, Admin(k));
    assert tag !in s'.w.hist.since;
    ContextStaysAway(s', acts, tag);
    RunInv(s', acts);
    assert tag !in After(s', acts).w.hist.since.Keys;
  }

  /** From its registration in any state of any run on, a sink receives the written records
      in order, starting with the first that not all sinks had been called with. */
  lemma SinkFromRegistration(init: State, before: seq<Action>, s: State, k: nat, acts: seq<Action>)
    requires Reached(init, before, s) && Enabled(s, Admin(k)) && s.admin[k] == AddSink
    requires Legal(Step(s, Admin(k)), acts)
    ensures var e, j := After(Step(s, Admin(k)), acts).w, |s.w.out.sinks|;
      && j < |e.out.sinks| && s.w.hist.delivered <= Seen(e.hist, j) <= |e.hist.written|
      && (!Failed(e) ==> e.out.sinks[j] == e.hist.written[s.w.hist.delivered..Seen(e.hist, j)])
      && (Failed(e) ==>
            (e.out.sinks[j] == e.hist.written[s.w.hist.delivered..Seen(e.hist, j)]
             || e.out.sinks[j] == e.hist.written[s.w.hist.delivered..Seen(e.hist, j)] + ErrorPart(e.hist)))
  {
    ReachedInv(init, before, s);
    SinkSinceStays(s, k, acts);
    SinkReads(After(Step(s, Admin(k)), acts).w, |s.w.out.sinks|);
  }

  lemma AddedSink(s: State, k: nat)
    requires Enabled(s, Admin(k)) && s.admin[k] == AddSink
    ensures Step(s, Admin(k)).w.hist.sinkSince == s.w.hist.sinkSince + [s.w.hist.delivered]
  {
  }

  lemma SinkSinceStays(s: State, k: nat, acts: seq<Action>)
    requires Inv(s) && Enabled(s, Admin(k)) && s.admin[k] == AddSink && Legal(Step(s, Admin(k)), acts)
    ensures var e, j := After(Step(s, Admin(k)), acts).w, |s.w.out.sinks|;
      SinksOk(e) && j < |e.hist.sinkSince| && e.hist.sinkSince[j] == s.w.hist.delivered
  {
    StepInv(s, Admin(k));
    AddedSink(s, k);
    SinksStayRegistered(Step(s, Admin(k)), acts);
    RunInv(Step(s, Admin(k)), acts);
  }

  lemma SinkReads(w: Worker, j: nat)
    requires SinksOk(w) && j < |w.hist.sinkSince|
    ensures j < |w.out.sinks| && w.hist.sinkSince[j] <= Seen(w.hist, j) <= |w.hist.written|
    ensures var slice := w.hist.written[w.hist.sinkSince[j]..Seen(w.hist, j)];
      && (!Failed(w) ==> w.out.sinks[j] == slice)
      && (Failed(w) ==> (w.out.sinks[j] == slice || w.out.sinks[j] == slice + ErrorPart(w.hist)))
  {
    assert SinkShows(w, j);
  }

  /** Each sink received a contiguous slice of the written records, from its registration to
      its position (and the error record after it when the log thread gave up); no sink is
      ahead of the global file, and two sinks are at most one record apart. */
  lemma SinkAgreement(init: State, acts: seq<Action>, s: State, j: nat, k: nat)
    requires Reached(init, acts, s) && j < |s.w.out.sinks| && k < |s.w.out.sinks|
    ensures var h := s.w.hist;
      && |h.sinkSince| == |s.w.out.sinks|
      && h.sinkSince[j] <= Seen(h, j) <= |h.written|
      && h.written[h.sinkSince[j]..Seen(h, j)] <= s.w.out.sinks[j]
      && (var extra := s.w.out.sinks[j][Seen(h, j) - h.sinkSince[j]..];
          extra == [] || (Failed(s.w) && extra == ErrorPart(h)))
      && -1 <= Seen(h, j) - Seen(h, k) <= 1
  {
    ReachedInv(init, acts, s);
    assert SinkShows(s.w, j) && SinkShows(s.w, k);
  }

  // ----- Physical lines -----

  /** A piece of the splitter has no newline in its message. */
  lemma PieceIsClean(queue: seq<LogData>, max: nat, r: LogData)
    requires max > 0 && r in SplitAll(queue, max)
    ensures Clean(r) <==> Clean(r.(message := ""))
    ensures CompactClean(r) <==> CompactClean(r.(message := ""))
  {
    var _ := SplitFrom(queue, max, r);
  }

  /** In every run, cutting the global file at its newlines gives back one line for each
      written record and the error record, in order, exactly when no written record has a
      newline in its tag, file, function name or time, and the error record has none at all. */
  lemma GlobalLines(init: State, acts: seq<Action>, s: State)
    requires Reached(init, acts, s)
    ensures var h := s.w.hist;
      var rs := h.written + ErrorPart(h);
      (Lines(s.w.out.global.Text()) == Bodies(Body, rs) + [""])
        <==> (CleanBesides(h.written) && (h.err.Some? ==> Clean(h.err.value)))
  {
    FailureSafety(init, acts, s);
    CleanStream(s.w.hist, Accepted(s), s.max);
    OneRecordPerLine(s.w.hist.written + ErrorPart(s.w.hist));
  }

  lemma CleanStream(h: History, queue: seq<LogData>, max: nat)
    requires max > 0 && h.written <= SplitAll(queue, max)
    ensures var rs := h.written + ErrorPart(h);
      (forall i :: 0 <= i < |rs| ==> Clean(rs[i]))
        <==> (CleanBesides(h.written) && (h.err.Some? ==> Clean(h.err.value)))
  {
    var rs, all := h.written + ErrorPart(h), SplitAll(queue, max);
    forall i | 0 <= i < |h.written| ensures rs[i] == h.written[i] && (Clean(rs[i]) <==> Clean(rs[i].(message := ""))) {
      assert h.written[i] == all[i];
      PieceIsClean(queue, max, rs[i]);
    }
    if h.err.Some? {
      assert rs[|h.written|] == h.err.value;
    }
  }

  /** When nothing failed and everything accepted is written: the file cuts into one line for
      each record exactly when every accepted entry that has more than newlines for a message
      has no newline in its other fields. */
  lemma EntryLines(init: State, acts: seq<Action>, s: State)
    requires Reached(init, acts, s) && !Failed(s.w) && s.max > 0 && s.queue == [] && Pending(s.w, s.max) == []
    ensures (Lines(s.w.out.global.Text()) == Bodies(Body, SplitAll(Accepted(s), s.max)) + [""])
      <==> PrintingClean(Accepted(s))
  {
    Refinement(init, acts, s);
    FailureSafety(init, acts, s);
    GlobalLines(init, acts, s);
    assert s.w.hist.written == SplitAll(Accepted(s), s.max) && s.w.hist.written + [] == s.w.hist.written;
    CleanEntries(Accepted(s), s.max);
  }

  /** And in any state without failure, a newline in none of these is enough. */
  lemma CleanEntriesCleanLines(init: State, acts: seq<Action>, s: State)
    requires Reached(init, acts, s) && !Failed(s.w)
    requires PrintingClean(Accepted(s))
    ensures Lines(s.w.out.global.Text()) == Bodies(Body, s.w.hist.written) + [""]
  {
    GlobalLines(init, acts, s);
    FailureSafety(init, acts, s);
    CleanEntries(Accepted(s), s.max);
    var all, written := SplitAll(Accepted(s), s.max), s.w.hist.written;
    assert written + ErrorPart(s.w.hist) == written;
    assert forall i :: 0 <= i < |written| ==> written[i] == all[i];
  }

  /** And so for a context file in every run with the compact form, whatever the tag; each
      line is that of a written record or of the error record. */
  lemma ContextLines(init: State, acts: seq<Action>, s: State, tag: string)
    requires Reached(init, acts, s) && tag in s.w.out.contexts
    ensures s.max > 0 && tag in s.w.hist.since && s.w.hist.since[tag] <= |s.w.hist.complete|
    ensures var h := s.w.hist;
      var rs := WithTag(h.complete[h.since[tag]..], tag);
      && ((Lines(s.w.out.contexts[tag].Text()) == Bodies(CompactBody, rs) + [""])
            <==> (forall i :: 0 <= i < |rs| ==> CompactClean(if rs[i] in h.written then rs[i].(message := "") else rs[i])))
      && forall r :: r in rs ==> r in h.written || h.err == Some(r)
  {
    ContextProjection(init, acts, s, tag);
    FailureSafety(init, acts, s);
    OneRecordPerLine(WithTag(s.w.hist.complete[s.w.hist.since[tag]..], tag));
    ContextClean(s.w, Accepted(s), s.max, s.w.hist.since[tag], tag);
  }

  lemma ContextClean(w: Worker, queue: seq<LogData>, max: nat, since: nat, tag: string)
    requires max > 0 && CompleteOk(w) && w.hist.written <= SplitAll(queue, max) && since <= |w.hist.complete|
    ensures var rs := WithTag(w.hist.complete[since..], tag);
      && (forall r :: r in rs ==> r in w.hist.written || w.hist.err == Some(r))
      && forall i :: 0 <= i < |rs| ==>
           (CompactClean(rs[i]) <==> CompactClean(if rs[i] in w.hist.written then rs[i].(message := "") else rs[i]))
  {
    var rs := WithTag(w.hist.complete[since..], tag);
    WithTagFrom(w.hist.complete[since..], tag);
    forall r | r in rs
      ensures r in w.hist.written || w.hist.err == Some(r)
      ensures r in w.hist.written ==> (CompactClean(r) <==> CompactClean(r.(message := "")))
    {
      CompleteFrom(w, r);
      if r in w.hist.written {
        assert r in SplitAll(queue, max);
        PieceIsClean(queue, max, r);
      }
    }
  }

  lemma CompleteFrom(w: Worker, r: LogData)
    requires CompleteOk(w) && r in w.hist.complete
    ensures r in w.hist.written || w.hist.err == Some(r)
  {
  }

  // ----- The pool -----

  /** Every drain installs an empty queue, and takes the queue of the moment out whole. */
  lemma DrainEmptiesQueue(init: State, acts: seq<Action>, s: State, io: Io)
    requires Reached(init, acts, s) && s.w.pc.Drain? && Enabled(s, Log(io))
    ensures Step(s, Log(io)).queue == []
    ensures Step(s, Log(io)).w.hist.drained == s.w.hist.drained + s.queue == Accepted(s)
    ensures Step(s, Log(io)).w.batch == s.queue
  {
    ReachedInv(init, acts, s);
    VecPools.TakeIsEmpty(s.w.pool);
  }

  function DrainsNow(s: State): nat { if s.w.pc.Drain? then 1 else 0 }

  /** The drains in a run. */
  ghost function Drains(s: State, acts: seq<Action>): nat
    requires Legal(s, acts)
    decreases acts
  {
    if acts == [] then 0
    else (if acts[0].Log? then DrainsNow(s) else 0) + Drains(Step(s, acts[0]), acts[1..])
  }

  lemma {:induction false} TurnsAreDrains(s: State, acts: seq<Action>)
    requires Inv(s) && Legal(s, acts)
    ensures After(s, acts).w.hist.turns == s.w.hist.turns + Drains(s, acts)
    decreases acts
  {
    if acts != [] {
      StepInv(s, acts[0]);
      StepTurns(s, acts[0]);
      TurnCounts(s.w, s.max, TurnOf(s, acts[0]));
      TurnsAreDrains(Step(s, acts[0]), acts[1..]);
    }
  }

  lemma TurnCounts(w: Worker, max: nat, t: Turn)
    requires CanTurn(w, max, t)
    ensures Turned(w, max, t).hist.turns == w.hist.turns + if t.Swap? then 1 else 0
  {
  }

  /** The pool holds two empty vectors, or one while the other is in hand, and no third was
      ever made; after `k` drains the next takes vector `k mod 2`. */
  ghost predicate PoolShows(w: Worker, k: nat) {
    && |w.pool.free| == (if w.pc.Drain? then 2 else 1) && w.pool.created == 2
    && (forall i :: 0 <= i < |w.pool.free| ==> w.pool.free[i].items == [])
    && (if w.pc.Drain? then w.pool.free[0].id == k % 2 else w.guard.id == (k + 1) % 2)
  }

  /** In every run each turn of the loop gives its vector back. */
  lemma PoolRotates(init: State, acts: seq<Action>, s: State)
    requires Reached(init, acts, s)
    ensures PoolShows(s.w, Drains(init, acts))
  {
    ReachedInv(init, acts, s);
    PoolInTurn(s.w);
    ReachedTurns(init, acts, s);
  }

  lemma ReachedTurns(init: State, acts: seq<Action>, s: State)
    requires Reached(init, acts, s)
    ensures s.w.hist.turns == Drains(init, acts)
  {
    InitInv(init);
    TurnsAreDrains(init, acts);
  }

  lemma PoolInTurn(w: Worker)
    requires PoolOk(w) && PoolTurns(w)
    ensures PoolShows(w, w.hist.turns)
  {
    var whole, k := WholePool(w), w.hist.turns;
    assert whole.free[0].id == (k + 0) % 2 && whole.free[1].id == (k + 1) % 2;
  }

  // ----- What the file shows -----

  /** No accepted entry that leaves records has a newline or a delimiter in a field that
      could hide what the line shows. */
  ghost predicate Legible(queue: seq<LogData>) {
    PrintingClean(queue) && forall i :: 0 <= i < |queue| ==> Prints(queue[i]) ==> Readable(queue[i])
  }

  /** The records of such entries are legible. */
  lemma LegibleRecord(queue: seq<LogData>, max: nat, r: LogData)
    requires max > 0 && Legible(queue) && r in SplitAll(queue, max)
    ensures Clean(r) && Readable(r)
  {
    CleanEntries(queue, max);
    PieceIsClean(queue, max, r);
    var i := PrintingEntry(queue, max, r);
    SameFields(r, queue[i]);
  }

  lemma SameFields(r: LogData, e: LogData)
    requires r.(message := "") == e.(message := "")
    ensures Readable(r) <==> Readable(e)
  {
    assert r.tag == r.(message := "").tag && e.tag == e.(message := "").tag;
    assert r.time == r.(message := "").time && e.time == e.(message := "").time;
    assert r.file == r.(message := "").file && e.file == e.(message := "").file;
    assert r.functionName == r.(message := "").functionName && e.functionName == e.(message := "").functionName;
  }

  /** As long as nothing fails and the entries are legible, reading the lines of the global
      file gives back the level, time, tag, place and message of each written record, in order. */
  lemma FileShowsRecords(init: State, acts: seq<Action>, s: State)
    requires Reached(init, acts, s) && !Failed(s.w) && Legible(Accepted(s))
    ensures var lines, rs := Lines(s.w.out.global.Text()), s.w.hist.written;
      && |lines| == |rs| + 1
      && forall i :: 0 <= i < |rs| ==> ReadLine(lines[i]) == Some(Shown(rs[i], Some(ShownTag(rs[i]))))
  {
    Refinement(init, acts, s);
    FailureSafety(init, acts, s);
    var all, rs := SplitAll(Accepted(s), s.max), s.w.hist.written;
    forall i | 0 <= i < |rs| ensures Clean(rs[i]) && Readable(rs[i]) {
      assert rs[i] == all[i];
      LegibleRecord(Accepted(s), s.max, rs[i]);
    }
    FileReads(rs);
  }

  /** And reading those of a context file the same of its records, without the tag. */
  lemma ContextShowsRecords(init: State, acts: seq<Action>, s: State, tag: string)
    requires Reached(init, acts, s) && !Failed(s.w) && Legible(Accepted(s)) && tag in s.w.out.contexts
    ensures tag in s.w.hist.since && s.w.hist.since[tag] <= |s.w.hist.written|
    ensures var lines, rs := Lines(s.w.out.contexts[tag].Text()), WithTag(s.w.hist.written[s.w.hist.since[tag]..], tag);
      && |lines| == |rs| + 1
      && forall i :: 0 <= i < |rs| ==> ReadCompactLine(lines[i]) == Some(Shown(rs[i], None))
  {
    ContextProjection(init, acts, s, tag);
    var h := s.w.hist;
    var rs := WithTag(h.written[h.since[tag]..], tag);
    WithTagFrom(h.written[h.since[tag]..], tag);
    forall i | 0 <= i < |rs| ensures CompactClean(rs[i]) && ReadableCompact(rs[i]) {
      assert rs[i] in h.written;
      assert rs[i] in SplitAll(Accepted(s), s.max);
      LegibleRecord(Accepted(s), s.max, rs[i]);
    }
    CompactFileReads(rs);
  }
}
