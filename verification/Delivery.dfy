/** What every step keeps about the records: the files and sinks show the record stream. */
module Delivery {
  import opened Records
  import opened Splitter
  import opened Fanout
  import opened Workers

  // ----- The record stream -----

  /** The records of the batch in hand that are not written yet. */
  function Pending(w: Worker, max: nat): seq<LogData>
    requires max > 0
  {
    if w.pc.ReadConfig? then SplitAll(w.batch, max) else if w.pc.WriteFiles? then w.recs else []
  }

  /** The records written and those in hand are the split of what was drained; after a
      failure those written are a prefix of it. */
  ghost predicate StreamOk(w: Worker, max: nat) {
    && max > 0
    && (!Failed(w) ==> w.hist.written + Pending(w, max) == SplitAll(w.hist.drained, max))
    && (Failed(w) ==> w.hist.written <= SplitAll(w.hist.drained, max))
    && (w.hist.err.Some? ==> PastError(w) && IsErrorRecord(w.hist.err.value))
    && (w.pc.ErrRead? || w.pc.ErrSinks? ==> w.hist.err.Some?)
  }

  lemma WrittenStream(w: Worker, max: nat, io: Io)
    requires StreamOk(w, max) && w.pc.WriteFiles?
    ensures StreamOk(Written(w, io), max)
  {
    var r := WriteBatch(w.out, w.recs, io.plan);
    WriteBatchReceived(w.out, w.recs, io.plan);
    PrefixOfTail(w.hist.written, w.recs, r.written);
    if r.ok {
      assert w.recs[..r.written] == w.recs;
    }
  }

  lemma PrefixOfTail<T>(a: seq<T>, b: seq<T>, k: nat)
    requires k <= |b|
    ensures a + b[..k] <= a + b
  {
  }

  lemma DrainStream(w: Worker, max: nat, queue: seq<LogData>)
    requires StreamOk(w, max) && w.pc.Drain?
    ensures StreamOk(Drained(w, queue), max)
  {
    SplitAllAppend(w.hist.drained, queue, max);
  }

  lemma TurnStream(w: Worker, max: nat, t: Turn)
    requires StreamOk(w, max) && CanTurn(w, max, t)
    ensures StreamOk(Turned(w, max, t), max)
  {
    if t.Swap? {
      DrainStream(w, max, t.queue);
    } else if w.pc.WriteFiles? && t.Act? {
      WrittenStream(w, max, t.io);
    } else {
      TurnKeepsStream(w, max, t);
      StreamKept(w, max, Turned(w, max, t));
    }
  }

  /** What was drained and written stays; nothing in hand is lost, and a failure comes when nothing is. */
  ghost predicate StreamStays(w: Worker, max: nat, w': Worker)
    requires max > 0
  {
    && w'.hist.written == w.hist.written && w'.hist.drained == w.hist.drained
    && (!Failed(w') ==> !Failed(w) && Pending(w', max) == Pending(w, max))
    && (Failed(w') && !Failed(w) ==> Pending(w, max) == [])
    && (w'.hist.err.Some? ==> PastError(w') && IsErrorRecord(w'.hist.err.value))
    && (w'.pc.ErrRead? || w'.pc.ErrSinks? ==> w'.hist.err.Some?)
  }

  lemma TurnKeepsStream(w: Worker, max: nat, t: Turn)
    requires StreamOk(w, max) && CanTurn(w, max, t) && !t.Swap? && !(t.Act? && w.pc.WriteFiles?)
    ensures StreamStays(w, max, Turned(w, max, t))
  {
    if t.Act? {
      ActKeepsStream(w, max, t.io);
    }
  }

  lemma ActKeepsStream(w: Worker, max: nat, io: Io)
    requires StreamOk(w, max) && WorkEnabled(w, max, io) && !w.pc.WriteFiles?
    ensures StreamStays(w, max, Work(w, max, io))
  {
  }

  lemma StreamKept(w: Worker, max: nat, w': Worker)
    requires StreamOk(w, max) && StreamStays(w, max, w')
    ensures StreamOk(w', max)
  {
    if Failed(w') && !Failed(w) {
      assert w.hist.written + [] == w.hist.written;
    }
  }

  // ----- The files -----

  function ErrorPart(h: History): seq<LogData> { if h.err.Some? then [h.err.value] else [] }

  /** `complete` is `written`, or lacks its last record. */
  ghost predicate Nearly(complete: seq<LogData>, written: seq<LogData>) {
    complete == written || (written != [] && complete == written[..|written| - 1])
  }

  /** The records with their context line are those written, but perhaps for the last one
      after a failure; and the error record follows if it has its context line. */
  ghost predicate CompleteOk(w: Worker) {
    var h := w.hist;
    && (!Failed(w) ==> h.complete == h.written)
    && (Nearly(h.complete, h.written)
        || (h.err.Some? && h.complete != [] && h.complete[|h.complete| - 1] == h.err.value
            && Nearly(h.complete[..|h.complete| - 1], h.written)))
    && (h.err.None? ==> Nearly(h.complete, h.written))
  }

  /** The compact form of the complete records with `tag` since its registration. */
  ghost function TaggedText(complete: seq<LogData>, since: nat, tag: string): string
    requires since <= |complete|
  {
    Render(CompactBody, WithTag(complete[since..], tag))
  }

  ghost predicate ContextShows(w: Worker, tag: string) {
    && tag in w.hist.since && tag in w.out.contexts && w.hist.since[tag] <= |w.hist.complete|
    && w.out.contexts[tag].Text() == TaggedText(w.hist.complete, w.hist.since[tag], tag)
  }

  ghost predicate GlobalShows(w: Worker) {
    w.out.global.Text() == Render(Body, w.hist.written + ErrorPart(w.hist))
  }

  /** The global file reads as the written records and the error record if there is one; the
      file of each context as the complete records with its tag since its registration. */
  ghost predicate TextsOk(w: Worker) {
    && GlobalShows(w)
    && CompleteOk(w)
    && (w.hist.err.Some? ==> PastError(w))
    && w.hist.since.Keys == w.out.contexts.Keys
    && forall tag :: tag in w.hist.since ==> ContextShows(w, tag)
  }

  lemma WrittenTexts(w: Worker, io: Io)
    requires TextsOk(w) && w.pc.WriteFiles?
    ensures TextsOk(Written(w, io))
  {
    var r := WriteBatch(w.out, w.recs, io.plan);
    var w' := Written(w, io);
    WriteBatchReceived(w.out, w.recs, io.plan);
    GlobalGrows(w.hist.written, w.recs[..r.written]);
    NearlyGrows(w.hist.written, w.recs, r.complete, r.written);
    forall tag | tag in w'.hist.since ensures ContextShows(w', tag) {
      assert ContextShows(w, tag) && tag in r.out.contexts.Keys;
      ContextGrows(w.hist.complete, w.recs[..r.complete], w.hist.since[tag], tag);
    }
  }

  lemma GlobalGrows(before: seq<LogData>, more: seq<LogData>)
    ensures Render(Body, before + []) + Render(Body, more) == Render(Body, before + more + [])
  {
    RenderAppend(Body, before, more);
    assert before + [] == before && before + more + [] == before + more;
  }

  lemma NearlyGrows(before: seq<LogData>, more: seq<LogData>, n: nat, k: nat)
    requires n <= k <= |more| && k <= n + 1
    ensures Nearly(before + more[..n], before + more[..k])
  {
    if n < k {
      assert (before + more[..k])[..|before| + n] == before + more[..n];
    }
  }

  lemma ContextGrows(complete: seq<LogData>, more: seq<LogData>, since: nat, tag: string)
    requires since <= |complete|
    ensures TaggedText(complete + more, since, tag)
         == TaggedText(complete, since, tag) + Render(CompactBody, WithTag(more, tag))
  {
    assert (complete + more)[since..] == complete[since..] + more;
    WithTagAppend(complete[since..], more, tag);
    RenderAppend(CompactBody, WithTag(complete[since..], tag), WithTag(more, tag));
  }

  lemma ErrorTexts(w: Worker, io: Io)
    requires TextsOk(w) && w.pc.ErrWrite?
    ensures TextsOk(ErrorWritten(w, io))
  {
    var r := WriteRecord(w.out, io.error, At(io.plan, 0));
    var w' := ErrorWritten(w, io);
    ErrorReceived(w.out, io.error, At(io.plan, 0));
    RenderAppend(Body, w.hist.written, ErrorPart(w'.hist));
    assert w.hist.written + ErrorPart(w.hist) == w.hist.written;
    var more := if r.complete == 1 then [io.error] else [];
    assert (w.hist.complete + more)[..|w.hist.complete|] == w.hist.complete;
    forall tag | tag in w'.hist.since ensures ContextShows(w', tag) {
      assert ContextShows(w, tag) && tag in r.out.contexts.Keys;
      ContextGrows(w.hist.complete, more, w.hist.since[tag], tag);
    }
  }

  lemma ErrorReceived(o: Output, error: LogData, io: RecordIo)
    ensures var r := WriteRecord(o, error, io);
      && r.out.global.Text() == o.global.Text() + Render(Body, if r.written == 1 then [error] else [])
      && ContextsReceived(o, r.out, if r.complete == 1 then [error] else [])
      && r.complete <= r.written <= 1 && (r.ok <==> r.complete == 1)
  {
    if WriteRecord(o, error, io).ok {
      WriteRecordReceived(o, error, io);
    } else {
      FailedRecord(o, error, io);
      ContextsReceivedNothing(o, WriteRecord(o, error, io).out);
    }
  }

  lemma TurnTexts(w: Worker, max: nat, t: Turn)
    requires TextsOk(w) && CanTurn(w, max, t)
    ensures TextsOk(Turned(w, max, t))
  {
    if t.Enlist? {
      RegisteredTexts(w, t.op);
    } else if t.Act? && w.pc.WriteFiles? {
      WrittenTexts(w, t.io);
    } else if t.Act? && w.pc.ErrWrite? {
      ErrorTexts(w, t.io);
    } else {
      TurnKeepsFiles(w, max, t);
      TextsKept(w, Turned(w, max, t));
    }
  }

  /** The log thread is past the point where it may write the error record. */
  predicate PastError(w: Worker) { w.pc.ErrRead? || w.pc.ErrSinks? || w.pc.Dead? }

  /** What the files read as, and the history about it, stay. */
  ghost predicate FilesKept(w: Worker, w': Worker) {
    && w'.out.global.Text() == w.out.global.Text() && SameContexts(w.out.contexts, w'.out.contexts)
    && w'.hist.written == w.hist.written && w'.hist.complete == w.hist.complete && w'.hist.since == w.hist.since
    && w'.hist.err == w.hist.err
    && (Failed(w) ==> Failed(w')) && (PastError(w) ==> PastError(w'))
  }

  /** Only writes and registrations change what the files read as. */
  lemma TurnKeepsFiles(w: Worker, max: nat, t: Turn)
    requires CanTurn(w, max, t) && !t.Enlist? && !(t.Act? && (w.pc.WriteFiles? || w.pc.ErrWrite?))
    ensures FilesKept(w, Turned(w, max, t))
  {
    if t.Act? && (w.pc.FlushFiles? || w.pc.ErrFlush?) {
      FlushKeepsTexts(w.out, t.io.flush);
    } else {
      assert Turned(w, max, t).out.contexts == w.out.contexts;
    }
  }

  lemma TextsKept(w: Worker, w': Worker)
    requires TextsOk(w) && FilesKept(w, w')
    ensures TextsOk(w')
  {
    forall tag | tag in w'.hist.since ensures ContextShows(w', tag) {
      assert ContextShows(w, tag);
    }
  }

  lemma RegisteredTexts(w: Worker, op: AdminOp)
    requires TextsOk(w)
    ensures TextsOk(Registered(w, op))
  {
    match op {
      case AddContext(tag, created) =>
        if created {
          AddedContextTexts(w, Registered(w, op), tag);
        }
      case RemoveContext(tag) => RemovedContextTexts(w, Registered(w, op), tag);
      case AddSink => TextsKept(w, Registered(w, op));
    }
  }

  /** The history of the records, and whether there was a failure, stay. */
  ghost predicate RecordsKept(w: Worker, w': Worker) {
    && w'.hist.written == w.hist.written && w'.hist.complete == w.hist.complete && w'.hist.err == w.hist.err
    && w'.pc == w.pc && w'.out.global == w.out.global
  }

  /** A context that neither comes nor goes. */
  lemma ContextStays(w: Worker, w': Worker, tag: string)
    requires TextsOk(w) && RecordsKept(w, w') && tag in w.hist.since
    requires tag in w'.hist.since && w'.hist.since[tag] == w.hist.since[tag]
    requires tag in w.out.contexts ==> tag in w'.out.contexts && w'.out.contexts[tag] == w.out.contexts[tag]
    ensures ContextShows(w', tag)
  {
    assert ContextShows(w, tag);
  }

  lemma AddedContextTexts(w: Worker, w': Worker, tag: string)
    requires TextsOk(w) && RecordsKept(w, w')
    requires w'.out.contexts == w.out.contexts[tag := EMPTY]
    requires w'.hist.since == w.hist.since[tag := |w.hist.complete|]
    ensures TextsOk(w')
  {
    forall t | t in w'.hist.since ensures ContextShows(w', t) {
      if t == tag {
        NewContext(w.hist.complete, tag);
      } else {
        ContextStays(w, w', t);
      }
    }
  }

  lemma RemovedContextTexts(w: Worker, w': Worker, tag: string)
    requires TextsOk(w) && RecordsKept(w, w')
    requires w'.out.contexts == w.out.contexts - {tag}
    requires w'.hist.since == w.hist.since - {tag}
    ensures TextsOk(w')
  {
    forall t | t in w'.hist.since ensures ContextShows(w', t) {
      ContextStays(w, w', t);
    }
  }

  /** A context registered now has received nothing. */
  lemma NewContext(complete: seq<LogData>, tag: string)
    ensures TaggedText(complete, |complete|, tag) == ""
  {
    assert WithTag(complete[|complete|..], tag) == [];
    assert Render(CompactBody, []) == "";
  }

  // ----- The sinks -----

  /** The position in the record stream up to which sink `k` has been called. */
  function Seen(h: History, k: nat): nat { h.delivered + if k < h.ahead then 1 else 0 }

  /** Sink `k` received the slice of the record stream from its registration to its
      position, and the error record after it if it was called with that one. */
  ghost predicate SinkShows(w: Worker, k: nat)
    requires k < |w.out.sinks| == |w.hist.sinkSince|
  {
    && w.hist.sinkSince[k] <= Seen(w.hist, k) <= |w.hist.written|
    && (k < w.hist.errSinks ==> w.hist.err.Some?)
    && w.out.sinks[k] == w.hist.written[w.hist.sinkSince[k]..Seen(w.hist, k)]
                         + if k < w.hist.errSinks then [w.hist.err.value] else []
  }

  /** The records of the batch that the sinks have not all been called with are the last
      ones of the record stream. */
  ghost predicate Undelivered(w: Worker, i: nat) {
    && i <= |w.recs| && w.hist.delivered <= |w.hist.written|
    && w.hist.written[w.hist.delivered..] == w.recs[i..]
  }

  ghost predicate SinkPlace(w: Worker)
    requires w.hist.delivered <= |w.hist.written|
  {
    match w.pc
    case NextRecord(i) => w.hist.ahead == 0 && Undelivered(w, i)
    case CallSinks(i, j) => i < |w.recs| && j <= |w.out.sinks| && w.hist.ahead == j && Undelivered(w, i)
    case ErrFlush => true
    case ErrWrite => true
    case ErrRead => w.hist.err.Some?
    case ErrSinks(j) => w.hist.err.Some? && j <= |w.out.sinks| && w.hist.errSinks == j
    case Dead => true
    case _ => w.hist.ahead == 0 && w.hist.delivered == |w.hist.written|
  }

  ghost predicate SinksOk(w: Worker) {
    && |w.hist.sinkSince| == |w.out.sinks|
    && w.hist.ahead <= |w.out.sinks| && w.hist.errSinks <= |w.out.sinks|
    && w.hist.delivered <= |w.hist.written| && (w.hist.ahead > 0 ==> w.hist.delivered < |w.hist.written|)
    && (w.hist.err.Some? ==> PastError(w))
    && (w.hist.errSinks > 0 ==> w.pc.ErrSinks? || w.pc.Dead?)
    && (forall k :: 0 <= k < |w.out.sinks| ==> SinkShows(w, k))
    && SinkPlace(w)
  }

  lemma WrittenSinks(w: Worker, io: Io)
    requires SinksOk(w) && w.pc.WriteFiles?
    ensures SinksOk(Written(w, io))
  {
    var r := WriteBatch(w.out, w.recs, io.plan);
    WriteBatchReceived(w.out, w.recs, io.plan);
    var w' := Written(w, io);
    if r.ok {
      assert w.recs[..r.written] == w.recs;
      assert w'.hist.written[w'.hist.delivered..] == w.recs == w'.recs[0..];
    }
    forall k | 0 <= k < |w.out.sinks| ensures SinkShows(w', k) {
      assert SinkShows(w, k);
      SliceOfPrefix(w.hist.written, w.recs[..r.written], w.hist.sinkSince[k], Seen(w.hist, k));
    }
  }

  lemma SliceOfPrefix<T>(a: seq<T>, b: seq<T>, lo: nat, hi: nat)
    requires lo <= hi <= |a|
    ensures (a + b)[lo..hi] == a[lo..hi]
  {
  }

  /** The next record of the stream for the sinks is record `i` of the batch. */
  lemma NextUndelivered(w: Worker, i: nat)
    requires Undelivered(w, i) && i < |w.recs|
    ensures w.hist.delivered < |w.hist.written| && w.hist.written[w.hist.delivered] == w.recs[i]
    ensures w.hist.written[w.hist.delivered + 1..] == w.recs[i + 1..]
  {
    var undelivered := w.hist.written[w.hist.delivered..];
    assert undelivered[0] == w.recs[i..][0];
    assert undelivered[1..] == w.hist.written[w.hist.delivered + 1..] && w.recs[i..][1..] == w.recs[i + 1..];
  }

  lemma SinkCalledSinks(w: Worker, io: Io)
    requires SinksOk(w) && w.pc.CallSinks?
    ensures SinksOk(SinkCalled(w, io))
  {
    var i, j := w.pc.i, w.pc.j;
    var w' := SinkCalled(w, io);
    var h := w.hist;
    NextUndelivered(w, i);
    forall k | 0 <= k < |w.out.sinks| ensures SinkShows(w', k) {
      assert SinkShows(w, k);
      if k == j {
        var since := h.sinkSince[k];
        assert h.written[since..h.delivered + 1] == h.written[since..h.delivered] + [w.recs[i]];
      }
    }
  }

  lemma ErrorSinkCalledSinks(w: Worker, io: Io)
    requires SinksOk(w) && w.pc.ErrSinks?
    ensures SinksOk(ErrorSinkCalled(w, io))
  {
    var w' := ErrorSinkCalled(w, io);
    forall k | 0 <= k < |w.out.sinks| ensures SinkShows(w', k) {
      assert SinkShows(w, k);
    }
  }

  lemma RegisteredSinks(w: Worker, op: AdminOp)
    requires SinksOk(w) && !InSinks(w)
    ensures SinksOk(Registered(w, op))
  {
    var w' := Registered(w, op);
    forall k | 0 <= k < |w'.out.sinks| ensures SinkShows(w', k) {
      if k < |w.out.sinks| {
        assert SinkShows(w, k);
      } else {
        assert w.hist.written[w.hist.delivered..w.hist.delivered] == [];
      }
    }
  }

  /** The sinks, the record stream and the positions in it stay. */
  ghost predicate SinksKept(w: Worker, w': Worker) {
    && w'.out.sinks == w.out.sinks && w'.hist.written == w.hist.written && w'.hist.sinkSince == w.hist.sinkSince
    && w'.hist.delivered == w.hist.delivered && w'.hist.ahead == w.hist.ahead && w'.hist.errSinks == w.hist.errSinks
    && (w.hist.errSinks > 0 ==> w'.hist.err == w.hist.err && (w'.pc.ErrSinks? || w'.pc.Dead?))
    && (w'.hist.err.Some? ==> PastError(w'))
  }

  lemma SinksStay(w: Worker, w': Worker)
    requires SinksOk(w) && SinksKept(w, w') && SinkPlace(w')
    ensures SinksOk(w')
  {
    forall k | 0 <= k < |w'.out.sinks| ensures SinkShows(w', k) {
      assert SinkShows(w, k);
    }
  }

  lemma ActKeepsSinks(w: Worker, max: nat, io: Io)
    requires SinksOk(w) && WorkEnabled(w, max, io)
    requires !(w.pc.WriteFiles? || w.pc.CallSinks? || w.pc.ErrSinks?)
    ensures SinksKept(w, Work(w, max, io)) && SinkPlace(Work(w, max, io))
  {
    if w.pc.ErrWrite? {
      var r := WriteRecord(w.out, io.error, At(io.plan, 0));
      if !r.ok {
        FailedRecord(w.out, io.error, At(io.plan, 0));
      }
    } else if w.pc.FlushFiles? || w.pc.ErrFlush? {
      FlushKeepsTexts(w.out, io.flush);
    }
  }

  lemma TurnKeepsSinks(w: Worker, max: nat, t: Turn)
    requires SinksOk(w) && CanTurn(w, max, t) && !t.Act? && !t.Enlist?
    ensures SinksKept(w, Turned(w, max, t)) && SinkPlace(Turned(w, max, t))
  {
  }

  lemma TurnSinks(w: Worker, max: nat, t: Turn)
    requires SinksOk(w) && CanTurn(w, max, t)
    ensures SinksOk(Turned(w, max, t))
  {
    if t.Enlist? {
      RegisteredSinks(w, t.op);
    } else if !t.Act? {
      TurnKeepsSinks(w, max, t);
      SinksStay(w, Turned(w, max, t));
    } else if w.pc.WriteFiles? {
      WrittenSinks(w, t.io);
    } else if w.pc.CallSinks? {
      SinkCalledSinks(w, t.io);
    } else if w.pc.ErrSinks? {
      ErrorSinkCalledSinks(w, t.io);
    } else {
      ActKeepsSinks(w, max, t.io);
      SinksStay(w, Turned(w, max, t));
    }
  }

  // ----- Flushes -----

  /** The log thread waits only when nothing is left in a buffer: the queue it finds
      non-empty at the first test is still so at the second. */
  ghost predicate FlushOk(w: Worker, queue: seq<LogData>) {
    && (w.pc.WaitSem? || w.pc.Parked? ==> AllDurable(w.out))
    && (w.pc.CheckSleep? ==> AllDurable(w.out) || queue != [])
  }

  lemma TurnFlush(w: Worker, max: nat, t: Turn, queue: seq<LogData>)
    requires FlushOk(w, queue) && CanTurn(w, max, t)
    requires t.TestFlush? || t.TestSleep? ==> t.queue == queue
    ensures FlushOk(Turned(w, max, t), queue)
  {
    if t.Act? && w.pc.FlushFiles? {
      FlushKeepsTexts(w.out, t.io.flush);
    }
  }

  /** `logged` counts the entries drained since the last flush; it stays below 100 but for
      the batch in hand, and what was drained before the last flush is durable. */
  ghost predicate ExposureOk(w: Worker, max: nat) {
    && max > 0
    && w.hist.flushed <= |w.hist.drained|
    && (!Failed(w) ==> w.hist.flushed + w.logged == |w.hist.drained| && w.logged <= 99 + |w.batch|)
    && (w.pc.Drain? || w.pc.CheckSleep? || w.pc.WaitSem? || w.pc.Parked? ==> w.logged <= 99)
    && Render(Body, SplitAll(w.hist.drained[..w.hist.flushed], max)) <= w.out.global.durable
  }

  /** Durable text only grows. */
  lemma TurnDurable(w: Worker, max: nat, t: Turn)
    requires CanTurn(w, max, t)
    ensures w.out.global.durable <= Turned(w, max, t).out.global.durable
    ensures !t.Enlist? ==> DurableGrows(w.out, Turned(w, max, t).out)
  {
    if t.Act? {
      ActDurable(w, max, t.io);
    }
  }

  lemma ActDurable(w: Worker, max: nat, io: Io)
    requires WorkEnabled(w, max, io)
    ensures DurableGrows(w.out, Work(w, max, io).out)
  {
    if w.pc.WriteFiles? {
      WriteBatchDurable(w.out, w.recs, io.plan);
    } else if w.pc.ErrWrite? {
      WriteRecordDurable(w.out, io.error, At(io.plan, 0));
    } else if w.pc.FlushFiles? || w.pc.ErrFlush? {
      FlushDurable(w.out, io.flush);
    }
  }

  lemma FlushedExposure(w: Worker, max: nat, io: Io)
    requires ExposureOk(w, max) && StreamOk(w, max) && TextsOk(w)
    requires w.pc.FlushFiles? && WorkEnabled(w, max, io)
    ensures ExposureOk(FilesFlushed(w, io), max)
  {
    var h := w.hist;
    if Flush(w.out, io.flush).ok {
      assert h.written + [] == h.written && h.drained[..|h.drained|] == h.drained;
    }
  }

  /** Entries drained and flushed, and their count, stay. */
  ghost predicate CountsKept(w: Worker, w': Worker) {
    && w'.hist.flushed == w.hist.flushed && w'.hist.drained == w.hist.drained
    && (Failed(w) ==> Failed(w'))
    && w'.logged == w.logged && w'.batch == w.batch
  }

  lemma ActKeepsCounts(w: Worker, max: nat, io: Io)
    requires WorkEnabled(w, max, io) && !w.pc.FlushFiles?
    ensures CountsKept(w, Work(w, max, io))
    ensures var pc := Work(w, max, io).pc; !(pc.Drain? || pc.CheckSleep? || pc.WaitSem? || pc.Parked?)
  {
  }

  lemma TurnExposure(w: Worker, max: nat, t: Turn)
    requires ExposureOk(w, max) && StreamOk(w, max) && TextsOk(w) && CanTurn(w, max, t)
    ensures ExposureOk(Turned(w, max, t), max)
  {
    TurnDurable(w, max, t);
    if t.Act? {
      if w.pc.FlushFiles? {
        FlushedExposure(w, max, t.io);
      } else {
        ActKeepsCounts(w, max, t.io);
        ExposureKept(w, max, Turned(w, max, t));
      }
    } else if t.Swap? {
      SwapExposure(w, max, t.queue);
    } else {
      TestKeepsCounts(w, max, t);
      ExposureKept(w, max, Turned(w, max, t));
    }
  }

  lemma TestKeepsCounts(w: Worker, max: nat, t: Turn)
    requires ExposureOk(w, max) && CanTurn(w, max, t) && !t.Act? && !t.Swap?
    ensures var w' := Turned(w, max, t);
      && CountsKept(w, w')
      && (w'.pc.Drain? || w'.pc.CheckSleep? || w'.pc.WaitSem? || w'.pc.Parked? ==> w'.logged <= 99)
  {
  }

  lemma SwapExposure(w: Worker, max: nat, queue: seq<LogData>)
    requires ExposureOk(w, max) && w.pc.Drain?
    ensures ExposureOk(Drained(w, queue), max)
  {
    assert (w.hist.drained + queue)[..w.hist.flushed] == w.hist.drained[..w.hist.flushed];
  }

  lemma ExposureKept(w: Worker, max: nat, w': Worker)
    requires ExposureOk(w, max) && CountsKept(w, w') && w.out.global.durable <= w'.out.global.durable
    requires w'.pc.Drain? || w'.pc.CheckSleep? || w'.pc.WaitSem? || w'.pc.Parked? ==> w'.logged <= 99
    ensures ExposureOk(w', max)
  {
  }

  // ----- The context files between flushes -----

  /** Of the first `n` complete records, those with `tag` since its registration are durable. */
  ghost predicate ContextHolds(w: Worker, n: nat, tag: string) {
    tag in w.hist.since && w.hist.since[tag] <= n <= |w.hist.complete| ==>
      && tag in w.out.contexts
      && TaggedText(w.hist.complete[..n], w.hist.since[tag], tag) <= w.out.contexts[tag].durable
  }

  /** The records of the entries drained before the last flush. */
  function FlushedCount(h: History, max: nat): nat
    requires max > 0 && h.flushed <= |h.drained|
  {
    |SplitAll(h.drained[..h.flushed], max)|
  }

  /** What was drained before the last flush is durable in the context files, too. */
  ghost predicate ContextsHold(w: Worker, max: nat) {
    && max > 0 && w.hist.flushed <= |w.hist.drained|
    && FlushedCount(w.hist, max) <= |w.hist.complete|
    && forall tag :: tag in w.hist.since ==> ContextHolds(w, FlushedCount(w.hist, max), tag)
  }

  /** The complete records only grow, and the registrations stay. */
  ghost predicate Extends(w: Worker, w': Worker) {
    && w.hist.complete <= w'.hist.complete && w'.hist.since == w.hist.since
    && w'.hist.flushed == w.hist.flushed && w.hist.drained <= w'.hist.drained
  }

  lemma TurnExtends(w: Worker, max: nat, t: Turn)
    requires CanTurn(w, max, t) && !t.Enlist? && !(t.Act? && w.pc.FlushFiles? && Flush(w.out, t.io.flush).ok)
    ensures Extends(w, Turned(w, max, t))
  {
  }

  lemma ContextHoldsOn(w: Worker, w': Worker, n: nat, tag: string)
    requires ContextHolds(w, n, tag) && n <= |w.hist.complete| && w.hist.complete <= w'.hist.complete
    requires tag in w.hist.since && tag in w'.hist.since && w'.hist.since[tag] == w.hist.since[tag]
    requires tag in w.out.contexts ==>
      tag in w'.out.contexts && w.out.contexts[tag].durable <= w'.out.contexts[tag].durable
    ensures ContextHolds(w', n, tag)
  {
    if w.hist.since[tag] <= n {
      assert w'.hist.complete[..n] == w.hist.complete[..n];
      PrefixTransitive(TaggedText(w.hist.complete[..n], w.hist.since[tag], tag),
                       w.out.contexts[tag].durable, w'.out.contexts[tag].durable);
    }
  }

  lemma ContextHoldsLess(w: Worker, m: nat, n: nat, tag: string)
    requires ContextHolds(w, n, tag) && m <= n <= |w.hist.complete|
    ensures ContextHolds(w, m, tag)
  {
    if tag in w.hist.since && w.hist.since[tag] <= m {
      var all, since := w.hist.complete[..n], w.hist.since[tag];
      assert all == w.hist.complete[..m] + all[m..];
      ContextGrows(w.hist.complete[..m], all[m..], since, tag);
      PrefixTransitive(TaggedText(w.hist.complete[..m], since, tag), TaggedText(all, since, tag), w.out.contexts[tag].durable);
    }
  }

  lemma ContextsHoldOn(w: Worker, max: nat, w': Worker)
    requires ContextsHold(w, max) && Extends(w, w') && DurableGrows(w.out, w'.out)
    ensures ContextsHold(w', max)
  {
    assert w'.hist.drained[..w'.hist.flushed] == w.hist.drained[..w.hist.flushed];
    forall tag | tag in w'.hist.since ensures ContextHolds(w', FlushedCount(w'.hist, max), tag) {
      assert tag in w.out.contexts ==> tag in w'.out.contexts.Keys;
      ContextHoldsOn(w, w', FlushedCount(w.hist, max), tag);
    }
  }

  /** After a successful flush all the complete records are durable. */
  lemma FlushedContexts(w: Worker, max: nat, w': Worker)
    requires StreamOk(w', max) && TextsOk(w') && !Failed(w') && AllDurable(w'.out) && Pending(w', max) == []
    requires w'.hist.flushed == |w'.hist.drained|
    ensures ContextsHold(w', max)
  {
    var h := w'.hist;
    assert h.drained[..h.flushed] == h.drained && h.written + [] == h.written;
    assert h.complete[..FlushedCount(h, max)] == h.complete;
    forall tag | tag in h.since ensures ContextHolds(w', FlushedCount(h, max), tag) {
      assert ContextShows(w', tag);
      assert w'.out.contexts[tag].durable + "" == w'.out.contexts[tag].durable;
    }
  }

  lemma RegisteredContexts(w: Worker, max: nat, op: AdminOp)
    requires ContextsHold(w, max)
    ensures ContextsHold(Registered(w, op), max)
  {
    var w' := Registered(w, op);
    var n := FlushedCount(w.hist, max);
    forall tag | tag in w'.hist.since ensures ContextHolds(w', n, tag) {
      if op == AddContext(tag, true) {
        AddedHolds(w', n, tag);
      } else {
        ContextHoldsOn(w, w', n, tag);
      }
    }
  }

  lemma AddedHolds(w: Worker, n: nat, tag: string)
    requires tag in w.hist.since && w.hist.since[tag] == |w.hist.complete| && tag in w.out.contexts
    ensures ContextHolds(w, n, tag)
  {
    if n == |w.hist.complete| {
      assert w.hist.complete[..n] == w.hist.complete;
      NewContext(w.hist.complete, tag);
    }
  }

  lemma FlushTurn(w: Worker, max: nat, io: Io)
    requires StreamOk(w, max) && TextsOk(w) && w.pc.FlushFiles? && WorkEnabled(w, max, io) && Flush(w.out, io.flush).ok
    ensures ContextsHold(Work(w, max, io), max)
  {
    TurnStream(w, max, Act(io));
    TurnTexts(w, max, Act(io));
    FlushMade(w, max, io);
    FlushedContexts(w, max, Work(w, max, io));
  }

  lemma FlushMade(w: Worker, max: nat, io: Io)
    requires max > 0 && w.pc.FlushFiles? && WorkEnabled(w, max, io) && Flush(w.out, io.flush).ok
    ensures var w' := Work(w, max, io);
      && !Failed(w') && AllDurable(w'.out) && Pending(w', max) == [] && w'.hist.flushed == |w'.hist.drained|
  {
    FlushKeepsTexts(w.out, io.flush);
  }

  lemma TurnContexts(w: Worker, max: nat, t: Turn)
    requires ContextsHold(w, max) && StreamOk(w, max) && TextsOk(w) && CanTurn(w, max, t)
    ensures ContextsHold(Turned(w, max, t), max)
  {
    TurnDurable(w, max, t);
    if t.Enlist? {
      RegisteredContexts(w, max, t.op);
    } else if t.Act? && w.pc.FlushFiles? && Flush(w.out, t.io.flush).ok {
      FlushTurn(w, max, t.io);
    } else {
      TurnExtends(w, max, t);
      ContextsHoldOn(w, max, Turned(w, max, t));
    }
  }

  // ----- The batch in hand -----

  /** Until it is written, the batch is the last part of what was drained. */
  ghost predicate BatchOk(w: Worker, max: nat) {
    w.pc.ReadConfig? || w.pc.WriteFiles? ==>
      && max > 0 && |w.batch| <= |w.hist.drained| && w.hist.drained[|w.hist.drained| - |w.batch|..] == w.batch
      && (w.pc.WriteFiles? ==> w.recs == SplitAll(w.batch, max))
  }

  lemma TurnBatch(w: Worker, max: nat, t: Turn)
    requires BatchOk(w, max) && CanTurn(w, max, t) && max > 0
    ensures BatchOk(Turned(w, max, t), max)
  {
    if t.Swap? {
      assert (w.hist.drained + t.queue)[|w.hist.drained|..] == t.queue;
    }
  }

  /** What is written are the records of the entries before the batch in hand. */
  lemma WrittenAreWhole(w: Worker, max: nat) returns (k: nat)
    requires StreamOk(w, max) && BatchOk(w, max) && !Failed(w)
    ensures k <= |w.hist.drained| && w.hist.written == SplitAll(w.hist.drained[..k], max)
    ensures k == |w.hist.drained| || k == |w.hist.drained| - |w.batch|
  {
    var d := w.hist.drained;
    k := if w.pc.ReadConfig? || w.pc.WriteFiles? then |d| - |w.batch| else |d|;
    assert d == d[..k] + d[k..];
    SplitAllAppend(d[..k], d[k..], max);
    if k == |d| {
      assert d[k..] == [] && d[..k] == d;
    }
    SameTail(w.hist.written, SplitAll(d[..k], max), Pending(w, max));
  }

  lemma SameTail<T>(a: seq<T>, b: seq<T>, tail: seq<T>)
    requires a + tail == b + tail
    ensures a == b
  {
    assert |a| == |b|;
    assert a == (a + tail)[..|a|] && b == (b + tail)[..|b|];
  }
}
