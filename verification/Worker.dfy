/** The log thread and what it writes: one iteration of `log_thread`, and the error path of
    `init` (`src/logger/logger_thread_ctx.rs`). A step is one lock region. */
module Workers {
  import opened Records
  import opened Splitter
  import opened Fanout
  import opened VecPools

  /** The log thread's id. */
  const LOG: nat := 0

  /** Where the log thread is. */
  datatype LogPc =
    | Drain | ReadConfig | WriteFiles
    | NextRecord(i: nat)          // records before `i` were offered to the sinks
    | CallSinks(i: nat, j: nat)   // holds the read guard; sinks before `j` were called with record `i`
    | CheckFlush | FlushFiles | CheckSleep
    | WaitSem                     // about to wait on the queue's semaphore
    | Parked                      // inside the semaphore
    | ErrFlush | ErrWrite         // the error path of `init`
    | ErrRead | ErrSinks(j: nat)
    | Dead

  /** What happened so far; the steps of the log thread depend on `err` alone, the record that
      the error path hands to the sinks.
      `drained`: the entries taken out of the queue; `written`: the records written to the
      global file; `err`: the error record after them; `complete`: the records that have their
      context line too; `since`, `sinkSince`: the position, among the complete records and
      among those written, at which a context or sink was registered; `delivered`: the records
      offered to every sink, `ahead`: the sinks that have the next one; `errSinks`: the sinks
      that have the error record; `flushed`: the entries drained before the last flush;
      `turns`: the drains. */
  datatype History = History(
    drained: seq<LogData>, written: seq<LogData>, err: Option<LogData>, complete: seq<LogData>,
    since: map<string, nat>, sinkSince: seq<nat>, delivered: nat, ahead: nat, errSinks: nat, flushed: nat,
    turns: nat)

  /** `batch` is the queue drained in this iteration, `recs` its records after the split;
      `guard` is the pooled vector in hand. */
  datatype Worker = Worker(
    pc: LogPc, batch: seq<LogData>, recs: seq<LogData>, logged: nat, pool: Pool<LogData>, guard: Buffer<LogData>,
    out: Output, hist: History)

  /** What the outside world decides in a step of the log thread. */
  datatype Io = Io(plan: Plan, flush: FlushPlan, sinkOk: bool, error: LogData)

  /** The log thread gave up on an error. */
  predicate Failed(w: Worker) {
    w.pc.ErrFlush? || w.pc.ErrWrite? || w.pc.ErrRead? || w.pc.ErrSinks? || w.pc.Dead?
  }

  /** The log thread holds the logger's read guard. */
  predicate InSinks(w: Worker) { w.pc.CallSinks? || w.pc.ErrSinks? }

  /** The log thread is about to take the read guard. */
  predicate WantsRead(w: Worker) {
    w.pc.ReadConfig? || (w.pc.NextRecord? && w.pc.i < |w.recs|) || w.pc.ErrRead?
  }

  /** The log thread is about to take the write guard. */
  predicate WantsWrite(w: Worker) {
    w.pc.WriteFiles? || w.pc.FlushFiles? || w.pc.ErrFlush? || w.pc.ErrWrite?
  }

  const ERROR_TAG := "Paper2"
  const ERROR_PREFIX := "Error occurred in logging thread: "

  /** The record `init` writes when the log thread gives up. */
  predicate IsErrorRecord(r: LogData) {
    r.level.Error? && r.tag == Some(ERROR_TAG) && ERROR_PREFIX <= r.message && r.functionName.None?
  }

  /** The queue was swapped for a copy of the pooled vector. */
  function Drained(w: Worker, queue: seq<LogData>): Worker {
    var (vec, pool) := Take(w.pool);
    w.(pc := if queue == [] then CheckFlush else ReadConfig,
       batch := queue, recs := [], logged := w.logged + |queue|, pool := pool, guard := vec,
       hist := w.hist.(drained := w.hist.drained + queue, turns := w.hist.turns + 1))
  }

  function Written(w: Worker, io: Io): Worker {
    var r := WriteBatch(w.out, w.recs, io.plan);
    w.(out := r.out, pc := if r.ok then NextRecord(0) else ErrFlush,
       hist := w.hist.(written := w.hist.written + w.recs[..r.written], complete := w.hist.complete + w.recs[..r.complete]))
  }

  /** One sink is called with record `i`, or the read guard is dropped after the last. A
      failing sink has been called with the record all the same. */
  function SinkCalled(w: Worker, io: Io): Worker
    requires w.pc.CallSinks? && w.pc.i < |w.recs| && w.pc.j <= |w.out.sinks|
  {
    var i, j := w.pc.i, w.pc.j;
    if j == |w.out.sinks| then
      w.(pc := NextRecord(i + 1), hist := w.hist.(delivered := w.hist.delivered + 1, ahead := 0))
    else
      w.(pc := if io.sinkOk then CallSinks(i, j + 1) else ErrFlush,
         out := Deliver(w.out, w.recs[i], j), hist := w.hist.(ahead := j + 1))
  }

  ghost function FilesFlushed(w: Worker, io: Io): Worker
    requires Enumerates(io.flush.order, w.out.contexts.Keys)
  {
    var r := Flush(w.out, io.flush);
    if r.ok then w.(out := r.out, pc := CheckSleep, logged := 0, hist := w.hist.(flushed := |w.hist.drained|))
    else w.(out := r.out, pc := ErrFlush)
  }

  /** The end of an iteration: its guard drops. */
  function Looped(w: Worker): Worker {
    w.(pc := Drain, pool := PutBack(w.pool, w.guard))
  }

  function ErrorWritten(w: Worker, io: Io): Worker {
    var r := WriteRecord(w.out, io.error, At(io.plan, 0));
    w.(out := r.out, pc := if r.ok then ErrRead else Dead,
       hist := w.hist.(err := if r.written == 1 then Some(io.error) else w.hist.err,
                       complete := w.hist.complete + if r.complete == 1 then [io.error] else []))
  }

  function ErrorSinkCalled(w: Worker, io: Io): Worker
    requires w.pc.ErrSinks? && w.hist.err.Some? && w.pc.j <= |w.out.sinks|
  {
    var j := w.pc.j;
    if j == |w.out.sinks| then w.(pc := Dead)
    else
      w.(pc := if io.sinkOk then ErrSinks(j + 1) else Dead,
         out := Deliver(w.out, w.hist.err.value, j), hist := w.hist.(errSinks := j + 1))
  }

  /** The steps that touch neither the queue nor its semaphore. */
  ghost predicate WorkEnabled(w: Worker, max: nat, io: Io) {
    match w.pc
    case ReadConfig => max > 0
    case WriteFiles => true
    case NextRecord(i) => i <= |w.recs|
    case CallSinks(i, j) => i < |w.recs| && j <= |w.out.sinks|
    case FlushFiles => Enumerates(io.flush.order, w.out.contexts.Keys)
    case ErrFlush => Enumerates(io.flush.order, w.out.contexts.Keys)
    case ErrWrite => IsErrorRecord(io.error)
    case ErrRead => true
    case ErrSinks(j) => w.hist.err.Some? && j <= |w.out.sinks|
    case _ => false
  }

  ghost function Work(w: Worker, max: nat, io: Io): Worker
    requires WorkEnabled(w, max, io)
  {
    match w.pc
    case ReadConfig => w.(pc := WriteFiles, recs := SplitAll(w.batch, max))
    case WriteFiles => Written(w, io)
    case NextRecord(i) => w.(pc := if i < |w.recs| then CallSinks(i, 0) else CheckFlush)
    case CallSinks(_, _) => SinkCalled(w, io)
    case FlushFiles => FilesFlushed(w, io)
    case ErrFlush => w.(pc := ErrWrite, out := Flush(w.out, io.flush).out)
    case ErrWrite => ErrorWritten(w, io)
    case ErrRead => w.(pc := ErrSinks(0))
    case ErrSinks(_) => ErrorSinkCalled(w, io)
  }

  /** `lock().is_empty()`, then a flush if nothing is queued or 100 entries are unflushed. */
  function FlushChecked(w: Worker, queue: seq<LogData>): Worker {
    w.(pc := if queue == [] || w.logged >= 100 then FlushFiles else CheckSleep)
  }

  /** The second `lock().is_empty()`: wait only if nothing is queued. */
  function SleepChecked(w: Worker, queue: seq<LogData>): Worker {
    if queue == [] then w.(pc := WaitSem) else Looped(w)
  }

  function Register(h: History, op: AdminOp): History {
    match op
    case AddContext(tag, created) => if created then h.(since := h.since[tag := |h.complete|]) else h
    case RemoveContext(tag) => h.(since := h.since - {tag})
    case AddSink => h.(sinkSince := h.sinkSince + [h.delivered])
  }

  /** A registration, under the write guard. */
  function Registered(w: Worker, op: AdminOp): Worker {
    w.(out := Administer(w.out, op), hist := Register(w.hist, op))
  }

  /** The log thread at its start, over the contexts and sinks registered before `init`. */
  ghost predicate Fresh(w: Worker) {
    && w.pc.Drain? && w.batch == [] && w.recs == [] && w.logged == 0
    && w.pool == Seeded(2, 1024) && w.guard.items == []
    && w.out.global == EMPTY
    && (forall tag :: tag in w.out.contexts ==> w.out.contexts[tag] == EMPTY)
    && (forall k :: 0 <= k < |w.out.sinks| ==> w.out.sinks[k] == [])
    && w.hist == History([], [], None, [], map tag | tag in w.out.contexts :: 0,
                         seq(|w.out.sinks|, _ => 0), 0, 0, 0, 0, 0)
  }

  /** A step as the worker sees it. */
  datatype Turn =
    | Stay
    | Act(io: Io)
    | Swap(queue: seq<LogData>)
    | TestFlush(queue: seq<LogData>)
    | TestSleep(queue: seq<LogData>)
    | Park
    | Wake
    | Enlist(op: AdminOp)

  ghost predicate CanTurn(w: Worker, max: nat, t: Turn) {
    match t
    case Stay => true
    case Act(io) => WorkEnabled(w, max, io)
    case Swap(_) => w.pc.Drain?
    case TestFlush(_) => w.pc.CheckFlush?
    case TestSleep(_) => w.pc.CheckSleep?
    case Park => w.pc.WaitSem? || w.pc.Parked?
    case Wake => w.pc.WaitSem? || w.pc.Parked?
    case Enlist(_) => !InSinks(w)
  }

  ghost function Turned(w: Worker, max: nat, t: Turn): Worker
    requires CanTurn(w, max, t)
  {
    match t
    case Stay => w
    case Act(io) => Work(w, max, io)
    case Swap(queue) => Drained(w, queue)
    case TestFlush(queue) => FlushChecked(w, queue)
    case TestSleep(queue) => SleepChecked(w, queue)
    case Park => w.(pc := Parked)
    case Wake => Looped(w)
    case Enlist(op) => Registered(w, op)
  }
}
