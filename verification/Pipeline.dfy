/** The logger as a concurrent system: any number of producers, `wait_for_flush` callers
    and registration requests, and the one log thread
    (`src/logger/logger_thread_ctx.rs`). A step is one lock region of one thread, or one
    push under the queue lock; every interleaving of the threads is a sequence of steps. */
module Pipeline {
  import opened Records
  import opened Fanout
  import opened Workers
  import S = Semaphores

  /** Where a producer is in a call of `queue_log` or `queue_logs`. */
  datatype ProducerPc =
    | Idle
    | Reading             // holds the logger's read guard
    | Pushing(done: nat)  // holds the queue lock, has pushed `done` entries
    | Pushed              // queue unlocked, not yet signalled
    | Signalled           // still holds the read guard

  /** A producer makes `calls` in order; a call of `queue_log` is a group of one entry. */
  datatype Producer = Producer(calls: seq<seq<LogData>>, next: nat, pc: ProducerPc) {
    predicate Finished() { pc.Idle? && next >= |calls| }
  }

  /** Where a `wait_for_flush` or `wait_for_flush_timeout` caller is. */
  datatype CallerPc =
    | Out
    | Holding(timed: bool)  // holds the read guard, about to wait on the queue's semaphore
    | Waiting               // inside the semaphore, still holding the read guard
    | Returning             // still holds the read guard

  datatype Call = Call(who: nat, entries: seq<LogData>)

  /** `readers` hold the logger's read guard; a write guard is held within one step only.
      `admin` are the registration requests that wait for the write guard. Two fields are
      history: `calls`, the calls in the order in which they took the queue lock, with what
      each pushed so far, and `stolen`, the tokens that `wait_for_flush` callers consumed
      while entries were queued, since the last drain. */
  datatype State = State(
    max: nat, prods: map<nat, Producer>, callers: map<nat, CallerPc>, admin: seq<AdminOp>, calls: seq<Call>,
    readers: set<nat>, qLock: Option<nat>, queue: seq<LogData>, sem: S.Sem, stolen: nat, w: Worker)

  datatype Action =
    | Prod(p: nat)
    | Begin(t: nat, timed: bool)  // a thread calls `wait_for_flush` (`timed`: with a timeout)
    | Caller(t: nat)
    | Spurious(t: nat)
    | Request(op: AdminOp)
    | Admin(k: nat)
    | Log(io: Io)

  // ----- The entries accepted so far -----

  function Entries(calls: seq<Call>): seq<LogData> {
    if calls == [] then [] else Entries(calls[..|calls| - 1]) + calls[|calls| - 1].entries
  }

  /** All entries pushed so far, in queue-lock order. */
  function Accepted(s: State): seq<LogData> { Entries(s.calls) }

  /** The call that holds the queue lock pushes `e`. */
  function PushLast(calls: seq<Call>, e: LogData): seq<Call>
    requires calls != []
  {
    var n := |calls| - 1;
    calls[..n] + [Call(calls[n].who, calls[n].entries + [e])]
  }

  // ----- Producers -----

  predicate ProdEnabled(s: State, p: nat) {
    p in s.prods &&
    match s.prods[p].pc
    case Idle => s.prods[p].next < |s.prods[p].calls|
    case Reading => s.qLock.None?
    case Pushing(_) => s.prods[p].next < |s.prods[p].calls| && s.calls != []
    case Pushed => true
    case Signalled => true
  }

  function Moved(s: State, p: nat, pc: ProducerPc): map<nat, Producer>
    requires p in s.prods
  {
    s.prods[p := s.prods[p].(pc := pc)]
  }

  function ProdStep(s: State, p: nat): State
    requires ProdEnabled(s, p)
  {
    var me := s.prods[p];
    match me.pc
    case Idle => s.(prods := Moved(s, p, Reading), readers := s.readers + {p})
    case Reading => s.(prods := Moved(s, p, Pushing(0)), qLock := Some(p), calls := s.calls + [Call(p, [])])
    case Pushing(done) =>
      if done < |me.calls[me.next]| then
        var e := me.calls[me.next][done];
        s.(prods := Moved(s, p, Pushing(done + 1)), queue := s.queue + [e], calls := PushLast(s.calls, e))
      else s.(prods := Moved(s, p, Pushed), qLock := None)
    case Pushed => s.(prods := Moved(s, p, Signalled), sem := S.Step(s.sem, S.Raise))
    case Signalled =>
      s.(prods := s.prods[p := me.(pc := Idle, next := me.next + 1)], readers := s.readers - {p})
  }

  // ----- `wait_for_flush` callers -----

  /** The next semaphore step of a caller inside it. */
  function CallerEvent(s: State, t: nat): S.Event
    requires t in s.callers
  {
    if s.callers[t].Holding? then S.Enter(t, s.callers[t].timed)
    else if t !in s.sem.waiters then S.Recheck(t)
    else
      match s.sem.waiters[t]
      case Asleep(_) => S.Expire(t)
      case Notified(_) => S.Recheck(t)
      case TimedOut => S.GiveUp(t)
  }

  predicate CallerEnabled(s: State, t: nat) {
    && t in s.callers
    && !s.callers[t].Out?
    && (s.callers[t].Returning? || S.Enabled(s.sem, CallerEvent(s, t)))
  }

  function CallerStep(s: State, t: nat): State
    requires CallerEnabled(s, t)
  {
    if s.callers[t].Returning? then s.(callers := s.callers[t := Out], readers := s.readers - {t})
    else
      var sem := S.Step(s.sem, CallerEvent(s, t));
      var taken := if sem.takes > s.sem.takes && s.queue != [] then 1 else 0;
      s.(sem := sem,
         callers := s.callers[t := if t in sem.waiters then Waiting else Returning],
         stolen := s.stolen + taken)
  }

  // ----- The log thread -----

  ghost predicate LogEnabled(s: State, io: Io) {
    match s.w.pc
    case Drain => s.qLock.None?
    case CheckFlush => s.qLock.None?
    case CheckSleep => s.qLock.None?
    case WaitSem => S.Enabled(s.sem, S.Enter(LOG, false))
    case Parked => S.Enabled(s.sem, S.Recheck(LOG))
    case _ => WorkEnabled(s.w, s.max, io) && (WantsWrite(s.w) ==> s.readers == {})
  }

  /** The log thread is done with its wait, or parked. */
  function Semaphored(s: State, e: S.Event): State
    requires S.Enabled(s.sem, e)
  {
    var sem := S.Step(s.sem, e);
    s.(sem := sem, w := if LOG in sem.waiters then s.w.(pc := Parked) else Looped(s.w))
  }

  /** A step of the log thread alone; it holds the read guard while it calls sinks. */
  function Worked(s: State, w: Worker): State {
    s.(w := w, readers := if InSinks(w) then s.readers + {LOG} else s.readers - {LOG})
  }

  ghost function LogStep(s: State, io: Io): State
    requires LogEnabled(s, io)
  {
    match s.w.pc
    case Drain => s.(queue := Drained(s.w, s.queue).guard.items, stolen := 0, w := Drained(s.w, s.queue))
    case CheckFlush => s.(w := FlushChecked(s.w, s.queue))
    case CheckSleep => s.(w := SleepChecked(s.w, s.queue))
    case WaitSem => Semaphored(s, S.Enter(LOG, false))
    case Parked => Semaphored(s, S.Recheck(LOG))
    case _ => Worked(s, Work(s.w, s.max, io))
  }

  // ----- The system -----

  /** The locks let the step happen. A read guard needs no writer inside; whether a waiting
      writer keeps readers out as well is left open here, see `Fair` in module Progress. */
  ghost predicate Enabled(s: State, a: Action) {
    match a
    case Prod(p) => ProdEnabled(s, p)
    case Begin(t, _) => t in s.callers && s.callers[t].Out?
    case Caller(t) => CallerEnabled(s, t)
    case Spurious(t) => S.Enabled(s.sem, S.Spurious(t))
    case Request(_) => true
    case Admin(k) => k < |s.admin| && s.readers == {}
    case Log(io) => LogEnabled(s, io)
  }

  ghost function Step(s: State, a: Action): State
    requires Enabled(s, a)
  {
    match a
    case Prod(p) => ProdStep(s, p)
    case Begin(t, timed) => s.(callers := s.callers[t := Holding(timed)], readers := s.readers + {t})
    case Caller(t) => CallerStep(s, t)
    case Spurious(t) => s.(sem := S.Step(s.sem, S.Spurious(t)))
    case Request(op) => s.(admin := s.admin + [op])
    case Admin(k) => s.(admin := s.admin[..k] + s.admin[k + 1..], w := Registered(s.w, s.admin[k]))
    case Log(io) => LogStep(s, io)
  }

  /** `init` spawns the log thread over whatever was queued and registered before. */
  ghost predicate Init(s: State) {
    && s.max > 0
    && LOG !in s.prods && LOG !in s.callers && s.prods.Keys !! s.callers.Keys
    && (forall p :: p in s.prods ==> s.prods[p].pc.Idle? && s.prods[p].next == 0)
    && (forall t :: t in s.callers ==> s.callers[t].Out?)
    && s.readers == {} && s.admin == [] && s.qLock.None?
    && s.queue == Entries(s.calls)
    && (forall i :: 0 <= i < |s.calls| ==> s.calls[i].who !in s.prods)
    && s.sem == (if s.calls == [] then S.NEW else S.Step(S.NEW, S.Raise))
    && s.stolen == 0
    && Fresh(s.w)
  }

  ghost predicate Legal(s: State, acts: seq<Action>)
    decreases acts
  {
    acts == [] || (Enabled(s, acts[0]) && Legal(Step(s, acts[0]), acts[1..]))
  }

  ghost function After(s: State, acts: seq<Action>): State
    requires Legal(s, acts)
    decreases acts
  {
    if acts == [] then s else After(Step(s, acts[0]), acts[1..])
  }
}
