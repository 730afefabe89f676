/** The one-bit semaphore (`src/semaphore_lite.rs`). Each operation is cut into its lock
    regions: the mutex is free only between them, so any interleaving of threads is a
    sequence of these steps. */
module Semaphores {

  /** Where a thread inside `wait` or `wait_timeout` is while it does not hold the mutex. */
  datatype Status =
    | Asleep(timed: bool)    // parked on the condition variable
    | Notified(timed: bool)  // woken, about to lock the mutex and test the flag again
    | TimedOut               // woken by its timeout, about to lock the mutex and return

  /** `rises` counts the signals that found the flag down, `takes` the waits that returned
      by consuming it. */
  datatype Sem = Sem(flag: bool, waiters: map<nat, Status>, rises: nat, takes: nat)

  datatype Event =
    | Raise                     // `signal`
    | Enter(t: nat, timed: bool) // `wait` / `wait_timeout` up to its return or its first park
    | Recheck(t: nat)           // a notified thread tests the flag again: returns or parks
    | Expire(t: nat)            // the timeout of a parked thread runs out
    | GiveUp(t: nat)            // a timed-out thread locks the mutex and returns
    | Spurious(t: nat)          // a parked thread wakes without a signal

  const NEW := Sem(false, map[], 0, 0)

  function Wake(st: Status): Status {
    if st.Asleep? then Notified(st.timed) else st
  }

  /** `notify_all` on every parked thread. */
  function WakeAll(waiters: map<nat, Status>): map<nat, Status> {
    map t | t in waiters :: Wake(waiters[t])
  }

  predicate Enabled(s: Sem, e: Event) {
    match e
    case Raise => true
    case Enter(t, _) => t !in s.waiters
    case Recheck(t) => t in s.waiters && s.waiters[t].Notified?
    case Expire(t) => t in s.waiters && s.waiters[t] == Asleep(true)
    case GiveUp(t) => t in s.waiters && s.waiters[t].TimedOut?
    case Spurious(t) => t in s.waiters && s.waiters[t].Asleep?
  }

  /** Thread `t` holds the mutex and tests the flag. */
  function Test(s: Sem, t: nat, timed: bool): Sem {
    if s.flag then s.(flag := false, waiters := s.waiters - {t}, takes := s.takes + 1)
    else s.(waiters := s.waiters[t := Asleep(timed)])
  }

  function Step(s: Sem, e: Event): Sem
    requires Enabled(s, e)
  {
    match e
    case Raise =>
      s.(flag := true, waiters := WakeAll(s.waiters), rises := if s.flag then s.rises else s.rises + 1)
    case Enter(t, timed) => Test(s, t, timed)
    case Recheck(t) => Test(s, t, s.waiters[t].timed)
    case Expire(t) => s.(waiters := s.waiters[t := TimedOut])
    case GiveUp(t) => s.(waiters := s.waiters - {t})
    case Spurious(t) => s.(waiters := s.waiters[t := Wake(s.waiters[t])])
  }

  ghost predicate Legal(s: Sem, es: seq<Event>)
    decreases es
  {
    es == [] || (Enabled(s, es[0]) && Legal(Step(s, es[0]), es[1..]))
  }

  ghost function After(s: Sem, es: seq<Event>): Sem
    requires Legal(s, es)
    decreases es
  {
    if es == [] then s else After(Step(s, es[0]), es[1..])
  }

  /** Every raised token is consumed once or still there, and nobody stays parked over a raised flag. */
  ghost predicate Inv(s: Sem) {
    && s.rises == s.takes + (if s.flag then 1 else 0)
    && (s.flag ==> forall t :: t in s.waiters ==> !s.waiters[t].Asleep?)
  }

  lemma StepInv(s: Sem, e: Event)
    requires Inv(s) && Enabled(s, e)
    ensures Inv(Step(s, e))
  {
  }

  /** Conservation and wakeup, for any number of threads and any schedule. */
  lemma {:induction false} RunInv(s: Sem, es: seq<Event>)
    requires Inv(s) && Legal(s, es)
    ensures Inv(After(s, es))
    decreases es
  {
    if es != [] {
      RunInv(Step(s, es[0]), es[1..]);
    }
  }

  lemma Conservation(es: seq<Event>)
    requires Legal(NEW, es)
    ensures var s := After(NEW, es);
      && s.rises == s.takes + (if s.flag then 1 else 0)
      && (s.flag ==> forall t :: t in s.waiters ==> !s.waiters[t].Asleep?)
  {
    RunInv(NEW, es);
  }

  /** The waits that end in `es` by consuming the flag. */
  ghost function Released(s: Sem, es: seq<Event>): int
    requires Legal(s, es)
  {
    After(s, es).takes - s.takes
  }

  /** The waits that end in `es` by their timeout. */
  ghost function GaveUp(es: seq<Event>): nat {
    if es == [] then 0 else (if es[0].GiveUp? then 1 else 0) + GaveUp(es[1..])
  }

  ghost function Entered(es: seq<Event>): nat {
    if es == [] then 0 else (if es[0].Enter? then 1 else 0) + Entered(es[1..])
  }

  /** Every wait that starts is still inside, or ended by one consumed token or one timeout:
      a timed-out wait takes no token. */
  lemma {:induction false} WaitsAccounted(s: Sem, es: seq<Event>)
    requires Legal(s, es)
    ensures |s.waiters| + Entered(es) == |After(s, es).waiters| + Released(s, es) + GaveUp(es)
    decreases es
  {
    if es != [] {
      var s' := Step(s, es[0]);
      WaitsAccounted(s', es[1..]);
      WaitsAccountedStep(s, es[0]);
    }
  }

  lemma KeysCount(m: map<nat, Status>, m': map<nat, Status>, t: nat)
    ensures m'.Keys == m.Keys ==> |m'| == |m|
    ensures t !in m && m'.Keys == m.Keys + {t} ==> |m'| == |m| + 1
    ensures t in m && m'.Keys == m.Keys - {t} ==> |m'| == |m| - 1
  {
    assert |m| == |m.Keys| && |m'| == |m'.Keys|;
  }

  /** A test of the flag takes a token or leaves the thread inside. */
  lemma TestCount(s: Sem, t: nat, timed: bool)
    ensures var s' := Test(s, t, timed);
      |s'.waiters| + s'.takes == |s.waiters| + (if t in s.waiters then 0 else 1) + s.takes
  {
    var m, m' := s.waiters, Test(s, t, timed).waiters;
    if t in m {
      assert m'.Keys == if s.flag then m.Keys - {t} else m.Keys;
    } else {
      assert m'.Keys == if s.flag then m.Keys else m.Keys + {t};
    }
    KeysCount(m, m', t);
  }

  lemma WaitsAccountedStep(s: Sem, e: Event)
    requires Enabled(s, e)
    ensures |s.waiters| + (if e.Enter? then 1 else 0)
         == |Step(s, e).waiters| + Step(s, e).takes - s.takes + (if e.GiveUp? then 1 else 0)
  {
    match e {
      case Enter(t, timed) => TestCount(s, t, timed);
      case Recheck(t) => TestCount(s, t, s.waiters[t].timed);
      case GiveUp(t) => KeysCount(s.waiters, s.waiters - {t}, t);
      case _ =>
        assert Step(s, e).waiters.Keys == s.waiters.Keys;
        KeysCount(s.waiters, Step(s, e).waiters, 0);
    }
  }

  // ----- A burst of signals -----

  ghost predicate OnlyRaises(es: seq<Event>) { forall i :: 0 <= i < |es| ==> es[i].Raise? }

  ghost predicate NoRaise(es: seq<Event>) { forall i :: 0 <= i < |es| ==> !es[i].Raise? }

  /** No woken thread still has to test the flag. */
  ghost predicate Settled(s: Sem) { forall t :: t in s.waiters ==> !s.waiters[t].Notified? }

  /** Thread `t` waits without a timeout. */
  ghost predicate WaitsForEver(s: Sem, t: nat) {
    t in s.waiters && (s.waiters[t] == Asleep(false) || s.waiters[t] == Notified(false))
  }

  lemma {:induction false} RaisesCollapse(s: Sem, burst: seq<Event>)
    requires OnlyRaises(burst) && burst != []
    ensures Legal(s, burst)
    ensures After(s, burst) == Step(s, Raise)
    decreases burst
  {
    var s' := Step(s, Raise);
    if |burst| == 1 {
      assert burst == [Raise] && burst[1..] == [];
    } else {
      RaisesCollapse(s', burst[1..]);
      assert WakeAll(WakeAll(s.waiters)) == WakeAll(s.waiters);
    }
  }

  /** Without a signal no token appears; while none is consumed the flag stays up and `t` stays notified. */
  lemma {:induction false} TokenKept(s: Sem, t: nat, es: seq<Event>)
    requires Inv(s) && Legal(s, es) && NoRaise(es) && s.flag
    ensures Released(s, es) <= 1
    ensures Released(s, es) == 0 && t in s.waiters && s.waiters[t] == Notified(false) ==>
      t in After(s, es).waiters && After(s, es).waiters[t] == Notified(false)
    decreases es
  {
    if es != [] {
      var s' := Step(s, es[0]);
      StepInv(s, es[0]);
      if s'.flag {
        TokenKept(s', t, es[1..]);
      } else {
        NoToken(s', es[1..]);
      }
    }
  }

  lemma {:induction false} NoToken(s: Sem, es: seq<Event>)
    requires Legal(s, es) && NoRaise(es) && !s.flag
    ensures Released(s, es) == 0
    decreases es
  {
    if es != [] {
      NoToken(Step(s, es[0]), es[1..]);
    }
  }

  /** However many signals come together, they release one thread at most; and exactly one
      once the woken threads have all tested the flag, if some thread waits without a timeout. */
  lemma BurstReleasesOne(s: Sem, burst: seq<Event>, rest: seq<Event>)
    requires Inv(s) && OnlyRaises(burst) && burst != []
    requires Legal(s, burst) && Legal(After(s, burst), rest) && NoRaise(rest)
    ensures Released(After(s, burst), rest) <= 1
    ensures Settled(After(After(s, burst), rest)) && (exists t :: WaitsForEver(s, t)) ==>
      Released(After(s, burst), rest) == 1
  {
    RaisesCollapse(s, burst);
    var s' := Step(s, Raise);
    StepInv(s, Raise);
    TokenKept(s', 0, rest);
    RunInv(s', rest);
    if Settled(After(s', rest)) && exists t :: WaitsForEver(s, t) {
      var t :| WaitsForEver(s, t);
      TokenKept(s', t, rest);
      TakesGrow(s', rest);
    }
  }

  lemma {:induction false} TakesGrow(s: Sem, es: seq<Event>)
    requires Legal(s, es)
    ensures Released(s, es) >= 0
    decreases es
  {
    if es != [] {
      TakesGrow(Step(s, es[0]), es[1..]);
    }
  }

  // ----- A whole wait -----

  /** How a timed wait ends, if it does. */
  datatype WaitEnd = Took | Expired | Parked

  /** Thread `t` makes no step of its own. */
  ghost predicate Others(t: nat, es: seq<Event>) {
    forall i :: 0 <= i < |es| ==> es[i] != Recheck(t) && es[i] != GiveUp(t) && !(es[i].Enter? && es[i].t == t)
  }

  /** Thread `t` is inside a wait. */
  predicate Inside(s: Sem, t: nat, timed: bool) {
    t in s.waiters && (s.waiters[t] == Asleep(timed) || s.waiters[t] == Notified(timed) || (timed && s.waiters[t].TimedOut?))
  }

  /** Whatever the others do, a parked thread stays inside; only a timed one can time out. */
  lemma {:induction false} ParkEnds(s: Sem, t: nat, timed: bool, es: seq<Event>)
    requires Inside(s, t, timed) && Legal(s, es) && Others(t, es)
    ensures Inside(After(s, es), t, timed)
    decreases es
  {
    if es != [] {
      assert es[0] != Recheck(t) && es[0] != GiveUp(t) && !(es[0].Enter? && es[0].t == t);
      assert Inside(Step(s, es[0]), t, timed);
      ParkEnds(Step(s, es[0]), t, timed, es[1..]);
    }
  }

  /** `e` is the test of the flag after a wakeup. */
  predicate Rechecks(s: Sem, t: nat, timed: bool, e: Event) {
    e == Recheck(t) && t in s.waiters && s.waiters[t] == Notified(timed)
  }

  /** `parks` can happen, from the test `e` of the flag on: in each park the others act until
      the thread is woken, by a signal, its timeout or for no reason. */
  ghost predicate Fits(s: Sem, t: nat, timed: bool, e: Event, parks: seq<seq<Event>>)
    decreases parks
  {
    && (if e == Enter(t, timed) then t !in s.waiters else Rechecks(s, t, timed, e))
    && (s.flag || parks == []
        || (var s1 := Step(s, e);
            && Legal(s1, parks[0]) && Others(t, parks[0])
            && var s2 := After(s1, parks[0]);
               && Inside(s2, t, timed) && !s2.waiters[t].Asleep?
               && (s2.waiters[t].TimedOut? || Fits(s2, t, timed, Recheck(t), parks[1..]))))
  }

  /** The events of a wait from its test `e` on, its own and those of the others. */
  ghost function WaitRun(s: Sem, t: nat, timed: bool, e: Event, parks: seq<seq<Event>>): seq<Event>
    requires Fits(s, t, timed, e, parks)
    decreases parks
  {
    if s.flag || parks == [] then [e]
    else
      var s2 := After(Step(s, e), parks[0]);
      [e] + (parks[0] + if s2.waiters[t].TimedOut? then [GiveUp(t)] else WaitRun(s2, t, timed, Recheck(t), parks[1..]))
  }

  lemma {:induction false} LegalAppend(s: Sem, a: seq<Event>, b: seq<Event>)
    requires Legal(s, a) && Legal(After(s, a), b)
    ensures Legal(s, a + b) && After(s, a + b) == After(After(s, a), b)
    decreases a
  {
    if a == [] {
      assert a + b == b;
    } else {
      LegalAppend(Step(s, a[0]), a[1..], b);
      assert (a + b)[1..] == a[1..] + b;
    }
  }

  lemma LegalOne(s: Sem, e: Event)
    requires Enabled(s, e)
    ensures Legal(s, [e]) && After(s, [e]) == Step(s, e)
  {
    assert [e][1..] == [];
  }

  lemma LegalCons(s: Sem, e: Event, es: seq<Event>)
    requires Enabled(s, e) && Legal(Step(s, e), es)
    ensures Legal(s, [e] + es) && After(s, [e] + es) == After(Step(s, e), es)
  {
    assert ([e] + es)[1..] == es;
  }

  /** The state after the wait. */
  ghost function Ended(s: Sem, t: nat, timed: bool, e: Event, parks: seq<seq<Event>>): Sem
    requires Fits(s, t, timed, e, parks)
    decreases parks
  {
    if s.flag || parks == [] then Step(s, e)
    else
      var s2 := After(Step(s, e), parks[0]);
      if s2.waiters[t].TimedOut? then Step(s2, GiveUp(t)) else Ended(s2, t, timed, Recheck(t), parks[1..])
  }

  ghost function Ends(s: Sem, t: nat, timed: bool, e: Event, parks: seq<seq<Event>>): WaitEnd
    requires Fits(s, t, timed, e, parks)
    decreases parks
  {
    if s.flag then Took else if parks == [] then Parked
    else
      var s2 := After(Step(s, e), parks[0]);
      if s2.waiters[t].TimedOut? then Expired else Ends(s2, t, timed, Recheck(t), parks[1..])
  }

  /** One turn of the loop of a wait that finds the flag down: the thread parks, and after
      its park it returns by its timeout or tests the flag again. */
  lemma ParkStep(s: Sem, t: nat, timed: bool, e: Event, parks: seq<seq<Event>>, k: nat)
    requires k <= |parks| && Fits(s, t, timed, e, parks[k..]) && !s.flag
    ensures var s1 := Test(s, t, timed);
      && s1 == s.(waiters := s.waiters[t := Asleep(timed)])
      && (k == |parks| ==> Ended(s, t, timed, e, parks[k..]) == s1 && Ends(s, t, timed, e, parks[k..]).Parked?)
      && (k < |parks| ==>
            && Legal(s1, parks[k])
            && var s2 := After(s1, parks[k]);
               && Inside(s2, t, timed)
               && if s2.waiters[t].TimedOut? then
                    Ended(s, t, timed, e, parks[k..]) == Step(s2, GiveUp(t)) && Ends(s, t, timed, e, parks[k..]).Expired?
                  else
                    && Fits(s2, t, timed, Recheck(t), parks[k + 1..])
                    && Ended(s, t, timed, e, parks[k..]) == Ended(s2, t, timed, Recheck(t), parks[k + 1..])
                    && Ends(s, t, timed, e, parks[k..]) == Ends(s2, t, timed, Recheck(t), parks[k + 1..]))
  {
    if k < |parks| {
      assert parks[k..][0] == parks[k] && parks[k..][1..] == parks[k + 1..];
    }
  }

  /** The tokens that thread `t` takes in `es`. */
  ghost function TakesBy(s: Sem, t: nat, es: seq<Event>): nat
    requires Legal(s, es)
    decreases es
  {
    if es == [] then 0
    else (if s.flag && (es[0] == Recheck(t) || (es[0].Enter? && es[0].t == t)) then 1 else 0)
         + TakesBy(Step(s, es[0]), t, es[1..])
  }

  lemma {:induction false} TakesByAppend(s: Sem, t: nat, a: seq<Event>, b: seq<Event>)
    requires Legal(s, a) && Legal(After(s, a), b) && Others(t, a)
    ensures Legal(s, a + b) && TakesBy(s, t, a + b) == TakesBy(After(s, a), t, b)
    decreases a
  {
    LegalAppend(s, a, b);
    if a == [] {
      assert a + b == b;
    } else {
      assert a[0] != Recheck(t) && !(a[0].Enter? && a[0].t == t);
      TakesByAppend(Step(s, a[0]), t, a[1..], b);
      assert (a + b)[1..] == a[1..] + b;
    }
  }

  /** A wait goes through legal steps of the semaphore. It takes one token if it returns other
      than by its timeout, and none if it times out or still sleeps; and only a timed wait
      times out. */
  lemma {:induction false} WaitRuns(s: Sem, t: nat, timed: bool, e: Event, parks: seq<seq<Event>>)
    requires Fits(s, t, timed, e, parks)
    ensures var run := WaitRun(s, t, timed, e, parks);
      && Legal(s, run) && After(s, run) == Ended(s, t, timed, e, parks)
      && TakesBy(s, t, run) == (if Ends(s, t, timed, e, parks).Took? then 1 else 0)
    ensures Ends(s, t, timed, e, parks).Expired? ==> timed
    ensures t in Ended(s, t, timed, e, parks).waiters <==> Ends(s, t, timed, e, parks).Parked?
    decreases parks
  {
    LegalOne(s, e);
    if !s.flag && parks != [] {
      var s1 := Step(s, e);
      var s2 := After(s1, parks[0]);
      var rest := if s2.waiters[t].TimedOut? then [GiveUp(t)] else WaitRun(s2, t, timed, Recheck(t), parks[1..]);
      if s2.waiters[t].TimedOut? {
        LegalOne(s2, GiveUp(t));
      } else {
        WaitRuns(s2, t, timed, Recheck(t), parks[1..]);
      }
      LegalAppend(s1, parks[0], rest);
      TakesByAppend(s1, t, parks[0], rest);
      LegalCons(s, e, parks[0] + rest);
    }
  }

  /** The semaphore object. `waiters` are the threads that the condition variable holds or
      has just let go; `Wait` and `WaitTimeout` are the calls up to their return or first
      park, `Retest` is one turn of their loop after a wakeup. */
  class SemaphoreLite {
    var flag: bool
    var waiters: map<nat, Status>
    ghost var rises: nat
    ghost var takes: nat

    ghost function View(): Sem
      reads this
    {
      Sem(flag, waiters, rises, takes)
    }

    constructor ()
      ensures View() == NEW
      ensures Inv(View())
    {
      flag, waiters, rises, takes := false, map[], 0, 0;
    }

    method Signal()
      requires Inv(View())
      modifies this
      ensures View() == Step(old(View()), Raise)
      ensures Inv(View())
    {
      StepInv(View(), Raise);
      if !flag {
        rises := rises + 1;
      }
      flag := true;
      NotifyAll();
    }

    method NotifyAll()
      modifies this`waiters
      ensures waiters == WakeAll(old(waiters))
    {
      var parked := waiters.Keys;
      while parked != {}
        invariant parked <= waiters.Keys == old(waiters.Keys)
        invariant forall t :: t in waiters ==>
          waiters[t] == if t in parked then old(waiters)[t] else Wake(old(waiters)[t])
        decreases parked
      {
        var t :| t in parked;
        waiters := waiters[t := Wake(waiters[t])];
        parked := parked - {t};
      }
    }

    /** `wait` or `wait_timeout` up to its return or first park. */
    method Begin(t: nat, timed: bool) returns (returned: bool)
      requires Inv(View()) && t !in waiters
      modifies this
      ensures View() == Step(old(View()), Enter(t, timed))
      ensures Inv(View())
      ensures returned == old(flag) && returned == (t !in waiters)
    {
      returned := TestFlag(t, timed);
    }

    /** One turn of the loop of a wait after a wakeup. */
    method Retest(t: nat) returns (returned: bool)
      requires Inv(View()) && Enabled(View(), Recheck(t))
      modifies this
      ensures View() == Step(old(View()), Recheck(t))
      ensures Inv(View())
      ensures returned == old(flag) && returned == (t !in waiters)
    {
      returned := TestFlag(t, waiters[t].timed);
    }

    method TestFlag(t: nat, timed: bool) returns (returned: bool)
      requires Inv(View())
      modifies this
      ensures View() == Test(old(View()), t, timed)
      ensures Inv(View())
      ensures returned == old(flag) && returned == (t !in waiters)
    {
      returned := flag;
      if flag {
        Consume(t);
      } else {
        waiters := waiters[t := Asleep(timed)];
      }
    }

    method TimeOut(t: nat)
      requires Inv(View()) && Enabled(View(), Expire(t))
      modifies this
      ensures View() == Step(old(View()), Expire(t))
      ensures Inv(View())
    {
      waiters := waiters[t := TimedOut];
    }

    method ReturnTimedOut(t: nat)
      requires Inv(View()) && Enabled(View(), GiveUp(t))
      modifies this
      ensures View() == Step(old(View()), GiveUp(t))
      ensures Inv(View()) && flag == old(flag)
    {
      waiters := waiters - {t};
    }

    method WakeUp(t: nat)
      requires Inv(View()) && Enabled(View(), Spurious(t))
      modifies this
      ensures View() == Step(old(View()), Spurious(t))
      ensures Inv(View())
    {
      waiters := waiters[t := Wake(waiters[t])];
    }

    method Perform(e: Event)
      requires Inv(View()) && Enabled(View(), e)
      modifies this
      ensures View() == Step(old(View()), e)
      ensures Inv(View())
    {
      match e {
        case Raise => Signal();
        case Enter(t, timed) => var _ := Begin(t, timed);
        case Recheck(t) => var _ := Retest(t);
        case Expire(t) => TimeOut(t);
        case GiveUp(t) => ReturnTimedOut(t);
        case Spurious(t) => WakeUp(t);
      }
    }

    /** A thread is parked: others use the semaphore. */
    method Park(es: seq<Event>)
      requires Inv(View()) && Legal(View(), es)
      modifies this
      ensures View() == After(old(View()), es)
      ensures Inv(View())
    {
      assert es[0..] == es;
      for i := 0 to |es|
        invariant Inv(View()) && Legal(View(), es[i..])
        invariant After(View(), es[i..]) == After(old(View()), es)
      {
        assert es[i..][0] == es[i] && es[i..][1..] == es[i + 1..];
        Perform(es[i]);
      }
    }

    /** `wait`: `parks` tells what happens in each of its parks; it has not returned if it
        still sleeps at the end of the last. */
    method Wait(t: nat, parks: seq<seq<Event>>) returns (returned: bool)
      requires Inv(View()) && Fits(View(), t, false, Enter(t, false), parks)
      modifies this
      ensures var run := WaitRun(old(View()), t, false, Enter(t, false), parks);
        Legal(old(View()), run) && View() == After(old(View()), run)
      ensures returned <==> Ends(old(View()), t, false, Enter(t, false), parks).Took?
      ensures Inv(View()) && !flag && (returned <==> t !in waiters)
    {
      WaitRuns(View(), t, false, Enter(t, false), parks);
      ghost var e, end := Enter(t, false), Ended(View(), t, false, Enter(t, false), parks);
      ghost var how := Ends(View(), t, false, Enter(t, false), parks);
      var k := 0;
      assert parks[0..] == parks;
      while !flag
        invariant k <= |parks| && Inv(View()) && Fits(View(), t, false, e, parks[k..])
        invariant Ended(View(), t, false, e, parks[k..]) == end && Ends(View(), t, false, e, parks[k..]) == how
        decreases |parks| - k
      {
        ParkStep(View(), t, false, e, parks, k);
        waiters := waiters[t := Asleep(false)];
        if k == |parks| {
          return false;
        }
        Park(parks[k]);
        k, e := k + 1, Recheck(t);
      }
      Consume(t);
      return true;
    }

    /** `wait_timeout`. */
    method WaitTimeout(t: nat, parks: seq<seq<Event>>) returns (how: WaitEnd)
      requires Inv(View()) && Fits(View(), t, true, Enter(t, true), parks)
      modifies this
      ensures var run := WaitRun(old(View()), t, true, Enter(t, true), parks);
        Legal(old(View()), run) && View() == After(old(View()), run)
      ensures how == Ends(old(View()), t, true, Enter(t, true), parks)
      ensures Inv(View()) && (how.Parked? <==> t in waiters)
    {
      WaitRuns(View(), t, true, Enter(t, true), parks);
      ghost var e, end := Enter(t, true), Ended(View(), t, true, Enter(t, true), parks);
      ghost var ends := Ends(View(), t, true, Enter(t, true), parks);
      var k := 0;
      assert parks[0..] == parks;
      while !flag
        invariant k <= |parks| && Inv(View()) && Fits(View(), t, true, e, parks[k..])
        invariant Ended(View(), t, true, e, parks[k..]) == end && Ends(View(), t, true, e, parks[k..]) == ends
        decreases |parks| - k
      {
        if k == |parks| {
          ParkStep(View(), t, true, e, parks, k);
          waiters := waiters[t := Asleep(true)];
          return Parked;
        }
        var timedOut := WaitFor(t, e, parks, k);
        if timedOut {
          return Expired;
        }
        k, e := k + 1, Recheck(t);
      }
      Consume(t);
      return Took;
    }

    /** The body of the loop of `wait_timeout`: a park, and the return after a timeout. */
    method WaitFor(t: nat, ghost e: Event, parks: seq<seq<Event>>, k: nat) returns (timedOut: bool)
      requires Inv(View()) && k < |parks| && Fits(View(), t, true, e, parks[k..]) && !flag
      modifies this
      ensures Inv(View())
      ensures timedOut ==>
        && View() == Ended(old(View()), t, true, e, parks[k..]) && t !in waiters
        && Ends(old(View()), t, true, e, parks[k..]).Expired?
      ensures !timedOut ==>
        && Fits(View(), t, true, Recheck(t), parks[k + 1..])
        && Ended(View(), t, true, Recheck(t), parks[k + 1..]) == Ended(old(View()), t, true, e, parks[k..])
        && Ends(View(), t, true, Recheck(t), parks[k + 1..]) == Ends(old(View()), t, true, e, parks[k..])
    {
      ParkStep(View(), t, true, e, parks, k);
      waiters := waiters[t := Asleep(true)];
      Park(parks[k]);
      timedOut := waiters[t].TimedOut?;
      if timedOut {
        waiters := waiters - {t};
      }
    }

    /** The end of a wait that found the flag up. */
    method Consume(t: nat)
      requires Inv(View()) && flag
      modifies this
      ensures View() == Test(old(View()), t, false) && Inv(View())
    {
      flag := false;
      waiters := waiters - {t};
      takes := takes + 1;
    }
  }
}
