/**
 How the threads of a forwarder end. The last sign-off makes the listener raise a flag and
 broadcast to the handlers and to the dispatcher, without the mutexes under which these test
 the flag and begin to wait: a thread may test the flag, miss the broadcast and sleep for good.

 A step is what a thread does from one access to shared state to the next. Once the flag is up
 the queues are empty for good, and a thread wakes up only by a signal. With `guarded` the
 listener raises the flag only while it holds both mutexes, which the source does not do.
 */
module Shutdown {

  /** Where a handler or the dispatcher is. */
  datatype Pc =
    | Away        // at work, or about to lock the mutex of its queue
    | Locked      // holds the mutex and has found the queue empty; about to test the flag
    | Unflagged   // holds the mutex and has found the flag down; about to wait
    | Sleeping
    | Woken       // has to lock the mutex again
    | Leaving     // has found the flag up and let go of the mutex; about to signal others
    | Gone

  /** Where the listener is: before the last sign-off, and about to broadcast for the first, second and third time. */
  datatype ListenerPc = Listening | Raised | CalledHandlers | CalledBoth | Ended

  datatype State = State(listener: ListenerPc, dispatcher: Pc, handlers: seq<Pc>)

  datatype Label =
    | Lock(h: nat) | Work(h: nat) | Test(h: nat) | Wait(h: nat) | Rouse(h: nat) | Depart(h: nat)
    | LockD | WorkD | TestD | WaitD | RouseD | DepartD(woken: nat)
    | Raise | CallHandlers | CallDispatcher | CallAgain

  predicate Flag(s: State) {
    s.listener != Listening
  }

  predicate Holds(pc: Pc) {
    pc == Locked || pc == Unflagged
  }

  predicate MutexFree(s: State) {
    forall h :: 0 <= h < |s.handlers| ==> !Holds(s.handlers[h])
  }

  predicate Is(s: State, h: nat, pc: Pc) {
    h < |s.handlers| && s.handlers[h] == pc
  }

  predicate SomeoneSleeps(s: State) {
    exists h :: 0 <= h < |s.handlers| && s.handlers[h] == Sleeping
  }

  predicate Enabled(guarded: bool, s: State, l: Label) {
    match l
    case Lock(h) => (Is(s, h, Away) || Is(s, h, Woken)) && MutexFree(s)
    case Work(h) => Is(s, h, Locked) && !Flag(s)
    case Test(h) => Is(s, h, Locked)
    case Wait(h) => Is(s, h, Unflagged)
    case Rouse(h) => Is(s, h, Sleeping) && !Flag(s)
    case Depart(h) => Is(s, h, Leaving)
    case LockD => s.dispatcher == Away || s.dispatcher == Woken
    case WorkD => s.dispatcher == Locked && !Flag(s)
    case TestD => s.dispatcher == Locked
    case WaitD => s.dispatcher == Unflagged
    case RouseD => s.dispatcher == Sleeping && !Flag(s)
    case DepartD(woken) => s.dispatcher == Leaving && (SomeoneSleeps(s) ==> Is(s, woken, Sleeping))
    case Raise => s.listener == Listening && (guarded ==> MutexFree(s) && !Holds(s.dispatcher))
    case CallHandlers => s.listener == Raised
    case CallDispatcher => s.listener == CalledHandlers
    case CallAgain => s.listener == CalledBoth
  }

  function Woke(pc: Pc): Pc {
    if pc == Sleeping then Woken else pc
  }

  function AllWoken(handlers: seq<Pc>): (r: seq<Pc>)
    ensures |r| == |handlers| && forall h :: 0 <= h < |r| ==> r[h] == Woke(handlers[h])
  {
    seq(|handlers|, h requires 0 <= h < |handlers| => Woke(handlers[h]))
  }

  function Set(s: State, h: nat, pc: Pc): State
    requires h < |s.handlers|
  {
    s.(handlers := s.handlers[h := pc])
  }

  function Do(guarded: bool, s: State, l: Label): State
    requires Enabled(guarded, s, l)
  {
    match l
    case Lock(h) => Set(s, h, Locked)
    case Work(h) => Set(s, h, Away)
    case Test(h) => Set(s, h, if Flag(s) then Leaving else Unflagged)
    case Wait(h) => Set(s, h, Sleeping)
    case Rouse(h) => Set(s, h, Woken)
    case Depart(h) => s.(handlers := AllWoken(s.handlers)[h := Gone])
    case LockD => s.(dispatcher := Locked)
    case WorkD => s.(dispatcher := Away)
    case TestD => s.(dispatcher := if Flag(s) then Leaving else Unflagged)
    case WaitD => s.(dispatcher := Sleeping)
    case RouseD => s.(dispatcher := Woken)
    case DepartD(woken) =>
      var s1 := s.(dispatcher := Gone);
      if Is(s, woken, Sleeping) then Set(s1, woken, Woken) else s1
    case Raise => s.(listener := Raised)
    case CallHandlers => s.(listener := CalledHandlers, handlers := AllWoken(s.handlers))
    case CallDispatcher => s.(listener := CalledBoth, dispatcher := Woke(s.dispatcher))
    case CallAgain => s.(listener := Ended, dispatcher := Woke(s.dispatcher))
  }

  predicate Init(n: nat, s: State) {
    s.listener == Listening && s.dispatcher == Away && |s.handlers| == n
    && forall h :: 0 <= h < n ==> s.handlers[h] == Away
  }

  ghost predicate Follows(guarded: bool, s: State, s': State) {
    exists l :: Enabled(guarded, s, l) && s' == Do(guarded, s, l)
  }

  /** A run of a forwarder with n handlers. */
  ghost predicate IsRun(guarded: bool, n: nat, run: seq<State>) {
    && run != [] && Init(n, run[0])
    && forall i :: 0 <= i < |run| - 1 ==> Follows(guarded, run[i], run[i + 1])
  }

  /** No step is possible. */
  ghost predicate Halted(guarded: bool, s: State) {
    forall l :: !Enabled(guarded, s, l)
  }

  /** A run that cannot go on, and its last state. */
  ghost predicate FullRun(guarded: bool, n: nat, run: seq<State>): (b: bool)
    ensures b ==> run != []
  {
    IsRun(guarded, n, run) && Halted(guarded, Last(run))
  }

  function Last(run: seq<State>): State
    requires run != []
  {
    run[|run| - 1]
  }

  predicate AllGone(s: State) {
    forall h :: 0 <= h < |s.handlers| ==> s.handlers[h] == Gone
  }

  // ---------- what holds throughout ----------

  predicate Late(pc: Pc) {
    pc == Leaving || pc == Gone
  }

  /** On the way to finding the flag up, or to waking all others. */
  predicate Active(pc: Pc) {
    pc == Away || pc == Locked || pc == Woken || pc == Leaving
  }

  predicate Announced(s: State) {
    s.listener == CalledHandlers || s.listener == CalledBoth || s.listener == Ended
  }

  predicate OneHolds(s: State) {
    forall h, g :: 0 <= h < g < |s.handlers| ==> !Holds(s.handlers[h]) || !Holds(s.handlers[g])
  }

  /** While a handler has found the flag down and not yet slept, none can have found it up. */
  predicate NoneAhead(s: State) {
    && (forall h :: 0 <= h < |s.handlers| && Late(s.handlers[h]) ==> Flag(s))
    && (forall h, g :: 0 <= h < |s.handlers| && 0 <= g < |s.handlers| && s.handlers[h] == Unflagged ==>
          !Late(s.handlers[g]))
  }

  ghost predicate SomeActive(s: State) {
    exists h :: 0 <= h < |s.handlers| && Active(s.handlers[h])
  }

  /** After the broadcast, with more than one handler, someone is on the way until all are gone. */
  ghost predicate Carried(s: State) {
    Announced(s) ==> |s.handlers| == 1 || AllGone(s) || SomeActive(s)
  }

  ghost predicate Inv(s: State) {
    && OneHolds(s) && NoneAhead(s) && Carried(s)
    && (Late(s.dispatcher) ==> Flag(s))
  }

  /** A broadcast while nobody is between the test and the wait, or with several handlers, leaves someone on the way. */
  lemma BroadcastCarries(s: State, s': State)
    requires OneHolds(s) && NoneAhead(s) && s'.handlers == AllWoken(s.handlers)
    ensures |s.handlers| == 1 || AllGone(s') || SomeActive(s')
  {
    if !AllGone(s') && |s.handlers| != 1 {
      var h :| 0 <= h < |s.handlers| && s'.handlers[h] != Gone;
      if !Active(s'.handlers[h]) {
        var g := if h == 0 then 1 else 0;
        assert s.handlers[h] == Unflagged && !Late(s.handlers[g]) && s.handlers[g] != Unflagged;
        assert Active(s'.handlers[g]);
      }
    }
  }

  lemma DepartureCarries(s: State, h: nat)
    requires OneHolds(s) && NoneAhead(s) && Is(s, h, Leaving)
    ensures var s' := s.(handlers := AllWoken(s.handlers)[h := Gone]);
            AllGone(s') || SomeActive(s')
  {
    var s' := s.(handlers := AllWoken(s.handlers)[h := Gone]);
    if !AllGone(s') {
      var g :| 0 <= g < |s.handlers| && s'.handlers[g] != Gone;
      assert s.handlers[g] != Unflagged;
      assert Active(s'.handlers[g]);
    }
  }

  /** A handler's step to a point on the way carries on; one that begins to sleep leaves others on the way. */
  lemma StepCarries(guarded: bool, s: State, l: Label)
    requires Inv(s) && Enabled(guarded, s, l) && !l.CallHandlers? && !l.Depart?
    ensures Carried(Do(guarded, s, l))
  {
    var s' := Do(guarded, s, l);
    if Announced(s) && |s.handlers| != 1 && SomeActive(s) {
      var h :| 0 <= h < |s.handlers| && Active(s.handlers[h]);
      assert Active(s'.handlers[h]);
    }
  }

  lemma OneStillHolds(guarded: bool, s: State, l: Label)
    requires OneHolds(s) && Enabled(guarded, s, l)
    ensures OneHolds(Do(guarded, s, l)) && |Do(guarded, s, l).handlers| == |s.handlers|
  {
    hide SomeoneSleeps;
  }

  /** Which handlers can have found the flag up, or have found it down, after a step. */
  lemma WhoTested(guarded: bool, s: State, l: Label, h: nat)
    requires Enabled(guarded, s, l) && h < |Do(guarded, s, l).handlers| == |s.handlers|
    ensures var s' := Do(guarded, s, l);
            && (Late(s'.handlers[h]) ==> Late(s.handlers[h]) || (l == Test(h) && s.handlers[h] == Locked && Flag(s)))
            && (s'.handlers[h] == Unflagged ==>
                  s.handlers[h] == Unflagged || (l == Test(h) && s.handlers[h] == Locked && !Flag(s)))
            && (Flag(s) ==> Flag(s'))
  {
    hide MutexFree, SomeoneSleeps;
  }

  lemma NoneGetsAhead(guarded: bool, s: State, l: Label)
    requires OneHolds(s) && NoneAhead(s) && Enabled(guarded, s, l)
    ensures NoneAhead(Do(guarded, s, l))
  {
    hide Enabled, Do;
    OneStillHolds(guarded, s, l);
    var s' := Do(guarded, s, l);
    forall h | 0 <= h < |s'.handlers| && Late(s'.handlers[h]) ensures Flag(s') { WhoTested(guarded, s, l, h); }
    forall h, g | 0 <= h < |s'.handlers| && 0 <= g < |s'.handlers| && s'.handlers[h] == Unflagged
      ensures !Late(s'.handlers[g])
    {
      WhoTested(guarded, s, l, h);
      WhoTested(guarded, s, l, g);
    }
  }

  lemma DispatcherIsLate(guarded: bool, s: State, l: Label)
    requires Enabled(guarded, s, l) && (Late(s.dispatcher) ==> Flag(s))
    ensures var s' := Do(guarded, s, l); Late(s'.dispatcher) ==> Flag(s')
  {
    hide MutexFree, SomeoneSleeps;
  }

  lemma StepKeepsInv(guarded: bool, s: State, l: Label)
    requires Inv(s) && Enabled(guarded, s, l)
    ensures Inv(Do(guarded, s, l)) && |Do(guarded, s, l).handlers| == |s.handlers|
  {
    hide OneHolds, NoneAhead, MutexFree, SomeoneSleeps, SomeActive, AllGone;
    OneStillHolds(guarded, s, l);
    NoneGetsAhead(guarded, s, l);
    DispatcherIsLate(guarded, s, l);
    if l.CallHandlers? {
      BroadcastCarries(s, Do(guarded, s, l));
    } else if l.Depart? {
      DepartureCarries(s, l.h);
      DepartureIs(guarded, s, l.h);
    } else {
      StepCarries(guarded, s, l);
    }
  }

  lemma DepartureIs(guarded: bool, s: State, h: nat)
    requires Enabled(guarded, s, Depart(h))
    ensures Do(guarded, s, Depart(h)) == s.(handlers := AllWoken(s.handlers)[h := Gone])
  {
  }

  lemma {:induction false} RunKeepsInv(guarded: bool, n: nat, run: seq<State>, i: nat)
    requires IsRun(guarded, n, run) && i < |run|
    ensures Inv(run[i]) && |run[i].handlers| == n
  {
    hide Enabled, Do, Inv;
    if i == 0 {
      InitInv(n, run[0]);
    } else {
      RunKeepsInv(guarded, n, run, i - 1);
      assert Follows(guarded, run[i - 1], run[i - 1 + 1]);
      var l :| Enabled(guarded, run[i - 1], l) && run[i] == Do(guarded, run[i - 1], l);
      StepKeepsInv(guarded, run[i - 1], l);
    }
  }

  lemma InitInv(n: nat, s: State)
    requires Init(n, s)
    ensures Inv(s)
  {
  }

  // ---------- when nothing is possible any more ----------

  /** The listener has ended, and everyone else is gone or asleep. */
  lemma HaltedIsOver(guarded: bool, s: State)
    requires Halted(guarded, s)
    ensures s.listener == Ended && (s.dispatcher == Gone || s.dispatcher == Sleeping)
    ensures forall h :: 0 <= h < |s.handlers| ==> s.handlers[h] == Gone || s.handlers[h] == Sleeping
  {
    forall h | 0 <= h < |s.handlers| ensures !Holds(s.handlers[h]) {
      assert !Enabled(guarded, s, Test(h)) && !Enabled(guarded, s, Wait(h));
    }
    forall h | 0 <= h < |s.handlers| ensures s.handlers[h] == Gone || s.handlers[h] == Sleeping {
      assert !Enabled(guarded, s, Lock(h)) && !Enabled(guarded, s, Depart(h));
    }
    assert !Enabled(guarded, s, LockD) && !Enabled(guarded, s, TestD) && !Enabled(guarded, s, WaitD);
    if s.dispatcher == Leaving { var l := CanDepart(guarded, s); }
    assert !Enabled(guarded, s, Raise) && !Enabled(guarded, s, CallHandlers);
    assert !Enabled(guarded, s, CallDispatcher) && !Enabled(guarded, s, CallAgain);
  }

  lemma CanDepart(guarded: bool, s: State) returns (l: Label)
    requires s.dispatcher == Leaving
    ensures Enabled(guarded, s, l)
  {
    if h :| 0 <= h < |s.handlers| && s.handlers[h] == Sleeping {
      l := DepartD(h);
    } else {
      l := DepartD(0);
    }
  }

  // ---------- building runs ----------

  lemma MoreRun(n: nat, run: seq<State>, l: Label)
    requires IsRun(false, n, run) && Enabled(false, run[|run| - 1], l)
    ensures IsRun(false, n, run + [Do(false, run[|run| - 1], l)])
  {
    hide Enabled, Do, Init;
    var more := run + [Do(false, run[|run| - 1], l)];
    forall i | 0 <= i < |more| - 1 ensures Follows(false, more[i], more[i + 1]) {
      if i < |run| - 1 { assert Follows(false, run[i], run[i + 1]); }
    }
  }

  /** A run ends in this state. */
  ghost predicate EndsIn(n: nat, run: seq<State>, s: State) {
    IsRun(false, n, run) && run[|run| - 1] == s
  }

  lemma Next(n: nat, run: seq<State>, s: State, l: Label) returns (more: seq<State>)
    requires EndsIn(n, run, s) && Enabled(false, s, l)
    ensures EndsIn(n, more, Do(false, s, l))
  {
    hide Enabled, Do, IsRun;
    more := run + [Do(false, s, l)];
    MoreRun(n, run, l);
  }

  function Begin(n: nat): State {
    State(Listening, Away, seq(n, _ => Away))
  }

  lemma Beginning(n: nat) returns (run: seq<State>)
    ensures EndsIn(n, run, Begin(n))
  {
    run := [Begin(n)];
  }

  /** The last sign-off and the three broadcasts, while nobody who could be woken is asleep. */
  lemma Announce(n: nat, run: seq<State>, s: State) returns (more: seq<State>)
    requires EndsIn(n, run, s) && s.listener == Listening && s.dispatcher != Sleeping && !SomeoneSleeps(s)
    ensures EndsIn(n, more, s.(listener := Ended))
  {
    hide IsRun;
    more := Next(n, run, s, Raise);
    more := Next(n, more, s.(listener := Raised), CallHandlers);
    assert AllWoken(s.handlers) == s.handlers;
    more := Next(n, more, s.(listener := CalledHandlers), CallDispatcher);
    more := Next(n, more, s.(listener := CalledBoth), CallAgain);
  }

  // ---------- the handlers ----------

  /** With one handler, it can test the flag before it is raised and begin to wait after all the signals. */
  lemma LoneHandlerMisses() returns (run: seq<State>)
    ensures FullRun(false, 1, run) && Last(run) == State(Ended, Gone, [Sleeping])
  {
    hide IsRun, Enabled;
    run := Beginning(1);
    assert Begin(1).handlers == [Away];
    run := LoneSteps(run);
    LoneEnd();
  }

  lemma LoneSteps(run: seq<State>) returns (more: seq<State>)
    requires EndsIn(1, run, State(Listening, Away, [Away]))
    ensures EndsIn(1, more, State(Ended, Gone, [Sleeping]))
  {
    hide IsRun;
    more := Next(1, run, State(Listening, Away, [Away]), Lock(0));
    more := Next(1, more, State(Listening, Away, [Locked]), Test(0));
    more := Announce(1, more, State(Listening, Away, [Unflagged]));
    more := DispatcherDeparts(more);
    more := Next(1, more, State(Ended, Gone, [Unflagged]), Wait(0));
  }

  lemma DispatcherDeparts(run: seq<State>) returns (more: seq<State>)
    requires EndsIn(1, run, State(Ended, Away, [Unflagged]))
    ensures EndsIn(1, more, State(Ended, Gone, [Unflagged]))
  {
    hide IsRun;
    more := Next(1, run, State(Ended, Away, [Unflagged]), LockD);
    more := Next(1, more, State(Ended, Locked, [Unflagged]), TestD);
    more := Next(1, more, State(Ended, Leaving, [Unflagged]), DepartD(0));
  }

  lemma LoneEnd()
    ensures Halted(false, State(Ended, Gone, [Sleeping]))
  {
  }

  /** Every run of n handlers that cannot go on has all of them gone. */
  ghost predicate HandlersEnd(n: nat) {
    forall run: seq<State> | FullRun(false, n, run) :: AllGone(Last(run))
  }

  lemma ManyHandlersEnd(guarded: bool, n: nat, run: seq<State>)
    requires FullRun(guarded, n, run) && n != 1
    ensures AllGone(Last(run))
  {
    hide IsRun, Halted, OneHolds, NoneAhead;
    RunIsSome(guarded, n, run);
    RunKeepsInv(guarded, n, run, |run| - 1);
    HaltedIsOver(guarded, run[|run| - 1]);
  }

  lemma RunIsSome(guarded: bool, n: nat, run: seq<State>)
    requires IsRun(guarded, n, run)
    ensures run != []
  {
  }

  /** The handlers are sure to end if and only if there is not just one of them. */
  lemma HandlersEndExactly(n: nat)
    ensures HandlersEnd(n) <==> n != 1
  {
    hide FullRun;
    if n == 1 {
      var run := LoneHandlerMisses();
      assert Last(run).handlers[0] == Sleeping;
    } else {
      forall run: seq<State> | FullRun(false, n, run)
        ensures AllGone(Last(run))
      {
        ManyHandlersEnd(false, n, run);
      }
    }
  }

  /** A signal to the handlers: the listener's broadcast, or the dispatcher's as it leaves. */
  predicate SignalsNow(s: State, s': State) {
    || (s.listener == Raised && s'.listener == CalledHandlers)
    || (s.dispatcher == Leaving && s'.dispatcher == Gone)
  }

  predicate Signals(run: seq<State>, i: nat) {
    i + 1 < |run| && SignalsNow(run[i], run[i + 1])
  }

  /** A signal while the only handler is not between its test of the flag and its wait. */
  predicate Reaches(run: seq<State>, i: nat) {
    Signals(run, i) && run[i].handlers != [Unflagged]
  }

  /** With the flag up, the only handler is on its way to its end. */
  predicate LoneHeard(s: State) {
    Flag(s) && |s.handlers| == 1 && s.handlers[0] != Unflagged && s.handlers[0] != Sleeping
  }

  predicate LoneMissed(s: State) {
    Flag(s) && |s.handlers| == 1 && (s.handlers[0] == Unflagged || s.handlers[0] == Sleeping)
  }

  /** A signal reaches the only handler unless it is between its test and its wait; without one, nothing wakes it. */
  lemma LoneStep(s: State, l: Label)
    requires Inv(s) && |s.handlers| == 1 && Enabled(false, s, l)
    ensures var s' := Do(false, s, l);
            && (LoneHeard(s) ==> LoneHeard(s'))
            && (SignalsNow(s, s') && s.handlers != [Unflagged] ==> LoneHeard(s'))
            && (SignalsNow(s, s') && s.handlers == [Unflagged] ==> LoneMissed(s'))
            && (LoneMissed(s) && !SignalsNow(s, s') ==> LoneMissed(s'))
  {
    hide OneHolds, NoneAhead, Carried, MutexFree;
  }

  /** After the first signal the handler has heard one, or has missed them all. */
  lemma {:induction false} LoneFate(run: seq<State>, k: nat)
    requires IsRun(false, 1, run) && k < |run|
    ensures |run[k].handlers| == 1
    ensures forall i :: 0 <= i < k && Reaches(run, i) ==> LoneHeard(run[k])
    ensures forall i :: 0 <= i < k && Signals(run, i) ==>
              LoneMissed(run[k]) || exists j :: 0 <= j < k && Reaches(run, j)
    decreases k
  {
    hide Init, Enabled, Do, Inv, LoneHeard, LoneMissed;
    RunKeepsInv(false, 1, run, k);
    if k > 0 {
      LoneFate(run, k - 1);
      RunKeepsInv(false, 1, run, k - 1);
      assert Follows(false, run[k - 1], run[k - 1 + 1]);
      var l :| Enabled(false, run[k - 1], l) && run[k] == Do(false, run[k - 1], l);
      LoneStep(run[k - 1], l);
      assert Signals(run, k - 1) <==> SignalsNow(run[k - 1], run[k]);
      if !LoneMissed(run[k]) && exists i :: 0 <= i < k && Signals(run, i) {
        if Signals(run, k - 1) {
          assert Reaches(run, k - 1);
        } else {
          var j :| 0 <= j < k - 1 && Reaches(run, j);
        }
      }
    }
  }

  lemma {:induction false} BroadcastHappens(run: seq<State>, k: nat) returns (i: nat)
    requires IsRun(false, 1, run) && k < |run| && Announced(run[k])
    ensures i < k && Signals(run, i)
    decreases k
  {
    hide Enabled, Do;
    assert k > 0;
    assert Follows(false, run[k - 1], run[k - 1 + 1]);
    var l :| Enabled(false, run[k - 1], l) && run[k] == Do(false, run[k - 1], l);
    if Announced(run[k - 1]) {
      i := BroadcastHappens(run, k - 1);
    } else {
      FirstAnnounces(run[k - 1], l);
      i := k - 1;
    }
  }

  lemma FirstAnnounces(s: State, l: Label)
    requires Enabled(false, s, l) && !Announced(s) && Announced(Do(false, s, l))
    ensures s.listener == Raised && Do(false, s, l).listener == CalledHandlers
  {
    hide MutexFree, SomeoneSleeps;
  }

  /**
   A single handler ends if and only if, at the listener's broadcast or when the dispatcher signals as it leaves, it is
   not between its test of the flag and its wait; otherwise it sleeps for good.
   */
  lemma LoneHandlerEndsExactly(run: seq<State>)
    requires FullRun(false, 1, run)
    ensures |Last(run).handlers| == 1
    ensures Last(run).handlers[0] ==
            if exists i: nat :: Reaches(run, i) then Gone else Sleeping
  {
    hide IsRun, Halted;
    RunIsSome(false, 1, run);
    var k := |run| - 1;
    HaltedIsOver(false, run[k]);
    var b := BroadcastHappens(run, k);
    LoneFate(run, k);
    forall i | 0 <= i < k ensures |run[i].handlers| == 1 { LoneFate(run, i); }
  }

  // ---------- the dispatcher ----------

  /** After the last broadcast the dispatcher is on its way, or has missed it. */
  predicate Missed(s: State) {
    s.listener == Ended && (s.dispatcher == Unflagged || s.dispatcher == Sleeping)
  }

  predicate Heard(s: State) {
    s.listener == Ended && s.dispatcher != Unflagged && s.dispatcher != Sleeping
  }

  lemma StaysMissed(guarded: bool, s: State, l: Label)
    requires Enabled(guarded, s, l)
    ensures Missed(s) ==> Missed(Do(guarded, s, l))
    ensures Heard(s) ==> Heard(Do(guarded, s, l))
  {
    hide MutexFree, SomeoneSleeps;
  }

  lemma {:induction false} RunStaysMissed(guarded: bool, n: nat, run: seq<State>, i: nat, k: nat)
    requires IsRun(guarded, n, run) && i <= k < |run|
    ensures Missed(run[i]) ==> Missed(run[k])
    ensures Heard(run[i]) ==> Heard(run[k])
    decreases k
  {
    hide Init, Enabled, Do, Missed, Heard;
    if i < k {
      RunStaysMissed(guarded, n, run, i, k - 1);
      assert Follows(guarded, run[k - 1], run[k - 1 + 1]);
      var l :| Enabled(guarded, run[k - 1], l) && run[k] == Do(guarded, run[k - 1], l);
      StaysMissed(guarded, run[k - 1], l);
    }
  }

  /**
   Whatever the number of handlers, the dispatcher ends if and only if it is not between its test of the flag and its
   wait at the last broadcast; otherwise it sleeps for good, and the process that waits for it never ends.
   */
  lemma DispatcherEndsExactly(n: nat, run: seq<State>, i: nat)
    requires FullRun(false, n, run)
    requires i + 1 < |run| && run[i].listener == CalledBoth && run[i + 1].listener == Ended
    ensures Last(run).dispatcher == if run[i].dispatcher == Unflagged then Sleeping else Gone
  {
    hide Init, Enabled, Do, Halted;
    HaltedIsOver(false, run[|run| - 1]);
    assert Follows(false, run[i], run[i + 1]);
    var l :| Enabled(false, run[i], l) && run[i + 1] == Do(false, run[i], l);
    LastBroadcast(run[i], l);
    RunStaysMissed(false, n, run, i + 1, |run| - 1);
  }

  lemma LastBroadcast(s: State, l: Label)
    requires Enabled(false, s, l) && s.listener == CalledBoth && Do(false, s, l).listener == Ended
    ensures if s.dispatcher == Unflagged then Missed(Do(false, s, l)) else Heard(Do(false, s, l))
  {
    hide MutexFree, SomeoneSleeps;
  }

  /** That can happen with any number of handlers. */
  lemma DispatcherMayMiss(n: nat) returns (run: seq<State>)
    ensures FullRun(false, n, run) && Last(run).dispatcher == Sleeping && AllGone(Last(run))
  {
    hide IsRun, Enabled, Do, Halted;
    run := Beginning(n);
    run := DispatcherSleeps(n, run);
    run := HandlersDepart(n, run, n);
    MissedEnd(n);
  }

  /** The handlers that have gone, while the dispatcher sleeps. */
  function Departed(n: nat, k: nat): State
    requires k <= n
  {
    State(Ended, Sleeping, seq(n, h => if h < k then Gone else Away))
  }

  lemma DispatcherSleeps(n: nat, run: seq<State>) returns (more: seq<State>)
    requires EndsIn(n, run, Begin(n))
    ensures EndsIn(n, more, Departed(n, 0))
  {
    hide IsRun;
    var s := Begin(n);
    more := Next(n, run, s, LockD);
    more := Next(n, more, s.(dispatcher := Locked), TestD);
    more := Announce(n, more, s.(dispatcher := Unflagged));
    more := Next(n, more, s.(listener := Ended, dispatcher := Unflagged), WaitD);
    assert s.handlers == Departed(n, 0).handlers;
  }

  lemma {:induction false} HandlersDepart(n: nat, run: seq<State>, k: nat) returns (more: seq<State>)
    requires EndsIn(n, run, Departed(n, 0)) && k <= n
    ensures EndsIn(n, more, Departed(n, k))
    decreases k
  {
    hide IsRun;
    if k == 0 {
      more := run;
    } else {
      var s, h := Departed(n, k - 1), k - 1;
      more := HandlersDepart(n, run, k - 1);
      more := Next(n, more, s, Lock(h));
      more := Next(n, more, Set(s, h, Locked), Test(h));
      assert Set(Set(s, h, Locked), h, Leaving) == Set(s, h, Leaving);
      more := Next(n, more, Set(s, h, Leaving), Depart(h));
      assert AllWoken(Set(s, h, Leaving).handlers)[h := Gone] == Departed(n, k).handlers;
    }
  }

  lemma MissedEnd(n: nat)
    ensures Halted(false, Departed(n, n)) && AllGone(Departed(n, n))
  {
  }

  // ---------- raising the flag under the mutexes ----------

  /** Nobody has found the flag down and is still to sleep; whoever was called is not asleep. */
  predicate Warned(s: State) {
    && (Flag(s) ==> s.dispatcher != Unflagged && forall h :: 0 <= h < |s.handlers| ==> s.handlers[h] != Unflagged)
    && (Announced(s) ==> !SomeoneSleeps(s))
    && (s.listener == CalledBoth || s.listener == Ended ==> s.dispatcher != Sleeping)
  }

  lemma StepKeepsWarned(s: State, l: Label)
    requires Warned(s) && Enabled(true, s, l)
    ensures Warned(Do(true, s, l))
  {
  }

  lemma {:induction false} RunKeepsWarned(n: nat, run: seq<State>, i: nat)
    requires IsRun(true, n, run) && i < |run|
    ensures Warned(run[i])
  {
    hide Enabled, Do;
    if i > 0 {
      RunKeepsWarned(n, run, i - 1);
      assert Follows(true, run[i - 1], run[i - 1 + 1]);
      var l :| Enabled(true, run[i - 1], l) && run[i] == Do(true, run[i - 1], l);
      StepKeepsWarned(run[i - 1], l);
    }
  }

  /** If the flag were raised with both mutexes held, every run would end with all threads gone. */
  lemma GuardedThreadsEnd(n: nat, run: seq<State>)
    requires FullRun(true, n, run)
    ensures AllGone(Last(run)) && Last(run).dispatcher == Gone
  {
    hide IsRun, Halted;
    RunIsSome(true, n, run);
    RunKeepsWarned(n, run, |run| - 1);
    HaltedIsOver(true, run[|run| - 1]);
  }

  // ---------- every run ends ----------

  /** No step leaves all as it was; who goes back to work lets go of the mutex. */
  lemma EveryStepMoves(guarded: bool, s: State, l: Label)
    requires Enabled(guarded, s, l)
    ensures Do(guarded, s, l) != s
    ensures l.WorkD? ==> !Holds(Do(guarded, s, l).dispatcher)
    ensures l.Work? ==> l.h < |Do(guarded, s, l).handlers| && !Holds(Do(guarded, s, l).handlers[l.h])
  {
    hide MutexFree, SomeoneSleeps;
  }

  function ListenerLeft(pc: ListenerPc): nat {
    match pc
    case Listening => 4
    case Raised => 3
    case CalledHandlers => 2
    case CalledBoth => 1
    case Ended => 0
  }

  /** How far a thread is from its end or its sleep, once the flag is up. */
  function Left(pc: Pc): nat {
    match pc
    case Woken => 5
    case Away => 5
    case Locked => 4
    case Unflagged => 3
    case Sleeping => 2
    case Leaving => 1
    case Gone => 0
  }

  function LeftOf(handlers: seq<Pc>): nat {
    if handlers == [] then 0 else LeftOf(handlers[..|handlers| - 1]) + Left(handlers[|handlers| - 1])
  }

  /** The handlers that are not gone, each of which may yet wake up all others. */
  function Staying(handlers: seq<Pc>): nat {
    if handlers == [] then 0
    else Staying(handlers[..|handlers| - 1]) + if handlers[|handlers| - 1] == Gone then 0 else 1
  }

  function CallsLeft(s: State): nat {
    ListenerLeft(s.listener) + Staying(s.handlers) + if s.dispatcher == Gone then 0 else 1
  }

  lemma {:induction false} LeftIsBounded(a: seq<Pc>, b: seq<Pc>)
    requires |a| == |b|
    requires forall h :: 0 <= h < |a| ==> (b[h] == Gone <==> a[h] == Gone)
    ensures Staying(b) == Staying(a)
    ensures (forall h :: 0 <= h < |a| ==> Left(b[h]) <= Left(a[h])) ==> LeftOf(b) <= LeftOf(a)
  {
    if a != [] { LeftIsBounded(a[..|a| - 1], b[..|b| - 1]); }
  }

  lemma {:induction false} LeftOfUpdate(handlers: seq<Pc>, h: nat, pc: Pc)
    requires h < |handlers|
    ensures LeftOf(handlers[h := pc]) == LeftOf(handlers) - Left(handlers[h]) + Left(pc)
    ensures Staying(handlers[h := pc]) ==
            Staying(handlers) - (if handlers[h] == Gone then 0 else 1) + (if pc == Gone then 0 else 1)
    decreases |handlers|
  {
    var n := |handlers| - 1;
    if h == n {
      assert handlers[h := pc][..n] == handlers[..n];
    } else {
      LeftOfUpdate(handlers[..n], h, pc);
      assert handlers[h := pc][..n] == handlers[..n][h := pc];
    }
  }

  /** A step with the flag up leaves fewer calls to make, or as many and the threads nearer to their end. */
  ghost predicate Nearer(s: State, s': State) {
    || CallsLeft(s') < CallsLeft(s)
    || (CallsLeft(s') == CallsLeft(s) &&
        LeftOf(s'.handlers) + Left(s'.dispatcher) < LeftOf(s.handlers) + Left(s.dispatcher))
  }

  lemma StepIsNearer(guarded: bool, s: State, l: Label)
    requires Flag(s) && Enabled(guarded, s, l)
    ensures Flag(Do(guarded, s, l)) && Nearer(s, Do(guarded, s, l))
  {
    hide MutexFree, SomeoneSleeps, LeftOf, Staying;
    match l
    case Lock(h) => LeftOfUpdate(s.handlers, h, Locked);
    case Test(h) => LeftOfUpdate(s.handlers, h, Leaving);
    case Wait(h) => LeftOfUpdate(s.handlers, h, Sleeping);
    case Depart(h) =>
      LeftIsBounded(s.handlers, AllWoken(s.handlers));
      LeftOfUpdate(AllWoken(s.handlers), h, Gone);
    case DepartD(woken) => if Is(s, woken, Sleeping) { LeftOfUpdate(s.handlers, woken, Woken); }
    case CallHandlers => LeftIsBounded(s.handlers, AllWoken(s.handlers));
    case _ =>
  }

  /** With the flag up, every run can be continued to one after which no step is possible, whichever steps are taken. */
  lemma {:induction false} RunGoesOn(n: nat, run: seq<State>) returns (full: seq<State>)
    requires IsRun(false, n, run) && Flag(Last(run))
    ensures FullRun(false, n, full) && run <= full
    decreases CallsLeft(Last(run)), LeftOf(Last(run).handlers) + Left(Last(run).dispatcher)
  {
    hide Init, Enabled, Do, CallsLeft, LeftOf, Left;
    if Halted(false, Last(run)) {
      full := run;
    } else {
      var l :| Enabled(false, Last(run), l);
      StepIsNearer(false, Last(run), l);
      MoreRun(n, run, l);
      full := RunGoesOn(n, run + [Do(false, Last(run), l)]);
    }
  }
}
