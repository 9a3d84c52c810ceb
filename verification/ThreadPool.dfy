/**
 The thread pool as a state machine over small steps: the workers' loop with its
 binary semaphore, pushes and pulls under the queue mutex, a caller that waits for
 all work to finish, and the destruction of the pool.

 Jobs are numbered in the order in which they are pushed. The fields `pulled`,
 `finished` and `discarded` are history: no step reads them.
 */
module ThreadPool {

  /** Where a worker is in its loop. */
  datatype Pc =
    | Starting                // before it counts itself alive
    | Top                     // at the test of the outer loop
    | AtSem                   // at the first test of the semaphore
    | Asleep                  // waiting on the semaphore's condition
    | Woken                   // woken up; has to test the semaphore again
    | Passed                  // has taken the semaphore
    | Entering                // has seen that the pool is kept alive
    | Counted                 // counted as working; about to pull
    | Reposting(job: nat)     // pulled a job and left others: holds the queue mutex, about to post
    | Running(job: nat)
    | Finished                // about to be counted as idle
    | Leaving                 // has left the loop
    | Gone

  /** Who is between linking a job and posting the semaphore, with the queue mutex. */
  datatype Pusher = NoOne | Outside | FromJob(thread: nat)

  /** The caller of the wait for all work. */
  datatype Waiter =
    | Away
    | Locked                       // holds the thread count lock, about to read the length of the queue
    | SawNone(running: set<nat>)   // holds the lock, has read that nothing is queued
    | SawWork                      // holds the lock, about to wait
    | Blocked                      // waiting on the condition of all workers being idle
    | Alerted                      // woken up; has to take the lock again
    | Returned

  datatype State = State(
    keepalive: bool,
    semaphore: bool,
    queue: seq<nat>,
    threads: seq<Pc>,
    working: int,
    alive: int,
    pusher: Pusher,
    waiter: Waiter,
    cleared: bool,
    pushed: nat,
    pulled: nat,
    finished: set<nat>,
    discarded: seq<nat>)

  datatype Label =
    | Start(t: nat)
    | TestLoop(t: nat)
    | TestSem(t: nat)
    | TestAlive(t: nat)
    | CountIn(t: nat)
    | Pull(t: nat)
    | Repost(t: nat, woken: nat)
    | Finish(t: nat)
    | CountOut(t: nat)
    | Leave(t: nat)
    | WakeUp(t: nat)
    | Push(who: Pusher)
    | PushPost(woken: nat)
    | WaitLock
    | WaitReadLen
    | WaitReadWorking
    | WaitSleep
    | WaitWakeUp
    | WaitAgain
    | WaitReturn
    | Destroy
    | PostAll
    | Clear

  predicate Thread(s: State, t: nat, pc: Pc) {
    t < |s.threads| && s.threads[t] == pc
  }

  function Set(s: State, t: nat, pc: Pc): State
    requires t < |s.threads|
  {
    s.(threads := s.threads[t := pc])
  }

  predicate SomeoneSleeps(s: State) {
    exists t :: 0 <= t < |s.threads| && s.threads[t] == Asleep
  }

  /** Posting signals one sleeping thread, if there is one. */
  predicate MaySignal(s: State, woken: nat) {
    SomeoneSleeps(s) ==> Thread(s, woken, Asleep)
  }

  function Post(s: State, woken: nat): State {
    var s1 := s.(semaphore := true);
    if Thread(s, woken, Asleep) then Set(s1, woken, Woken) else s1
  }

  /** The jobs that workers have pulled and not finished. */
  function JobOf(pc: Pc): set<nat> {
    match pc
    case Reposting(j) => {j}
    case Running(j) => {j}
    case _ => {}
  }

  function Jobs(threads: seq<Pc>): set<nat> {
    if threads == [] then {} else Jobs(threads[..|threads| - 1]) + JobOf(threads[|threads| - 1])
  }

  predicate QueueMutexFree(s: State) {
    s.pusher == NoOne && forall t :: 0 <= t < |s.threads| ==> !s.threads[t].Reposting?
  }

  predicate HoldsLock(w: Waiter) {
    w.Locked? || w.SawNone? || w.SawWork?
  }

  predicate CountLockFree(s: State) {
    !HoldsLock(s.waiter)
  }

  predicate Enabled(s: State, l: Label) {
    match l
    case Start(t) => Thread(s, t, Starting) && CountLockFree(s)
    case TestLoop(t) => Thread(s, t, Top)
    case TestSem(t) => Thread(s, t, AtSem) || Thread(s, t, Woken)
    case TestAlive(t) => Thread(s, t, Passed)
    case CountIn(t) => Thread(s, t, Entering) && CountLockFree(s)
    case Pull(t) => Thread(s, t, Counted) && QueueMutexFree(s)
    case Repost(t, woken) => t < |s.threads| && s.threads[t].Reposting? && MaySignal(s, woken)
    case Finish(t) => t < |s.threads| && s.threads[t].Running? && s.pusher != FromJob(t)
    case CountOut(t) => Thread(s, t, Finished) && CountLockFree(s)
    case Leave(t) => Thread(s, t, Leaving) && CountLockFree(s)
    case WakeUp(t) => Thread(s, t, Asleep)
    case Push(who) =>
      QueueMutexFree(s) && !s.cleared && who != NoOne &&
      (who.FromJob? ==> who.thread < |s.threads| && s.threads[who.thread].Running?)
    case PushPost(woken) => s.pusher != NoOne && MaySignal(s, woken)
    case WaitLock => s.waiter == Away
    case WaitReadLen => s.waiter == Locked
    case WaitReadWorking => s.waiter.SawNone?
    case WaitSleep => s.waiter == SawWork
    case WaitWakeUp => s.waiter == Blocked
    case WaitAgain => s.waiter == Alerted
    case WaitReturn => s.waiter == Returned
    case Destroy => forall t :: 0 <= t < |s.threads| ==> s.threads[t] != Starting
    case PostAll => !s.keepalive
    case Clear => !s.keepalive && s.alive == 0 && QueueMutexFree(s) && !s.cleared
  }

  function Do(s: State, l: Label): State
    requires Enabled(s, l)
  {
    match l
    case Start(t) => Set(s, t, Top).(alive := s.alive + 1)
    case TestLoop(t) => Set(s, t, if s.keepalive then AtSem else Leaving)
    case TestSem(t) => if s.semaphore then Set(s, t, Passed).(semaphore := false) else Set(s, t, Asleep)
    case TestAlive(t) => Set(s, t, if s.keepalive then Entering else Top)
    case CountIn(t) => Set(s, t, Counted).(working := s.working + 1)
    case Pull(t) =>
      if s.queue == [] then Set(s, t, Finished)
      else
        var job := s.queue[0];
        var pc := if |s.queue| == 1 then Running(job) else Reposting(job);
        Set(s, t, pc).(queue := s.queue[1..], pulled := s.pulled + 1)
    case Repost(t, woken) => Post(Set(s, t, Running(s.threads[t].job)), woken)
    case Finish(t) => Set(s, t, Finished).(finished := s.finished + {s.threads[t].job})
    case CountOut(t) =>
      var alerts := s.working - 1 == 0 && s.waiter == Blocked;
      Set(s, t, Top).(working := s.working - 1, waiter := if alerts then Alerted else s.waiter)
    case Leave(t) => Set(s, t, Gone).(alive := s.alive - 1)
    case WakeUp(t) => Set(s, t, Woken)
    case Push(who) => s.(queue := s.queue + [s.pushed], pushed := s.pushed + 1, pusher := who)
    case PushPost(woken) => Post(s.(pusher := NoOne), woken)
    case WaitLock => s.(waiter := Locked)
    case WaitReadLen => s.(waiter := if s.queue != [] then SawWork else SawNone(Jobs(s.threads)))
    case WaitReadWorking => s.(waiter := if s.working != 0 then SawWork else Returned)
    case WaitSleep => s.(waiter := Blocked)
    case WaitWakeUp => s.(waiter := Alerted)
    case WaitAgain => s.(waiter := Locked)
    case WaitReturn => s.(waiter := Away)
    case Destroy => s.(keepalive := false)
    case PostAll => s.(semaphore := true, threads := seq(|s.threads|, t requires 0 <= t < |s.threads| =>
                       if s.threads[t] == Asleep then Woken else s.threads[t]))
    case Clear => s.(queue := [], semaphore := false, cleared := true, discarded := s.discarded + s.queue)
  }

  predicate Init(s: State) {
    && s.keepalive && !s.semaphore && s.queue == [] && s.working == 0 && s.alive == 0
    && (forall t :: 0 <= t < |s.threads| ==> s.threads[t] == Starting)
    && s.pusher == NoOne && s.waiter == Away && !s.cleared
    && s.pushed == 0 && s.pulled == 0 && s.finished == {} && s.discarded == []
  }

  /** A run: a sequence of states that begins initially and goes on by enabled steps. */
  ghost predicate IsRun(run: seq<State>) {
    && run != [] && Init(run[0])
    && (forall i :: 0 <= i < |run| - 1 ==> Follows(run[i], run[i + 1]))
  }

  ghost predicate Follows(s: State, s': State) {
    exists l :: Enabled(s, l) && s' == Do(s, l)
  }

  // ---------- the invariant ----------

  predicate IsWorking(pc: Pc) {
    pc.Counted? || pc.Reposting? || pc.Running? || pc.Finished?
  }

  predicate IsAlive(pc: Pc) {
    !pc.Starting? && !pc.Gone?
  }

  function CountWorking(threads: seq<Pc>): nat {
    if threads == [] then 0
    else CountWorking(threads[..|threads| - 1]) + if IsWorking(threads[|threads| - 1]) then 1 else 0
  }

  function CountAlive(threads: seq<Pc>): nat {
    if threads == [] then 0
    else CountAlive(threads[..|threads| - 1]) + if IsAlive(threads[|threads| - 1]) then 1 else 0
  }

  /** The worker took the semaphore and has not yet pulled, or is about to post. */
  predicate BringsOn(pc: Pc) {
    pc.Passed? || pc.Entering? || pc.Counted? || pc.Reposting?
  }

  /** Queued work is announced: the semaphore is up, or a worker or a pusher will see to it. */
  ghost predicate NoLostWakeup(s: State) {
    s.keepalive && s.queue != [] ==>
      s.semaphore || s.pusher != NoOne || exists t :: 0 <= t < |s.threads| && BringsOn(s.threads[t])
  }

  /** While the semaphore is up, no worker sleeps unless another was woken to test it. */
  ghost predicate SleepersAreRelieved(s: State) {
    s.semaphore && SomeoneSleeps(s) ==> exists t :: 0 <= t < |s.threads| && s.threads[t] == Woken
  }

  ghost predicate OneHolder(s: State) {
    && (forall t, u :: 0 <= t < u < |s.threads| ==> !s.threads[t].Reposting? || !s.threads[u].Reposting?)
    && (s.pusher != NoOne ==> forall t :: 0 <= t < |s.threads| ==> !s.threads[t].Reposting?)
  }

  ghost predicate Counts(s: State) {
    s.working == CountWorking(s.threads) && s.alive == CountAlive(s.threads)
  }

  /** The queue holds the jobs that were pushed and not pulled, in order. */
  ghost predicate Fifo(s: State) {
    && s.pushed == s.pulled + |s.discarded| + |s.queue|
    && (forall i :: 0 <= i < |s.queue| ==> s.queue[i] == s.pulled + |s.discarded| + i)
    && (forall i :: 0 <= i < |s.discarded| ==> s.discarded[i] == s.pulled + i)
    && (s.discarded != [] ==> s.cleared)
    && (s.cleared ==> s.queue == [] && s.alive == 0 && !s.keepalive)
  }

  /** Every pulled job is finished or with one worker, and not both. */
  ghost predicate JobsOnce(s: State) {
    && (forall t :: 0 <= t < |s.threads| ==> forall j :: j in JobOf(s.threads[t]) ==> j < s.pulled && j !in s.finished)
    && (forall t, u :: 0 <= t < u < |s.threads| ==> JobOf(s.threads[t]) !! JobOf(s.threads[u]))
    && (forall j :: j in s.finished ==> j < s.pulled)
    && (forall j :: 0 <= j < s.pulled ==> j in s.finished || j in Jobs(s.threads))
  }

  ghost predicate WaiterKnows(s: State) {
    s.waiter.SawNone? && s.waiter.running != {} ==> s.working > 0
  }

  /**
   A caller that sleeps, or is about to, has a reason: work is queued, or some worker has yet to be counted as
   idle.
   */
  ghost predicate WaiterHasReason(s: State) {
    s.waiter == SawWork || s.waiter == Blocked ==> s.queue != [] || s.working > 0 || s.cleared
  }

  ghost predicate KeptAlive(s: State) {
    && (s.keepalive ==> forall t :: 0 <= t < |s.threads| ==> !s.threads[t].Leaving? && !s.threads[t].Gone?)
    && (!s.keepalive ==> forall t :: 0 <= t < |s.threads| ==> !s.threads[t].Starting?)
  }

  ghost predicate Inv(s: State) {
    && NoLostWakeup(s) && SleepersAreRelieved(s) && OneHolder(s) && Counts(s)
    && Fifo(s) && JobsOnce(s) && WaiterKnows(s) && WaiterHasReason(s) && KeptAlive(s)
  }

  // ---------- every step keeps the invariant ----------

  lemma {:induction false} CountsOfUpdate(threads: seq<Pc>, t: nat, pc: Pc)
    requires t < |threads|
    ensures CountWorking(threads[t := pc]) ==
            CountWorking(threads) - (if IsWorking(threads[t]) then 1 else 0) + (if IsWorking(pc) then 1 else 0)
    ensures CountAlive(threads[t := pc]) ==
            CountAlive(threads) - (if IsAlive(threads[t]) then 1 else 0) + (if IsAlive(pc) then 1 else 0)
    decreases |threads|
  {
    var n := |threads| - 1;
    if t == n {
      assert threads[t := pc][..n] == threads[..n];
    } else {
      CountsOfUpdate(threads[..n], t, pc);
      assert threads[t := pc][..n] == threads[..n][t := pc];
    }
  }

  lemma {:induction false} SameCounts(a: seq<Pc>, b: seq<Pc>)
    requires |a| == |b|
    requires forall t :: 0 <= t < |a| ==>
               IsWorking(a[t]) == IsWorking(b[t]) && IsAlive(a[t]) == IsAlive(b[t]) && JobOf(a[t]) == JobOf(b[t])
    ensures CountWorking(a) == CountWorking(b) && CountAlive(a) == CountAlive(b) && Jobs(a) == Jobs(b)
    decreases |a|
  {
    if a != [] { SameCounts(a[..|a| - 1], b[..|b| - 1]); }
  }

  lemma {:induction false} JobsAre(threads: seq<Pc>, j: nat)
    ensures j in Jobs(threads) <==> exists t :: 0 <= t < |threads| && j in JobOf(threads[t])
    decreases |threads|
  {
    if threads != [] {
      var n := |threads| - 1;
      JobsAre(threads[..n], j);
      if t :| 0 <= t < n && j in JobOf(threads[t]) { assert j in JobOf(threads[..n][t]); }
      if t :| 0 <= t < n && j in JobOf(threads[..n][t]) { assert j in JobOf(threads[t]); }
    }
  }

  lemma {:induction false} WorkerIsCounted(threads: seq<Pc>, t: nat)
    requires t < |threads|
    ensures IsWorking(threads[t]) ==> CountWorking(threads) > 0
    ensures IsAlive(threads[t]) ==> CountAlive(threads) > 0
    decreases |threads|
  {
    if t < |threads| - 1 { WorkerIsCounted(threads[..|threads| - 1], t); }
  }

  lemma PostCounts(s: State, woken: nat)
    ensures CountWorking(Post(s, woken).threads) == CountWorking(s.threads)
    ensures CountAlive(Post(s, woken).threads) == CountAlive(s.threads)
    ensures Post(s, woken).working == s.working && Post(s, woken).alive == s.alive
  {
    if Thread(s, woken, Asleep) { CountsOfUpdate(s.threads, woken, Woken); }
  }

  lemma KeepsCounts(s: State, l: Label)
    requires Counts(s) && Enabled(s, l)
    ensures Counts(Do(s, l))
  {
    hide Enabled, Do, CountWorking, CountAlive;
    if Posts(l) {
      PostKeepsCounts(s, l);
    } else if MovesNone(l) {
      NoneMoves(s, l);
    } else {
      OneMoves(s, l);
      CountsOfUpdate(s.threads, l.t, Do(s, l).threads[l.t]);
    }
  }

  lemma PostKeepsCounts(s: State, l: Label)
    requires Counts(s) && Enabled(s, l) && Posts(l)
    ensures Counts(Do(s, l))
  {
    hide SomeoneSleeps, MaySignal, Jobs, CountWorking, CountAlive, Post;
    match l
    case PushPost(woken) => PostCounts(s.(pusher := NoOne), woken);
    case Repost(t, woken) =>
      var pc := Running(s.threads[t].job);
      CountsOfUpdate(s.threads, t, pc);
      PostCounts(Set(s, t, pc), woken);
    case PostAll => SameCounts(s.threads, Do(s, l).threads);
  }

  /** The steps that move no worker. */
  predicate MovesNone(l: Label) {
    || l.Push? || l.WaitLock? || l.WaitReadLen? || l.WaitReadWorking? || l.WaitSleep? || l.WaitWakeUp?
    || l.WaitAgain? || l.WaitReturn?
    || l.Destroy? || l.Clear?
  }

  lemma NoneMoves(s: State, l: Label)
    requires Enabled(s, l) && MovesNone(l)
    ensures var s' := Do(s, l); s'.threads == s.threads && s'.working == s.working && s'.alive == s.alive
  {
  }

  /** The steps that post the semaphore. */
  predicate Posts(l: Label) {
    l.PushPost? || l.Repost? || l.PostAll?
  }

  /** The steps by which a worker goes about its loop without being counted, or taking or finishing a job. */
  predicate Loops(l: Label) {
    l.TestLoop? || l.TestSem? || l.TestAlive? || l.WakeUp?
  }

  predicate MovesOne(l: Label) {
    !MovesNone(l) && !Posts(l)
  }

  /** Other steps but posts move the worker they name, and adjust the two counters for it. */
  lemma OneMoves(s: State, l: Label)
    requires Enabled(s, l) && MovesOne(l)
    ensures Moved(s, Do(s, l), l.t)
  {
    hide Enabled, Do, Moved;
    if Loops(l) { LoopMoves(s, l); } else { JobMoves(s, l); }
  }

  predicate Moved(s: State, s': State, t: nat) {
    && t < |s.threads| == |s'.threads| && s'.threads == s.threads[t := s'.threads[t]]
    && s'.working - s.working ==
      (if IsWorking(s'.threads[t]) then 1 else 0) - (if IsWorking(s.threads[t]) then 1 else 0)
    && s'.alive - s.alive == (if IsAlive(s'.threads[t]) then 1 else 0) - (if IsAlive(s.threads[t]) then 1 else 0)
  }

  lemma LoopMoves(s: State, l: Label)
    requires Enabled(s, l) && Loops(l)
    ensures Moved(s, Do(s, l), l.t)
  {
    hide Jobs, SomeoneSleeps, QueueMutexFree, CountLockFree, MaySignal, Post;
  }

  lemma JobMoves(s: State, l: Label)
    requires Enabled(s, l) && MovesOne(l) && !Loops(l)
    ensures Moved(s, Do(s, l), l.t)
  {
    hide Jobs, SomeoneSleeps, QueueMutexFree, CountLockFree, MaySignal, Post;
  }

  lemma KeepsNoLostWakeup(s: State, l: Label)
    requires NoLostWakeup(s) && OneHolder(s) && KeptAlive(s) && Enabled(s, l)
    ensures NoLostWakeup(Do(s, l))
  {
    hide Jobs;
    var s' := Do(s, l);
    if s'.keepalive && s'.queue != [] && !s'.semaphore && s'.pusher == NoOne {
      if l.TestSem? {
        assert s'.threads[l.t] == Passed || s'.threads[l.t] == Asleep;
      }
      if l.TestAlive? { assert BringsOn(s'.threads[l.t]); }
      if l.CountIn? { assert BringsOn(s'.threads[l.t]); }
      if l.Pull? { assert BringsOn(s'.threads[l.t]); }
      if t :| 0 <= t < |s.threads| && BringsOn(s.threads[t]) {
        assert s'.threads[t] == s.threads[t] || BringsOn(s'.threads[t]) || l.Pull?;
      }
    }
  }

  /** A post that finds sleeping workers wakes one. */
  lemma PostRelieves(s: State, woken: nat)
    requires MaySignal(s, woken)
    ensures SleepersAreRelieved(Post(s, woken))
  {
    var s' := Post(s, woken);
    if u :| 0 <= u < |s'.threads| && s'.threads[u] == Asleep {
      assert s.threads[u] == Asleep;
      assert s'.threads[woken] == Woken;
    }
  }

  lemma KeepsSleepersRelieved(s: State, l: Label)
    requires SleepersAreRelieved(s) && Enabled(s, l)
    ensures SleepersAreRelieved(Do(s, l))
  {
    if l.PushPost? {
      PostRelieves(s.(pusher := NoOne), l.woken);
    } else if l.Repost? {
      var s1 := Set(s, l.t, Running(s.threads[l.t].job));
      assert forall u :: 0 <= u < |s.threads| ==> (s1.threads[u] == Asleep <==> s.threads[u] == Asleep);
      PostRelieves(s1, l.woken);
    } else {
      QuietStepRelieves(s, l);
    }
  }

  lemma QuietStepRelieves(s: State, l: Label)
    requires SleepersAreRelieved(s) && Enabled(s, l) && !l.PushPost? && !l.Repost?
    ensures SleepersAreRelieved(Do(s, l))
  {
    hide Jobs, QueueMutexFree;
    var s' := Do(s, l);
    if s'.semaphore {
      if u :| 0 <= u < |s'.threads| && s'.threads[u] == Asleep {
        assert s.threads[u] == Asleep;
        var w :| 0 <= w < |s.threads| && s.threads[w] == Woken;
        assert s'.threads[w] == Woken;
      }
    }
  }

  lemma KeepsOneHolder(s: State, l: Label)
    requires OneHolder(s) && Enabled(s, l)
    ensures OneHolder(Do(s, l))
  {
    hide Do, Enabled, QueueMutexFree;
    var s' := Do(s, l);
    PusherChanges(s, l);
    forall t | 0 <= t < |s'.threads| && s'.threads[t].Reposting?
      ensures t < |s.threads| && (s.threads[t].Reposting? || (l == Pull(t) && QueueMutexFree(s) && s.pusher == NoOne))
    {
      BeginsToRepost(s, l, t);
    }
    if l.Pull? || l.Push? { MutexIsFree(s); }
  }

  lemma MutexIsFree(s: State)
    ensures QueueMutexFree(s) ==> s.pusher == NoOne && forall t :: 0 <= t < |s.threads| ==> !s.threads[t].Reposting?
  {
  }

  lemma BeginsToRepost(s: State, l: Label, t: nat)
    requires Enabled(s, l) && t < |Do(s, l).threads| && Do(s, l).threads[t].Reposting?
    ensures t < |s.threads| && (s.threads[t].Reposting? || (l == Pull(t) && QueueMutexFree(s) && s.pusher == NoOne))
  {
    hide Enabled, Do, QueueMutexFree;
    if MovesNone(l) {
      NoneMoves(s, l);
    } else if Posts(l) {
      PostBeginsNone(s, l, t);
    } else {
      OneMoves(s, l);
      if t == l.t { MoverBeginsToRepost(s, l); }
    }
  }

  lemma PostBeginsNone(s: State, l: Label, t: nat)
    requires Enabled(s, l) && Posts(l) && t < |Do(s, l).threads| && Do(s, l).threads[t].Reposting?
    ensures t < |s.threads| && s.threads[t].Reposting?
  {
    hide Jobs, SomeoneSleeps, MaySignal;
  }

  lemma MoverBeginsToRepost(s: State, l: Label)
    requires Enabled(s, l) && MovesOne(l) && l.t < |Do(s, l).threads| && Do(s, l).threads[l.t].Reposting?
    ensures l.Pull? && QueueMutexFree(s) && s.pusher == NoOne
  {
    hide Jobs, SomeoneSleeps, CountLockFree, MaySignal, Post;
  }

  lemma PusherChanges(s: State, l: Label)
    requires Enabled(s, l)
    ensures Do(s, l).pusher == s.pusher || Do(s, l).pusher == NoOne || (l.Push? && QueueMutexFree(s))
  {
    hide Jobs, SomeoneSleeps, CountLockFree, MaySignal, QueueMutexFree;
  }

  lemma KeepsFifo(s: State, l: Label)
    requires Fifo(s) && Counts(s) && KeptAlive(s) && Enabled(s, l)
    ensures Fifo(Do(s, l))
  {
    hide Enabled, Do, Fifo, Counts, KeptAlive;
    if l.Pull? || l.Start? || l.Leave? {
      WorkerKeepsFifo(s, l);
    } else if l.Push? || l.Clear? {
      QueueKeepsFifo(s, l);
    } else {
      ElseKeepsFifo(s, l);
    }
  }

  /** A worker that pulls, starts or leaves is alive, or not yet started: the pool has not been cleared. */
  lemma WorkerKeepsFifo(s: State, l: Label)
    requires Fifo(s) && Counts(s) && KeptAlive(s) && Enabled(s, l) && (l.Pull? || l.Start? || l.Leave?)
    ensures Fifo(Do(s, l))
  {
    hide Jobs, SomeoneSleeps, QueueMutexFree, CountLockFree, CountAlive, CountWorking;
    WorkerIsCounted(s.threads, l.t);
  }

  lemma QueueKeepsFifo(s: State, l: Label)
    requires Fifo(s) && Enabled(s, l) && (l.Push? || l.Clear?)
    ensures Fifo(Do(s, l))
  {
    hide Jobs, SomeoneSleeps, QueueMutexFree;
    if l.Clear? { assert s.discarded == []; }
  }

  lemma ElseKeepsFifo(s: State, l: Label)
    requires Fifo(s) && Enabled(s, l) && !l.Pull? && !l.Start? && !l.Leave? && !l.Push? && !l.Clear?
    ensures Fifo(Do(s, l))
  {
    hide Fifo, Enabled, Do, QueueStays;
    SameQueue(s, l);
    FifoStays(s, Do(s, l));
  }

  lemma SameQueue(s: State, l: Label)
    requires Enabled(s, l) && !l.Pull? && !l.Start? && !l.Leave? && !l.Push? && !l.Clear?
    ensures QueueStays(s, Do(s, l))
  {
    hide Enabled, Do, QueueStays;
    if MovesNone(l) { QuietQueue(s, l); } else if Posts(l) { PostQueue(s, l); } else { MoverQueue(s, l); }
  }

  predicate QueueStays(s: State, s': State) {
    && s'.queue == s.queue && s'.pushed == s.pushed && s'.pulled == s.pulled && s'.discarded == s.discarded
    && s'.cleared == s.cleared && s'.alive == s.alive && (s'.keepalive ==> s.keepalive)
  }

  lemma QuietQueue(s: State, l: Label)
    requires Enabled(s, l) && MovesNone(l) && !l.Push? && !l.Clear?
    ensures QueueStays(s, Do(s, l))
  {
  }

  lemma PostQueue(s: State, l: Label)
    requires Enabled(s, l) && Posts(l)
    ensures QueueStays(s, Do(s, l))
  {
    hide MaySignal;
  }

  lemma MoverQueue(s: State, l: Label)
    requires Enabled(s, l) && MovesOne(l) && !l.Pull? && !l.Start? && !l.Leave?
    ensures QueueStays(s, Do(s, l))
  {
    hide CountLockFree;
  }

  lemma FifoStays(s: State, s': State)
    requires Fifo(s) && QueueStays(s, s')
    ensures Fifo(s')
  {
  }

  lemma SameJobsOnce(s: State, s': State)
    requires JobsOnce(s) && s'.pulled == s.pulled && s'.finished == s.finished && |s'.threads| == |s.threads|
    requires forall t :: 0 <= t < |s.threads| ==> JobOf(s'.threads[t]) == JobOf(s.threads[t])
    ensures JobsOnce(s')
  {
    forall j: nat | j < s'.pulled ensures j in s'.finished || j in Jobs(s'.threads) {
      JobsAre(s.threads, j);
      JobsAre(s'.threads, j);
    }
  }

  lemma PullKeepsJobsOnce(s: State, t: nat)
    requires JobsOnce(s) && Fifo(s) && Counts(s) && Enabled(s, Pull(t)) && s.queue != []
    ensures JobsOnce(Do(s, Pull(t)))
  {
    hide Jobs;
    var s' := Do(s, Pull(t));
    WorkerIsCounted(s.threads, t);
    assert JobOf(s'.threads[t]) == {s.pulled};
    forall j: nat | j < s'.pulled ensures j in s'.finished || j in Jobs(s'.threads) {
      JobsAre(s.threads, j);
      JobsAre(s'.threads, j);
      if u :| 0 <= u < |s.threads| && j in JobOf(s.threads[u]) { assert j in JobOf(s'.threads[u]); }
    }
  }

  lemma FinishKeepsJobsOnce(s: State, t: nat)
    requires JobsOnce(s) && Enabled(s, Finish(t))
    ensures JobsOnce(Do(s, Finish(t)))
  {
    hide Jobs;
    var s' := Do(s, Finish(t));
    assert JobOf(s.threads[t]) == {s.threads[t].job} && JobOf(s'.threads[t]) == {};
    forall j: nat | j < s'.pulled ensures j in s'.finished || j in Jobs(s'.threads) {
      JobsAre(s.threads, j);
      JobsAre(s'.threads, j);
      if u :| 0 <= u < |s.threads| && j in JobOf(s.threads[u]) && u != t { assert j in JobOf(s'.threads[u]); }
    }
  }

  lemma KeepsJobsOnce(s: State, l: Label)
    requires JobsOnce(s) && Fifo(s) && Counts(s) && Enabled(s, l)
    ensures JobsOnce(Do(s, l))
  {
    hide Jobs, JobsOnce, Do, Fifo, Counts;
    if l.Pull? && s.queue != [] {
      PullKeepsJobsOnce(s, l.t);
    } else if l.Finish? {
      FinishKeepsJobsOnce(s, l.t);
    } else {
      NoJobMoves(s, l);
      SameJobsOnce(s, Do(s, l));
    }
  }

  /** Other steps leave every job with the worker that has it. */
  lemma NoJobMoves(s: State, l: Label)
    requires Enabled(s, l) && !(l.Pull? && s.queue != []) && !l.Finish?
    ensures var s' := Do(s, l);
            && s'.pulled == s.pulled && s'.finished == s.finished && |s'.threads| == |s.threads|
            && forall t :: 0 <= t < |s.threads| ==> JobOf(s'.threads[t]) == JobOf(s.threads[t])
  {
    hide Do, Enabled, JobOf;
    SameHistory(s, l);
    forall t | 0 <= t < |s.threads| ensures JobOf(Do(s, l).threads[t]) == JobOf(s.threads[t]) { JobStays(s, l, t); }
  }

  lemma JobStays(s: State, l: Label, t: nat)
    requires Enabled(s, l) && !(l.Pull? && s.queue != []) && !l.Finish? && t < |s.threads|
    ensures |Do(s, l).threads| == |s.threads| && JobOf(Do(s, l).threads[t]) == JobOf(s.threads[t])
  {
    hide Do, Enabled, JobOf;
    if MovesNone(l) {
      NoneMoves(s, l);
    } else if Posts(l) {
      PostMovesNoJob(s, l, t);
    } else {
      OneMoves(s, l);
      MoverKeepsJob(s, l);
    }
  }

  lemma PostMovesNoJob(s: State, l: Label, t: nat)
    requires Enabled(s, l) && Posts(l) && t < |s.threads|
    ensures |Do(s, l).threads| == |s.threads| && JobOf(Do(s, l).threads[t]) == JobOf(s.threads[t])
  {
    hide MaySignal, Post, QueueMutexFree;
    match l
    case PushPost(woken) => OnePostMovesNoJob(s.(pusher := NoOne), woken, t);
    case Repost(u, woken) => OnePostMovesNoJob(Set(s, u, Running(s.threads[u].job)), woken, t);
    case PostAll =>
  }

  lemma OnePostMovesNoJob(s: State, woken: nat, t: nat)
    requires t < |s.threads|
    ensures |Post(s, woken).threads| == |s.threads| && JobOf(Post(s, woken).threads[t]) == JobOf(s.threads[t])
  {
  }

  lemma MoverKeepsJob(s: State, l: Label)
    requires Enabled(s, l) && MovesOne(l)
    requires !(l.Pull? && s.queue != []) && !l.Finish?
    ensures l.t < |s.threads| == |Do(s, l).threads| && JobOf(Do(s, l).threads[l.t]) == JobOf(s.threads[l.t])
  {
    hide Jobs, SomeoneSleeps, QueueMutexFree, CountLockFree, MaySignal, Post;
  }

  lemma SameHistory(s: State, l: Label)
    requires Enabled(s, l) && !(l.Pull? && s.queue != []) && !l.Finish?
    ensures Do(s, l).pulled == s.pulled && Do(s, l).finished == s.finished && |Do(s, l).threads| == |s.threads|
  {
    hide Enabled, Do;
    if MovesNone(l) { QuietHistory(s, l); } else if Posts(l) { PostHistory(s, l); } else { MoverHistory(s, l); }
  }

  lemma QuietHistory(s: State, l: Label)
    requires Enabled(s, l) && MovesNone(l)
    ensures Do(s, l).pulled == s.pulled && Do(s, l).finished == s.finished && |Do(s, l).threads| == |s.threads|
  {
    hide Jobs, QueueMutexFree;
  }

  lemma PostHistory(s: State, l: Label)
    requires Enabled(s, l) && Posts(l)
    ensures Do(s, l).pulled == s.pulled && Do(s, l).finished == s.finished && |Do(s, l).threads| == |s.threads|
  {
    hide MaySignal;
  }

  lemma MoverHistory(s: State, l: Label)
    requires Enabled(s, l) && MovesOne(l) && !(l.Pull? && s.queue != []) && !l.Finish?
    ensures Do(s, l).pulled == s.pulled && Do(s, l).finished == s.finished && |Do(s, l).threads| == |s.threads|
  {
    hide QueueMutexFree, CountLockFree, MaySignal, Post;
  }

  lemma KeepsWaiterKnows(s: State, l: Label)
    requires WaiterKnows(s) && Counts(s) && Enabled(s, l)
    ensures WaiterKnows(Do(s, l))
  {
    if l.WaitReadLen? && s.queue == [] && Jobs(s.threads) != {} {
      var j :| j in Jobs(s.threads);
      JobsAre(s.threads, j);
      var t :| 0 <= t < |s.threads| && j in JobOf(s.threads[t]);
      WorkerIsCounted(s.threads, t);
    }
  }

  /**
   The last worker that is counted as idle alerts the caller; a worker that empties the queue is counted as
   working.
   */
  lemma KeepsWaiterReason(s: State, l: Label)
    requires WaiterHasReason(s) && Counts(s) && Enabled(s, l)
    ensures WaiterHasReason(Do(s, l))
  {
    hide Jobs, SomeoneSleeps, QueueMutexFree, MaySignal, CountAlive, CountWorking, Post;
    if l.Pull? || l.CountOut? { WorkerIsCounted(s.threads, l.t); }
    if l.PushPost? || l.Repost? || l.PostAll? { PostLeavesWaiter(s, l); }
  }

  lemma PostLeavesWaiter(s: State, l: Label)
    requires Enabled(s, l) && Posts(l)
    ensures var s' := Do(s, l);
            s'.waiter == s.waiter && s'.queue == s.queue && s'.working == s.working && s'.cleared == s.cleared
  {
    hide MaySignal;
  }

  lemma KeepsKeptAlive(s: State, l: Label)
    requires KeptAlive(s) && Enabled(s, l)
    ensures KeptAlive(Do(s, l))
  {
    hide Enabled, Do, KeptAlive;
    if MovesNone(l) {
      QuietKeepsAlive(s, l);
    } else if Posts(l) {
      PostKeepsAlive(s, l);
    } else {
      MoverKeepsAlive(s, l);
    }
  }

  lemma QuietKeepsAlive(s: State, l: Label)
    requires KeptAlive(s) && Enabled(s, l) && MovesNone(l)
    ensures KeptAlive(Do(s, l))
  {
    hide Jobs, SomeoneSleeps, QueueMutexFree;
  }

  lemma PostKeepsAlive(s: State, l: Label)
    requires KeptAlive(s) && Enabled(s, l) && Posts(l)
    ensures KeptAlive(Do(s, l))
  {
    hide Jobs, SomeoneSleeps, MaySignal;
  }

  lemma MoverKeepsAlive(s: State, l: Label)
    requires KeptAlive(s) && Enabled(s, l) && MovesOne(l)
    ensures KeptAlive(Do(s, l))
  {
    hide Enabled, Do;
    OneMoves(s, l);
    MoverStaysAlive(s, l);
  }

  /** A worker leaves only a pool that is not kept alive, and none begins anew. */
  lemma MoverStaysAlive(s: State, l: Label)
    requires Enabled(s, l) && MovesOne(l) && l.t < |Do(s, l).threads| && KeptAlive(s)
    ensures var s' := Do(s, l);
            && s'.keepalive == s.keepalive && !s'.threads[l.t].Starting?
            && (s.keepalive ==> !s'.threads[l.t].Leaving? && !s'.threads[l.t].Gone?)
  {
    hide Jobs, SomeoneSleeps, QueueMutexFree, CountLockFree, MaySignal, Post;
  }

  lemma StepKeepsInv(s: State, l: Label)
    requires Inv(s) && Enabled(s, l)
    ensures Inv(Do(s, l))
  {
    hide Do, Enabled, NoLostWakeup, SleepersAreRelieved, OneHolder, Counts, Fifo, JobsOnce, WaiterKnows,
      WaiterHasReason, KeptAlive;
    KeepsCounts(s, l);
    KeepsNoLostWakeup(s, l);
    KeepsSleepersRelieved(s, l);
    KeepsOneHolder(s, l);
    KeepsFifo(s, l);
    KeepsJobsOnce(s, l);
    KeepsWaiterKnows(s, l);
    KeepsWaiterReason(s, l);
    KeepsKeptAlive(s, l);
  }

  lemma {:induction false} NoneStarted(threads: seq<Pc>)
    requires forall t :: 0 <= t < |threads| ==> threads[t] == Starting
    ensures CountWorking(threads) == 0 && CountAlive(threads) == 0 && Jobs(threads) == {}
  {
    if threads != [] { NoneStarted(threads[..|threads| - 1]); }
  }

  /** The invariant holds in every state of every run. */
  lemma {:induction false} RunKeepsInv(run: seq<State>, i: nat)
    requires IsRun(run) && i < |run|
    ensures Inv(run[i])
  {
    if i == 0 {
      NoneStarted(run[0].threads);
    } else {
      RunKeepsInv(run, i - 1);
      assert Follows(run[i - 1], run[i]);
      var l :| Enabled(run[i - 1], l) && run[i] == Do(run[i - 1], l);
      StepKeepsInv(run[i - 1], l);
    }
  }

  // ---------- what the pool promises ----------

  /**
   No lost wakeup: in every state of a run in which the pool is kept alive and work is queued, a
   push or a pull is about to post, or a worker that took the semaphore is on its way to the
   queue, or the semaphore is up and, if any worker sleeps, another one has been woken to test it.
   */
  lemma QueuedWorkIsSeen(run: seq<State>, i: nat)
    requires IsRun(run) && i < |run| && run[i].keepalive && run[i].queue != []
    ensures var s := run[i];
            || s.pusher != NoOne
            || (exists t :: 0 <= t < |s.threads| && BringsOn(s.threads[t]))
            || (s.semaphore && (SomeoneSleeps(s) ==> exists t :: 0 <= t < |s.threads| && s.threads[t] == Woken))
  {
    RunKeepsInv(run, i);
  }

  /** A worker, or whoever has pushed a job, is at the next step of its own. */
  predicate Advances(l: Label) {
    || l.Start? || l.TestLoop? || l.TestSem? || l.TestAlive? || l.CountIn? || l.Pull? || l.Repost? || l.CountOut?
    || l.PushPost?
  }

  /** The caller of the wait holds the lock that a worker is waiting for, and is at its next step. */
  predicate Releases(s: State, l: Label) {
    && (l.WaitReadLen? || l.WaitReadWorking? || l.WaitSleep?)
    && exists t :: 0 <= t < |s.threads| && NeedsLock(s.threads[t])
  }

  predicate NeedsLock(pc: Pc) {
    pc.Starting? || pc.Entering? || pc.Finished?
  }

  /** Where the lock is taken, the worker that needs it can go on or its holder can. */
  lemma LockGoesOn(s: State, t: nat) returns (l: Label)
    requires t < |s.threads| && NeedsLock(s.threads[t])
    ensures Enabled(s, l) && (Advances(l) || Releases(s, l))
  {
    match s.waiter
    case Locked => l := WaitReadLen;
    case SawNone(_) => l := WaitReadWorking;
    case SawWork => l := WaitSleep;
    case _ =>
      match s.threads[t]
      case Starting => l := Start(t);
      case Entering => l := CountIn(t);
      case Finished => l := CountOut(t);
  }

  lemma Sleeper(s: State) returns (woken: nat)
    ensures MaySignal(s, woken)
  {
    if t :| 0 <= t < |s.threads| && s.threads[t] == Asleep { woken := t; } else { woken := 0; }
  }

  /** Where the queue's mutex is taken, its holder can post and let it go. */
  lemma MutexGoesOn(s: State, t: nat) returns (l: Label)
    requires Thread(s, t, Counted)
    ensures Enabled(s, l) && Advances(l)
  {
    var woken := Sleeper(s);
    if s.pusher != NoOne {
      l := PushPost(woken);
    } else if u :| 0 <= u < |s.threads| && s.threads[u].Reposting? {
      l := Repost(u, woken);
    } else {
      l := Pull(t);
    }
  }

  /** A worker that is neither asleep, nor in a job, nor leaving goes on, or the one it waits for does. */
  lemma WorkerGoesOn(s: State, t: nat) returns (l: Label)
    requires t < |s.threads|
    requires var pc := s.threads[t]; pc != Asleep && !pc.Running? && pc != Leaving && pc != Gone
    ensures Enabled(s, l) && (Advances(l) || Releases(s, l))
  {
    match s.threads[t]
    case Starting => l := LockGoesOn(s, t);
    case Top => l := TestLoop(t);
    case AtSem => l := TestSem(t);
    case Woken => l := TestSem(t);
    case Passed => l := TestAlive(t);
    case Entering => l := LockGoesOn(s, t);
    case Counted => l := MutexGoesOn(s, t);
    case Reposting(_) => var woken := Sleeper(s); l := Repost(t, woken);
    case Finished => l := LockGoesOn(s, t);
  }

  /**
   Queued work does not get stuck: while the pool is kept alive, work is queued and no worker is in a job, some worker
   or pusher can take its next step, or the caller of the wait can and lets go of the lock that a worker waits for.
   Wake-ups without a signal, further pushes, and new or repeated waits are not counted on.
   */
  lemma QueuedWorkGoesOn(run: seq<State>, i: nat) returns (l: Label)
    requires IsRun(run) && i < |run| && run[i].keepalive && run[i].queue != [] && run[i].threads != []
    requires forall t :: 0 <= t < |run[i].threads| ==> !run[i].threads[t].Running?
    ensures Enabled(run[i], l) && (Advances(l) || Releases(run[i], l))
  {
    hide Enabled, Advances, Releases, IsRun;
    var s := run[i];
    QueuedWorkIsSeen(run, i);
    AliveKeepsAll(run, i);
    if s.pusher != NoOne {
      l := PusherGoesOn(s);
    } else if t :| 0 <= t < |s.threads| && BringsOn(s.threads[t]) {
      l := WorkerGoesOn(s, t);
    } else if s.threads[0] == Asleep {
      assert SomeoneSleeps(s);
      var t :| 0 <= t < |s.threads| && s.threads[t] == Woken;
      l := WorkerGoesOn(s, t);
    } else {
      l := WorkerGoesOn(s, 0);
    }
  }

  lemma PusherGoesOn(s: State) returns (l: Label)
    requires s.pusher != NoOne
    ensures Enabled(s, l) && Advances(l)
  {
    var woken := Sleeper(s);
    l := PushPost(woken);
  }

  lemma AliveKeepsAll(run: seq<State>, i: nat)
    requires IsRun(run) && i < |run| && run[i].keepalive
    ensures forall t :: 0 <= t < |run[i].threads| ==> run[i].threads[t] != Leaving && run[i].threads[t] != Gone
  {
    hide IsRun, NoLostWakeup, SleepersAreRelieved, OneHolder, Counts, Fifo, JobsOnce, WaiterKnows, WaiterHasReason;
    RunKeepsInv(run, i);
  }

  /** Queued work never leaves all workers asleep with nobody about to post. */
  lemma NeverAllAsleep(run: seq<State>, i: nat)
    requires IsRun(run) && i < |run|
    requires run[i].keepalive && run[i].queue != [] && run[i].threads != [] && run[i].pusher == NoOne
    ensures exists t :: 0 <= t < |run[i].threads| && run[i].threads[t] != Asleep
  {
    QueuedWorkIsSeen(run, i);
    if run[i].threads[0] == Asleep { assert SomeoneSleeps(run[i]); }
  }

  /**
   The caller of the wait is not forgotten: while it sleeps, work is queued, or some worker has yet to be counted as
   idle (the last of them alerts the caller), or the pool has been destroyed.
   */
  lemma WaiterIsNotForgotten(run: seq<State>, i: nat)
    requires IsRun(run) && i < |run| && run[i].waiter == Blocked
    ensures var s := run[i];
            s.queue != [] || s.cleared || exists t :: 0 <= t < |s.threads| && IsWorking(s.threads[t])
    ensures forall t, s' :: Enabled(run[i], CountOut(t)) && s' == Do(run[i], CountOut(t)) ==>
              (s'.waiter == Alerted <==> forall u :: 0 <= u < |s'.threads| ==> !IsWorking(s'.threads[u]))
  {
    hide IsRun, NoLostWakeup, SleepersAreRelieved, OneHolder, Fifo, JobsOnce, WaiterKnows, KeptAlive, CountAlive;
    RunKeepsInv(run, i);
    var s := run[i];
    NoneIsCounted(s.threads);
    forall t, s' | Enabled(s, CountOut(t)) && s' == Do(s, CountOut(t))
      ensures s'.waiter == Alerted <==> forall u :: 0 <= u < |s'.threads| ==> !IsWorking(s'.threads[u])
    {
      CountsOfUpdate(s.threads, t, Top);
      NoneIsCounted(s'.threads);
    }
  }

  lemma {:induction false} NoneIsCounted(threads: seq<Pc>)
    ensures CountWorking(threads) == 0 <==> forall t :: 0 <= t < |threads| ==> !IsWorking(threads[t])
  {
    if threads != [] { NoneIsCounted(threads[..|threads| - 1]); }
  }

  /** The waiter begins to hold that nothing is queued only by reading so. */
  lemma OnlyReadingSees(s: State, l: Label)
    requires Enabled(s, l) && !s.waiter.SawNone? && Do(s, l).waiter.SawNone?
    ensures l == WaitReadLen
  {
    hide Jobs, SomeoneSleeps, QueueMutexFree, MaySignal;
  }

  /** The wait returns only from having read that nothing is queued. */
  lemma ReturnsFromSeeing(s: State, l: Label)
    requires Enabled(s, l) && s.waiter != Returned && Do(s, l).waiter == Returned
    ensures s.waiter.SawNone?
  {
    hide Jobs, SomeoneSleeps, QueueMutexFree, MaySignal;
  }

  /** The check by which the waiter came to hold that nothing is queued. */
  lemma {:induction false} CheckBefore(run: seq<State>, k: nat) returns (i: nat)
    requires IsRun(run) && k < |run| && run[k].waiter.SawNone?
    ensures i < k && Enabled(run[i], WaitReadLen) && run[i + 1] == Do(run[i], WaitReadLen)
    ensures forall m :: i < m <= k ==> run[m].waiter.SawNone?
    decreases k
  {
    hide Do, Enabled;
    assert Follows(run[k - 1], run[k]);
    if run[k - 1].waiter.SawNone? {
      i := CheckBefore(run, k - 1);
    } else {
      var l :| Enabled(run[k - 1], l) && run[k] == Do(run[k - 1], l);
      OnlyReadingSees(run[k - 1], l);
      i := k - 1;
    }
  }

  /**
   Whenever the wait for all work returns, there was a check before at which no job was queued and none was running,
   jobs pushed by jobs included; from that check to the return the lock was held.
   */
  lemma WaitReturnsWhenIdle(run: seq<State>, k: nat) returns (i: nat)
    requires IsRun(run) && k + 1 < |run| && run[k].waiter != Returned && run[k + 1].waiter == Returned
    ensures i < k && Enabled(run[i], WaitReadLen) && run[i + 1] == Do(run[i], WaitReadLen)
    ensures forall m :: i < m <= k ==> HoldsLock(run[m].waiter)
    ensures run[i].queue == [] && Jobs(run[i].threads) == {}
  {
    hide Do, Enabled, Jobs, Init, NoLostWakeup, SleepersAreRelieved, OneHolder, Counts, Fifo, JobsOnce, KeptAlive;
    assert Follows(run[k], run[k + 1]);
    var l :| Enabled(run[k], l) && run[k + 1] == Do(run[k], l);
    ReturnsFromSeeing(run[k], l);
    i := CheckBefore(run, k);
    SnapshotStays(run, i + 1, k);
    RunKeepsInv(run, k);
    OnlyReadReturns(run[k], l);
    SnapshotBegins(run[i]);
  }

  lemma OnlyReadReturns(s: State, l: Label)
    requires Enabled(s, l) && s.waiter.SawNone? && Do(s, l).waiter == Returned
    ensures s.working == 0
  {
    hide Jobs, SomeoneSleeps, QueueMutexFree;
  }

  lemma SnapshotBegins(s: State)
    requires Enabled(s, WaitReadLen) && Do(s, WaitReadLen).waiter.SawNone?
    ensures s.queue == [] && Do(s, WaitReadLen).waiter == SawNone(Jobs(s.threads))
  {
  }

  lemma SnapshotStep(s: State, l: Label)
    requires Enabled(s, l) && s.waiter.SawNone? && Do(s, l).waiter.SawNone?
    ensures Do(s, l).waiter == s.waiter
  {
    hide Jobs, SomeoneSleeps, QueueMutexFree;
  }

  lemma {:induction false} SnapshotStays(run: seq<State>, i: nat, k: nat)
    requires IsRun(run) && i <= k < |run|
    requires forall m :: i <= m <= k ==> run[m].waiter.SawNone?
    ensures run[k].waiter == run[i].waiter
    decreases k
  {
    hide Do, Enabled, Init;
    if i < k {
      SnapshotStays(run, i, k - 1);
      assert Follows(run[k - 1], run[k]);
      var l :| Enabled(run[k - 1], l) && run[k] == Do(run[k - 1], l);
      SnapshotStep(run[k - 1], l);
    }
  }

  /** Where a pushed job can be. */
  ghost predicate Queued(s: State, j: nat) {
    j in s.queue
  }

  ghost predicate Held(s: State, j: nat, t: nat) {
    t < |s.threads| && j in JobOf(s.threads[t])
  }

  /**
   In every state of a run each pushed job is in exactly one place: still queued, with exactly one
   worker, finished, or discarded by the destruction of the pool.
   */
  lemma EachJobOnce(run: seq<State>, i: nat, j: nat)
    requires IsRun(run) && i < |run| && j < run[i].pushed
    ensures var s := run[i];
            var held := exists t :: Held(s, j, t);
            && (Queued(s, j) || held || j in s.finished || j in s.discarded)
            && !(Queued(s, j) && held) && !(Queued(s, j) && j in s.finished) && !(Queued(s, j) && j in s.discarded)
            && !(held && j in s.finished) && !(held && j in s.discarded) && !(j in s.finished && j in s.discarded)
            && (forall t, u :: Held(s, j, t) && Held(s, j, u) ==> t == u)
  {
    RunKeepsInv(run, i);
    var s := run[i];
    hide Jobs;
    JobsAre(s.threads, j);
    if j < s.pulled {
      if t :| 0 <= t < |s.threads| && j in JobOf(s.threads[t]) { assert Held(s, j, t); }
    } else if j < s.pulled + |s.discarded| {
      assert s.discarded[j - s.pulled] == j;
    } else {
      assert s.queue[j - s.pulled - |s.discarded|] == j;
    }
  }

  /**
   Pulls are in the order of the pushes: the next job taken is the one with the number of pulls so far. The worker
   posts for others exactly if it leaves work behind.
   */
  lemma PullsAreFifo(run: seq<State>, i: nat, t: nat)
    requires IsRun(run) && i < |run| && Enabled(run[i], Pull(t)) && run[i].queue != []
    ensures run[i].queue[0] == run[i].pulled
    ensures var s' := Do(run[i], Pull(t));
            JobOf(s'.threads[t]) == {run[i].pulled} && (s'.threads[t].Reposting? <==> s'.queue != [])
  {
    RunKeepsInv(run, i);
    WorkerIsCounted(run[i].threads, t);
  }

  // ---------- what the locks and the semaphore guard ----------

  /** While the caller of the wait holds the lock, the two counts stay. */
  lemma LockGuardsCounts(s: State, l: Label)
    requires Enabled(s, l) && HoldsLock(s.waiter)
    ensures Do(s, l).working == s.working && Do(s, l).alive == s.alive
  {
    hide Jobs, SomeoneSleeps, QueueMutexFree, MaySignal;
  }

  /** While a pusher or a worker that posts holds the mutex, the queue stays. */
  lemma MutexGuardsQueue(s: State, l: Label)
    requires Enabled(s, l) && !QueueMutexFree(s)
    ensures Do(s, l).queue == s.queue && Do(s, l).pushed == s.pushed && Do(s, l).pulled == s.pulled
  {
    hide Enabled, Do, QueueMutexFree;
    QueueNeedsMutex(s, l);
    if l.Start? || l.Leave? { ComingLeavesQueue(s, l); } else { SameQueue(s, l); }
  }

  lemma QueueNeedsMutex(s: State, l: Label)
    requires Enabled(s, l) && !QueueMutexFree(s)
    ensures !l.Pull? && !l.Push? && !l.Clear?
  {
    hide Jobs, SomeoneSleeps, QueueMutexFree, MaySignal;
  }

  lemma ComingLeavesQueue(s: State, l: Label)
    requires Enabled(s, l) && (l.Start? || l.Leave?)
    ensures Do(s, l).queue == s.queue && Do(s, l).pushed == s.pushed && Do(s, l).pulled == s.pulled
  {
    hide Jobs, SomeoneSleeps, QueueMutexFree, MaySignal;
  }

  /** The worker passes the semaphore by this step. */
  predicate Passes(s: State, s': State, t: nat) {
    t < |s.threads| && t < |s'.threads| && s.threads[t] != Passed && s'.threads[t] == Passed
  }

  predicate Raises(s: State, s': State) {
    !s.semaphore && s'.semaphore
  }

  /** Who passes takes the semaphore down, and only a post or the destruction's raises it. */
  lemma PassingTakes(s: State, l: Label, t: nat)
    requires Enabled(s, l) && t < |s.threads|
    ensures Passes(s, Do(s, l), t) ==> s.semaphore && !Do(s, l).semaphore
    ensures Raises(s, Do(s, l)) ==> Posts(l)
  {
    hide Jobs, SomeoneSleeps, QueueMutexFree, CountLockFree, MaySignal;
  }

  ghost predicate RaisedBetween(run: seq<State>, i: nat, k: nat) {
    exists m: nat :: i < m < k < |run| && Raises(run[m], run[m + 1])
  }

  lemma {:induction false} RaisedSince(run: seq<State>, i: nat, k: nat)
    requires i < k < |run| && !run[i + 1].semaphore && run[k].semaphore
    ensures RaisedBetween(run, i, k)
    decreases k
  {
    if run[k - 1].semaphore && k - 1 > i {
      RaisedSince(run, i, k - 1);
      var m: nat :| i < m < k - 1 && Raises(run[m], run[m + 1]);
    } else {
      assert Raises(run[k - 1], run[k - 1 + 1]);
    }
  }

  /** Between two passes there is a post: one post lets at most one worker go on. */
  lemma OnePassPerPost(run: seq<State>, i: nat, k: nat, t: nat, u: nat)
    requires IsRun(run) && i < k && k + 1 < |run|
    requires Passes(run[i], run[i + 1], t) && Passes(run[k], run[k + 1], u)
    ensures RaisedBetween(run, i, k)
  {
    hide Do, Enabled, Init;
    assert Follows(run[i], run[i + 1]) && Follows(run[k], run[k + 1]);
    var l :| Enabled(run[i], l) && run[i + 1] == Do(run[i], l);
    PassingTakes(run[i], l, t);
    l :| Enabled(run[k], l) && run[k + 1] == Do(run[k], l);
    PassingTakes(run[k], l, u);
    RaisedSince(run, i, k);
  }

  /** A job that is within a push is running. */
  ghost predicate PusherRuns(s: State) {
    s.pusher.FromJob? ==> s.pusher.thread < |s.threads| && s.threads[s.pusher.thread].Running?
  }

  lemma StepKeepsPusher(s: State, l: Label)
    requires PusherRuns(s) && Enabled(s, l)
    ensures PusherRuns(Do(s, l))
  {
    hide Jobs, SomeoneSleeps, QueueMutexFree, CountLockFree;
  }

  /** No job ends before a push that it has begun. */
  lemma {:induction false} PushersRun(run: seq<State>, i: nat)
    requires IsRun(run) && i < |run|
    ensures PusherRuns(run[i])
  {
    hide Do, Enabled, PusherRuns;
    if i == 0 {
      NobodyPushes(run[0]);
    } else {
      PushersRun(run, i - 1);
      assert Follows(run[i - 1], run[i]);
      var l :| Enabled(run[i - 1], l) && run[i] == Do(run[i - 1], l);
      StepKeepsPusher(run[i - 1], l);
    }
  }

  lemma NobodyPushes(s: State)
    requires Init(s)
    ensures PusherRuns(s)
  {
  }

  // ---------- the caller of the wait ----------

  /** The steps of the caller of the wait, but for a wake-up without a signal. */
  predicate OfCaller(l: Label) {
    l.WaitLock? || l.WaitReadLen? || l.WaitReadWorking? || l.WaitSleep? || l.WaitAgain? || l.WaitReturn?
  }

  /**
   Unless it sleeps, the caller of the wait can take its next step; once woken, by a signal or not, it locks again and
   repeats its tests, and it returns or sleeps within four steps.
   */
  lemma CallerGoesOn(s: State) returns (l: Label)
    requires s.waiter != Blocked
    ensures OfCaller(l) && Enabled(s, l)
    ensures var w := Do(s, l).waiter;
            match s.waiter
            case Away => w == Locked
            case Alerted => w == Locked
            case Locked => w.SawNone? || w.SawWork?
            case SawNone(_) => w.SawWork? || w.Returned?
            case SawWork => w.Blocked?
            case Returned => w.Away?
    ensures forall s' :: s' == s.(waiter := Blocked) ==> Enabled(s', WaitWakeUp) && Do(s', WaitWakeUp).waiter == Alerted
  {
    hide Jobs;
    match s.waiter
    case Away => l := WaitLock;
    case Alerted => l := WaitAgain;
    case Locked => l := WaitReadLen;
    case SawNone(_) => l := WaitReadWorking;
    case SawWork => l := WaitSleep;
    case Returned => l := WaitReturn;
  }

  // ---------- destruction ----------

  /** Only the destruction ends the keeping alive, for good. */
  lemma OnlyDestroyEnds(s: State, l: Label)
    requires Enabled(s, l)
    ensures Do(s, l).keepalive == (s.keepalive && !l.Destroy?)
  {
    hide Jobs, SomeoneSleeps, QueueMutexFree, CountLockFree, MaySignal;
  }

  /** A worker that may still begin a job after the pool has been destroyed, or has one. */
  predicate Committed(pc: Pc) {
    pc.Entering? || pc.Counted? || pc.Reposting? || pc.Running?
  }

  lemma NoneCommits(s: State, l: Label, t: nat)
    requires KeptAlive(s) && Enabled(s, l) && !s.keepalive && t < |s.threads| && !Committed(s.threads[t])
    ensures var s' := Do(s, l); !s'.keepalive && t < |s'.threads| && !Committed(s'.threads[t])
  {
    hide Do, Enabled, Committed;
    OnlyDestroyEnds(s, l);
    if MovesNone(l) {
      NoneMoves(s, l);
    } else if Posts(l) {
      PostCommitsNone(s, l, t);
    } else {
      OneMoves(s, l);
      if t == l.t { MoverStaysOut(s, l); }
    }
  }

  lemma PostCommitsNone(s: State, l: Label, t: nat)
    requires Enabled(s, l) && Posts(l) && t < |s.threads| && !Committed(s.threads[t])
    ensures t < |Do(s, l).threads| && !Committed(Do(s, l).threads[t])
  {
    hide MaySignal;
  }

  lemma MoverStaysOut(s: State, l: Label)
    requires KeptAlive(s) && Enabled(s, l) && MovesOne(l) && !s.keepalive && l.t < |s.threads| == |Do(s, l).threads|
    requires !Committed(s.threads[l.t])
    ensures !Committed(Do(s, l).threads[l.t])
  {
    hide Jobs, SomeoneSleeps, QueueMutexFree, CountLockFree, MaySignal;
  }

  /** Once the pool is destroyed, no worker begins a job but those that had already seen it kept alive. */
  lemma {:induction false} NoNewJobs(run: seq<State>, i: nat, k: nat, t: nat)
    requires IsRun(run) && i <= k < |run| && !run[i].keepalive
    requires t < |run[i].threads| && !Committed(run[i].threads[t])
    ensures !run[k].keepalive && t < |run[k].threads| && !Committed(run[k].threads[t])
    decreases k
  {
    hide Do, Enabled, Init, Committed;
    if i < k {
      NoNewJobs(run, i, k - 1, t);
      RunKeepsInv(run, k - 1);
      assert Follows(run[k - 1], run[k]);
      var l :| Enabled(run[k - 1], l) && run[k] == Do(run[k - 1], l);
      NoneCommits(run[k - 1], l, t);
    }
  }

  /** How far a worker of a destroyed pool is from its end. */
  function Distance(pc: Pc): nat {
    match pc
    case Starting => 0
    case Entering => 9
    case Counted => 8
    case Reposting(_) => 7
    case Running(_) => 6
    case Asleep => 6
    case AtSem => 5
    case Woken => 5
    case Passed => 3
    case Finished => 3
    case Top => 2
    case Leaving => 1
    case Gone => 0
  }

  function Distances(threads: seq<Pc>): nat {
    if threads == [] then 0 else Distances(threads[..|threads| - 1]) + Distance(threads[|threads| - 1])
  }

  function WaiterDistance(w: Waiter): nat {
    match w
    case Locked => 3
    case SawNone(_) => 2
    case SawWork => 1
    case _ => 0
  }

  function Remaining(s: State): nat {
    Distances(s.threads) + WaiterDistance(s.waiter) + (if s.semaphore then 0 else 1)
    + (if s.pusher == NoOne then 0 else 1)
  }

  lemma {:induction false} DistancesDrop(a: seq<Pc>, b: seq<Pc>)
    requires |a| == |b| && forall t :: 0 <= t < |a| ==> Distance(b[t]) <= Distance(a[t])
    ensures Distances(b) <= Distances(a)
    ensures (exists t :: 0 <= t < |a| && Distance(b[t]) < Distance(a[t])) ==> Distances(b) < Distances(a)
  {
    if a != [] { DistancesDrop(a[..|a| - 1], b[..|b| - 1]); }
  }

  lemma {:induction false} DistanceOfUpdate(threads: seq<Pc>, t: nat, pc: Pc)
    requires t < |threads|
    ensures Distances(threads[t := pc]) == Distances(threads) - Distance(threads[t]) + Distance(pc)
    decreases |threads|
  {
    var n := |threads| - 1;
    if t == n {
      assert threads[t := pc][..n] == threads[..n];
    } else {
      DistanceOfUpdate(threads[..n], t, pc);
      assert threads[t := pc][..n] == threads[..n][t := pc];
    }
  }

  /** A post never leads away from the end, and nor does another thread that is woken. */
  lemma PostNears(s: State, woken: nat)
    ensures Distances(Post(s, woken).threads) <= Distances(s.threads) && Remaining(Post(s, woken)) <= Remaining(s)
  {
    if Thread(s, woken, Asleep) { DistanceOfUpdate(s.threads, woken, Woken); }
  }

  /** The holder of the lock for the counts is on its way to letting it go. */
  lemma WaiterNears(s: State) returns (l: Label)
    requires HoldsLock(s.waiter)
    ensures Nears(s, l)
  {
    match s.waiter
    case Locked => l := WaitReadLen;
    case SawNone(_) => l := WaitReadWorking;
    case SawWork => l := WaitSleep;
  }

  /** The step is possible and leads nearer to the end of all workers. */
  ghost predicate Nears(s: State, l: Label) {
    && Enabled(s, l) && Remaining(Do(s, l)) < Remaining(s)
    && Do(s, l).keepalive == s.keepalive && Do(s, l).cleared == s.cleared
  }

  lemma PusherNears(s: State) returns (l: Label)
    requires s.pusher != NoOne
    ensures Nears(s, l)
  {
    hide SomeoneSleeps, Distances;
    var woken := Sleeper(s);
    PostNears(s.(pusher := NoOne), woken);
    l := PushPost(woken);
  }

  lemma ReposterNears(s: State, t: nat) returns (l: Label)
    requires t < |s.threads| && s.threads[t].Reposting?
    ensures Nears(s, l)
  {
    hide SomeoneSleeps, Distances;
    var woken := Sleeper(s);
    var pc := Running(s.threads[t].job);
    DistanceOfUpdate(s.threads, t, pc);
    PostNears(Set(s, t, pc), woken);
    l := Repost(t, woken);
  }

  lemma SleeperNears(s: State, t: nat) returns (l: Label)
    requires !s.keepalive && t < |s.threads| && (s.threads[t] == Asleep || !s.semaphore)
    ensures Nears(s, l)
  {
    l := PostAll;
    DistancesDrop(s.threads, Do(s, l).threads);
    if s.threads[t] == Asleep { assert Distance(Do(s, l).threads[t]) < Distance(s.threads[t]); }
  }

  /** A worker that needs no other thread takes its own next step. */
  lemma WorkerNears(s: State, l: Label)
    requires !s.keepalive && Enabled(s, l) && s.semaphore
    requires l.TestLoop? || l.TestSem? || l.TestAlive? || l.CountIn? || l.Pull? || l.Finish? || l.CountOut? || l.Leave?
    ensures Nears(s, l)
  {
    hide Jobs, SomeoneSleeps, QueueMutexFree, CountLockFree, Distances;
    DistanceOfUpdate(s.threads, l.t, Do(s, l).threads[l.t]);
  }

  /** While some worker of a destroyed pool is not gone, some step of the pool leads nearer to the end. */
  lemma SomeoneNears(s: State, t: nat) returns (l: Label)
    requires KeptAlive(s) && !s.keepalive && t < |s.threads| && s.threads[t] != Gone
    ensures Nears(s, l)
  {
    hide Nears;
    if HoldsLock(s.waiter) {
      l := WaiterNears(s);
    } else if s.pusher != NoOne {
      l := PusherNears(s);
    } else if u :| 0 <= u < |s.threads| && s.threads[u].Reposting? {
      l := ReposterNears(s, u);
    } else if s.threads[t] == Asleep || !s.semaphore {
      l := SleeperNears(s, t);
    } else {
      l := OwnStep(s, t);
      WorkerNears(s, l);
    }
  }

  lemma OwnStep(s: State, t: nat) returns (l: Label)
    requires KeptAlive(s) && !s.keepalive && t < |s.threads|
    requires s.threads[t] != Gone && s.threads[t] != Asleep && !s.threads[t].Reposting?
    requires CountLockFree(s) && QueueMutexFree(s)
    ensures Enabled(s, l)
    ensures l.TestLoop? || l.TestSem? || l.TestAlive? || l.CountIn? || l.Pull? || l.Finish? || l.CountOut? || l.Leave?
  {
    match s.threads[t]
    case Top => l := TestLoop(t);
    case AtSem => l := TestSem(t);
    case Woken => l := TestSem(t);
    case Passed => l := TestAlive(t);
    case Entering => l := CountIn(t);
    case Counted => l := Pull(t);
    case Running(_) => l := Finish(t);
    case Finished => l := CountOut(t);
    case Leaving => l := Leave(t);
  }

  predicate AllGone(s: State) {
    forall t :: 0 <= t < |s.threads| ==> s.threads[t] == Gone
  }

  lemma MoreRun(run: seq<State>, l: Label)
    requires IsRun(run) && Enabled(run[|run| - 1], l)
    ensures IsRun(run + [Do(run[|run| - 1], l)])
  {
    hide Do, Enabled, Init;
    var more := run + [Do(run[|run| - 1], l)];
    forall i | 0 <= i < |more| - 1 ensures Follows(more[i], more[i + 1]) {
      if i < |run| - 1 { assert Follows(run[i], run[i + 1]); }
    }
  }

  /** From every state of a destroyed pool some run goes on until all workers are gone and nobody is pushing. */
  lemma {:induction false} WorkersCanEnd(run: seq<State>) returns (full: seq<State>)
    requires IsRun(run) && !run[|run| - 1].keepalive && !run[|run| - 1].cleared
    ensures IsRun(full) && run <= full
    ensures var s := full[|full| - 1]; AllGone(s) && s.pusher == NoOne && !s.keepalive && !s.cleared
    decreases Remaining(run[|run| - 1])
  {
    hide Do, Enabled, Init, Remaining, Inv;
    var s := run[|run| - 1];
    RunKeepsInv(run, |run| - 1);
    KeptAliveOf(s);
    if s.pusher != NoOne || !AllGone(s) {
      var l;
      if s.pusher != NoOne {
        l := PusherNears(s);
      } else {
        var t :| 0 <= t < |s.threads| && s.threads[t] != Gone;
        l := SomeoneNears(s, t);
      }
      MoreRun(run, l);
      full := WorkersCanEnd(run + [Do(s, l)]);
    } else {
      full := run;
    }
  }

  lemma KeptAliveOf(s: State)
    requires Inv(s)
    ensures KeptAlive(s)
  {
  }

  /**
   The destruction can always end: from every state of a pool that is being destroyed some run goes on to one in which
   all workers are gone, none is counted, the queue has been cleared and the semaphore reset; every job ever pushed has
   then been finished or discarded.
   */
  lemma DestructionCanEnd(run: seq<State>) returns (full: seq<State>)
    requires IsRun(run) && !run[|run| - 1].keepalive && !run[|run| - 1].cleared
    ensures IsRun(full) && run <= full
    ensures var s := full[|full| - 1];
            && AllGone(s) && s.alive == 0 && s.working == 0 && s.queue == [] && !s.semaphore && s.cleared
            && forall j: nat :: j < s.pushed ==> j in s.finished || j in s.discarded
  {
    hide Init, Follows, NoLostWakeup, SleepersAreRelieved, OneHolder, Fifo, JobsOnce, WaiterKnows, WaiterHasReason,
      KeptAlive, Jobs, CountAlive, CountWorking;
    full := WorkersCanEnd(run);
    var s := full[|full| - 1];
    RunKeepsInv(full, |full| - 1);
    NoneIsLeft(s.threads);
    MoreRun(full, Clear);
    full := full + [Do(s, Clear)];
    AllAccountedFor(full);
  }

  lemma AllAccountedFor(run: seq<State>)
    requires IsRun(run) && AllGone(run[|run| - 1]) && run[|run| - 1].queue == []
    ensures var s := run[|run| - 1]; forall j: nat :: j < s.pushed ==> j in s.finished || j in s.discarded
  {
    hide Init, Follows;
    var s := run[|run| - 1];
    forall j: nat | j < s.pushed ensures j in s.finished || j in s.discarded { EachJobOnce(run, |run| - 1, j); }
  }

  lemma {:induction false} NoneIsLeft(threads: seq<Pc>)
    requires forall t :: 0 <= t < |threads| ==> threads[t] == Gone
    ensures CountWorking(threads) == 0 && CountAlive(threads) == 0 && Jobs(threads) == {}
  {
    if threads != [] { NoneIsLeft(threads[..|threads| - 1]); }
  }
}
