/**
 The hand-over of a finished job: scheduler_wait_for_job (src/sk_scheduler.c:409-436), called by
 any number of threads, against hooked_job_finish_task (src/sk_worker.c:272-284).

 Every access to the job's state is one step. A futex wait checks the state and falls asleep in
 one step; it may also return or be woken for no reason, and a weak compare-and-swap may fail for
 no reason. A futex wake wakes every sleeper.
 */
module JobWait {
  import opened Basics

  type ThreadId = nat

  const SPINS := 1000

  datatype JobState = RUNNING | WAITING | DONE

  datatype WaiterPc =
    | Spin(k: nat)              // about to look for DONE for the k-th time
    | Load                      // about to load the state
    | TryMark                   // about to CAS the state from RUNNING to WAITING
    | AtFutex                   // about to call sk_futex_wait
    | Asleep
    | Returned

  datatype FinisherPc =
    | Working                   // about to exchange the state for DONE
    | MustWake                  // found WAITING, about to call sk_futex_wake
    | Finished

  datatype Handshake = Handshake(state: JobState, finisher: FinisherPc, waiters: map<ThreadId, WaiterPc>)

  datatype Action =
    | Arrive(i: ThreadId)       // a thread calls scheduler_wait_for_job
    | Wait(i: ThreadId)         // its next step
    | Spurious(i: ThreadId)     // its compare-and-swap fails, or its sleep ends or does not begin, for no reason
    | Exchange
    | Wake

  predicate Enabled(h: Handshake, a: Action) {
    match a
    case Arrive(i) => i !in h.waiters || h.waiters[i].Returned?
    case Wait(i) => i in h.waiters && !h.waiters[i].Asleep? && !h.waiters[i].Returned?
    case Spurious(i) => i in h.waiters && (h.waiters[i].TryMark? || h.waiters[i].AtFutex? || h.waiters[i].Asleep?)
    case Exchange => h.finisher.Working?
    case Wake => h.finisher.MustWake?
  }

  /** The head of the loop, for a state just read. */
  function LoopHead(seen: JobState): WaiterPc {
    match seen
    case DONE => Returned
    case RUNNING => TryMark
    case WAITING => AtFutex
  }

  function StepWaiter(h: Handshake, i: ThreadId): Handshake
    requires i in h.waiters
  {
    match h.waiters[i]
    case Spin(k) =>
      h.(waiters := h.waiters[i := if h.state.DONE? then Returned else if k + 1 < SPINS then Spin(k + 1) else Load])
    case Load => h.(waiters := h.waiters[i := LoopHead(h.state)])
    case TryMark =>
      if h.state.RUNNING? then h.(state := WAITING, waiters := h.waiters[i := AtFutex])
      else h.(waiters := h.waiters[i := LoopHead(h.state)])
    case AtFutex => h.(waiters := h.waiters[i := if h.state.WAITING? then Asleep else Load])
    case Asleep => h
    case Returned => h
  }

  function Woken(pc: WaiterPc): WaiterPc {
    if pc.Asleep? then Load else pc
  }

  function Apply(h: Handshake, a: Action): Handshake
    requires Enabled(h, a)
  {
    match a
    case Arrive(i) => h.(waiters := h.waiters[i := Spin(0)])
    case Wait(i) => StepWaiter(h, i)
    case Spurious(i) => h.(waiters := h.waiters[i := if h.waiters[i].TryMark? then LoopHead(h.state) else Load])
    case Exchange => h.(state := DONE, finisher := if h.state.WAITING? then MustWake else Finished)
    case Wake => h.(finisher := Finished, waiters := map i | i in h.waiters :: Woken(h.waiters[i]))
  }

  predicate Init(h: Handshake) {
    h.state.RUNNING? && h.finisher.Working? && h.waiters == map[]
  }

  // ---------------------------------------------------------------- no lost wake-up

  ghost predicate WaiterOk(h: Handshake, i: ThreadId)
    requires i in h.waiters
  {
    match h.waiters[i]
    case Asleep => h.state.WAITING? || h.finisher.MustWake?
    case AtFutex => !h.state.RUNNING?
    case _ => true
  }

  ghost predicate Inv(h: Handshake) {
    && (h.state.DONE? <==> !h.finisher.Working?)
    && (forall i :: i in h.waiters ==> WaiterOk(h, i))
  }

  function Order(s: JobState): nat {
    match s
    case RUNNING => 0
    case WAITING => 1
    case DONE => 2
  }

  /** A thread's call returns with this step. */
  predicate Returns(h: Handshake, a: Action, i: ThreadId)
    requires Enabled(h, a)
  {
    i in h.waiters && !h.waiters[i].Returned? && i in Apply(h, a).waiters && Apply(h, a).waiters[i].Returned?
  }

  /** Every step keeps the invariant; the state only moves on; a call returns only once it is DONE. */
  lemma StepInv(h: Handshake, a: Action)
    requires Inv(h) && Enabled(h, a)
    ensures Inv(Apply(h, a))
    ensures Order(h.state) <= Order(Apply(h, a).state)
    ensures forall i :: Returns(h, a, i) ==> h.state.DONE?
  {
    var g := Apply(h, a);
    forall i | i in g.waiters ensures WaiterOk(g, i) { assert i in h.waiters ==> WaiterOk(h, i); }
  }

  predicate IsRun(h: Handshake, run: seq<Action>)
    decreases |run|
  {
    run == [] || (Enabled(h, run[0]) && IsRun(Apply(h, run[0]), run[1..]))
  }

  function Final(h: Handshake, run: seq<Action>): Handshake
    requires IsRun(h, run)
    decreases |run|
  {
    if run == [] then h else Final(Apply(h, run[0]), run[1..])
  }

  lemma {:induction false} InvRun(h: Handshake, run: seq<Action>)
    requires Inv(h) && IsRun(h, run)
    ensures Inv(Final(h, run)) && Order(h.state) <= Order(Final(h, run).state)
    decreases |run|
  {
    if run != [] {
      StepInv(h, run[0]);
      InvRun(Apply(h, run[0]), run[1..]);
    }
  }

  /** No lost wake-up: in every reachable state a sleeper has a wake coming, because the finisher
      will find WAITING, or is about to wake; once the finisher is through, nobody sleeps. */
  lemma NoLostWakeUp(h0: Handshake, run: seq<Action>, i: ThreadId)
    requires Init(h0) && IsRun(h0, run) && i in Final(h0, run).waiters
    ensures var h := Final(h0, run);
            && (h.waiters[i].Asleep? ==> (h.state.WAITING? && h.finisher.Working?) || h.finisher.MustWake?)
            && (h.finisher.Finished? ==> !h.waiters[i].Asleep?)
            && (h.finisher.Working? <==> !h.state.DONE?)
  {
    InvRun(h0, run);
    assert WaiterOk(Final(h0, run), i);
  }

  lemma ReturnsOnlyAfterDone(h0: Handshake, run: seq<Action>, i: ThreadId)
    requires Init(h0) && IsRun(h0, run) && i in Final(h0, run).waiters && Final(h0, run).waiters[i].Returned?
    ensures Final(h0, run).state.DONE?
  {
    ReturnedMeansDone(h0, run, i);
  }

  /** Whoever has returned did so after DONE. */
  lemma {:induction false} ReturnedMeansDone(h: Handshake, run: seq<Action>, i: ThreadId)
    requires Inv(h) && IsRun(h, run) && i in Final(h, run).waiters && Final(h, run).waiters[i].Returned?
    requires i in h.waiters && h.waiters[i].Returned? ==> h.state.DONE?
    ensures Final(h, run).state.DONE?
    decreases |run|
  {
    if run != [] {
      StepInv(h, run[0]);
      assert Returns(h, run[0], i) ==> h.state.DONE?;
      ReturnedMeansDone(Apply(h, run[0]), run[1..], i);
    }
  }

  // ---------------------------------------------------------------- waiters do sleep

  predicate FallsAsleep(h: Handshake, a: Action, i: ThreadId)
    requires Enabled(h, a)
  {
    i in h.waiters && !h.waiters[i].Asleep? && i in Apply(h, a).waiters && Apply(h, a).waiters[i].Asleep?
  }

  /** Thread i falls asleep exactly when it reaches the futex while the state is WAITING; and the finisher
      owes a wake exactly when its exchange found WAITING. */
  lemma SleepsAndOwes(h: Handshake, a: Action, i: ThreadId)
    requires Enabled(h, a)
    ensures FallsAsleep(h, a, i) <==> a == Wait(i) && h.waiters[i].AtFutex? && h.state.WAITING?
    ensures h.finisher.Working? && Apply(h, a).finisher.MustWake? <==> a.Exchange? && h.state.WAITING?
    ensures h.finisher.Working? && Apply(h, a).finisher.Finished? <==> a.Exchange? && !h.state.WAITING?
  {
  }

  /** How many of its own steps a waiter takes at most before it sleeps, while the job is not DONE. */
  function BusySteps(pc: WaiterPc): nat {
    match pc
    case Spin(k) => if k < SPINS then SPINS - k + 3 else 4
    case Load => 3
    case TryMark => 2
    case AtFutex => 1
    case Asleep => 0
    case Returned => 0
  }

  /** The run leaves the job unfinished, and no wait or swap of thread i fails or ends for no reason. */
  predicate StillRunning(h: Handshake, run: seq<Action>, i: ThreadId)
    requires IsRun(h, run)
    decreases |run|
  {
    !h.state.DONE? && (run == [] || (run[0] != Spurious(i) && run[0] != Arrive(i) && StillRunning(Apply(h, run[0]), run[1..], i)))
  }

  lemma BusyStep(h: Handshake, a: Action, i: ThreadId)
    requires Inv(h) && !h.state.DONE? && Enabled(h, a) && i in h.waiters && !h.waiters[i].Returned?
    requires a != Spurious(i) && a != Arrive(i) && !Apply(h, a).state.DONE?
    ensures i in Apply(h, a).waiters && !Apply(h, a).waiters[i].Returned?
    ensures BusySteps(Apply(h, a).waiters[i]) + (if StepOf(a, i) then 1 else 0) <= BusySteps(h.waiters[i])
  {
    assert WaiterOk(h, i);
  }

  /** Waiting is not spinning: while the job is not DONE a waiter takes at most 1003 steps before it sleeps,
      whatever the others do; and it sleeps until somebody wakes it. */
  lemma {:induction false} WaiterSleeps(h: Handshake, run: seq<Action>, i: ThreadId)
    requires Inv(h) && IsRun(h, run) && StillRunning(h, run, i) && i in h.waiters && !h.waiters[i].Returned?
    ensures i in Final(h, run).waiters && !Final(h, run).waiters[i].Returned?
    ensures BusySteps(Final(h, run).waiters[i]) + OwnSteps(run, i) <= BusySteps(h.waiters[i]) <= 1003
    ensures Final(h, run).waiters[i].Asleep? <==> BusySteps(Final(h, run).waiters[i]) == 0
    decreases |run|
  {
    if run != [] {
      StepInv(h, run[0]);
      BusyStep(h, run[0], i);
      WaiterSleeps(Apply(h, run[0]), run[1..], i);
    }
  }

  // ---------------------------------------------------------------- and every waiter comes back

  /** How many of its own steps a waiter still needs, once the finisher is through. */
  function StepsLeft(pc: WaiterPc): nat {
    match pc
    case Returned => 0
    case AtFutex => 2
    case _ => 1
  }

  predicate StepOf(a: Action, i: ThreadId) {
    (a.Wait? || a.Spurious?) && a.i == i
  }

  function OwnSteps(run: seq<Action>, i: ThreadId): nat
    decreases |run|
  {
    if run == [] then 0 else (if StepOf(run[0], i) then 1 else 0) + OwnSteps(run[1..], i)
  }

  predicate ArrivesAgain(run: seq<Action>, i: ThreadId) {
    Arrive(i) in run
  }

  lemma FinishedStep(h: Handshake, a: Action, i: ThreadId)
    requires Inv(h) && h.finisher.Finished? && Enabled(h, a) && i in h.waiters && a != Arrive(i)
    ensures Apply(h, a).finisher.Finished? && i in Apply(h, a).waiters
    ensures StepsLeft(Apply(h, a).waiters[i]) <= StepsLeft(h.waiters[i]) - (if StepOf(a, i) then 1 else 0)
  {
    assert WaiterOk(h, i);
  }

  /** Once the finisher is through, a waiter returns within two more steps of its own, whatever the
      others do and however often its waits end for no reason. */
  lemma {:induction false} WaiterReturns(h: Handshake, run: seq<Action>, i: ThreadId)
    requires Inv(h) && IsRun(h, run) && h.finisher.Finished? && i in h.waiters && !ArrivesAgain(run, i)
    ensures i in Final(h, run).waiters
    ensures StepsLeft(Final(h, run).waiters[i]) + OwnSteps(run, i) <= StepsLeft(h.waiters[i]) <= 2
    ensures Final(h, run).waiters[i].Returned? || Enabled(Final(h, run), Wait(i))
    decreases |run|
  {
    assert WaiterOk(h, i);
    if run != [] {
      StepInv(h, run[0]);
      FinishedStep(h, run[0], i);
      assert forall a :: a in run[1..] ==> a in run;
      WaiterReturns(Apply(h, run[0]), run[1..], i);
    }
  }
}
