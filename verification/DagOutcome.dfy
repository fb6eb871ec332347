/** What whole runs of the task completion protocol end in. */
module DagOutcome {
  import opened Basics
  import opened Splitting
  import opened TaskDag
  import opened DagInvariant
  import opened DagRefs
  import opened DagForest
  import DagJobs
  import opened DagTheorems

  // ---------------------------------------------------------------- released exactly once

  /** The event is a successful memory_pool_acquire of node t. */
  predicate Acquires(e: Event, t: TaskId) {
    e == Submit(SubmitChild(t)) || (e.Submit? && e.m.SubmitRoot? && e.m.r == t) ||
    (e.Stack? && (e.f == SplitNew(t) || e.f == SpawnNew(t)))
  }

  /** The event is a memory_pool_release of node t. */
  predicate Releases(s: State, e: Event, t: TaskId)
    requires Enabled(s, e)
  {
    match e
    case Loop(w, l) => l.Retire? && s.workers[w].t == t
    case Stack(w, f) => f == SplitFree(t) || (f.FreeRejected? && Top(s, w).c == t)
    case Submit(m) => (m.DropRoot? && s.sub.r == t) || (m.DropChild? && s.sub.c == t)
  }

  function AcquireCount(es: seq<Event>, t: TaskId): nat {
    if es == [] then 0 else (if Acquires(es[0], t) then 1 else 0) + AcquireCount(es[1..], t)
  }

  function ReleaseCount(s: State, es: seq<Event>, t: TaskId): nat
    requires IsRun(s, es)
    decreases |es|
  {
    if es == [] then 0
    else (if Releases(s, es[0], t) then 1 else 0) + ReleaseCount(Apply(s, es[0]), es[1..], t)
  }

  function Taken(s: State, t: TaskId): nat {
    if t in s.tasks && !s.tasks[t].place.Free? then 1 else 0
  }

  lemma StepTaken(s: State, e: Event, t: TaskId)
    requires Inv(s) && Enabled(s, e)
    ensures Taken(Apply(s, e), t) + (if Releases(s, e, t) then 1 else 0) == Taken(s, t) + (if Acquires(e, t) then 1 else 0)
  {
    match e
    case Loop(w, l) => LoopTaken(s, w, l, t);
    case Stack(w, f) => StackTaken(s, w, f, t);
    case Submit(m) => SubmitTaken(s, m, t);
  }

  lemma SubmitTaken(s: State, m: SubmitEvent, t: TaskId)
    requires SubOk(s) && SubmitEnabled(s, m)
    ensures Taken(SubmitApply(s, m), t) + (if Releases(s, Submit(m), t) then 1 else 0)
         == Taken(s, t) + (if Acquires(Submit(m), t) then 1 else 0)
  {
    assert forall u :: u in SubTasks(s.sub) ==> u in s.tasks && s.tasks[u].place.Submitting?;
  }

  lemma LoopTaken(s: State, w: WorkerId, l: LoopEvent, t: TaskId)
    requires Refs(s) && LoopEnabled(s, w, l)
    ensures Taken(LoopApply(s, w, l), t) + (if Releases(s, Loop(w, l), t) then 1 else 0) == Taken(s, t)
  {
    assert WorkerOk(s, w);
  }

  lemma StackTaken(s: State, w: WorkerId, f: StackEvent, t: TaskId)
    requires Refs(s) && StackEnabled(s, w, f)
    ensures Taken(StackApply(s, w, f), t) + (if Releases(s, Stack(w, f), t) then 1 else 0)
         == Taken(s, t) + (if Acquires(Stack(w, f), t) then 1 else 0)
  {
    match f
    case FreeRejected => assert RecycleOk(s, w, TopIndex(s, w));
    case SplitFree(r) =>
      assert r in TopBatch(s, w);
      ListedAtTop(s, w, r);
    case _ => StackKeepsTaken(s, w, f, t);
  }

  lemma StackKeepsTaken(s: State, w: WorkerId, f: StackEvent, t: TaskId)
    requires w in s.workers && WorkerOk(s, w) && StackEnabled(s, w, f) && !f.FreeRejected? && !f.SplitFree?
    ensures Taken(StackApply(s, w, f), t) == Taken(s, t) + (if Acquires(Stack(w, f), t) then 1 else 0)
  {
  }

  /** Over every run, a node has been released as often as it was acquired, or once less while it
      is in use: no node is released twice, and a quiet scheduler has released them all. */
  lemma {:induction false} ReleasedOnce(s: State, es: seq<Event>, t: TaskId)
    requires Inv(s) && IsRun(s, es)
    ensures Taken(s, t) + AcquireCount(es, t) == ReleaseCount(s, es, t) + Taken(Final(s, es), t)
    decreases |es|
  {
    if es != [] {
      StepTaken(s, es[0], t);
      InvStep(s, es[0]);
      ReleasedOnce(Apply(s, es[0]), es[1..], t);
    }
  }

  // ---------------------------------------------------------------- DONE means done

  /** Nothing is below root r any more: its job is done, or about to be published. */
  ghost predicate Finishing(s: State, r: TaskId)
    requires r in s.tasks
  {
    && Started(s.tasks[r]) && s.tasks[r].parent.None? && s.tasks[r].job in s.jobs
    && (s.jobs[s.tasks[r].job].done ||
        (s.tasks[r].place.Active? && FrameAt(s, s.tasks[r].place.w, 0) == Some(Publish)))
  }

  lemma NothingUnderRoot(s: State, r: TaskId)
    requires Inv(s) && r in s.tasks && Finishing(s, r)
    ensures Childless(s, r)
  {
    assert RootOk(s, r) && CountOk(s, r) && PlaceOk(s, r);
    if s.tasks[r].place.Active? { assert RunOk(s, s.tasks[r].place.w); }
    DagRefs.NothingCounted(s, r);
    forall w | w in s.workers && s.workers[w].Running? && s.workers[w].t == r ensures s.workers[w].frames == [Publish] {
      assert WorkerOk(s, w);
    }
    NothingBelow(s, r);
  }

  /** Every live task of a finished job is its root. */
  lemma {:induction false} OnlyTheRoot(s: State, r: TaskId, t: TaskId)
    requires Inv(s) && r in s.tasks && Finishing(s, r) && t in s.tasks && Started(s.tasks[t])
    requires s.tasks[t].job == s.tasks[r].job
    ensures t == r
    decreases s.tasks[t].serial
  {
    assert TreeOk(s, t) && RootOk(s, t) && RootOk(s, r);
    if s.tasks[t].parent.Some? {
      NothingUnderRoot(s, r);
      OnlyTheRoot(s, r, s.tasks[t].parent.value);
    }
  }

  /** A job that is DONE has no live task but its root. */
  lemma DoneIsOver(s: State, j: JobId, t: TaskId)
    requires Inv(s) && j in s.jobs && s.jobs[j].done && t in s.tasks && Started(s.tasks[t]) && s.tasks[t].job == j
    ensures t == s.jobs[j].root && s.tasks[t].parent.None?
    decreases s.tasks[t].serial
  {
    assert TreeOk(s, t) && RootOk(s, t);
    if s.tasks[t].parent.Some? {
      var p := s.tasks[t].parent.value;
      DoneIsOver(s, j, p);
      assert RootOk(s, p);
      NothingUnderRoot(s, p);
    }
  }

  ghost predicate Covered(job: Job, x: nat) {
    exists k: nat :: InCall(job, k, x)
  }

  /** Exactly one call of the job's function covers index x, and no call covers more than [0, n). */
  ghost predicate ExactPartition(job: Job) {
    && (forall x: nat :: x < job.n ==> Covered(job, x))
    && (forall x, k: nat, i: nat :: InCall(job, k, x) && InCall(job, i, x) ==> k == i)
    && (forall x, k: nat :: InCall(job, k, x) ==> 0 <= x < job.n)
  }

  lemma AllCalled(s: State, j: JobId)
    requires Inv(s) && j in s.jobs
    requires forall t, x :: !AnswersFor(s, t, j, x)
    ensures ExactPartition(s.jobs[j])
  {
    var job := s.jobs[j];
    assert CoverOk(s, j);
    forall x: nat | x < job.n ensures Covered(job, x) {
      assert Answered(s, j, x);
      assert InCall(job, job.answer[x].k, x);
    }
    forall x, k: nat | InCall(job, k, x) ensures 0 <= x < job.n {
      assert job.calls[k].lo <= x;
    }
  }

  lemma DoneIsPartitioned(s: State, j: JobId)
    requires Inv(s) && j in s.jobs && s.jobs[j].done
    ensures ExactPartition(s.jobs[j])
  {
    forall t | t in s.tasks && Started(s.tasks[t]) && s.tasks[t].job == j ensures s.tasks[t].pend == Range(0, 0) {
      DoneIsOver(s, j, t);
      assert RootOk(s, t);
    }
    forall t, x ensures !AnswersFor(s, t, j, x) {}
    AllCalled(s, j);
  }

  /** The headline. In every run, with any number of workers and whatever acquires and pushes fail:
      a job that is DONE has had its function called on an exact partition of [0, n), and none of
      its task nodes is in use but, at most, the root that is handing itself back. */
  lemma JobDone(s0: State, es: seq<Event>, j: JobId)
    requires Init(s0) && IsRun(s0, es) && j in Final(s0, es).jobs && Final(s0, es).jobs[j].done
    ensures ExactPartition(Final(s0, es).jobs[j])
    ensures forall t :: t in Final(s0, es).tasks && Started(Final(s0, es).tasks[t]) && Final(s0, es).tasks[t].job == j ==>
              t == Final(s0, es).jobs[j].root
  {
    InvInit(s0);
    InvRun(s0, es);
    var s := Final(s0, es);
    forall t | t in s.tasks && Started(s.tasks[t]) && s.tasks[t].job == j ensures t == s.jobs[j].root && s.tasks[t].parent.None? {
      DoneIsOver(s, j, t);
    }
    DoneIsPartitioned(s, j);
  }

  lemma PublisherIsRoot(s: State, w: WorkerId)
    requires Refs(s) && Roots(s) && AtPublish(s, w)
    ensures Finishing(s, s.workers[w].t) && !s.jobs[JobOf(s, w)].done && s.tasks[s.workers[w].t].pend == Range(0, 0)
  {
    assert WorkerOk(s, w);
    assert Over(s, w) ==> CallOk(Below(s, w), Top(s, w));
    assert OnStackOk(s, w) && RootOk(s, s.workers[w].t);
  }

  /** At the exchange that publishes DONE the calls already are an exact partition, every other
      task of the job has been released, and the job was not DONE before. */
  lemma PublishedOnce(s: State, w: WorkerId)
    requires Inv(s) && AtPublish(s, w)
    ensures JobOf(s, w) in s.jobs && !s.jobs[JobOf(s, w)].done && ExactPartition(s.jobs[JobOf(s, w)])
    ensures forall t :: t in s.tasks && Started(s.tasks[t]) && s.tasks[t].job == JobOf(s, w) ==> t == s.workers[w].t
  {
    PublisherIsRoot(s, w);
    forall t | t in s.tasks && Started(s.tasks[t]) && s.tasks[t].job == JobOf(s, w) ensures t == s.workers[w].t {
      OnlyTheRoot(s, s.workers[w].t, t);
    }
    forall t, x ensures !AnswersFor(s, t, JobOf(s, w), x) {}
    AllCalled(s, JobOf(s, w));
  }

  /** Nothing changes a job after it is DONE. */
  lemma DoneIsFinal(s: State, e: Event, j: JobId)
    requires Inv(s) && Enabled(s, e) && j in s.jobs && s.jobs[j].done
    ensures j in Apply(s, e).jobs && Apply(s, e).jobs[j] == s.jobs[j]
  {
    match e
    case Loop(w, l) => LoopKeepsJobs(s, w, l);
    case Stack(w, f) => StackAfterDone(s, w, f, j);
    case Submit(m) => SubmitKeepsJobs(s, m, j);
  }

  lemma LoopKeepsJobs(s: State, w: WorkerId, l: LoopEvent)
    requires LoopEnabled(s, w, l)
    ensures LoopApply(s, w, l).jobs == s.jobs
  {
  }

  lemma SubmitKeepsJobs(s: State, m: SubmitEvent, j: JobId)
    requires SubmitEnabled(s, m) && j in s.jobs
    ensures j in SubmitApply(s, m).jobs && SubmitApply(s, m).jobs[j] == s.jobs[j]
  {
  }

  lemma StackAfterDone(s: State, w: WorkerId, f: StackEvent, j: JobId)
    requires Inv(s) && StackEnabled(s, w, f) && j in s.jobs && s.jobs[j].done
    ensures j in StackApply(s, w, f).jobs && StackApply(s, w, f).jobs[j] == s.jobs[j]
  {
    if AtPublish(s, w) {
      PublishedOnce(s, w);
    } else if JobOf(s, w) == j {
      DagJobs.NotARoot(s, w);
      DoneIsOver(s, j, s.workers[w].t);
      assert false;
    }
  }

  // ---------------------------------------------------------------- no stuck jobs

  /** No queued task, no worker between two steps, no submission under way. */
  ghost predicate Quiet(s: State) {
    && (forall w :: w in s.workers ==> s.workers[w].Idle?)
    && (forall t :: t in s.tasks ==> !s.tasks[t].place.Queued?)
    && s.sub.NoSubmit?
  }

  /** A parked task waits for a live child, which in a quiet state would be parked as well: the
      birth order would have no end. */
  lemma {:induction false} NothingParked(s: State, t: TaskId)
    requires Inv(s) && Quiet(s) && t in s.tasks
    ensures !Started(s.tasks[t])
    decreases if t in s.tasks then s.clock - s.tasks[t].serial else 0
  {
    if Started(s.tasks[t]) {
      assert PlaceOk(s, t) && CountOk(s, t) && TreeOk(s, t);
      assert Reps(s.workers, t) == {};
      var c :| c in Kids(s.tasks, t);
      assert TreeOk(s, c);
      NothingParked(s, c);
    }
  }

  lemma QuietMeansDone(s: State)
    requires Inv(s) && Quiet(s)
    ensures forall t :: t in s.tasks ==> s.tasks[t].place.Free?
    ensures forall j :: j in s.jobs ==> s.jobs[j].done
  {
    forall t | t in s.tasks ensures s.tasks[t].place.Free? {
      NothingParked(s, t);
      assert PlaceOk(s, t);
    }
    forall j | j in s.jobs ensures s.jobs[j].done { assert JobOk(s, j); }
  }

  /** In a quiet state every node is back in the pool and every accepted job is DONE. */
  lemma NoStuckJobs(s0: State, es: seq<Event>)
    requires Init(s0) && IsRun(s0, es) && Quiet(Final(s0, es))
    ensures forall t :: t in Final(s0, es).tasks ==> Final(s0, es).tasks[t].place.Free?
    ensures forall j :: j in Final(s0, es).jobs ==> Final(s0, es).jobs[j].done
  {
    InvInit(s0);
    InvRun(s0, es);
    QuietMeansDone(Final(s0, es));
  }

  // ---------------------------------------------------------------- no worker is ever blocked

  /** What a client function asks for: a continuation, a spawn, one more child of a spawn. */
  predicate Asks(f: StackEvent) {
    f.SetContinuation? || f.SpawnBegin? || f.SpawnNew?
  }

  /** Neither that nor a spawn's call in place. */
  predicate Plain(f: StackEvent) {
    !Asks(f) && !f.SpawnDirect?
  }

  /** Inside a function, a step that needs nothing from the pool, and a push of whatever the deque
      takes. */
  lemma StackCanMove(s: State, w: WorkerId, takes: set<TaskId>) returns (f: StackEvent)
    requires Inv(s) && IsRunning(s, w)
    ensures StackEnabled(s, w, f) && Plain(f) && (Top(s, w).Offer? ==> f == PushBatch(takes * TopBatch(s, w)))
  {
    assert WorkerOk(s, w);
    if Top(s, w).User? { f := Return; }
    else if Top(s, w).Split? { f := if WantsSplit(s, w) then SplitInline else SplitCall; }
    else if Top(s, w).Publish? { f := PublishDone; }
    else { f := CallCanMove(s, w, takes); }
  }

  lemma CallCanMove(s: State, w: WorkerId, takes: set<TaskId>) returns (f: StackEvent)
    requires Refs(s) && Solo(s) && IsRunning(s, w) && !Top(s, w).User? && !Top(s, w).Split? && !Top(s, w).Publish?
    ensures StackEnabled(s, w, f) && Plain(f) && (Top(s, w).Offer? ==> f == PushBatch(takes * TopBatch(s, w)))
  {
    assert WorkerOk(s, w);
    assert Over(s, w) && CallOk(Below(s, w), Top(s, w));
    match Top(s, w)
    case New => f := BatchCanMove(s, w);
    case Inline => f := BatchCanMove(s, w);
    case Offer => f := PushBatch(takes * TopBatch(s, w));
    case Reject => f := Rollback;
    case Recycle(c) =>
      assert RecycleOk(s, w, TopIndex(s, w));
      f := FreeRejected;
  }

  lemma BatchCanMove(s: State, w: WorkerId) returns (f: StackEvent)
    requires Solo(s) && Over(s, w) && (Below(s, w).User? || Below(s, w).Split?) && (Top(s, w).New? || Top(s, w).Inline?)
    ensures StackEnabled(s, w, f) && Plain(f)
  {
    var b := TopBatch(s, w);
    if Below(s, w).Split? {
      assert HoldsRight(s, w, TopIndex(s, w));
      var r :| r in b;
      assert |b - {r}| == 0;
      assert b == {r};
      f := if Top(s, w).New? then CountBatch else SplitFree(r);
    } else if b == {} {
      f := SpawnEnd;
    } else {
      var r :| r in b;
      f := if Top(s, w).New? then CountBatch else RunRejected(r);
    }
  }

  /** The worker is about to push a batch. */
  predicate Offering(s: State, w: WorkerId) {
    IsRunning(s, w) && Top(s, w).Offer?
  }

  /** In every reachable state a busy worker can take a step of its own that no client function has to
      ask for, whatever the others do, and whichever tasks of a batch the deque takes. */
  lemma BusyCanMove(s: State, w: WorkerId, takes: set<TaskId>) returns (e: Event)
    requires Inv(s) && w in s.workers && !s.workers[w].Idle?
    ensures Enabled(s, e) && !e.Submit? && e.w == w && (e.Stack? ==> Plain(e.f))
    ensures Offering(s, w) ==> e == Stack(w, PushBatch(takes * TopBatch(s, w)))
  {
    assert WorkerOk(s, w);
    match s.workers[w]
    case Running(_, _, _) =>
      var f := StackCanMove(s, w, takes);
      e := Stack(w, f);
    case Dropping(_, _) => e := Loop(w, Drop);
    case Owner(t, ctx) => e := Loop(w, if s.tasks[t].fn.Null? then Retire else if ctx.Main? then RunOwn else Arm);
    case Armed(_) => e := Loop(w, RunArmed);
    case Reporting(_) => e := Loop(w, Report);
  }

  /** Jobs cannot hang: once no worker can take any step, all nodes are free and all jobs DONE. */
  lemma DeadlockMeansDone(s0: State, es: seq<Event>)
    requires Init(s0) && IsRun(s0, es) && s0.workers != map[] && Final(s0, es).sub.NoSubmit?
    requires forall e :: Enabled(Final(s0, es), e) ==> e.Submit?
    ensures forall t :: t in Final(s0, es).tasks ==> Final(s0, es).tasks[t].place.Free?
    ensures forall j :: j in Final(s0, es).jobs ==> Final(s0, es).jobs[j].done
  {
    InvInit(s0);
    InvRun(s0, es);
    SameWorkers(s0, es);
    DeadlockIsQuiet(Final(s0, es));
    NoStuckJobs(s0, es);
  }

  lemma DeadlockIsQuiet(s: State)
    requires Inv(s) && s.workers.Keys != {} && s.sub.NoSubmit? && forall e :: Enabled(s, e) ==> e.Submit?
    ensures Quiet(s)
  {
    forall w | w in s.workers ensures s.workers[w].Idle? {
      if !s.workers[w].Idle? { var e := BusyCanMove(s, w, {}); }
    }
    forall t | t in s.tasks ensures !s.tasks[t].place.Queued? {
      if s.tasks[t].place.Queued? {
        var w :| w in s.workers.Keys;
        assert Enabled(s, Loop(w, Take(t)));
      }
    }
  }

  lemma {:induction false} SameWorkers(s: State, es: seq<Event>)
    requires Inv(s) && IsRun(s, es)
    ensures Final(s, es).workers.Keys == s.workers.Keys && Final(s, es).tasks.Keys == s.tasks.Keys
    decreases |es|
  {
    if es != [] {
      InvStep(s, es[0]);
      SameDomains(s, es[0]);
      SameWorkers(Apply(s, es[0]), es[1..]);
    }
  }

  // ---------------------------------------------------------------- stages run once, in order

  /** The event enters the function of task t. */
  predicate Enters(s: State, e: Event, t: TaskId)
    requires Enabled(s, e)
  {
    e.Loop? && match e.l
               case Take(u) => u == t
               case RunOwn => s.workers[e.w].t == t
               case RunArmed => s.workers[e.w].t == t
               case _ => false
  }

  /** When a function of t starts, be it its first or a continuation, and be it taken from a queue
      or run by the worker that brought the counter to 0: every task below t is finished and
      released, and no worker is inside an earlier function of t. */
  lemma StartsAlone(s: State, e: Event, t: TaskId)
    requires Inv(s) && Enabled(s, e) && Enters(s, e, t)
    ensures Childless(s, t)
    ensures forall w :: w in s.workers ==> !(s.workers[w].Running? && s.workers[w].t == t) && s.workers[w] != Reporting(t)
  {
    assert WorkerOk(s, e.w);
    if e.l.RunArmed? { assert RunOk(s, e.w); }
    assert PlaceOk(s, t) && CountOk(s, t);
    NothingCounted(s, t);
    forall w | w in s.workers ensures !(s.workers[w].Running? && s.workers[w].t == t) && s.workers[w] != Reporting(t) {
      assert WorkerOk(s, w);
    }
    NothingBelow(s, t);
  }

  /** How far a stage has come. */
  function Rank(st: StageState): nat {
    match st
    case Waiting(_) => 0
    case Executing(_, _) => 1
    case Ended => 2
    case Overwritten => 2
  }

  /** A stage that waits is registered in its task, and a stage only moves on: it starts at most
      once, it ends only after it started, and only a new continuation of the same task, set while
      the stage was still waiting, replaces it. */
  lemma StageMovesOn(s: State, e: Event, id: StageId)
    requires Inv(s) && Enabled(s, e) && id < |s.stages|
    ensures id < |Apply(s, e).stages|
    ensures var a, b := s.stages[id], Apply(s, e).stages[id];
            b == a || (a.Waiting? && b.Executing?) || (a.Executing? && b.Ended?) ||
            (a.Waiting? && b.Overwritten? && e.Stack? && e.f.SetContinuation? && Holds(s.workers[e.w]) == Some(a.t))
  {
    match e
    case Loop(w, l) => LoopMovesOn(s, w, l, id);
    case Stack(w, f) => StackMovesOn(s, w, f, id);
    case Submit(m) =>
  }

  lemma LoopMovesOn(s: State, w: WorkerId, l: LoopEvent, id: StageId)
    requires Refs(s) && Stages(s) && LoopEnabled(s, w, l) && id < |s.stages|
    ensures |LoopApply(s, w, l).stages| == |s.stages|
    ensures var a, b := s.stages[id], LoopApply(s, w, l).stages[id]; b == a || (a.Waiting? && b.Executing?)
  {
    assert WorkerOk(s, w);
    var t := if l.Take? then l.t else if s.workers[w].Idle? || s.workers[w].Reporting? then 0 else s.workers[w].t;
    if t in s.tasks && Started(s.tasks[t]) && s.tasks[t].fn.Code? { assert Registered(s, t, s.tasks[t].fn.id); }
  }

  lemma StackMovesOn(s: State, w: WorkerId, f: StackEvent, id: StageId)
    requires Refs(s) && Stages(s) && StackEnabled(s, w, f) && id < |s.stages|
    ensures id < |StackApply(s, w, f).stages|
    ensures var a, b := s.stages[id], StackApply(s, w, f).stages[id];
            b == a || (a.Waiting? && b.Executing?) || (a.Executing? && b.Ended?) ||
            (a.Waiting? && b.Overwritten? && f.SetContinuation? && s.workers[w].t == a.t)
  {
    assert WorkerOk(s, w);
    var t := s.workers[w].t;
    if f.SetContinuation? && s.tasks[t].fn.Code? { assert Registered(s, t, s.tasks[t].fn.id); }
    if f.Return? { assert OnStack(s, w, TopIndex(s, w), Top(s, w).id); }
    if f.RunRejected? { ListedAtTop(s, w, f.r); assert Registered(s, f.r, s.tasks[f.r].fn.id); }
  }

  /** In a quiet state every function ever registered has run to its end, unless the task itself
      replaced it by another before it could start. */
  lemma EveryStageRan(s0: State, es: seq<Event>, id: StageId)
    requires Init(s0) && IsRun(s0, es) && Quiet(Final(s0, es)) && id < |Final(s0, es).stages|
    ensures Final(s0, es).stages[id].Ended? || Final(s0, es).stages[id].Overwritten?
  {
    InvInit(s0);
    InvRun(s0, es);
    NoStuckJobs(s0, es);
    assert StageOk(Final(s0, es), id);
  }
}
