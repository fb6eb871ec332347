/**
 The scheduler gets its work done. Every event that no client asks for lowers a potential; what a
 client asks for raises it by a known amount. So the steps of the scheduler are bounded by what was
 asked of it, whatever the schedule and whatever acquires and pushes fail, and when none of its steps
 is left every job is DONE.
 */
module DagProgress {
  import opened Basics
  import opened Splitting
  import opened Sums
  import opened TaskDag
  import opened DagInvariant
  import opened DagRefs
  import DagCounts
  import opened DagTheorems
  import opened DagOutcome
  import opened DagSingleChunk
  import opened DagOthers

  // ---------------------------------------------------------------- the potential

  /** What is still to be done for the indices of a range that nobody has been called for. */
  function RangeCost(r: Range): nat {
    if r.lo < r.hi then 32 * (r.hi - r.lo) - 16 else 0
  }

  function PlaceCost(p: Place): nat {
    match p
    case Free => 0
    case Submitting => 0
    case Fresh(_, _) => 3
    case Offered(_, _) => 3
    case Recycled(_, _) => 2
    case Queued => 1
    case Active(_) => 1
    case Owned(_) => 2
    case Parked => 3
  }

  function TaskCost(task: Task): nat {
    if !Started(task) then 0
    else PlaceCost(task.place) + (if task.fn.Null? then 0 else 7) + RangeCost(task.pend)
  }

  function FrameCost(f: Frame): nat {
    match f
    case User(_) => 1
    case Split(_, _) => 2
    case Publish => 1
    case New => 5
    case Offer => 4
    case Reject => 3
    case Inline => 2
    case Recycle(_) => 1
  }

  function StackCost(f: seq<Frame>): nat {
    if f == [] then 0 else StackCost(f[..|f| - 1]) + FrameCost(f[|f| - 1])
  }

  function WorkerCost(wk: Worker): nat {
    match wk
    case Idle => 0
    case Running(_, _, f) => 4 + StackCost(f)
    case Dropping(_, _) => 3
    case Owner(_, _) => 1
    case Armed(_) => 1
    case Reporting(_) => 1
  }

  function SubmitCost(sub: Submitter): nat {
    match sub
    case NoSubmit => 0
    case HasRoot(_, n, _) => 20 + RangeCost(Range(0, n))
    case HasBoth(_, _, n, _) => 19 + RangeCost(Range(0, n))
    case Refused(_) => 1
  }

  function TaskCosts(s: State): map<nat, nat> {
    map t | t in s.tasks :: TaskCost(s.tasks[t])
  }

  function WorkerCosts(s: State): map<nat, nat> {
    map w | w in s.workers :: WorkerCost(s.workers[w])
  }

  ghost function Potential(s: State): nat {
    Sum(TaskCosts(s)) + Sum(WorkerCosts(s)) + SubmitCost(s.sub)
  }

  // ---------------------------------------------------------------- what an event changes

  /** Only worker w moved; tasks cost what they did. */
  lemma OnlyWorker(s: State, s': State, w: WorkerId)
    requires w in s.workers && s'.workers.Keys == s.workers.Keys && s'.sub == s.sub && TaskCosts(s') == TaskCosts(s)
    requires forall v :: v in s.workers && v != w ==> s'.workers[v] == s.workers[v]
    ensures Potential(s') + WorkerCost(s.workers[w]) == Potential(s) + WorkerCost(s'.workers[w])
  {
    SumChanged(WorkerCosts(s), WorkerCosts(s'), w);
  }

  /** Worker w moved and task t changed. */
  lemma OneTask(s: State, s': State, w: WorkerId, t: TaskId)
    requires w in s.workers && s'.workers.Keys == s.workers.Keys && s'.sub == s.sub
    requires forall v :: v in s.workers && v != w ==> s'.workers[v] == s.workers[v]
    requires t in s.tasks && s'.tasks.Keys == s.tasks.Keys && forall u :: u in s.tasks && u != t ==> s'.tasks[u] == s.tasks[u]
    ensures Potential(s') + WorkerCost(s.workers[w]) + TaskCost(s.tasks[t])
         == Potential(s) + WorkerCost(s'.workers[w]) + TaskCost(s'.tasks[t])
  {
    SumChanged(WorkerCosts(s), WorkerCosts(s'), w);
    SumChanged(TaskCosts(s), TaskCosts(s'), t);
  }

  /** Worker w moved and tasks t and r changed. */
  lemma TwoTasks(s: State, s': State, w: WorkerId, t: TaskId, r: TaskId)
    requires w in s.workers && s'.workers.Keys == s.workers.Keys && s'.sub == s.sub
    requires forall v :: v in s.workers && v != w ==> s'.workers[v] == s.workers[v]
    requires t in s.tasks && r in s.tasks && t != r && s'.tasks.Keys == s.tasks.Keys
    requires forall u :: u in s.tasks && u != t && u != r ==> s'.tasks[u] == s.tasks[u]
    ensures Potential(s') + WorkerCost(s.workers[w]) + TaskCost(s.tasks[t]) + TaskCost(s.tasks[r])
         == Potential(s) + WorkerCost(s'.workers[w]) + TaskCost(s'.tasks[t]) + TaskCost(s'.tasks[r])
  {
    SumChanged(WorkerCosts(s), WorkerCosts(s'), w);
    SumChangedTwice(TaskCosts(s), TaskCosts(s'), t, r);
  }

  lemma {:induction false} StackJoins(a: seq<Frame>, b: seq<Frame>)
    ensures StackCost(a + b) == StackCost(a) + StackCost(b)
    decreases |b|
  {
    if b == [] {
      assert a + b == a;
    } else {
      assert (a + b)[..|a + b| - 1] == a + b[..|b| - 1];
      StackJoins(a, b[..|b| - 1]);
    }
  }

  lemma ShortStack(fs: seq<Frame>)
    requires |fs| <= 2
    ensures StackCost(fs) == (if |fs| > 0 then FrameCost(fs[0]) else 0) + (if |fs| > 1 then FrameCost(fs[1]) else 0)
  {
    if |fs| == 2 { assert fs[..1] == [fs[0]] && [fs[0]][..0] == []; }
    if |fs| == 1 { assert fs[..0] == []; }
  }

  /** The cost of a worker whose top frame is replaced. */
  lemma TopReplaced(s: State, w: WorkerId, fs: seq<Frame>)
    requires IsRunning(s, w) && |fs| <= 2
    ensures WorkerCost(WithTop(s, w, fs)) + FrameCost(Top(s, w)) == WorkerCost(s.workers[w])
              + (if |fs| > 0 then FrameCost(fs[0]) else 0) + (if |fs| > 1 then FrameCost(fs[1]) else 0)
  {
    var f := s.workers[w].frames;
    StackJoins(f[..|f| - 1], fs);
    ShortStack(fs);
  }

  lemma PopFalls(s: State, w: WorkerId)
    requires IsRunning(s, w)
    ensures WorkerCost(Popped(s, w)) < WorkerCost(s.workers[w])
  {
    if |s.workers[w].frames| > 1 { TopReplaced(s, w, []); }
  }

  // ---------------------------------------------------------------- the worker loop

  /** The task that the event is about. */
  function Subject(s: State, w: WorkerId, l: LoopEvent): TaskId
    requires LoopEnabled(s, w, l)
  {
    match l
    case Take(t) => t
    case Report => s.workers[w].p
    case _ => s.workers[w].t
  }

  lemma StartFalls(s: State, w: WorkerId, t: TaskId, ctx: Ctx)
    requires w in s.workers && t in s.tasks && Started(s.tasks[t]) && !s.tasks[t].fn.Null?
    requires PlaceCost(s.tasks[t].place) + WorkerCost(s.workers[w]) > 0
    ensures Potential(StartStage(s, w, t, ctx)) < Potential(s)
  {
    var s' := StartStage(s, w, t, ctx);
    OneTask(s, s', w, t);
    ShortStack(s'.workers[w].frames);
  }

  lemma DropFalls(s: State, w: WorkerId)
    requires Refs(s) && CanDrop(s, w)
    ensures Potential(DoDrop(s, w)) < Potential(s)
  {
    assert WorkerOk(s, w);
    OneTask(s, DoDrop(s, w), w, s.workers[w].t);
  }

  lemma ArmFalls(s: State, w: WorkerId)
    requires Refs(s) && CanArm(s, w)
    ensures Potential(DoArm(s, w)) < Potential(s)
  {
    assert WorkerOk(s, w);
    OneTask(s, DoArm(s, w), w, s.workers[w].t);
  }

  lemma RequeueFalls(s: State, w: WorkerId)
    requires Refs(s) && CanRequeue(s, w)
    ensures Potential(DoRequeue(s, w)) < Potential(s)
  {
    assert WorkerOk(s, w);
    OneTask(s, DoRequeue(s, w), w, s.workers[w].t);
  }

  lemma RetireFalls(s: State, w: WorkerId)
    requires Refs(s) && CanRetire(s, w)
    ensures Potential(DoRetire(s, w)) < Potential(s)
  {
    assert WorkerOk(s, w);
    OneTask(s, DoRetire(s, w), w, s.workers[w].t);
  }

  lemma ReportFalls(s: State, w: WorkerId)
    requires Refs(s) && Counts(s) && CanReport(s, w)
    ensures Potential(DoReport(s, w)) < Potential(s)
  {
    var p := s.workers[w].p;
    assert WorkerOk(s, w);
    if s.tasks[p].deps == 1 { LastReporter(s, w, p); }
    OneTask(s, DoReport(s, w), w, p);
  }

  lemma LoopFalls(s: State, w: WorkerId, l: LoopEvent)
    requires Refs(s) && Counts(s) && LoopEnabled(s, w, l)
    ensures Potential(LoopApply(s, w, l)) < Potential(s)
  {
    match l
    case Take(t) =>
      assert PlaceOk(s, t);
      StartFalls(s, w, t, Main);
    case Drop => DropFalls(s, w);
    case RunOwn =>
      assert WorkerOk(s, w);
      StartFalls(s, w, s.workers[w].t, Main);
    case Arm => ArmFalls(s, w);
    case Requeue => RequeueFalls(s, w);
    case RunArmed =>
      assert WorkerOk(s, w);
      StartFalls(s, w, s.workers[w].t, Cascade);
    case Retire => RetireFalls(s, w);
    case Report => ReportFalls(s, w);
  }

  // ---------------------------------------------------------------- functions and the splitter

  lemma ReturnFalls(s: State, w: WorkerId)
    requires AtUser(s, w)
    ensures Potential(DoReturn(s, w)) < Potential(s)
  {
    PopFalls(s, w);
    assert TaskCosts(DoReturn(s, w)) == TaskCosts(s);
    OnlyWorker(s, DoReturn(s, w), w);
  }

  lemma PublishFalls(s: State, w: WorkerId)
    requires AtPublish(s, w)
    ensures Potential(DoPublish(s, w)) < Potential(s)
  {
    PopFalls(s, w);
    assert TaskCosts(DoPublish(s, w)) == TaskCosts(s);
    OnlyWorker(s, DoPublish(s, w), w);
  }

  lemma SplitsPend(s: State, w: WorkerId)
    requires Refs(s) && Pends(s) && AtSplit(s, w)
    ensures s.tasks[s.workers[w].t].place == Active(w) && s.tasks[s.workers[w].t].pend == Range(Top(s, w).lo, Top(s, w).hi)
  {
    SplitAtBottom(s, w, TopIndex(s, w));
    assert WorkerOk(s, w) && SplitterOk(s, w);
  }

  lemma SplitCallFalls(s: State, w: WorkerId)
    requires Refs(s) && CanSplitCall(s, w)
    ensures Potential(DoSplitCall(s, w)) < Potential(s)
  {
    assert WorkerOk(s, w);
    TopReplaced(s, w, [User(|s.stages|)]);
    OneTask(s, DoSplitCall(s, w), w, s.workers[w].t);
  }

  /** A cut leaves less to do on its two sides together, by the cost of making it. */
  lemma CutCost(lo: nat, mid: nat, hi: nat)
    requires lo < mid < hi
    ensures RangeCost(Range(lo, mid)) + RangeCost(Range(mid, hi)) + 16 == RangeCost(Range(lo, hi))
  {
  }

  lemma SplitInlineFalls(s: State, w: WorkerId)
    requires Refs(s) && Pends(s) && WantsSplit(s, w)
    ensures Potential(DoSplitInline(s, w)) < Potential(s)
  {
    var f, mid := Top(s, w), SplitPoint(s, w);
    SplitsPend(s, w);
    MidPointInside(f.lo, f.hi, ChunkOf(s, w));
    CutCost(f.lo, mid, f.hi);
    TopReplaced(s, w, [Split(f.lo, mid), User(|s.stages|)]);
    OneTask(s, DoSplitInline(s, w), w, s.workers[w].t);
  }

  lemma SplitNewFalls(s: State, w: WorkerId, r: TaskId)
    requires Refs(s) && Pends(s) && CanSplitNew(s, w, r)
    ensures Potential(DoSplitNew(s, w, r)) < Potential(s)
  {
    SplitsPend(s, w);
    SplitNewPotential(s, w, r);
  }

  lemma SplitNewPotential(s: State, w: WorkerId, r: TaskId)
    requires CanSplitNew(s, w, r) && s.tasks[s.workers[w].t].place == Active(w)
    requires s.tasks[s.workers[w].t].pend == Range(Top(s, w).lo, Top(s, w).hi)
    ensures Potential(DoSplitNew(s, w, r)) < Potential(s)
  {
    SplitNewCosts(s, w, r);
    TopReplaced(s, w, [Split(Top(s, w).lo, SplitPoint(s, w)), New]);
    TwoTasks(s, DoSplitNew(s, w, r), w, s.workers[w].t, r);
  }

  lemma SplitNewCosts(s: State, w: WorkerId, r: TaskId)
    requires CanSplitNew(s, w, r) && s.tasks[s.workers[w].t].place == Active(w)
    requires s.tasks[s.workers[w].t].pend == Range(Top(s, w).lo, Top(s, w).hi)
    ensures var s', t := DoSplitNew(s, w, r), s.workers[w].t;
            TaskCost(s'.tasks[t]) + TaskCost(s'.tasks[r]) + 6 == TaskCost(s.tasks[t]) + TaskCost(s.tasks[r])
  {
    var f := Top(s, w);
    MidPointInside(f.lo, f.hi, ChunkOf(s, w));
    CutCost(f.lo, SplitPoint(s, w), f.hi);
  }

  lemma SplitFreeFalls(s: State, w: WorkerId, r: TaskId)
    requires CanSplitFree(s, w, r)
    ensures Potential(DoSplitFree(s, w, r)) < Potential(s)
  {
    TopReplaced(s, w, [User(|s.stages|)]);
    OneTask(s, DoSplitFree(s, w, r), w, r);
  }

  // ---------------------------------------------------------------- spawning

  lemma SpawnEndFalls(s: State, w: WorkerId)
    requires AtSpawnEnd(s, w)
    ensures Potential(DoSpawnEnd(s, w)) < Potential(s) && Potential(DoSpawnDirect(s, w)) < Potential(s)
  {
    TopReplaced(s, w, []);
    TopReplaced(s, w, [User(|s.stages|)]);
    assert TaskCosts(DoSpawnEnd(s, w)) == TaskCosts(s) && TaskCosts(DoSpawnDirect(s, w)) == TaskCosts(s);
    OnlyWorker(s, DoSpawnEnd(s, w), w);
    OnlyWorker(s, DoSpawnDirect(s, w), w);
  }

  lemma SameCosts(s: State, s': State)
    requires s'.tasks.Keys == s.tasks.Keys && forall t :: t in s.tasks ==> TaskCost(s'.tasks[t]) == TaskCost(s.tasks[t])
    ensures TaskCosts(s') == TaskCosts(s)
  {
  }

  lemma CountKeepsCost(s: State, w: WorkerId, t: TaskId)
    requires CanCount(s, w) && t in s.tasks
    ensures t in DoCount(s, w).tasks && TaskCost(DoCount(s, w).tasks[t]) == TaskCost(s.tasks[t])
  {
  }

  lemma RollbackKeepsCost(s: State, w: WorkerId, t: TaskId)
    requires CanRollback(s, w) && t in s.tasks
    ensures t in DoRollback(s, w).tasks && TaskCost(DoRollback(s, w).tasks[t]) == TaskCost(s.tasks[t])
  {
  }

  /** A task that enters a queue costs less than in the batch. */
  lemma PushLowersCost(s: State, w: WorkerId, acc: set<TaskId>, t: TaskId)
    requires CanPush(s, w, acc) && t in s.tasks
    ensures t in DoPush(s, w, acc).tasks
    ensures TaskCost(DoPush(s, w, acc).tasks[t]) + (if t in acc then 2 else 0) == TaskCost(s.tasks[t])
  {
  }

  lemma CountFalls(s: State, w: WorkerId)
    requires CanCount(s, w)
    ensures Potential(DoCount(s, w)) < Potential(s)
  {
    TopReplaced(s, w, [Offer]);
    forall t | t in s.tasks ensures TaskCost(DoCount(s, w).tasks[t]) == TaskCost(s.tasks[t]) { CountKeepsCost(s, w, t); }
    SameCosts(s, DoCount(s, w));
    OnlyWorker(s, DoCount(s, w), w);
  }

  lemma RollbackFalls(s: State, w: WorkerId)
    requires CanRollback(s, w)
    ensures Potential(DoRollback(s, w)) < Potential(s)
  {
    TopReplaced(s, w, [Inline]);
    forall t | t in s.tasks ensures TaskCost(DoRollback(s, w).tasks[t]) == TaskCost(s.tasks[t]) { RollbackKeepsCost(s, w, t); }
    SameCosts(s, DoRollback(s, w));
    OnlyWorker(s, DoRollback(s, w), w);
  }

  lemma PushFalls(s: State, w: WorkerId, acc: set<TaskId>)
    requires CanPush(s, w, acc) && TopBatch(s, w) != {}
    ensures Potential(DoPush(s, w, acc)) < Potential(s)
  {
    PushedTasks(s, w, acc);
    PushedWorker(s, w, acc);
  }

  lemma PushedTasks(s: State, w: WorkerId, acc: set<TaskId>)
    requires CanPush(s, w, acc)
    ensures Sum(TaskCosts(DoPush(s, w, acc))) + (if acc == {} then 0 else 2) <= Sum(TaskCosts(s))
  {
    forall t | t in s.tasks ensures TaskCost(DoPush(s, w, acc).tasks[t]) + (if t in acc then 2 else 0) == TaskCost(s.tasks[t]) {
      PushLowersCost(s, w, acc, t);
    }
    TasksPushed(s, DoPush(s, w, acc), acc);
  }

  lemma PushedWorker(s: State, w: WorkerId, acc: set<TaskId>)
    requires CanPush(s, w, acc)
    ensures Sum(WorkerCosts(DoPush(s, w, acc))) <= Sum(WorkerCosts(s)) + (if acc == TopBatch(s, w) then 1 else -1)
  {
    TopReplaced(s, w, if acc != TopBatch(s, w) then [Reject] else if Below(s, w).Split? then [] else [New]);
    SumChanged(WorkerCosts(s), WorkerCosts(DoPush(s, w, acc)), w);
  }

  lemma TasksPushed(s: State, s': State, acc: set<TaskId>)
    requires s'.tasks.Keys == s.tasks.Keys && acc <= s.tasks.Keys
    requires forall t :: t in s.tasks ==> TaskCost(s'.tasks[t]) + (if t in acc then 2 else 0) == TaskCost(s.tasks[t])
    ensures Sum(TaskCosts(s')) + (if acc == {} then 0 else 2) <= Sum(TaskCosts(s))
  {
    if acc == {} {
      SumLower(TaskCosts(s), TaskCosts(s'));
    } else {
      var t :| t in acc;
      SumFalls(TaskCosts(s), TaskCosts(s'), t);
    }
  }

  lemma RunRejectedFalls(s: State, w: WorkerId, r: TaskId)
    requires CanRunRejected(s, w, r)
    ensures Potential(DoRunRejected(s, w, r)) < Potential(s)
  {
    var id := if s.tasks[r].fn.Code? then s.tasks[r].fn.id else 0;
    TopReplaced(s, w, [Recycle(r), User(id)]);
    RejectedCost(s, w, r);
    OneTask(s, DoRunRejected(s, w, r), w, r);
  }

  lemma RejectedCost(s: State, w: WorkerId, r: TaskId)
    requires CanRunRejected(s, w, r)
    ensures TaskCost(DoRunRejected(s, w, r).tasks[r]) < TaskCost(s.tasks[r])
  {
  }

  lemma FreeRejectedFalls(s: State, w: WorkerId)
    requires Refs(s) && CanFreeRejected(s, w)
    ensures Potential(DoFreeRejected(s, w)) < Potential(s)
  {
    assert RecycleOk(s, w, TopIndex(s, w));
    TopReplaced(s, w, [Inline]);
    OneTask(s, DoFreeRejected(s, w), w, Top(s, w).c);
  }

  lemma StackFalls(s: State, w: WorkerId, f: StackEvent)
    requires Refs(s) && Pends(s) && StackEnabled(s, w, f) && !Asks(f) && (f.PushBatch? ==> TopBatch(s, w) != {})
    ensures Potential(StackApply(s, w, f)) < Potential(s)
  {
    match f
    case Return => ReturnFalls(s, w);
    case PublishDone => PublishFalls(s, w);
    case SplitCall => SplitCallFalls(s, w);
    case SplitInline => SplitInlineFalls(s, w);
    case SplitNew(r) => SplitNewFalls(s, w, r);
    case SplitFree(r) => SplitFreeFalls(s, w, r);
    case SpawnDirect => SpawnEndFalls(s, w);
    case SpawnEnd => SpawnEndFalls(s, w);
    case CountBatch => CountFalls(s, w);
    case PushBatch(acc) => PushFalls(s, w, acc);
    case Rollback => RollbackFalls(s, w);
    case RunRejected(r) => RunRejectedFalls(s, w, r);
    case FreeRejected => FreeRejectedFalls(s, w);
  }

  // ---------------------------------------------------------------- what clients ask for

  lemma ContinuationCost(s: State, w: WorkerId)
    requires AtUser(s, w)
    ensures Potential(DoSetContinuation(s, w)) <= Potential(s) + 7
  {
    OneTask(s, DoSetContinuation(s, w), w, s.workers[w].t);
  }

  lemma SpawnBeginCost(s: State, w: WorkerId)
    requires AtUser(s, w)
    ensures Potential(DoSpawnBegin(s, w)) <= Potential(s) + 5
  {
    TopReplaced(s, w, [Top(s, w), New]);
    assert TaskCosts(DoSpawnBegin(s, w)) == TaskCosts(s);
    OnlyWorker(s, DoSpawnBegin(s, w), w);
  }

  lemma SpawnNewCost(s: State, w: WorkerId, r: TaskId)
    requires CanSpawnNew(s, w, r)
    ensures Potential(DoSpawnNew(s, w, r)) <= Potential(s) + 10
  {
    OneTask(s, DoSpawnNew(s, w, r), w, r);
  }

  // ---------------------------------------------------------------- submission

  lemma SubmitFalls(s: State, m: SubmitEvent)
    requires SubOk(s) && SubmitOk(s) && SubmitEnabled(s, m) && !m.SubmitRoot?
    ensures Potential(SubmitApply(s, m)) < Potential(s)
  {
    if m.SubmitPush? {
      SubmitPushFalls(s, m.j);
    } else {
      assert forall t :: t in SubTasks(s.sub) ==> t in s.tasks && s.tasks[t].place.Submitting?;
      SameCosts(s, SubmitApply(s, m));
      assert WorkerCosts(SubmitApply(s, m)) == WorkerCosts(s);
    }
  }

  lemma SubmitPushFalls(s: State, j: JobId)
    requires SubOk(s) && SubmitOk(s) && CanSubmitPush(s, j)
    ensures Potential(DoSubmitPush(s, j)) < Potential(s)
  {
    var s', r, c := DoSubmitPush(s, j), s.sub.r, s.sub.c;
    assert forall t :: t in SubTasks(s.sub) ==> t in s.tasks && s.tasks[t].place.Submitting?;
    assert WorkerCosts(s') == WorkerCosts(s);
    assert TaskCost(s'.tasks[r]) == 10 && TaskCost(s'.tasks[c]) == 8 + RangeCost(Range(0, s.sub.n));
    SumChangedTwice(TaskCosts(s), TaskCosts(s'), r, c);
  }

  lemma SubmitRootCost(s: State, r: TaskId, n: nat, chunk: nat)
    requires CanSubmitRoot(s, r)
    ensures Potential(DoSubmitRoot(s, r, n, chunk)) <= Potential(s) + 20 + 32 * n
  {
    var s' := DoSubmitRoot(s, r, n, chunk);
    assert TaskCosts(s') == TaskCosts(s) && WorkerCosts(s') == WorkerCosts(s);
  }

  // ---------------------------------------------------------------- no empty batch is pushed

  /** A worker about to push has something to push. */
  ghost predicate Offers(s: State) {
    forall w :: w in s.workers && Offering(s, w) ==> TopBatch(s, w) != {}
  }

  /** Another thread leaves the batch alone. */
  lemma OffersKept(s: State, e: Event, w: WorkerId)
    requires Refs(s) && Enabled(s, e) && (e.Submit? || e.w != w) && Offering(Apply(s, e), w)
    ensures Offering(s, w) && TopBatch(s, w) <= TopBatch(Apply(s, e), w)
  {
    var s' := Apply(s, e);
    SameDomains(s, e);
    WorkerStays(s, e, w);
    assert WorkerOk(s, w);
    forall t | t in TopBatch(s, w) ensures t in TopBatch(s', w) { BatchStays(s, e, w, t); }
  }

  /** Only counting a batch, which is not empty, leads a worker there. */
  lemma OwnOffer(s: State, e: Event, w: WorkerId)
    requires Refs(s) && Enabled(s, e) && !e.Submit? && e.w == w && Offering(Apply(s, e), w)
    ensures e.Stack? && e.f.CountBatch? && TopBatch(Apply(s, e), w) != {}
  {
    assert WorkerOk(s, w);
    match e
    case Loop(_, l) => LoopNoOffer(s, w, l);
    case Stack(_, f) =>
      StackNoOffer(s, w, f);
      CountedBatch(s, w);
  }

  lemma LoopNoOffer(s: State, w: WorkerId, l: LoopEvent)
    requires LoopEnabled(s, w, l)
    ensures !Offering(LoopApply(s, w, l), w)
  {
  }

  lemma StackNoOffer(s: State, w: WorkerId, f: StackEvent)
    requires Refs(s) && StackEnabled(s, w, f) && Offering(StackApply(s, w, f), w)
    ensures f.CountBatch?
  {
    assert WorkerOk(s, w);
    if Over(s, w) {
      assert CallOk(Below(s, w), Top(s, w));
      var k := TopIndex(s, w);
      assert k >= 2 ==> CallOk(s.workers[w].frames[k - 2], s.workers[w].frames[k - 1]);
    }
  }

  lemma CountedBatch(s: State, w: WorkerId)
    requires CanCount(s, w)
    ensures IsRunning(DoCount(s, w), w) && TopBatch(DoCount(s, w), w) != {}
  {
    var t :| t in TopBatch(s, w);
    assert t in TopBatch(DoCount(s, w), w);
  }

  lemma StepOffers(s: State, e: Event)
    requires Refs(s) && Offers(s) && Enabled(s, e)
    ensures Offers(Apply(s, e))
  {
    var s' := Apply(s, e);
    forall w | w in s'.workers && Offering(s', w) ensures TopBatch(s', w) != {} {
      if !e.Submit? && e.w == w {
        OwnOffer(s, e, w);
      } else {
        SameDomains(s, e);
        OffersKept(s, e, w);
      }
    }
  }

  // ---------------------------------------------------------------- whole runs

  /** What the event adds to the work to be done: 0 for the scheduler's own events. */
  function Request(e: Event): nat {
    match e
    case Loop(_, _) => 0
    case Stack(_, f) => if Asks(f) then 10 else 0
    case Submit(m) => if m.SubmitRoot? then 20 + 32 * m.n else 0
  }

  lemma StepPotential(s: State, e: Event)
    requires Inv(s) && Offers(s) && Enabled(s, e)
    ensures if Request(e) == 0 then Potential(Apply(s, e)) < Potential(s) else Potential(Apply(s, e)) <= Potential(s) + Request(e)
  {
    match e
    case Loop(w, l) => LoopFalls(s, w, l);
    case Stack(w, f) => StackPotential(s, w, f);
    case Submit(m) => if m.SubmitRoot? { SubmitRootCost(s, m.r, m.n, m.chunk); } else { SubmitFalls(s, m); }
  }

  lemma StackPotential(s: State, w: WorkerId, f: StackEvent)
    requires Refs(s) && Pends(s) && Offers(s) && StackEnabled(s, w, f)
    ensures if Asks(f) then Potential(StackApply(s, w, f)) <= Potential(s) + 10 else Potential(StackApply(s, w, f)) < Potential(s)
  {
    match f
    case SetContinuation => ContinuationCost(s, w);
    case SpawnBegin => SpawnBeginCost(s, w);
    case SpawnNew(r) => SpawnNewCost(s, w, r);
    case _ => StackFalls(s, w, f);
  }

  function Requests(es: seq<Event>): nat {
    if es == [] then 0 else Request(es[0]) + Requests(es[1..])
  }

  /** The events of the run that no client asked for. */
  function OwnSteps(es: seq<Event>): nat {
    if es == [] then 0 else (if Request(es[0]) == 0 then 1 else 0) + OwnSteps(es[1..])
  }

  lemma {:induction false} RunPotential(s: State, es: seq<Event>)
    requires Inv(s) && Offers(s) && IsRun(s, es)
    ensures Inv(Final(s, es)) && Offers(Final(s, es))
    ensures Potential(Final(s, es)) + OwnSteps(es) <= Potential(s) + Requests(es)
    decreases |es|
  {
    if es != [] {
      StepPotential(s, es[0]);
      InvStep(s, es[0]);
      StepOffers(s, es[0]);
      RunPotential(Apply(s, es[0]), es[1..]);
    }
  }

  lemma {:induction false} AllOwn(es: seq<Event>)
    requires Requests(es) == 0
    ensures OwnSteps(es) == |es|
  {
    if es != [] { AllOwn(es[1..]); }
  }

  lemma InitPotential(s: State)
    requires Init(s)
    ensures Potential(s) == 0 && Offers(s)
  {
    SumOfZeros(TaskCosts(s));
    SumOfZeros(WorkerCosts(s));
  }

  /** The scheduler never works for nothing: from a fresh start, under every schedule, with any number
      of workers and whatever fails, it takes no more steps than 10 for every continuation, spawn and
      spawned child asked for and 20 + 32 n for every job of size n. */
  lemma BoundedWork(s0: State, es: seq<Event>)
    requires Init(s0) && IsRun(s0, es)
    ensures OwnSteps(es) <= Requests(es)
  {
    InvInit(s0);
    InitPotential(s0);
    RunPotential(s0, es);
  }

  /** Once clients ask for nothing more, every schedule comes to an end: none has more steps than the
      potential of the state it starts in. */
  lemma EveryScheduleEnds(s0: State, before: seq<Event>, es: seq<Event>)
    requires Init(s0) && IsRun(s0, before) && IsRun(Final(s0, before), es) && Requests(es) == 0
    ensures |es| <= Potential(Final(s0, before)) <= Requests(before)
  {
    InvInit(s0);
    InitPotential(s0);
    RunPotential(s0, before);
    RunPotential(Final(s0, before), es);
    AllOwn(es);
  }

  /** When a job has been accepted, what is before the scheduler is still bounded by what was asked. */
  lemma SubmittedPotential(s0: State, es: seq<Event>, j: JobId)
    requires Init(s0) && IsRun(s0, es) && CanSubmitPush(Final(s0, es), j)
    ensures Potential(DoSubmitPush(Final(s0, es), j)) <= Requests(es)
    ensures Offers(DoSubmitPush(Final(s0, es), j))
  {
    InvInit(s0);
    InitPotential(s0);
    RunPotential(s0, es);
    StepPotential(Final(s0, es), Submit(SubmitPush(j)));
    StepOffers(Final(s0, es), Submit(SubmitPush(j)));
  }

  // ---------------------------------------------------------------- and it finishes

  /** Where the scheduler has no step of its own left, everything is over. */
  lemma NoStepMeansQuiet(s: State)
    requires Inv(s) && s.workers.Keys != {} && forall e :: Enabled(s, e) ==> Request(e) > 0
    ensures Quiet(s)
  {
    if !Quiet(s) { var e := OwnStep(s); }
  }

  /** As long as anything is going on, some step of the scheduler's own is possible. */
  lemma OwnStep(s: State) returns (e: Event)
    requires Inv(s) && s.workers.Keys != {} && !Quiet(s)
    ensures Enabled(s, e) && Request(e) == 0 && (e.Stack? ==> Plain(e.f))
  {
    if w :| w in s.workers && !s.workers[w].Idle? {
      e := BusyCanMove(s, w, {});
    } else if t :| t in s.tasks && s.tasks[t].place.Queued? {
      var w :| w in s.workers.Keys;
      e := Loop(w, Take(t));
    } else {
      assert forall t :: t in SubTasks(s.sub) ==> t in s.tasks && s.tasks[t].place.Submitting?;
      e := if s.sub.Refused? then Submit(DropChild) else Submit(DropRoot);
    }
  }

  /** A run that is out of steps of the scheduler's own has released every node and finished every
      accepted job; and by EveryScheduleEnds every schedule gets there once clients ask for nothing more. */
  lemma OutOfStepsMeansDone(s0: State, es: seq<Event>)
    requires Init(s0) && IsRun(s0, es) && s0.workers.Keys != {}
    requires forall e :: Enabled(Final(s0, es), e) ==> Request(e) > 0
    ensures forall t :: t in Final(s0, es).tasks ==> Final(s0, es).tasks[t].place.Free?
    ensures forall j :: j in Final(s0, es).jobs ==> Final(s0, es).jobs[j].done
  {
    InvInit(s0);
    InvRun(s0, es);
    SameWorkers(s0, es);
    NoStepMeansQuiet(Final(s0, es));
    NoStuckJobs(s0, es);
  }

  /** From every reachable state, and with nothing more asked of it, the scheduler can finish: within as
      many steps as the potential says. */
  lemma {:induction false} CanFinish(s: State) returns (es: seq<Event>)
    requires Inv(s) && Offers(s) && s.workers.Keys != {}
    ensures IsRun(s, es) && Requests(es) == 0 && |es| <= Potential(s) && Quiet(Final(s, es))
    decreases Potential(s)
  {
    if Quiet(s) {
      es := [];
    } else {
      var e := OwnStep(s);
      StepPotential(s, e);
      InvStep(s, e);
      StepOffers(s, e);
      SameDomains(s, e);
      var rest := CanFinish(Apply(s, e));
      es := [e] + rest;
      assert es[0] == e && es[1..] == rest;
    }
  }
}
