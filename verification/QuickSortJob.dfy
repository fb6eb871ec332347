/**
 The concurrent quicksort as a job of the scheduler: the task completion protocol and the steps of
 the sorting functions run together, for any number of workers, alongside any other jobs, and with
 any pattern of exhausted pools and full deques.
 */
module QuickSortJob {
  import opened Basics
  import D = TaskDag
  import I = DagInvariant
  import T = DagTheorems
  import J = DagJobStages
  import S = DagSingleChunk
  import Q = QuickSort
  import opened Sorting

  /** stageOf links an activity of the sort to the scheduler's stage that runs it. */
  datatype State = State(dag: D.State, sort: Q.State, stageOf: map<Q.Id, D.StageId>)

  datatype Event =
    | Scheduler(e: D.Event)
    | Call(w: D.WorkerId)                                       // the splitter calls sk_quicksort_task
    | Work(w: D.WorkerId, q: Q.Event)                           // the function on top of w's stack takes a step
    | Spawn(w: D.WorkerId, f: D.StackEvent, q: Q.Event)         // it spawns: a child is filled in, or run in place

  /** The step makes a new call. */
  predicate Spawns(s: Q.State, q: Q.Event)
    requires Q.Enabled(s, q)
  {
    q.child in Q.Apply(s, q).acts
  }

  /** Activity a is about to spawn a part that is not empty. */
  predicate AtSpawn(s: Q.State, a: Q.Id) {
    a in s.acts && ((s.acts[a].pc.SpawnLeft? && s.acts[a].lo < s.acts[a].pc.p) ||
                    (s.acts[a].pc.SpawnRight? && s.acts[a].lo < s.acts[a].hi))
  }

  predicate SpawnPoint(b: State, f: D.Frame) {
    exists a :: a in b.stageOf && AtSpawn(b.sort, a) && f == D.User(b.stageOf[a])
  }

  /** A worker running a function of the job does only what sk_quicksort_task does: it sets no
      continuation, begins a spawn only where there is something to spawn and does not end it before that
      is done, makes calls and children only through Call and Spawn, and returns when it is through. */
  predicate ByTheSort(b: State, j: D.JobId, e: D.Event) {
    e.Stack? && D.IsRunning(b.dag, e.w) && D.JobOf(b.dag, e.w) == j &&
    match e.f
    case SplitCall => true
    case SpawnNew(_) => true
    case SpawnDirect => true
    case SetContinuation => true
    case Return => !Through(b, D.Top(b.dag, e.w))
    case SpawnBegin => !SpawnPoint(b, D.Top(b.dag, e.w))
    case SpawnEnd => D.Over(b.dag, e.w) && SpawnPoint(b, D.Below(b.dag, e.w))
    case _ => false
  }

  predicate Through(b: State, f: D.Frame) {
    forall a :: a in b.stageOf && a in b.sort.acts && f == D.User(b.stageOf[a]) ==> b.sort.acts[a].pc.Over?
  }

  predicate Enabled(b: State, j: D.JobId, e: Event) {
    match e
    case Scheduler(e) => D.Enabled(b.dag, e) && !ByTheSort(b, j, e)
    case Call(w) => D.CanSplitCall(b.dag, w) && D.JobOf(b.dag, w) == j
    case Work(w, q) =>
      && q.id in b.stageOf && D.IsRunning(b.dag, w) && D.Top(b.dag, w) == D.User(b.stageOf[q.id])
      && Q.Enabled(b.sort, q) && !Spawns(b.sort, q)
    case Spawn(w, f, q) =>
      && q.id in b.stageOf && D.Over(b.dag, w) && D.Below(b.dag, w) == D.User(b.stageOf[q.id])
      && (f.SpawnNew? || f.SpawnDirect?) && D.StackEnabled(b.dag, w, f)
      && Q.Enabled(b.sort, q) && Spawns(b.sort, q)
  }

  function Apply(b: State, j: D.JobId, e: Event): State
    requires Enabled(b, j, e)
  {
    match e
    case Scheduler(e) => b.(dag := D.Apply(b.dag, e))
    case Call(w) => b.(dag := D.DoSplitCall(b.dag, w), stageOf := b.stageOf[0 := |b.dag.stages|])
    case Work(_, q) => b.(sort := Q.Apply(b.sort, q))
    case Spawn(w, f, q) =>
      State(D.StackApply(b.dag, w, f), Q.Apply(b.sort, q), b.stageOf[q.child := |b.dag.stages|])
  }

  /** The job has just been accepted, for the whole array and with the array's size as chunk size, in
      some reachable state of the scheduler. */
  ghost predicate Init(b: State, j: D.JobId, original: seq<int>, s0: D.State, es: seq<D.Event>) {
    && D.Init(s0) && D.IsRun(s0, es) && D.CanSubmitPush(D.Final(s0, es), j)
    && D.Final(s0, es).sub.n == |original| <= D.Final(s0, es).sub.chunk
    && b.dag == D.DoSubmitPush(D.Final(s0, es), j)
    && Q.Init(b.sort, original) && b.stageOf == map[]
  }

  predicate IsRun(b: State, j: D.JobId, run: seq<Event>)
    decreases |run|
  {
    run == [] || (Enabled(b, j, run[0]) && IsRun(Apply(b, j, run[0]), j, run[1..]))
  }

  function Final(b: State, j: D.JobId, run: seq<Event>): State
    requires IsRun(b, j, run)
    decreases |run|
  {
    if run == [] then b else Final(Apply(b, j, run[0]), j, run[1..])
  }

  // ---------------------------------------------------------------- the invariant

  /** A call that is not over has a stage that is not over, in this job. */
  predicate Linked(b: State, j: D.JobId, a: Q.Id)
    requires a in b.sort.acts
  {
    !b.sort.acts[a].pc.Over? ==> a in b.stageOf && J.StageOfJob(b.dag, b.stageOf[a], j)
  }

  ghost predicate Inv(b: State, j: D.JobId, original: seq<int>) {
    && I.Inv(b.dag) && Q.Inv(b.sort, original) && S.OneChunk(b.dag, j) && b.dag.jobs[j].n == |original|
    && (if b.dag.jobs[j].calls == [] then b.stageOf == map[] && Q.Init(b.sort, original)
        else forall a :: a in b.sort.acts ==> Linked(b, j, a))
  }

  lemma InitInv(b: State, j: D.JobId, original: seq<int>, s0: D.State, es: seq<D.Event>)
    requires Init(b, j, original, s0, es)
    ensures Inv(b, j, original)
  {
    T.InvInit(s0);
    T.InvRun(s0, es);
    S.AcceptedAsOne(D.Final(s0, es), j);
    T.InvStep(D.Final(s0, es), D.Submit(D.SubmitPush(j)));
    Q.InitInv(b.sort, original);
  }

  lemma SchedulerLinked(b: State, j: D.JobId, e: D.Event, a: Q.Id)
    requires I.Inv(b.dag) && Enabled(b, j, Scheduler(e)) && a in b.sort.acts && Linked(b, j, a)
    ensures Linked(Apply(b, j, Scheduler(e)), j, a)
  {
    if !b.sort.acts[a].pc.Over? {
      var id := b.stageOf[a];
      if J.Live(D.Apply(b.dag, e), id) { J.StageKept(b.dag, e, id, j); }
      else { J.StageEnds(b.dag, e, id, j); }
    }
  }

  lemma SchedulerInv(b: State, j: D.JobId, original: seq<int>, e: D.Event)
    requires Inv(b, j, original) && Enabled(b, j, Scheduler(e))
    ensures Inv(Apply(b, j, Scheduler(e)), j, original)
  {
    T.InvStep(b.dag, e);
    S.OneChunkStep(b.dag, e, j);
    if b.dag.jobs[j].calls != [] {
      forall a | a in b.sort.acts ensures Linked(Apply(b, j, Scheduler(e)), j, a) { SchedulerLinked(b, j, e, a); }
    }
  }

  lemma CallStage(d: D.State, j: D.JobId, w: D.WorkerId)
    requires I.Refs(d) && D.CanSplitCall(d, w) && D.JobOf(d, w) == j
    ensures J.StageOfJob(D.DoSplitCall(d, w), |d.stages|, j)
  {
    assert I.WorkerOk(d, w);
  }

  lemma CallInv(b: State, j: D.JobId, original: seq<int>, w: D.WorkerId)
    requires Inv(b, j, original) && Enabled(b, j, Call(w))
    ensures Inv(Apply(b, j, Call(w)), j, original)
  {
    S.CallStep(b.dag, j, w);
    CallStage(b.dag, j, w);
    FirstLinked(Apply(b, j, Call(w)), j, original);
  }

  lemma FirstLinked(b: State, j: D.JobId, original: seq<int>)
    requires Q.Init(b.sort, original) && 0 in b.stageOf && J.StageOfJob(b.dag, b.stageOf[0], j)
    ensures forall a :: a in b.sort.acts ==> Linked(b, j, a)
  {
  }

  lemma WorkInv(b: State, j: D.JobId, original: seq<int>, w: D.WorkerId, q: Q.Event)
    requires Inv(b, j, original) && Enabled(b, j, Work(w, q))
    ensures Inv(Apply(b, j, Work(w, q)), j, original)
  {
    var b' := Apply(b, j, Work(w, q));
    Q.StepInv(b.sort, original, q);
    assert b.dag.jobs[j].calls != [];
    forall a | a in b'.sort.acts ensures Linked(b', j, a) { WorkLinked(b, j, w, q, a); }
  }

  lemma WorkLinked(b: State, j: D.JobId, w: D.WorkerId, q: Q.Event, a: Q.Id)
    requires Enabled(b, j, Work(w, q)) && a in Q.Apply(b.sort, q).acts
    requires a in b.sort.acts ==> Linked(b, j, a)
    ensures Linked(Apply(b, j, Work(w, q)), j, a)
  {
    if a != q.id { KeptActivity(b.sort, q, a); }
  }

  lemma KeptActivity(s: Q.State, q: Q.Event, a: Q.Id)
    requires Q.Enabled(s, q) && !Spawns(s, q) && a in Q.Apply(s, q).acts && a != q.id
    ensures a in s.acts && Q.Apply(s, q).acts[a] == s.acts[a]
  {
  }

  /** The worker that spawns for the sort runs a task of the job. */
  lemma SpawnerRunsJob(s: D.State, j: D.JobId, w: D.WorkerId, id: D.StageId)
    requires I.Inv(s) && D.Over(s, w) && D.Below(s, w) == D.User(id) && J.StageOfJob(s, id, j)
    ensures D.JobOf(s, w) == j
  {
    assert I.OnStack(s, w, D.TopIndex(s, w) - 1, id);
  }

  lemma SpawnedStage(s: D.State, j: D.JobId, w: D.WorkerId, f: D.StackEvent)
    requires I.Inv(s) && D.StackEnabled(s, w, f) && (f.SpawnNew? || f.SpawnDirect?) && D.JobOf(s, w) == j
    ensures J.StageOfJob(D.StackApply(s, w, f), |s.stages|, j)
    ensures s.stages <= D.StackApply(s, w, f).stages
  {
    assert I.WorkerOk(s, w);
  }

  /** What a spawn for the sort does to the scheduler's side. */
  lemma SpawnDag(s: D.State, j: D.JobId, w: D.WorkerId, f: D.StackEvent, id: D.StageId)
    requires I.Inv(s) && S.OneChunk(s, j) && D.Over(s, w) && D.Below(s, w) == D.User(id) && J.StageOfJob(s, id, j)
    requires D.StackEnabled(s, w, f) && (f.SpawnNew? || f.SpawnDirect?)
    ensures I.Inv(D.StackApply(s, w, f)) && S.OneChunk(D.StackApply(s, w, f), j)
    ensures D.StackApply(s, w, f).jobs[j].n == s.jobs[j].n && D.StackApply(s, w, f).jobs[j].calls == s.jobs[j].calls
    ensures J.StageOfJob(D.StackApply(s, w, f), |s.stages|, j)
    ensures forall i :: J.StageOfJob(s, i, j) ==> J.StageOfJob(D.StackApply(s, w, f), i, j)
  {
    T.InvStep(s, D.Stack(w, f));
    S.OneChunkStep(s, D.Stack(w, f), j);
    SpawnerRunsJob(s, j, w, id);
    SpawnedStage(s, j, w, f);
    SpawnKeepsStages(s, j, w, f);
  }

  lemma SpawnKeepsStages(s: D.State, j: D.JobId, w: D.WorkerId, f: D.StackEvent)
    requires I.Inv(s) && D.StackEnabled(s, w, f) && s.stages <= D.StackApply(s, w, f).stages
    ensures forall i :: J.StageOfJob(s, i, j) ==> J.StageOfJob(D.StackApply(s, w, f), i, j)
  {
    forall i | J.StageOfJob(s, i, j) ensures J.StageOfJob(D.StackApply(s, w, f), i, j) {
      J.StageKept(s, D.Stack(w, f), i, j);
    }
  }

  lemma SpawnInv(b: State, j: D.JobId, original: seq<int>, w: D.WorkerId, f: D.StackEvent, q: Q.Event)
    requires Inv(b, j, original) && Enabled(b, j, Spawn(w, f, q))
    ensures Inv(Apply(b, j, Spawn(w, f, q)), j, original)
  {
    var b' := Apply(b, j, Spawn(w, f, q));
    assert b.dag.jobs[j].calls != [] && Linked(b, j, q.id);
    SpawnDag(b.dag, j, w, f, b.stageOf[q.id]);
    Q.StepInv(b.sort, original, q);
    forall a | a in b'.sort.acts ensures Linked(b', j, a) { SpawnLinked(b, j, w, f, q, a); }
  }

  lemma SpawnLinked(b: State, j: D.JobId, w: D.WorkerId, f: D.StackEvent, q: Q.Event, a: Q.Id)
    requires Enabled(b, j, Spawn(w, f, q)) && a in Q.Apply(b.sort, q).acts
    requires J.StageOfJob(D.StackApply(b.dag, w, f), |b.dag.stages|, j)
    requires forall id :: J.StageOfJob(b.dag, id, j) ==> J.StageOfJob(D.StackApply(b.dag, w, f), id, j)
    requires a in b.sort.acts ==> Linked(b, j, a)
    ensures Linked(Apply(b, j, Spawn(w, f, q)), j, a)
  {
    if a != q.child { SpawnedActivity(b.sort, q, a); }
  }

  lemma SpawnedActivity(s: Q.State, q: Q.Event, a: Q.Id)
    requires Q.Enabled(s, q) && a in Q.Apply(s, q).acts && a != q.child
    ensures a in s.acts && (s.acts[a].pc.Over? ==> Q.Apply(s, q).acts[a].pc.Over?)
  {
  }

  lemma StepInv(b: State, j: D.JobId, original: seq<int>, e: Event)
    requires Inv(b, j, original) && Enabled(b, j, e)
    ensures Inv(Apply(b, j, e), j, original)
  {
    match e
    case Scheduler(e) => SchedulerInv(b, j, original, e);
    case Call(w) => CallInv(b, j, original, w);
    case Work(w, q) => WorkInv(b, j, original, w, q);
    case Spawn(w, f, q) => SpawnInv(b, j, original, w, f, q);
  }

  lemma {:induction false} InvRun(b: State, j: D.JobId, original: seq<int>, run: seq<Event>)
    requires Inv(b, j, original) && IsRun(b, j, run)
    ensures Inv(Final(b, j, run), j, original)
    decreases |run|
  {
    if run != [] {
      StepInv(b, j, original, run[0]);
      InvRun(Apply(b, j, run[0]), j, original, run[1..]);
    }
  }

  // ---------------------------------------------------------------- DONE means sorted

  /** For every array, every schedule, any number of workers and any pattern of failed acquires and
      refused pushes: when the job is DONE, the array is a sorted rearrangement of what it was. */
  lemma SortedWhenDone(b: State, j: D.JobId, original: seq<int>, s0: D.State, es: seq<D.Event>, run: seq<Event>)
    requires Init(b, j, original, s0, es) && IsRun(b, j, run)
    ensures j in Final(b, j, run).dag.jobs
    ensures Final(b, j, run).dag.jobs[j].done ==>
              Sorted(Final(b, j, run).sort.arr) && multiset(Final(b, j, run).sort.arr) == multiset(original)
  {
    InitInv(b, j, original, s0, es);
    InvRun(b, j, original, run);
    var c := Final(b, j, run);
    if c.dag.jobs[j].done {
      S.SingleCall(c.dag, j);
      forall a | a in c.sort.acts ensures c.sort.acts[a].pc.Over? {
        assert Linked(c, j, a);
        if a in c.stageOf { J.NoStageLeft(c.dag, j, c.stageOf[a]); }
      }
      Q.AllOverMeansSorted(c.sort, original);
    }
  }
}
