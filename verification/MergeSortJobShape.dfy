/**
 What the workers of a merge sort job look like, whatever the schedule: a stack holds one function, or
 one function that is making its two children; a call that has forked waits in its task; and no two
 unfinished calls share a task.
 */
module MergeSortJobShape {
  import opened Basics
  import D = TaskDag
  import I = DagInvariant
  import R = DagRefs
  import T = DagTheorems
  import H = DagOthers
  import O = DagOutcome
  import J = DagJobStages
  import K = DagTaskStages
  import S = DagSingleChunk
  import M = MergeSort
  import Merging
  import opened MergeSortJob

  // ---------------------------------------------------------------- the stacks

  /** One function, or one that is making its children: these are made only for a call that is to fork and
      has its continuation registered, and offered two at a time. */
  ghost predicate StackOk(b: State, w: D.WorkerId)
    requires D.IsRunning(b.dag, w)
  {
    var f, batch := b.dag.workers[w].frames, D.TopBatch(b.dag, w);
    |f| <= 2 &&
    (|f| == 2 ==>
       && f[0].User? && (f[1].New? || f[1].Offer?)
       && (AboutToFork(b, f[0]) ==> b.dag.tasks[b.dag.workers[w].t].fn.Code?)
       && |batch| <= 2 && (batch != {} ==> AboutToFork(b, f[0])) && (f[1].Offer? ==> |batch| == 2))
  }

  ghost predicate ShapeOk(b: State, j: D.JobId, w: D.WorkerId) {
    D.IsRunning(b.dag, w) && D.JobOf(b.dag, w) == j ==> StackOk(b, w)
  }

  ghost predicate Shapes(b: State, j: D.JobId) {
    forall w :: w in b.dag.workers ==> ShapeOk(b, j, w)
  }

  function Bottom(d: D.State, w: D.WorkerId): D.Frame
    requires D.IsRunning(d, w)
  {
    d.workers[w].frames[0]
  }

  /** Another thread's event leaves the shape alone, if the sort's side does. */
  lemma OthersKeepShape(b: State, b': State, j: D.JobId, e: D.Event, w: D.WorkerId)
    requires I.Refs(b.dag) && D.Enabled(b.dag, e) && (e.Submit? || e.w != w) && w in b.dag.workers && ShapeOk(b, j, w)
    requires b'.dag == D.Apply(b.dag, e)
    requires D.IsRunning(b.dag, w) ==> (AboutToFork(b', Bottom(b.dag, w)) <==> AboutToFork(b, Bottom(b.dag, w)))
    ensures ShapeOk(b', j, w)
  {
    H.WorkerStays(b.dag, e, w);
    T.SameDomains(b.dag, e);
    if D.IsRunning(b.dag, w) {
      H.HeldSame(b.dag, e, w);
      H.BatchSame(b.dag, e, w);
    }
  }

  lemma SameSort(b: State, b': State, f: D.Frame)
    requires b'.sort == b.sort && b'.stageOf == b.stageOf
    ensures AboutToFork(b', f) <==> AboutToFork(b, f)
  {
  }

  // ---------------------------------------------------------------- a worker's own events

  lemma LoopShape(d: D.State, w: D.WorkerId, l: D.LoopEvent)
    requires D.LoopEnabled(d, w, l)
    ensures D.IsRunning(D.LoopApply(d, w, l), w) ==> |D.LoopApply(d, w, l).workers[w].frames| == 1
  {
  }

  /** The worker stays with its task and the task with its job. */
  lemma StackKeepsJob(d: D.State, w: D.WorkerId, f: D.StackEvent)
    requires I.Refs(d) && D.StackEnabled(d, w, f) && D.IsRunning(D.StackApply(d, w, f), w)
    ensures D.IsRunning(d, w) && D.StackApply(d, w, f).workers[w].t == d.workers[w].t
    ensures D.JobOf(D.StackApply(d, w, f), w) == D.JobOf(d, w)
  {
    assert I.WorkerOk(d, w);
  }

  lemma BeginShape(b: State, w: D.WorkerId)
    requires I.Refs(b.dag) && D.AtUser(b.dag, w) && |b.dag.workers[w].frames| == 1
    requires b.dag.tasks[b.dag.workers[w].t].fn.Code?
    ensures StackOk(b.(dag := D.DoSpawnBegin(b.dag, w)), w)
  {
    var d' := D.DoSpawnBegin(b.dag, w);
    forall t | t in b.dag.tasks ensures !H.InFrame(b.dag.tasks[t].place, w, 1) { assert I.PlaceOk(b.dag, t); }
    assert D.TopBatch(d', w) == {};
    assert d'.workers[w].frames == [D.Top(b.dag, w), D.New];
  }

  lemma NewShape(b: State, w: D.WorkerId, r: D.TaskId)
    requires I.Refs(b.dag) && D.CanSpawnNew(b.dag, w, r) && StackOk(b, w) && AboutToFork(b, D.Below(b.dag, w))
    requires |D.TopBatch(b.dag, w)| < 2 && b.dag.tasks[b.dag.workers[w].t].fn.Code?
    ensures StackOk(b.(dag := D.DoSpawnNew(b.dag, w, r)), w)
    ensures D.TopBatch(D.DoSpawnNew(b.dag, w, r), w) == D.TopBatch(b.dag, w) + {r} && r !in D.TopBatch(b.dag, w)
  {
    var d' := D.DoSpawnNew(b.dag, w, r);
    assert I.WorkerOk(b.dag, w);
    assert d'.workers[w].frames == b.dag.workers[w].frames;
    assert D.TopBatch(d', w) == D.TopBatch(b.dag, w) + {r};
    SameSort(b, b.(dag := d'), D.Below(b.dag, w));
  }

  lemma CountShape(b: State, w: D.WorkerId)
    requires D.CanCount(b.dag, w) && StackOk(b, w) && |D.TopBatch(b.dag, w)| == 2
    ensures StackOk(b.(dag := D.DoCount(b.dag, w)), w)
    ensures D.TopBatch(D.DoCount(b.dag, w), w) == D.TopBatch(b.dag, w)
  {
    var d' := D.DoCount(b.dag, w);
    assert d'.workers[w].frames == [b.dag.workers[w].frames[0], D.Offer];
    assert D.TopBatch(d', w) == D.TopBatch(b.dag, w);
    SameSort(b, b.(dag := d'), D.Below(b.dag, w));
  }

  lemma EndShape(b: State, w: D.WorkerId)
    requires D.AtSpawnEnd(b.dag, w) && StackOk(b, w)
    ensures StackOk(b.(dag := D.DoSpawnEnd(b.dag, w)), w)
  {
  }

  lemma OneFunction(b: State, w: D.WorkerId, f: D.StackEvent)
    requires D.StackEnabled(b.dag, w, f) && (f.SetContinuation? || f.Return? || f.PublishDone?) && StackOk(b, w)
    ensures |b.dag.workers[w].frames| == 1
    ensures D.IsRunning(D.StackApply(b.dag, w, f), w) ==> |D.StackApply(b.dag, w, f).workers[w].frames| == 1
  {
  }

  lemma OwnStackShape(b: State, j: D.JobId, w: D.WorkerId, f: D.StackEvent)
    requires I.Inv(b.dag) && S.OneChunk(b.dag, j) && D.StackEnabled(b.dag, w, f) && D.JobOf(b.dag, w) == j
    requires !ByTheSort(b, j, D.Stack(w, f)) && StackOk(b, w)
    ensures ShapeOk(b.(dag := D.StackApply(b.dag, w, f)), j, w)
  {
    S.NoRightPart(b.dag, j, w, f);
    OwnShape(b, j, w, f);
  }

  lemma OwnShape(b: State, j: D.JobId, w: D.WorkerId, f: D.StackEvent)
    requires I.Refs(b.dag) && D.StackEnabled(b.dag, w, f) && D.JobOf(b.dag, w) == j
    requires !ByTheSort(b, j, D.Stack(w, f)) && StackOk(b, w) && !f.SplitInline? && !f.SplitNew? && !f.SplitFree?
    ensures ShapeOk(b.(dag := D.StackApply(b.dag, w, f)), j, w)
  {
    match f
    case SetContinuation => OneFunction(b, w, f);
    case Return => OneFunction(b, w, f);
    case PublishDone => OneFunction(b, w, f);
    case SpawnBegin => BeginShape(b, w);
    case SpawnNew(r) => NewShape(b, w, r);
    case SpawnEnd => EndShape(b, w);
    case CountBatch => CountShape(b, w);
    case _ =>
  }

  lemma SchedulerShape(b: State, j: D.JobId, e: D.Event, w: D.WorkerId)
    requires I.Inv(b.dag) && S.OneChunk(b.dag, j) && Enabled(b, j, Scheduler(e)) && w in b.dag.workers && ShapeOk(b, j, w)
    ensures ShapeOk(Apply(b, j, Scheduler(e)), j, w)
  {
    var b' := Apply(b, j, Scheduler(e));
    if e.Submit? || e.w != w {
      if D.IsRunning(b.dag, w) { SameSort(b, b', Bottom(b.dag, w)); }
      OthersKeepShape(b, b', j, e, w);
    } else {
      OwnSchedulerShape(b, j, e, w);
    }
  }

  lemma OwnSchedulerShape(b: State, j: D.JobId, e: D.Event, w: D.WorkerId)
    requires I.Inv(b.dag) && S.OneChunk(b.dag, j) && Enabled(b, j, Scheduler(e)) && !e.Submit? && e.w == w && ShapeOk(b, j, w)
    ensures ShapeOk(Apply(b, j, Scheduler(e)), j, w)
  {
    match e
    case Loop(_, l) => LoopShape(b.dag, w, l);
    case Stack(_, f) =>
      if D.IsRunning(D.StackApply(b.dag, w, f), w) {
        StackKeepsJob(b.dag, w, f);
        if D.JobOf(b.dag, w) == j { OwnStackShape(b, j, w, f); }
      }
  }

  // ---------------------------------------------------------------- calls, forks and continuations

  /** Call a is executed at the bottom of w's stack: then nowhere else. */
  lemma BottomStage(d: D.State, w: D.WorkerId, id: D.StageId)
    requires I.Stages(d) && D.IsRunning(d, w) && Bottom(d, w) == D.User(id)
    ensures id < |d.stages| && d.stages[id] == D.Executing(w, 0)
  {
    assert I.OnStack(d, w, 0, id);
  }

  /** Ready calls but for those an event makes are what they were. */
  predicate ReadySame(s: M.State, s': M.State, made: set<M.Id>) {
    && (forall a :: a in s.calls && s.calls[a].pc.Ready? && a !in made ==> a in s'.calls && s'.calls[a] == s.calls[a])
    && (forall a :: a in s'.calls && s'.calls[a].pc.Ready? && a !in made ==> a in s.calls && s.calls[a] == s'.calls[a])
  }

  /** Whether a frame is about to fork depends on the ready calls that it executes. */
  lemma AboutSame(b: State, b': State, f: D.Frame, made: set<M.Id>)
    requires ReadySame(b.sort, b'.sort, made)
    requires forall a :: a !in made ==> (a in b.stageOf <==> a in b'.stageOf)
    requires forall a :: a !in made && a in b.stageOf ==> b'.stageOf[a] == b.stageOf[a]
    requires forall a :: a in made && a in b.stageOf && a in b.sort.calls && b.sort.calls[a].pc.Ready? ==> f != D.User(b.stageOf[a])
    requires forall a :: a in made && a in b'.stageOf && a in b'.sort.calls && b'.sort.calls[a].pc.Ready? ==> f != D.User(b'.stageOf[a])
    ensures AboutToFork(b', f) <==> AboutToFork(b, f)
  {
    if AboutToFork(b, f) {
      var a :| a in b.stageOf && Executes(b, f, a) && b.sort.calls[a].pc.Ready? && b.sort.calls[a].hi - b.sort.calls[a].lo > Merging.BASE_CASE_THRESHOLD;
      assert a !in made && Executes(b', f, a);
    }
    if AboutToFork(b', f) {
      var a :| a in b'.stageOf && Executes(b', f, a) && b'.sort.calls[a].pc.Ready? && b'.sort.calls[a].hi - b'.sort.calls[a].lo > Merging.BASE_CASE_THRESHOLD;
      assert a !in made && Executes(b, f, a);
    }
  }

  lemma WorkReady(s: M.State, m: M.Event)
    requires M.Enabled(s, m) && !M.Forks(s, m) && !M.Joins(s, m)
    ensures ReadySame(s, M.Apply(s, m), {m.id})
  {
  }

  lemma JoinReady(s: M.State, m: M.Event)
    requires M.Joins(s, m)
    ensures ReadySame(s, M.Apply(s, m), {})
  {
  }

  lemma ForkReady(s: M.State, m: M.Event)
    requires M.Forks(s, m)
    ensures ReadySame(s, M.Apply(s, m), {m.id, m.l, m.r})
  {
  }

  lemma WorkShapes(b: State, j: D.JobId, v: D.WorkerId, m: M.Event, w: D.WorkerId)
    requires I.Stages(b.dag) && Enabled(b, j, Work(v, m)) && w in b.dag.workers && ShapeOk(b, j, w)
    ensures ShapeOk(Apply(b, j, Work(v, m)), j, w)
  {
    var b' := Apply(b, j, Work(v, m));
    if D.IsRunning(b.dag, w) && D.JobOf(b.dag, w) == j && |b.dag.workers[w].frames| == 2 {
      assert I.OnStack(b.dag, v, D.TopIndex(b.dag, v), b.stageOf[m.id]);
      if Bottom(b.dag, w).User? { BottomStage(b.dag, w, Bottom(b.dag, w).id); }
      WorkReady(b.sort, m);
      AboutSame(b, b', Bottom(b.dag, w), {m.id});
    }
  }

  lemma CallShapes(b: State, j: D.JobId, v: D.WorkerId, w: D.WorkerId)
    requires I.Inv(b.dag) && S.OneChunk(b.dag, j) && b.stageOf == map[] && Enabled(b, j, Call(v)) && w in b.dag.workers && ShapeOk(b, j, w)
    ensures ShapeOk(Apply(b, j, Call(v)), j, w)
  {
    var b' := Apply(b, j, Call(v));
    if w == v {
      S.SplitsAll(b.dag, j, v);
    } else {
      if D.IsRunning(b.dag, w) && Bottom(b.dag, w).User? { BottomStage(b.dag, w, Bottom(b.dag, w).id); }
      OthersKeepShape(b, b', j, D.Stack(v, D.SplitCall), w);
    }
  }

  lemma ContinueShapes(b: State, j: D.JobId, original: seq<int>, e: D.Event, m: M.Event, w: D.WorkerId)
    requires I.Inv(b.dag) && M.Inv(b.sort, original) && LinksOk(b, j) && Enabled(b, j, Continue(e, m))
    requires w in b.dag.workers && ShapeOk(b, j, w)
    ensures ShapeOk(Apply(b, j, Continue(e, m)), j, w)
  {
    var b' := Apply(b, j, Continue(e, m));
    if e.w == w {
      LoopShape(b.dag, w, e.l);
    } else {
      HalvesAreOver(b, j, original, e, m);
      JoinReady(b.sort, m);
      if D.IsRunning(b.dag, w) { AboutSame(b, b', Bottom(b.dag, w), {}); }
      OthersKeepShape(b, b', j, e, w);
    }
  }

  /** The functions that a fork names now are registered, not running. */
  lemma RegisteredWaits(d: D.State, t: D.TaskId)
    requires I.Stages(d) && t in d.tasks && I.Started(d.tasks[t]) && d.tasks[t].fn.Code?
    ensures d.tasks[t].fn.id < |d.stages| && d.stages[d.tasks[t].fn.id] == D.Waiting(t)
  {
    assert I.Registered(d, t, d.tasks[t].fn.id);
  }

  lemma ForkNames(b: State, j: D.JobId, v: D.WorkerId, m: M.Event, l: D.TaskId, r: D.TaskId)
    requires I.Refs(b.dag) && I.Stages(b.dag) && Enabled(b, j, Fork(v, m, l, r))
    ensures var b' := Apply(b, j, Fork(v, m, l, r));
            && b'.dag.stages == b.dag.stages
            && (forall a :: a == m.id || a == m.l || a == m.r ==>
                  a in b'.stageOf && b'.stageOf[a] < |b.dag.stages| && b.dag.stages[b'.stageOf[a]].Waiting?)
            && (forall a :: a in b.stageOf && a != m.id && a != m.l && a != m.r ==> a in b'.stageOf && b'.stageOf[a] == b.stageOf[a])
  {
    var d := b.dag;
    assert I.WorkerOk(d, v) && l in D.TopBatch(d, v) && r in D.TopBatch(d, v);
    RegisteredWaits(d, d.workers[v].t);
    RegisteredWaits(d, l);
    RegisteredWaits(d, r);
  }

  lemma ForkShapes(b: State, j: D.JobId, v: D.WorkerId, m: M.Event, l: D.TaskId, r: D.TaskId, w: D.WorkerId)
    requires I.Inv(b.dag) && Enabled(b, j, Fork(v, m, l, r)) && w in b.dag.workers && ShapeOk(b, j, w) && v != w
    ensures ShapeOk(Apply(b, j, Fork(v, m, l, r)), j, w)
  {
    var b' := Apply(b, j, Fork(v, m, l, r));
    if D.IsRunning(b.dag, w) {
      ForkElsewhere(b, j, v, m, l, r, w);
      AboutAfterFork(b, j, v, m, l, r, Bottom(b.dag, w));
    }
    OthersKeepShape(b, b', j, D.Stack(v, D.PushBatch({l, r})), w);
  }

  /** What another worker executes is neither the call that forks nor anything that waits. */
  lemma ForkElsewhere(b: State, j: D.JobId, v: D.WorkerId, m: M.Event, l: D.TaskId, r: D.TaskId, w: D.WorkerId)
    requires I.Stages(b.dag) && Enabled(b, j, Fork(v, m, l, r)) && D.IsRunning(b.dag, w) && v != w
    ensures Bottom(b.dag, w) != D.User(b.stageOf[m.id])
    ensures Bottom(b.dag, w).User? ==> Bottom(b.dag, w).id < |b.dag.stages| && b.dag.stages[Bottom(b.dag, w).id].Executing?
  {
    assert I.OnStack(b.dag, v, D.TopIndex(b.dag, v) - 1, b.stageOf[m.id]);
    if Bottom(b.dag, w).User? { BottomStage(b.dag, w, Bottom(b.dag, w).id); }
  }

  lemma AboutAfterFork(b: State, j: D.JobId, v: D.WorkerId, m: M.Event, l: D.TaskId, r: D.TaskId, f: D.Frame)
    requires I.Refs(b.dag) && I.Stages(b.dag) && Enabled(b, j, Fork(v, m, l, r)) && f != D.User(b.stageOf[m.id])
    requires f.User? ==> f.id < |b.dag.stages| && b.dag.stages[f.id].Executing?
    ensures AboutToFork(Apply(b, j, Fork(v, m, l, r)), f) <==> AboutToFork(b, f)
  {
    ForkReady(b.sort, m);
    ForkStages(b, j, v, m, l, r, f);
    AboutSame(b, Apply(b, j, Fork(v, m, l, r)), f, {m.id, m.l, m.r});
  }

  lemma ForkStages(b: State, j: D.JobId, v: D.WorkerId, m: M.Event, l: D.TaskId, r: D.TaskId, f: D.Frame)
    requires I.Refs(b.dag) && I.Stages(b.dag) && Enabled(b, j, Fork(v, m, l, r)) && f != D.User(b.stageOf[m.id])
    requires f.User? ==> f.id < |b.dag.stages| && b.dag.stages[f.id].Executing?
    ensures var b', made := Apply(b, j, Fork(v, m, l, r)), {m.id, m.l, m.r};
            && b'.sort == M.Apply(b.sort, m)
            && (forall a :: a !in made ==> (a in b.stageOf <==> a in b'.stageOf))
            && (forall a :: a !in made && a in b.stageOf ==> b'.stageOf[a] == b.stageOf[a])
            && (forall a :: a in made && a in b.stageOf && a in b.sort.calls ==> f != D.User(b.stageOf[a]))
            && (forall a :: a in made && a in b'.stageOf ==> f != D.User(b'.stageOf[a]))
  {
    ForkNames(b, j, v, m, l, r);
  }

  lemma ForkerShape(b: State, j: D.JobId, w: D.WorkerId, m: M.Event, l: D.TaskId, r: D.TaskId)
    requires I.Refs(b.dag) && Enabled(b, j, Fork(w, m, l, r)) && ShapeOk(b, j, w)
    ensures ShapeOk(Apply(b, j, Fork(w, m, l, r)), j, w)
    ensures D.TopBatch(Apply(b, j, Fork(w, m, l, r)).dag, w) == {}
  {
    var d' := D.DoPush(b.dag, w, {l, r});
    assert I.WorkerOk(b.dag, w);
    assert D.TopBatch(d', w) == {};
  }

  lemma StepShape(b: State, j: D.JobId, original: seq<int>, e: Event, w: D.WorkerId)
    requires Inv(b, j, original) && Enabled(b, j, e) && w in b.dag.workers && ShapeOk(b, j, w)
    ensures ShapeOk(Apply(b, j, e), j, w)
  {
    match e
    case Scheduler(d) => SchedulerShape(b, j, d, w);
    case Call(v) =>
      S.CallStep(b.dag, j, v);
      CallShapes(b, j, v, w);
    case Work(v, m) => WorkShapes(b, j, v, m, w);
    case Fork(v, m, l, r) => if v == w { ForkerShape(b, j, w, m, l, r); } else { ForkShapes(b, j, v, m, l, r, w); }
    case Continue(d, m) =>
      assert b.dag.jobs[j].calls != [];
      ContinueShapes(b, j, original, d, m, w);
  }

  lemma SameWorkers(b: State, j: D.JobId, original: seq<int>, e: Event)
    requires I.Refs(b.dag) && Enabled(b, j, e)
    ensures Apply(b, j, e).dag.workers.Keys == b.dag.workers.Keys
  {
    match e
    case Scheduler(d) => T.SameDomains(b.dag, d);
    case Call(w) => T.SameDomains(b.dag, D.Stack(w, D.SplitCall));
    case Fork(w, _, l, r) => T.SameDomains(b.dag, D.Stack(w, D.PushBatch({l, r})));
    case Continue(d, _) => T.SameDomains(b.dag, d);
    case Work(_, _) =>
  }

  lemma StepShapes(b: State, j: D.JobId, original: seq<int>, e: Event)
    requires Inv(b, j, original) && Shapes(b, j) && Enabled(b, j, e)
    ensures Shapes(Apply(b, j, e), j)
  {
    SameWorkers(b, j, original, e);
    forall w | w in Apply(b, j, e).dag.workers ensures ShapeOk(Apply(b, j, e), j, w) { StepShape(b, j, original, e, w); }
  }

  // ---------------------------------------------------------------- the tasks of the calls

  /** No two unfinished calls share a task. */
  ghost predicate Apart(b: State) {
    forall a, c :: a in b.sort.calls && c in b.sort.calls && !Finished(b.sort, a) && !Finished(b.sort, c) && a != c ==>
      a in b.taskOf && c in b.taskOf && b.taskOf[a] != b.taskOf[c]
  }

  predicate InBatch(d: D.State, t: D.TaskId) {
    t in d.tasks && (d.tasks[t].place.Fresh? || d.tasks[t].place.Offered?)
  }

  /** The task of an unfinished call is visible to the scheduler. */
  ghost predicate Placed(b: State) {
    forall a :: a in b.sort.calls && !Finished(b.sort, a) ==> a in b.taskOf && !InBatch(b.dag, b.taskOf[a])
  }

  /** A call that has forked waits for its continuation. */
  ghost predicate ForkedWaits(b: State) {
    forall a :: a in b.sort.calls && b.sort.calls[a].pc.Forked? ==>
      a in b.stageOf && b.stageOf[a] < |b.dag.stages| && b.dag.stages[b.stageOf[a]].Waiting?
  }

  ghost predicate CallsOk(b: State, j: D.JobId) {
    j in b.dag.jobs && (b.dag.jobs[j].calls != [] ==> Apart(b) && Placed(b) && ForkedWaits(b))
  }

  /** A node that is in use outside batches gets into none. */
  lemma LoopNoBatch(d: D.State, w: D.WorkerId, l: D.LoopEvent, t: D.TaskId)
    requires D.LoopEnabled(d, w, l) && t in d.tasks && !InBatch(d, t)
    ensures !InBatch(D.LoopApply(d, w, l), t)
  {
  }

  lemma StackNoBatch(d: D.State, w: D.WorkerId, f: D.StackEvent, t: D.TaskId)
    requires D.StackEnabled(d, w, f) && t in d.tasks && !InBatch(d, t) && !d.tasks[t].place.Free?
    ensures !InBatch(D.StackApply(d, w, f), t)
  {
  }

  lemma NoBatch(d: D.State, e: D.Event, t: D.TaskId)
    requires D.Enabled(d, e) && t in d.tasks && !InBatch(d, t) && !d.tasks[t].place.Free?
    ensures !InBatch(D.Apply(d, e), t)
  {
    match e
    case Loop(w, l) => LoopNoBatch(d, w, l, t);
    case Stack(w, f) => StackNoBatch(d, w, f, t);
    case Submit(_) =>
  }

  lemma PlacedStays(b: State, j: D.JobId, e: D.Event, a: M.Id)
    requires I.Refs(b.dag) && I.Stages(b.dag) && D.Enabled(b.dag, e) && a in b.sort.calls && !Finished(b.sort, a) && Linked(b, j, a)
    requires a in b.taskOf && !InBatch(b.dag, b.taskOf[a])
    ensures !InBatch(D.Apply(b.dag, e), b.taskOf[a])
  {
    K.LiveTask(b.dag, b.stageOf[a], b.taskOf[a]);
    NoBatch(b.dag, e, b.taskOf[a]);
  }

  /** What takes a stage out of waiting. */
  lemma LoopStarts(d: D.State, w: D.WorkerId, l: D.LoopEvent, id: D.StageId, t: D.TaskId)
    requires I.Refs(d) && I.Stages(d) && D.LoopEnabled(d, w, l) && id < |d.stages| && d.stages[id] == D.Waiting(t)
    ensures id < |D.LoopApply(d, w, l).stages|
    ensures D.LoopApply(d, w, l).stages[id] == d.stages[id] || (O.Enters(d, D.Loop(w, l), t) && d.tasks[t].fn == D.Code(id))
  {
    assert I.WorkerOk(d, w) && I.StageOk(d, id);
    var u := if l.Take? then l.t else if d.workers[w].Idle? || d.workers[w].Reporting? then 0 else d.workers[w].t;
    if u in d.tasks && I.Started(d.tasks[u]) && d.tasks[u].fn.Code? { assert I.Registered(d, u, d.tasks[u].fn.id); }
  }

  lemma StackStarts(d: D.State, w: D.WorkerId, f: D.StackEvent, id: D.StageId, t: D.TaskId)
    requires I.Refs(d) && I.Stages(d) && D.StackEnabled(d, w, f) && id < |d.stages| && d.stages[id] == D.Waiting(t)
    ensures id < |D.StackApply(d, w, f).stages|
    ensures D.StackApply(d, w, f).stages[id] == d.stages[id] || f == D.RunRejected(t) ||
            (f.SetContinuation? && d.workers[w].t == t && d.tasks[t].fn == D.Code(id))
  {
    assert I.WorkerOk(d, w) && I.StageOk(d, id);
    var u := d.workers[w].t;
    if f.SetContinuation? && d.tasks[u].fn.Code? { assert I.Registered(d, u, d.tasks[u].fn.id); }
    if f.Return? { assert I.OnStack(d, w, D.TopIndex(d, w), D.Top(d, w).id); }
    if f.RunRejected? { R.ListedAtTop(d, w, f.r); assert I.Registered(d, f.r, d.tasks[f.r].fn.id); }
  }

  lemma NotResumed(b: State, j: D.JobId, e: D.Event, a: M.Id)
    requires Enabled(b, j, Scheduler(e)) && e.Loop? && a in b.sort.calls && b.sort.calls[a].pc.Forked?
    requires a in b.stageOf && a in b.taskOf
    ensures !Resumes(b, e, a)
  {
  }

  /** A forked call goes on waiting while the scheduler does anything but start its continuation. */
  lemma SchedulerWaits(b: State, j: D.JobId, e: D.Event, a: M.Id)
    requires I.Refs(b.dag) && I.Stages(b.dag) && Enabled(b, j, Scheduler(e)) && a in b.sort.calls && b.sort.calls[a].pc.Forked? && Linked(b, j, a)
    requires b.stageOf[a] < |b.dag.stages| && b.dag.stages[b.stageOf[a]].Waiting? && !InBatch(b.dag, b.taskOf[a])
    ensures b.stageOf[a] < |D.Apply(b.dag, e).stages| && D.Apply(b.dag, e).stages[b.stageOf[a]].Waiting?
  {
    var id, t := b.stageOf[a], b.taskOf[a];
    match e
    case Loop(w, l) =>
      LoopStarts(b.dag, w, l, id, t);
      NotResumed(b, j, e, a);
    case Stack(w, f) => StackStarts(b.dag, w, f, id, t);
    case Submit(_) =>
  }

  lemma SchedulerCalls(b: State, j: D.JobId, e: D.Event)
    requires I.Inv(b.dag) && S.OneChunk(b.dag, j) && Enabled(b, j, Scheduler(e)) && CallsOk(b, j)
    requires b.dag.jobs[j].calls != [] ==> LinksOk(b, j)
    ensures CallsOk(Apply(b, j, Scheduler(e)), j)
  {
    S.OneChunkStep(b.dag, e, j);
    if b.dag.jobs[j].calls != [] {
      AllPlaced(b, j, e);
      AllWait(b, j, e);
    }
  }

  lemma AllPlaced(b: State, j: D.JobId, e: D.Event)
    requires I.Refs(b.dag) && I.Stages(b.dag) && D.Enabled(b.dag, e) && LinksOk(b, j) && Placed(b)
    ensures Placed(b.(dag := D.Apply(b.dag, e)))
  {
    forall a | a in b.sort.calls && !Finished(b.sort, a) ensures a in b.taskOf && !InBatch(D.Apply(b.dag, e), b.taskOf[a]) {
      assert Linked(b, j, a);
      PlacedStays(b, j, e, a);
    }
  }

  lemma AllWait(b: State, j: D.JobId, e: D.Event)
    requires I.Refs(b.dag) && I.Stages(b.dag) && Enabled(b, j, Scheduler(e)) && LinksOk(b, j) && Placed(b) && ForkedWaits(b)
    ensures ForkedWaits(b.(dag := D.Apply(b.dag, e)))
  {
    forall a | a in b.sort.calls && b.sort.calls[a].pc.Forked?
      ensures a in b.stageOf && b.stageOf[a] < |D.Apply(b.dag, e).stages| && D.Apply(b.dag, e).stages[b.stageOf[a]].Waiting?
    {
      assert Linked(b, j, a);
      SchedulerWaits(b, j, e, a);
    }
  }

  // ---------------------------------------------------------------- and the steps of the sort

  lemma CallCalls(b: State, j: D.JobId, original: seq<int>, w: D.WorkerId)
    requires Inv(b, j, original) && Enabled(b, j, Call(w))
    ensures CallsOk(Apply(b, j, Call(w)), j)
  {
    S.CallStep(b.dag, j, w);
    FirstCalls(b, j, original, w);
  }

  lemma FirstCalls(b: State, j: D.JobId, original: seq<int>, w: D.WorkerId)
    requires I.Refs(b.dag) && M.Init(b.sort, original) && b.taskOf == map[] && Enabled(b, j, Call(w)) && j in b.dag.jobs
    ensures CallsOk(Apply(b, j, Call(w)), j)
  {
    assert I.WorkerOk(b.dag, w);
  }

  lemma WorkCalls(b: State, j: D.JobId, w: D.WorkerId, m: M.Event)
    requires Enabled(b, j, Work(w, m)) && CallsOk(b, j)
    ensures CallsOk(Apply(b, j, Work(w, m)), j)
  {
    WorkShape(b.sort, m);
    WorkForks(b.sort, m);
  }

  lemma WorkForks(s: M.State, m: M.Event)
    requires M.Enabled(s, m) && !M.Forks(s, m) && !M.Joins(s, m)
    ensures forall a :: a in M.Apply(s, m).calls && M.Apply(s, m).calls[a].pc.Forked? ==> a in s.calls && s.calls[a].pc.Forked?
  {
  }

  lemma ForkApart(b: State, j: D.JobId, w: D.WorkerId, m: M.Event, l: D.TaskId, r: D.TaskId)
    requires Enabled(b, j, Fork(w, m, l, r)) && Apart(b) && Placed(b)
    ensures Apart(Apply(b, j, Fork(w, m, l, r)))
  {
    var b' := Apply(b, j, Fork(w, m, l, r));
    ForkShape(b.sort, m);
    assert l in D.TopBatch(b.dag, w) && r in D.TopBatch(b.dag, w);
    assert InBatch(b.dag, l) && InBatch(b.dag, r);
    forall a | a in b'.sort.calls && !Finished(b'.sort, a)
      ensures a in b'.taskOf && (if a == m.l then b'.taskOf[a] == l else if a == m.r then b'.taskOf[a] == r
                                 else a in b.sort.calls && !Finished(b.sort, a) && a in b.taskOf && b'.taskOf[a] == b.taskOf[a])
    {
    }
  }

  lemma ForkPlaced(b: State, j: D.JobId, w: D.WorkerId, m: M.Event, l: D.TaskId, r: D.TaskId)
    requires I.Refs(b.dag) && I.Stages(b.dag) && LinksOk(b, j) && Enabled(b, j, Fork(w, m, l, r)) && Placed(b)
    ensures Placed(Apply(b, j, Fork(w, m, l, r)))
  {
    var b' := Apply(b, j, Fork(w, m, l, r));
    ForkShape(b.sort, m);
    forall a | a in b'.sort.calls && !Finished(b'.sort, a) ensures a in b'.taskOf && !InBatch(b'.dag, b'.taskOf[a]) {
      if a in b.sort.calls {
        assert Linked(b, j, a);
        PlacedStays(b, j, D.Stack(w, D.PushBatch({l, r})), a);
      }
    }
  }

  lemma ForkWaits(b: State, j: D.JobId, w: D.WorkerId, m: M.Event, l: D.TaskId, r: D.TaskId)
    requires I.Refs(b.dag) && I.Stages(b.dag) && Enabled(b, j, Fork(w, m, l, r)) && ForkedWaits(b)
    ensures ForkedWaits(Apply(b, j, Fork(w, m, l, r)))
  {
    ForkNames(b, j, w, m, l, r);
    ForkShape(b.sort, m);
  }

  lemma ForkCalls(b: State, j: D.JobId, original: seq<int>, w: D.WorkerId, m: M.Event, l: D.TaskId, r: D.TaskId)
    requires I.Inv(b.dag) && LinksOk(b, j) && Enabled(b, j, Fork(w, m, l, r)) && j in b.dag.jobs && Apart(b) && Placed(b) && ForkedWaits(b)
    ensures CallsOk(Apply(b, j, Fork(w, m, l, r)), j)
  {
    ForkApart(b, j, w, m, l, r);
    ForkPlaced(b, j, w, m, l, r);
    ForkWaits(b, j, w, m, l, r);
  }

  /** An event enters one task's function. */
  lemma EntersOne(d: D.State, e: D.Event, t: D.TaskId, u: D.TaskId)
    requires D.Enabled(d, e) && O.Enters(d, e, t) && O.Enters(d, e, u)
    ensures t == u
  {
  }

  lemma ContinueWaits(b: State, j: D.JobId, e: D.Event, m: M.Event, a: M.Id)
    requires I.Refs(b.dag) && I.Stages(b.dag) && Enabled(b, j, Continue(e, m)) && a in b.sort.calls && b.sort.calls[a].pc.Forked? && a != m.id
    requires Linked(b, j, a) && Apart(b) && b.stageOf[a] < |b.dag.stages| && b.dag.stages[b.stageOf[a]].Waiting?
    ensures b.stageOf[a] < |D.Apply(b.dag, e).stages| && D.Apply(b.dag, e).stages[b.stageOf[a]].Waiting?
  {
    LoopStarts(b.dag, e.w, e.l, b.stageOf[a], b.taskOf[a]);
    if O.Enters(b.dag, e, b.taskOf[a]) { EntersOne(b.dag, e, b.taskOf[a], b.taskOf[m.id]); }
  }

  lemma JoinForks(s: M.State, m: M.Event)
    requires M.Joins(s, m)
    ensures forall a :: a in M.Apply(s, m).calls && M.Apply(s, m).calls[a].pc.Forked? ==> a in s.calls && s.calls[a].pc.Forked? && a != m.id
  {
  }

  lemma ContinueCalls(b: State, j: D.JobId, original: seq<int>, e: D.Event, m: M.Event)
    requires I.Inv(b.dag) && M.Inv(b.sort, original) && LinksOk(b, j) && Enabled(b, j, Continue(e, m)) && j in b.dag.jobs
    requires Apart(b) && Placed(b) && ForkedWaits(b)
    ensures CallsOk(Apply(b, j, Continue(e, m)), j)
  {
    var b' := Apply(b, j, Continue(e, m));
    HalvesAreOver(b, j, original, e, m);
    JoinShape(b.sort, m);
    JoinForks(b.sort, m);
    AllPlaced(b, j, e);
    O.LoopKeepsJobs(b.dag, e.w, e.l);
    forall a | a in b'.sort.calls && b'.sort.calls[a].pc.Forked?
      ensures a in b'.stageOf && b'.stageOf[a] < |b'.dag.stages| && b'.dag.stages[b'.stageOf[a]].Waiting?
    {
      assert Linked(b, j, a);
      ContinueWaits(b, j, e, m, a);
    }
  }

  // ---------------------------------------------------------------- every event

  ghost predicate Whole(b: State, j: D.JobId) {
    Shapes(b, j) && CallsOk(b, j)
  }

  lemma StepCalls(b: State, j: D.JobId, original: seq<int>, e: Event)
    requires Inv(b, j, original) && CallsOk(b, j) && Enabled(b, j, e)
    ensures CallsOk(Apply(b, j, e), j)
  {
    match e
    case Scheduler(d) => SchedulerCalls(b, j, d);
    case Call(w) => CallCalls(b, j, original, w);
    case Work(w, m) => WorkCalls(b, j, w, m);
    case Fork(w, m, l, r) => ForkCalls(b, j, original, w, m, l, r);
    case Continue(d, m) => ContinueCalls(b, j, original, d, m);
  }

  lemma StepWhole(b: State, j: D.JobId, original: seq<int>, e: Event)
    requires Inv(b, j, original) && Whole(b, j) && Enabled(b, j, e)
    ensures Whole(Apply(b, j, e), j)
  {
    StepShapes(b, j, original, e);
    StepCalls(b, j, original, e);
  }

  /** A job that has just been accepted: no worker runs a task of it yet. */
  lemma InitWhole(b: State, j: D.JobId, original: seq<int>, s0: D.State, es: seq<D.Event>)
    requires Init(b, j, original, s0, es)
    ensures Whole(b, j)
  {
    var d := D.Final(s0, es);
    T.InvInit(s0);
    T.InvRun(s0, es);
    S.AcceptedAsOne(d, j);
    forall w | w in b.dag.workers ensures ShapeOk(b, j, w) { NotYetRunning(d, j, w); }
  }

  lemma NotYetRunning(d: D.State, j: D.JobId, w: D.WorkerId)
    requires I.Inv(d) && D.CanSubmitPush(d, j) && w in d.workers
    ensures !(D.IsRunning(D.DoSubmitPush(d, j), w) && D.JobOf(D.DoSubmitPush(d, j), w) == j)
  {
    assert I.WorkerOk(d, w);
    assert forall t :: t in I.SubTasks(d.sub) ==> t in d.tasks && d.tasks[t].place.Submitting?;
    if D.IsRunning(d, w) { assert I.NodeOk(d, d.workers[w].t); }
  }
}
