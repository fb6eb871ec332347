/**
 The concurrent merge sort as a job of the scheduler: the task completion protocol and the steps of
 the sorting functions run together, for any number of workers and alongside any other jobs. Within
 this job acquires and pushes succeed. That a merge finds both halves finished is not assumed: it is
 proved of the scheduler's starting a continuation.
 */
module MergeSortJob {
  import opened Basics
  import D = TaskDag
  import I = DagInvariant
  import R = DagRefs
  import T = DagTheorems
  import O = DagOutcome
  import J = DagJobStages
  import K = DagTaskStages
  import S = DagSingleChunk
  import M = MergeSort
  import opened Sorting
  import Merging

  /** stageOf and taskOf link a call of the sort to the scheduler's stage that runs it, or is to run
      its continuation, and to the task that stage belongs to. */
  datatype State = State(dag: D.State, sort: M.State, stageOf: map<M.Id, D.StageId>, taskOf: map<M.Id, D.TaskId>)

  datatype Event =
    | Scheduler(e: D.Event)
    | Call(w: D.WorkerId)                                       // the splitter calls concurrent_merge_sort
    | Work(w: D.WorkerId, m: M.Event)                           // the function on top of w's stack takes a step
    | Fork(w: D.WorkerId, m: M.Event, l: D.TaskId, r: D.TaskId) // both children become visible
    | Continue(e: D.Event, m: M.Event)                          // a continuation starts

  predicate Finished(s: M.State, k: M.Id) {
    k in s.calls ==> s.calls[k].pc.Over? || s.calls[k].pc.Gone?
  }

  /** Frame f executes the function that call a waits for. */
  predicate Executes(b: State, f: D.Frame, a: M.Id) {
    a in b.stageOf && a in b.sort.calls && f == D.User(b.stageOf[a])
  }

  predicate Through(b: State, f: D.Frame) {
    forall a :: a in b.stageOf && Executes(b, f, a) ==> Finished(b.sort, a)
  }

  /** Frame f executes a call that has more than 1024 elements and has not forked yet. */
  predicate AboutToFork(b: State, f: D.Frame) {
    exists a :: a in b.stageOf && Executes(b, f, a) && b.sort.calls[a].pc.Ready?
             && b.sort.calls[a].hi - b.sort.calls[a].lo > Merging.BASE_CASE_THRESHOLD
  }

  /** A worker running a function of the job does only what concurrent_merge_sort and its
      continuation do: the continuation is registered once, before the spawn begins; both children are
      acquired, and pushed together, before it ends; a function returns when it is through. */
  predicate ByTheSort(b: State, j: D.JobId, e: D.Event) {
    if e.Stack? && D.IsRunning(b.dag, e.w) && D.JobOf(b.dag, e.w) == j then
      match e.f
      case SetContinuation => !(AboutToFork(b, D.Top(b.dag, e.w)) && b.dag.tasks[b.dag.workers[e.w].t].fn.Null?)
      case SpawnNew(_) => !(D.Over(b.dag, e.w) && AboutToFork(b, D.Below(b.dag, e.w)) && |D.TopBatch(b.dag, e.w)| < 2
                            && b.dag.tasks[b.dag.workers[e.w].t].fn.Code?)
      case SpawnBegin => !(AboutToFork(b, D.Top(b.dag, e.w)) && b.dag.tasks[b.dag.workers[e.w].t].fn.Code?)
      case SpawnEnd => D.Over(b.dag, e.w) && AboutToFork(b, D.Below(b.dag, e.w))
      case CountBatch => |D.TopBatch(b.dag, e.w)| != 2
      case Return => !Through(b, D.Top(b.dag, e.w))
      case SplitCall => true
      case SpawnDirect => true
      case PushBatch(_) => true
      case Rollback => true
      case RunRejected(_) => true
      case _ => false
    else EntersContinuation(b, e)
  }

  predicate EntersContinuation(b: State, e: D.Event) {
    D.Enabled(b.dag, e) &&
    exists a :: a in b.stageOf && a in b.taskOf && a in b.sort.calls && b.sort.calls[a].pc.Forked? && Resumes(b, e, a)
  }

  /** The event enters the continuation of call a. */
  predicate Resumes(b: State, e: D.Event, a: M.Id)
    requires D.Enabled(b.dag, e) && a in b.stageOf && a in b.taskOf
  {
    && e.Loop? && O.Enters(b.dag, e, b.taskOf[a])
    && b.taskOf[a] in b.dag.tasks && b.dag.tasks[b.taskOf[a]].fn == D.Code(b.stageOf[a])
  }

  predicate NewNames(s: M.State, m: M.Event) {
    m.l !in s.calls && m.r !in s.calls && m.l != m.r
  }

  predicate Enabled(b: State, j: D.JobId, e: Event) {
    match e
    case Scheduler(e) => D.Enabled(b.dag, e) && !ByTheSort(b, j, e)
    case Call(w) => D.CanSplitCall(b.dag, w) && D.JobOf(b.dag, w) == j
    case Work(w, m) =>
      && D.IsRunning(b.dag, w) && Executes(b, D.Top(b.dag, w), m.id)
      && M.Enabled(b.sort, m) && !M.Forks(b.sort, m) && !M.Joins(b.sort, m)
    case Fork(w, m, l, r) =>
      && D.CanPush(b.dag, w, {l, r}) && D.TopBatch(b.dag, w) == {l, r} && l != r && l in b.dag.tasks && r in b.dag.tasks
      && Executes(b, D.Below(b.dag, w), m.id) && M.Forks(b.sort, m)
      && b.dag.tasks[b.dag.workers[w].t].fn.Code? && b.dag.tasks[l].fn.Code? && b.dag.tasks[r].fn.Code?
    case Continue(e, m) =>
      && D.Enabled(b.dag, e) && m.id in b.stageOf && m.id in b.taskOf && m.id in b.sort.calls
      && b.sort.calls[m.id].pc.Forked? && Resumes(b, e, m.id) && NewNames(b.sort, m)
  }

  function Apply(b: State, j: D.JobId, e: Event): State
    requires Enabled(b, j, e)
  {
    match e
    case Scheduler(e) => b.(dag := D.Apply(b.dag, e))
    case Call(w) =>
      b.(dag := D.DoSplitCall(b.dag, w), stageOf := b.stageOf[0 := |b.dag.stages|], taskOf := b.taskOf[0 := b.dag.workers[w].t])
    case Work(_, m) => b.(sort := M.Apply(b.sort, m))
    case Fork(w, m, l, r) =>
      var d := b.dag;
      State(D.DoPush(d, w, {l, r}), M.Apply(b.sort, m),
            b.stageOf[m.id := d.tasks[d.workers[w].t].fn.id][m.l := d.tasks[l].fn.id][m.r := d.tasks[r].fn.id],
            b.taskOf[m.l := l][m.r := r])
    case Continue(e, m) =>
      b.(dag := D.Apply(b.dag, e), sort := if M.Enabled(b.sort, m) then M.Apply(b.sort, m) else b.sort)
  }

  /** The job has just been accepted, for the whole array and with the array's size as chunk size, in
      some reachable state of the scheduler. */
  ghost predicate Init(b: State, j: D.JobId, original: seq<int>, s0: D.State, es: seq<D.Event>) {
    && D.Init(s0) && D.IsRun(s0, es) && D.CanSubmitPush(D.Final(s0, es), j)
    && D.Final(s0, es).sub.n == |original| <= D.Final(s0, es).sub.chunk
    && b.dag == D.DoSubmitPush(D.Final(s0, es), j)
    && M.Init(b.sort, original) && b.stageOf == map[] && b.taskOf == map[]
  }

  predicate IsRun(b: State, j: D.JobId, run: seq<Event>)
    decreases |run|
  {
    run == [] || (Enabled(b, j, run[0]) && IsRun(Apply(b, j, run[0]), j, run[1..]))
  }

  function Final(b: State, j: D.JobId, run: seq<Event>): State
    requires IsRun(b, j, run)
    decreases |run|
  {
    if run == [] then b else Final(Apply(b, j, run[0]), j, run[1..])
  }

  // ---------------------------------------------------------------- the invariant

  /** Stage id is live, in task t of job j. */
  predicate Bound(d: D.State, id: D.StageId, t: D.TaskId, j: D.JobId) {
    J.StageOfJob(d, id, j) && K.StageOfTask(d, id, t)
  }

  predicate Linked(b: State, j: D.JobId, k: M.Id) {
    !Finished(b.sort, k) ==> k in b.stageOf && k in b.taskOf && Bound(b.dag, b.stageOf[k], b.taskOf[k], j)
  }

  predicate ParentIs(d: D.State, c: D.TaskId, p: D.TaskId) {
    c in d.tasks && d.tasks[c].parent == Some(p)
  }

  /** The task of an unfinished child is a child of its parent's task. */
  predicate Attached(b: State, p: M.Id, k: M.Id) {
    M.IsChild(b.sort, p, k) && !Finished(b.sort, k) ==>
      p in b.taskOf && k in b.taskOf && ParentIs(b.dag, b.taskOf[k], b.taskOf[p])
  }

  ghost predicate LinksOk(b: State, j: D.JobId) {
    && (forall k :: k in b.sort.calls ==> Linked(b, j, k))
    && (forall p, k :: p in b.sort.calls && k in b.sort.calls ==> Attached(b, p, k))
  }

  ghost predicate SortOk(b: State, original: seq<int>) {
    M.Inv(b.sort, original) && M.Owned(b.sort)
  }

  ghost predicate DagOk(b: State, j: D.JobId, original: seq<int>) {
    I.Inv(b.dag) && S.OneChunk(b.dag, j) && b.dag.jobs[j].n == |original|
  }

  ghost predicate Inv(b: State, j: D.JobId, original: seq<int>) {
    && DagOk(b, j, original) && SortOk(b, original)
    && (if b.dag.jobs[j].calls == [] then b.stageOf == map[] && b.taskOf == map[] && M.Init(b.sort, original)
        else LinksOk(b, j))
  }

  lemma InitInv(b: State, j: D.JobId, original: seq<int>, s0: D.State, es: seq<D.Event>)
    requires Init(b, j, original, s0, es)
    ensures Inv(b, j, original)
  {
    T.InvInit(s0);
    T.InvRun(s0, es);
    S.AcceptedAsOne(D.Final(s0, es), j);
    T.InvStep(D.Final(s0, es), D.Submit(D.SubmitPush(j)));
    M.InitInv(b.sort, original);
  }

  // ---------------------------------------------------------------- scheduler events

  /** The event neither ends stage id nor runs task t's function in place. */
  predicate Spares(d: D.State, e: D.Event, id: D.StageId, t: D.TaskId)
    requires D.Enabled(d, e)
  {
    J.Live(D.Apply(d, e), id) && !(e.Stack? && e.f == D.RunRejected(t))
  }

  lemma BoundKept(d: D.State, e: D.Event, id: D.StageId, t: D.TaskId, j: D.JobId)
    requires I.Inv(d) && D.Enabled(d, e) && Bound(d, id, t, j) && Spares(d, e, id, t)
    ensures Bound(D.Apply(d, e), id, t, j)
    ensures forall p :: ParentIs(d, t, p) ==> ParentIs(D.Apply(d, e), t, p)
  {
    J.StageKept(d, e, id, j);
    K.TaskKept(d, e, id, t);
    K.LiveTask(d, id, t);
    K.ParentKept(d, e, t);
  }

  /** A function run in place is one of the job of the worker that runs it. */
  lemma RejectedJob(d: D.State, w: D.WorkerId, t: D.TaskId)
    requires I.Inv(d) && D.CanRunRejected(d, w, t)
    ensures t in d.tasks && d.tasks[t].job == D.JobOf(d, w)
  {
    assert t in d.tasks && I.TreeOk(d, t);
    R.ListedAtTop(d, w, t);
  }

  lemma JobOfBound(d: D.State, id: D.StageId, t: D.TaskId, j: D.JobId)
    requires Bound(d, id, t, j)
    ensures t in d.tasks && d.tasks[t].job == j
  {
  }

  lemma SchedulerSpares(b: State, j: D.JobId, e: D.Event, k: M.Id)
    requires I.Inv(b.dag) && D.Enabled(b.dag, e) && !ByTheSort(b, j, e) && k in b.sort.calls
    requires !Finished(b.sort, k) && Linked(b, j, k)
    ensures Spares(b.dag, e, b.stageOf[k], b.taskOf[k])
  {
    var id, t := b.stageOf[k], b.taskOf[k];
    JobOfBound(b.dag, id, t, j);
    if !J.Live(D.Apply(b.dag, e), id) {
      J.StageEnds(b.dag, e, id, j);
      assert e.f.Return? ==> Executes(b, D.Top(b.dag, e.w), k);
    }
    if e.Stack? && e.f == D.RunRejected(t) { RejectedJob(b.dag, e.w, t); }
  }

  lemma LinksKept(b: State, j: D.JobId, e: D.Event)
    requires I.Inv(b.dag) && D.Enabled(b.dag, e) && LinksOk(b, j)
    requires forall k :: k in b.sort.calls && !Finished(b.sort, k) ==>
               k in b.stageOf && k in b.taskOf && Spares(b.dag, e, b.stageOf[k], b.taskOf[k])
    ensures LinksOk(b.(dag := D.Apply(b.dag, e)), j)
  {
    var b' := b.(dag := D.Apply(b.dag, e));
    forall k | k in b.sort.calls ensures Linked(b', j, k) {
      assert Linked(b, j, k);
      if !Finished(b.sort, k) { BoundKept(b.dag, e, b.stageOf[k], b.taskOf[k], j); }
    }
    forall p, k | p in b.sort.calls && k in b.sort.calls ensures Attached(b', p, k) {
      assert Linked(b, j, k) && Attached(b, p, k);
      if !Finished(b.sort, k) { BoundKept(b.dag, e, b.stageOf[k], b.taskOf[k], j); }
    }
  }

  lemma SchedulerInv(b: State, j: D.JobId, original: seq<int>, e: D.Event)
    requires Inv(b, j, original) && Enabled(b, j, Scheduler(e))
    ensures Inv(Apply(b, j, Scheduler(e)), j, original)
  {
    T.InvStep(b.dag, e);
    S.OneChunkStep(b.dag, e, j);
    if b.dag.jobs[j].calls != [] {
      forall k | k in b.sort.calls && !Finished(b.sort, k)
        ensures k in b.stageOf && k in b.taskOf && Spares(b.dag, e, b.stageOf[k], b.taskOf[k])
      {
        assert Linked(b, j, k);
        SchedulerSpares(b, j, e, k);
      }
      LinksKept(b, j, e);
    }
  }

  // ---------------------------------------------------------------- the first call, and work within one call

  lemma CallBound(d: D.State, j: D.JobId, w: D.WorkerId)
    requires I.Refs(d) && D.CanSplitCall(d, w) && D.JobOf(d, w) == j
    ensures Bound(D.DoSplitCall(d, w), |d.stages|, d.workers[w].t, j)
  {
    assert I.WorkerOk(d, w);
  }

  lemma CallInv(b: State, j: D.JobId, original: seq<int>, w: D.WorkerId)
    requires Inv(b, j, original) && Enabled(b, j, Call(w))
    ensures Inv(Apply(b, j, Call(w)), j, original)
  {
    S.CallStep(b.dag, j, w);
    CallBound(b.dag, j, w);
    FirstLinks(Apply(b, j, Call(w)), j, original);
  }

  lemma FirstLinks(b: State, j: D.JobId, original: seq<int>)
    requires M.Init(b.sort, original) && 0 in b.stageOf && 0 in b.taskOf && Bound(b.dag, b.stageOf[0], b.taskOf[0], j)
    ensures LinksOk(b, j)
  {
  }

  lemma WorkLinks(b: State, j: D.JobId, w: D.WorkerId, m: M.Event)
    requires LinksOk(b, j) && Enabled(b, j, Work(w, m))
    ensures LinksOk(Apply(b, j, Work(w, m)), j)
  {
    var b' := Apply(b, j, Work(w, m));
    WorkShape(b.sort, m);
    forall k | k in b'.sort.calls ensures Linked(b', j, k) { assert Linked(b, j, k); }
    forall p, k | p in b'.sort.calls && k in b'.sort.calls ensures Attached(b', p, k) { assert Attached(b, p, k); }
  }

  lemma WorkShape(s: M.State, m: M.Event)
    requires M.Enabled(s, m) && !M.Forks(s, m) && !M.Joins(s, m)
    ensures M.Apply(s, m).calls.Keys == s.calls.Keys
    ensures forall k :: k in s.calls && Finished(s, k) ==> Finished(M.Apply(s, m), k)
    ensures forall p, k :: M.IsChild(M.Apply(s, m), p, k) ==> M.IsChild(s, p, k)
  {
  }

  lemma WorkInv(b: State, j: D.JobId, original: seq<int>, w: D.WorkerId, m: M.Event)
    requires Inv(b, j, original) && Enabled(b, j, Work(w, m))
    ensures Inv(Apply(b, j, Work(w, m)), j, original)
  {
    assert b.dag.jobs[j].calls != [];
    M.StepInv(b.sort, original, m);
    WorkLinks(b, j, w, m);
  }

  // ---------------------------------------------------------------- a fork

  lemma PushSpares(d: D.State, w: D.WorkerId, acc: set<D.TaskId>, id: D.StageId, t: D.TaskId)
    requires D.CanPush(d, w, acc) && J.Live(d, id)
    ensures Spares(d, D.Stack(w, D.PushBatch(acc)), id, t)
  {
  }

  /** What a fork finds in the scheduler. */
  lemma ForkBound(d: D.State, j: D.JobId, w: D.WorkerId, c: D.TaskId)
    requires I.Inv(d) && D.IsRunning(d, w) && D.Over(d, w) && D.JobOf(d, w) == j && D.Top(d, w).Offer?
    requires c in D.TopBatch(d, w) && c in d.tasks && d.tasks[c].fn.Code?
    ensures Bound(d, d.tasks[c].fn.id, c, j) && ParentIs(d, c, d.workers[w].t)
  {
    R.ListedAtTop(d, w, c);
    assert I.TreeOk(d, c) && I.Registered(d, c, d.tasks[c].fn.id);
  }

  /** The continuation is registered in the task that forks. */
  lemma ContinuationBound(d: D.State, j: D.JobId, w: D.WorkerId)
    requires I.Inv(d) && D.IsRunning(d, w) && D.JobOf(d, w) == j && d.tasks[d.workers[w].t].fn.Code?
    ensures Bound(d, d.tasks[d.workers[w].t].fn.id, d.workers[w].t, j)
  {
    assert I.WorkerOk(d, w) && I.Registered(d, d.workers[w].t, d.tasks[d.workers[w].t].fn.id);
  }

  /** The worker that executes a call runs that call's task. */
  lemma ExecutorsTask(d: D.State, j: D.JobId, w: D.WorkerId, id: D.StageId, t: D.TaskId)
    requires I.Inv(d) && D.Over(d, w) && D.Below(d, w) == D.User(id) && Bound(d, id, t, j)
    ensures d.workers[w].t == t && D.JobOf(d, w) == j
  {
    assert I.OnStack(d, w, D.TopIndex(d, w) - 1, id);
  }

  lemma ForkShape(s: M.State, m: M.Event)
    requires M.Forks(s, m)
    ensures M.Apply(s, m).calls.Keys == s.calls.Keys + {m.l, m.r} && m.l !in s.calls && m.r !in s.calls && m.l != m.r
    ensures forall k :: k in s.calls && k != m.id ==> M.Apply(s, m).calls[k] == s.calls[k]
    ensures !Finished(s, m.id) && m.id in s.calls && !s.calls[m.id].pc.Forked?
    ensures forall k :: M.IsChild(M.Apply(s, m), m.id, k) <==> k == m.l || k == m.r
    ensures forall k :: !M.IsChild(M.Apply(s, m), m.l, k) && !M.IsChild(M.Apply(s, m), m.r, k)
  {
  }

  /** Nobody's child is one of the new calls, but the forking call's. */
  lemma NewChildren(s: M.State, original: seq<int>, m: M.Event, p: M.Id)
    requires M.Inv(s, original) && M.Forks(s, m) && p in s.calls && p != m.id
    ensures !M.IsChild(M.Apply(s, m), p, m.l) && !M.IsChild(M.Apply(s, m), p, m.r)
  {
    assert M.CallOk(s, original, p);
  }

  /** The continuation and the children, after the push. */
  lemma NewBounds(d: D.State, j: D.JobId, w: D.WorkerId, l: D.TaskId, r: D.TaskId)
    requires I.Inv(d) && D.CanPush(d, w, {l, r}) && D.TopBatch(d, w) == {l, r} && l in d.tasks && r in d.tasks
    requires D.JobOf(d, w) == j && d.tasks[d.workers[w].t].fn.Code? && d.tasks[l].fn.Code? && d.tasks[r].fn.Code?
    ensures var d', t := D.DoPush(d, w, {l, r}), d.workers[w].t;
            && Bound(d', d.tasks[t].fn.id, t, j) && Bound(d', d.tasks[l].fn.id, l, j) && Bound(d', d.tasks[r].fn.id, r, j)
            && ParentIs(d', l, t) && ParentIs(d', r, t)
  {
    var t := d.workers[w].t;
    ContinuationBound(d, j, w);
    ForkBound(d, j, w, l);
    ForkBound(d, j, w, r);
    KeptByPush(d, j, w, {l, r}, d.tasks[t].fn.id, t);
    KeptByPush(d, j, w, {l, r}, d.tasks[l].fn.id, l);
    KeptByPush(d, j, w, {l, r}, d.tasks[r].fn.id, r);
  }

  /** All that a fork finds, and leaves on the scheduler's side. */
  ghost predicate ForkFacts(b: State, j: D.JobId, w: D.WorkerId, m: M.Event, l: D.TaskId, r: D.TaskId)
    requires Enabled(b, j, Fork(w, m, l, r))
  {
    var d, d', t := b.dag, D.DoPush(b.dag, w, {l, r}), b.dag.workers[w].t;
    && m.id in b.taskOf && b.taskOf[m.id] == t && Keeps(d, d', j)
    && Bound(d', d.tasks[t].fn.id, t, j) && Bound(d', d.tasks[l].fn.id, l, j) && Bound(d', d.tasks[r].fn.id, r, j)
    && ParentIs(d', l, t) && ParentIs(d', r, t)
    && (forall p :: p in b.sort.calls && p != m.id ==>
          !M.IsChild(M.Apply(b.sort, m), p, m.l) && !M.IsChild(M.Apply(b.sort, m), p, m.r))
  }

  lemma ForkFactsHold(b: State, j: D.JobId, original: seq<int>, w: D.WorkerId, m: M.Event, l: D.TaskId, r: D.TaskId)
    requires I.Inv(b.dag) && M.Inv(b.sort, original) && LinksOk(b, j) && Enabled(b, j, Fork(w, m, l, r))
    ensures ForkFacts(b, j, w, m, l, r)
  {
    ForkShape(b.sort, m);
    assert Linked(b, j, m.id);
    ExecutorsTask(b.dag, j, w, b.stageOf[m.id], b.taskOf[m.id]);
    NewBounds(b.dag, j, w, l, r);
    PushKeeps(b.dag, j, w, {l, r});
    forall p | p in b.sort.calls && p != m.id
      ensures !M.IsChild(M.Apply(b.sort, m), p, m.l) && !M.IsChild(M.Apply(b.sort, m), p, m.r)
    {
      NewChildren(b.sort, original, m, p);
    }
  }

  lemma ForkLinks(b: State, j: D.JobId, w: D.WorkerId, m: M.Event, l: D.TaskId, r: D.TaskId)
    requires LinksOk(b, j) && Enabled(b, j, Fork(w, m, l, r)) && ForkFacts(b, j, w, m, l, r)
    ensures LinksOk(Apply(b, j, Fork(w, m, l, r)), j)
  {
    var b' := Apply(b, j, Fork(w, m, l, r));
    ForkShape(b.sort, m);
    forall k | k in b'.sort.calls ensures Linked(b', j, k) {
      if k in b.sort.calls && k != m.id { assert Linked(b, j, k); }
    }
    forall p, k | p in b'.sort.calls && k in b'.sort.calls ensures Attached(b', p, k) {
      if p in b.sort.calls && p != m.id && k in b.sort.calls {
        assert Linked(b, j, k) && Attached(b, p, k);
        ForkKeepsAttached(b, j, w, m, l, r, p, k);
      }
    }
  }

  lemma KeptByPush(d: D.State, j: D.JobId, w: D.WorkerId, acc: set<D.TaskId>, id: D.StageId, t: D.TaskId)
    requires I.Inv(d) && D.CanPush(d, w, acc) && Bound(d, id, t, j)
    ensures Bound(D.DoPush(d, w, acc), id, t, j)
    ensures forall p :: ParentIs(d, t, p) ==> ParentIs(D.DoPush(d, w, acc), t, p)
  {
    PushSpares(d, w, acc, id, t);
    BoundKept(d, D.Stack(w, D.PushBatch(acc)), id, t, j);
  }

  /** What was bound stays bound, with the same parents. */
  ghost predicate Keeps(d: D.State, d': D.State, j: D.JobId) {
    && (forall id, t :: Bound(d, id, t, j) ==> Bound(d', id, t, j))
    && (forall id, t, p :: Bound(d, id, t, j) && ParentIs(d, t, p) ==> ParentIs(d', t, p))
  }

  lemma PushKeeps(d: D.State, j: D.JobId, w: D.WorkerId, acc: set<D.TaskId>)
    requires I.Inv(d) && D.CanPush(d, w, acc)
    ensures Keeps(d, D.DoPush(d, w, acc), j)
  {
    forall id, t | Bound(d, id, t, j)
      ensures Bound(D.DoPush(d, w, acc), id, t, j) && forall p :: ParentIs(d, t, p) ==> ParentIs(D.DoPush(d, w, acc), t, p)
    {
      KeptByPush(d, j, w, acc, id, t);
    }
  }

  lemma ForkKeepsAttached(b: State, j: D.JobId, w: D.WorkerId, m: M.Event, l: D.TaskId, r: D.TaskId, p: M.Id, k: M.Id)
    requires Enabled(b, j, Fork(w, m, l, r)) && Keeps(b.dag, D.DoPush(b.dag, w, {l, r}), j)
    requires p in b.sort.calls && p != m.id && k in b.sort.calls && Linked(b, j, k) && Attached(b, p, k)
    ensures Attached(Apply(b, j, Fork(w, m, l, r)), p, k)
  {
    ForkShape(b.sort, m);
  }

  lemma ForkInv(b: State, j: D.JobId, original: seq<int>, w: D.WorkerId, m: M.Event, l: D.TaskId, r: D.TaskId)
    requires Inv(b, j, original) && Enabled(b, j, Fork(w, m, l, r))
    ensures Inv(Apply(b, j, Fork(w, m, l, r)), j, original)
  {
    assert b.dag.jobs[j].calls != [];
    ForkDag(b.dag, j, w, {l, r});
    M.StepInv(b.sort, original, m);
    ForkFactsHold(b, j, original, w, m, l, r);
    ForkLinks(b, j, w, m, l, r);
  }

  lemma ForkDag(d: D.State, j: D.JobId, w: D.WorkerId, acc: set<D.TaskId>)
    requires I.Inv(d) && S.OneChunk(d, j) && D.CanPush(d, w, acc)
    ensures I.Inv(D.DoPush(d, w, acc)) && S.OneChunk(D.DoPush(d, w, acc), j)
    ensures D.DoPush(d, w, acc).jobs[j].n == d.jobs[j].n && D.DoPush(d, w, acc).jobs[j].calls == d.jobs[j].calls
  {
    T.InvStep(d, D.Stack(w, D.PushBatch(acc)));
    S.OneChunkStep(d, D.Stack(w, D.PushBatch(acc)), j);
  }

  // ---------------------------------------------------------------- a continuation starts

  /** A loop event spares every live stage. */
  lemma LoopSpares(d: D.State, e: D.Event, id: D.StageId, t: D.TaskId, j: D.JobId)
    requires I.Inv(d) && D.Enabled(d, e) && e.Loop? && Bound(d, id, t, j)
    ensures Spares(d, e, id, t)
  {
    if !J.Live(D.Apply(d, e), id) { J.StageEnds(d, e, id, j); }
  }

  /** What StartsAlone is for: when the scheduler starts the continuation of a call, the calls on both
      halves, and their continuations, are over. */
  lemma HalvesAreOver(b: State, j: D.JobId, original: seq<int>, e: D.Event, m: M.Event)
    requires I.Inv(b.dag) && M.Inv(b.sort, original) && LinksOk(b, j) && Enabled(b, j, Continue(e, m))
    ensures M.Enabled(b.sort, m) && M.Joins(b.sort, m)
  {
    var c := b.sort.calls[m.id];
    assert M.CallOk(b.sort, original, m.id);
    HalfIsOver(b, j, e, m, c.pc.l);
    HalfIsOver(b, j, e, m, c.pc.r);
  }

  lemma HalfIsOver(b: State, j: D.JobId, e: D.Event, m: M.Event, k: M.Id)
    requires I.Inv(b.dag) && LinksOk(b, j) && Enabled(b, j, Continue(e, m))
    requires M.IsChild(b.sort, m.id, k) && k in b.sort.calls
    ensures Finished(b.sort, k)
  {
    assert Linked(b, j, k) && Attached(b, m.id, k);
    if !Finished(b.sort, k) {
      K.ChildrenAreOver(b.dag, e, b.taskOf[m.id], b.stageOf[k], b.taskOf[k]);
    }
  }

  lemma JoinShape(s: M.State, m: M.Event)
    requires M.Enabled(s, m) && M.Joins(s, m)
    ensures M.Apply(s, m).calls.Keys == s.calls.Keys
    ensures forall k :: k in s.calls && Finished(s, k) ==> Finished(M.Apply(s, m), k)
    ensures forall p, k :: M.IsChild(M.Apply(s, m), p, k) ==> M.IsChild(s, p, k)
  {
  }

  lemma ContinueInv(b: State, j: D.JobId, original: seq<int>, e: D.Event, m: M.Event)
    requires Inv(b, j, original) && Enabled(b, j, Continue(e, m))
    ensures Inv(Apply(b, j, Continue(e, m)), j, original)
  {
    assert b.dag.jobs[j].calls != [];
    HalvesAreOver(b, j, original, e, m);
    T.InvStep(b.dag, e);
    S.OneChunkStep(b.dag, e, j);
    M.StepInv(b.sort, original, m);
    ContinueLinks(b, j, e, m);
  }

  lemma ContinueLinks(b: State, j: D.JobId, e: D.Event, m: M.Event)
    requires I.Inv(b.dag) && LinksOk(b, j) && Enabled(b, j, Continue(e, m)) && M.Enabled(b.sort, m) && M.Joins(b.sort, m)
    ensures LinksOk(Apply(b, j, Continue(e, m)), j)
  {
    var b1, b' := b.(dag := D.Apply(b.dag, e)), Apply(b, j, Continue(e, m));
    forall k | k in b.sort.calls && !Finished(b.sort, k)
      ensures k in b.stageOf && k in b.taskOf && Spares(b.dag, e, b.stageOf[k], b.taskOf[k])
    {
      assert Linked(b, j, k);
      LoopSpares(b.dag, e, b.stageOf[k], b.taskOf[k], j);
    }
    LinksKept(b, j, e);
    JoinShape(b.sort, m);
    forall k | k in b'.sort.calls ensures Linked(b', j, k) { assert Linked(b1, j, k); }
    forall p, k | p in b'.sort.calls && k in b'.sort.calls ensures Attached(b', p, k) { assert Attached(b1, p, k); }
  }

  // ---------------------------------------------------------------- whole runs

  lemma StepInv(b: State, j: D.JobId, original: seq<int>, e: Event)
    requires Inv(b, j, original) && Enabled(b, j, e)
    ensures Inv(Apply(b, j, e), j, original)
  {
    match e
    case Scheduler(e) => SchedulerInv(b, j, original, e);
    case Call(w) => CallInv(b, j, original, w);
    case Work(w, m) => WorkInv(b, j, original, w, m);
    case Fork(w, m, l, r) => ForkInv(b, j, original, w, m, l, r);
    case Continue(e, m) => ContinueInv(b, j, original, e, m);
  }

  lemma {:induction false} InvRun(b: State, j: D.JobId, original: seq<int>, run: seq<Event>)
    requires Inv(b, j, original) && IsRun(b, j, run)
    ensures Inv(Final(b, j, run), j, original)
    decreases |run|
  {
    if run != [] {
      StepInv(b, j, original, run[0]);
      InvRun(Apply(b, j, run[0]), j, original, run[1..]);
    }
  }

  /** No event of any run ever starts a merge too early: whenever the scheduler enters the
      continuation of a call, both of its halves are over. */
  lemma MergesInTime(b: State, j: D.JobId, original: seq<int>, s0: D.State, es: seq<D.Event>, run: seq<Event>, e: D.Event, m: M.Event)
    requires Init(b, j, original, s0, es) && IsRun(b, j, run) && Enabled(Final(b, j, run), j, Continue(e, m))
    ensures var s := Final(b, j, run).sort;
            && M.Enabled(s, m) && s.calls[m.id].pc.Forked?
            && s.calls[s.calls[m.id].pc.l].pc.Over? && s.calls[s.calls[m.id].pc.r].pc.Over?
  {
    InitInv(b, j, original, s0, es);
    InvRun(b, j, original, run);
    var c := Final(b, j, run);
    assert c.dag.jobs[j].calls != [];
    HalvesAreOver(c, j, original, e, m);
  }

  /** For every array, every schedule and any number of workers: when the job is DONE, the array is
      sorted, and is the very array that the sequential merge sort leaves. */
  lemma SameWhenDone(b: State, j: D.JobId, original: seq<int>, s0: D.State, es: seq<D.Event>, run: seq<Event>, sequential: seq<int>)
    requires Init(b, j, original, s0, es) && IsRun(b, j, run)
    requires SortedRange(sequential, 0, |sequential|) && Rearranged(original, sequential, 0, |original|)
    ensures j in Final(b, j, run).dag.jobs
    ensures Final(b, j, run).dag.jobs[j].done ==> Final(b, j, run).sort.arr == sequential && Sorted(Final(b, j, run).sort.arr)
  {
    InitInv(b, j, original, s0, es);
    InvRun(b, j, original, run);
    var c := Final(b, j, run);
    if c.dag.jobs[j].done {
      S.SingleCall(c.dag, j);
      RootIsOver(c, j, original);
      M.OverMeansSame(c.sort, original, sequential);
    }
  }

  lemma RootIsOver(b: State, j: D.JobId, original: seq<int>)
    requires Inv(b, j, original) && b.dag.jobs[j].done && b.dag.jobs[j].calls != []
    ensures 0 in b.sort.calls && b.sort.calls[0].pc.Over?
  {
    assert Linked(b, j, 0);
    if 0 in b.stageOf { J.NoStageLeft(b.dag, j, b.stageOf[0]); }
  }
}
