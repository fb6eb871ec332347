/**
 The concurrent merge sort as a job of the scheduler is totally correct: for every schedule its steps are
 bounded, and where nothing is left but other clients' requests, and the pool is not exhausted, the job
 is DONE and the array is what the sequential merge sort leaves.
 */
module MergeSortJobEnds {
  import opened Basics
  import opened Sums
  import opened SortCost
  import D = TaskDag
  import I = DagInvariant
  import R = DagRefs
  import T = DagTheorems
  import H = DagOthers
  import O = DagOutcome
  import P = DagProgress
  import S = DagSingleChunk
  import M = MergeSort
  import E = MergeSortEnds
  import Merging
  import opened Sorting
  import opened MergeSortJob
  import opened MergeSortJobShape

  // ---------------------------------------------------------------- kinds of events

  /** A function of the job asks for its continuation, for a spawn or for a child of it. */
  predicate Asks(b: State, j: D.JobId, e: Event) {
    e.Scheduler? && e.e.Stack? && O.Asks(e.e.f) && D.IsRunning(b.dag, e.e.w) && D.JobOf(b.dag, e.e.w) == j
  }

  /** What clients other than the job ask for with the event. */
  function Request(b: State, j: D.JobId, e: Event): nat {
    if e.Scheduler? && !Asks(b, j, e) then P.Request(e.e) else 0
  }

  /** The event takes a step of a call or of its continuation. */
  predicate Sorts(e: Event) {
    e.Work? || e.Fork? || e.Continue?
  }

  // ---------------------------------------------------------------- the potential of both sides

  lemma SortFalls(b: State, j: D.JobId, original: seq<int>, e: Event)
    requires Inv(b, j, original) && E.Wide(b.sort) && Enabled(b, j, e)
    ensures E.Work(Apply(b, j, e).sort) + (if Sorts(e) then 1 else 0) <= E.Work(b.sort)
    ensures E.Wide(Apply(b, j, e).sort)
  {
    if e.Continue? { ContinueFalls(b, j, original, e.e, e.m); }
    else if Sorts(e) { CallFalls(b, j, original, e); }
  }

  lemma CallFalls(b: State, j: D.JobId, original: seq<int>, e: Event)
    requires M.Inv(b.sort, original) && E.Wide(b.sort) && Enabled(b, j, e) && (e.Work? || e.Fork?)
    ensures E.Work(Apply(b, j, e).sort) < E.Work(b.sort) && E.Wide(Apply(b, j, e).sort)
  {
    SortStepFalls(b.sort, original, e.m);
  }

  lemma ContinueFalls(b: State, j: D.JobId, original: seq<int>, d: D.Event, m: M.Event)
    requires Inv(b, j, original) && E.Wide(b.sort) && Enabled(b, j, Continue(d, m))
    ensures E.Work(Apply(b, j, Continue(d, m)).sort) < E.Work(b.sort) && E.Wide(Apply(b, j, Continue(d, m)).sort)
  {
    StartedBefore(b, j, original, m);
    HalvesAreOver(b, j, original, d, m);
    SortStepFalls(b.sort, original, m);
  }

  lemma SortStepFalls(s: M.State, original: seq<int>, m: M.Event)
    requires M.Inv(s, original) && E.Wide(s) && M.Enabled(s, m)
    ensures E.Work(M.Apply(s, m)) < E.Work(s) && E.Wide(M.Apply(s, m))
  {
    E.StepFalls(s, original, m);
    E.StepWide(s, m);
  }

  /** Before the splitter's call no call of the sort has forked. */
  lemma StartedBefore(b: State, j: D.JobId, original: seq<int>, m: M.Event)
    requires Inv(b, j, original) && m.id in b.stageOf
    ensures b.dag.jobs[j].calls != []
  {
  }

  lemma DagFalls(b: State, j: D.JobId, e: Event)
    requires I.Inv(b.dag) && P.Offers(b.dag) && Enabled(b, j, e)
    ensures P.Offers(Apply(b, j, e).dag)
    ensures P.Potential(Apply(b, j, e).dag) <= P.Potential(b.dag) + Request(b, j, e) + (if Asks(b, j, e) then 10 else 0)
    ensures Request(b, j, e) == 0 && !Asks(b, j, e) && !e.Work? ==> P.Potential(Apply(b, j, e).dag) < P.Potential(b.dag)
  {
    if !e.Work? {
      var d := match e
               case Scheduler(d) => d
               case Call(w) => D.Stack(w, D.SplitCall)
               case Fork(w, _, l, r) => D.Stack(w, D.PushBatch({l, r}))
               case Continue(d, _) => d;
      P.StepPotential(b.dag, d);
      P.StepOffers(b.dag, d);
    }
  }

  /** One sort step is worth what the four requests that lead to a fork can cost. */
  ghost function Potential(b: State): nat {
    P.Potential(b.dag) + 41 * E.Work(b.sort)
  }

  lemma StepPotential(b: State, j: D.JobId, original: seq<int>, e: Event)
    requires Inv(b, j, original) && E.Wide(b.sort) && P.Offers(b.dag) && Enabled(b, j, e)
    ensures E.Wide(Apply(b, j, e).sort) && P.Offers(Apply(b, j, e).dag)
    ensures Potential(Apply(b, j, e)) + (if e.Fork? then 41 else 0) <=
              Potential(b) + Request(b, j, e) + (if Asks(b, j, e) then 10 else 0)
    ensures Request(b, j, e) == 0 && !Asks(b, j, e) ==>
              Potential(Apply(b, j, e)) + (if e.Fork? then 40 else 0) < Potential(b)
  {
    SortFalls(b, j, original, e);
    DagFalls(b, j, e);
  }

  // ---------------------------------------------------------------- how far a fork has come

  /** Of the four requests that lead to a fork (the continuation, the spawn and its two children), how
      many the worker has made. */
  function Made(b: State, j: D.JobId, w: D.WorkerId): nat {
    if !D.IsRunning(b.dag, w) || D.JobOf(b.dag, w) != j || !BottomAbout(b, w) then 0
    else
      var f := b.dag.workers[w].frames;
      if |f| == 1 then (if b.dag.tasks[b.dag.workers[w].t].fn.Code? then 1 else 0)
      else if f[1].New? then 2 + (if |D.TopBatch(b.dag, w)| <= 2 then |D.TopBatch(b.dag, w)| else 2)
      else 4
  }

  predicate BottomAbout(b: State, w: D.WorkerId)
    requires D.IsRunning(b.dag, w)
  {
    AboutToFork(b, Bottom(b.dag, w))
  }

  ghost function AllMade(b: State, j: D.JobId): map<nat, nat> {
    map w | w in b.dag.workers :: Made(b, j, w)
  }

  /** Another thread's event leaves it alone, if the sort's side does. */
  lemma OthersKeepMade(b: State, b': State, j: D.JobId, e: D.Event, w: D.WorkerId)
    requires I.Refs(b.dag) && D.Enabled(b.dag, e) && (e.Submit? || e.w != w) && w in b.dag.workers && b'.dag == D.Apply(b.dag, e)
    requires D.IsRunning(b.dag, w) ==> (AboutToFork(b', Bottom(b.dag, w)) <==> AboutToFork(b, Bottom(b.dag, w)))
    ensures Made(b', j, w) == Made(b, j, w)
  {
    H.WorkerStays(b.dag, e, w);
    T.SameDomains(b.dag, e);
    if D.IsRunning(b.dag, w) {
      H.HeldSame(b.dag, e, w);
      H.BatchSame(b.dag, e, w);
    }
  }

  /** The function of a call that is about to fork does not return. */
  lemma NotThrough(b: State, f: D.Frame)
    requires AboutToFork(b, f)
    ensures !Through(b, f)
  {
    var a :| a in b.stageOf && Executes(b, f, a) && b.sort.calls[a].pc.Ready?
             && b.sort.calls[a].hi - b.sort.calls[a].lo > Merging.BASE_CASE_THRESHOLD;
  }

  lemma BeginMakes(b: State, j: D.JobId, w: D.WorkerId)
    requires I.Refs(b.dag) && D.AtUser(b.dag, w) && D.JobOf(b.dag, w) == j && StackOk(b, w) && AboutToFork(b, D.Top(b.dag, w))
    ensures Made(b.(dag := D.DoSpawnBegin(b.dag, w)), j, w) == 2
  {
    var b' := b.(dag := D.DoSpawnBegin(b.dag, w));
    forall t | t in b.dag.tasks ensures !H.InFrame(b.dag.tasks[t].place, w, 1) { assert I.PlaceOk(b.dag, t); }
    assert D.TopBatch(b'.dag, w) == {};
    assert b'.dag.workers[w].frames == [D.Top(b.dag, w), D.New];
    SameSort(b, b', D.Top(b.dag, w));
  }

  lemma NewMakes(b: State, j: D.JobId, w: D.WorkerId, r: D.TaskId)
    requires I.Refs(b.dag) && D.CanSpawnNew(b.dag, w, r) && D.JobOf(b.dag, w) == j && StackOk(b, w)
    requires AboutToFork(b, D.Below(b.dag, w)) && |D.TopBatch(b.dag, w)| < 2 && b.dag.tasks[b.dag.workers[w].t].fn.Code?
    ensures Made(b.(dag := D.DoSpawnNew(b.dag, w, r)), j, w) == Made(b, j, w) + 1
  {
    var b' := b.(dag := D.DoSpawnNew(b.dag, w, r));
    NewShape(b, w, r);
    assert I.WorkerOk(b.dag, w);
    assert b'.dag.workers[w].frames == b.dag.workers[w].frames;
    SameSort(b, b', D.Below(b.dag, w));
  }

  lemma CountMakes(b: State, j: D.JobId, w: D.WorkerId)
    requires D.CanCount(b.dag, w) && D.JobOf(b.dag, w) == j && StackOk(b, w) && |D.TopBatch(b.dag, w)| == 2
    ensures Made(b.(dag := D.DoCount(b.dag, w)), j, w) >= Made(b, j, w)
  {
    var b' := b.(dag := D.DoCount(b.dag, w));
    CountShape(b, w);
    assert b'.dag.workers[w].frames == [b.dag.workers[w].frames[0], D.Offer];
    SameSort(b, b', Bottom(b.dag, w));
  }

  lemma ContinuationMakes(b: State, j: D.JobId, w: D.WorkerId)
    requires D.AtUser(b.dag, w) && D.JobOf(b.dag, w) == j && StackOk(b, w) && AboutToFork(b, D.Top(b.dag, w))
    requires b.dag.tasks[b.dag.workers[w].t].fn.Null?
    ensures Made(b.(dag := D.DoSetContinuation(b.dag, w)), j, w) == Made(b, j, w) + 1
  {
    SameSort(b, b.(dag := D.DoSetContinuation(b.dag, w)), Bottom(b.dag, w));
  }

  /** What the job's own worker does next brings its fork forward or leaves it. */
  lemma OwnStackMakes(b: State, j: D.JobId, w: D.WorkerId, f: D.StackEvent)
    requires I.Refs(b.dag) && D.StackEnabled(b.dag, w, f) && D.JobOf(b.dag, w) == j && StackOk(b, w)
    requires !ByTheSort(b, j, D.Stack(w, f)) && !f.SplitInline? && !f.SplitNew? && !f.SplitFree?
    ensures Made(b.(dag := D.StackApply(b.dag, w, f)), j, w) >= Made(b, j, w) + (if O.Asks(f) then 1 else 0)
  {
    match f
    case SetContinuation => ContinuationMakes(b, j, w);
    case SpawnBegin => BeginMakes(b, j, w);
    case SpawnNew(r) => NewMakes(b, j, w, r);
    case CountBatch => CountMakes(b, j, w);
    case Return => if AboutToFork(b, D.Top(b.dag, w)) { NotThrough(b, D.Top(b.dag, w)); }
    case _ =>
  }

  lemma SchedulerMakes(b: State, j: D.JobId, e: D.Event, w: D.WorkerId)
    requires I.Inv(b.dag) && S.OneChunk(b.dag, j) && Enabled(b, j, Scheduler(e)) && w in b.dag.workers && ShapeOk(b, j, w)
    ensures Made(Apply(b, j, Scheduler(e)), j, w) >= Made(b, j, w) + (if Asks(b, j, Scheduler(e)) && e.w == w then 1 else 0)
  {
    if e.Submit? || e.w != w {
      if D.IsRunning(b.dag, w) { SameSort(b, Apply(b, j, Scheduler(e)), Bottom(b.dag, w)); }
      OthersKeepMade(b, Apply(b, j, Scheduler(e)), j, e, w);
    } else if e.Stack? && D.JobOf(b.dag, w) == j {
      S.NoRightPart(b.dag, j, w, e.f);
      OwnStackMakes(b, j, w, e.f);
    }
  }

  lemma WorkMakes(b: State, j: D.JobId, v: D.WorkerId, m: M.Event, w: D.WorkerId)
    requires Enabled(b, j, Work(v, m)) && w in b.dag.workers
    ensures Made(Apply(b, j, Work(v, m)), j, w) >= Made(b, j, w)
  {
    if D.IsRunning(b.dag, w) && AboutToFork(b, Bottom(b.dag, w)) { WorkStaysAbout(b, j, v, m, Bottom(b.dag, w)); }
  }

  lemma WorkStaysAbout(b: State, j: D.JobId, v: D.WorkerId, m: M.Event, f: D.Frame)
    requires Enabled(b, j, Work(v, m)) && AboutToFork(b, f)
    ensures AboutToFork(Apply(b, j, Work(v, m)), f)
  {
    var a :| a in b.stageOf && Executes(b, f, a) && b.sort.calls[a].pc.Ready?
             && b.sort.calls[a].hi - b.sort.calls[a].lo > Merging.BASE_CASE_THRESHOLD;
    WorkReady(b.sort, m);
    assert Executes(Apply(b, j, Work(v, m)), f, a);
  }

  lemma CallMakes(b: State, j: D.JobId, original: seq<int>, v: D.WorkerId, w: D.WorkerId)
    requires Inv(b, j, original) && Enabled(b, j, Call(v)) && w in b.dag.workers
    ensures Made(b, j, w) == 0
  {
    S.CallStep(b.dag, j, v);
  }

  lemma ContinueMakes(b: State, j: D.JobId, original: seq<int>, e: D.Event, m: M.Event, w: D.WorkerId)
    requires Inv(b, j, original) && Enabled(b, j, Continue(e, m)) && w in b.dag.workers
    ensures Made(Apply(b, j, Continue(e, m)), j, w) >= Made(b, j, w)
  {
    if e.w != w {
      StartedBefore(b, j, original, m);
      HalvesAreOver(b, j, original, e, m);
      JoinReady(b.sort, m);
      if D.IsRunning(b.dag, w) { AboutSame(b, Apply(b, j, Continue(e, m)), Bottom(b.dag, w), {}); }
      OthersKeepMade(b, Apply(b, j, Continue(e, m)), j, e, w);
    }
  }

  lemma ForkMakes(b: State, j: D.JobId, v: D.WorkerId, m: M.Event, l: D.TaskId, r: D.TaskId, w: D.WorkerId)
    requires I.Inv(b.dag) && Enabled(b, j, Fork(v, m, l, r)) && w in b.dag.workers && v != w
    ensures Made(Apply(b, j, Fork(v, m, l, r)), j, w) >= Made(b, j, w)
  {
    if D.IsRunning(b.dag, w) {
      ForkElsewhere(b, j, v, m, l, r, w);
      AboutAfterFork(b, j, v, m, l, r, Bottom(b.dag, w));
    }
    OthersKeepMade(b, Apply(b, j, Fork(v, m, l, r)), j, D.Stack(v, D.PushBatch({l, r})), w);
  }

  lemma WorkerMakes(b: State, j: D.JobId, original: seq<int>, e: Event, w: D.WorkerId)
    requires Inv(b, j, original) && Enabled(b, j, e) && w in b.dag.workers && ShapeOk(b, j, w)
    ensures Made(Apply(b, j, e), j, w) + (if e.Fork? && e.w == w then 4 else 0)
         >= Made(b, j, w) + (if Asks(b, j, e) && e.e.w == w then 1 else 0)
  {
    match e
    case Scheduler(d) => SchedulerMakes(b, j, d, w);
    case Call(v) => CallMakes(b, j, original, v, w);
    case Work(v, m) => WorkMakes(b, j, v, m, w);
    case Fork(v, m, l, r) => if v != w { ForkMakes(b, j, v, m, l, r, w); }
    case Continue(d, m) => ContinueMakes(b, j, original, d, m, w);
  }

  function ForkedBy(e: Event): Option<D.WorkerId> {
    if e.Fork? then Some(e.w) else None
  }

  function AskedBy(b: State, j: D.JobId, e: Event): Option<D.WorkerId> {
    if Asks(b, j, e) then Some(e.e.w) else None
  }

  /** Every request brings the fork of its worker one step nearer, and a fork uses up four. */
  ghost predicate Forward(b: State, b': State, j: D.JobId, forked: Option<D.WorkerId>, asked: Option<D.WorkerId>) {
    forall w :: w in b.dag.workers ==>
      Made(b', j, w) + (if forked == Some(w) then 4 else 0) >= Made(b, j, w) + (if asked == Some(w) then 1 else 0)
  }

  lemma StepForward(b: State, j: D.JobId, original: seq<int>, e: Event)
    requires Inv(b, j, original) && Shapes(b, j) && Enabled(b, j, e)
    ensures Forward(b, Apply(b, j, e), j, ForkedBy(e), AskedBy(b, j, e))
  {
    forall w | w in b.dag.workers
      ensures Made(Apply(b, j, e), j, w) + (if ForkedBy(e) == Some(w) then 4 else 0)
           >= Made(b, j, w) + (if AskedBy(b, j, e) == Some(w) then 1 else 0)
    {
      WorkerMakes(b, j, original, e, w);
    }
  }

  lemma InWorkers(b: State, j: D.JobId, e: Event)
    requires Enabled(b, j, e)
    ensures ForkedBy(e).Some? ==> ForkedBy(e).value in b.dag.workers
    ensures AskedBy(b, j, e).Some? ==> AskedBy(b, j, e).value in b.dag.workers
    ensures ForkedBy(e).None? || AskedBy(b, j, e).None?
  {
  }

  lemma SumsForward(b: State, b': State, j: D.JobId, forked: Option<D.WorkerId>, asked: Option<D.WorkerId>)
    requires b'.dag.workers.Keys == b.dag.workers.Keys && (forked.None? || asked.None?)
    requires (forked.Some? ==> forked.value in b.dag.workers) && (asked.Some? ==> asked.value in b.dag.workers)
    requires Forward(b, b', j, forked, asked)
    ensures Sum(AllMade(b', j)) + (if forked.Some? then 4 else 0) >= Sum(AllMade(b, j)) + (if asked.Some? then 1 else 0)
  {
    MapsForward(AllMade(b, j), AllMade(b', j), forked, asked);
  }

  lemma StepMakes(b: State, j: D.JobId, original: seq<int>, e: Event)
    requires Inv(b, j, original) && Shapes(b, j) && Enabled(b, j, e) && Apply(b, j, e).dag.workers.Keys == b.dag.workers.Keys
    ensures Sum(AllMade(Apply(b, j, e), j)) + (if ForkedBy(e).Some? then 4 else 0)
         >= Sum(AllMade(b, j)) + (if AskedBy(b, j, e).Some? then 1 else 0)
  {
    StepForward(b, j, original, e);
    InWorkers(b, j, e);
    SumsForward(b, Apply(b, j, e), j, ForkedBy(e), AskedBy(b, j, e));
  }

  lemma MapsForward(f: map<nat, nat>, g: map<nat, nat>, forked: Option<nat>, asked: Option<nat>)
    requires g.Keys == f.Keys && (forked.None? || asked.None?) && (forked.Some? ==> forked.value in f && f[forked.value] <= 4)
    requires asked.Some? ==> asked.value in f && g[asked.value] >= f[asked.value] + 1
    requires forall w :: w in f && Some(w) != forked ==> f[w] <= g[w]
    ensures Sum(g) + (if forked.Some? then 4 else 0) >= Sum(f) + (if asked.Some? then 1 else 0)
  {
    if forked.Some? {
      var h: map<nat, nat> := f[forked.value := 0];
      SumChanged(f, h, forked.value);
      SumLower(g, h);
    } else if asked.Some? {
      SumFalls(g, f, asked.value);
    } else {
      SumLower(g, f);
    }
  }

  // ---------------------------------------------------------------- whole runs

  function Requests(b: State, j: D.JobId, run: seq<Event>): nat
    requires IsRun(b, j, run)
    decreases |run|
  {
    if run == [] then 0 else Request(b, j, run[0]) + Requests(Apply(b, j, run[0]), j, run[1..])
  }

  function Asked(b: State, j: D.JobId, run: seq<Event>): nat
    requires IsRun(b, j, run)
    decreases |run|
  {
    if run == [] then 0 else (if Asks(b, j, run[0]) then 1 else 0) + Asked(Apply(b, j, run[0]), j, run[1..])
  }

  function Forks(run: seq<Event>): nat
    decreases |run|
  {
    if run == [] then 0 else (if run[0].Fork? then 1 else 0) + Forks(run[1..])
  }

  function SortSteps(run: seq<Event>): nat
    decreases |run|
  {
    if run == [] then 0 else (if Sorts(run[0]) then 1 else 0) + SortSteps(run[1..])
  }

  /** The events of the run that nobody, the job's functions included, asked for. */
  function OwnSteps(b: State, j: D.JobId, run: seq<Event>): nat
    requires IsRun(b, j, run)
    decreases |run|
  {
    if run == [] then 0
    else (if Request(b, j, run[0]) == 0 && !Asks(b, j, run[0]) then 1 else 0) + OwnSteps(Apply(b, j, run[0]), j, run[1..])
  }

  /** All that is known of a reachable state. */
  ghost predicate Sound(b: State, j: D.JobId, original: seq<int>) {
    Inv(b, j, original) && Whole(b, j) && E.Wide(b.sort) && P.Offers(b.dag)
  }

  lemma StepSound(b: State, j: D.JobId, original: seq<int>, e: Event)
    requires Sound(b, j, original) && Enabled(b, j, e)
    ensures Sound(Apply(b, j, e), j, original)
  {
    StepInv(b, j, original, e);
    StepWhole(b, j, original, e);
    StepPotential(b, j, original, e);
  }

  lemma {:induction false} RunBound(b: State, j: D.JobId, original: seq<int>, run: seq<Event>)
    requires Sound(b, j, original) && IsRun(b, j, run)
    ensures Sound(Final(b, j, run), j, original) && Final(b, j, run).dag.workers.Keys == b.dag.workers.Keys
    ensures E.Work(Final(b, j, run).sort) + SortSteps(run) <= E.Work(b.sort)
    ensures Potential(Final(b, j, run)) + OwnSteps(b, j, run) + 40 * Forks(run) <= Potential(b) + Requests(b, j, run) + 10 * Asked(b, j, run)
    ensures Sum(AllMade(Final(b, j, run), j)) + 4 * Forks(run) >= Sum(AllMade(b, j)) + Asked(b, j, run)
    ensures Forks(run) <= SortSteps(run)
    decreases |run|
  {
    if run != [] {
      SortFalls(b, j, original, run[0]);
      StepPotential(b, j, original, run[0]);
      SameWorkers(b, j, original, run[0]);
      StepMakes(b, j, original, run[0]);
      StepSound(b, j, original, run[0]);
      RunBound(Apply(b, j, run[0]), j, original, run[1..]);
    }
  }

  lemma {:induction false} AllCounted(b: State, j: D.JobId, run: seq<Event>)
    requires IsRun(b, j, run) && Requests(b, j, run) == 0
    ensures |run| == OwnSteps(b, j, run) + Asked(b, j, run)
    decreases |run|
  {
    if run != [] { AllCounted(Apply(b, j, run[0]), j, run[1..]); }
  }

  lemma AtStart(b: State, j: D.JobId, original: seq<int>, s0: D.State, es: seq<D.Event>)
    requires Init(b, j, original, s0, es)
    ensures Sound(b, j, original) && E.Work(b.sort) == CallCost(|original|)
    ensures Potential(b) <= P.Requests(es) + 41 * CallCost(|original|)
  {
    InitInv(b, j, original, s0, es);
    InitWhole(b, j, original, s0, es);
    P.SubmittedPotential(s0, es, j);
    E.InitWork(b.sort, original);
  }

  lemma MadeBounded(b: State, j: D.JobId)
    ensures Sum(AllMade(b, j)) <= 4 * |b.dag.workers.Keys|
  {
    assert AllMade(b, j).Keys == b.dag.workers.Keys;
    SumBounded(AllMade(b, j), 4);
  }

  /** A bound for the steps of the sort, of the scheduler for it and of whatever was asked before. */
  function Bound(n: nat, es: seq<D.Event>, workers: nat): nat {
    P.Requests(es) + 41 * CallCost(n) + 40 * workers
  }

  /** For every array, every schedule and any number of workers, and whatever other clients ask for
      meanwhile: the steps are bounded, those of the sort by the size of the array alone. */
  lemma StepsBounded(b: State, j: D.JobId, original: seq<int>, s0: D.State, es: seq<D.Event>, run: seq<Event>)
    requires Init(b, j, original, s0, es) && IsRun(b, j, run)
    ensures SortSteps(run) <= 4 * |original| * |original| + 8 * |original| + 8
    ensures OwnSteps(b, j, run) <= Bound(|original|, es, |b.dag.workers.Keys|) + Requests(b, j, run)
    ensures Asked(b, j, run) <= 4 * SortSteps(run) + 4 * |b.dag.workers.Keys|
    ensures Requests(b, j, run) == 0 ==>
              |run| <= Bound(|original|, es, |b.dag.workers.Keys|) + 4 * SortSteps(run) + 4 * |b.dag.workers.Keys|
  {
    AtStart(b, j, original, s0, es);
    RunBound(b, j, original, run);
    MadeBounded(Final(b, j, run), j);
    if Requests(b, j, run) == 0 { AllCounted(b, j, run); }
  }

  // ---------------------------------------------------------------- and then the array is sorted

  /** A task whose client function runs has no function registered, or a continuation. */
  lemma RunningFn(d: D.State, w: D.WorkerId)
    requires I.Inv(d) && D.AtUser(d, w) && |d.workers[w].frames| == 1
    ensures d.tasks[d.workers[w].t].fn.Null? || d.tasks[d.workers[w].t].fn.Code?
  {
    var t := d.workers[w].t;
    assert I.WorkerOk(d, w) && I.PendOk(d, t) && I.NodeOk(d, t) && I.RootOk(d, t);
  }

  /** A call whose function runs has not forked. */
  lemma RunningCall(b: State, j: D.JobId, w: D.WorkerId, a: M.Id)
    requires I.Stages(b.dag) && ForkedWaits(b) && D.AtUser(b.dag, w) && Executes(b, D.Top(b.dag, w), a)
    ensures !b.sort.calls[a].pc.Forked?
  {
    assert I.OnStack(b.dag, w, D.TopIndex(b.dag, w), b.stageOf[a]);
  }

  lemma NextStep(s: M.State, original: seq<int>, a: M.Id) returns (m: M.Event)
    requires M.Inv(s, original) && a in s.calls
    ensures m.id == a && NewNames(s, m)
    ensures s.calls[a].pc.Forked? || s.calls[a].pc.Over? || s.calls[a].pc.Gone? || M.Enabled(s, m)
  {
    var l := NewName(s.calls.Keys);
    var r := NewName(s.calls.Keys + {l});
    M.NeverOutOfBounds(s, original, a, l, r);
    m := M.Event(a, l, r);
  }

  /** Where a function of the job may not return yet, its worker can go on. */
  lemma FunctionGoesOn(b: State, j: D.JobId, original: seq<int>, w: D.WorkerId) returns (e: Event)
    requires I.Inv(b.dag) && M.Inv(b.sort, original) && ForkedWaits(b) && D.AtUser(b.dag, w) && D.JobOf(b.dag, w) == j
    requires StackOk(b, w) && !Through(b, D.Top(b.dag, w))
    ensures Enabled(b, j, e) && Request(b, j, e) == 0
  {
    if AboutToFork(b, D.Top(b.dag, w)) {
      RunningFn(b.dag, w);
      e := ForkIsAsked(b, j, w);
    } else {
      e := CallGoesOn(b, j, original, w);
    }
  }

  lemma ForkIsAsked(b: State, j: D.JobId, w: D.WorkerId) returns (e: Event)
    requires D.AtUser(b.dag, w) && D.JobOf(b.dag, w) == j && AboutToFork(b, D.Top(b.dag, w))
    requires b.dag.tasks[b.dag.workers[w].t].fn.Null? || b.dag.tasks[b.dag.workers[w].t].fn.Code?
    ensures Enabled(b, j, e) && Request(b, j, e) == 0
  {
    e := Scheduler(D.Stack(w, if b.dag.tasks[b.dag.workers[w].t].fn.Null? then D.SetContinuation else D.SpawnBegin));
  }

  lemma CallGoesOn(b: State, j: D.JobId, original: seq<int>, w: D.WorkerId) returns (e: Event)
    requires I.Stages(b.dag) && M.Inv(b.sort, original) && ForkedWaits(b) && D.AtUser(b.dag, w)
    requires !Through(b, D.Top(b.dag, w)) && !AboutToFork(b, D.Top(b.dag, w))
    ensures Enabled(b, j, e) && Request(b, j, e) == 0
  {
    var a :| a in b.stageOf && Executes(b, D.Top(b.dag, w), a) && !Finished(b.sort, a);
    RunningCall(b, j, w, a);
    var m := NextStep(b.sort, original, a);
    assert !M.Forks(b.sort, m);
    e := Work(w, m);
  }

  /** Where a child is missing, it can be made of a free node. */
  lemma ChildGoesOn(b: State, j: D.JobId, w: D.WorkerId, r: D.TaskId) returns (e: Event)
    requires D.Over(b.dag, w) && D.JobOf(b.dag, w) == j && StackOk(b, w) && D.Top(b.dag, w).New?
    requires AboutToFork(b, D.Below(b.dag, w)) && |D.TopBatch(b.dag, w)| < 2 && D.IsFree(b.dag, r)
    ensures Enabled(b, j, e) && Request(b, j, e) == 0
  {
    e := Scheduler(D.Stack(w, D.SpawnNew(r)));
  }

  lemma TwoOf(x: set<D.TaskId>) returns (l: D.TaskId, r: D.TaskId)
    requires |x| == 2
    ensures l != r && x == {l, r}
  {
    l :| l in x;
    assert |x - {l}| == 1;
    r :| r in x - {l};
    assert |x - {l} - {r}| == 0;
    assert x - {l} - {r} == {};
    assert x == {l, r};
  }

  /** Where both children are ready, they can be pushed. */
  lemma ForkGoesOn(b: State, j: D.JobId, original: seq<int>, w: D.WorkerId) returns (e: Event)
    requires I.Inv(b.dag) && M.Inv(b.sort, original) && D.Over(b.dag, w) && D.JobOf(b.dag, w) == j && StackOk(b, w)
    requires D.Top(b.dag, w).Offer?
    ensures Enabled(b, j, e) && Request(b, j, e) == 0
  {
    var l, r := TwoOf(D.TopBatch(b.dag, w));
    assert l in D.TopBatch(b.dag, w) && r in D.TopBatch(b.dag, w);
    R.ListedAtTop(b.dag, w, l);
    R.ListedAtTop(b.dag, w, r);
    var a :| a in b.stageOf && Executes(b, D.Below(b.dag, w), a) && b.sort.calls[a].pc.Ready?
             && b.sort.calls[a].hi - b.sort.calls[a].lo > Merging.BASE_CASE_THRESHOLD;
    var m := NextStep(b.sort, original, a);
    e := Fork(w, m, l, r);
  }

  predicate MissesChild(b: State, w: D.WorkerId) {
    D.Over(b.dag, w) && D.Top(b.dag, w).New? && AboutToFork(b, D.Below(b.dag, w)) && |D.TopBatch(b.dag, w)| < 2
  }

  /** What is the sort's to decide, on a stack of its shape. */
  lemma HeldUp(b: State, j: D.JobId, w: D.WorkerId, f: D.StackEvent)
    requires D.IsRunning(b.dag, w) && StackOk(b, w) && D.JobOf(b.dag, w) == j
    requires D.StackEnabled(b.dag, w, f) && O.Plain(f) && ByTheSort(b, j, D.Stack(w, f))
    ensures f.SplitCall? || f.Return? || f.SpawnEnd? || f.CountBatch? || f.PushBatch?
    ensures f.Return? ==> D.AtUser(b.dag, w) && !Through(b, D.Top(b.dag, w))
    ensures f.SpawnEnd? || f.CountBatch? ==> MissesChild(b, w)
    ensures f.PushBatch? ==> D.Over(b.dag, w) && D.Top(b.dag, w).Offer?
  {
    if f.CountBatch? { NotOne(b, w); }
  }

  lemma NotOne(b: State, w: D.WorkerId)
    requires D.CanCount(b.dag, w) && StackOk(b, w) && |D.TopBatch(b.dag, w)| != 2
    ensures MissesChild(b, w)
  {
  }

  /** Where the scheduler's own step is the sort's to take, the sort can take one. */
  lemma JobGoesOn(b: State, j: D.JobId, original: seq<int>, w: D.WorkerId, f: D.StackEvent, r: D.TaskId) returns (e: Event)
    requires D.IsRunning(b.dag, w) && StackOk(b, w) && D.JobOf(b.dag, w) == j && D.IsFree(b.dag, r)
    requires I.Inv(b.dag) && M.Inv(b.sort, original) && (b.stageOf != map[] ==> ForkedWaits(b))
    requires D.StackEnabled(b.dag, w, f) && O.Plain(f) && ByTheSort(b, j, D.Stack(w, f))
    ensures Enabled(b, j, e) && Request(b, j, e) == 0
  {
    HeldUp(b, j, w, f);
    if f.SplitCall? { e := Call(w); }
    else if f.PushBatch? { e := ForkGoesOn(b, j, original, w); }
    else if f.Return? {
      SomeStage(b, D.Top(b.dag, w));
      e := FunctionGoesOn(b, j, original, w);
    }
    else { e := ChildGoesOn(b, j, w, r); }
  }

  lemma SomeStage(b: State, f: D.Frame)
    requires !Through(b, f)
    ensures b.stageOf != map[]
  {
  }

  /** As long as anything is going on, and the pool is not exhausted, somebody can go on without any other
      client asking for more. */
  lemma SomeoneGoesOn(b: State, j: D.JobId, original: seq<int>, r: D.TaskId) returns (e: Event)
    requires Sound(b, j, original) && b.dag.workers.Keys != {} && !O.Quiet(b.dag) && D.IsFree(b.dag, r)
    ensures Enabled(b, j, e) && Request(b, j, e) == 0
  {
    var d := P.OwnStep(b.dag);
    e := Scheduler(d);
    if ByTheSort(b, j, d) {
      if d.Stack? && D.JobOf(b.dag, d.w) == j {
        e := JobGoesOn(b, j, original, d.w, d.f, r);
      } else {
        e := ContinuationGoesOn(b, j, original, d);
      }
    }
  }

  lemma ContinuationGoesOn(b: State, j: D.JobId, original: seq<int>, d: D.Event) returns (e: Event)
    requires M.Inv(b.sort, original) && EntersContinuation(b, d)
    ensures Enabled(b, j, e) && Request(b, j, e) == 0
  {
    var a :| a in b.stageOf && a in b.taskOf && a in b.sort.calls && b.sort.calls[a].pc.Forked? && Resumes(b, d, a);
    var m := NextStep(b.sort, original, a);
    e := Continue(d, m);
  }

  /** Total correctness: a run that cannot be continued but by new requests of other clients, and by
      StepsBounded every run gets there, has finished the job, unless the pool is exhausted; and the array
      is the very array that the sequential merge sort leaves. */
  lemma SortedInTheEnd(b: State, j: D.JobId, original: seq<int>, s0: D.State, es: seq<D.Event>, run: seq<Event>, sequential: seq<int>,
                       r: D.TaskId)
    requires Init(b, j, original, s0, es) && IsRun(b, j, run) && b.dag.workers.Keys != {}
    requires forall e :: Enabled(Final(b, j, run), j, e) ==> Request(Final(b, j, run), j, e) > 0
    requires D.IsFree(Final(b, j, run).dag, r)
    requires SortedRange(sequential, 0, |sequential|) && Rearranged(original, sequential, 0, |original|)
    ensures j in Final(b, j, run).dag.jobs && Final(b, j, run).dag.jobs[j].done
    ensures Final(b, j, run).sort.arr == sequential && Sorted(Final(b, j, run).sort.arr)
  {
    AtStart(b, j, original, s0, es);
    RunBound(b, j, original, run);
    var c := Final(b, j, run);
    if !O.Quiet(c.dag) { var e := SomeoneGoesOn(c, j, original, r); }
    O.QuietMeansDone(c.dag);
    SameWhenDone(b, j, original, s0, es, run, sequential);
  }
}
