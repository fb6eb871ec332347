/**
 The concurrent quicksort as a job of the scheduler is totally correct: once no other client asks for
 anything more, every schedule, with any pattern of exhausted pools and full deques, comes to an end
 within a bound that is known beforehand, and then the job is DONE and the array is sorted.
 */
module QuickSortJobEnds {
  import opened Basics
  import opened SortCost
  import D = TaskDag
  import I = DagInvariant
  import T = DagTheorems
  import O = DagOutcome
  import J = DagJobStages
  import S = DagSingleChunk
  import P = DagProgress
  import H = DagOthers
  import Q = QuickSort
  import E = QuickSortEnds
  import opened QuickSortJob
  import opened Sorting

  // ---------------------------------------------------------------- kinds of events

  /** A function of the job begins a spawn. */
  predicate Begins(b: State, j: D.JobId, e: Event) {
    e.Scheduler? && e.e.Stack? && e.e.f.SpawnBegin? && D.IsRunning(b.dag, e.e.w) && D.JobOf(b.dag, e.e.w) == j
  }

  /** What clients other than the job ask for with the event. */
  function Request(b: State, j: D.JobId, e: Event): nat {
    if e.Scheduler? && !Begins(b, j, e) then P.Request(e.e) else 0
  }

  predicate Spawned(e: Event) {
    e.Spawn?
  }

  // ---------------------------------------------------------------- the potential of both sides

  ghost function Potential(b: State): nat {
    P.Potential(b.dag) + 30 * E.Work(b.sort)
  }

  /** Every event lowers it but a request; a spawn lowers it by what beginning it has cost. */
  lemma StepPotential(b: State, j: D.JobId, original: seq<int>, e: Event)
    requires I.Inv(b.dag) && Q.Inv(b.sort, original) && P.Offers(b.dag) && Enabled(b, j, e)
    ensures Potential(Apply(b, j, e)) + (if Spawned(e) then 11 else 0) <=
              Potential(b) + Request(b, j, e) + (if Begins(b, j, e) then 10 else 0)
    ensures Request(b, j, e) == 0 && !Begins(b, j, e) ==>
              Potential(Apply(b, j, e)) + (if Spawned(e) then 10 else 0) < Potential(b)
    ensures P.Offers(Apply(b, j, e).dag)
  {
    match e
    case Scheduler(d) => P.StepPotential(b.dag, d); P.StepOffers(b.dag, d);
    case Call(w) => DagPotential(b.dag, w, D.SplitCall);
    case Work(_, q) => E.StepFalls(b.sort, original, q);
    case Spawn(w, f, q) =>
      DagPotential(b.dag, w, f);
      E.StepFalls(b.sort, original, q);
  }

  lemma DagPotential(d: D.State, w: D.WorkerId, f: D.StackEvent)
    requires I.Inv(d) && P.Offers(d) && D.StackEnabled(d, w, f)
    ensures P.Potential(D.StackApply(d, w, f)) <= P.Potential(d) + (if O.Asks(f) then 10 else -1)
    ensures P.Offers(D.StackApply(d, w, f))
  {
    P.StepPotential(d, D.Stack(w, f));
    P.StepOffers(d, D.Stack(w, f));
  }

  // ---------------------------------------------------------------- spawns that have begun

  /** Worker w has begun a spawn for the sort, and not made its child yet. */
  predicate DagOpen(d: D.State, w: D.WorkerId) {
    D.Over(d, w) && D.Top(d, w).New? && D.TopBatch(d, w) == {}
  }

  predicate Open(b: State, w: D.WorkerId) {
    DagOpen(b.dag, w) && SpawnPoint(b, D.Below(b.dag, w))
  }

  function Opens(b: State): set<D.WorkerId> {
    set w | w in b.dag.workers && Open(b, w)
  }

  /** Other threads leave a begun spawn alone. */
  lemma DagOpenStays(d: D.State, e: D.Event, w: D.WorkerId)
    requires I.Refs(d) && D.Enabled(d, e) && (e.Submit? || e.w != w) && DagOpen(d, w)
    ensures DagOpen(D.Apply(d, e), w) && D.Below(D.Apply(d, e), w) == D.Below(d, w)
  {
    H.WorkerStays(d, e, w);
    H.BatchSame(d, e, w);
  }

  /** The worker itself can then do nothing with its spawn but make the child. */
  lemma OnlySpawns(b: State, j: D.JobId, original: seq<int>, e: D.Event, w: D.WorkerId)
    requires Inv(b, j, original) && Open(b, w) && D.Enabled(b.dag, e) && !e.Submit? && e.w == w
    ensures ByTheSort(b, j, e)
  {
    SpawnersJob(b, j, original, w);
    DagOnlySpawns(b.dag, e, w);
  }

  lemma DagOnlySpawns(d: D.State, e: D.Event, w: D.WorkerId)
    requires DagOpen(d, w) && D.Enabled(d, e) && !e.Submit? && e.w == w
    ensures e.Stack? && (e.f.SpawnNew? || e.f.SpawnDirect? || e.f.SpawnEnd?)
  {
  }

  /** A worker that spawns for the sort runs a task of the job. */
  lemma SpawnersJob(b: State, j: D.JobId, original: seq<int>, w: D.WorkerId)
    requires Inv(b, j, original) && D.Over(b.dag, w) && SpawnPoint(b, D.Below(b.dag, w))
    ensures D.JobOf(b.dag, w) == j
  {
    var a :| a in b.stageOf && AtSpawn(b.sort, a) && D.Below(b.dag, w) == D.User(b.stageOf[a]);
    LinkedOf(b, j, original, a);
    SpawnerRunsJob(b.dag, j, w, b.stageOf[a]);
  }

  lemma LinkedOf(b: State, j: D.JobId, original: seq<int>, a: Q.Id)
    requires Inv(b, j, original) && a in b.stageOf && a in b.sort.acts && !b.sort.acts[a].pc.Over?
    ensures J.StageOfJob(b.dag, b.stageOf[a], j)
  {
    assert Linked(b, j, a);
  }

  lemma OtherActivities(s: Q.State, q: Q.Event, a: Q.Id)
    requires Q.Enabled(s, q) && a in s.acts && a != q.id
    ensures a in Q.Apply(s, q).acts && Q.Apply(s, q).acts[a] == s.acts[a]
  {
  }

  lemma SpawnsAtSpawn(s: Q.State, q: Q.Event)
    requires Q.Enabled(s, q)
    ensures Spawns(s, q) <==> AtSpawn(s, q.id)
  {
  }

  lemma PointStays(b: State, b': State, f: D.Frame, q: Q.Event)
    requires SpawnPoint(b, f) && Q.Enabled(b.sort, q) && b'.sort == Q.Apply(b.sort, q)
    requires forall a :: a in b.stageOf && a in b.sort.acts ==> a in b'.stageOf && b'.stageOf[a] == b.stageOf[a]
    requires q.id in b.stageOf && f == D.User(b.stageOf[q.id]) ==> false
    ensures SpawnPoint(b', f)
  {
    var a :| a in b.stageOf && AtSpawn(b.sort, a) && f == D.User(b.stageOf[a]);
    OtherActivities(b.sort, q, a);
  }

  /** A stage is executed at one place. */
  lemma OnePlace(d: D.State, v: D.WorkerId, w: D.WorkerId, id: D.StageId)
    requires I.Stages(d) && D.Over(d, v) && D.Below(d, v) == D.User(id)
    requires (D.Over(d, w) && D.Below(d, w) == D.User(id)) || (D.IsRunning(d, w) && D.Top(d, w) == D.User(id))
    ensures v == w && !(D.IsRunning(d, w) && D.Top(d, w) == D.User(id))
  {
    assert I.OnStack(d, v, D.TopIndex(d, v) - 1, id);
    if D.IsRunning(d, w) && D.Top(d, w) == D.User(id) { assert I.OnStack(d, w, D.TopIndex(d, w), id); }
    if D.Over(d, w) && D.Below(d, w) == D.User(id) { assert I.OnStack(d, w, D.TopIndex(d, w) - 1, id); }
  }

  lemma SchedulerKeepsOpen(b: State, j: D.JobId, original: seq<int>, e: D.Event, w: D.WorkerId)
    requires Inv(b, j, original) && Enabled(b, j, Scheduler(e)) && Open(b, w)
    ensures Open(Apply(b, j, Scheduler(e)), w)
  {
    if !e.Submit? && e.w == w {
      OnlySpawns(b, j, original, e, w);
      assert false;
    } else {
      DagOpenStays(b.dag, e, w);
      PointOfDag(b, Apply(b, j, Scheduler(e)), D.Below(b.dag, w));
    }
  }

  lemma PointOfDag(b: State, b': State, f: D.Frame)
    requires SpawnPoint(b, f) && b'.sort == b.sort && b'.stageOf == b.stageOf
    ensures SpawnPoint(b', f)
  {
  }

  lemma WorkKeepsOpen(b: State, j: D.JobId, v: D.WorkerId, q: Q.Event, w: D.WorkerId)
    requires I.Stages(b.dag) && Enabled(b, j, Work(v, q)) && Open(b, w)
    ensures Open(Apply(b, j, Work(v, q)), w)
  {
    if D.Below(b.dag, w) == D.User(b.stageOf[q.id]) { OnePlace(b.dag, w, v, b.stageOf[q.id]); }
    PointStays(b, Apply(b, j, Work(v, q)), D.Below(b.dag, w), q);
  }

  lemma SpawnKeepsOpen(b: State, j: D.JobId, v: D.WorkerId, f: D.StackEvent, q: Q.Event, w: D.WorkerId)
    requires I.Refs(b.dag) && I.Stages(b.dag) && Enabled(b, j, Spawn(v, f, q)) && Open(b, w) && v != w
    ensures Open(Apply(b, j, Spawn(v, f, q)), w)
  {
    if D.Below(b.dag, w) == D.User(b.stageOf[q.id]) { OnePlace(b.dag, w, v, b.stageOf[q.id]); }
    DagOpenStays(b.dag, D.Stack(v, f), w);
    PointStays(b, Apply(b, j, Spawn(v, f, q)), D.Below(b.dag, w), q);
  }

  lemma NoneOpenBefore(b: State, w: D.WorkerId)
    requires b.stageOf == map[]
    ensures !Open(b, w)
  {
  }

  lemma StaysOpen(b: State, j: D.JobId, original: seq<int>, e: Event, w: D.WorkerId)
    requires Inv(b, j, original) && Enabled(b, j, e) && Open(b, w) && !(e.Spawn? && e.w == w)
    ensures Open(Apply(b, j, e), w)
  {
    match e
    case Scheduler(d) => SchedulerKeepsOpen(b, j, original, d, w);
    case Work(v, q) => WorkKeepsOpen(b, j, v, q, w);
    case Spawn(v, f, q) => SpawnKeepsOpen(b, j, v, f, q, w);
    case Call(v) =>
      S.CallStep(b.dag, j, v);
      NoneOpenBefore(b, w);
      assert false;
  }

  /** Beginning a spawn opens it. */
  lemma BeginOpens(b: State, j: D.JobId, original: seq<int>, e: Event)
    requires Inv(b, j, original) && Enabled(b, j, e) && Begins(b, j, e)
    ensures Open(Apply(b, j, e), e.e.w) && !Open(b, e.e.w)
  {
    var w, b' := e.e.w, Apply(b, j, e);
    var k := |b.dag.workers[w].frames|;
    forall t | t in b.dag.tasks ensures !H.InFrame(b.dag.tasks[t].place, w, k) { assert I.PlaceOk(b.dag, t); }
    assert D.Below(b'.dag, w) == D.Top(b.dag, w) && D.TopIndex(b'.dag, w) == k;
    PointOfDag(b, b', D.Top(b.dag, w));
  }

  // ---------------------------------------------------------------- as many begun as made, but for the open ones

  lemma {:induction false} SmallerSet(a: set<nat>, b: set<nat>)
    requires a <= b
    ensures |a| <= |b|
    decreases a
  {
    if a != {} {
      var x :| x in a;
      SmallerSet(a - {x}, b - {x});
    }
  }

  lemma StepOpens(b: State, j: D.JobId, original: seq<int>, e: Event)
    requires Inv(b, j, original) && Enabled(b, j, e) && Apply(b, j, e).dag.workers.Keys == b.dag.workers.Keys
    ensures |Opens(Apply(b, j, e))| + (if Spawned(e) then 1 else 0) >= |Opens(b)| + (if Begins(b, j, e) then 1 else 0)
  {
    OpensStay(b, j, original, e);
    if Begins(b, j, e) { OneMoreOpen(b, j, original, e); }
    CountOpens(Opens(b), Opens(Apply(b, j, e)), if e.Spawn? then Some(e.w) else None, if Begins(b, j, e) then Some(e.e.w) else None);
  }

  lemma CountOpens(a: set<D.WorkerId>, b: set<D.WorkerId>, made: Option<D.WorkerId>, begun: Option<D.WorkerId>)
    requires made.None? || begun.None?
    requires if made.Some? then a - {made.value} <= b else a <= b
    requires begun.Some? ==> begun.value in b && begun.value !in a
    ensures |b| + (if made.Some? then 1 else 0) >= |a| + (if begun.Some? then 1 else 0)
  {
    if made.Some? { SmallerSet(a - {made.value}, b); }
    else if begun.Some? { SmallerSet(a + {begun.value}, b); }
    else { SmallerSet(a, b); }
  }

  lemma OpensStay(b: State, j: D.JobId, original: seq<int>, e: Event)
    requires Inv(b, j, original) && Enabled(b, j, e) && Apply(b, j, e).dag.workers.Keys == b.dag.workers.Keys
    ensures if e.Spawn? then Opens(b) - {e.w} <= Opens(Apply(b, j, e)) else Opens(b) <= Opens(Apply(b, j, e))
  {
    forall w | w in Opens(b) && !(e.Spawn? && e.w == w) ensures w in Opens(Apply(b, j, e)) { StaysOpen(b, j, original, e, w); }
  }

  lemma OneMoreOpen(b: State, j: D.JobId, original: seq<int>, e: Event)
    requires Inv(b, j, original) && Enabled(b, j, e) && Begins(b, j, e) && Apply(b, j, e).dag.workers.Keys == b.dag.workers.Keys
    ensures e.e.w in Opens(Apply(b, j, e)) && e.e.w !in Opens(b)
  {
    BeginOpens(b, j, original, e);
  }

  lemma SameWorkers(b: State, j: D.JobId, original: seq<int>, e: Event)
    requires Inv(b, j, original) && Enabled(b, j, e)
    ensures Apply(b, j, e).dag.workers.Keys == b.dag.workers.Keys
  {
    match e
    case Scheduler(d) => T.SameDomains(b.dag, d);
    case Call(w) => T.SameDomains(b.dag, D.Stack(w, D.SplitCall));
    case Spawn(w, f, _) => T.SameDomains(b.dag, D.Stack(w, f));
    case Work(_, _) =>
  }

  // ---------------------------------------------------------------- whole runs

  /** What other clients ask for during the run. */
  function Requests(b: State, j: D.JobId, run: seq<Event>): nat
    requires IsRun(b, j, run)
    decreases |run|
  {
    if run == [] then 0 else Request(b, j, run[0]) + Requests(Apply(b, j, run[0]), j, run[1..])
  }

  function Begun(b: State, j: D.JobId, run: seq<Event>): nat
    requires IsRun(b, j, run)
    decreases |run|
  {
    if run == [] then 0 else (if Begins(b, j, run[0]) then 1 else 0) + Begun(Apply(b, j, run[0]), j, run[1..])
  }

  function Made(run: seq<Event>): nat
    decreases |run|
  {
    if run == [] then 0 else (if Spawned(run[0]) then 1 else 0) + Made(run[1..])
  }

  /** The events of the run that nobody else asked for and that begin no spawn. */
  function OwnSteps(b: State, j: D.JobId, run: seq<Event>): nat
    requires IsRun(b, j, run)
    decreases |run|
  {
    if run == [] then 0
    else (if Request(b, j, run[0]) == 0 && !Begins(b, j, run[0]) then 1 else 0) + OwnSteps(Apply(b, j, run[0]), j, run[1..])
  }

  lemma {:induction false} RunBound(b: State, j: D.JobId, original: seq<int>, run: seq<Event>)
    requires Inv(b, j, original) && P.Offers(b.dag) && IsRun(b, j, run)
    ensures Final(b, j, run).dag.workers.Keys == b.dag.workers.Keys && P.Offers(Final(b, j, run).dag)
    ensures Potential(Final(b, j, run)) + OwnSteps(b, j, run) + 10 * Made(run) <= Potential(b) + Requests(b, j, run) + 10 * Begun(b, j, run)
    ensures |Opens(Final(b, j, run))| + Made(run) >= |Opens(b)| + Begun(b, j, run)
    ensures Made(run) <= OwnSteps(b, j, run)
    decreases |run|
  {
    if run != [] {
      var c := Apply(b, j, run[0]);
      StepPotential(b, j, original, run[0]);
      SameWorkers(b, j, original, run[0]);
      StepOpens(b, j, original, run[0]);
      StepInv(b, j, original, run[0]);
      RunBound(c, j, original, run[1..]);
    }
  }

  lemma {:induction false} AllCounted(b: State, j: D.JobId, run: seq<Event>)
    requires IsRun(b, j, run) && Requests(b, j, run) == 0
    ensures |run| == OwnSteps(b, j, run) + Begun(b, j, run)
    decreases |run|
  {
    if run != [] { AllCounted(Apply(b, j, run[0]), j, run[1..]); }
  }

  /** A bound for the steps of the sort, of the scheduler for it and of whatever was asked before. */
  function Bound(n: nat, es: seq<D.Event>, workers: nat): nat {
    P.Requests(es) + 30 * CallCost(n) + 10 * workers
  }

  lemma StartPotential(b: State, j: D.JobId, original: seq<int>, s0: D.State, es: seq<D.Event>)
    requires Init(b, j, original, s0, es)
    ensures Potential(b) <= P.Requests(es) + 30 * CallCost(|original|) && P.Offers(b.dag)
  {
    P.SubmittedPotential(s0, es, j);
    E.InitWork(b.sort, original);
  }

  /** For every array, every schedule, any number of workers and any pattern of failed acquires and refused
      pushes, and whatever other clients ask for meanwhile: the steps are bounded. */
  lemma StepsBounded(b: State, j: D.JobId, original: seq<int>, s0: D.State, es: seq<D.Event>, run: seq<Event>)
    requires Init(b, j, original, s0, es) && IsRun(b, j, run)
    ensures OwnSteps(b, j, run) <= Bound(|original|, es, |b.dag.workers.Keys|) + Requests(b, j, run)
    ensures Begun(b, j, run) <= OwnSteps(b, j, run) + |b.dag.workers.Keys|
    ensures Requests(b, j, run) == 0 ==> |run| <= 2 * Bound(|original|, es, |b.dag.workers.Keys|) + |b.dag.workers.Keys|
  {
    InitInv(b, j, original, s0, es);
    StartPotential(b, j, original, s0, es);
    RunBound(b, j, original, run);
    SmallerSet(Opens(Final(b, j, run)), b.dag.workers.Keys);
    if Requests(b, j, run) == 0 { AllCounted(b, j, run); }
  }

  // ---------------------------------------------------------------- and then the array is sorted

  /** Where a function of the job may not return yet, its worker can go on. */
  lemma FunctionGoesOn(b: State, j: D.JobId, original: seq<int>, w: D.WorkerId) returns (e: Event)
    requires Inv(b, j, original) && D.AtUser(b.dag, w) && !Through(b, D.Top(b.dag, w))
    ensures Enabled(b, j, e) && Request(b, j, e) == 0
  {
    var a :| a in b.stageOf && a in b.sort.acts && D.Top(b.dag, w) == D.User(b.stageOf[a]) && !b.sort.acts[a].pc.Over?;
    LinkedOf(b, j, original, a);
    if AtSpawn(b.sort, a) {
      e := BeginsHere(b, j, w, a);
    } else {
      var q := NextStep(b, j, original, a);
      e := Work(w, q);
    }
  }

  lemma BeginsHere(b: State, j: D.JobId, w: D.WorkerId, a: Q.Id) returns (e: Event)
    requires I.Stages(b.dag) && I.Refs(b.dag) && D.AtUser(b.dag, w) && a in b.stageOf && AtSpawn(b.sort, a)
    requires D.Top(b.dag, w) == D.User(b.stageOf[a]) && J.StageOfJob(b.dag, b.stageOf[a], j)
    ensures Enabled(b, j, e) && Request(b, j, e) == 0
  {
    assert I.OnStack(b.dag, w, D.TopIndex(b.dag, w), b.stageOf[a]);
    assert SpawnPoint(b, D.Top(b.dag, w));
    e := Scheduler(D.Stack(w, D.SpawnBegin));
  }

  lemma NextStep(b: State, j: D.JobId, original: seq<int>, a: Q.Id) returns (q: Q.Event)
    requires Q.Inv(b.sort, original) && a in b.sort.acts && !b.sort.acts[a].pc.Over?
    ensures q.id == a && Q.Enabled(b.sort, q) && (Spawns(b.sort, q) <==> AtSpawn(b.sort, a))
  {
    var child := NewName(b.sort.acts.Keys);
    q := Q.Event(a, child);
    Q.NeverStuck(b.sort, original, a, child);
    SpawnsAtSpawn(b.sort, q);
  }

  /** Where a begun spawn may not be ended yet, its child can be run in place. */
  lemma SpawnGoesOn(b: State, j: D.JobId, original: seq<int>, w: D.WorkerId) returns (e: Event)
    requires Inv(b, j, original) && D.AtSpawnEnd(b.dag, w) && SpawnPoint(b, D.Below(b.dag, w))
    ensures Enabled(b, j, e) && Request(b, j, e) == 0
  {
    var a :| a in b.stageOf && AtSpawn(b.sort, a) && D.Below(b.dag, w) == D.User(b.stageOf[a]);
    var q := NextStep(b, j, original, a);
    InPlace(b, j, w, q);
    e := Spawn(w, D.SpawnDirect, q);
  }

  lemma InPlace(b: State, j: D.JobId, w: D.WorkerId, q: Q.Event)
    requires q.id in b.stageOf && D.AtSpawnEnd(b.dag, w) && D.Below(b.dag, w) == D.User(b.stageOf[q.id])
    requires Q.Enabled(b.sort, q) && Spawns(b.sort, q)
    ensures Enabled(b, j, Spawn(w, D.SpawnDirect, q))
  {
  }

  /** As long as anything is going on, somebody can go on without asking for more. */
  lemma SomeoneGoesOn(b: State, j: D.JobId, original: seq<int>) returns (e: Event)
    requires Inv(b, j, original) && b.dag.workers.Keys != {} && !O.Quiet(b.dag)
    ensures Enabled(b, j, e) && Request(b, j, e) == 0
  {
    var d := P.OwnStep(b.dag);
    e := Scheduler(d);
    if ByTheSort(b, j, d) {
      if d.f.SplitCall? { e := Call(d.w); }
      else if d.f.Return? { e := FunctionGoesOn(b, j, original, d.w); }
      else { e := SpawnGoesOn(b, j, original, d.w); }
    }
  }

  /** Total correctness: a run that cannot be continued but by new requests of other clients, and by
      StepsBounded every run gets there, has finished the job, and the array is a sorted rearrangement of
      what it was. */
  lemma SortedInTheEnd(b: State, j: D.JobId, original: seq<int>, s0: D.State, es: seq<D.Event>, run: seq<Event>)
    requires Init(b, j, original, s0, es) && IsRun(b, j, run) && b.dag.workers.Keys != {}
    requires forall e :: Enabled(Final(b, j, run), j, e) ==> Request(Final(b, j, run), j, e) > 0
    ensures j in Final(b, j, run).dag.jobs && Final(b, j, run).dag.jobs[j].done
    ensures Sorted(Final(b, j, run).sort.arr) && multiset(Final(b, j, run).sort.arr) == multiset(original)
  {
    InitInv(b, j, original, s0, es);
    StartPotential(b, j, original, s0, es);
    InvRun(b, j, original, run);
    RunBound(b, j, original, run);
    var c := Final(b, j, run);
    if !O.Quiet(c.dag) { var e := SomeoneGoesOn(c, j, original); }
    O.QuietMeansDone(c.dag);
    SortedWhenDone(b, j, original, s0, es, run);
  }
}
