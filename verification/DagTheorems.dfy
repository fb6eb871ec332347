/** What the task completion protocol guarantees over whole runs. */
module DagTheorems {
  import opened Basics
  import opened Splitting
  import opened TaskDag
  import opened DagInvariant
  import opened DagRefs
  import DagCounts
  import opened DagForest
  import DagJobs
  import DagCover
  import DagStages

  // ---------------------------------------------------------------- the invariant, over every run

  lemma InvInit(s: State)
    requires Init(s)
    ensures Inv(s)
  {
    forall t | t in s.tasks ensures CountOk(s, t) {}
  }

  lemma InvStep(s: State, e: Event)
    requires Inv(s) && Enabled(s, e)
    ensures Inv(Apply(s, e))
  {
    StepRefs(s, e);
    DagCounts.StepCounts(s, e);
    StepForest(s, e);
    StepSubmitOk(s, e);
    DagJobs.StepRoots(s, e);
    DagCover.StepPends(s, e);
    DagCover.StepCover(s, e);
    DagStages.StepStages(s, e);
    DagStages.StepSolo(s, e);
  }

  lemma {:induction false} InvRun(s: State, es: seq<Event>)
    requires Inv(s) && IsRun(s, es)
    ensures Inv(Final(s, es))
    decreases |es|
  {
    if es != [] {
      InvStep(s, es[0]);
      InvRun(Apply(s, es[0]), es[1..]);
    }
  }

  // ---------------------------------------------------------------- the count, ownership, and released nodes

  /** In every reachable state the counter of a live task is its virtual lock, plus the children
      it has counted and that are still live, plus the children whose worker has yet to report. */
  lemma DependencyCount(s0: State, es: seq<Event>, t: TaskId)
    requires Init(s0) && IsRun(s0, es)
    ensures var s := Final(s0, es);
            t in s.tasks && Started(s.tasks[t]) ==>
              s.tasks[t].deps == Lock(s.tasks[t]) + |Kids(s.tasks, t)| + |Reps(s.workers, t)|
  {
    InvInit(s0);
    InvRun(s0, es);
    if t in Final(s0, es).tasks { assert CountOk(Final(s0, es), t); }
  }

  /** The tasks that worker w's next step may read or write. */
  function Touches(s: State, w: WorkerId): set<TaskId>
    requires w in s.workers
  {
    match s.workers[w]
    case Idle => {}
    case Running(t, _, f) => {t} + set c | c in s.tasks && exists k :: 0 <= k < |f| && AtFrame(s.tasks[c].place, w, k)
    case Dropping(t, _) => {t}
    case Owner(t, _) => {t}
    case Armed(t) => {t}
    case Reporting(p) => {p}
  }

  /** Task t is free and the event acquires its node, or t is queued and the event takes it out. */
  predicate Obtains(s: State, e: Event, t: TaskId)
    requires t in s.tasks
  {
    match e
    case Loop(_, l) => l == Take(t) && s.tasks[t].place.Queued?
    case Stack(_, f) => (f == SplitNew(t) || f == SpawnNew(t)) && s.tasks[t].place.Free?
    case Submit(_) => false
  }

  /** Touches tells the truth: a worker's step changes no task but those, and the one it obtains. */
  lemma OnlyTouchesOwn(s: State, e: Event, t: TaskId)
    requires Refs(s) && Enabled(s, e) && !e.Submit? && t in s.tasks
    ensures t in Apply(s, e).tasks
    ensures Apply(s, e).tasks[t] != s.tasks[t] ==> t in Touches(s, e.w) || Obtains(s, e, t)
  {
    match e
    case Loop(w, l) => LoopTouches(s, w, l, t);
    case Stack(w, f) => StackTouches(s, w, f, t);
  }

  lemma LoopTouches(s: State, w: WorkerId, l: LoopEvent, t: TaskId)
    requires Refs(s) && LoopEnabled(s, w, l) && t in s.tasks
    ensures t in LoopApply(s, w, l).tasks
    ensures LoopApply(s, w, l).tasks[t] != s.tasks[t] ==> t in Touches(s, w) || Obtains(s, Loop(w, l), t)
  {
  }

  lemma StackTouches(s: State, w: WorkerId, f: StackEvent, t: TaskId)
    requires Refs(s) && StackEnabled(s, w, f) && t in s.tasks
    ensures t in StackApply(s, w, f).tasks
    ensures StackApply(s, w, f).tasks[t] != s.tasks[t] ==> t in Touches(s, w) || Obtains(s, Stack(w, f), t)
  {
    var k := TopIndex(s, w);
    if f.FreeRejected? { assert FrameAt(s, w, k) == Some(Top(s, w)) && RecycleOk(s, w, k); }
    if t in TopBatch(s, w) || (f.FreeRejected? && t == Top(s, w).c) {
      assert AtFrame(s.tasks[t].place, w, k);
    } else {
      StackTouchesTop(s, w, f, t);
    }
  }

  lemma StackTouchesTop(s: State, w: WorkerId, f: StackEvent, t: TaskId)
    requires StackEnabled(s, w, f) && t in s.tasks && t !in TopBatch(s, w) && !(f.FreeRejected? && t == Top(s, w).c)
    ensures t in StackApply(s, w, f).tasks
    ensures StackApply(s, w, f).tasks[t] != s.tasks[t] ==> t == s.workers[w].t || Obtains(s, Stack(w, f), t)
  {
  }

  /** No worker touches a released node, and the parent of a live task is live. */
  lemma NoUseAfterRelease(s0: State, es: seq<Event>, w: WorkerId, t: TaskId)
    requires Init(s0) && IsRun(s0, es)
    ensures var s := Final(s0, es);
            && (w in s.workers && t in Touches(s, w) ==> t in s.tasks && Started(s.tasks[t]))
            && (t in s.tasks && Started(s.tasks[t]) && s.tasks[t].parent.Some? ==>
                  s.tasks[t].parent.value in s.tasks && Started(s.tasks[s.tasks[t].parent.value]))
  {
    InvInit(s0);
    InvRun(s0, es);
    var s := Final(s0, es);
    if w in s.workers && t in Touches(s, w) { TouchedIsLive(s, w, t); }
    if t in s.tasks { assert TreeOk(s, t); }
  }

  lemma TouchedIsLive(s: State, w: WorkerId, t: TaskId)
    requires Refs(s) && w in s.workers && t in Touches(s, w)
    ensures t in s.tasks && Started(s.tasks[t])
  {
    assert WorkerOk(s, w);
  }

  /** Two workers never hold the same task, and a task whose counter is 0 has one owner. */
  lemma UniqueOwner(s0: State, es: seq<Event>, v: WorkerId, w: WorkerId)
    requires Init(s0) && IsRun(s0, es)
    ensures var s := Final(s0, es);
            v in s.workers && w in s.workers && v != w ==>
              && (Holds(s.workers[v]).Some? ==> Holds(s.workers[v]) != Holds(s.workers[w]))
              && (s.workers[v].Owner? ==> Holds(s.workers[w]) != Some(s.workers[v].t))
              && (s.workers[v].Owner? && s.workers[w].Owner? ==> s.workers[v].t != s.workers[w].t)
    ensures var s := Final(s0, es);
            forall t :: t in s.tasks && Started(s.tasks[t]) && s.tasks[t].deps == 0 ==>
              exists u :: u in s.workers && s.workers[u].Owner? && s.workers[u].t == t
  {
    InvInit(s0);
    InvRun(s0, es);
    var s := Final(s0, es);
    if v in s.workers { assert WorkerOk(s, v); }
    if w in s.workers { assert WorkerOk(s, w); }
    forall t | t in s.tasks && Started(s.tasks[t]) && s.tasks[t].deps == 0
      ensures exists u :: u in s.workers && s.workers[u].Owner? && s.workers[u].t == t
    {
      assert CountOk(s, t) && PlaceOk(s, t);
    }
  }

  /** It is the event that brings a task's counter from 1 to 0, the drop of its virtual lock or the
      report of its last child, that makes the worker of that event, and no other, its owner. */
  lemma OwnerByDecrement(s: State, e: Event, t: TaskId, w: WorkerId)
    requires Inv(s) && Enabled(s, e) && t in s.tasks
    ensures t in Apply(s, e).tasks
    ensures (Apply(s, e).tasks[t].place == Owned(w) && s.tasks[t].place != Owned(w)) <==>
              s.tasks[t].deps == 1 && Apply(s, e).tasks[t].deps == 0 &&
              ((e == Loop(w, Drop) && s.workers[w].t == t) || (e == Loop(w, Report) && s.workers[w].p == t))
  {
    match e
    case Loop(v, l) => LoopOwns(s, v, l, t, w);
    case Stack(v, f) => StackOwnsNone(s, v, f, t);
    case Submit(m) => SubmitOwnsNone(s, m, t);
  }

  lemma LoopOwns(s: State, v: WorkerId, l: LoopEvent, t: TaskId, w: WorkerId)
    requires v in s.workers && WorkerOk(s, v) && LoopEnabled(s, v, l) && t in s.tasks
    ensures t in LoopApply(s, v, l).tasks
    ensures (LoopApply(s, v, l).tasks[t].place == Owned(w) && s.tasks[t].place != Owned(w)) <==>
              s.tasks[t].deps == 1 && LoopApply(s, v, l).tasks[t].deps == 0 && v == w &&
              ((l.Drop? && s.workers[w].t == t) || (l.Report? && s.workers[w].p == t))
  {
  }

  lemma StackOwnsNone(s: State, v: WorkerId, f: StackEvent, t: TaskId)
    requires StackEnabled(s, v, f) && t in s.tasks
    ensures t in StackApply(s, v, f).tasks
    ensures StackApply(s, v, f).tasks[t].place.Owned? ==> StackApply(s, v, f).tasks[t].place == s.tasks[t].place
  {
  }

  lemma SubmitOwnsNone(s: State, m: SubmitEvent, t: TaskId)
    requires SubmitEnabled(s, m) && t in s.tasks
    ensures t in SubmitApply(s, m).tasks
    ensures SubmitApply(s, m).tasks[t].place.Owned? ==> SubmitApply(s, m).tasks[t].place == s.tasks[t].place
  {
  }

  /** A worker in state s that has given up all rights to t. */
  predicate DoneWith(s: State, w: WorkerId, t: TaskId)
    requires w in s.workers
  {
    Holds(s.workers[w]) != Some(t) && s.workers[w] != Reporting(t) && !(s.workers[w].Owner? && s.workers[w].t == t)
  }

  /** Whose node it was when an event released it. */
  predicate ReleasedBy(p: Place, e: Event) {
    match p
    case Owned(w) => e == Loop(w, Retire)
    case Fresh(w, _) => e.Stack? && e.w == w && e.f.SplitFree?
    case Recycled(w, _) => e == Stack(w, FreeRejected)
    case Submitting => e == Submit(DropRoot) || e == Submit(DropChild)
    case _ => false
  }

  lemma LoopReleases(s: State, w: WorkerId, l: LoopEvent, t: TaskId)
    requires w in s.workers && WorkerOk(s, w) && LoopEnabled(s, w, l)
    requires t in s.tasks && !s.tasks[t].place.Free? && LoopApply(s, w, l).tasks[t].place.Free?
    ensures l.Retire? && s.tasks[t].place == Owned(w)
  {
  }

  lemma StackReleases(s: State, w: WorkerId, f: StackEvent, t: TaskId)
    requires Refs(s) && StackEnabled(s, w, f)
    requires t in s.tasks && !s.tasks[t].place.Free? && StackApply(s, w, f).tasks[t].place.Free?
    ensures ReleasedBy(s.tasks[t].place, Stack(w, f))
  {
    match f
    case FreeRejected => assert RecycleOk(s, w, TopIndex(s, w));
    case SplitFree(r) =>
      assert r in TopBatch(s, w);
      ListedAtTop(s, w, r);
    case _ => StackKeepsLive(s, w, f, t);
  }

  lemma StackKeepsLive(s: State, w: WorkerId, f: StackEvent, t: TaskId)
    requires StackEnabled(s, w, f) && !f.FreeRejected? && !f.SplitFree? && t in s.tasks && !s.tasks[t].place.Free?
    ensures !StackApply(s, w, f).tasks[t].place.Free?
  {
  }

  lemma SubmitReleases(s: State, m: SubmitEvent, t: TaskId)
    requires SubOk(s) && SubmitEnabled(s, m)
    requires t in s.tasks && !s.tasks[t].place.Free? && SubmitApply(s, m).tasks[t].place.Free?
    ensures ReleasedBy(s.tasks[t].place, Submit(m))
  {
    assert forall u :: u in SubTasks(s.sub) ==> u in s.tasks && s.tasks[u].place.Submitting?;
  }

  /** A node goes back to the pool only when no live task has it as its parent and no worker but
      the releasing one can still touch it. */
  lemma ReleaseIsLast(s: State, e: Event, t: TaskId)
    requires Inv(s) && Enabled(s, e) && t in s.tasks && !s.tasks[t].place.Free?
    requires t in Apply(s, e).tasks && Apply(s, e).tasks[t].place.Free?
    ensures ReleasedBy(s.tasks[t].place, e) && Childless(s, t)
    ensures forall w :: w in s.workers && (e.Submit? || w != e.w) ==> DoneWith(s, w, t)
    ensures forall w :: w in s.workers ==> w in Apply(s, e).workers && DoneWith(Apply(s, e), w, t)
  {
    WhoReleases(s, e, t);
    NobodyNeeds(s, e, t);
    StepRefs(s, e);
    ForgottenAfter(Apply(s, e), t);
    SameDomains(s, e);
  }

  lemma WhoReleases(s: State, e: Event, t: TaskId)
    requires Refs(s) && Enabled(s, e) && t in s.tasks && !s.tasks[t].place.Free?
    requires t in Apply(s, e).tasks && Apply(s, e).tasks[t].place.Free?
    ensures ReleasedBy(s.tasks[t].place, e)
  {
    match e {
      case Loop(w, l) => assert WorkerOk(s, w); LoopReleases(s, w, l, t);
      case Stack(w, f) => StackReleases(s, w, f, t);
      case Submit(m) => SubmitReleases(s, m, t);
    }
  }

  lemma SameDomains(s: State, e: Event)
    requires Refs(s) && Enabled(s, e)
    ensures Apply(s, e).workers.Keys == s.workers.Keys && Apply(s, e).tasks.Keys == s.tasks.Keys
  {
    match e
    case Loop(w, l) => LoopDomains(s, w, l);
    case Stack(w, f) => StackDomains(s, w, f);
    case Submit(m) => SubmitDomains(s, m);
  }

  lemma LoopDomains(s: State, w: WorkerId, l: LoopEvent)
    requires LoopEnabled(s, w, l)
    ensures LoopApply(s, w, l).workers.Keys == s.workers.Keys && LoopApply(s, w, l).tasks.Keys == s.tasks.Keys
  {
  }

  lemma StackDomains(s: State, w: WorkerId, f: StackEvent)
    requires StackEnabled(s, w, f)
    ensures StackApply(s, w, f).workers.Keys == s.workers.Keys && StackApply(s, w, f).tasks.Keys == s.tasks.Keys
  {
  }

  lemma SubmitDomains(s: State, m: SubmitEvent)
    requires SubmitEnabled(s, m)
    ensures SubmitApply(s, m).workers.Keys == s.workers.Keys && SubmitApply(s, m).tasks.Keys == s.tasks.Keys
  {
  }

  lemma NobodyNeeds(s: State, e: Event, t: TaskId)
    requires Refs(s) && Forest(s) && t in s.tasks && ReleasedBy(s.tasks[t].place, e)
    ensures Childless(s, t)
    ensures forall w :: w in s.workers && (e.Submit? || w != e.w) ==> DoneWith(s, w, t)
  {
    forall u | u in s.tasks && Started(s.tasks[u]) ensures s.tasks[u].parent != Some(t) { assert TreeOk(s, u); }
    forall w | w in s.workers && (e.Submit? || w != e.w) ensures DoneWith(s, w, t) { assert WorkerOk(s, w); }
  }

  lemma ForgottenAfter(s: State, t: TaskId)
    requires Refs(s) && t in s.tasks && s.tasks[t].place.Free?
    ensures forall w :: w in s.workers ==> DoneWith(s, w, t)
  {
    forall w | w in s.workers ensures DoneWith(s, w, t) { assert WorkerOk(s, w); }
  }
}
