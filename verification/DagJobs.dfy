/** Every event keeps each job's root, and the record of who answers for which index. */
module DagJobs {
  import opened Basics
  import opened Splitting
  import opened TaskDag
  import opened DagInvariant
  import opened DagRefs
  import opened DagForest

  // ---------------------------------------------------------------- roots

  predicate IsRoot(task: Task) {
    Started(task) && task.parent.None?
  }

  /** Jobs keep their root and their state. */
  ghost predicate SameRoots(jobs: map<JobId, Job>, jobs': map<JobId, Job>) {
    jobs'.Keys == jobs.Keys && forall j :: j in jobs ==> jobs'[j].root == jobs[j].root && jobs'[j].done == jobs[j].done
  }

  /** Worker w moves on the task `t`, which is not a root; roots and their jobs stay. */
  ghost predicate AwayFromRoots(s: State, s': State, w: WorkerId) {
    && w in s.workers && s'.tasks.Keys == s.tasks.Keys && s'.workers.Keys == s.workers.Keys
    && SameRoots(s.jobs, s'.jobs)
    && (forall t :: t in s.tasks && IsRoot(s.tasks[t]) ==> s'.tasks[t] == s.tasks[t])
    && (forall t :: t in s.tasks && !IsRoot(s.tasks[t]) ==> !IsRoot(s'.tasks[t]))
    && (forall t :: t in s.tasks && !IsRoot(s.tasks[t]) && Started(s'.tasks[t]) ==>
          s'.tasks[t].job in s.jobs && !s'.tasks[t].fn.Finish?)
    && (forall v :: v in s.workers && v != w ==> s'.workers[v] == s.workers[v])
    && OnStackOk(s', w)
    && (forall t :: t in s.tasks && IsRoot(s.tasks[t]) ==> s.tasks[t].place != Active(w) && s.tasks[t].place != Owned(w))
  }

  lemma RootsAway(s: State, s': State, w: WorkerId)
    requires Refs(s) && Roots(s) && AwayFromRoots(s, s', w)
    ensures Roots(s')
  {
    forall t | t in s'.tasks ensures RootOk(s', t) {
      assert RootOk(s, t);
    }
    forall v | v in s'.workers ensures OnStackOk(s', v) {
      if v != w { assert OnStackOk(s, v) && WorkerOk(s, v); }
    }
    forall j | j in s'.jobs ensures JobOk(s', j) {
      assert JobOk(s, j);
    }
    forall t | t in s'.tasks ensures NodeOk(s', t) {
      assert NodeOk(s, t);
    }
  }

  /** A worker inside any function but the publishing one does not run a root. */
  lemma NotARoot(s: State, w: WorkerId)
    requires Refs(s) && Roots(s) && IsRunning(s, w) && !Top(s, w).Publish?
    ensures !IsRoot(s.tasks[s.workers[w].t]) && Started(s.tasks[s.workers[w].t]) && JobOf(s, w) in s.jobs
    ensures forall t :: t in s.tasks && IsRoot(s.tasks[t]) ==> s.tasks[t].place != Active(w) && s.tasks[t].place != Owned(w)
    ensures !s.workers[w].frames[0].Publish?
  {
    assert WorkerOk(s, w);
    assert RootOk(s, s.workers[w].t) && NodeOk(s, s.workers[w].t);
    forall t | t in s.tasks && IsRoot(s.tasks[t]) ensures s.tasks[t].place != Active(w) && s.tasks[t].place != Owned(w) {
      assert PlaceOk(s, t) && RootOk(s, t);
    }
  }

  /** Inside a function, nothing but what that function lists and its own task changes. */
  lemma RootsInStack(s: State, s': State, w: WorkerId)
    requires Refs(s) && Roots(s) && IsRunning(s, w) && !Top(s, w).Publish?
    requires s'.tasks.Keys == s.tasks.Keys && s'.workers.Keys == s.workers.Keys && SameRoots(s.jobs, s'.jobs)
    requires forall t :: t in s.tasks && t !in AtTop(s, w) && !s.tasks[t].place.Free? && t != s.workers[w].t ==> s'.tasks[t] == s.tasks[t]
    requires forall t :: t in s.tasks && (t in AtTop(s, w) || s.tasks[t].place.Free? || t == s.workers[w].t) && Started(s'.tasks[t]) ==>
               s'.tasks[t].parent.Some? && s'.tasks[t].job in s.jobs && !s'.tasks[t].fn.Finish?
    requires forall v :: v in s.workers && v != w ==> s'.workers[v] == s.workers[v]
    requires s'.workers[w].Running? && s'.workers[w].frames != [] ==> !s'.workers[w].frames[0].Publish?
    ensures Roots(s')
  {
    NotARoot(s, w);
    forall t | t in AtTop(s, w) ensures !IsRoot(s.tasks[t]) { ListedAtTop(s, w, t); }
    forall t | t in s.tasks && !IsRoot(s.tasks[t])
      ensures !IsRoot(s'.tasks[t])
      ensures Started(s'.tasks[t]) ==> s'.tasks[t].job in s.jobs && !s'.tasks[t].fn.Finish?
    {
      assert NodeOk(s, t);
    }
    RootsAway(s, s', w);
  }

  lemma RootsSetContinuation(s: State, w: WorkerId)
    requires Refs(s) && Roots(s) && AtUser(s, w)
    ensures Roots(DoSetContinuation(s, w))
  {
    NotARoot(s, w);
    assert WorkerOk(s, w) && NodeOk(s, s.workers[w].t);
    RootsInStack(s, DoSetContinuation(s, w), w);
  }

  lemma RootsReturn(s: State, w: WorkerId)
    requires Refs(s) && Roots(s) && AtUser(s, w)
    ensures Roots(DoReturn(s, w))
  {
    NotARoot(s, w);
    assert WorkerOk(s, w) && NodeOk(s, s.workers[w].t);
    RootsInStack(s, DoReturn(s, w), w);
  }

  lemma RootsSplitCall(s: State, w: WorkerId)
    requires Refs(s) && Roots(s) && CanSplitCall(s, w)
    ensures Roots(DoSplitCall(s, w))
  {
    NotARoot(s, w);
    assert WorkerOk(s, w) && NodeOk(s, s.workers[w].t);
    RootsInStack(s, DoSplitCall(s, w), w);
  }

  lemma RootsSplitInline(s: State, w: WorkerId)
    requires Refs(s) && Roots(s) && WantsSplit(s, w)
    ensures Roots(DoSplitInline(s, w))
  {
    NotARoot(s, w);
    assert WorkerOk(s, w) && NodeOk(s, s.workers[w].t);
    RootsInStack(s, DoSplitInline(s, w), w);
  }

  lemma RootsSplitNew(s: State, w: WorkerId, r: TaskId)
    requires Refs(s) && Roots(s) && CanSplitNew(s, w, r)
    ensures Roots(DoSplitNew(s, w, r))
  {
    NotARoot(s, w);
    assert WorkerOk(s, w) && NodeOk(s, s.workers[w].t);
    RootsInStack(s, DoSplitNew(s, w, r), w);
  }

  lemma RootsSplitFree(s: State, w: WorkerId, r: TaskId)
    requires Refs(s) && Roots(s) && CanSplitFree(s, w, r)
    ensures Roots(DoSplitFree(s, w, r))
  {
    NotARoot(s, w);
    assert WorkerOk(s, w) && NodeOk(s, s.workers[w].t);
    RootsInStack(s, DoSplitFree(s, w, r), w);
  }

  lemma RootsSpawnBegin(s: State, w: WorkerId)
    requires Refs(s) && Roots(s) && AtUser(s, w)
    ensures Roots(DoSpawnBegin(s, w))
  {
    NotARoot(s, w);
    assert WorkerOk(s, w) && NodeOk(s, s.workers[w].t);
    RootsInStack(s, DoSpawnBegin(s, w), w);
  }

  lemma RootsSpawnNew(s: State, w: WorkerId, r: TaskId)
    requires Refs(s) && Roots(s) && CanSpawnNew(s, w, r)
    ensures Roots(DoSpawnNew(s, w, r))
  {
    NotARoot(s, w);
    assert WorkerOk(s, w) && NodeOk(s, s.workers[w].t);
    RootsInStack(s, DoSpawnNew(s, w, r), w);
  }

  lemma RootsSpawnDirect(s: State, w: WorkerId)
    requires Refs(s) && Roots(s) && AtSpawnEnd(s, w)
    ensures Roots(DoSpawnDirect(s, w))
  {
    NotARoot(s, w);
    assert WorkerOk(s, w) && NodeOk(s, s.workers[w].t);
    RootsInStack(s, DoSpawnDirect(s, w), w);
  }

  lemma RootsSpawnEnd(s: State, w: WorkerId)
    requires Refs(s) && Roots(s) && AtSpawnEnd(s, w)
    ensures Roots(DoSpawnEnd(s, w))
  {
    NotARoot(s, w);
    assert WorkerOk(s, w) && NodeOk(s, s.workers[w].t);
    RootsInStack(s, DoSpawnEnd(s, w), w);
  }

  lemma RootsCountBatch(s: State, w: WorkerId)
    requires Refs(s) && Roots(s) && CanCount(s, w)
    ensures Roots(DoCount(s, w))
  {
    NotARoot(s, w);
    assert WorkerOk(s, w) && NodeOk(s, s.workers[w].t);
    RootsInStack(s, DoCount(s, w), w);
  }

  lemma RootsPushBatch(s: State, w: WorkerId, acc: set<TaskId>)
    requires Refs(s) && Roots(s) && CanPush(s, w, acc)
    ensures Roots(DoPush(s, w, acc))
  {
    NotARoot(s, w);
    assert WorkerOk(s, w) && NodeOk(s, s.workers[w].t);
    RootsInStack(s, DoPush(s, w, acc), w);
  }

  lemma RootsRollback(s: State, w: WorkerId)
    requires Refs(s) && Roots(s) && CanRollback(s, w)
    ensures Roots(DoRollback(s, w))
  {
    NotARoot(s, w);
    assert WorkerOk(s, w) && NodeOk(s, s.workers[w].t);
    RootsInStack(s, DoRollback(s, w), w);
  }

  lemma RootsRunRejected(s: State, w: WorkerId, r: TaskId)
    requires Refs(s) && Roots(s) && CanRunRejected(s, w, r)
    ensures Roots(DoRunRejected(s, w, r))
  {
    NotARoot(s, w);
    assert WorkerOk(s, w) && NodeOk(s, s.workers[w].t);
    RootsInStack(s, DoRunRejected(s, w, r), w);
  }

  lemma RootsFreeRejected(s: State, w: WorkerId)
    requires Refs(s) && Roots(s) && CanFreeRejected(s, w)
    ensures Roots(DoFreeRejected(s, w))
  {
    NotARoot(s, w);
    assert WorkerOk(s, w) && NodeOk(s, s.workers[w].t);
    assert RecycleOk(s, w, TopIndex(s, w));
    RootsInStack(s, DoFreeRejected(s, w), w);
  }

  /** Between two functions, worker w changes one task only. */
  ghost predicate MovesOne(s: State, s': State, w: WorkerId, t: TaskId) {
    && w in s.workers && t in s.tasks && t in s'.tasks && s'.tasks == s.tasks[t := s'.tasks[t]]
    && s'.workers.Keys == s.workers.Keys
    && (forall v :: v in s.workers && v != w ==> s'.workers[v] == s.workers[v])
    && s'.tasks[t].job == s.tasks[t].job && s'.tasks[t].parent == s.tasks[t].parent
    && s'.tasks[t].pend == s.tasks[t].pend
    && (s'.tasks[t].fn == s.tasks[t].fn || s'.tasks[t].fn.Null?)
    && MineOrNobodys(s.tasks[t].place, w)
    && (Started(s'.tasks[t]) ==> Started(s.tasks[t]))
    && !s.workers[w].Running?
    && (Holds(s.workers[w]).Some? ==> Holds(s.workers[w]) == Some(t))
    && (s.workers[w].Owner? ==> s.workers[w].t == t)
  }

  lemma OtherRoot(s: State, s': State, w: WorkerId, t: TaskId, u: TaskId)
    requires MovesOne(s, s', w, t) && s'.jobs == s.jobs && u in s.tasks && u != t && PlaceOk(s, u) && RootOk(s, u)
    ensures RootOk(s', u)
  {
  }

  lemma RootsOne(s: State, s': State, w: WorkerId, t: TaskId)
    requires Refs(s) && Roots(s) && MovesOne(s, s', w, t) && s'.jobs == s.jobs
    requires s.tasks[t].parent.None? ==> RootOk(s', t)
    requires s.tasks[t].parent.None? && !Started(s'.tasks[t]) ==> s.tasks[t].job in s.jobs && s.jobs[s.tasks[t].job].done
    requires OnStackOk(s', w)
    ensures Roots(s')
  {
    assert RootOk(s, t) && NodeOk(s, t);
    forall u | u in s'.tasks ensures RootOk(s', u) {
      if u != t { OtherRoot(s, s', w, t, u); }
    }
    forall u | u in s'.tasks ensures NodeOk(s', u) {
      assert NodeOk(s, u);
    }
    forall v | v in s'.workers ensures OnStackOk(s', v) {
      if v != w { assert OnStackOk(s, v) && WorkerOk(s, v); }
    }
    forall j | j in s'.jobs ensures JobOk(s', j) {
      assert JobOk(s, j);
    }
  }

  lemma RootsTake(s: State, w: WorkerId, t: TaskId)
    requires Refs(s) && Roots(s) && CanTake(s, w, t)
    ensures Roots(DoTake(s, w, t))
  {
    assert PlaceOk(s, t) && NodeOk(s, t);
    RootsOne(s, DoTake(s, w, t), w, t);
  }

  lemma RootsDrop(s: State, w: WorkerId)
    requires Refs(s) && Roots(s) && CanDrop(s, w)
    ensures Roots(DoDrop(s, w))
  {
    var t := s.workers[w].t;
    assert WorkerOk(s, w) && RootOk(s, t) && NodeOk(s, t);
    RootsOne(s, DoDrop(s, w), w, t);
  }

  lemma RootsRunOwn(s: State, w: WorkerId)
    requires Refs(s) && Roots(s) && CanRunOwn(s, w)
    ensures Roots(DoRunOwn(s, w))
  {
    var t := s.workers[w].t;
    assert WorkerOk(s, w) && RootOk(s, t) && NodeOk(s, t);
    RootsOne(s, DoRunOwn(s, w), w, t);
  }

  lemma RootsArm(s: State, w: WorkerId)
    requires Refs(s) && Roots(s) && CanArm(s, w)
    ensures Roots(DoArm(s, w))
  {
    var t := s.workers[w].t;
    assert WorkerOk(s, w) && RootOk(s, t) && NodeOk(s, t);
    RootsOne(s, DoArm(s, w), w, t);
  }

  lemma RootsRequeue(s: State, w: WorkerId)
    requires Refs(s) && Roots(s) && CanRequeue(s, w)
    ensures Roots(DoRequeue(s, w))
  {
    var t := s.workers[w].t;
    assert WorkerOk(s, w) && RootOk(s, t) && NodeOk(s, t);
    RootsOne(s, DoRequeue(s, w), w, t);
  }

  lemma RootsRunArmed(s: State, w: WorkerId)
    requires Refs(s) && Roots(s) && AtArmed(s, w)
    ensures Roots(DoRunArmed(s, w))
  {
    var t := s.workers[w].t;
    assert WorkerOk(s, w) && RootOk(s, t) && NodeOk(s, t);
    RootsOne(s, DoRunArmed(s, w), w, t);
  }

  lemma RootsRetire(s: State, w: WorkerId)
    requires Refs(s) && Roots(s) && CanRetire(s, w)
    ensures Roots(DoRetire(s, w))
  {
    var t := s.workers[w].t;
    assert WorkerOk(s, w) && RootOk(s, t) && NodeOk(s, t);
    RootsOne(s, DoRetire(s, w), w, t);
  }

  /** A parent that still counts something else just loses one. */
  lemma RootsReported(s: State, w: WorkerId)
    requires Refs(s) && Roots(s) && Counts(s) && CanReport(s, w) && s.tasks[s.workers[w].p].deps != 1
    ensures Roots(DoReport(s, w))
  {
    var s', p := DoReport(s, w), s.workers[w].p;
    forall u | u in s'.tasks ensures RootOk(s', u) {
      assert RootOk(s, u) && PlaceOk(s, u);
    }
    forall u | u in s'.tasks ensures NodeOk(s', u) {
      assert NodeOk(s, u);
    }
    forall v | v in s'.workers ensures OnStackOk(s', v) {
      assert OnStackOk(s, v) && WorkerOk(s, v);
    }
    forall j | j in s'.jobs ensures JobOk(s', j) {
      assert JobOk(s, j);
    }
  }

  lemma RootsReport(s: State, w: WorkerId)
    requires Refs(s) && Counts(s) && Roots(s) && CanReport(s, w)
    ensures Roots(DoReport(s, w))
  {
    var p := s.workers[w].p;
    assert WorkerOk(s, w) && RootOk(s, p) && NodeOk(s, p);
    if s.tasks[p].deps == 1 {
      LastReporter(s, w, p);
      RootsOne(s, DoReport(s, w), w, p);
    } else {
      RootsReported(s, w);
    }
  }

  lemma RootsPublishDone(s: State, w: WorkerId)
    requires Refs(s) && Counts(s) && Roots(s) && AtPublish(s, w)
    ensures Roots(DoPublish(s, w))
  {
    var s', t := DoPublish(s, w), s.workers[w].t;
    assert WorkerOk(s, w) && RootOk(s, t) && NodeOk(s, t) && OnStackOk(s, w) && RunOk(s, w);
    assert Over(s, w) ==> CallOk(Below(s, w), Top(s, w));
    forall u | u in s'.tasks ensures RootOk(s', u) {
      assert RootOk(s, u) && PlaceOk(s, u);
    }
    forall u | u in s'.tasks ensures NodeOk(s', u) {
      assert NodeOk(s, u);
    }
    forall v | v in s'.workers ensures OnStackOk(s', v) {
      assert OnStackOk(s, v);
    }
    forall j | j in s'.jobs ensures JobOk(s', j) {
      assert JobOk(s, j);
    }
  }

  lemma RootsSubmitRoot(s: State, r: TaskId, n: nat, chunk: nat)
    requires Refs(s) && Counts(s) && Forest(s) && SubmitOk(s) && Roots(s) && CanSubmitRoot(s, r)
    ensures Roots(DoSubmitRoot(s, r, n, chunk))
  {
  }

  lemma RootsSubmitChild(s: State, c: TaskId)
    requires Refs(s) && Counts(s) && Forest(s) && SubmitOk(s) && Roots(s) && CanSubmitChild(s, c)
    ensures Roots(DoSubmitChild(s, c))
  {
  }

  lemma RootsDropRoot(s: State)
    requires Refs(s) && Counts(s) && Forest(s) && SubmitOk(s) && Roots(s) && CanDropRoot(s)
    ensures Roots(DoDropRoot(s))
  {
  }

  lemma RootsDropChild(s: State)
    requires Refs(s) && Counts(s) && Forest(s) && SubmitOk(s) && Roots(s) && CanDropChild(s)
    ensures Roots(DoDropChild(s))
  {
  }

  lemma RootsSubmitPush(s: State, j: JobId)
    requires Refs(s) && Counts(s) && Forest(s) && SubmitOk(s) && Roots(s) && CanSubmitPush(s, j)
    ensures Roots(DoSubmitPush(s, j))
  {
  }

  lemma LoopRoots(s: State, w: WorkerId, l: LoopEvent)
    requires Refs(s) && Counts(s) && Forest(s) && SubmitOk(s) && Roots(s) && LoopEnabled(s, w, l)
    ensures Roots(LoopApply(s, w, l))
  {
    match l
    case Take(t) => RootsTake(s, w, t);
    case Drop => RootsDrop(s, w);
    case RunOwn => RootsRunOwn(s, w);
    case Arm => RootsArm(s, w);
    case Requeue => RootsRequeue(s, w);
    case RunArmed => RootsRunArmed(s, w);
    case Retire => RootsRetire(s, w);
    case Report => RootsReport(s, w);
  }

  lemma StackRoots(s: State, w: WorkerId, f: StackEvent)
    requires Refs(s) && Counts(s) && Forest(s) && SubmitOk(s) && Roots(s) && StackEnabled(s, w, f)
    ensures Roots(StackApply(s, w, f))
  {
    match f
    case SetContinuation => RootsSetContinuation(s, w);
    case Return => RootsReturn(s, w);
    case PublishDone => RootsPublishDone(s, w);
    case SplitCall => RootsSplitCall(s, w);
    case SplitInline => RootsSplitInline(s, w);
    case SplitNew(r) => RootsSplitNew(s, w, r);
    case SplitFree(r) => RootsSplitFree(s, w, r);
    case SpawnBegin => RootsSpawnBegin(s, w);
    case SpawnNew(r) => RootsSpawnNew(s, w, r);
    case SpawnDirect => RootsSpawnDirect(s, w);
    case SpawnEnd => RootsSpawnEnd(s, w);
    case CountBatch => RootsCountBatch(s, w);
    case PushBatch(acc) => RootsPushBatch(s, w, acc);
    case Rollback => RootsRollback(s, w);
    case RunRejected(r) => RootsRunRejected(s, w, r);
    case FreeRejected => RootsFreeRejected(s, w);
  }

  lemma SubmitRoots(s: State, m: SubmitEvent)
    requires Refs(s) && Counts(s) && Forest(s) && SubmitOk(s) && Roots(s) && SubmitEnabled(s, m)
    ensures Roots(SubmitApply(s, m))
  {
    match m
    case SubmitRoot(r, n, chunk) => RootsSubmitRoot(s, r, n, chunk);
    case SubmitChild(c) => RootsSubmitChild(s, c);
    case DropRoot => RootsDropRoot(s);
    case DropChild => RootsDropChild(s);
    case SubmitPush(j) => RootsSubmitPush(s, j);
  }

  lemma StepRoots(s: State, e: Event)
    requires Refs(s) && Counts(s) && Forest(s) && SubmitOk(s) && Roots(s) && Enabled(s, e)
    ensures Roots(Apply(s, e))
  {
    match e
    case Loop(w, l) => LoopRoots(s, w, l);
    case Stack(w, f) => StackRoots(s, w, f);
    case Submit(m) => SubmitRoots(s, m);
  }
}
