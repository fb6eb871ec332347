/** Every event keeps the parent links of live tasks a forest of live tasks. */
module DagForest {
  import opened Basics
  import opened Splitting
  import opened TaskDag
  import opened DagInvariant
  import opened DagRefs

  /** No live task has p as its parent. */
  ghost predicate Childless(s: State, p: TaskId) {
    forall t :: t in s.tasks && Started(s.tasks[t]) ==> s.tasks[t].parent != Some(p)
  }

  /** Once nothing is counted and no function of p is running, p has no live child at all. */
  lemma NothingBelow(s: State, p: TaskId)
    requires Refs(s) && p in s.tasks && Kids(s.tasks, p) == {}
    requires forall w :: w in s.workers && s.workers[w].Running? && s.workers[w].t == p ==> s.workers[w].frames == [Publish]
    ensures Childless(s, p)
  {
    forall t | t in s.tasks && Started(s.tasks[t]) ensures s.tasks[t].parent != Some(p) {
      assert PlaceOk(s, t);
      assert t !in Kids(s.tasks, p);
      match s.tasks[t].place
      case Fresh(w, k) => assert WorkerOk(s, w);
      case Recycled(w, k) => assert WorkerOk(s, w);
      case _ =>
    }
  }

  predicate SameNode(a: Task, b: Task) {
    a.serial == b.serial && a.parent == b.parent && a.job == b.job
  }

  /** The tasks outside `x` keep their place in the forest. */
  lemma ForestByParts(s: State, s': State, x: set<TaskId>)
    requires Forest(s) && s'.tasks.Keys == s.tasks.Keys && s.clock <= s'.clock
    requires forall t :: t in s.tasks && t !in x ==>
               SameNode(s'.tasks[t], s.tasks[t]) && (s'.tasks[t].place == s.tasks[t].place || s'.tasks[t].place.Free?)
    requires forall p :: p in s.tasks && p in x && Started(s.tasks[p]) ==>
               Childless(s, p) || (SameNode(s'.tasks[p], s.tasks[p]) && (Reportable(s.tasks[p].place) ==> Reportable(s'.tasks[p].place)))
    requires forall p :: p in s.tasks && p !in x && Reportable(s.tasks[p].place) && !Reportable(s'.tasks[p].place) ==> Childless(s, p)
    requires forall t :: t in x && t in s.tasks ==> TreeOk(s', t)
    ensures Forest(s')
  {
    forall t | t in s'.tasks ensures TreeOk(s', t) {
      if t !in x && Started(s'.tasks[t]) {
        assert TreeOk(s, t);
        if s.tasks[t].parent.Some? {
          var p := s.tasks[t].parent.value;
          assert !Childless(s, p);
        }
      }
    }
  }

  lemma ForestTake(s: State, w: WorkerId, t: TaskId)
    requires Refs(s) && Counts(s) && Forest(s) && SubmitOk(s) && CanTake(s, w, t)
    ensures Forest(DoTake(s, w, t))
  {
    ForestByParts(s, DoTake(s, w, t), {t});
  }

  lemma ForestRunOwn(s: State, w: WorkerId)
    requires Refs(s) && Counts(s) && Forest(s) && SubmitOk(s) && CanRunOwn(s, w)
    ensures Forest(DoRunOwn(s, w))
  {
    ForestByParts(s, DoRunOwn(s, w), {s.workers[w].t});
  }

  lemma ForestArm(s: State, w: WorkerId)
    requires Refs(s) && Counts(s) && Forest(s) && SubmitOk(s) && CanArm(s, w)
    ensures Forest(DoArm(s, w))
  {
    ForestByParts(s, DoArm(s, w), {s.workers[w].t});
  }

  lemma ForestRequeue(s: State, w: WorkerId)
    requires Refs(s) && Counts(s) && Forest(s) && SubmitOk(s) && CanRequeue(s, w)
    ensures Forest(DoRequeue(s, w))
  {
    ForestByParts(s, DoRequeue(s, w), {s.workers[w].t});
  }

  lemma ForestRunArmed(s: State, w: WorkerId)
    requires Refs(s) && Counts(s) && Forest(s) && SubmitOk(s) && AtArmed(s, w)
    ensures Forest(DoRunArmed(s, w))
  {
    ForestByParts(s, DoRunArmed(s, w), {s.workers[w].t});
  }

  lemma ForestSetContinuation(s: State, w: WorkerId)
    requires Refs(s) && Counts(s) && Forest(s) && SubmitOk(s) && AtUser(s, w)
    ensures Forest(DoSetContinuation(s, w))
  {
    ForestByParts(s, DoSetContinuation(s, w), {});
  }

  lemma ForestReturn(s: State, w: WorkerId)
    requires Refs(s) && Counts(s) && Forest(s) && SubmitOk(s) && AtUser(s, w)
    ensures Forest(DoReturn(s, w))
  {
    ForestByParts(s, DoReturn(s, w), {});
  }

  lemma ForestPublishDone(s: State, w: WorkerId)
    requires Refs(s) && Counts(s) && Forest(s) && SubmitOk(s) && AtPublish(s, w)
    ensures Forest(DoPublish(s, w))
  {
    ForestByParts(s, DoPublish(s, w), {});
  }

  lemma ForestSplitCall(s: State, w: WorkerId)
    requires Refs(s) && Counts(s) && Forest(s) && SubmitOk(s) && CanSplitCall(s, w)
    ensures Forest(DoSplitCall(s, w))
  {
    ForestByParts(s, DoSplitCall(s, w), {});
  }

  lemma ForestSplitInline(s: State, w: WorkerId)
    requires Refs(s) && Counts(s) && Forest(s) && SubmitOk(s) && WantsSplit(s, w)
    ensures Forest(DoSplitInline(s, w))
  {
    ForestByParts(s, DoSplitInline(s, w), {});
  }

  lemma ForestSplitFree(s: State, w: WorkerId, t: TaskId)
    requires Refs(s) && Counts(s) && Forest(s) && SubmitOk(s) && CanSplitFree(s, w, t)
    ensures Forest(DoSplitFree(s, w, t))
  {
    ForestByParts(s, DoSplitFree(s, w, t), {});
  }

  lemma ForestSpawnBegin(s: State, w: WorkerId)
    requires Refs(s) && Counts(s) && Forest(s) && SubmitOk(s) && AtUser(s, w)
    ensures Forest(DoSpawnBegin(s, w))
  {
    ForestByParts(s, DoSpawnBegin(s, w), {});
  }

  lemma ForestSpawnDirect(s: State, w: WorkerId)
    requires Refs(s) && Counts(s) && Forest(s) && SubmitOk(s) && AtSpawnEnd(s, w)
    ensures Forest(DoSpawnDirect(s, w))
  {
    ForestByParts(s, DoSpawnDirect(s, w), {});
  }

  lemma ForestSpawnEnd(s: State, w: WorkerId)
    requires Refs(s) && Counts(s) && Forest(s) && SubmitOk(s) && AtSpawnEnd(s, w)
    ensures Forest(DoSpawnEnd(s, w))
  {
    ForestByParts(s, DoSpawnEnd(s, w), {});
  }

  lemma ForestRunRejected(s: State, w: WorkerId, t: TaskId)
    requires Refs(s) && Counts(s) && Forest(s) && SubmitOk(s) && CanRunRejected(s, w, t)
    ensures Forest(DoRunRejected(s, w, t))
  {
    ForestByParts(s, DoRunRejected(s, w, t), {t});
  }

  lemma ForestFreeRejected(s: State, w: WorkerId)
    requires Refs(s) && Forest(s) && CanFreeRejected(s, w)
    ensures Forest(DoFreeRejected(s, w))
  {
    var c := Top(s, w).c;
    assert RecycleOk(s, w, TopIndex(s, w));
    ForestByParts(s, DoFreeRejected(s, w), {});
  }

  lemma ForestDrop(s: State, w: WorkerId)
    requires Refs(s) && Counts(s) && Forest(s) && SubmitOk(s) && CanDrop(s, w)
    ensures Forest(DoDrop(s, w))
  {
    ForestByParts(s, DoDrop(s, w), {s.workers[w].t});
  }

  lemma ForestRetire(s: State, w: WorkerId)
    requires Refs(s) && Counts(s) && Forest(s) && SubmitOk(s) && CanRetire(s, w)
    ensures Forest(DoRetire(s, w))
  {
    ForestByParts(s, DoRetire(s, w), {});
  }

  lemma ForestReport(s: State, w: WorkerId)
    requires Refs(s) && Counts(s) && Forest(s) && CanReport(s, w)
    ensures Forest(DoReport(s, w))
  {
    var p := s.workers[w].p;
    if s.tasks[p].deps == 1 {
      LastReporter(s, w, p);
      assert PlaceOk(s, p);
      NothingBelow(s, p);
    }
    assert TreeOk(s, p) && WorkerOk(s, w);
    ForestByParts(s, DoReport(s, w), {p});
  }

  lemma ForestSplitNew(s: State, w: WorkerId, t: TaskId)
    requires Refs(s) && Counts(s) && Forest(s) && SubmitOk(s) && CanSplitNew(s, w, t)
    ensures Forest(DoSplitNew(s, w, t))
  {
    ForestByParts(s, DoSplitNew(s, w, t), {t});
  }

  lemma ForestSpawnNew(s: State, w: WorkerId, t: TaskId)
    requires Refs(s) && Counts(s) && Forest(s) && SubmitOk(s) && CanSpawnNew(s, w, t)
    ensures Forest(DoSpawnNew(s, w, t))
  {
    ForestByParts(s, DoSpawnNew(s, w, t), {t});
  }

  /** A batch that only changes sides stays where it is in the forest. */
  lemma BatchTrees(s: State, s': State, w: WorkerId, b: set<TaskId>)
    requires Forest(s) && IsRunning(s, w) && s.workers[w].t !in b && s'.clock == s.clock
    requires s'.tasks.Keys == s.tasks.Keys && b <= s.tasks.Keys
    requires forall t :: t in s.tasks && t !in b ==> SameNode(s'.tasks[t], s.tasks[t]) && s'.tasks[t].place == s.tasks[t].place
    requires forall c :: c in b ==> SameNode(s'.tasks[c], s.tasks[c]) && s.tasks[c].parent.Some?
    requires forall c :: c in b ==> Started(s.tasks[c]) && !Reportable(s.tasks[c].place) && !Reportable(s'.tasks[c].place)
    ensures Forest(s')
  {
    forall t | t in s'.tasks ensures TreeOk(s', t) {
      assert TreeOk(s, t);
    }
  }

  lemma ForestCountBatch(s: State, w: WorkerId)
    requires Refs(s) && Forest(s) && CanCount(s, w)
    ensures Forest(DoCount(s, w))
  {
    var b := TopBatch(s, w);
    forall c | c in b ensures c != s.workers[w].t && s.tasks[c].parent.Some? && TreeOk(s, c) {
      ListedAtTop(s, w, c);
    }
    BatchTrees(s, DoCount(s, w), w, b);
  }

  lemma ForestRollback(s: State, w: WorkerId)
    requires Refs(s) && Forest(s) && CanRollback(s, w)
    ensures Forest(DoRollback(s, w))
  {
    var b := TopBatch(s, w);
    forall c | c in b ensures c != s.workers[w].t && s.tasks[c].parent.Some? && TreeOk(s, c) {
      ListedAtTop(s, w, c);
    }
    BatchTrees(s, DoRollback(s, w), w, b);
  }

  lemma ForestPushBatch(s: State, w: WorkerId, acc: set<TaskId>)
    requires Refs(s) && Counts(s) && Forest(s) && SubmitOk(s) && CanPush(s, w, acc)
    ensures Forest(DoPush(s, w, acc))
  {
    ForestByParts(s, DoPush(s, w, acc), acc);
  }

  lemma ForestSubmitRoot(s: State, t: TaskId, n: nat, n2: nat)
    requires Refs(s) && Counts(s) && Forest(s) && SubmitOk(s) && CanSubmitRoot(s, t)
    ensures Forest(DoSubmitRoot(s, t, n, n2))
  {
    ForestByParts(s, DoSubmitRoot(s, t, n, n2), {t});
  }

  lemma ForestSubmitChild(s: State, t: TaskId)
    requires Refs(s) && Counts(s) && Forest(s) && SubmitOk(s) && CanSubmitChild(s, t)
    ensures Forest(DoSubmitChild(s, t))
  {
    ForestByParts(s, DoSubmitChild(s, t), {t});
  }

  lemma ForestDropRoot(s: State)
    requires Refs(s) && Counts(s) && Forest(s) && SubmitOk(s) && CanDropRoot(s)
    ensures Forest(DoDropRoot(s))
  {
    ForestByParts(s, DoDropRoot(s), {});
  }

  lemma ForestDropChild(s: State)
    requires Refs(s) && Counts(s) && Forest(s) && SubmitOk(s) && CanDropChild(s)
    ensures Forest(DoDropChild(s))
  {
    ForestByParts(s, DoDropChild(s), {});
  }

  lemma ForestSubmitPush(s: State, j: JobId)
    requires Refs(s) && Counts(s) && Forest(s) && SubmitOk(s) && CanSubmitPush(s, j)
    ensures Forest(DoSubmitPush(s, j))
  {
    ForestByParts(s, DoSubmitPush(s, j), {s.sub.r, s.sub.c});
  }

  lemma LoopForest(s: State, w: WorkerId, l: LoopEvent)
    requires Refs(s) && Counts(s) && Forest(s) && SubmitOk(s) && LoopEnabled(s, w, l)
    ensures Forest(LoopApply(s, w, l))
  {
    match l
    case Take(t) => ForestTake(s, w, t);
    case Drop => ForestDrop(s, w);
    case RunOwn => ForestRunOwn(s, w);
    case Arm => ForestArm(s, w);
    case Requeue => ForestRequeue(s, w);
    case RunArmed => ForestRunArmed(s, w);
    case Retire => ForestRetire(s, w);
    case Report => ForestReport(s, w);
  }

  lemma StackForest(s: State, w: WorkerId, f: StackEvent)
    requires Refs(s) && Counts(s) && Forest(s) && SubmitOk(s) && StackEnabled(s, w, f)
    ensures Forest(StackApply(s, w, f))
  {
    match f
    case SetContinuation => ForestSetContinuation(s, w);
    case Return => ForestReturn(s, w);
    case PublishDone => ForestPublishDone(s, w);
    case SplitCall => ForestSplitCall(s, w);
    case SplitInline => ForestSplitInline(s, w);
    case SplitNew(r) => ForestSplitNew(s, w, r);
    case SplitFree(r) => ForestSplitFree(s, w, r);
    case SpawnBegin => ForestSpawnBegin(s, w);
    case SpawnNew(r) => ForestSpawnNew(s, w, r);
    case SpawnDirect => ForestSpawnDirect(s, w);
    case SpawnEnd => ForestSpawnEnd(s, w);
    case CountBatch => ForestCountBatch(s, w);
    case PushBatch(acc) => ForestPushBatch(s, w, acc);
    case Rollback => ForestRollback(s, w);
    case RunRejected(r) => ForestRunRejected(s, w, r);
    case FreeRejected => ForestFreeRejected(s, w);
  }

  lemma SubmitForest(s: State, m: SubmitEvent)
    requires Refs(s) && Counts(s) && Forest(s) && SubmitOk(s) && SubmitEnabled(s, m)
    ensures Forest(SubmitApply(s, m))
  {
    match m
    case SubmitRoot(r, n, chunk) => ForestSubmitRoot(s, r, n, chunk);
    case SubmitChild(c) => ForestSubmitChild(s, c);
    case DropRoot => ForestDropRoot(s);
    case DropChild => ForestDropChild(s);
    case SubmitPush(j) => ForestSubmitPush(s, j);
  }

  lemma StepForest(s: State, e: Event)
    requires Refs(s) && Counts(s) && Forest(s) && SubmitOk(s) && Enabled(s, e)
    ensures Forest(Apply(s, e))
  {
    match e
    case Loop(w, l) => LoopForest(s, w, l);
    case Stack(w, f) => StackForest(s, w, f);
    case Submit(m) => SubmitForest(s, m);
  }

  /** Workers leave the submitting thread's nodes alone. */
  lemma SubmitKept(s: State, s': State)
    requires Refs(s) && SubmitOk(s) && s'.sub == s.sub && s'.tasks.Keys == s.tasks.Keys
    requires forall t :: t in s.tasks && s.tasks[t].place.Submitting? ==> s'.tasks[t] == s.tasks[t]
    ensures SubmitOk(s')
  {
    forall t | t in SubTasks(s.sub) ensures t in s.tasks && s.tasks[t].place.Submitting? {}
  }

  lemma LoopSubmitOk(s: State, w: WorkerId, l: LoopEvent)
    requires Refs(s) && SubmitOk(s) && LoopEnabled(s, w, l)
    ensures SubmitOk(LoopApply(s, w, l))
  {
    assert WorkerOk(s, w);
    SubmitKept(s, LoopApply(s, w, l));
  }

  lemma StackSubmitOk(s: State, w: WorkerId, f: StackEvent)
    requires Refs(s) && SubmitOk(s) && StackEnabled(s, w, f)
    ensures SubmitOk(StackApply(s, w, f))
  {
    StackLeavesSubmitted(s, w, f);
    SubmitKept(s, StackApply(s, w, f));
  }

  lemma StackLeavesSubmitted(s: State, w: WorkerId, f: StackEvent)
    requires Refs(s) && StackEnabled(s, w, f)
    ensures StackApply(s, w, f).sub == s.sub && StackApply(s, w, f).tasks.Keys == s.tasks.Keys
    ensures forall t :: t in s.tasks && s.tasks[t].place.Submitting? ==> StackApply(s, w, f).tasks[t] == s.tasks[t]
  {
    assert WorkerOk(s, w);
    if f.FreeRejected? { assert RecycleOk(s, w, TopIndex(s, w)); }
    StackLeaves(s, w, f);
  }

  lemma StackLeaves(s: State, w: WorkerId, f: StackEvent)
    requires StackEnabled(s, w, f)
    ensures StackApply(s, w, f).sub == s.sub && StackApply(s, w, f).tasks.Keys == s.tasks.Keys
    ensures forall t :: t in s.tasks && s.tasks[t].place.Submitting? && t != s.workers[w].t && !(f.FreeRejected? && t == Top(s, w).c) ==>
              StackApply(s, w, f).tasks[t] == s.tasks[t]
  {
  }

  lemma StepSubmitOk(s: State, e: Event)
    requires Refs(s) && SubmitOk(s) && Forest(s) && Enabled(s, e)
    ensures SubmitOk(Apply(s, e))
  {
    match e
    case Loop(w, l) => LoopSubmitOk(s, w, l);
    case Stack(w, f) => StackSubmitOk(s, w, f);
    case Submit(m) => assert forall t :: t in SubTasks(s.sub) ==> t in s.tasks && s.tasks[t].place.Submitting?;
  }
}
