/** Every event keeps each registered stage in one place: a task, a stack frame, or the past. */
module DagStages {
  import opened Basics
  import opened Splitting
  import opened TaskDag
  import opened DagInvariant
  import opened DagRefs

  ghost predicate SameRegs(s: State, s': State) {
    forall t, id :: Registered(s', t, id) <==> Registered(s, t, id)
  }

  ghost predicate SameStacks(s: State, s': State) {
    forall v, k, id :: OnStack(s', v, k, id) <==> OnStack(s, v, k, id)
  }

  /** Tasks keep what Registered looks at. */
  lemma RegsKept(s: State, s': State)
    requires s'.tasks.Keys == s.tasks.Keys
    requires forall t :: t in s.tasks ==>
               (s'.tasks[t].fn == s.tasks[t].fn && Started(s'.tasks[t]) == Started(s.tasks[t])) ||
               ((!s.tasks[t].fn.Code? || !Started(s.tasks[t])) && (!s'.tasks[t].fn.Code? || !Started(s'.tasks[t])))
    ensures SameRegs(s, s')
  {
  }

  /** No worker moves in or out of a client function. */
  lemma StacksKept(s: State, s': State, w: WorkerId)
    requires w in s.workers && s'.workers.Keys == s.workers.Keys
    requires forall v :: v in s.workers && v != w ==> s'.workers[v] == s.workers[v]
    requires !s.workers[w].Running? && !s'.workers[w].Running?
    ensures SameStacks(s, s')
  {
    forall v, k: nat, id: nat ensures OnStack(s', v, k, id) <==> OnStack(s, v, k, id) {
    }
  }

  /** What is on the stacks after the top frame of w was replaced by fs. */
  lemma StackAfter(s: State, s': State, w: WorkerId, fs: seq<Frame>, v: WorkerId, k: nat, id: StageId)
    requires IsRunning(s, w) && s'.workers == s.workers[w := WithTop(s, w, fs)]
    ensures OnStack(s', v, k, id) <==>
              if v == w && k >= TopIndex(s, w) then k - TopIndex(s, w) < |fs| && fs[k - TopIndex(s, w)] == User(id)
              else OnStack(s, v, k, id)
  {
  }

  lemma StagesSame(s: State, s': State)
    requires Stages(s) && SameRegs(s, s') && SameStacks(s, s') && s'.stages == s.stages
    ensures Stages(s')
  {
    forall id | 0 <= id < |s'.stages| ensures StageOk(s', id) {
      assert StageOk(s, id);
    }
  }

  /** No client function enters or leaves at the top. */
  lemma StagesQuiet(s: State, s': State, w: WorkerId, fs: seq<Frame>)
    requires Stages(s) && SameRegs(s, s') && s'.stages == s.stages
    requires IsRunning(s, w) && s'.workers == s.workers[w := WithTop(s, w, fs)]
    requires forall i :: 1 <= i < |fs| ==> !fs[i].User?
    requires (fs != [] && fs[0] == Top(s, w)) || (!Top(s, w).User? && (fs != [] ==> !fs[0].User?))
    ensures Stages(s')
  {
    forall v, k: nat, id: nat ensures OnStack(s', v, k, id) <==> OnStack(s, v, k, id) {
      StackAfter(s, s', w, fs, v, k, id);
    }
    StagesSame(s, s');
  }

  /** A new stage enters directly on the stack of w, as the last of the frames fs. */
  lemma StagesPush(s: State, s': State, w: WorkerId, fs: seq<Frame>)
    requires Stages(s) && SameRegs(s, s')
    requires IsRunning(s, w) && s'.workers == s.workers[w := WithTop(s, w, fs)] && !Top(s, w).User?
    requires fs != [] && fs[|fs|-1] == User(|s.stages|) && forall i :: 0 <= i < |fs| - 1 ==> !fs[i].User?
    requires s'.stages == s.stages + [Executing(w, TopIndex(s, w) + |fs| - 1)]
    ensures Stages(s')
  {
    forall v, k: nat, id: nat
      ensures OnStack(s', v, k, id) <==> OnStack(s, v, k, id) || (v == w && k == TopIndex(s, w) + |fs| - 1 && id == |s.stages|)
    {
      StackAfter(s, s', w, fs, v, k, id);
    }
    forall id | 0 <= id < |s'.stages| ensures StageOk(s', id) {
      if id < |s.stages| { assert StageOk(s, id); }
    }
  }

  /** A registered stage starts: it leaves its task and is the last of the frames fs. */
  ghost predicate Starts(s: State, s': State, t: TaskId, id: StageId, w: WorkerId, k: nat) {
    && Registered(s, t, id) && id < |s.stages| && s'.stages == s.stages[id := Executing(w, k)]
    && (forall u, i :: Registered(s', u, i) <==> Registered(s, u, i) && u != t)
    && (forall v, h, i :: OnStack(s', v, h, i) <==> OnStack(s, v, h, i) || (v == w && h == k && i == id))
  }

  lemma StagesStart(s: State, s': State, t: TaskId, id: StageId, w: WorkerId, k: nat)
    requires Stages(s) && Starts(s, s', t, id, w, k)
    ensures Stages(s')
  {
    forall i | 0 <= i < |s'.stages| ensures StageOk(s', i) {
      assert StageOk(s, i);
    }
  }

  /** StartStage, for a task held by w or by nobody. */
  lemma StagesStarted(s: State, w: WorkerId, t: TaskId, ctx: Ctx)
    requires Stages(s) && t in s.tasks && Started(s.tasks[t]) && !s.tasks[t].fn.Null? && w in s.workers && !s.workers[w].Running?
    ensures Stages(StartStage(s, w, t, ctx))
  {
    var s' := StartStage(s, w, t, ctx);
    if s.tasks[t].fn.Code? {
      var id := s.tasks[t].fn.id;
      assert Registered(s, t, id);
      StagesStart(s, s', t, id, w, 0);
    } else {
      forall v, k: nat, id: nat ensures OnStack(s', v, k, id) <==> OnStack(s, v, k, id) {
      }
      RegsKept(s, s');
      StagesSame(s, s');
    }
  }

  lemma StagesTake(s: State, w: WorkerId, t: TaskId)
    requires Refs(s) && Stages(s) && CanTake(s, w, t)
    ensures Stages(DoTake(s, w, t))
  {
    assert PlaceOk(s, t);
    StagesStarted(s, w, t, Main);
  }

  lemma StagesRunOwn(s: State, w: WorkerId)
    requires Refs(s) && Stages(s) && CanRunOwn(s, w)
    ensures Stages(DoRunOwn(s, w))
  {
    assert WorkerOk(s, w);
    StagesStarted(s, w, s.workers[w].t, Main);
  }

  lemma StagesRunArmed(s: State, w: WorkerId)
    requires Refs(s) && Stages(s) && AtArmed(s, w)
    ensures Stages(DoRunArmed(s, w))
  {
    assert WorkerOk(s, w);
    StagesStarted(s, w, s.workers[w].t, Cascade);
  }

  lemma LoopStages(s: State, w: WorkerId, l: LoopEvent)
    requires Refs(s) && Stages(s) && LoopEnabled(s, w, l)
    ensures Stages(LoopApply(s, w, l))
  {
    match l
    case Take(t) => StagesTake(s, w, t);
    case RunOwn => StagesRunOwn(s, w);
    case RunArmed => StagesRunArmed(s, w);
    case _ => LoopStagesSame(s, w, l);
  }

  /** Outside functions nothing happens to a stage unless one starts. */
  lemma LoopStagesSame(s: State, w: WorkerId, l: LoopEvent)
    requires Refs(s) && Stages(s) && LoopEnabled(s, w, l) && !l.Take? && !l.RunOwn? && !l.RunArmed?
    ensures Stages(LoopApply(s, w, l))
  {
    var s' := LoopApply(s, w, l);
    assert WorkerOk(s, w);
    RegsKept(s, s');
    StacksKept(s, s', w);
    StagesSame(s, s');
  }

  lemma StagesSetContinuation(s: State, w: WorkerId)
    requires Refs(s) && Stages(s) && AtUser(s, w)
    ensures Stages(DoSetContinuation(s, w))
  {
    var s', t := DoSetContinuation(s, w), s.workers[w].t;
    assert WorkerOk(s, w);
    if s.tasks[t].fn.Code? { assert Registered(s, t, s.tasks[t].fn.id); }
    assert SameStacks(s, s');
    forall u, id: nat
      ensures Registered(s', u, id) <==> (u == t && id == |s.stages|) || (u != t && Registered(s, u, id))
    {
    }
    forall id | 0 <= id < |s'.stages| ensures StageOk(s', id) {
      if id < |s.stages| { assert StageOk(s, id); }
    }
  }

  lemma StagesReturn(s: State, w: WorkerId)
    requires Refs(s) && Stages(s) && AtUser(s, w)
    ensures Stages(DoReturn(s, w))
  {
    var s', id0, top := DoReturn(s, w), Top(s, w).id, TopIndex(s, w);
    assert OnStack(s, w, top, id0);
    RegsKept(s, s');
    forall v, k: nat, id: nat ensures OnStack(s', v, k, id) <==> OnStack(s, v, k, id) && !(v == w && k == top) {
      if Over(s, w) { StackAfter(s, s', w, [], v, k, id); }
    }
    forall id | 0 <= id < |s'.stages| ensures StageOk(s', id) {
      assert StageOk(s, id);
    }
  }

  lemma StagesPublishDone(s: State, w: WorkerId)
    requires Refs(s) && Stages(s) && AtPublish(s, w)
    ensures Stages(DoPublish(s, w))
  {
    var s' := DoPublish(s, w);
    assert WorkerOk(s, w);
    assert Over(s, w) ==> CallOk(Below(s, w), Top(s, w));
    RegsKept(s, s');
    forall v, k: nat, id: nat ensures OnStack(s', v, k, id) <==> OnStack(s, v, k, id) {
    }
    StagesSame(s, s');
  }

  lemma StagesSpawnNew(s: State, w: WorkerId, r: TaskId)
    requires Refs(s) && Stages(s) && CanSpawnNew(s, w, r)
    ensures Stages(DoSpawnNew(s, w, r))
  {
    var s' := DoSpawnNew(s, w, r);
    assert SameStacks(s, s');
    forall u, id: nat ensures Registered(s', u, id) <==> (u == r && id == |s.stages|) || Registered(s, u, id) {
    }
    forall id | 0 <= id < |s'.stages| ensures StageOk(s', id) {
      if id < |s.stages| { assert StageOk(s, id); }
    }
  }

  lemma StagesRunRejected(s: State, w: WorkerId, r: TaskId)
    requires Refs(s) && Stages(s) && CanRunRejected(s, w, r)
    ensures Stages(DoRunRejected(s, w, r))
  {
    var s', top := DoRunRejected(s, w, r), TopIndex(s, w);
    ListedAtTop(s, w, r);
    var id := s.tasks[r].fn.id;
    assert Registered(s, r, id);
    forall v, k: nat, i: nat ensures OnStack(s', v, k, i) <==> OnStack(s, v, k, i) || (v == w && k == top + 1 && i == id) {
      StackAfter(s, s', w, [Recycle(r), User(id)], v, k, i);
    }
    StagesStart(s, s', r, id, w, top + 1);
  }

  lemma StagesSplitCall(s: State, w: WorkerId)
    requires Refs(s) && Stages(s) && CanSplitCall(s, w)
    ensures Stages(DoSplitCall(s, w))
  {
    RegsKept(s, DoSplitCall(s, w));
    StagesPush(s, DoSplitCall(s, w), w, [User(|s.stages|)]);
  }

  lemma StagesSplitInline(s: State, w: WorkerId)
    requires Refs(s) && Stages(s) && WantsSplit(s, w)
    ensures Stages(DoSplitInline(s, w))
  {
    RegsKept(s, DoSplitInline(s, w));
    StagesPush(s, DoSplitInline(s, w), w, [Split(Top(s, w).lo, SplitPoint(s, w)), User(|s.stages|)]);
  }

  lemma StagesSplitNew(s: State, w: WorkerId, r: TaskId)
    requires Refs(s) && Stages(s) && CanSplitNew(s, w, r)
    ensures Stages(DoSplitNew(s, w, r))
  {
    RegsKept(s, DoSplitNew(s, w, r));
    StagesQuiet(s, DoSplitNew(s, w, r), w, [Split(Top(s, w).lo, SplitPoint(s, w)), New]);
  }

  lemma StagesSplitFree(s: State, w: WorkerId, r: TaskId)
    requires Refs(s) && Stages(s) && CanSplitFree(s, w, r)
    ensures Stages(DoSplitFree(s, w, r))
  {
    assert r in TopBatch(s, w);
    ListedAtTop(s, w, r);
    RegsKept(s, DoSplitFree(s, w, r));
    StagesPush(s, DoSplitFree(s, w, r), w, [User(|s.stages|)]);
  }

  lemma StagesSpawnBegin(s: State, w: WorkerId)
    requires Refs(s) && Stages(s) && AtUser(s, w)
    ensures Stages(DoSpawnBegin(s, w))
  {
    RegsKept(s, DoSpawnBegin(s, w));
    StagesQuiet(s, DoSpawnBegin(s, w), w, [Top(s, w), New]);
  }

  lemma StagesSpawnDirect(s: State, w: WorkerId)
    requires Refs(s) && Stages(s) && AtSpawnEnd(s, w)
    ensures Stages(DoSpawnDirect(s, w))
  {
    RegsKept(s, DoSpawnDirect(s, w));
    StagesPush(s, DoSpawnDirect(s, w), w, [User(|s.stages|)]);
  }

  lemma StagesSpawnEnd(s: State, w: WorkerId)
    requires Refs(s) && Stages(s) && AtSpawnEnd(s, w)
    ensures Stages(DoSpawnEnd(s, w))
  {
    RegsKept(s, DoSpawnEnd(s, w));
    StagesQuiet(s, DoSpawnEnd(s, w), w, []);
  }

  lemma StagesCountBatch(s: State, w: WorkerId)
    requires Refs(s) && Stages(s) && CanCount(s, w)
    ensures Stages(DoCount(s, w))
  {
    RegsKept(s, DoCount(s, w));
    StagesQuiet(s, DoCount(s, w), w, [Offer]);
  }

  lemma StagesPushBatch(s: State, w: WorkerId, acc: set<TaskId>)
    requires Refs(s) && Stages(s) && CanPush(s, w, acc)
    ensures Stages(DoPush(s, w, acc))
  {
    RegsKept(s, DoPush(s, w, acc));
    StagesQuiet(s, DoPush(s, w, acc), w, if acc != TopBatch(s, w) then [Reject] else if Below(s, w).Split? then [] else [New]);
  }

  lemma StagesRollback(s: State, w: WorkerId)
    requires Refs(s) && Stages(s) && CanRollback(s, w)
    ensures Stages(DoRollback(s, w))
  {
    RegsKept(s, DoRollback(s, w));
    StagesQuiet(s, DoRollback(s, w), w, [Inline]);
  }

  lemma StagesFreeRejected(s: State, w: WorkerId)
    requires Refs(s) && Stages(s) && CanFreeRejected(s, w)
    ensures Stages(DoFreeRejected(s, w))
  {
    assert RecycleOk(s, w, TopIndex(s, w)) && PlaceOk(s, Top(s, w).c);
    RegsKept(s, DoFreeRejected(s, w));
    StagesQuiet(s, DoFreeRejected(s, w), w, [Inline]);
  }

  lemma StackStages(s: State, w: WorkerId, f: StackEvent)
    requires Refs(s) && Stages(s) && StackEnabled(s, w, f)
    ensures Stages(StackApply(s, w, f))
  {
    match f
    case SetContinuation => StagesSetContinuation(s, w);
    case Return => StagesReturn(s, w);
    case PublishDone => StagesPublishDone(s, w);
    case SplitCall => StagesSplitCall(s, w);
    case SplitInline => StagesSplitInline(s, w);
    case SplitNew(r) => StagesSplitNew(s, w, r);
    case SplitFree(r) => StagesSplitFree(s, w, r);
    case SpawnBegin => StagesSpawnBegin(s, w);
    case SpawnNew(r) => StagesSpawnNew(s, w, r);
    case SpawnDirect => StagesSpawnDirect(s, w);
    case SpawnEnd => StagesSpawnEnd(s, w);
    case CountBatch => StagesCountBatch(s, w);
    case PushBatch(acc) => StagesPushBatch(s, w, acc);
    case Rollback => StagesRollback(s, w);
    case RunRejected(r) => StagesRunRejected(s, w, r);
    case FreeRejected => StagesFreeRejected(s, w);
  }

  lemma SubmitStages(s: State, m: SubmitEvent)
    requires Refs(s) && SubmitOk(s) && Stages(s) && SubmitEnabled(s, m)
    ensures Stages(SubmitApply(s, m))
  {
    var s' := SubmitApply(s, m);
    assert forall t :: t in SubTasks(s.sub) ==> t in s.tasks && s.tasks[t].place.Submitting?;
    RegsKept(s, s');
    assert SameStacks(s, s');
    StagesSame(s, s');
  }

  lemma StepStages(s: State, e: Event)
    requires Refs(s) && SubmitOk(s) && Stages(s) && Enabled(s, e)
    ensures Stages(Apply(s, e))
  {
    match e
    case Loop(w, l) => LoopStages(s, w, l);
    case Stack(w, f) => StackStages(s, w, f);
    case Submit(m) => SubmitStages(s, m);
  }

  // ---------------------------------------------------------------- the splitter's single right part

  /** The splitter's right part is listed by the top frame. */
  lemma RightOnTop(s: State, w: WorkerId, k: nat)
    requires Refs(s) && HoldsRight(s, w, k)
    ensures IsRunning(s, w) && k == TopIndex(s, w)
  {
    var f := s.workers[w].frames;
    assert WorkerOk(s, w) && CallOk(f[k-1], f[k]);
    assert forall i :: 0 < i < |f| ==> CallOk(f[i-1], f[i]);
    assert k + 1 < |f| ==> CallOk(f[k + 1 - 1], f[k + 1]);
  }

  /** Tasks in the batches of the other workers stay there. */
  predicate KeepsOthers(s: State, s': State, w: WorkerId) {
    && w in s.workers && s'.workers.Keys == s.workers.Keys && s'.tasks.Keys == s.tasks.Keys
    && (forall v :: v in s.workers && v != w ==> s'.workers[v] == s.workers[v])
    && (forall c :: c in s.tasks ==> MovesFor(s.tasks[c].place, s'.tasks[c].place, w))
  }

  predicate MovesFor(p: Place, p': Place, w: WorkerId) {
    p' == p || (InNoBatch(p, w) && InNoBatch(p', w))
  }

  /** Not in the batch of a worker other than w. */
  predicate InNoBatch(p: Place, w: WorkerId) {
    (p.Fresh? ==> p.w == w) && (p.Offered? ==> p.w == w)
  }

  lemma SoloByParts(s: State, s': State, w: WorkerId)
    requires Solo(s) && Refs(s') && KeepsOthers(s, s', w)
    requires IsRunning(s', w) && HoldsRight(s', w, TopIndex(s', w)) ==> |TopBatch(s', w)| == 1
    ensures Solo(s')
  {
    forall v, k: nat | HoldsRight(s', v, k) ensures |Batch(s', v, k)| == 1 {
      if v == w {
        RightOnTop(s', w, k);
      } else {
        assert HoldsRight(s, v, k);
        assert Batch(s', v, k) == Batch(s, v, k);
      }
    }
  }

  lemma LoopKeeps(s: State, w: WorkerId, l: LoopEvent)
    requires w in s.workers && WorkerOk(s, w) && LoopEnabled(s, w, l)
    ensures KeepsOthers(s, LoopApply(s, w, l), w)
    ensures IsRunning(LoopApply(s, w, l), w) ==> TopIndex(LoopApply(s, w, l), w) == 0
  {
  }

  lemma LoopSolo(s: State, w: WorkerId, l: LoopEvent)
    requires Refs(s) && Solo(s) && LoopEnabled(s, w, l) && Refs(LoopApply(s, w, l))
    ensures Solo(LoopApply(s, w, l))
  {
    LoopKeeps(s, w, l);
    SoloByParts(s, LoopApply(s, w, l), w);
  }

  lemma SoloSetContinuation(s: State, w: WorkerId)
    requires Refs(s) && Solo(s) && AtUser(s, w)
    requires Refs(DoSetContinuation(s, w))
    ensures Solo(DoSetContinuation(s, w))
  {
    assert WorkerOk(s, w);
    SoloByParts(s, DoSetContinuation(s, w), w);
  }

  lemma SoloReturn(s: State, w: WorkerId)
    requires Refs(s) && Solo(s) && AtUser(s, w)
    requires Refs(DoReturn(s, w))
    ensures Solo(DoReturn(s, w))
  {
    assert WorkerOk(s, w);
    SoloByParts(s, DoReturn(s, w), w);
  }

  lemma SoloPublishDone(s: State, w: WorkerId)
    requires Refs(s) && Solo(s) && AtPublish(s, w)
    requires Refs(DoPublish(s, w))
    ensures Solo(DoPublish(s, w))
  {
    assert WorkerOk(s, w);
    SoloByParts(s, DoPublish(s, w), w);
  }

  lemma SoloSplitCall(s: State, w: WorkerId)
    requires Refs(s) && Solo(s) && CanSplitCall(s, w)
    requires Refs(DoSplitCall(s, w))
    ensures Solo(DoSplitCall(s, w))
  {
    assert WorkerOk(s, w);
    SoloByParts(s, DoSplitCall(s, w), w);
  }

  lemma SoloSplitInline(s: State, w: WorkerId)
    requires Refs(s) && Solo(s) && WantsSplit(s, w)
    requires Refs(DoSplitInline(s, w))
    ensures Solo(DoSplitInline(s, w))
  {
    assert WorkerOk(s, w);
    SoloByParts(s, DoSplitInline(s, w), w);
  }

  lemma SoloSpawnBegin(s: State, w: WorkerId)
    requires Refs(s) && Solo(s) && AtUser(s, w)
    requires Refs(DoSpawnBegin(s, w))
    ensures Solo(DoSpawnBegin(s, w))
  {
    assert WorkerOk(s, w);
    SoloByParts(s, DoSpawnBegin(s, w), w);
  }

  lemma SoloSpawnDirect(s: State, w: WorkerId)
    requires Refs(s) && Solo(s) && AtSpawnEnd(s, w)
    requires Refs(DoSpawnDirect(s, w))
    ensures Solo(DoSpawnDirect(s, w))
  {
    assert WorkerOk(s, w);
    SoloByParts(s, DoSpawnDirect(s, w), w);
  }

  lemma SoloSpawnEnd(s: State, w: WorkerId)
    requires Refs(s) && Solo(s) && AtSpawnEnd(s, w)
    requires Refs(DoSpawnEnd(s, w))
    ensures Solo(DoSpawnEnd(s, w))
  {
    assert WorkerOk(s, w);
    SoloByParts(s, DoSpawnEnd(s, w), w);
  }

  lemma SoloSpawnNew(s: State, w: WorkerId, r: TaskId)
    requires Refs(s) && Solo(s) && CanSpawnNew(s, w, r)
    requires Refs(DoSpawnNew(s, w, r))
    ensures Solo(DoSpawnNew(s, w, r))
  {
    assert WorkerOk(s, w);
    SoloByParts(s, DoSpawnNew(s, w, r), w);
  }

  lemma SoloSplitFree(s: State, w: WorkerId, r: TaskId)
    requires Refs(s) && Solo(s) && CanSplitFree(s, w, r)
    requires Refs(DoSplitFree(s, w, r))
    ensures Solo(DoSplitFree(s, w, r))
  {
    assert WorkerOk(s, w);
    assert r in TopBatch(s, w);
    ListedAtTop(s, w, r);
    SoloByParts(s, DoSplitFree(s, w, r), w);
  }

  lemma SoloRunRejected(s: State, w: WorkerId, r: TaskId)
    requires Refs(s) && Solo(s) && CanRunRejected(s, w, r)
    requires Refs(DoRunRejected(s, w, r))
    ensures Solo(DoRunRejected(s, w, r))
  {
    assert WorkerOk(s, w);
    assert r in TopBatch(s, w);
    ListedAtTop(s, w, r);
    SoloByParts(s, DoRunRejected(s, w, r), w);
  }

  lemma SoloFreeRejected(s: State, w: WorkerId)
    requires Refs(s) && Solo(s) && CanFreeRejected(s, w)
    requires Refs(DoFreeRejected(s, w))
    ensures Solo(DoFreeRejected(s, w))
  {
    assert WorkerOk(s, w) && RecycleOk(s, w, TopIndex(s, w));
    SoloByParts(s, DoFreeRejected(s, w), w);
  }

  lemma SoloSplitNew(s: State, w: WorkerId, r: TaskId)
    requires Refs(s) && Solo(s) && CanSplitNew(s, w, r)
    requires Refs(DoSplitNew(s, w, r))
    ensures Solo(DoSplitNew(s, w, r))
  {
    var s' := DoSplitNew(s, w, r);
    assert WorkerOk(s, w);
    NoneAtTop(s, w);
    assert TopIndex(s', w) == TopIndex(s, w) + 1;
    assert TopBatch(s', w) == {r} by {
      forall c | c in s.tasks ensures !AtFrame(s.tasks[c].place, w, TopIndex(s, w) + 1) {
        assert PlaceOk(s, c);
      }
    }
    SoloByParts(s, s', w);
  }

  lemma SoloCountBatch(s: State, w: WorkerId)
    requires Refs(s) && Solo(s) && CanCount(s, w)
    requires Refs(DoCount(s, w))
    ensures Solo(DoCount(s, w))
  {
    var s' := DoCount(s, w);
    assert WorkerOk(s, w);
    forall c | c in TopBatch(s, w) ensures c != s.workers[w].t { ListedAtTop(s, w, c); }
    assert TopIndex(s', w) == TopIndex(s, w);
    assert TopBatch(s', w) == TopBatch(s, w);
    if Below(s, w).Split? { assert HoldsRight(s, w, TopIndex(s, w)); }
    SoloByParts(s, s', w);
  }

  lemma SoloRollback(s: State, w: WorkerId)
    requires Refs(s) && Solo(s) && CanRollback(s, w)
    requires Refs(DoRollback(s, w))
    ensures Solo(DoRollback(s, w))
  {
    var s' := DoRollback(s, w);
    assert WorkerOk(s, w);
    forall c | c in TopBatch(s, w) ensures c != s.workers[w].t { ListedAtTop(s, w, c); }
    assert TopIndex(s', w) == TopIndex(s, w);
    assert TopBatch(s', w) == TopBatch(s, w);
    if Below(s, w).Split? { assert HoldsRight(s, w, TopIndex(s, w)); }
    SoloByParts(s, s', w);
  }

  lemma SoloPushBatch(s: State, w: WorkerId, acc: set<TaskId>)
    requires Refs(s) && Solo(s) && CanPush(s, w, acc)
    requires Refs(DoPush(s, w, acc))
    ensures Solo(DoPush(s, w, acc))
  {
    var s' := DoPush(s, w, acc);
    assert WorkerOk(s, w);
    forall c | c in TopBatch(s, w) ensures c != s.workers[w].t { ListedAtTop(s, w, c); }
    if Below(s, w).Split? {
      assert HoldsRight(s, w, TopIndex(s, w));
      if acc != TopBatch(s, w) {
        SubsetOfOne(TopBatch(s, w), acc);
        assert TopBatch(s', w) == TopBatch(s, w);
      }
    }
    SoloByParts(s, s', w);
  }

  lemma SubsetOfOne(b: set<TaskId>, acc: set<TaskId>)
    requires |b| == 1 && acc < b
    ensures acc == {}
  {
    var x :| x in b && x !in acc;
    assert |b - {x}| == 0;
    assert acc <= b - {x};
  }

  lemma StackSolo(s: State, w: WorkerId, f: StackEvent)
    requires Refs(s) && Solo(s) && StackEnabled(s, w, f) && Refs(StackApply(s, w, f))
    ensures Solo(StackApply(s, w, f))
  {
    match f
    case SetContinuation => SoloSetContinuation(s, w);
    case Return => SoloReturn(s, w);
    case PublishDone => SoloPublishDone(s, w);
    case SplitCall => SoloSplitCall(s, w);
    case SplitInline => SoloSplitInline(s, w);
    case SplitNew(r) => SoloSplitNew(s, w, r);
    case SplitFree(r) => SoloSplitFree(s, w, r);
    case SpawnBegin => SoloSpawnBegin(s, w);
    case SpawnNew(r) => SoloSpawnNew(s, w, r);
    case SpawnDirect => SoloSpawnDirect(s, w);
    case SpawnEnd => SoloSpawnEnd(s, w);
    case CountBatch => SoloCountBatch(s, w);
    case PushBatch(acc) => SoloPushBatch(s, w, acc);
    case Rollback => SoloRollback(s, w);
    case RunRejected(r) => SoloRunRejected(s, w, r);
    case FreeRejected => SoloFreeRejected(s, w);
  }

  lemma SubmitSolo(s: State, m: SubmitEvent)
    requires Refs(s) && Solo(s) && SubmitEnabled(s, m)
    ensures Solo(SubmitApply(s, m))
  {
    var s' := SubmitApply(s, m);
    assert forall t :: t in SubTasks(s.sub) ==> t in s.tasks && s.tasks[t].place.Submitting?;
    forall v, k: nat | HoldsRight(s', v, k) ensures |Batch(s', v, k)| == 1 {
      assert HoldsRight(s, v, k);
      assert Batch(s', v, k) == Batch(s, v, k);
    }
  }

  lemma StepSolo(s: State, e: Event)
    requires Refs(s) && Solo(s) && Enabled(s, e) && Refs(Apply(s, e))
    ensures Solo(Apply(s, e))
  {
    match e
    case Loop(w, l) => LoopSolo(s, w, l);
    case Stack(w, f) => StackSolo(s, w, f);
    case Submit(m) => SubmitSolo(s, m);
  }
}
