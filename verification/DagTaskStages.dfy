/** Which task a function is run for. */
module DagTaskStages {
  import opened Basics
  import opened Splitting
  import opened TaskDag
  import opened DagInvariant
  import opened DagRefs
  import opened DagForest
  import opened DagTheorems
  import opened DagOutcome
  import opened DagJobStages

  /** Stage id is registered in task t, or on the stack of the worker that runs t. */
  predicate StageOfTask(s: State, id: StageId, t: TaskId) {
    id < |s.stages| &&
    match s.stages[id]
    case Waiting(u) => u == t
    case Executing(w, _) => w in s.workers && s.workers[w].Running? && s.workers[w].t == t
    case _ => false
  }

  lemma LiveTask(s: State, id: StageId, t: TaskId)
    requires Refs(s) && Stages(s) && StageOfTask(s, id, t)
    ensures t in s.tasks && Started(s.tasks[t])
  {
    assert StageOk(s, id);
    if s.stages[id].Executing? { assert WorkerOk(s, s.stages[id].w); }
  }

  lemma LoopKeepsTask(s: State, w: WorkerId, l: LoopEvent, id: StageId, t: TaskId)
    requires Refs(s) && Stages(s) && LoopEnabled(s, w, l) && StageOfTask(s, id, t)
    ensures StageOfTask(LoopApply(s, w, l), id, t)
  {
    assert WorkerOk(s, w) && StageOk(s, id);
    var u := if l.Take? then l.t else if s.workers[w].Idle? || s.workers[w].Reporting? then 0 else s.workers[w].t;
    if u in s.tasks && Started(s.tasks[u]) && s.tasks[u].fn.Code? { assert Registered(s, u, s.tasks[u].fn.id); }
  }

  lemma ReturnKeepsTask(s: State, w: WorkerId, f: StackEvent, id: StageId, t: TaskId)
    requires Refs(s) && Stages(s) && StackEnabled(s, w, f) && (f.Return? || f.PublishDone?)
    requires StageOfTask(s, id, t) && Live(StackApply(s, w, f), id)
    ensures StageOfTask(StackApply(s, w, f), id, t)
  {
    assert WorkerOk(s, w) && StageOk(s, id);
    if s.stages[id].Executing? { assert OnStack(s, s.stages[id].w, s.stages[id].k, id); }
  }

  lemma RejectedKeepsTask(s: State, w: WorkerId, r: TaskId, id: StageId, t: TaskId)
    requires Refs(s) && Stages(s) && CanRunRejected(s, w, r) && StageOfTask(s, id, t) && t != r
    ensures StageOfTask(DoRunRejected(s, w, r), id, t)
  {
    assert WorkerOk(s, w) && StageOk(s, id);
    ListedAtTop(s, w, r);
    assert Registered(s, r, s.tasks[r].fn.id);
  }

  lemma StackKeepsTask(s: State, w: WorkerId, f: StackEvent, id: StageId, t: TaskId)
    requires Refs(s) && Stages(s) && StackEnabled(s, w, f) && !f.Return? && !f.PublishDone? && !f.RunRejected?
    requires StageOfTask(s, id, t) && Live(StackApply(s, w, f), id)
    ensures StageOfTask(StackApply(s, w, f), id, t)
  {
    if f.CountBatch? || f.PushBatch? || f.Rollback? || f.FreeRejected? || f.SplitFree? { BatchKeepsTask(s, w, f, id, t); }
    else { FrameKeepsTask(s, w, f, id, t); }
  }

  lemma BatchKeepsTask(s: State, w: WorkerId, f: StackEvent, id: StageId, t: TaskId)
    requires StackEnabled(s, w, f) && StageOfTask(s, id, t)
    requires f.CountBatch? || f.PushBatch? || f.Rollback? || f.FreeRejected? || f.SplitFree?
    ensures StageOfTask(StackApply(s, w, f), id, t)
  {
  }

  lemma FrameKeepsTask(s: State, w: WorkerId, f: StackEvent, id: StageId, t: TaskId)
    requires Refs(s) && Stages(s) && StackEnabled(s, w, f) && !f.Return? && !f.PublishDone? && !f.RunRejected?
    requires !f.CountBatch? && !f.PushBatch? && !f.Rollback? && !f.FreeRejected? && !f.SplitFree?
    requires StageOfTask(s, id, t) && Live(StackApply(s, w, f), id)
    ensures StageOfTask(StackApply(s, w, f), id, t)
  {
    assert WorkerOk(s, w) && StageOk(s, id);
  }

  /** A stage that is not over still belongs to the task it belonged to, unless the event runs that
      task's function in place. */
  lemma TaskKept(s: State, e: Event, id: StageId, t: TaskId)
    requires Inv(s) && Enabled(s, e) && StageOfTask(s, id, t) && Live(Apply(s, e), id)
    requires !(e.Stack? && e.f == RunRejected(t))
    ensures StageOfTask(Apply(s, e), id, t)
  {
    match e
    case Loop(w, l) => LoopKeepsTask(s, w, l, id, t);
    case Stack(w, f) =>
      if f.Return? || f.PublishDone? { ReturnKeepsTask(s, w, f, id, t); }
      else if f.RunRejected? { RejectedKeepsTask(s, w, f.r, id, t); }
      else { StackKeepsTask(s, w, f, id, t); }
    case Submit(m) => SubmitKeepsTask(s, m, id, t);
  }

  lemma SubmitKeepsTask(s: State, m: SubmitEvent, id: StageId, t: TaskId)
    requires SubmitEnabled(s, m) && StageOfTask(s, id, t)
    ensures StageOfTask(SubmitApply(s, m), id, t)
  {
  }

  /** A node in use keeps its parent and its job. */
  lemma LoopKeepsParent(s: State, w: WorkerId, l: LoopEvent, t: TaskId)
    requires LoopEnabled(s, w, l) && t in s.tasks
    ensures t in LoopApply(s, w, l).tasks && LoopApply(s, w, l).tasks[t].parent == s.tasks[t].parent
  {
  }

  lemma StackKeepsParent(s: State, w: WorkerId, f: StackEvent, t: TaskId)
    requires StackEnabled(s, w, f) && t in s.tasks && !s.tasks[t].place.Free?
    ensures t in StackApply(s, w, f).tasks && StackApply(s, w, f).tasks[t].parent == s.tasks[t].parent
  {
  }

  lemma ParentKept(s: State, e: Event, t: TaskId)
    requires Enabled(s, e) && t in s.tasks && !s.tasks[t].place.Free?
    ensures t in Apply(s, e).tasks && Apply(s, e).tasks[t].parent == s.tasks[t].parent
  {
    match e
    case Loop(w, l) => LoopKeepsParent(s, w, l, t);
    case Stack(w, f) => StackKeepsParent(s, w, f, t);
    case Submit(m) =>
  }

  /** When a function of task t starts, no stage of a child of t is live: the child is released. */
  lemma ChildrenAreOver(s: State, e: Event, t: TaskId, id: StageId, c: TaskId)
    requires Inv(s) && Enabled(s, e) && Enters(s, e, t) && c in s.tasks && s.tasks[c].parent == Some(t)
    ensures !StageOfTask(s, id, c)
  {
    StartsAlone(s, e, t);
    if StageOfTask(s, id, c) { LiveTask(s, id, c); }
  }
}
