/** Which job a function is run for, and what that means once the job is DONE. */
module DagJobStages {
  import opened Basics
  import opened Splitting
  import opened TaskDag
  import opened DagInvariant
  import opened DagRefs
  import opened DagTheorems
  import opened DagOutcome

  /** Stage id is registered in a task of job j, or on the stack of a worker that runs one. */
  predicate StageOfJob(s: State, id: StageId, j: JobId) {
    id < |s.stages| &&
    match s.stages[id]
    case Waiting(t) => t in s.tasks && s.tasks[t].job == j
    case Executing(w, _) =>
      w in s.workers && s.workers[w].Running? && s.workers[w].t in s.tasks && s.tasks[s.workers[w].t].job == j
    case _ => false
  }

  /** A job that is DONE has no function registered or running, in whatever task or worker. */
  lemma NoStageLeft(s: State, j: JobId, id: StageId)
    requires Inv(s) && j in s.jobs && s.jobs[j].done
    ensures !StageOfJob(s, id, j)
  {
    if id < |s.stages| {
      assert StageOk(s, id);
      match s.stages[id]
      case Waiting(t) => if s.tasks[t].job == j { RootHasNoCode(s, j, t); }
      case Executing(w, k) =>
        assert WorkerOk(s, w);
        if s.tasks[s.workers[w].t].job == j { RootRunsNoCode(s, j, w); }
      case _ =>
    }
  }

  lemma RootHasNoCode(s: State, j: JobId, t: TaskId)
    requires Inv(s) && j in s.jobs && s.jobs[j].done && t in s.tasks && Started(s.tasks[t]) && s.tasks[t].job == j
    ensures !s.tasks[t].fn.Code?
  {
    DoneIsOver(s, j, t);
    assert RootOk(s, t);
  }

  lemma RootRunsNoCode(s: State, j: JobId, w: WorkerId)
    requires Inv(s) && j in s.jobs && s.jobs[j].done && w in s.workers && s.workers[w].Running?
    requires s.workers[w].t in s.tasks
    ensures s.tasks[s.workers[w].t].job != j
  {
    assert WorkerOk(s, w) && RootOk(s, s.workers[w].t);
    if s.tasks[s.workers[w].t].job == j { DoneIsOver(s, j, s.workers[w].t); }
  }

  // ---------------------------------------------------------------- a stage stays with its job

  lemma LoopKeepsStage(s: State, w: WorkerId, l: LoopEvent, id: StageId, j: JobId)
    requires Refs(s) && Stages(s) && LoopEnabled(s, w, l) && StageOfJob(s, id, j)
    ensures StageOfJob(LoopApply(s, w, l), id, j)
  {
    assert WorkerOk(s, w) && StageOk(s, id);
    var u := if l.Take? then l.t else if s.workers[w].Idle? || s.workers[w].Reporting? then 0 else s.workers[w].t;
    if u in s.tasks && Started(s.tasks[u]) && s.tasks[u].fn.Code? { assert Registered(s, u, s.tasks[u].fn.id); }
  }

  /** The stage has not ended with the step. */
  predicate Live(s: State, id: StageId) {
    id < |s.stages| && (s.stages[id].Waiting? || s.stages[id].Executing?)
  }

  lemma ReturnKeepsStage(s: State, w: WorkerId, f: StackEvent, id: StageId, j: JobId)
    requires Refs(s) && Stages(s) && StackEnabled(s, w, f) && (f.Return? || f.PublishDone?)
    requires StageOfJob(s, id, j) && Live(StackApply(s, w, f), id)
    ensures StageOfJob(StackApply(s, w, f), id, j)
  {
    assert WorkerOk(s, w) && StageOk(s, id);
    if s.stages[id].Executing? { assert OnStack(s, s.stages[id].w, s.stages[id].k, id); }
  }

  lemma RejectedKeepsStage(s: State, w: WorkerId, r: TaskId, id: StageId, j: JobId)
    requires Refs(s) && Stages(s) && Forest(s) && CanRunRejected(s, w, r) && StageOfJob(s, id, j)
    ensures StageOfJob(DoRunRejected(s, w, r), id, j)
  {
    assert WorkerOk(s, w) && StageOk(s, id) && TreeOk(s, r);
    ListedAtTop(s, w, r);
    assert Registered(s, r, s.tasks[r].fn.id);
  }

  lemma StackKeepsStage(s: State, w: WorkerId, f: StackEvent, id: StageId, j: JobId)
    requires Refs(s) && Stages(s) && StackEnabled(s, w, f) && !f.Return? && !f.PublishDone? && !f.RunRejected?
    requires StageOfJob(s, id, j) && Live(StackApply(s, w, f), id)
    ensures StageOfJob(StackApply(s, w, f), id, j)
  {
    if f.CountBatch? || f.PushBatch? || f.Rollback? || f.FreeRejected? || f.SplitFree? { BatchKeepsStage(s, w, f, id, j); }
    else { FrameKeepsStage(s, w, f, id, j); }
  }

  /** These events move tasks about, and leave every worker with the task it runs. */
  lemma JobsKept(s: State, w: WorkerId, f: StackEvent)
    requires StackEnabled(s, w, f) && (f.CountBatch? || f.PushBatch? || f.Rollback? || f.FreeRejected? || f.SplitFree?)
    ensures var s' := StackApply(s, w, f);
            && s'.tasks.Keys == s.tasks.Keys && (forall t :: t in s.tasks ==> s'.tasks[t].job == s.tasks[t].job)
            && s'.workers.Keys == s.workers.Keys && s.stages <= s'.stages
            && (forall v :: v in s.workers && s.workers[v].Running? ==> s'.workers[v].Running? && s'.workers[v].t == s.workers[v].t)
  {
  }

  lemma BatchKeepsStage(s: State, w: WorkerId, f: StackEvent, id: StageId, j: JobId)
    requires StackEnabled(s, w, f) && StageOfJob(s, id, j)
    requires f.CountBatch? || f.PushBatch? || f.Rollback? || f.FreeRejected? || f.SplitFree?
    ensures StageOfJob(StackApply(s, w, f), id, j)
  {
    JobsKept(s, w, f);
  }

  lemma FrameKeepsStage(s: State, w: WorkerId, f: StackEvent, id: StageId, j: JobId)
    requires Refs(s) && Stages(s) && StackEnabled(s, w, f) && !f.Return? && !f.PublishDone? && !f.RunRejected?
    requires !f.CountBatch? && !f.PushBatch? && !f.Rollback? && !f.FreeRejected? && !f.SplitFree?
    requires StageOfJob(s, id, j) && Live(StackApply(s, w, f), id)
    ensures StageOfJob(StackApply(s, w, f), id, j)
  {
    assert WorkerOk(s, w) && StageOk(s, id);
  }

  lemma SubmitKeepsStage(s: State, m: SubmitEvent, id: StageId, j: JobId)
    requires Refs(s) && Stages(s) && SubmitEnabled(s, m) && StageOfJob(s, id, j)
    ensures StageOfJob(SubmitApply(s, m), id, j)
  {
    assert StageOk(s, id);
    assert forall t :: t in SubTasks(s.sub) ==> t in s.tasks && s.tasks[t].place.Submitting?;
    if s.stages[id].Executing? { assert WorkerOk(s, s.stages[id].w); }
  }

  /** A stage that is not over still belongs to the job it belonged to. */
  lemma StageKept(s: State, e: Event, id: StageId, j: JobId)
    requires Inv(s) && Enabled(s, e) && StageOfJob(s, id, j) && Live(Apply(s, e), id)
    ensures StageOfJob(Apply(s, e), id, j)
  {
    match e
    case Loop(w, l) => LoopKeepsStage(s, w, l, id, j);
    case Stack(w, f) =>
      if f.Return? || f.PublishDone? { ReturnKeepsStage(s, w, f, id, j); }
      else if f.RunRejected? { RejectedKeepsStage(s, w, f.r, id, j); }
      else { StackKeepsStage(s, w, f, id, j); }
    case Submit(m) => SubmitKeepsStage(s, m, id, j);
  }

  /** What ends a stage: the return of its function, or another continuation for the same task. */
  lemma StageEnds(s: State, e: Event, id: StageId, j: JobId)
    requires Inv(s) && Enabled(s, e) && StageOfJob(s, id, j) && !Live(Apply(s, e), id)
    ensures e.Stack? && IsRunning(s, e.w) && JobOf(s, e.w) == j
    ensures (e.f.SetContinuation? && s.tasks[s.workers[e.w].t].fn == Code(id)) || (e.f.Return? && Top(s, e.w) == User(id))
  {
    StageMovesOn(s, e, id);
    assert StageOk(s, id);
    match e
    case Loop(w, l) => LoopMovesOn(s, w, l, id);
    case Stack(w, f) => StackEnds(s, w, f, id, j);
    case Submit(m) => SubmitKeepsStage(s, m, id, j);
  }

  lemma StackEnds(s: State, w: WorkerId, f: StackEvent, id: StageId, j: JobId)
    requires Refs(s) && Stages(s) && StackEnabled(s, w, f) && StageOfJob(s, id, j) && !Live(StackApply(s, w, f), id)
    ensures IsRunning(s, w) && JobOf(s, w) == j
    ensures (f.SetContinuation? && s.tasks[s.workers[w].t].fn == Code(id)) || (f.Return? && Top(s, w) == User(id))
  {
    assert WorkerOk(s, w) && StageOk(s, id);
    var t := s.workers[w].t;
    if f.SetContinuation? && s.tasks[t].fn.Code? { assert Registered(s, t, s.tasks[t].fn.id); }
    if f.Return? { assert OnStack(s, w, TopIndex(s, w), Top(s, w).id); }
  }
}
