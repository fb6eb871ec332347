/** A job submitted with a chunk size of at least its size, as the sorting examples do: its function
    is called by the splitter once, for the whole range. */
module DagSingleChunk {
  import opened Basics
  import opened Splitting
  import opened TaskDag
  import opened DagInvariant
  import opened DagRefs
  import opened DagTheorems
  import opened DagOutcome

  /** Task t of job j is still to be split, or is being split. */
  predicate IsSplitter(s: State, t: TaskId, j: JobId) {
    && t in s.tasks && Started(s.tasks[t]) && s.tasks[t].job == j
    && (s.tasks[t].fn.Splitter? ||
        (s.tasks[t].place.Active? && FrameAt(s, s.tasks[t].place.w, 0).Some? && FrameAt(s, s.tasks[t].place.w, 0).value.Split?))
  }

  /** Until the call is made there is one such task, with the whole range; then there is none. */
  ghost predicate OneChunk(s: State, j: JobId) {
    && j in s.jobs && s.jobs[j].n <= s.jobs[j].chunk
    && (forall t, u :: IsSplitter(s, t, j) && IsSplitter(s, u, j) ==> t == u)
    && (forall t :: IsSplitter(s, t, j) ==> s.tasks[t].pend == Range(0, s.jobs[j].n) && s.jobs[j].calls == [])
    && (s.jobs[j].calls == [] ==> exists t :: IsSplitter(s, t, j))
    && (s.jobs[j].calls != [] ==> s.jobs[j].calls == [Range(0, s.jobs[j].n)])
  }

  lemma AcceptedAsOne(s: State, j: JobId)
    requires Inv(s) && CanSubmitPush(s, j) && s.sub.n <= s.sub.chunk
    ensures OneChunk(DoSubmitPush(s, j), j) && DoSubmitPush(s, j).jobs[j].calls == []
    ensures DoSubmitPush(s, j).jobs[j].n == s.sub.n && !DoSubmitPush(s, j).jobs[j].done
  {
    var s' := DoSubmitPush(s, j);
    assert forall t :: t in SubTasks(s.sub) ==> t in s.tasks && s.tasks[t].place.Submitting?;
    forall t | IsSplitter(s', t, j) ensures t == s.sub.c {
      assert t in s.tasks && NodeOk(s, t);
    }
    assert IsSplitter(s', s.sub.c, j);
  }

  /** Nothing calls the splitter: it is the function a task was queued with. */
  lemma SplitAtBottom(s: State, w: WorkerId, k: nat)
    requires Refs(s) && IsRunning(s, w) && k < |s.workers[w].frames| && s.workers[w].frames[k].Split?
    ensures k == 0
  {
    assert WorkerOk(s, w);
    var f := s.workers[w].frames;
    assert k > 0 ==> CallOk(f[k-1], f[k]);
  }

  /** A worker whose current frame splits runs the job's splitter task, for the whole range. */
  lemma SplitsAll(s: State, j: JobId, w: WorkerId)
    requires Refs(s) && Pends(s) && OneChunk(s, j) && AtSplit(s, w) && JobOf(s, w) == j
    ensures IsSplitter(s, s.workers[w].t, j) && Top(s, w) == Split(0, s.jobs[j].n) && !WantsSplit(s, w)
    ensures |s.workers[w].frames| == 1
  {
    SplitAtBottom(s, w, TopIndex(s, w));
    assert WorkerOk(s, w) && SplitterOk(s, w);
  }

  /** It never makes a right part. */
  lemma NoRightPart(s: State, j: JobId, w: WorkerId, f: StackEvent)
    requires Refs(s) && Pends(s) && Forest(s) && OneChunk(s, j) && StackEnabled(s, w, f) && JobOf(s, w) == j
    ensures !f.SplitInline? && !f.SplitNew? && !f.SplitFree?
  {
    if f.SplitFree? { NoPartToFree(s, j, w, f.r); }
    else if f.SplitInline? || f.SplitNew? { SplitsAll(s, j, w); }
  }

  lemma NoPartToFree(s: State, j: JobId, w: WorkerId, r: TaskId)
    requires Refs(s) && Forest(s) && OneChunk(s, j) && IsRunning(s, w) && JobOf(s, w) == j
    ensures !CanSplitFree(s, w, r)
  {
    if CanSplitFree(s, w, r) {
      assert r in TopBatch(s, w);
      RightAndSplitter(s, j, w, r);
    }
  }

  lemma RightAndSplitter(s: State, j: JobId, w: WorkerId, r: TaskId)
    requires Refs(s) && Forest(s) && CanSplitFree(s, w, r) && r in TopBatch(s, w) && JobOf(s, w) == j
    ensures IsSplitter(s, r, j) && IsSplitter(s, s.workers[w].t, j) && r != s.workers[w].t
  {
    ListedAtTop(s, w, r);
    assert WorkerOk(s, w) && TreeOk(s, r);
    SplitAtBottom(s, w, TopIndex(s, w) - 1);
  }

  // ---------------------------------------------------------------- kept by every step

  /** No task of job j becomes a splitter task, and those that are remain so and keep their range. */
  ghost predicate KeepsSplits(s: State, s': State, j: JobId) {
    && (forall t :: IsSplitter(s', t, j) ==> IsSplitter(s, t, j) && s'.tasks[t].pend == s.tasks[t].pend)
    && (forall t :: IsSplitter(s, t, j) ==> IsSplitter(s', t, j))
  }

  lemma LoopKeepsSplits(s: State, w: WorkerId, l: LoopEvent, j: JobId)
    requires Refs(s) && Pends(s) && Counts(s) && LoopEnabled(s, w, l)
    ensures KeepsSplits(s, LoopApply(s, w, l), j) && LoopApply(s, w, l).jobs == s.jobs
  {
    var s' := LoopApply(s, w, l);
    forall t | IsSplitter(s', t, j) ensures IsSplitter(s, t, j) && s'.tasks[t].pend == s.tasks[t].pend {
      LoopMakesNoSplitter(s, w, l, j, t);
    }
    forall t | IsSplitter(s, t, j) ensures IsSplitter(s', t, j) { LoopKeepsSplitter(s, w, l, j, t); }
  }

  lemma LoopMakesNoSplitter(s: State, w: WorkerId, l: LoopEvent, j: JobId, t: TaskId)
    requires Refs(s) && LoopEnabled(s, w, l) && IsSplitter(LoopApply(s, w, l), t, j)
    ensures IsSplitter(s, t, j) && LoopApply(s, w, l).tasks[t].pend == s.tasks[t].pend
  {
    assert WorkerOk(s, w) && PlaceOk(s, t);
  }

  lemma LoopKeepsSplitter(s: State, w: WorkerId, l: LoopEvent, j: JobId, t: TaskId)
    requires Refs(s) && Pends(s) && Counts(s) && LoopEnabled(s, w, l) && IsSplitter(s, t, j)
    ensures IsSplitter(LoopApply(s, w, l), t, j)
  {
    assert WorkerOk(s, w) && PlaceOk(s, t) && PendOk(s, t);
    if l.Report? && s.tasks[s.workers[w].p].deps == 1 { LastReporter(s, w, s.workers[w].p); }
  }

  lemma StackKeepsSplits(s: State, w: WorkerId, f: StackEvent, j: JobId)
    requires Refs(s) && Pends(s) && Forest(s) && j in s.jobs && StackEnabled(s, w, f)
    requires JobOf(s, w) == j ==> !f.SplitCall? && !f.SplitInline? && !f.SplitNew? && !f.SplitFree?
    ensures KeepsSplits(s, StackApply(s, w, f), j)
    ensures j in StackApply(s, w, f).jobs
    ensures var a, b := s.jobs[j], StackApply(s, w, f).jobs[j]; b.calls == a.calls && b.n == a.n && b.chunk == a.chunk
  {
    var s' := StackApply(s, w, f);
    assert WorkerOk(s, w);
    forall t | IsSplitter(s', t, j) ensures IsSplitter(s, t, j) && s'.tasks[t].pend == s.tasks[t].pend {
      StackKeepsSplit(s, w, f, j, t);
    }
    forall t | IsSplitter(s, t, j) ensures IsSplitter(s', t, j) { StackKeepsSplitter(s, w, f, j, t); }
  }

  lemma StackKeepsSplitter(s: State, w: WorkerId, f: StackEvent, j: JobId, t: TaskId)
    requires Refs(s) && Pends(s) && Forest(s) && StackEnabled(s, w, f) && IsSplitter(s, t, j)
    requires JobOf(s, w) == j ==> !f.SplitCall? && !f.SplitInline? && !f.SplitNew? && !f.SplitFree?
    ensures IsSplitter(StackApply(s, w, f), t, j)
  {
    if f.RunRejected? || f.FreeRejected? || f.SplitFree? { RecycledNoSplitter(s, w, f, j, t); }
    else if f.CountBatch? || f.PushBatch? || f.Rollback? { BatchKeepsSplitter(s, w, f, j, t); }
    else { FrameKeepsSplitter(s, w, f, j, t); }
  }

  lemma RecycledNoSplitter(s: State, w: WorkerId, f: StackEvent, j: JobId, t: TaskId)
    requires Refs(s) && Pends(s) && Forest(s) && StackEnabled(s, w, f) && IsSplitter(s, t, j)
    requires f.RunRejected? || f.FreeRejected? || (f.SplitFree? && JobOf(s, w) != j)
    ensures IsSplitter(StackApply(s, w, f), t, j)
  {
    var c := if f.FreeRejected? then Top(s, w).c else f.r;
    RecycledIsOther(s, w, f, j, t, c);
    assert FrameAt(StackApply(s, w, f), w, 0) == FrameAt(s, w, 0);
  }

  /** The task concerned is not a splitter task of the job. */
  lemma RecycledIsOther(s: State, w: WorkerId, f: StackEvent, j: JobId, t: TaskId, c: TaskId)
    requires Refs(s) && Pends(s) && Forest(s) && StackEnabled(s, w, f) && IsSplitter(s, t, j)
    requires f.RunRejected? || f.FreeRejected? || (f.SplitFree? && JobOf(s, w) != j)
    requires c == if f.FreeRejected? then Top(s, w).c else f.r
    ensures t != c
  {
    assert PlaceOk(s, t) && PendOk(s, t);
    if f.FreeRejected? { assert RecycleOk(s, w, TopIndex(s, w)); }
    else {
      assert c in TopBatch(s, w) && TreeOk(s, c);
      ListedAtTop(s, w, c);
    }
  }

  /** Counting, pushing and uncounting a batch moves its tasks, and nothing else of interest here. */
  lemma BatchShape(s: State, w: WorkerId, f: StackEvent)
    requires StackEnabled(s, w, f) && (f.CountBatch? || f.PushBatch? || f.Rollback?)
    ensures var s' := StackApply(s, w, f);
            && s'.tasks.Keys == s.tasks.Keys && s'.workers.Keys == s.workers.Keys
            && (forall t :: t in s.tasks ==>
                  && s'.tasks[t].fn == s.tasks[t].fn && s'.tasks[t].job == s.tasks[t].job && s'.tasks[t].pend == s.tasks[t].pend
                  && (s'.tasks[t].place == s.tasks[t].place || (InBatch(s.tasks[t].place) && PassedOn(s'.tasks[t].place))))
            && (forall v :: FrameAt(s', v, 0) == FrameAt(s, v, 0))
  {
    var s' := StackApply(s, w, f);
    assert s'.workers[w].frames[0] == s.workers[w].frames[0];
  }

  predicate InBatch(p: Place) {
    p.Fresh? || p.Offered?
  }

  predicate PassedOn(p: Place) {
    p.Fresh? || p.Offered? || p.Queued?
  }

  lemma BatchKeepsSplitter(s: State, w: WorkerId, f: StackEvent, j: JobId, t: TaskId)
    requires StackEnabled(s, w, f) && IsSplitter(s, t, j) && (f.CountBatch? || f.PushBatch? || f.Rollback?)
    ensures IsSplitter(StackApply(s, w, f), t, j)
  {
    BatchShape(s, w, f);
  }

  lemma FrameKeepsSplitter(s: State, w: WorkerId, f: StackEvent, j: JobId, t: TaskId)
    requires Refs(s) && Pends(s) && StackEnabled(s, w, f) && IsSplitter(s, t, j)
    requires !f.RunRejected? && !f.FreeRejected? && !f.SplitFree? && !f.CountBatch? && !f.PushBatch? && !f.Rollback?
    requires JobOf(s, w) == j ==> !f.SplitCall? && !f.SplitInline? && !f.SplitNew?
    ensures IsSplitter(StackApply(s, w, f), t, j)
  {
    assert WorkerOk(s, w) && PlaceOk(s, t) && PendOk(s, t);
  }

  lemma StackKeepsSplit(s: State, w: WorkerId, f: StackEvent, j: JobId, t: TaskId)
    requires Refs(s) && Pends(s) && StackEnabled(s, w, f) && IsSplitter(StackApply(s, w, f), t, j)
    requires JobOf(s, w) == j ==> !f.SplitCall? && !f.SplitInline? && !f.SplitNew? && !f.SplitFree?
    ensures IsSplitter(s, t, j) && StackApply(s, w, f).tasks[t].pend == s.tasks[t].pend
  {
    if f.CountBatch? || f.PushBatch? || f.Rollback? || f.RunRejected? || f.FreeRejected? || f.SplitFree? {
      BatchMakesNoSplitter(s, w, f, j, t);
    } else {
      FrameMakesNoSplitter(s, w, f, j, t);
    }
  }

  lemma BatchMakesNoSplitter(s: State, w: WorkerId, f: StackEvent, j: JobId, t: TaskId)
    requires Refs(s) && StackEnabled(s, w, f) && IsSplitter(StackApply(s, w, f), t, j)
    requires f.CountBatch? || f.PushBatch? || f.Rollback? || f.RunRejected? || f.FreeRejected? || f.SplitFree?
    ensures IsSplitter(s, t, j) && StackApply(s, w, f).tasks[t].pend == s.tasks[t].pend
  {
    if f.CountBatch? || f.PushBatch? || f.Rollback? { BatchShape(s, w, f); } else { RecycledMakesNoSplitter(s, w, f, j, t); }
  }

  lemma RecycledMakesNoSplitter(s: State, w: WorkerId, f: StackEvent, j: JobId, t: TaskId)
    requires Refs(s) && StackEnabled(s, w, f) && IsSplitter(StackApply(s, w, f), t, j)
    requires f.RunRejected? || f.FreeRejected? || f.SplitFree?
    ensures IsSplitter(s, t, j) && StackApply(s, w, f).tasks[t].pend == s.tasks[t].pend
  {
    assert WorkerOk(s, w) && PlaceOk(s, t);
  }

  lemma FrameMakesNoSplitter(s: State, w: WorkerId, f: StackEvent, j: JobId, t: TaskId)
    requires Refs(s) && Pends(s) && StackEnabled(s, w, f) && IsSplitter(StackApply(s, w, f), t, j)
    requires !f.CountBatch? && !f.PushBatch? && !f.Rollback? && !f.RunRejected? && !f.FreeRejected? && !f.SplitFree?
    requires JobOf(s, w) == j ==> !f.SplitCall? && !f.SplitInline? && !f.SplitNew?
    ensures IsSplitter(s, t, j) && StackApply(s, w, f).tasks[t].pend == s.tasks[t].pend
  {
    assert WorkerOk(s, w);
    if t in s.tasks { assert PlaceOk(s, t); }
  }

  lemma SubmitKeepsSplits(s: State, m: SubmitEvent, j: JobId)
    requires Refs(s) && SubmitEnabled(s, m) && j in s.jobs
    ensures KeepsSplits(s, SubmitApply(s, m), j)
    ensures j in SubmitApply(s, m).jobs && SubmitApply(s, m).jobs[j] == s.jobs[j]
  {
    assert forall t :: t in SubTasks(s.sub) ==> t in s.tasks && s.tasks[t].place.Submitting?;
  }

  /** The call: the whole range, and the last splitter task is one no more. */
  lemma CallKeepsOne(s: State, j: JobId, w: WorkerId)
    requires Inv(s) && OneChunk(s, j) && CanSplitCall(s, w) && JobOf(s, w) == j
    ensures OneChunk(DoSplitCall(s, w), j)
    ensures s.jobs[j].calls == [] && DoSplitCall(s, w).jobs[j].calls == [Range(0, s.jobs[j].n)]
  {
    var s', t := DoSplitCall(s, w), s.workers[w].t;
    SplitsAll(s, j, w);
    assert WorkerOk(s, w) && PendOk(s, t);
    forall u | IsSplitter(s', u, j) ensures IsSplitter(s, u, j) && u != t {
      assert u in s.tasks && PlaceOk(s, u);
    }
    assert forall u :: !IsSplitter(s', u, j);
  }

  /** The call, with the invariant of the whole protocol. */
  lemma CallStep(s: State, j: JobId, w: WorkerId)
    requires Inv(s) && OneChunk(s, j) && CanSplitCall(s, w) && JobOf(s, w) == j
    ensures Inv(DoSplitCall(s, w)) && OneChunk(DoSplitCall(s, w), j)
    ensures s.jobs[j].calls == [] && DoSplitCall(s, w).jobs[j].calls != [] && DoSplitCall(s, w).jobs[j].n == s.jobs[j].n
  {
    InvStep(s, Stack(w, SplitCall));
    CallKeepsOne(s, j, w);
  }

  lemma OneChunkStep(s: State, e: Event, j: JobId)
    requires Inv(s) && OneChunk(s, j) && Enabled(s, e)
    ensures OneChunk(Apply(s, e), j) && Apply(s, e).jobs[j].n == s.jobs[j].n
    ensures Apply(s, e).jobs[j].calls == s.jobs[j].calls || (e.Stack? && e.f.SplitCall? && JobOf(s, e.w) == j)
  {
    match e
    case Loop(w, l) => LoopKeepsSplits(s, w, l, j);
    case Stack(w, f) =>
      if JobOf(s, w) == j {
        NoRightPart(s, j, w, f);
        if f.SplitCall? { CallKeepsOne(s, j, w); } else { StackKeepsSplits(s, w, f, j); }
      } else {
        StackKeepsSplits(s, w, f, j);
      }
    case Submit(m) => SubmitKeepsSplits(s, m, j);
  }

  lemma SingleCall(s: State, j: JobId)
    requires Inv(s) && OneChunk(s, j) && s.jobs[j].done
    ensures s.jobs[j].calls == [Range(0, s.jobs[j].n)]
  {
    forall t ensures !IsSplitter(s, t, j) { NotWhenDone(s, j, t); }
  }

  lemma NotWhenDone(s: State, j: JobId, t: TaskId)
    requires Inv(s) && j in s.jobs && s.jobs[j].done
    ensures !IsSplitter(s, t, j)
  {
    if t in s.tasks {
      assert RootOk(s, t) && PlaceOk(s, t);
      if IsSplitter(s, t, j) { DoneIsOver(s, j, t); }
    }
  }

  lemma {:induction false} OneChunkRun(s: State, es: seq<Event>, j: JobId)
    requires Inv(s) && OneChunk(s, j) && IsRun(s, es)
    ensures Inv(Final(s, es)) && OneChunk(Final(s, es), j) && Final(s, es).jobs[j].n == s.jobs[j].n
    decreases |es|
  {
    if es != [] {
      InvStep(s, es[0]);
      OneChunkStep(s, es[0], j);
      OneChunkRun(Apply(s, es[0]), es[1..], j);
    }
  }

  /** A job submitted with a chunk size of at least its size n, in any reachable state: whatever runs
      after that, once it is DONE the splitter has called its function exactly once, for [0, n); also
      when n is 0. */
  lemma CalledOnceWhenDone(s0: State, before: seq<Event>, j: JobId, after: seq<Event>)
    requires Init(s0) && IsRun(s0, before) && CanSubmitPush(Final(s0, before), j)
    requires Final(s0, before).sub.n <= Final(s0, before).sub.chunk
    requires IsRun(DoSubmitPush(Final(s0, before), j), after)
    ensures var s := Final(DoSubmitPush(Final(s0, before), j), after);
            j in s.jobs && (s.jobs[j].done ==> s.jobs[j].calls == [Range(0, Final(s0, before).sub.n)])
  {
    InvInit(s0);
    InvRun(s0, before);
    var s1 := DoSubmitPush(Final(s0, before), j);
    AcceptedAsOne(Final(s0, before), j);
    InvStep(Final(s0, before), Submit(SubmitPush(j)));
    OneChunkRun(s1, after, j);
    if Final(s1, after).jobs[j].done { SingleCall(Final(s1, after), j); }
  }
}
