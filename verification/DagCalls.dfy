/** Every call that the splitter makes of a job's function, over whole runs: none is on an empty range
    unless the job is empty, and an empty job, like any other of at most one chunk, gets exactly one. */
module DagCalls {
  import opened Basics
  import opened Splitting
  import opened TaskDag
  import opened DagInvariant
  import opened DagRefs
  import opened DagTheorems
  import opened DagOutcome
  import opened DagSingleChunk

  /** A part that starts at a multiple of the job's chunk size, ends at one or at the end of the job,
      and is not empty unless the job is. */
  predicate PartOk(job: Job, r: Range) {
    Aligned(r, job.chunk, job.n) && (r.lo < r.hi || job.n == 0)
  }

  ghost predicate PartsOk(s: State, j: JobId)
    requires j in s.jobs
  {
    && (forall t :: IsSplitter(s, t, j) ==> PartOk(s.jobs[j], s.tasks[t].pend))
    && (forall k: nat :: k < |s.jobs[j].calls| ==> PartOk(s.jobs[j], s.jobs[j].calls[k]))
  }

  /** And a job of at most one chunk is never split. */
  ghost predicate Parts(s: State) {
    && (forall j :: j in s.jobs ==> PartsOk(s, j))
    && (forall j :: j in s.jobs && s.jobs[j].n <= s.jobs[j].chunk ==> OneChunk(s, j))
  }

  // ---------------------------------------------------------------- what stays of a job

  /** Job j is the same but for calls, answers and its end. */
  predicate SameJob(s: State, s': State, j: JobId)
    requires j in s.jobs
  {
    j in s'.jobs && s'.jobs[j].n == s.jobs[j].n && s'.jobs[j].chunk == s.jobs[j].chunk
  }

  lemma JobStays(s: State, e: Event, j: JobId)
    requires Enabled(s, e) && j in s.jobs
    ensures SameJob(s, Apply(s, e), j)
  {
    match e
    case Loop(w, l) => LoopKeepsJobs(s, w, l);
    case Stack(w, f) => StackJobStays(s, w, f, j);
    case Submit(m) => SubmitKeepsJobs(s, m, j);
  }

  lemma StackJobStays(s: State, w: WorkerId, f: StackEvent, j: JobId)
    requires StackEnabled(s, w, f) && j in s.jobs
    ensures SameJob(s, StackApply(s, w, f), j)
  {
  }

  /** The only jobs that are new are those just submitted. */
  lemma NewJob(s: State, e: Event, j: JobId)
    requires Enabled(s, e) && j in Apply(s, e).jobs && j !in s.jobs
    ensures e == Submit(SubmitPush(j))
  {
    match e
    case Loop(w, l) => LoopKeepsJobs(s, w, l);
    case Stack(w, f) => StackMakesNoJob(s, w, f);
    case Submit(m) =>
  }

  lemma StackMakesNoJob(s: State, w: WorkerId, f: StackEvent)
    requires StackEnabled(s, w, f)
    ensures StackApply(s, w, f).jobs.Keys == s.jobs.Keys
  {
  }

  // ---------------------------------------------------------------- a cut

  /** Both sides of a cut are parts. */
  lemma CutsInParts(job: Job, lo: nat, hi: nat)
    requires PartOk(job, Range(lo, hi)) && Splits(lo, hi, job.chunk)
    ensures var mid := MidPoint(lo, hi, job.chunk); PartOk(job, Range(lo, mid)) && PartOk(job, Range(mid, hi))
  {
    var a := MultipleOf(lo, job.chunk);
    Balanced(a, hi - lo, job.chunk);
  }

  /** The worker that splits does so in a splitter task, which answers for what it splits. */
  lemma SplitsOwnPart(s: State, w: WorkerId)
    requires Refs(s) && Pends(s) && Roots(s) && AtSplit(s, w)
    ensures JobOf(s, w) in s.jobs && IsSplitter(s, s.workers[w].t, JobOf(s, w))
    ensures s.tasks[s.workers[w].t].pend == Range(Top(s, w).lo, Top(s, w).hi)
  {
    SplitAtBottom(s, w, TopIndex(s, w));
    assert WorkerOk(s, w) && SplitterOk(s, w) && NodeOk(s, s.workers[w].t);
  }

  lemma OneMorePart(s: State, s': State, j: JobId, r: Range)
    requires j in s.jobs && PartsOk(s, j) && SameJob(s, s', j) && PartOk(s.jobs[j], r)
    requires s'.jobs[j].calls == s.jobs[j].calls || s'.jobs[j].calls == s.jobs[j].calls + [r]
    requires forall t :: IsSplitter(s', t, j) ==> PartOk(s.jobs[j], s'.tasks[t].pend)
    ensures PartsOk(s', j)
  {
  }

  // ---------------------------------------------------------------- the splitter's events

  /** What an event of the splitter changes of a task other than the worker's own and r. */
  lemma OtherSplits(s: State, w: WorkerId, f: StackEvent, j: JobId, t: TaskId)
    requires Refs(s) && Pends(s) && StackEnabled(s, w, f) && IsSplitter(StackApply(s, w, f), t, j)
    requires f.SplitCall? || f.SplitInline? || f.SplitNew? || f.SplitFree?
    requires t != s.workers[w].t && !(f.SplitNew? && t == f.r)
    ensures IsSplitter(s, t, j) && StackApply(s, w, f).tasks[t].pend == s.tasks[t].pend
  {
    assert t in s.tasks && PlaceOk(s, t) && WorkerOk(s, w);
  }

  lemma CallParts(s: State, w: WorkerId)
    requires Refs(s) && Pends(s) && Roots(s) && CanSplitCall(s, w) && JobOf(s, w) in s.jobs && PartsOk(s, JobOf(s, w))
    ensures PartsOk(DoSplitCall(s, w), JobOf(s, w))
  {
    var s', j, f := DoSplitCall(s, w), JobOf(s, w), Top(s, w);
    SplitsOwnPart(s, w);
    SplitAtBottom(s, w, TopIndex(s, w));
    assert WorkerOk(s, w) && PendOk(s, s.workers[w].t);
    forall t | IsSplitter(s', t, j) ensures PartOk(s.jobs[j], s'.tasks[t].pend) {
      if t != s.workers[w].t { OtherSplits(s, w, SplitCall, j, t); }
    }
    OneMorePart(s, s', j, Range(f.lo, f.hi));
  }

  lemma InlineParts(s: State, w: WorkerId)
    requires Refs(s) && Pends(s) && Roots(s) && WantsSplit(s, w) && JobOf(s, w) in s.jobs && PartsOk(s, JobOf(s, w))
    ensures PartsOk(DoSplitInline(s, w), JobOf(s, w))
  {
    var s', j, f := DoSplitInline(s, w), JobOf(s, w), Top(s, w);
    SplitsOwnPart(s, w);
    CutsInParts(s.jobs[j], f.lo, f.hi);
    forall t | IsSplitter(s', t, j) ensures PartOk(s.jobs[j], s'.tasks[t].pend) {
      if t != s.workers[w].t { OtherSplits(s, w, SplitInline, j, t); }
    }
    OneMorePart(s, s', j, Range(SplitPoint(s, w), f.hi));
  }

  lemma NewParts(s: State, w: WorkerId, r: TaskId)
    requires Refs(s) && Pends(s) && Roots(s) && CanSplitNew(s, w, r) && JobOf(s, w) in s.jobs && PartsOk(s, JobOf(s, w))
    ensures PartsOk(DoSplitNew(s, w, r), JobOf(s, w))
  {
    var s', j, f := DoSplitNew(s, w, r), JobOf(s, w), Top(s, w);
    SplitsOwnPart(s, w);
    CutsInParts(s.jobs[j], f.lo, f.hi);
    forall t | IsSplitter(s', t, j) ensures PartOk(s.jobs[j], s'.tasks[t].pend) {
      if t != s.workers[w].t && t != r { OtherSplits(s, w, SplitNew(r), j, t); }
    }
    OneMorePart(s, s', j, Range(f.lo, f.hi));
  }

  lemma FreeParts(s: State, w: WorkerId, r: TaskId)
    requires Refs(s) && Pends(s) && Forest(s) && CanSplitFree(s, w, r) && JobOf(s, w) in s.jobs && PartsOk(s, JobOf(s, w))
    ensures PartsOk(DoSplitFree(s, w, r), JobOf(s, w))
  {
    var s', j := DoSplitFree(s, w, r), JobOf(s, w);
    assert r in TopBatch(s, w);
    RightAndSplitter(s, j, w, r);
    forall t | IsSplitter(s', t, j) ensures PartOk(s.jobs[j], s'.tasks[t].pend) {
      if t != s.workers[w].t { OtherSplits(s, w, SplitFree(r), j, t); }
    }
    OneMorePart(s, s', j, s.tasks[r].pend);
  }

  // ---------------------------------------------------------------- every event

  lemma SplitterParts(s: State, w: WorkerId, f: StackEvent)
    requires Inv(s) && StackEnabled(s, w, f) && (f.SplitCall? || f.SplitInline? || f.SplitNew? || f.SplitFree?)
    requires JobOf(s, w) in s.jobs && PartsOk(s, JobOf(s, w))
    ensures PartsOk(StackApply(s, w, f), JobOf(s, w))
  {
    match f
    case SplitCall => CallParts(s, w);
    case SplitInline => InlineParts(s, w);
    case SplitNew(r) => NewParts(s, w, r);
    case SplitFree(r) => FreeParts(s, w, r);
  }

  lemma StackParts(s: State, w: WorkerId, f: StackEvent, j: JobId)
    requires Inv(s) && StackEnabled(s, w, f) && j in s.jobs && PartsOk(s, j)
    ensures j in StackApply(s, w, f).jobs && PartsOk(StackApply(s, w, f), j)
  {
    if JobOf(s, w) == j && (f.SplitCall? || f.SplitInline? || f.SplitNew? || f.SplitFree?) {
      StackJobStays(s, w, f, j);
      SplitterParts(s, w, f);
    } else {
      StackKeepsSplits(s, w, f, j);
    }
  }

  lemma SubmittedParts(s: State, j: JobId)
    requires Inv(s) && CanSubmitPush(s, j)
    ensures PartsOk(DoSubmitPush(s, j), j)
  {
    var s' := DoSubmitPush(s, j);
    assert forall t :: t in SubTasks(s.sub) ==> t in s.tasks && s.tasks[t].place.Submitting?;
    forall t | IsSplitter(s', t, j) ensures t == s.sub.c { assert t in s.tasks && NodeOk(s, t); }
  }

  lemma StepPartsOf(s: State, e: Event, j: JobId)
    requires Inv(s) && Enabled(s, e) && j in Apply(s, e).jobs && (j in s.jobs ==> PartsOk(s, j))
    ensures PartsOk(Apply(s, e), j)
  {
    if j !in s.jobs {
      NewJob(s, e, j);
      SubmittedParts(s, j);
    } else {
      match e {
        case Loop(w, l) => LoopKeepsSplits(s, w, l, j);
        case Stack(w, f) => StackParts(s, w, f, j);
        case Submit(m) => SubmitKeepsSplits(s, m, j);
      }
    }
  }

  lemma StepOneChunk(s: State, e: Event, j: JobId)
    requires Inv(s) && Enabled(s, e) && j in Apply(s, e).jobs && Apply(s, e).jobs[j].n <= Apply(s, e).jobs[j].chunk
    requires j in s.jobs && s.jobs[j].n <= s.jobs[j].chunk ==> OneChunk(s, j)
    ensures OneChunk(Apply(s, e), j)
  {
    if j !in s.jobs {
      NewJob(s, e, j);
      AcceptedAsOne(s, j);
    } else {
      JobStays(s, e, j);
      OneChunkStep(s, e, j);
    }
  }

  lemma StepParts(s: State, e: Event)
    requires Inv(s) && Parts(s) && Enabled(s, e)
    ensures Parts(Apply(s, e))
  {
    forall j | j in Apply(s, e).jobs ensures PartsOk(Apply(s, e), j) { StepPartsOf(s, e, j); }
    forall j | j in Apply(s, e).jobs && Apply(s, e).jobs[j].n <= Apply(s, e).jobs[j].chunk ensures OneChunk(Apply(s, e), j) {
      StepOneChunk(s, e, j);
    }
  }

  lemma {:induction false} RunParts(s: State, es: seq<Event>)
    requires Inv(s) && Parts(s) && IsRun(s, es)
    ensures Inv(Final(s, es)) && Parts(Final(s, es))
    decreases |es|
  {
    if es != [] {
      StepParts(s, es[0]);
      InvStep(s, es[0]);
      RunParts(Apply(s, es[0]), es[1..]);
    }
  }

  /** In every reachable state every call made so far starts at a multiple of the chunk size, ends at one
      or at the end of the job, and is not on an empty range unless the job is empty. */
  lemma CallsAreParts(s0: State, es: seq<Event>, j: JobId, k: nat)
    requires Init(s0) && IsRun(s0, es) && j in Final(s0, es).jobs && k < |Final(s0, es).jobs[j].calls|
    ensures var job := Final(s0, es).jobs[j];
            Aligned(job.calls[k], job.chunk, job.n) && (job.calls[k].lo < job.calls[k].hi || job.n == 0)
  {
    InvInit(s0);
    RunParts(s0, es);
    assert PartsOk(Final(s0, es), j);
  }

  // ---------------------------------------------------------------- chunk by chunk

  /** The splitter's own last call is for one chunk. */
  lemma SplitCallIsChunk(s: State, w: WorkerId)
    requires Inv(s) && Parts(s) && CanSplitCall(s, w)
    ensures JobOf(s, w) in s.jobs
    ensures IsChunk(Range(Top(s, w).lo, Top(s, w).hi), s.jobs[JobOf(s, w)].chunk, s.jobs[JobOf(s, w)].n)
  {
    SplitsOwnPart(s, w);
    assert PartsOk(s, JobOf(s, w));
    UncutIsChunk(s.jobs[JobOf(s, w)], Range(Top(s, w).lo, Top(s, w).hi));
  }

  lemma UncutIsChunk(job: Job, r: Range)
    requires PartOk(job, r) && !Splits(r.lo, r.hi, job.chunk)
    ensures IsChunk(r, job.chunk, job.n)
  {
    var a := MultipleOf(r.lo, job.chunk);
    if r.hi - r.lo > job.chunk { Balanced(a, r.hi - r.lo, job.chunk); }
    ShortIsChunk(r, job.chunk, job.n);
  }

  /** A node or a place in a queue is missing when job j is split. */
  predicate RefusesPart(s: State, e: Event, j: JobId)
    requires Enabled(s, e)
  {
    e.Stack? && (e.f.SplitInline? || e.f.SplitFree?) && JobOf(s, e.w) == j
  }

  predicate NothingRefused(s: State, es: seq<Event>, j: JobId)
    requires IsRun(s, es)
    decreases |es|
  {
    es == [] || (!RefusesPart(s, es[0], j) && NothingRefused(Apply(s, es[0]), es[1..], j))
  }

  predicate OnlyChunks(s: State, j: JobId) {
    j in s.jobs ==> forall k: nat :: k < |s.jobs[j].calls| ==> IsChunk(s.jobs[j].calls[k], s.jobs[j].chunk, s.jobs[j].n)
  }

  lemma StackOnlyChunks(s: State, w: WorkerId, f: StackEvent, j: JobId)
    requires Inv(s) && Parts(s) && StackEnabled(s, w, f) && j in s.jobs && !RefusesPart(s, Stack(w, f), j) && OnlyChunks(s, j)
    ensures OnlyChunks(StackApply(s, w, f), j)
  {
    StackJobStays(s, w, f, j);
    if JobOf(s, w) == j && f.SplitCall? { SplitCallIsChunk(s, w); }
    else if JobOf(s, w) != j || !f.SplitNew? { StackKeepsSplits(s, w, f, j); }
  }

  lemma StepOnlyChunks(s: State, e: Event, j: JobId)
    requires Inv(s) && Parts(s) && Enabled(s, e) && !RefusesPart(s, e, j) && OnlyChunks(s, j)
    ensures OnlyChunks(Apply(s, e), j)
  {
    if j in Apply(s, e).jobs && j !in s.jobs {
      NewJob(s, e, j);
    } else if j in s.jobs {
      match e {
        case Loop(w, l) => LoopKeepsJobs(s, w, l);
        case Stack(w, f) => StackOnlyChunks(s, w, f, j);
        case Submit(m) => SubmitKeepsJobs(s, m, j);
      }
    }
  }

  lemma {:induction false} RunOnlyChunks(s: State, es: seq<Event>, j: JobId)
    requires Inv(s) && Parts(s) && IsRun(s, es) && NothingRefused(s, es, j) && OnlyChunks(s, j)
    ensures OnlyChunks(Final(s, es), j)
    decreases |es|
  {
    if es != [] {
      StepParts(s, es[0]);
      StepOnlyChunks(s, es[0], j);
      InvStep(s, es[0]);
      RunOnlyChunks(Apply(s, es[0]), es[1..], j);
    }
  }

  /** With a node and a place in a queue for every part, every call is for exactly one chunk. */
  lemma ChunkByChunk(s0: State, es: seq<Event>, j: JobId, k: nat)
    requires Init(s0) && IsRun(s0, es) && NothingRefused(s0, es, j)
    requires j in Final(s0, es).jobs && k < |Final(s0, es).jobs[j].calls|
    ensures var job := Final(s0, es).jobs[j];
            && job.calls[k].lo % job.chunk == 0
            && job.calls[k].hi == (if job.calls[k].lo + job.chunk <= job.n then job.calls[k].lo + job.chunk else job.n)
  {
    InvInit(s0);
    RunOnlyChunks(s0, es, j);
  }

  /** In every reachable state: a DONE job of at most one chunk, an empty one included, has had its
      function called exactly once by the splitter, for [0, n). */
  lemma OneCallWhenDone(s0: State, es: seq<Event>, j: JobId)
    requires Init(s0) && IsRun(s0, es) && j in Final(s0, es).jobs
    ensures var job := Final(s0, es).jobs[j];
            job.done && job.n <= job.chunk ==> job.calls == [Range(0, job.n)]
  {
    InvInit(s0);
    RunParts(s0, es);
    if Final(s0, es).jobs[j].done && Final(s0, es).jobs[j].n <= Final(s0, es).jobs[j].chunk {
      SingleCall(Final(s0, es), j);
    }
  }

  /** The calls of a DONE job, with nothing besides: they partition [0, n) into non-empty parts, or
      there is one call on the empty range and the job is empty. */
  lemma CallsWhenDone(s0: State, es: seq<Event>, j: JobId)
    requires Init(s0) && IsRun(s0, es) && j in Final(s0, es).jobs && Final(s0, es).jobs[j].done
    ensures var job := Final(s0, es).jobs[j];
            if job.n == 0 then job.calls == [Range(0, 0)]
            else ExactPartition(job) && forall k: nat :: k < |job.calls| ==> job.calls[k].lo < job.calls[k].hi
  {
    JobDone(s0, es, j);
    OneCallWhenDone(s0, es, j);
    var job := Final(s0, es).jobs[j];
    forall k: nat | k < |job.calls| ensures job.calls[k].lo < job.calls[k].hi || job.n == 0 {
      CallsAreParts(s0, es, j, k);
    }
  }
}
