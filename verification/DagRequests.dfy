/** Every function that a client hands over is registered or entered at once, and has run when everything
    is quiet; every call that the splitter records is a function it enters. */
module DagRequests {
  import opened Basics
  import opened Splitting
  import opened TaskDag
  import opened DagInvariant
  import opened DagRefs
  import opened DagTheorems
  import opened DagOutcome

  /** With the event a client function is handed over, to run later or at once. */
  predicate HandsOver(e: Event) {
    e.Stack? && (e.f.SetContinuation? || e.f.SpawnNew? || EntersAtOnce(e))
  }

  /** The function is entered by the event itself: what the splitter calls, or a spawn for want of nodes. */
  predicate EntersAtOnce(e: Event) {
    e.Stack? && (e.f.SplitCall? || e.f.SplitInline? || e.f.SplitFree? || e.f.SpawnDirect?)
  }

  /** A continuation is registered in the task whose function sets it, a child's function in the child,
      which gets that task as its parent; a function entered at once is on top of its worker's stack. */
  lemma HandedOver(s: State, e: Event)
    requires Inv(s) && Enabled(s, e)
    ensures |Apply(s, e).stages| == |s.stages| + (if HandsOver(e) then 1 else 0)
    ensures e.Stack? && e.f.SetContinuation? ==> Registered(Apply(s, e), s.workers[e.w].t, |s.stages|)
    ensures e.Stack? && e.f.SpawnNew? ==>
              Registered(Apply(s, e), e.f.r, |s.stages|) && Apply(s, e).tasks[e.f.r].parent == Some(s.workers[e.w].t)
    ensures EntersAtOnce(e) ==> IsRunning(Apply(s, e), e.w) && Top(Apply(s, e), e.w) == User(|s.stages|)
    ensures EntersAtOnce(e) ==> Apply(s, e).stages[|s.stages|].Executing? && JobOf(Apply(s, e), e.w) == JobOf(s, e.w)
  {
    match e
    case Loop(w, l) => LoopHandsNone(s, w, l);
    case Stack(w, f) => StackHandsOver(s, w, f);
    case Submit(m) =>
  }

  lemma LoopHandsNone(s: State, w: WorkerId, l: LoopEvent)
    requires LoopEnabled(s, w, l)
    ensures |LoopApply(s, w, l).stages| == |s.stages|
  {
  }

  lemma StackHandsOver(s: State, w: WorkerId, f: StackEvent)
    requires Refs(s) && StackEnabled(s, w, f)
    ensures |StackApply(s, w, f).stages| == |s.stages| + (if HandsOver(Stack(w, f)) then 1 else 0)
    ensures f.SetContinuation? ==> Registered(StackApply(s, w, f), s.workers[w].t, |s.stages|)
    ensures f.SpawnNew? ==>
              Registered(StackApply(s, w, f), f.r, |s.stages|) && StackApply(s, w, f).tasks[f.r].parent == Some(s.workers[w].t)
    ensures EntersAtOnce(Stack(w, f)) ==> IsRunning(StackApply(s, w, f), w) && Top(StackApply(s, w, f), w) == User(|s.stages|)
    ensures EntersAtOnce(Stack(w, f)) ==>
              StackApply(s, w, f).stages[|s.stages|].Executing? && JobOf(StackApply(s, w, f), w) == JobOf(s, w)
  {
    assert WorkerOk(s, w);
    if f.SplitFree? {
      assert f.r in TopBatch(s, w);
      ListedAtTop(s, w, f.r);
    }
  }

  /** A job's calls are recorded one at a time, each with the event that enters the function for it, made
      by the worker that splits a task of the job. */
  lemma RecordedIsEntered(s: State, e: Event, j: JobId)
    requires Inv(s) && Enabled(s, e) && j in s.jobs
    ensures j in Apply(s, e).jobs
    ensures if e.Stack? && (e.f.SplitCall? || e.f.SplitInline? || e.f.SplitFree?) && JobOf(s, e.w) == j
            then exists r :: Apply(s, e).jobs[j].calls == s.jobs[j].calls + [r]
            else Apply(s, e).jobs[j].calls == s.jobs[j].calls
  {
    match e
    case Loop(w, l) => LoopKeepsJobs(s, w, l);
    case Stack(w, f) => StackRecords(s, w, f, j);
    case Submit(m) => SubmitKeepsJobs(s, m, j);
  }

  lemma StackRecords(s: State, w: WorkerId, f: StackEvent, j: JobId)
    requires StackEnabled(s, w, f) && j in s.jobs
    ensures j in StackApply(s, w, f).jobs
    ensures if (f.SplitCall? || f.SplitInline? || f.SplitFree?) && JobOf(s, w) == j
            then exists r :: StackApply(s, w, f).jobs[j].calls == s.jobs[j].calls + [r]
            else StackApply(s, w, f).jobs[j].calls == s.jobs[j].calls
  {
  }

  // ---------------------------------------------------------------- whole runs

  /** The number of functions handed over in the run: each gets the next stage number. */
  function HandedOverIn(es: seq<Event>): nat {
    if es == [] then 0 else (if HandsOver(es[0]) then 1 else 0) + HandedOverIn(es[1..])
  }

  lemma {:induction false} StagesCount(s: State, es: seq<Event>)
    requires Inv(s) && IsRun(s, es)
    ensures |Final(s, es).stages| == |s.stages| + HandedOverIn(es)
    decreases |es|
  {
    if es != [] {
      HandedOver(s, es[0]);
      InvStep(s, es[0]);
      StagesCount(Apply(s, es[0]), es[1..]);
    }
  }

  /** A stage that has started is not replaced any more. */
  lemma {:induction false} StartedStays(s: State, es: seq<Event>, id: StageId)
    requires Inv(s) && IsRun(s, es) && id < |s.stages| && (s.stages[id].Executing? || s.stages[id].Ended?)
    ensures id < |Final(s, es).stages| && (Final(s, es).stages[id].Executing? || Final(s, es).stages[id].Ended?)
    decreases |es|
  {
    if es != [] {
      StageMovesOn(s, es[0], id);
      InvStep(s, es[0]);
      StartedStays(Apply(s, es[0]), es[1..], id);
    }
  }

  lemma EnteredFirst(s: State, es: seq<Event>)
    requires Inv(s) && IsRun(s, es) && es != [] && EntersAtOnce(es[0])
    ensures |s.stages| < |Final(s, es).stages|
    ensures Final(s, es).stages[|s.stages|].Executing? || Final(s, es).stages[|s.stages|].Ended?
  {
    HandedOver(s, es[0]);
    InvStep(s, es[0]);
    StartedStays(Apply(s, es[0]), es[1..], |s.stages|);
  }

  lemma {:induction false} EnteredStays(s: State, es: seq<Event>, k: nat, id: StageId)
    requires Inv(s) && IsRun(s, es) && k < |es| && EntersAtOnce(es[k]) && id == |s.stages| + HandedOverIn(es[..k])
    ensures id < |Final(s, es).stages| && (Final(s, es).stages[id].Executing? || Final(s, es).stages[id].Ended?)
    decreases |es|
  {
    FirstApart(es, k);
    if k == 0 {
      EnteredFirst(s, es);
    } else {
      HandedOver(s, es[0]);
      InvStep(s, es[0]);
      EnteredStays(Apply(s, es[0]), es[1..], k - 1, id);
    }
  }

  lemma FirstApart(es: seq<Event>, k: nat)
    requires k < |es|
    ensures HandedOverIn(es[..k]) == if k == 0 then 0 else (if HandsOver(es[0]) then 1 else 0) + HandedOverIn(es[1..][..k - 1])
  {
    if k == 0 { assert es[..0] == []; } else { assert es[..k][0] == es[0] && es[..k][1..] == es[1..][..k - 1]; }
  }

  lemma {:induction false} CountPrefix(es: seq<Event>, k: nat)
    requires k < |es| && HandsOver(es[k])
    ensures HandedOverIn(es[..k]) < HandedOverIn(es)
    decreases |es|
  {
    FirstApart(es, k);
    if k > 0 { CountPrefix(es[1..], k - 1); }
  }

  /** In every run that ends quiet, every function that was handed over, by whichever event, has run to its
      end, or was a continuation or child replaced before it could start; a function that the splitter
      called, or a spawn ran in place, has run to its end without exception. */
  lemma EveryRequestRan(s0: State, es: seq<Event>, k: nat)
    requires Init(s0) && IsRun(s0, es) && Quiet(Final(s0, es)) && k < |es| && HandsOver(es[k])
    ensures var id := HandedOverIn(es[..k]);
            && id < |Final(s0, es).stages|
            && (Final(s0, es).stages[id].Ended? || (Final(s0, es).stages[id].Overwritten? && !EntersAtOnce(es[k])))
  {
    InvInit(s0);
    StagesCount(s0, es);
    CountPrefix(es, k);
    EveryStageRan(s0, es, HandedOverIn(es[..k]));
    if EntersAtOnce(es[k]) { EnteredStays(s0, es, k, HandedOverIn(es[..k])); }
  }

  // ---------------------------------------------------------------- what is left to pool, queues and clients

  /** Nothing that the pool, the queues or a client's function may do is shut out: each of its choices is a
      possible event. */
  lemma EveryChoiceIsPossible(s: State, w: WorkerId, r: TaskId, takes: set<TaskId>)
    requires Refs(s)
    ensures AtArmed(s, w) ==> Enabled(s, Loop(w, RunArmed)) &&
                              (s.tasks[s.workers[w].t].parent.Some? ==> Enabled(s, Loop(w, Requeue)))
    ensures WantsSplit(s, w) ==> Enabled(s, Stack(w, SplitInline)) && (IsFree(s, r) ==> Enabled(s, Stack(w, SplitNew(r))))
    ensures Offering(s, w) && takes <= TopBatch(s, w) ==> Enabled(s, Stack(w, PushBatch(takes)))
    ensures AtUser(s, w) ==> forall f :: f == SetContinuation || f == SpawnBegin || f == Return ==> Enabled(s, Stack(w, f))
    ensures Over(s, w) && Top(s, w).New? && Below(s, w).User? && |TopBatch(s, w)| < 256 && IsFree(s, r) ==>
              Enabled(s, Stack(w, SpawnNew(r)))
    ensures w in s.workers && s.workers[w].Idle? && r in s.tasks && s.tasks[r].place.Queued? ==> Enabled(s, Loop(w, Take(r)))
  {
    if Offering(s, w) { OfferIsCalled(s, w); }
  }

  lemma OfferIsCalled(s: State, w: WorkerId)
    requires Refs(s) && Offering(s, w)
    ensures Over(s, w)
  {
    assert WorkerOk(s, w);
  }

  // ---------------------------------------------------------------- two kinds of visits

  /** How a worker came to the task it is busy with: by taking it from a queue, or by a report that
      brought its counter to 0. */
  function Kind(wk: Worker): Option<Ctx> {
    match wk
    case Running(_, ctx, _) => Some(ctx)
    case Dropping(_, ctx) => Some(ctx)
    case Owner(_, ctx) => Some(ctx)
    case Armed(_) => Some(Cascade)
    case _ => None
  }

  /** A visit stays what it is until the worker leaves the task. A worker that took a task from a queue runs
      that task's continuations itself, at once; one that came by a report arms the task first, and then
      queues it or runs it. */
  lemma VisitsKeepKind(s: State, e: Event, w: WorkerId)
    requires Enabled(s, e) && !e.Submit? && e.w == w && w in s.workers
    ensures w in Apply(s, e).workers
    ensures var a, b := Kind(s.workers[w]), Kind(Apply(s, e).workers[w]);
            && (a.Some? ==> b == a || b.None?)
            && (a.None? && b == Some(Main) ==> e.Loop? && e.l.Take?)
            && (a.None? && b == Some(Cascade) ==> e.Loop? && e.l.Report?)
    ensures e.Loop? && e.l.RunOwn? ==> Kind(s.workers[w]) == Some(Main)
    ensures e.Loop? && (e.l.Arm? || e.l.Requeue? || e.l.RunArmed?) ==> Kind(s.workers[w]) == Some(Cascade)
  {
    match e
    case Loop(_, l) => LoopKeepsKind(s, w, l);
    case Stack(_, f) => StackKeepsKind(s, w, f);
  }

  lemma LoopKeepsKind(s: State, w: WorkerId, l: LoopEvent)
    requires LoopEnabled(s, w, l) && w in s.workers
    ensures w in LoopApply(s, w, l).workers
    ensures var a, b := Kind(s.workers[w]), Kind(LoopApply(s, w, l).workers[w]);
            && (a.Some? ==> b == a || b.None?)
            && (a.None? && b == Some(Main) ==> l.Take?) && (a.None? && b == Some(Cascade) ==> l.Report?)
    ensures l.RunOwn? ==> Kind(s.workers[w]) == Some(Main)
    ensures l.Arm? || l.Requeue? || l.RunArmed? ==> Kind(s.workers[w]) == Some(Cascade)
  {
  }

  lemma StackKeepsKind(s: State, w: WorkerId, f: StackEvent)
    requires StackEnabled(s, w, f) && w in s.workers
    ensures w in StackApply(s, w, f).workers && Kind(StackApply(s, w, f).workers[w]) == Kind(s.workers[w])
  {
  }
}
