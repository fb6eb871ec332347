/** What a step of one thread leaves alone of what another worker holds. */
module DagOthers {
  import opened Basics
  import opened Splitting
  import opened TaskDag
  import opened DagInvariant
  import opened DagRefs
  import opened DagTheorems

  lemma WorkerStays(s: State, e: Event, w: WorkerId)
    requires Enabled(s, e) && w in s.workers && (e.Submit? || e.w != w)
    ensures w in Apply(s, e).workers && Apply(s, e).workers[w] == s.workers[w]
  {
    match e
    case Loop(v, l) => LoopOtherWorker(s, v, l, w);
    case Stack(v, f) => StackOtherWorker(s, v, f, w);
    case Submit(m) =>
  }

  lemma LoopOtherWorker(s: State, v: WorkerId, l: LoopEvent, w: WorkerId)
    requires LoopEnabled(s, v, l) && w in s.workers && v != w
    ensures w in LoopApply(s, v, l).workers && LoopApply(s, v, l).workers[w] == s.workers[w]
  {
  }

  lemma StackOtherWorker(s: State, v: WorkerId, f: StackEvent, w: WorkerId)
    requires StackEnabled(s, v, f) && w in s.workers && v != w
    ensures w in StackApply(s, v, f).workers && StackApply(s, v, f).workers[w] == s.workers[w]
  {
  }

  lemma BatchStays(s: State, e: Event, w: WorkerId, t: TaskId)
    requires Refs(s) && Enabled(s, e) && IsRunning(s, w) && (e.Submit? || e.w != w) && t in TopBatch(s, w)
    ensures t in Apply(s, e).tasks && Apply(s, e).tasks[t] == s.tasks[t]
  {
    if e.Submit? {
      assert forall u :: u in SubTasks(s.sub) ==> u in s.tasks && s.tasks[u].place.Submitting?;
    } else {
      OnlyTouchesOwn(s, e, t);
      if t in Touches(s, e.w) { NotTouched(s, e.w, w, t); }
    }
  }

  lemma NotTouched(s: State, v: WorkerId, w: WorkerId, t: TaskId)
    requires Refs(s) && v in s.workers && v != w && IsRunning(s, w) && t in TopBatch(s, w)
    ensures t !in Touches(s, v)
  {
    assert WorkerOk(s, v);
  }

  predicate InFrame(p: Place, w: WorkerId, k: nat) {
    p == Fresh(w, k) || p == Offered(w, k)
  }

  lemma StackAddsNone(s: State, v: WorkerId, f: StackEvent, w: WorkerId, k: nat, t: TaskId)
    requires StackEnabled(s, v, f) && v != w && t in StackApply(s, v, f).tasks && InFrame(StackApply(s, v, f).tasks[t].place, w, k)
    ensures t in s.tasks && InFrame(s.tasks[t].place, w, k)
  {
  }

  lemma LoopAddsNone(s: State, v: WorkerId, l: LoopEvent, w: WorkerId, k: nat, t: TaskId)
    requires LoopEnabled(s, v, l) && t in LoopApply(s, v, l).tasks && InFrame(LoopApply(s, v, l).tasks[t].place, w, k)
    ensures t in s.tasks && InFrame(s.tasks[t].place, w, k)
  {
  }

  /** The batch that worker w is making or offering stays the same. */
  lemma BatchSame(s: State, e: Event, w: WorkerId)
    requires Refs(s) && Enabled(s, e) && (e.Submit? || e.w != w) && IsRunning(s, w)
    ensures IsRunning(Apply(s, e), w) && TopBatch(Apply(s, e), w) == TopBatch(s, w)
  {
    var s', k := Apply(s, e), TopIndex(s, w);
    WorkerStays(s, e, w);
    SameDomains(s, e);
    forall t | t in TopBatch(s, w) ensures t in TopBatch(s', w) { BatchStays(s, e, w, t); }
    forall t | t in s'.tasks && InFrame(s'.tasks[t].place, w, k) ensures t in TopBatch(s, w) {
      match e
      case Loop(v, l) => LoopAddsNone(s, v, l, w, k, t);
      case Stack(v, f) => StackAddsNone(s, v, f, w, k, t);
      case Submit(_) =>
    }
  }

  /** So does the function registered in the task it runs, and that task's job. */
  lemma HeldSame(s: State, e: Event, w: WorkerId)
    requires Refs(s) && Enabled(s, e) && (e.Submit? || e.w != w) && IsRunning(s, w)
    ensures s.workers[w].t in Apply(s, e).tasks
    ensures var t := s.workers[w].t; Apply(s, e).tasks[t].fn == s.tasks[t].fn && Apply(s, e).tasks[t].job == s.tasks[t].job
  {
    var t := s.workers[w].t;
    assert WorkerOk(s, w);
    SameDomains(s, e);
    match e {
      case Loop(v, l) => assert WorkerOk(s, v); LoopKeepsHeld(s, v, l, w, t);
      case Stack(v, f) => assert WorkerOk(s, v); StackHeldSame(s, v, f, w, t);
      case Submit(_) => assert forall u :: u in SubTasks(s.sub) ==> u in s.tasks && s.tasks[u].place.Submitting?;
    }
  }

  lemma LoopKeepsHeld(s: State, v: WorkerId, l: LoopEvent, w: WorkerId, t: TaskId)
    requires v in s.workers && WorkerOk(s, v) && LoopEnabled(s, v, l) && v != w && t in s.tasks && s.tasks[t].place == Active(w)
    ensures t in LoopApply(s, v, l).tasks
    ensures LoopApply(s, v, l).tasks[t].fn == s.tasks[t].fn && LoopApply(s, v, l).tasks[t].job == s.tasks[t].job
  {
  }

  lemma StackHeldSame(s: State, v: WorkerId, f: StackEvent, w: WorkerId, t: TaskId)
    requires Refs(s) && StackEnabled(s, v, f) && v != w && t in s.tasks && s.tasks[t].place == Active(w)
    ensures t in StackApply(s, v, f).tasks
    ensures StackApply(s, v, f).tasks[t].fn == s.tasks[t].fn && StackApply(s, v, f).tasks[t].job == s.tasks[t].job
  {
    assert WorkerOk(s, v);
    if f.FreeRejected? { assert RecycleOk(s, v, TopIndex(s, v)); }
    else { StackKeepsHeld(s, v, f, w, t); }
  }

  lemma StackKeepsHeld(s: State, v: WorkerId, f: StackEvent, w: WorkerId, t: TaskId)
    requires StackEnabled(s, v, f) && t in s.tasks && s.tasks[t].place == Active(w) && s.workers[v].t != t && !f.FreeRejected?
    ensures t in StackApply(s, v, f).tasks
    ensures StackApply(s, v, f).tasks[t].fn == s.tasks[t].fn && StackApply(s, v, f).tasks[t].job == s.tasks[t].job
  {
  }
}
