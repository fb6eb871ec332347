/** Every event keeps the record of which task, or which call, each index of a job belongs to. */
module DagCover {
  import opened Basics
  import opened Splitting
  import opened TaskDag
  import opened DagInvariant
  import opened DagRefs

  // ---------------------------------------------------------------- pending ranges follow the code

  /** Worker w moves; the tasks outside `x` keep what PendOk looks at. */
  lemma PendsByParts(s: State, s': State, w: WorkerId, x: set<TaskId>)
    requires Refs(s) && Pends(s) && w in s.workers
    requires s'.tasks.Keys == s.tasks.Keys && s'.workers.Keys == s.workers.Keys
    requires forall v :: v in s.workers && v != w ==> s'.workers[v] == s.workers[v]
    requires forall t :: t in s.tasks && t !in x ==>
               s'.tasks[t].pend == s.tasks[t].pend && s'.tasks[t].place == s.tasks[t].place && s'.tasks[t].fn == s.tasks[t].fn
    requires forall t :: t in x && t in s.tasks ==> PendOk(s', t) && (s.tasks[t].place.Active? ==> s.tasks[t].place.w == w)
    requires FrameAt(s', w, 0) == FrameAt(s, w, 0) || forall t :: t in s.tasks && s.tasks[t].place == Active(w) ==> t in x
    requires SplitterOk(s', w)
    ensures Pends(s')
  {
    forall t | t in s'.tasks ensures PendOk(s', t) {
      if t !in x { assert PendOk(s, t); PendFrame(s, s', w, t); }
    }
    forall v | v in s'.workers ensures SplitterOk(s', v) {
      if v != w { assert SplitterOk(s, v) && WorkerOk(s, v); }
    }
  }

  lemma PendFrame(s: State, s': State, w: WorkerId, t: TaskId)
    requires t in s.tasks && t in s'.tasks && PendOk(s, t)
    requires s'.tasks[t].pend == s.tasks[t].pend && s'.tasks[t].place == s.tasks[t].place && s'.tasks[t].fn == s.tasks[t].fn
    requires s.tasks[t].place.Active? ==> FrameAt(s', s.tasks[t].place.w, 0) == FrameAt(s, s.tasks[t].place.w, 0)
    ensures PendOk(s', t)
  {
  }

  lemma OnlyHeld(s: State, w: WorkerId)
    requires Refs(s) && w in s.workers
    ensures forall t :: t in s.tasks && s.tasks[t].place == Active(w) ==> Holds(s.workers[w]) == Some(t)
  {
    forall t | t in s.tasks && s.tasks[t].place == Active(w) ensures Holds(s.workers[w]) == Some(t) {
      assert PlaceOk(s, t);
    }
  }

  /** A splitter's frame is the bottom one. */
  lemma SplitAtBottom(s: State, w: WorkerId)
    requires Refs(s) && Pends(s) && AtSplit(s, w)
    ensures |s.workers[w].frames| == 1 && s.tasks[s.workers[w].t].pend == Range(Top(s, w).lo, Top(s, w).hi)
    ensures s.tasks[s.workers[w].t].place == Active(w)
  {
    assert WorkerOk(s, w) && SplitterOk(s, w);
    assert Over(s, w) ==> CallOk(Below(s, w), Top(s, w));
  }

  lemma PendsTake(s: State, w: WorkerId, t: TaskId)
    requires Refs(s) && Pends(s) && CanTake(s, w, t)
    ensures Pends(DoTake(s, w, t))
  {
    OnlyHeld(s, w);
    assert PendOk(s, t);
    PendsByParts(s, DoTake(s, w, t), w, {t});
  }

  lemma PendsDrop(s: State, w: WorkerId)
    requires Refs(s) && Pends(s) && CanDrop(s, w)
    ensures Pends(DoDrop(s, w))
  {
    OnlyHeld(s, w);
    assert WorkerOk(s, w) && PendOk(s, s.workers[w].t);
    PendsByParts(s, DoDrop(s, w), w, {s.workers[w].t});
  }

  lemma PendsRunOwn(s: State, w: WorkerId)
    requires Refs(s) && Pends(s) && CanRunOwn(s, w)
    ensures Pends(DoRunOwn(s, w))
  {
    OnlyHeld(s, w);
    assert WorkerOk(s, w) && PendOk(s, s.workers[w].t);
    PendsByParts(s, DoRunOwn(s, w), w, {s.workers[w].t});
  }

  lemma PendsArm(s: State, w: WorkerId)
    requires Refs(s) && Pends(s) && CanArm(s, w)
    ensures Pends(DoArm(s, w))
  {
    OnlyHeld(s, w);
    assert WorkerOk(s, w) && PendOk(s, s.workers[w].t);
    PendsByParts(s, DoArm(s, w), w, {s.workers[w].t});
  }

  lemma PendsRequeue(s: State, w: WorkerId)
    requires Refs(s) && Pends(s) && CanRequeue(s, w)
    ensures Pends(DoRequeue(s, w))
  {
    OnlyHeld(s, w);
    assert WorkerOk(s, w) && PendOk(s, s.workers[w].t);
    PendsByParts(s, DoRequeue(s, w), w, {s.workers[w].t});
  }

  lemma PendsRunArmed(s: State, w: WorkerId)
    requires Refs(s) && Pends(s) && AtArmed(s, w)
    ensures Pends(DoRunArmed(s, w))
  {
    OnlyHeld(s, w);
    assert WorkerOk(s, w) && PendOk(s, s.workers[w].t);
    PendsByParts(s, DoRunArmed(s, w), w, {s.workers[w].t});
  }

  lemma PendsRetire(s: State, w: WorkerId)
    requires Refs(s) && Pends(s) && CanRetire(s, w)
    ensures Pends(DoRetire(s, w))
  {
    OnlyHeld(s, w);
    assert WorkerOk(s, w) && PendOk(s, s.workers[w].t);
    PendsByParts(s, DoRetire(s, w), w, {s.workers[w].t});
  }

  lemma PendsReport(s: State, w: WorkerId)
    requires Refs(s) && Counts(s) && Pends(s) && CanReport(s, w)
    ensures Pends(DoReport(s, w))
  {
    var p := s.workers[w].p;
    OnlyHeld(s, w);
    assert WorkerOk(s, w) && PendOk(s, p);
    if s.tasks[p].deps == 1 {
      LastReporter(s, w, p);
      PendsByParts(s, DoReport(s, w), w, {p});
    } else {
      PendsByParts(s, DoReport(s, w), w, {});
    }
  }

  lemma PendsSetContinuation(s: State, w: WorkerId)
    requires Refs(s) && Pends(s) && AtUser(s, w)
    ensures Pends(DoSetContinuation(s, w))
  {
    OnlyHeld(s, w);
    assert WorkerOk(s, w) && PendOk(s, s.workers[w].t) && SplitterOk(s, w);
    PendsByParts(s, DoSetContinuation(s, w), w, {s.workers[w].t});
  }

  lemma PendsReturn(s: State, w: WorkerId)
    requires Refs(s) && Pends(s) && AtUser(s, w)
    ensures Pends(DoReturn(s, w))
  {
    OnlyHeld(s, w);
    assert WorkerOk(s, w) && PendOk(s, s.workers[w].t) && SplitterOk(s, w);
    PendsByParts(s, DoReturn(s, w), w, {s.workers[w].t});
  }

  lemma PendsPublishDone(s: State, w: WorkerId)
    requires Refs(s) && Pends(s) && AtPublish(s, w)
    ensures Pends(DoPublish(s, w))
  {
    OnlyHeld(s, w);
    assert WorkerOk(s, w) && PendOk(s, s.workers[w].t) && SplitterOk(s, w);
    PendsByParts(s, DoPublish(s, w), w, {s.workers[w].t});
  }

  lemma PendsSplitCall(s: State, w: WorkerId)
    requires Refs(s) && Pends(s) && CanSplitCall(s, w)
    ensures Pends(DoSplitCall(s, w))
  {
    OnlyHeld(s, w);
    assert WorkerOk(s, w) && PendOk(s, s.workers[w].t) && SplitterOk(s, w);
    SplitAtBottom(s, w);
    PendsByParts(s, DoSplitCall(s, w), w, {s.workers[w].t});
  }

  lemma PendsSplitInline(s: State, w: WorkerId)
    requires Refs(s) && Pends(s) && WantsSplit(s, w)
    ensures Pends(DoSplitInline(s, w))
  {
    OnlyHeld(s, w);
    assert WorkerOk(s, w) && PendOk(s, s.workers[w].t) && SplitterOk(s, w);
    SplitAtBottom(s, w);
    PendsByParts(s, DoSplitInline(s, w), w, {s.workers[w].t});
  }

  lemma PendsSplitNew(s: State, w: WorkerId, r: TaskId)
    requires Refs(s) && Pends(s) && CanSplitNew(s, w, r)
    ensures Pends(DoSplitNew(s, w, r))
  {
    OnlyHeld(s, w);
    assert WorkerOk(s, w) && PendOk(s, s.workers[w].t) && SplitterOk(s, w);
    SplitAtBottom(s, w);
    PendsByParts(s, DoSplitNew(s, w, r), w, {s.workers[w].t, r});
  }

  lemma PendsSplitFree(s: State, w: WorkerId, r: TaskId)
    requires Refs(s) && Pends(s) && CanSplitFree(s, w, r)
    ensures Pends(DoSplitFree(s, w, r))
  {
    OnlyHeld(s, w);
    assert WorkerOk(s, w) && PendOk(s, s.workers[w].t) && SplitterOk(s, w);
    PendsByParts(s, DoSplitFree(s, w, r), w, {r});
  }

  lemma PendsSpawnBegin(s: State, w: WorkerId)
    requires Refs(s) && Pends(s) && AtUser(s, w)
    ensures Pends(DoSpawnBegin(s, w))
  {
    OnlyHeld(s, w);
    assert WorkerOk(s, w) && PendOk(s, s.workers[w].t) && SplitterOk(s, w);
    PendsByParts(s, DoSpawnBegin(s, w), w, {});
  }

  lemma PendsSpawnNew(s: State, w: WorkerId, r: TaskId)
    requires Refs(s) && Pends(s) && CanSpawnNew(s, w, r)
    ensures Pends(DoSpawnNew(s, w, r))
  {
    OnlyHeld(s, w);
    assert WorkerOk(s, w) && PendOk(s, s.workers[w].t) && SplitterOk(s, w);
    PendsByParts(s, DoSpawnNew(s, w, r), w, {r});
  }

  lemma PendsSpawnDirect(s: State, w: WorkerId)
    requires Refs(s) && Pends(s) && AtSpawnEnd(s, w)
    ensures Pends(DoSpawnDirect(s, w))
  {
    OnlyHeld(s, w);
    assert WorkerOk(s, w) && PendOk(s, s.workers[w].t) && SplitterOk(s, w);
    PendsByParts(s, DoSpawnDirect(s, w), w, {});
  }

  lemma PendsSpawnEnd(s: State, w: WorkerId)
    requires Refs(s) && Pends(s) && AtSpawnEnd(s, w)
    ensures Pends(DoSpawnEnd(s, w))
  {
    OnlyHeld(s, w);
    assert WorkerOk(s, w) && PendOk(s, s.workers[w].t) && SplitterOk(s, w);
    PendsByParts(s, DoSpawnEnd(s, w), w, {});
  }

  /** A task of a batch that moves on with it. */
  lemma PendInBatch(s: State, s': State, c: TaskId)
    requires c in s.tasks && c in s'.tasks && PendOk(s, c) && s'.tasks[c].fn == s.tasks[c].fn && s'.tasks[c].pend == s.tasks[c].pend
    requires s.tasks[c].place.Fresh? || s.tasks[c].place.Offered?
    requires s'.tasks[c].place.Fresh? || s'.tasks[c].place.Offered? || s'.tasks[c].place.Queued?
    ensures PendOk(s', c)
  {
  }

  lemma PendsCountBatch(s: State, w: WorkerId)
    requires Refs(s) && Pends(s) && CanCount(s, w)
    ensures Pends(DoCount(s, w))
  {
    OnlyHeld(s, w);
    assert WorkerOk(s, w) && PendOk(s, s.workers[w].t) && SplitterOk(s, w);
    forall c | c in AtTop(s, w) ensures c != s.workers[w].t && PendOk(DoCount(s, w), c) {
      ListedAtTop(s, w, c);
      PendInBatch(s, DoCount(s, w), c);
    }
    PendsByParts(s, DoCount(s, w), w, AtTop(s, w));
  }

  lemma PendsPushBatch(s: State, w: WorkerId, acc: set<TaskId>)
    requires Refs(s) && Pends(s) && CanPush(s, w, acc)
    ensures Pends(DoPush(s, w, acc))
  {
    OnlyHeld(s, w);
    assert WorkerOk(s, w) && PendOk(s, s.workers[w].t) && SplitterOk(s, w);
    forall c | c in acc ensures c != s.workers[w].t && PendOk(DoPush(s, w, acc), c) {
      ListedAtTop(s, w, c);
      assert PendOk(s, c);
    }
    PendsByParts(s, DoPush(s, w, acc), w, acc);
  }

  lemma PendsRollback(s: State, w: WorkerId)
    requires Refs(s) && Pends(s) && CanRollback(s, w)
    ensures Pends(DoRollback(s, w))
  {
    OnlyHeld(s, w);
    assert WorkerOk(s, w) && PendOk(s, s.workers[w].t) && SplitterOk(s, w);
    forall c | c in AtTop(s, w) ensures c != s.workers[w].t && PendOk(DoRollback(s, w), c) {
      ListedAtTop(s, w, c);
      assert PendOk(s, c);
    }
    PendsByParts(s, DoRollback(s, w), w, AtTop(s, w));
  }

  lemma PendsRunRejected(s: State, w: WorkerId, r: TaskId)
    requires Refs(s) && Pends(s) && CanRunRejected(s, w, r)
    ensures Pends(DoRunRejected(s, w, r))
  {
    OnlyHeld(s, w);
    assert WorkerOk(s, w) && PendOk(s, s.workers[w].t) && SplitterOk(s, w);
    forall c | c in {r} ensures c != s.workers[w].t && PendOk(DoRunRejected(s, w, r), c) {
      ListedAtTop(s, w, c);
      assert PendOk(s, c);
    }
    PendsByParts(s, DoRunRejected(s, w, r), w, {r});
  }

  lemma PendsFreeRejected(s: State, w: WorkerId)
    requires Refs(s) && Pends(s) && CanFreeRejected(s, w)
    ensures Pends(DoFreeRejected(s, w))
  {
    OnlyHeld(s, w);
    assert WorkerOk(s, w) && PendOk(s, s.workers[w].t) && SplitterOk(s, w);
    assert RecycleOk(s, w, TopIndex(s, w));
    PendsByParts(s, DoFreeRejected(s, w), w, {Top(s, w).c});
  }

  lemma PendsSubmitRoot(s: State, r: TaskId, n: nat, chunk: nat)
    requires Refs(s) && Counts(s) && Forest(s) && SubmitOk(s) && Pends(s) && CanSubmitRoot(s, r)
    ensures Pends(DoSubmitRoot(s, r, n, chunk))
  {
  }

  lemma PendsSubmitChild(s: State, c: TaskId)
    requires Refs(s) && Counts(s) && Forest(s) && SubmitOk(s) && Pends(s) && CanSubmitChild(s, c)
    ensures Pends(DoSubmitChild(s, c))
  {
  }

  lemma PendsDropRoot(s: State)
    requires Refs(s) && Counts(s) && Forest(s) && SubmitOk(s) && Pends(s) && CanDropRoot(s)
    ensures Pends(DoDropRoot(s))
  {
  }

  lemma PendsDropChild(s: State)
    requires Refs(s) && Counts(s) && Forest(s) && SubmitOk(s) && Pends(s) && CanDropChild(s)
    ensures Pends(DoDropChild(s))
  {
  }

  lemma PendsSubmitPush(s: State, j: JobId)
    requires Refs(s) && Counts(s) && Forest(s) && SubmitOk(s) && Pends(s) && CanSubmitPush(s, j)
    ensures Pends(DoSubmitPush(s, j))
  {
  }

  // ---------------------------------------------------------------- every index has one answer

  /** The two records answer for the same indices of the same job. */
  predicate SameAnswer(a: Task, b: Task) {
    var has := Started(a) && a.pend.lo < a.pend.hi;
    has == (Started(b) && b.pend.lo < b.pend.hi) && (has ==> a.job == b.job && a.pend == b.pend)
  }

  ghost predicate SameBooks(jobs: map<JobId, Job>, jobs': map<JobId, Job>) {
    jobs'.Keys == jobs.Keys &&
    forall j :: j in jobs ==> jobs'[j].n == jobs[j].n && jobs'[j].calls == jobs[j].calls && jobs'[j].answer == jobs[j].answer
  }

  lemma CoverKept(s: State, s': State)
    requires Cover(s) && s'.tasks.Keys == s.tasks.Keys && SameBooks(s.jobs, s'.jobs)
    requires forall t :: t in s.tasks ==> SameAnswer(s.tasks[t], s'.tasks[t])
    ensures Cover(s')
  {
    forall j | j in s'.jobs ensures CoverOk(s', j) {
      assert CoverOk(s, j);
      CoverSame(s, s', j);
    }
  }

  /** Job j is untouched. */
  lemma CoverSame(s: State, s': State, j: JobId)
    requires j in s.jobs && CoverOk(s, j) && j in s'.jobs
    requires s'.jobs[j].n == s.jobs[j].n && s'.jobs[j].calls == s.jobs[j].calls && s'.jobs[j].answer == s.jobs[j].answer
    requires forall t, x :: AnswersFor(s', t, j, x) <==> AnswersFor(s, t, j, x)
    ensures CoverOk(s', j)
  {
    forall x | 0 <= x < s'.jobs[j].n ensures Answered(s', j, x) {
      assert Answered(s, j, x);
    }
    forall k: nat, x | InCall(s'.jobs[j], k, x) ensures x < s'.jobs[j].n && s'.jobs[j].answer[x] == Called(k) {
      assert InCall(s.jobs[j], k, x);
    }
  }

  /** An index inside a past call is on record as such, and no task answers for it. */
  lemma CalledOnce(s: State, j: JobId, t: TaskId, i: nat, x: int)
    requires j in s.jobs && CoverOk(s, j) && InCall(s.jobs[j], i, x)
    ensures 0 <= x < s.jobs[j].n && s.jobs[j].answer[x] == Called(i) && !AnswersFor(s, t, j, x)
  {
    assert s.jobs[j].calls[i].lo <= x;
  }

  /** Task t hands [lo, hi), the end of what it answers for, to a call. */
  ghost predicate GivesUp(s: State, s': State, j: JobId, t: TaskId, lo: nat, hi: nat) {
    && j in s.jobs && s'.tasks.Keys == s.tasks.Keys && t in s.tasks
    && (forall x :: lo <= x < hi ==> AnswersFor(s, t, j, x))
    && (forall x :: AnswersFor(s', t, j, x) <==> AnswersFor(s, t, j, x) && !(lo <= x < hi))
    && (forall i, x :: i != j ==> !AnswersFor(s, t, i, x) && !AnswersFor(s', t, i, x))
  }

  lemma CoverCall(s: State, s': State, j: JobId, t: TaskId, lo: nat, hi: nat)
    requires Cover(s) && GivesUp(s, s', j, t, lo, hi) && s'.jobs == LogCall(s.jobs, j, lo, hi)
    requires forall u :: u in s.tasks && u != t ==> SameAnswer(s.tasks[u], s'.tasks[u])
    ensures Cover(s')
  {
    forall i | i in s'.jobs ensures CoverOk(s', i) {
      assert CoverOk(s, i);
      if i != j { CoverSame(s, s', i); } else { CoverCalled(s, s', j, t, lo, hi); }
    }
  }

  lemma CoverCalled(s: State, s': State, j: JobId, t: TaskId, lo: nat, hi: nat)
    requires j in s.jobs && CoverOk(s, j) && GivesUp(s, s', j, t, lo, hi) && s'.jobs == LogCall(s.jobs, j, lo, hi)
    requires forall u :: u in s.tasks && u != t ==> SameAnswer(s.tasks[u], s'.tasks[u])
    ensures CoverOk(s', j)
  {
    var k := |s.jobs[j].calls|;
    forall x | 0 <= x < s'.jobs[j].n ensures Answered(s', j, x) {
      assert Answered(s, j, x);
    }
    forall u, x | AnswersFor(s', u, j, x) ensures x < s'.jobs[j].n && s'.jobs[j].answer[x] == Pending(u) {
      assert AnswersFor(s, u, j, x);
      assert lo <= x < hi ==> AnswersFor(s, t, j, x);
    }
    forall i: nat, x | InCall(s'.jobs[j], i, x)
      ensures x < s'.jobs[j].n && s'.jobs[j].answer[x] == Called(i)
    {
      if i == k {
        assert AnswersFor(s, t, j, x);
      } else {
        assert InCall(s.jobs[j], i, x);
        CalledOnce(s, j, t, i, x);
      }
    }
  }

  lemma CoverHandOver(s: State, s': State, j: JobId, t: TaskId, r: TaskId, lo: nat, hi: nat)
    requires Cover(s) && GivesUp(s, s', j, t, lo, hi) && s'.jobs == HandOver(s.jobs, j, lo, hi, r)
    requires r in s.tasks && r != t && s.tasks[r].place.Free?
    requires forall x :: AnswersFor(s', r, j, x) <==> lo <= x < hi
    requires forall i, x :: i != j ==> !AnswersFor(s', r, i, x)
    requires forall u :: u in s.tasks && u != t && u != r ==> SameAnswer(s.tasks[u], s'.tasks[u])
    ensures Cover(s')
  {
    forall i | i in s'.jobs ensures CoverOk(s', i) {
      assert CoverOk(s, i);
      if i != j { CoverSame(s, s', i); } else { CoverHandedOver(s, s', j, t, r, lo, hi); }
    }
  }

  lemma CoverHandedOver(s: State, s': State, j: JobId, t: TaskId, r: TaskId, lo: nat, hi: nat)
    requires j in s.jobs && CoverOk(s, j) && GivesUp(s, s', j, t, lo, hi) && s'.jobs == HandOver(s.jobs, j, lo, hi, r)
    requires r in s.tasks && r != t && s.tasks[r].place.Free?
    requires forall x :: AnswersFor(s', r, j, x) <==> lo <= x < hi
    requires forall u :: u in s.tasks && u != t && u != r ==> SameAnswer(s.tasks[u], s'.tasks[u])
    ensures CoverOk(s', j)
  {
    forall x | 0 <= x < s'.jobs[j].n ensures Answered(s', j, x) {
      assert Answered(s, j, x);
    }
    forall u, x | AnswersFor(s', u, j, x) ensures x < s'.jobs[j].n && s'.jobs[j].answer[x] == Pending(u) {
      if u == r { assert AnswersFor(s, t, j, x); }
      else { assert AnswersFor(s, u, j, x); assert lo <= x < hi ==> AnswersFor(s, t, j, x); }
    }
    forall i: nat, x | InCall(s'.jobs[j], i, x)
      ensures x < s'.jobs[j].n && s'.jobs[j].answer[x] == Called(i)
    {
      assert InCall(s.jobs[j], i, x);
      CalledOnce(s, j, t, i, x);
    }
  }

  lemma CoverTake(s: State, w: WorkerId, t: TaskId)
    requires Refs(s) && Pends(s) && Roots(s) && Cover(s) && CanTake(s, w, t)
    ensures Cover(DoTake(s, w, t))
  {
    CoverKept(s, DoTake(s, w, t));
  }

  lemma CoverDrop(s: State, w: WorkerId)
    requires Refs(s) && Pends(s) && Roots(s) && Cover(s) && CanDrop(s, w)
    ensures Cover(DoDrop(s, w))
  {
    assert WorkerOk(s, w) && PendOk(s, s.workers[w].t);
    CoverKept(s, DoDrop(s, w));
  }

  lemma CoverRunOwn(s: State, w: WorkerId)
    requires Refs(s) && Pends(s) && Roots(s) && Cover(s) && CanRunOwn(s, w)
    ensures Cover(DoRunOwn(s, w))
  {
    assert WorkerOk(s, w) && PendOk(s, s.workers[w].t);
    CoverKept(s, DoRunOwn(s, w));
  }

  lemma CoverArm(s: State, w: WorkerId)
    requires Refs(s) && Pends(s) && Roots(s) && Cover(s) && CanArm(s, w)
    ensures Cover(DoArm(s, w))
  {
    assert WorkerOk(s, w) && PendOk(s, s.workers[w].t);
    CoverKept(s, DoArm(s, w));
  }

  lemma CoverRequeue(s: State, w: WorkerId)
    requires Refs(s) && Pends(s) && Roots(s) && Cover(s) && CanRequeue(s, w)
    ensures Cover(DoRequeue(s, w))
  {
    assert WorkerOk(s, w) && PendOk(s, s.workers[w].t);
    CoverKept(s, DoRequeue(s, w));
  }

  lemma CoverRunArmed(s: State, w: WorkerId)
    requires Refs(s) && Pends(s) && Roots(s) && Cover(s) && AtArmed(s, w)
    ensures Cover(DoRunArmed(s, w))
  {
    assert WorkerOk(s, w) && PendOk(s, s.workers[w].t);
    CoverKept(s, DoRunArmed(s, w));
  }

  lemma CoverReturn(s: State, w: WorkerId)
    requires Refs(s) && Pends(s) && Roots(s) && Cover(s) && AtUser(s, w)
    ensures Cover(DoReturn(s, w))
  {
    assert WorkerOk(s, w);
    CoverKept(s, DoReturn(s, w));
  }

  lemma CoverPublishDone(s: State, w: WorkerId)
    requires Refs(s) && Pends(s) && Roots(s) && Cover(s) && AtPublish(s, w)
    ensures Cover(DoPublish(s, w))
  {
    assert WorkerOk(s, w);
    CoverKept(s, DoPublish(s, w));
  }

  lemma CoverSpawnBegin(s: State, w: WorkerId)
    requires Refs(s) && Pends(s) && Roots(s) && Cover(s) && AtUser(s, w)
    ensures Cover(DoSpawnBegin(s, w))
  {
    assert WorkerOk(s, w);
    CoverKept(s, DoSpawnBegin(s, w));
  }

  lemma CoverSpawnDirect(s: State, w: WorkerId)
    requires Refs(s) && Pends(s) && Roots(s) && Cover(s) && AtSpawnEnd(s, w)
    ensures Cover(DoSpawnDirect(s, w))
  {
    assert WorkerOk(s, w);
    CoverKept(s, DoSpawnDirect(s, w));
  }

  lemma CoverSpawnEnd(s: State, w: WorkerId)
    requires Refs(s) && Pends(s) && Roots(s) && Cover(s) && AtSpawnEnd(s, w)
    ensures Cover(DoSpawnEnd(s, w))
  {
    assert WorkerOk(s, w);
    CoverKept(s, DoSpawnEnd(s, w));
  }

  lemma CoverSetContinuation(s: State, w: WorkerId)
    requires Refs(s) && Pends(s) && Roots(s) && Cover(s) && AtUser(s, w)
    ensures Cover(DoSetContinuation(s, w))
  {
    assert WorkerOk(s, w);
    CoverKept(s, DoSetContinuation(s, w));
  }

  lemma CoverRetire(s: State, w: WorkerId)
    requires Refs(s) && Pends(s) && Roots(s) && Cover(s) && CanRetire(s, w)
    ensures Cover(DoRetire(s, w))
  {
    assert WorkerOk(s, w) && PendOk(s, s.workers[w].t);
    CoverKept(s, DoRetire(s, w));
  }

  lemma CoverFreeRejected(s: State, w: WorkerId)
    requires Refs(s) && Pends(s) && Roots(s) && Cover(s) && CanFreeRejected(s, w)
    ensures Cover(DoFreeRejected(s, w))
  {
    assert WorkerOk(s, w);
    assert RecycleOk(s, w, TopIndex(s, w)) && PendOk(s, Top(s, w).c);
    CoverKept(s, DoFreeRejected(s, w));
  }

  lemma CountKeepsRanges(s: State, w: WorkerId)
    requires Refs(s) && CanCount(s, w)
    ensures forall t :: t in s.tasks ==> SameAnswer(s.tasks[t], DoCount(s, w).tasks[t])
  {
    assert WorkerOk(s, w);
    forall c | c in TopBatch(s, w) ensures c != s.workers[w].t { ListedAtTop(s, w, c); }
  }

  lemma CoverCountBatch(s: State, w: WorkerId)
    requires Refs(s) && Pends(s) && Roots(s) && Cover(s) && CanCount(s, w)
    ensures Cover(DoCount(s, w))
  {
    CountKeepsRanges(s, w);
    CoverKept(s, DoCount(s, w));
  }

  lemma CoverRollback(s: State, w: WorkerId)
    requires Refs(s) && Pends(s) && Roots(s) && Cover(s) && CanRollback(s, w)
    ensures Cover(DoRollback(s, w))
  {
    assert WorkerOk(s, w);
    forall c | c in TopBatch(s, w) ensures c != s.workers[w].t { ListedAtTop(s, w, c); }
    CoverKept(s, DoRollback(s, w));
  }

  lemma CoverPushBatch(s: State, w: WorkerId, acc: set<TaskId>)
    requires Refs(s) && Pends(s) && Roots(s) && Cover(s) && CanPush(s, w, acc)
    ensures Cover(DoPush(s, w, acc))
  {
    assert WorkerOk(s, w);
    CoverKept(s, DoPush(s, w, acc));
  }

  lemma CoverRunRejected(s: State, w: WorkerId, r: TaskId)
    requires Refs(s) && Pends(s) && Roots(s) && Cover(s) && CanRunRejected(s, w, r)
    ensures Cover(DoRunRejected(s, w, r))
  {
    assert WorkerOk(s, w);
    CoverKept(s, DoRunRejected(s, w, r));
  }

  lemma CoverSpawnNew(s: State, w: WorkerId, r: TaskId)
    requires Refs(s) && Pends(s) && Roots(s) && Cover(s) && CanSpawnNew(s, w, r)
    ensures Cover(DoSpawnNew(s, w, r))
  {
    assert WorkerOk(s, w);
    CoverKept(s, DoSpawnNew(s, w, r));
  }

  lemma CoverReport(s: State, w: WorkerId)
    requires Refs(s) && Pends(s) && Roots(s) && Cover(s) && CanReport(s, w)
    ensures Cover(DoReport(s, w))
  {
    assert WorkerOk(s, w);
    CoverKept(s, DoReport(s, w));
  }

  lemma CoverSubmitRoot(s: State, r: TaskId, n: nat, chunk: nat)
    requires Refs(s) && Pends(s) && Roots(s) && Cover(s) && CanSubmitRoot(s, r)
    ensures Cover(DoSubmitRoot(s, r, n, chunk))
  {
    CoverKept(s, DoSubmitRoot(s, r, n, chunk));
  }

  lemma CoverSubmitChild(s: State, c: TaskId)
    requires Refs(s) && Pends(s) && Roots(s) && Cover(s) && CanSubmitChild(s, c)
    ensures Cover(DoSubmitChild(s, c))
  {
    CoverKept(s, DoSubmitChild(s, c));
  }

  lemma CoverDropRoot(s: State)
    requires Refs(s) && Pends(s) && Roots(s) && Cover(s) && CanDropRoot(s)
    ensures Cover(DoDropRoot(s))
  {
    CoverKept(s, DoDropRoot(s));
  }

  lemma CoverDropChild(s: State)
    requires Refs(s) && Pends(s) && Roots(s) && Cover(s) && CanDropChild(s)
    ensures Cover(DoDropChild(s))
  {
    CoverKept(s, DoDropChild(s));
  }

  lemma CoverSplitCall(s: State, w: WorkerId)
    requires Refs(s) && Pends(s) && Roots(s) && Cover(s) && CanSplitCall(s, w)
    ensures Cover(DoSplitCall(s, w))
  {
    SplitAtBottom(s, w);
    assert NodeOk(s, s.workers[w].t);
    CoverCall(s, DoSplitCall(s, w), JobOf(s, w), s.workers[w].t, Top(s, w).lo, Top(s, w).hi);
  }

  lemma CoverSplitInline(s: State, w: WorkerId)
    requires Refs(s) && Pends(s) && Roots(s) && Cover(s) && WantsSplit(s, w)
    ensures Cover(DoSplitInline(s, w))
  {
    SplitAtBottom(s, w);
    assert NodeOk(s, s.workers[w].t);
    CoverCall(s, DoSplitInline(s, w), JobOf(s, w), s.workers[w].t, SplitPoint(s, w), Top(s, w).hi);
  }

  lemma CoverSplitNew(s: State, w: WorkerId, r: TaskId)
    requires Refs(s) && Pends(s) && Roots(s) && Cover(s) && CanSplitNew(s, w, r)
    ensures Cover(DoSplitNew(s, w, r))
  {
    SplitAtBottom(s, w);
    assert NodeOk(s, s.workers[w].t);
    CoverHandOver(s, DoSplitNew(s, w, r), JobOf(s, w), s.workers[w].t, r, SplitPoint(s, w), Top(s, w).hi);
  }

  lemma CoverSplitFree(s: State, w: WorkerId, r: TaskId)
    requires Refs(s) && Pends(s) && Roots(s) && Forest(s) && Cover(s) && CanSplitFree(s, w, r)
    ensures Cover(DoSplitFree(s, w, r))
  {
    assert r in TopBatch(s, w);
    ListedAtTop(s, w, r);
    assert NodeOk(s, r) && TreeOk(s, r);
    CoverCall(s, DoSplitFree(s, w, r), JobOf(s, w), r, s.tasks[r].pend.lo, s.tasks[r].pend.hi);
  }

  lemma CoverSubmitPush(s: State, j: JobId)
    requires Refs(s) && Roots(s) && SubmitOk(s) && Cover(s) && CanSubmitPush(s, j)
    ensures Cover(DoSubmitPush(s, j))
  {
    var s' := DoSubmitPush(s, j);
    assert s.sub.r in SubTasks(s.sub) && s.sub.c in SubTasks(s.sub);
    forall t, x | AnswersFor(s', t, j, x) ensures t == s.sub.c && 0 <= x < s.sub.n {
      assert NodeOk(s, t);
    }
    forall i | i in s'.jobs ensures CoverOk(s', i) {
      if i != j {
        assert CoverOk(s, i);
        CoverSame(s, s', i);
      } else {
        forall x | 0 <= x < s.sub.n ensures Answered(s', j, x) {}
      }
    }
  }

  lemma LoopPends(s: State, w: WorkerId, l: LoopEvent)
    requires Refs(s) && Counts(s) && Forest(s) && SubmitOk(s) && Pends(s) && LoopEnabled(s, w, l)
    ensures Pends(LoopApply(s, w, l))
  {
    match l
    case Take(t) => PendsTake(s, w, t);
    case Drop => PendsDrop(s, w);
    case RunOwn => PendsRunOwn(s, w);
    case Arm => PendsArm(s, w);
    case Requeue => PendsRequeue(s, w);
    case RunArmed => PendsRunArmed(s, w);
    case Retire => PendsRetire(s, w);
    case Report => PendsReport(s, w);
  }

  lemma StackPends(s: State, w: WorkerId, f: StackEvent)
    requires Refs(s) && Counts(s) && Forest(s) && SubmitOk(s) && Pends(s) && StackEnabled(s, w, f)
    ensures Pends(StackApply(s, w, f))
  {
    match f
    case SetContinuation => PendsSetContinuation(s, w);
    case Return => PendsReturn(s, w);
    case PublishDone => PendsPublishDone(s, w);
    case SplitCall => PendsSplitCall(s, w);
    case SplitInline => PendsSplitInline(s, w);
    case SplitNew(r) => PendsSplitNew(s, w, r);
    case SplitFree(r) => PendsSplitFree(s, w, r);
    case SpawnBegin => PendsSpawnBegin(s, w);
    case SpawnNew(r) => PendsSpawnNew(s, w, r);
    case SpawnDirect => PendsSpawnDirect(s, w);
    case SpawnEnd => PendsSpawnEnd(s, w);
    case CountBatch => PendsCountBatch(s, w);
    case PushBatch(acc) => PendsPushBatch(s, w, acc);
    case Rollback => PendsRollback(s, w);
    case RunRejected(r) => PendsRunRejected(s, w, r);
    case FreeRejected => PendsFreeRejected(s, w);
  }

  lemma SubmitPends(s: State, m: SubmitEvent)
    requires Refs(s) && Counts(s) && Forest(s) && SubmitOk(s) && Pends(s) && SubmitEnabled(s, m)
    ensures Pends(SubmitApply(s, m))
  {
    match m
    case SubmitRoot(r, n, chunk) => PendsSubmitRoot(s, r, n, chunk);
    case SubmitChild(c) => PendsSubmitChild(s, c);
    case DropRoot => PendsDropRoot(s);
    case DropChild => PendsDropChild(s);
    case SubmitPush(j) => PendsSubmitPush(s, j);
  }

  lemma StepPends(s: State, e: Event)
    requires Refs(s) && Counts(s) && Forest(s) && SubmitOk(s) && Pends(s) && Enabled(s, e)
    ensures Pends(Apply(s, e))
  {
    match e
    case Loop(w, l) => LoopPends(s, w, l);
    case Stack(w, f) => StackPends(s, w, f);
    case Submit(m) => SubmitPends(s, m);
  }

  lemma LoopCover(s: State, w: WorkerId, l: LoopEvent)
    requires Refs(s) && Counts(s) && Forest(s) && SubmitOk(s) && Roots(s) && Pends(s) && Cover(s) && LoopEnabled(s, w, l)
    ensures Cover(LoopApply(s, w, l))
  {
    match l
    case Take(t) => CoverTake(s, w, t);
    case Drop => CoverDrop(s, w);
    case RunOwn => CoverRunOwn(s, w);
    case Arm => CoverArm(s, w);
    case Requeue => CoverRequeue(s, w);
    case RunArmed => CoverRunArmed(s, w);
    case Retire => CoverRetire(s, w);
    case Report => CoverReport(s, w);
  }

  lemma StackCover(s: State, w: WorkerId, f: StackEvent)
    requires Refs(s) && Counts(s) && Forest(s) && SubmitOk(s) && Roots(s) && Pends(s) && Cover(s) && StackEnabled(s, w, f)
    ensures Cover(StackApply(s, w, f))
  {
    match f
    case SetContinuation => CoverSetContinuation(s, w);
    case Return => CoverReturn(s, w);
    case PublishDone => CoverPublishDone(s, w);
    case SplitCall => CoverSplitCall(s, w);
    case SplitInline => CoverSplitInline(s, w);
    case SplitNew(r) => CoverSplitNew(s, w, r);
    case SplitFree(r) => CoverSplitFree(s, w, r);
    case SpawnBegin => CoverSpawnBegin(s, w);
    case SpawnNew(r) => CoverSpawnNew(s, w, r);
    case SpawnDirect => CoverSpawnDirect(s, w);
    case SpawnEnd => CoverSpawnEnd(s, w);
    case CountBatch => CoverCountBatch(s, w);
    case PushBatch(acc) => CoverPushBatch(s, w, acc);
    case Rollback => CoverRollback(s, w);
    case RunRejected(r) => CoverRunRejected(s, w, r);
    case FreeRejected => CoverFreeRejected(s, w);
  }

  lemma SubmitCover(s: State, m: SubmitEvent)
    requires Refs(s) && Counts(s) && Forest(s) && SubmitOk(s) && Roots(s) && Pends(s) && Cover(s) && SubmitEnabled(s, m)
    ensures Cover(SubmitApply(s, m))
  {
    match m
    case SubmitRoot(r, n, chunk) => CoverSubmitRoot(s, r, n, chunk);
    case SubmitChild(c) => CoverSubmitChild(s, c);
    case DropRoot => CoverDropRoot(s);
    case DropChild => CoverDropChild(s);
    case SubmitPush(j) => CoverSubmitPush(s, j);
  }

  lemma StepCover(s: State, e: Event)
    requires Refs(s) && Counts(s) && Forest(s) && SubmitOk(s) && Roots(s) && Pends(s) && Cover(s) && Enabled(s, e)
    ensures Cover(Apply(s, e))
  {
    match e
    case Loop(w, l) => LoopCover(s, w, l);
    case Stack(w, f) => StackCover(s, w, f);
    case Submit(m) => SubmitCover(s, m);
  }
}
