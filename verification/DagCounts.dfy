/** Every event keeps each counter equal to its virtual lock plus the children it still counts. */
module DagCounts {
  import opened Basics
  import opened Splitting
  import opened TaskDag
  import opened DagInvariant
  import opened DagRefs

  /** t's counter and everything it counts are as before. */
  ghost predicate SameTally(s: State, s': State, t: TaskId)
    requires t in s.tasks && t in s'.tasks
  {
    && s'.tasks[t].deps == s.tasks[t].deps && s'.tasks[t].place == s.tasks[t].place
    && SameKids(s.tasks, s'.tasks, t) && SameReps(s.workers, s'.workers, t)
  }

  ghost predicate SameKids(m: map<TaskId, Task>, m': map<TaskId, Task>, t: TaskId) {
    m'.Keys == m.Keys && forall c :: c in m ==> (CountedChild(m[c], t) <==> CountedChild(m'[c], t))
  }

  ghost predicate SameReps(ws: map<WorkerId, Worker>, ws': map<WorkerId, Worker>, t: TaskId) {
    ws'.Keys == ws.Keys && forall v :: v in ws ==> (ws[v] == Reporting(t) <==> ws'[v] == Reporting(t))
  }

  lemma KidsSame(m: map<TaskId, Task>, m': map<TaskId, Task>, t: TaskId)
    requires SameKids(m, m', t)
    ensures Kids(m', t) == Kids(m, t)
  {
  }

  lemma RepsSame(ws: map<WorkerId, Worker>, ws': map<WorkerId, Worker>, t: TaskId)
    requires SameReps(ws, ws', t)
    ensures Reps(ws', t) == Reps(ws, t)
  {
  }

  /** The tasks outside `x` keep their tally; those in `x` and the workers are checked apart. */
  lemma CountsByParts(s: State, s': State, x: set<TaskId>)
    requires Counts(s) && s'.tasks.Keys == s.tasks.Keys
    requires forall t :: t in s.tasks && t !in x ==> SameTally(s, s', t)
    requires forall t :: t in x && t in s.tasks ==> CountOk(s', t)
    requires forall w :: w in s'.workers ==> RunOk(s', w)
    ensures Counts(s')
  {
    forall t | t in s'.tasks ensures CountOk(s', t) {
      if t !in x {
        assert CountOk(s, t);
        KidsSame(s.tasks, s'.tasks, t);
        RepsSame(s.workers, s'.workers, t);
      }
    }
  }

  /** Worker w alone moves; t is the only task whose counter or place changes. */
  lemma CountsOne(s: State, s': State, w: WorkerId, t: TaskId)
    requires Counts(s) && Refs(s) && w in s.workers && t in s.tasks
    requires t in s'.tasks && s'.tasks == s.tasks[t := s'.tasks[t]] && s'.workers.Keys == s.workers.Keys
    requires forall v :: v in s.workers && v != w ==> s'.workers[v] == s.workers[v]
    requires !s.workers[w].Reporting? && !s'.workers[w].Reporting?
    requires forall p :: CountedChild(s.tasks[t], p) <==> CountedChild(s'.tasks[t], p)
    requires Kids(s.tasks, t) == Kids(s'.tasks, t) && Reps(s.workers, t) == Reps(s'.workers, t) ==> CountOk(s', t)
    requires RunOk(s', w)
    requires Refers(s.tasks[t].place, w) || s.tasks[t].place.Free? || s.tasks[t].place.Queued?
    ensures Counts(s')
  {
    KidsSame(s.tasks, s'.tasks, t);
    RepsSame(s.workers, s'.workers, t);
    forall v | v in s'.workers ensures RunOk(s', v) {
      if v != w { assert RunOk(s, v) && WorkerOk(s, v); }
    }
    CountsByParts(s, s', {t});
  }

  lemma CountsTake(s: State, w: WorkerId, t: TaskId)
    requires Refs(s) && Counts(s) && CanTake(s, w, t)
    ensures Counts(DoTake(s, w, t))
  {
    CountsOne(s, DoTake(s, w, t), w, t);
  }

  lemma CountsRunOwn(s: State, w: WorkerId)
    requires Refs(s) && Counts(s) && CanRunOwn(s, w)
    ensures Counts(DoRunOwn(s, w))
  {
    CountsOne(s, DoRunOwn(s, w), w, s.workers[w].t);
  }

  lemma CountsArm(s: State, w: WorkerId)
    requires Refs(s) && Counts(s) && CanArm(s, w)
    ensures Counts(DoArm(s, w))
  {
    CountsOne(s, DoArm(s, w), w, s.workers[w].t);
  }

  lemma CountsRequeue(s: State, w: WorkerId)
    requires Refs(s) && Counts(s) && CanRequeue(s, w)
    ensures Counts(DoRequeue(s, w))
  {
    CountsOne(s, DoRequeue(s, w), w, s.workers[w].t);
  }

  lemma CountsRunArmed(s: State, w: WorkerId)
    requires Refs(s) && Counts(s) && AtArmed(s, w)
    ensures Counts(DoRunArmed(s, w))
  {
    CountsOne(s, DoRunArmed(s, w), w, s.workers[w].t);
  }

  lemma CountsSetContinuation(s: State, w: WorkerId)
    requires Refs(s) && Counts(s) && AtUser(s, w)
    ensures Counts(DoSetContinuation(s, w))
  {
    CountsOne(s, DoSetContinuation(s, w), w, s.workers[w].t);
  }

  lemma CountsReturn(s: State, w: WorkerId)
    requires Refs(s) && Counts(s) && AtUser(s, w)
    ensures Counts(DoReturn(s, w))
  {
    CountsOne(s, DoReturn(s, w), w, s.workers[w].t);
  }

  lemma CountsPublishDone(s: State, w: WorkerId)
    requires Refs(s) && Counts(s) && AtPublish(s, w)
    ensures Counts(DoPublish(s, w))
  {
    CountsOne(s, DoPublish(s, w), w, s.workers[w].t);
  }

  lemma CountsSplitCall(s: State, w: WorkerId)
    requires Refs(s) && Counts(s) && CanSplitCall(s, w)
    ensures Counts(DoSplitCall(s, w))
  {
    CountsOne(s, DoSplitCall(s, w), w, s.workers[w].t);
  }

  lemma CountsSplitInline(s: State, w: WorkerId)
    requires Refs(s) && Counts(s) && WantsSplit(s, w)
    ensures Counts(DoSplitInline(s, w))
  {
    CountsOne(s, DoSplitInline(s, w), w, s.workers[w].t);
  }

  lemma CountsSplitFree(s: State, w: WorkerId, t: TaskId)
    requires Refs(s) && Counts(s) && CanSplitFree(s, w, t)
    ensures Counts(DoSplitFree(s, w, t))
  {
    CountsOne(s, DoSplitFree(s, w, t), w, t);
  }

  lemma CountsSpawnBegin(s: State, w: WorkerId)
    requires Refs(s) && Counts(s) && AtUser(s, w)
    ensures Counts(DoSpawnBegin(s, w))
  {
    CountsOne(s, DoSpawnBegin(s, w), w, s.workers[w].t);
  }

  lemma CountsSpawnDirect(s: State, w: WorkerId)
    requires Refs(s) && Counts(s) && AtSpawnEnd(s, w)
    ensures Counts(DoSpawnDirect(s, w))
  {
    CountsOne(s, DoSpawnDirect(s, w), w, s.workers[w].t);
  }

  lemma CountsSpawnEnd(s: State, w: WorkerId)
    requires Refs(s) && Counts(s) && AtSpawnEnd(s, w)
    ensures Counts(DoSpawnEnd(s, w))
  {
    CountsOne(s, DoSpawnEnd(s, w), w, s.workers[w].t);
  }

  lemma CountsRunRejected(s: State, w: WorkerId, t: TaskId)
    requires Refs(s) && Counts(s) && CanRunRejected(s, w, t)
    ensures Counts(DoRunRejected(s, w, t))
  {
    CountsOne(s, DoRunRejected(s, w, t), w, t);
  }

  lemma CountsFreeRejected(s: State, w: WorkerId)
    requires Refs(s) && Counts(s) && CanFreeRejected(s, w)
    ensures Counts(DoFreeRejected(s, w))
  {
    assert RecycleOk(s, w, TopIndex(s, w));
    CountsOne(s, DoFreeRejected(s, w), w, Top(s, w).c);
  }

  lemma CountsDrop(s: State, w: WorkerId)
    requires Refs(s) && Counts(s) && CanDrop(s, w)
    ensures Counts(DoDrop(s, w))
  {
    CountsOne(s, DoDrop(s, w), w, s.workers[w].t);
  }

  /** Nobody counts on a task that is still in the pool. */
  lemma FreeIsForgotten(s: State, t: TaskId)
    requires Refs(s) && Forest(s) && t in s.tasks && (s.tasks[t].place.Free? || s.tasks[t].place.Submitting?)
    ensures Kids(s.tasks, t) == {} && Reps(s.workers, t) == {}
  {
    forall c | c in s.tasks ensures !CountedChild(s.tasks[c], t) {
      assert TreeOk(s, c);
    }
    forall v | v in s.workers ensures s.workers[v] != Reporting(t) {
      assert WorkerOk(s, v);
    }
  }

  /** A worker that moves without reporting keeps every other worker's promises. */
  lemma RunsKeep(s: State, s': State, w: WorkerId, x: set<TaskId>)
    requires Counts(s) && Refs(s) && w in s.workers && s'.workers.Keys == s.workers.Keys && s'.tasks.Keys == s.tasks.Keys
    requires forall v :: v in s.workers && v != w ==> s'.workers[v] == s.workers[v]
    requires forall t :: t in s.tasks && t !in x ==> s'.tasks[t].deps == s.tasks[t].deps
    requires forall t :: t in x && t in s.tasks ==> !s.tasks[t].place.Active? || s.tasks[t].place == Active(w)
    requires RunOk(s', w)
    ensures forall v :: v in s'.workers ==> RunOk(s', v)
  {
    forall v | v in s'.workers ensures RunOk(s', v) {
      if v != w { assert RunOk(s, v) && WorkerOk(s, v); }
    }
  }

  predicate SameCounter(a: Task, b: Task) {
    a.place == b.place && a.parent == b.parent && a.deps == b.deps
  }

  /** A node leaves the pool and is filled in; nobody counts it yet. */
  lemma CountsFresh(s: State, s': State, w: WorkerId, r: TaskId)
    requires Refs(s) && Counts(s) && Forest(s) && IsFree(s, r) && IsRunning(s, w)
    requires s'.tasks.Keys == s.tasks.Keys && s'.workers.Keys == s.workers.Keys
    requires forall t :: t in s.tasks && t != r ==> SameCounter(s'.tasks[t], s.tasks[t])
    requires s'.tasks[r].place.Fresh? && s'.tasks[r].deps == 1
    requires forall v :: v in s.workers && v != w ==> s'.workers[v] == s.workers[v]
    requires s'.workers[w].Running? && RunOk(s', w)
    ensures Counts(s')
  {
    FreshCounted(s, s', w, r);
    RunsKeep(s, s', w, {r});
    forall t | t in s.tasks && t !in {r} ensures SameTally(s, s', t) { FreshTally(s, s', w, r, t); }
    CountsByParts(s, s', {r});
  }

  lemma FreshTally(s: State, s': State, w: WorkerId, r: TaskId, t: TaskId)
    requires IsFree(s, r) && w in s.workers && s.workers[w].Running? && t in s.tasks && t != r
    requires s'.tasks.Keys == s.tasks.Keys && s'.workers.Keys == s.workers.Keys
    requires forall c :: c in s.tasks && c != r ==> SameCounter(s'.tasks[c], s.tasks[c])
    requires s'.tasks[r].place.Fresh?
    requires forall v :: v in s.workers && v != w ==> s'.workers[v] == s.workers[v]
    requires s'.workers[w].Running?
    ensures SameTally(s, s', t)
  {
  }

  lemma FreshCounted(s: State, s': State, w: WorkerId, r: TaskId)
    requires Refs(s) && Counts(s) && Forest(s) && IsFree(s, r) && IsRunning(s, w)
    requires s'.tasks.Keys == s.tasks.Keys && s'.workers.Keys == s.workers.Keys
    requires forall t :: t in s.tasks && t != r ==> SameCounter(s'.tasks[t], s.tasks[t])
    requires s'.tasks[r].place.Fresh? && s'.tasks[r].deps == 1
    requires forall v :: v in s.workers && v != w ==> s'.workers[v] == s.workers[v]
    requires s'.workers[w].Running?
    ensures CountOk(s', r)
  {
    FreeIsForgotten(s, r);
    KidsSame(s.tasks, s'.tasks, r);
    RepsSame(s.workers, s'.workers, r);
  }

  lemma CountsSplitNew(s: State, w: WorkerId, r: TaskId)
    requires Refs(s) && Counts(s) && Forest(s) && CanSplitNew(s, w, r)
    ensures Counts(DoSplitNew(s, w, r))
  {
    assert WorkerOk(s, w) && RunOk(s, w);
    CountsFresh(s, DoSplitNew(s, w, r), w, r);
  }

  lemma CountsSpawnNew(s: State, w: WorkerId, r: TaskId)
    requires Refs(s) && Counts(s) && Forest(s) && CanSpawnNew(s, w, r)
    ensures Counts(DoSpawnNew(s, w, r))
  {
    assert WorkerOk(s, w) && RunOk(s, w);
    CountsFresh(s, DoSpawnNew(s, w, r), w, r);
  }

  lemma RetiredChild(s: State, w: WorkerId, p: TaskId)
    requires Refs(s) && CanRetire(s, w) && s.tasks[s.workers[w].t].parent == Some(p) && p in s.tasks && p != s.workers[w].t
    requires CountOk(s, p)
    ensures CountOk(DoRetire(s, w), p)
  {
    var s', t := DoRetire(s, w), s.workers[w].t;
    assert WorkerOk(s, w);
    KidLeaves(s.tasks, s'.tasks, t, p);
    ReporterCame(s.workers, s'.workers, w, p);
  }

  lemma KidLeaves(m: map<TaskId, Task>, m': map<TaskId, Task>, t: TaskId, p: TaskId)
    requires t in m && t in m' && m' == m[t := m'[t]] && CountedChild(m[t], p) && !CountedChild(m'[t], p)
    ensures |Kids(m', p)| == |Kids(m, p)| - 1
  {
    assert Kids(m', p) == Kids(m, p) - {t} && t in Kids(m, p);
  }

  lemma ReporterCame(ws: map<WorkerId, Worker>, ws': map<WorkerId, Worker>, w: WorkerId, p: TaskId)
    requires w in ws && w in ws' && ws' == ws[w := ws'[w]] && ws[w] != Reporting(p) && ws'[w] == Reporting(p)
    ensures |Reps(ws', p)| == |Reps(ws, p)| + 1
  {
    assert Reps(ws', p) == Reps(ws, p) + {w} && w !in Reps(ws, p);
  }

  lemma RetiredTally(s: State, w: WorkerId, u: TaskId)
    requires CanRetire(s, w) && u in s.tasks && u != s.workers[w].t && s.tasks[s.workers[w].t].parent != Some(u)
    ensures SameTally(s, DoRetire(s, w), u)
  {
  }

  /** The last look at a finished task: its node goes back, its parent gets a report. */
  lemma CountsRetire(s: State, w: WorkerId)
    requires Refs(s) && Counts(s) && Forest(s) && CanRetire(s, w)
    ensures Counts(DoRetire(s, w))
  {
    var s', t := DoRetire(s, w), s.workers[w].t;
    var x := if s.tasks[t].parent.Some? then {t, s.tasks[t].parent.value} else {t};
    assert WorkerOk(s, w) && TreeOk(s, t);
    RunsKeep(s, s', w, {});
    forall u | u in s.tasks && u !in x ensures SameTally(s, s', u) {
      RetiredTally(s, w, u);
    }
    if s.tasks[t].parent.Some? { RetiredChild(s, w, s.tasks[t].parent.value); }
    CountsByParts(s, s', x);
  }

  lemma ReportedParent(s: State, w: WorkerId)
    requires Refs(s) && Counts(s) && CanReport(s, w)
    ensures CountOk(DoReport(s, w), s.workers[w].p)
    ensures s.tasks[s.workers[w].p].deps == 1 ==> s.tasks[s.workers[w].p].place.Parked?
  {
    var s', p := DoReport(s, w), s.workers[w].p;
    assert WorkerOk(s, w) && CountOk(s, p);
    if s.tasks[p].deps == 1 { LastReporter(s, w, p); }
    KidsSame(s.tasks, s'.tasks, p);
    assert Reps(s'.workers, p) == Reps(s.workers, p) - {w} && w in Reps(s.workers, p);
  }

  lemma ReportTally(s: State, w: WorkerId, u: TaskId)
    requires CanReport(s, w) && u in s.tasks && u != s.workers[w].p
    requires s.tasks[s.workers[w].p].place.Active? || s.tasks[s.workers[w].p].place.Parked?
    ensures SameTally(s, DoReport(s, w), u)
  {
  }

  lemma ReportRuns(s: State, w: WorkerId, v: WorkerId)
    requires CanReport(s, w) && v in s.workers && RunOk(s, v) && WorkerOk(s, v)
    requires s.tasks[s.workers[w].p].deps == 1 ==> s.tasks[s.workers[w].p].place.Parked?
    ensures RunOk(DoReport(s, w), v)
  {
  }

  lemma CountsReport(s: State, w: WorkerId)
    requires Refs(s) && Counts(s) && CanReport(s, w)
    ensures Counts(DoReport(s, w))
  {
    var s', p := DoReport(s, w), s.workers[w].p;
    ReportedParent(s, w);
    assert WorkerOk(s, w);
    forall u | u in s.tasks && u != p ensures SameTally(s, s', u) { ReportTally(s, w, u); }
    forall v | v in s'.workers ensures RunOk(s', v) { ReportRuns(s, w, v); }
    CountsByParts(s, s', {p});
  }

  // ---------------------------------------------------------------- batches

  /** A whole batch moves in (d > 0) or out (d < 0) of the count of the task that w runs. */
  ghost predicate BatchStep(s: State, s': State, w: WorkerId, b: set<TaskId>, d: int) {
    && IsRunning(s, w) && s.workers[w].t !in b
    && s'.tasks.Keys == s.tasks.Keys && s'.workers.Keys == s.workers.Keys
    && (forall u :: u in s.tasks && u !in b && u != s.workers[w].t ==> SameCounter(s'.tasks[u], s.tasks[u]))
    && s'.tasks[s.workers[w].t] == s.tasks[s.workers[w].t].(deps := s.tasks[s.workers[w].t].deps + d)
    && (forall c :: c in b ==> c in s.tasks && s'.tasks[c].deps == s.tasks[c].deps)
    && (forall c :: c in b ==> s'.tasks[c].parent == s.tasks[c].parent == Some(s.workers[w].t))
    && (forall v :: v in s.workers && v != w ==> s'.workers[v] == s.workers[v])
    && s'.workers[w].Running? && s'.workers[w].t == s.workers[w].t
    && (if d >= 0
        then d == |b| && forall c :: c in b ==> s.tasks[c].place.Fresh? && s'.tasks[c].place.Offered?
        else d == -|b| && forall c :: c in b ==> s.tasks[c].place.Offered? && s'.tasks[c].place.Fresh?)
  }

  lemma BatchKids(s: State, s': State, w: WorkerId, b: set<TaskId>, d: int)
    requires BatchStep(s, s', w, b, d)
    ensures |Kids(s'.tasks, s.workers[w].t)| == |Kids(s.tasks, s.workers[w].t)| + d
  {
    if d >= 0 { KidsJoin(s.tasks, s'.tasks, s.workers[w].t, b); }
    else { KidsJoin(s'.tasks, s.tasks, s.workers[w].t, b); }
  }

  /** The tasks in b become counted children of t. */
  lemma KidsJoin(m: map<TaskId, Task>, m': map<TaskId, Task>, t: TaskId, b: set<TaskId>)
    requires m'.Keys == m.Keys && b <= m.Keys
    requires forall c :: c in b ==> !CountedChild(m[c], t) && CountedChild(m'[c], t)
    requires forall c :: c in m && c !in b ==> (CountedChild(m[c], t) <==> CountedChild(m'[c], t))
    ensures |Kids(m', t)| == |Kids(m, t)| + |b|
  {
    assert Kids(m', t) == Kids(m, t) + b && Kids(m, t) !! b;
  }

  lemma BatchTally(s: State, s': State, w: WorkerId, b: set<TaskId>, d: int, u: TaskId)
    requires BatchStep(s, s', w, b, d) && u in s.tasks && u != s.workers[w].t
    ensures SameKids(s.tasks, s'.tasks, u) && SameReps(s.workers, s'.workers, u)
  {
  }

  lemma BatchParent(s: State, s': State, w: WorkerId, b: set<TaskId>, d: int)
    requires BatchStep(s, s', w, b, d) && WorkerOk(s, w) && CountOk(s, s.workers[w].t)
    ensures CountOk(s', s.workers[w].t)
  {
    BatchKids(s, s', w, b, d);
    assert SameReps(s.workers, s'.workers, s.workers[w].t);
    RepsSame(s.workers, s'.workers, s.workers[w].t);
  }

  lemma BatchChild(s: State, s': State, w: WorkerId, b: set<TaskId>, d: int, c: TaskId)
    requires BatchStep(s, s', w, b, d) && c in b && CountOk(s, c)
    ensures CountOk(s', c)
  {
    BatchTally(s, s', w, b, d, c);
    KidsSame(s.tasks, s'.tasks, c);
    RepsSame(s.workers, s'.workers, c);
  }

  lemma CountsBatch(s: State, s': State, w: WorkerId, b: set<TaskId>, d: int)
    requires Refs(s) && Counts(s) && BatchStep(s, s', w, b, d) && RunOk(s', w)
    ensures Counts(s')
  {
    var x := b + {s.workers[w].t};
    assert WorkerOk(s, w) && CountOk(s, s.workers[w].t);
    forall t | t in s.tasks && t !in x ensures SameTally(s, s', t) {
      BatchTally(s, s', w, b, d, t);
    }
    forall t | t in x && t in s.tasks ensures CountOk(s', t) {
      if t in b { BatchChild(s, s', w, b, d, t); } else { BatchParent(s, s', w, b, d); }
    }
    RunsKeep(s, s', w, {s.workers[w].t});
    CountsByParts(s, s', x);
  }

  lemma CountsCountBatch(s: State, w: WorkerId)
    requires Refs(s) && Counts(s) && CanCount(s, w)
    ensures Counts(DoCount(s, w))
  {
    var b := TopBatch(s, w);
    assert WorkerOk(s, w) && RunOk(s, w);
    forall c | c in b ensures c != s.workers[w].t && s.tasks[c].parent == Some(s.workers[w].t) && s.tasks[c].place.Fresh? {
      ListedAtTop(s, w, c);
    }
    CountsBatch(s, DoCount(s, w), w, b, |b|);
  }

  lemma CountsRollback(s: State, w: WorkerId)
    requires Refs(s) && Counts(s) && CanRollback(s, w)
    ensures Counts(DoRollback(s, w))
  {
    var b := TopBatch(s, w);
    assert WorkerOk(s, w) && RunOk(s, w);
    forall c | c in b ensures c != s.workers[w].t && s.tasks[c].parent == Some(s.workers[w].t) && s.tasks[c].place.Offered? {
      ListedAtTop(s, w, c);
    }
    CountsBatch(s, DoRollback(s, w), w, b, -|b|);
  }

  lemma PushedTally(s: State, w: WorkerId, acc: set<TaskId>, u: TaskId)
    requires CanPush(s, w, acc) && u in s.tasks && s.tasks.Keys == DoPush(s, w, acc).tasks.Keys
    requires forall c :: c in acc ==> s.tasks[c].place.Offered?
    ensures SameKids(s.tasks, DoPush(s, w, acc).tasks, u) && SameReps(s.workers, DoPush(s, w, acc).workers, u)
    ensures u !in acc ==> SameTally(s, DoPush(s, w, acc), u)
    ensures u in acc && CountOk(s, u) ==> CountOk(DoPush(s, w, acc), u)
  {
    KidsSame(s.tasks, DoPush(s, w, acc).tasks, u);
    RepsSame(s.workers, DoPush(s, w, acc).workers, u);
  }

  lemma CountsPushBatch(s: State, w: WorkerId, acc: set<TaskId>)
    requires Refs(s) && Counts(s) && CanPush(s, w, acc)
    ensures Counts(DoPush(s, w, acc))
  {
    assert WorkerOk(s, w) && RunOk(s, w);
    forall c | c in acc ensures c != s.workers[w].t && s.tasks[c].place.Offered? {
      ListedAtTop(s, w, c);
    }
    forall u | u in s.tasks ensures u !in acc ==> SameTally(s, DoPush(s, w, acc), u) {
      PushedTally(s, w, acc, u);
    }
    forall u | u in acc && u in s.tasks ensures CountOk(DoPush(s, w, acc), u) {
      assert CountOk(s, u);
      PushedTally(s, w, acc, u);
    }
    RunsKeep(s, DoPush(s, w, acc), w, acc);
    CountsByParts(s, DoPush(s, w, acc), acc);
  }

  // ---------------------------------------------------------------- submission

  /** The submitting thread moves nodes nobody counts on. */
  lemma CountsSubmit(s: State, s': State, d: set<TaskId>)
    requires Refs(s) && Counts(s) && Forest(s) && s'.workers == s.workers && s'.tasks.Keys == s.tasks.Keys
    requires forall t :: t in s.tasks && t !in d ==> s'.tasks[t] == s.tasks[t]
    requires forall t :: t in d ==> t in s.tasks && (s.tasks[t].place.Free? || s.tasks[t].place.Submitting?)
    requires forall t :: t in d ==> s'.tasks[t].place.Free? || (s'.tasks[t].place.Submitting? && s'.tasks[t].deps == 1)
    ensures Counts(s')
  {
    forall w | w in s'.workers ensures RunOk(s', w) {
      assert RunOk(s, w) && WorkerOk(s, w);
    }
    CountsByParts(s, s', d);
  }

  lemma CountsSubmitRoot(s: State, r: TaskId, n: nat, chunk: nat)
    requires Refs(s) && Counts(s) && Forest(s) && CanSubmitRoot(s, r)
    ensures Counts(DoSubmitRoot(s, r, n, chunk))
  {
    CountsSubmit(s, DoSubmitRoot(s, r, n, chunk), {r});
  }

  lemma CountsSubmitChild(s: State, c: TaskId)
    requires Refs(s) && Counts(s) && Forest(s) && CanSubmitChild(s, c)
    ensures Counts(DoSubmitChild(s, c))
  {
    CountsSubmit(s, DoSubmitChild(s, c), {c});
  }

  lemma CountsDropRoot(s: State)
    requires Refs(s) && Counts(s) && Forest(s) && CanDropRoot(s)
    ensures Counts(DoDropRoot(s))
  {
    assert s.sub.r in SubTasks(s.sub);
    CountsSubmit(s, DoDropRoot(s), {s.sub.r});
  }

  lemma CountsDropChild(s: State)
    requires Refs(s) && Counts(s) && Forest(s) && CanDropChild(s)
    ensures Counts(DoDropChild(s))
  {
    assert s.sub.c in SubTasks(s.sub);
    CountsSubmit(s, DoDropChild(s), {s.sub.c});
  }

  lemma CountsSubmitPush(s: State, j: JobId)
    requires Refs(s) && Counts(s) && Forest(s) && SubmitOk(s) && CanSubmitPush(s, j)
    ensures Counts(DoSubmitPush(s, j))
  {
    var s', r, c := DoSubmitPush(s, j), s.sub.r, s.sub.c;
    assert r in SubTasks(s.sub) && c in SubTasks(s.sub);
    FreeIsForgotten(s, r);
    FreeIsForgotten(s, c);
    assert CountOk(s, r) && CountOk(s, c);
    assert Kids(s'.tasks, r) == Kids(s.tasks, r) + {c};
    KidsSame(s.tasks, s'.tasks, c);
    forall w | w in s'.workers ensures RunOk(s', w) {
      assert RunOk(s, w) && WorkerOk(s, w);
    }
    CountsByParts(s, s', {r, c});
  }

  lemma LoopCounts(s: State, w: WorkerId, l: LoopEvent)
    requires Refs(s) && Counts(s) && Forest(s) && SubmitOk(s) && LoopEnabled(s, w, l)
    ensures Counts(LoopApply(s, w, l))
  {
    match l
    case Take(t) => CountsTake(s, w, t);
    case Drop => CountsDrop(s, w);
    case RunOwn => CountsRunOwn(s, w);
    case Arm => CountsArm(s, w);
    case Requeue => CountsRequeue(s, w);
    case RunArmed => CountsRunArmed(s, w);
    case Retire => CountsRetire(s, w);
    case Report => CountsReport(s, w);
  }

  lemma StackCounts(s: State, w: WorkerId, f: StackEvent)
    requires Refs(s) && Counts(s) && Forest(s) && SubmitOk(s) && StackEnabled(s, w, f)
    ensures Counts(StackApply(s, w, f))
  {
    match f
    case SetContinuation => CountsSetContinuation(s, w);
    case Return => CountsReturn(s, w);
    case PublishDone => CountsPublishDone(s, w);
    case SplitCall => CountsSplitCall(s, w);
    case SplitInline => CountsSplitInline(s, w);
    case SplitNew(r) => CountsSplitNew(s, w, r);
    case SplitFree(r) => CountsSplitFree(s, w, r);
    case SpawnBegin => CountsSpawnBegin(s, w);
    case SpawnNew(r) => CountsSpawnNew(s, w, r);
    case SpawnDirect => CountsSpawnDirect(s, w);
    case SpawnEnd => CountsSpawnEnd(s, w);
    case CountBatch => CountsCountBatch(s, w);
    case PushBatch(acc) => CountsPushBatch(s, w, acc);
    case Rollback => CountsRollback(s, w);
    case RunRejected(r) => CountsRunRejected(s, w, r);
    case FreeRejected => CountsFreeRejected(s, w);
  }

  lemma SubmitCounts(s: State, m: SubmitEvent)
    requires Refs(s) && Counts(s) && Forest(s) && SubmitOk(s) && SubmitEnabled(s, m)
    ensures Counts(SubmitApply(s, m))
  {
    match m
    case SubmitRoot(r, n, chunk) => CountsSubmitRoot(s, r, n, chunk);
    case SubmitChild(c) => CountsSubmitChild(s, c);
    case DropRoot => CountsDropRoot(s);
    case DropChild => CountsDropChild(s);
    case SubmitPush(j) => CountsSubmitPush(s, j);
  }

  lemma StepCounts(s: State, e: Event)
    requires Refs(s) && Counts(s) && Forest(s) && SubmitOk(s) && Enabled(s, e)
    ensures Counts(Apply(s, e))
  {
    match e
    case Loop(w, l) => LoopCounts(s, w, l);
    case Stack(w, f) => StackCounts(s, w, f);
    case Submit(m) => SubmitCounts(s, m);
  }
}
