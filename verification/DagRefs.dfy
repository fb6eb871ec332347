/** Every event keeps workers and tasks in agreement about who holds what. */
module DagRefs {
  import opened Basics
  import opened Splitting
  import opened TaskDag
  import opened DagInvariant

  /** Worker w is the only one that a task at place p depends on. */
  predicate MineOrNobodys(p: Place, w: WorkerId) {
    match p
    case Fresh(v, _) => v == w
    case Offered(v, _) => v == w
    case Recycled(v, _) => v == w
    case Active(v) => v == w
    case Owned(v) => v == w
    case Submitting => false
    case _ => true
  }

  predicate Refers(p: Place, w: WorkerId) {
    MineOrNobodys(p, w) && !p.Free? && !p.Queued? && !p.Parked?
  }

  predicate Reportable(p: Place) {
    p.Active? || p.Parked?
  }

  predicate SameRole(a: Task, b: Task) {
    a.place == b.place && a.fn == b.fn && a.parent == b.parent
  }

  /** From s to s' only worker w moved, and only tasks in `d` changed. */
  ghost predicate OnlyMoves(s: State, s': State, w: WorkerId, d: set<TaskId>) {
    && w in s.workers
    && s'.tasks.Keys == s.tasks.Keys && s'.workers.Keys == s.workers.Keys && s'.sub == s.sub
    && (forall t :: t in s.tasks && t !in d ==> SameRole(s'.tasks[t], s.tasks[t]))
    && (forall v :: v in s.workers && v != w ==> s'.workers[v] == s.workers[v])
    && (forall t :: t in d ==> t in s.tasks && MineOrNobodys(s.tasks[t].place, w))
    && (forall t :: t in d && Reportable(s.tasks[t].place) && !Reportable(s'.tasks[t].place) ==>
          forall v :: v in s.workers && v != w ==> s.workers[v] != Reporting(t))
  }

  lemma OtherWorker(s: State, s': State, w: WorkerId, d: set<TaskId>, v: WorkerId)
    requires OnlyMoves(s, s', w, d) && v in s.workers && v != w && WorkerOk(s, v)
    ensures WorkerOk(s', v)
  {
    match s.workers[v]
    case Reporting(p) => if p in d { assert s.workers[v] == Reporting(p); }
    case _ =>
  }

  lemma OtherPlace(s: State, s': State, w: WorkerId, d: set<TaskId>, t: TaskId)
    requires OnlyMoves(s, s', w, d) && t in s.tasks && t !in d && PlaceOk(s, t)
    requires !Refers(s.tasks[t].place, w)
    ensures PlaceOk(s', t)
  {
  }

  lemma OtherRecycle(s: State, s': State, w: WorkerId, d: set<TaskId>, v: WorkerId, k: nat)
    requires OnlyMoves(s, s', w, d) && v != w && FrameAt(s, v, k).Some? && RecycleOk(s, v, k)
    ensures FrameAt(s', v, k) == FrameAt(s, v, k) && RecycleOk(s', v, k)
  {
  }

  /** A counter that holds nothing but the virtual lock has no children and no reports. */
  lemma NothingCounted(s: State, t: TaskId)
    requires Counts(s) && t in s.tasks && Started(s.tasks[t]) && s.tasks[t].deps == Lock(s.tasks[t])
    ensures Kids(s.tasks, t) == {}
    ensures forall v :: v in s.workers ==> s.workers[v] != Reporting(t)
  {
    assert CountOk(s, t);
    assert Reps(s.workers, t) == {};
    forall v | v in s.workers ensures s.workers[v] != Reporting(t) {
      assert v !in Reps(s.workers, t);
    }
  }

  lemma LastReporter(s: State, w: WorkerId, p: TaskId)
    requires Refs(s) && Counts(s) && w in s.workers && s.workers[w] == Reporting(p) && p in s.tasks && s.tasks[p].deps == 1
    ensures s.tasks[p].place.Parked? && Kids(s.tasks, p) == {}
    ensures forall v :: v in s.workers && v != w ==> s.workers[v] != Reporting(p)
  {
    assert WorkerOk(s, w) && CountOk(s, p);
    assert w in Reps(s.workers, p);
    assert |Reps(s.workers, p) - {w}| == 0;
    forall v | v in s.workers && v != w ensures s.workers[v] != Reporting(p) {
      assert v !in Reps(s.workers, p) - {w};
    }
  }

  /** What is left to check when only one worker moves. */
  lemma RefsByParts(s: State, s': State, w: WorkerId, d: set<TaskId>)
    requires Refs(s) && OnlyMoves(s, s', w, d)
    requires WorkerOk(s', w)
    requires forall t :: t in s.tasks && (t in d || Refers(s.tasks[t].place, w)) ==> PlaceOk(s', t)
    requires forall k: nat :: FrameAt(s', w, k).Some? && FrameAt(s', w, k) != FrameAt(s, w, k) ==> RecycleOk(s', w, k)
    requires forall t :: t in d && s.tasks[t].place.Recycled? ==> FrameAt(s', w, s.tasks[t].place.k) != Some(Recycle(t))
    ensures Refs(s')
  {
    forall v | v in s'.workers ensures WorkerOk(s', v) {
      if v != w { OtherWorker(s, s', w, d, v); }
    }
    forall t | t in s'.tasks ensures PlaceOk(s', t) {
      if t !in d && !Refers(s.tasks[t].place, w) { OtherPlace(s, s', w, d, t); }
    }
    forall v, k: nat | FrameAt(s', v, k).Some? ensures RecycleOk(s', v, k) {
      if v != w { OtherRecycle(s, s', w, d, v, k); } else { assert FrameAt(s', w, k) == FrameAt(s, w, k) ==> RecycleOk(s, w, k); }
    }
  }

  predicate AtFrame(p: Place, w: WorkerId, k: nat) {
    p == Fresh(w, k) || p == Offered(w, k) || p == Recycled(w, k)
  }

  /** A task listed below the top frame is not affected by what happens at the top. */
  lemma KeepListed(s: State, s': State, w: WorkerId, fs: seq<Frame>, t: TaskId, k: nat)
    requires IsRunning(s, w) && w in s'.workers && s'.workers[w] == WithTop(s, w, fs)
    requires t in s.tasks && t in s'.tasks && SameRole(s'.tasks[t], s.tasks[t]) && PlaceOk(s, t)
    requires AtFrame(s.tasks[t].place, w, k) && k < TopIndex(s, w)
    ensures PlaceOk(s', t)
  {
    var f, f' := s.workers[w].frames, s'.workers[w].frames;
    assert f'[k] == f[k] && FrameAt(s', w, k) == FrameAt(s, w, k);
    if 0 < k { assert f'[k-1] == f[k-1]; }
  }

  lemma TopFramesOk(f: seq<Frame>, fs: seq<Frame>)
    requires FramesOk(f)
    requires fs == [] ==> |f| > 1
    requires fs != [] && |f| > 1 ==> CallOk(f[|f|-2], fs[0])
    requires fs != [] && |f| == 1 ==> (fs[0].User? || fs[0].Split?)
    requires forall i :: 1 <= i < |fs| ==> CallOk(fs[i-1], fs[i])
    ensures FramesOk(f[..|f|-1] + fs)
  {
    var g := f[..|f|-1] + fs;
    forall i | 1 <= i < |g| ensures CallOk(g[i-1], g[i]) {
      if i < |f| - 1 { assert CallOk(f[i-1], f[i]); }
      else if i > |f| - 1 { assert CallOk(fs[i - |f|], fs[i - |f| + 1]); }
    }
  }

  /** A task that w refers to, but not from its top frame. */
  lemma PlaceBelowTop(s: State, s': State, w: WorkerId, d: set<TaskId>, fs: seq<Frame>, t: TaskId)
    requires Refs(s) && OnlyMoves(s, s', w, d) && IsRunning(s, w) && s'.workers[w] == WithTop(s, w, fs)
    requires t in s.tasks && t !in d && Refers(s.tasks[t].place, w)
    requires !AtFrame(s.tasks[t].place, w, TopIndex(s, w))
    ensures PlaceOk(s', t)
  {
    assert PlaceOk(s, t);
    match s.tasks[t].place
    case Active(_) =>
    case Owned(_) => assert false;
    case Fresh(_, k) => KeepListed(s, s', w, fs, t, k);
    case Offered(_, k) => KeepListed(s, s', w, fs, t, k);
    case Recycled(_, k) => KeepListed(s, s', w, fs, t, k);
  }

  /** What is left to check when the top frame of a running function is replaced by `fs`. */
  lemma RefsAtTop(s: State, s': State, w: WorkerId, d: set<TaskId>, fs: seq<Frame>)
    requires Refs(s) && OnlyMoves(s, s', w, d) && IsRunning(s, w) && s'.workers[w] == WithTop(s, w, fs)
    requires s.workers[w].t !in d
    requires fs == [] ==> |s.workers[w].frames| > 1
    requires fs != [] && Over(s, w) ==> CallOk(Below(s, w), fs[0])
    requires fs != [] && !Over(s, w) ==> fs[0].User? || fs[0].Split?
    requires forall i :: 1 <= i < |fs| ==> CallOk(fs[i-1], fs[i])
    requires forall c :: c in d ==> AtFrame(s.tasks[c].place, w, TopIndex(s, w)) || s.tasks[c].place.Free?
    requires forall c :: c in d ==> PlaceOk(s', c)
    requires forall c :: c in s.tasks && AtFrame(s.tasks[c].place, w, TopIndex(s, w)) ==> c in d
    requires forall i :: 0 <= i < |fs| && fs[i].Recycle? ==>
               fs[i].c in s'.tasks && s'.tasks[fs[i].c].place == Recycled(w, TopIndex(s, w) + i)
    requires forall c :: c in d && s.tasks[c].place.Recycled? ==> fs != [] && fs[0] != Recycle(c)
    ensures Refs(s')
  {
    var f, top := s.workers[w].frames, TopIndex(s, w);
    var f' := f[..top] + fs;
    assert WorkerOk(s, w);
    TopFramesOk(f, fs);
    forall t | t in s.tasks && (t in d || Refers(s.tasks[t].place, w)) ensures PlaceOk(s', t) {
      if t !in d { PlaceBelowTop(s, s', w, d, fs, t); }
    }
    forall k: nat | FrameAt(s', w, k).Some? && FrameAt(s', w, k) != FrameAt(s, w, k) ensures RecycleOk(s', w, k) {
      assert FrameAt(s', w, k).value == f'[k];
      assert forall i :: 0 <= i < top ==> f'[i] == f[i];
      assert k >= top && f'[k] == fs[k - top];
    }
    forall t | t in d && s.tasks[t].place.Recycled?
      ensures FrameAt(s', w, s.tasks[t].place.k) != Some(Recycle(t))
    {
      assert f'[top] == fs[0];
    }
    RefsByParts(s, s', w, d);
  }

  function AtTop(s: State, w: WorkerId): set<TaskId>
    requires IsRunning(s, w)
  {
    set c | c in s.tasks && AtFrame(s.tasks[c].place, w, TopIndex(s, w))
  }

  /** What the invariant says of a task listed by the top frame. */
  lemma ListedAtTop(s: State, w: WorkerId, c: TaskId)
    requires Refs(s) && IsRunning(s, w) && c in AtTop(s, w)
    ensures Over(s, w) && (Below(s, w).User? || Below(s, w).Split?)
    ensures s.tasks[c].parent == Some(s.workers[w].t) && c != s.workers[w].t
    ensures s.tasks[c].place.Fresh? ==> Top(s, w).New? || Top(s, w).Inline? || Top(s, w).Recycle?
    ensures s.tasks[c].place.Offered? ==> Top(s, w).Offer? || Top(s, w).Reject?
    ensures s.tasks[c].place.Recycled? <==> Top(s, w) == Recycle(c)
    ensures !s.tasks[c].place.Recycled? ==> if Below(s, w).User? then s.tasks[c].fn.Code? else s.tasks[c].fn.Splitter?
  {
    assert PlaceOk(s, c) && WorkerOk(s, w);
    assert CallOk(Below(s, w), Top(s, w));
    if Top(s, w) == Recycle(c) { assert RecycleOk(s, w, TopIndex(s, w)); }
  }

  /** A listed task stays well placed when its frame moves on together with it. */
  lemma BatchMoves(s: State, s': State, w: WorkerId, c: TaskId, f: Frame)
    requires Over(s, w) && w in s'.workers && s'.workers[w] == WithTop(s, w, [f])
    requires c in s.tasks && c in s'.tasks && s'.tasks[c].parent == s.tasks[c].parent && s'.tasks[c].fn == s.tasks[c].fn
    requires s.tasks[c].parent == Some(s.workers[w].t)
    requires Below(s, w).User? ==> s.tasks[c].fn.Code?
    requires Below(s, w).Split? ==> s.tasks[c].fn.Splitter?
    requires if f.Offer? || f.Reject? then s'.tasks[c].place == Offered(w, TopIndex(s, w))
             else f.Inline? && s'.tasks[c].place == Fresh(w, TopIndex(s, w))
    ensures PlaceOk(s', c)
  {
    var f' := s'.workers[w].frames;
    assert f'[TopIndex(s, w)] == f && f'[TopIndex(s, w) - 1] == Below(s, w);
  }

  /** Only batch frames list tasks. */
  lemma NoneAtTop(s: State, w: WorkerId)
    requires Refs(s) && IsRunning(s, w) && (Top(s, w).User? || Top(s, w).Split? || Top(s, w).Publish?)
    ensures AtTop(s, w) == {}
  {
    forall c | c in s.tasks ensures !AtFrame(s.tasks[c].place, w, TopIndex(s, w)) {
      assert PlaceOk(s, c);
    }
  }

  /** The function of the current task has returned: nothing is listed any more. */
  lemma RefsLast(s: State, s': State, w: WorkerId)
    requires Refs(s) && OnlyMoves(s, s', w, {}) && IsRunning(s, w) && |s.workers[w].frames| == 1 && AtTop(s, w) == {}
    requires s'.workers[w] == Dropping(s.workers[w].t, s.workers[w].ctx)
    ensures Refs(s')
  {
    forall t | t in s.tasks && Refers(s.tasks[t].place, w) ensures PlaceOk(s', t) {
      assert PlaceOk(s, t) && t !in AtTop(s, w);
    }
    RefsByParts(s, s', w, {});
  }

  lemma RefsTake(s: State, w: WorkerId, t: TaskId)
    requires Refs(s) && CanTake(s, w, t)
    ensures Refs(DoTake(s, w, t))
  {
    RefsByParts(s, DoTake(s, w, t), w, {t});
  }

  lemma RefsDropLast(s: State, w: WorkerId)
    requires Refs(s) && Counts(s) && CanDrop(s, w) && s.tasks[s.workers[w].t].deps == 1
    ensures Refs(DoDrop(s, w))
  {
    assert OnlyMoves(s, DoDrop(s, w), w, {s.workers[w].t}) by {
      assert WorkerOk(s, w);
      assert CountOk(s, s.workers[w].t);
      NothingCounted(s, s.workers[w].t);
    }
    assert WorkerOk(s, w);
    RefsByParts(s, DoDrop(s, w), w, {s.workers[w].t});
  }

  lemma RefsDropPark(s: State, w: WorkerId)
    requires Refs(s) && CanDrop(s, w) && s.tasks[s.workers[w].t].deps != 1
    ensures Refs(DoDrop(s, w))
  {
    RefsByParts(s, DoDrop(s, w), w, {s.workers[w].t});
  }

  lemma RefsDrop(s: State, w: WorkerId)
    requires Refs(s) && Counts(s) && CanDrop(s, w)
    ensures Refs(DoDrop(s, w))
  {
    if s.tasks[s.workers[w].t].deps == 1 { RefsDropLast(s, w); } else { RefsDropPark(s, w); }
  }

  lemma RefsRunOwn(s: State, w: WorkerId)
    requires Refs(s) && CanRunOwn(s, w)
    ensures Refs(DoRunOwn(s, w))
  {
    RefsByParts(s, DoRunOwn(s, w), w, {s.workers[w].t});
  }

  lemma RefsArm(s: State, w: WorkerId)
    requires Refs(s) && CanArm(s, w)
    ensures Refs(DoArm(s, w))
  {
    RefsByParts(s, DoArm(s, w), w, {s.workers[w].t});
  }

  lemma RefsRequeue(s: State, w: WorkerId)
    requires Refs(s) && Counts(s) && CanRequeue(s, w)
    ensures Refs(DoRequeue(s, w))
  {
    NothingCounted(s, s.workers[w].t);
    RefsByParts(s, DoRequeue(s, w), w, {s.workers[w].t});
  }

  lemma RefsRunArmed(s: State, w: WorkerId)
    requires Refs(s) && AtArmed(s, w)
    ensures Refs(DoRunArmed(s, w))
  {
    RefsByParts(s, DoRunArmed(s, w), w, {s.workers[w].t});
  }

  lemma RefsRetire(s: State, w: WorkerId)
    requires Refs(s) && Forest(s) && CanRetire(s, w)
    ensures Refs(DoRetire(s, w))
  {
    RefsByParts(s, DoRetire(s, w), w, {s.workers[w].t});
  }

  lemma RefsReport(s: State, w: WorkerId)
    requires Refs(s) && Counts(s) && CanReport(s, w)
    ensures Refs(DoReport(s, w))
  {
    if s.tasks[s.workers[w].p].deps == 1 { LastReporter(s, w, s.workers[w].p); }
    RefsByParts(s, DoReport(s, w), w, if s.tasks[s.workers[w].p].deps == 1 then {s.workers[w].p} else {});
  }

  lemma RefsSetContinuation(s: State, w: WorkerId)
    requires Refs(s) && AtUser(s, w)
    ensures Refs(DoSetContinuation(s, w))
  {
    RefsByParts(s, DoSetContinuation(s, w), w, {s.workers[w].t});
  }

  lemma RefsReturn(s: State, w: WorkerId)
    requires Refs(s) && AtUser(s, w)
    ensures Refs(DoReturn(s, w))
  {
    NoneAtTop(s, w);
    assert WorkerOk(s, w);
    if Over(s, w) {
      RefsAtTop(s, DoReturn(s, w), w, {}, []);
    } else {
      RefsLast(s, DoReturn(s, w), w);
    }
  }

  lemma RefsPublishDone(s: State, w: WorkerId)
    requires Refs(s) && AtPublish(s, w)
    ensures Refs(DoPublish(s, w))
  {
    NoneAtTop(s, w);
    assert WorkerOk(s, w);
    assert Over(s, w) ==> CallOk(Below(s, w), Top(s, w));
    RefsLast(s, DoPublish(s, w), w);
  }

  lemma RefsSplitCall(s: State, w: WorkerId)
    requires Refs(s) && CanSplitCall(s, w)
    ensures Refs(DoSplitCall(s, w))
  {
    NoneAtTop(s, w);
    RefsAtTop(s, DoSplitCall(s, w), w, {}, [User(|s.stages|)]);
  }

  lemma RefsSplitInline(s: State, w: WorkerId)
    requires Refs(s) && WantsSplit(s, w)
    ensures Refs(DoSplitInline(s, w))
  {
    NoneAtTop(s, w);
    RefsAtTop(s, DoSplitInline(s, w), w, {}, [Split(Top(s, w).lo, SplitPoint(s, w)), User(|s.stages|)]);
  }

  lemma RefsSplitNew(s: State, w: WorkerId, t: TaskId)
    requires Refs(s) && CanSplitNew(s, w, t)
    ensures Refs(DoSplitNew(s, w, t))
  {
    var s', fs := DoSplitNew(s, w, t), [Split(Top(s, w).lo, SplitPoint(s, w)), New];
    NoneAtTop(s, w);
    assert WorkerOk(s, w);
    var f' := s'.workers[w].frames;
    assert f'[TopIndex(s, w)] == fs[0] && f'[TopIndex(s, w) + 1] == fs[1];
    assert PlaceOk(s', t);
    RefsAtTop(s, s', w, {t}, fs);
  }

  lemma RefsSplitFree(s: State, w: WorkerId, t: TaskId)
    requires Refs(s) && CanSplitFree(s, w, t)
    ensures Refs(DoSplitFree(s, w, t))
  {
    RefsAtTop(s, DoSplitFree(s, w, t), w, {t}, [User(|s.stages|)]);
  }

  lemma RefsSpawnBegin(s: State, w: WorkerId)
    requires Refs(s) && AtUser(s, w)
    ensures Refs(DoSpawnBegin(s, w))
  {
    NoneAtTop(s, w);
    RefsAtTop(s, DoSpawnBegin(s, w), w, {}, [Top(s, w), New]);
  }

  lemma RefsSpawnNew(s: State, w: WorkerId, t: TaskId)
    requires Refs(s) && CanSpawnNew(s, w, t)
    ensures Refs(DoSpawnNew(s, w, t))
  {
    var s', d := DoSpawnNew(s, w, t), AtTop(s, w) + {t};
    assert s.workers[w] == WithTop(s, w, [New]);
    assert WorkerOk(s, w);
    SpawnNewMoves(s, w, t);
    forall c | c in d ensures PlaceOk(s', c) { SpawnNewPlace(s, w, t, c); }
    RefsAtTop(s, s', w, d, [New]);
  }

  lemma SpawnNewMoves(s: State, w: WorkerId, t: TaskId)
    requires CanSpawnNew(s, w, t)
    ensures OnlyMoves(s, DoSpawnNew(s, w, t), w, AtTop(s, w) + {t})
  {
  }

  lemma SpawnNewPlace(s: State, w: WorkerId, t: TaskId, c: TaskId)
    requires CanSpawnNew(s, w, t) && (c == t || (c in AtTop(s, w) && PlaceOk(s, c)))
    ensures PlaceOk(DoSpawnNew(s, w, t), c)
  {
    if c != t { assert DoSpawnNew(s, w, t).tasks[c] == s.tasks[c]; }
  }

  lemma RefsSpawnDirect(s: State, w: WorkerId)
    requires Refs(s) && AtSpawnEnd(s, w)
    ensures Refs(DoSpawnDirect(s, w))
  {
    RefsAtTop(s, DoSpawnDirect(s, w), w, {}, [User(|s.stages|)]);
  }

  lemma RefsSpawnEnd(s: State, w: WorkerId)
    requires Refs(s) && AtSpawnEnd(s, w)
    ensures Refs(DoSpawnEnd(s, w))
  {
    RefsAtTop(s, DoSpawnEnd(s, w), w, {}, []);
  }

  /** Moving a batch touches nothing else. */
  lemma BatchOnlyMoves(s: State, s': State, w: WorkerId, fs: seq<Frame>)
    requires IsRunning(s, w)
    requires s'.tasks.Keys == s.tasks.Keys && s'.workers == s.workers[w := WithTop(s, w, fs)] && s'.sub == s.sub
    requires forall t :: t in s.tasks && t !in AtTop(s, w) ==> SameRole(s'.tasks[t], s.tasks[t])
    ensures OnlyMoves(s, s', w, AtTop(s, w))
  {
  }

  lemma CountBatchPlaces(s: State, w: WorkerId)
    requires Refs(s) && CanCount(s, w)
    ensures CallOk(Below(s, w), Offer) && s.workers[w].t !in AtTop(s, w)
    ensures forall c :: c in AtTop(s, w) ==> PlaceOk(DoCount(s, w), c) && !s.tasks[c].place.Recycled?
  {
    assert WorkerOk(s, w);
    assert CallOk(Below(s, w), Top(s, w));
    forall c | c in AtTop(s, w) ensures PlaceOk(DoCount(s, w), c) && !s.tasks[c].place.Recycled? {
      ListedAtTop(s, w, c);
      BatchMoves(s, DoCount(s, w), w, c, Offer);
    }
  }

  lemma RefsCountBatch(s: State, w: WorkerId)
    requires Refs(s) && CanCount(s, w)
    ensures Refs(DoCount(s, w))
  {
    var s', d := DoCount(s, w), AtTop(s, w);
    CountBatchPlaces(s, w);
    BatchOnlyMoves(s, s', w, [Offer]);
    RefsAtTop(s, s', w, d, [Offer]);
  }

  lemma PushBatchPlaces(s: State, w: WorkerId, acc: set<TaskId>)
    requires Refs(s) && CanPush(s, w, acc)
    ensures (Below(s, w).User? || Below(s, w).Split?) && s.workers[w].t !in AtTop(s, w)
    ensures forall c :: c in AtTop(s, w) ==> PlaceOk(DoPush(s, w, acc), c) && !s.tasks[c].place.Recycled?
  {
    assert WorkerOk(s, w);
    assert CallOk(Below(s, w), Top(s, w));
    forall c | c in AtTop(s, w) ensures PlaceOk(DoPush(s, w, acc), c) && !s.tasks[c].place.Recycled? {
      ListedAtTop(s, w, c);
      if c !in acc { BatchMoves(s, DoPush(s, w, acc), w, c, Reject); }
    }
  }

  lemma RefsPushBatch(s: State, w: WorkerId, acc: set<TaskId>)
    requires Refs(s) && CanPush(s, w, acc)
    ensures Refs(DoPush(s, w, acc))
  {
    var s', d := DoPush(s, w, acc), AtTop(s, w);
    var fs := if acc != TopBatch(s, w) then [Reject] else if Below(s, w).Split? then [] else [New];
    PushBatchPlaces(s, w, acc);
    BatchOnlyMoves(s, s', w, fs);
    RefsAtTop(s, s', w, d, fs);
  }

  lemma RollbackPlaces(s: State, w: WorkerId)
    requires Refs(s) && CanRollback(s, w)
    ensures CallOk(Below(s, w), Inline) && s.workers[w].t !in AtTop(s, w)
    ensures forall c :: c in AtTop(s, w) ==> PlaceOk(DoRollback(s, w), c) && !s.tasks[c].place.Recycled?
  {
    assert WorkerOk(s, w);
    assert CallOk(Below(s, w), Top(s, w));
    forall c | c in AtTop(s, w) ensures PlaceOk(DoRollback(s, w), c) && !s.tasks[c].place.Recycled? {
      ListedAtTop(s, w, c);
      BatchMoves(s, DoRollback(s, w), w, c, Inline);
    }
  }

  lemma RefsRollback(s: State, w: WorkerId)
    requires Refs(s) && CanRollback(s, w)
    ensures Refs(DoRollback(s, w))
  {
    var s', d := DoRollback(s, w), AtTop(s, w);
    RollbackPlaces(s, w);
    BatchOnlyMoves(s, s', w, [Inline]);
    RefsAtTop(s, s', w, d, [Inline]);
  }

  lemma RefsRunRejected(s: State, w: WorkerId, t: TaskId)
    requires Refs(s) && CanRunRejected(s, w, t)
    ensures Refs(DoRunRejected(s, w, t))
  {
    var s', d := DoRunRejected(s, w, t), AtTop(s, w);
    var id := if s.tasks[t].fn.Code? then s.tasks[t].fn.id else 0;
    assert WorkerOk(s, w);
    forall c | c in d ensures PlaceOk(s', c) { RejectedPlaces(s, w, t, c); }
    RefsAtTop(s, s', w, d, [Recycle(t), User(id)]);
  }

  lemma RejectedPlaces(s: State, w: WorkerId, t: TaskId, c: TaskId)
    requires Refs(s) && CanRunRejected(s, w, t) && c in AtTop(s, w)
    ensures PlaceOk(DoRunRejected(s, w, t), c)
  {
    assert WorkerOk(s, w);
    ListedAtTop(s, w, c);
  }

  lemma RefsFreeRejected(s: State, w: WorkerId)
    requires Refs(s) && CanFreeRejected(s, w)
    ensures Refs(DoFreeRejected(s, w))
  {
    var s', d := DoFreeRejected(s, w), AtTop(s, w);
    assert RecycleOk(s, w, TopIndex(s, w));
    forall c | c in d ensures PlaceOk(s', c) {
      assert PlaceOk(s, c);
    }
    RefsAtTop(s, s', w, d, [Inline]);
  }

  /** What is left to check when only the submitting thread moves. */
  lemma RefsSubmit(s: State, s': State, d: set<TaskId>)
    requires Refs(s) && s'.workers == s.workers && s'.tasks.Keys == s.tasks.Keys
    requires forall t :: t in s.tasks && t !in d ==> SameRole(s'.tasks[t], s.tasks[t])
    requires forall t :: t in d ==> t in s.tasks && (s.tasks[t].place.Free? || s.tasks[t].place.Submitting?)
    requires forall t :: t in d ==> PlaceOk(s', t)
    requires SubTasks(s.sub) <= SubTasks(s'.sub) + d
    requires SubOk(s')
    ensures Refs(s')
  {
    forall w | w in s'.workers ensures WorkerOk(s', w) {
      assert WorkerOk(s, w);
    }
    forall t | t in s'.tasks ensures PlaceOk(s', t) {
      if t !in d {
        assert PlaceOk(s, t);
        match s.tasks[t].place
        case Fresh(w, k) => assert FrameAt(s', w, k) == FrameAt(s, w, k);
        case Offered(w, k) => assert FrameAt(s', w, k) == FrameAt(s, w, k);
        case Recycled(w, k) => assert FrameAt(s', w, k) == FrameAt(s, w, k);
        case _ =>
      }
    }
    forall w, k: nat | FrameAt(s', w, k).Some? ensures RecycleOk(s', w, k) {
      assert FrameAt(s, w, k) == FrameAt(s', w, k);
      assert RecycleOk(s, w, k);
    }
  }

  lemma RefsSubmitRoot(s: State, r: TaskId, n: nat, chunk: nat)
    requires Refs(s) && CanSubmitRoot(s, r)
    ensures Refs(DoSubmitRoot(s, r, n, chunk))
  {
    RefsSubmit(s, DoSubmitRoot(s, r, n, chunk), {r});
  }

  lemma RefsSubmitChild(s: State, c: TaskId)
    requires Refs(s) && CanSubmitChild(s, c)
    ensures Refs(DoSubmitChild(s, c))
  {
    RefsSubmit(s, DoSubmitChild(s, c), {c});
  }

  lemma RefsDropRoot(s: State)
    requires Refs(s) && CanDropRoot(s)
    ensures Refs(DoDropRoot(s))
  {
    RefsSubmit(s, DoDropRoot(s), {s.sub.r});
  }

  lemma RefsDropChild(s: State)
    requires Refs(s) && CanDropChild(s)
    ensures Refs(DoDropChild(s))
  {
    RefsSubmit(s, DoDropChild(s), {s.sub.c});
  }

  lemma RefsSubmitPush(s: State, j: JobId)
    requires Refs(s) && Forest(s) && CanSubmitPush(s, j) && SubmitOk(s)
    ensures Refs(DoSubmitPush(s, j))
  {
    RefsSubmit(s, DoSubmitPush(s, j), {s.sub.r, s.sub.c});
  }

  lemma LoopRefs(s: State, w: WorkerId, l: LoopEvent)
    requires Refs(s) && Counts(s) && Forest(s) && SubmitOk(s) && LoopEnabled(s, w, l)
    ensures Refs(LoopApply(s, w, l))
  {
    match l
    case Take(t) => RefsTake(s, w, t);
    case Drop => RefsDrop(s, w);
    case RunOwn => RefsRunOwn(s, w);
    case Arm => RefsArm(s, w);
    case Requeue => RefsRequeue(s, w);
    case RunArmed => RefsRunArmed(s, w);
    case Retire => RefsRetire(s, w);
    case Report => RefsReport(s, w);
  }

  lemma StackRefs(s: State, w: WorkerId, f: StackEvent)
    requires Refs(s) && Counts(s) && Forest(s) && SubmitOk(s) && StackEnabled(s, w, f)
    ensures Refs(StackApply(s, w, f))
  {
    match f
    case SetContinuation => RefsSetContinuation(s, w);
    case Return => RefsReturn(s, w);
    case PublishDone => RefsPublishDone(s, w);
    case SplitCall => RefsSplitCall(s, w);
    case SplitInline => RefsSplitInline(s, w);
    case SplitNew(r) => RefsSplitNew(s, w, r);
    case SplitFree(r) => RefsSplitFree(s, w, r);
    case SpawnBegin => RefsSpawnBegin(s, w);
    case SpawnNew(r) => RefsSpawnNew(s, w, r);
    case SpawnDirect => RefsSpawnDirect(s, w);
    case SpawnEnd => RefsSpawnEnd(s, w);
    case CountBatch => RefsCountBatch(s, w);
    case PushBatch(acc) => RefsPushBatch(s, w, acc);
    case Rollback => RefsRollback(s, w);
    case RunRejected(r) => RefsRunRejected(s, w, r);
    case FreeRejected => RefsFreeRejected(s, w);
  }

  lemma SubmitRefs(s: State, m: SubmitEvent)
    requires Refs(s) && Counts(s) && Forest(s) && SubmitOk(s) && SubmitEnabled(s, m)
    ensures Refs(SubmitApply(s, m))
  {
    match m
    case SubmitRoot(r, n, chunk) => RefsSubmitRoot(s, r, n, chunk);
    case SubmitChild(c) => RefsSubmitChild(s, c);
    case DropRoot => RefsDropRoot(s);
    case DropChild => RefsDropChild(s);
    case SubmitPush(j) => RefsSubmitPush(s, j);
  }

  lemma StepRefs(s: State, e: Event)
    requires Refs(s) && Counts(s) && Forest(s) && SubmitOk(s) && Enabled(s, e)
    ensures Refs(Apply(s, e))
  {
    match e
    case Loop(w, l) => LoopRefs(s, w, l);
    case Stack(w, f) => StackRefs(s, w, f);
    case Submit(m) => SubmitRefs(s, m);
  }
}
