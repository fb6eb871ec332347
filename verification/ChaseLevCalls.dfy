/**
 The deque operations as whole calls: the object with its circular buffer, each call proved to
 do what the owner's (or a thief's) steps of ChaseLev do when nobody interferes, and what that is.
 */
module ChaseLevCalls {
  import opened Basics
  import opened ChaseLev
  import PowerOfTwo

  // ---------------------------------------------------------------- running a call to its end

  /** How many steps the owner's call still has to go. */
  function OwnerRank(d: Deque): nat {
    match d.owner
    case Resting => 0
    case PushLoad(_) => 4
    case PushCheck(_, _) => 3
    case PushStore(_, _) => 2
    case PushPublish(_, _) => 1
    case BatchLoad(tasks) => |tasks| + 3
    case BatchCheck(tasks, _) => |tasks| + 2
    case BatchStore(tasks, _, n, i) => if i < |tasks| then 1 + |tasks| - i else 1
    case PopLoad => 7
    case PopCheck(_) => 6
    case PopLower(_) => 5
    case PopReload(_) => 4
    case PopRead(_, _) => 3
    case PopRace(_, _) => 2
    case PopRaise(_, _) => 1
    case PopRestore(_) => 1
  }

  /** The owner's call, with no other thread moving. */
  function RunOwner(d: Deque): (r: Deque)
    requires |d.buffer| == d.cap
    ensures |r.buffer| == r.cap && r.cap == d.cap && r.owner.Resting? && r.top >= d.top
    decreases OwnerRank(d)
  {
    if d.owner.Resting? then d else RunOwner(StepOwner(d))
  }

  function ThiefRank(p: ThiefPc): nat {
    match p
    case Away => 0
    case StealTop => 4
    case StealBottom(_) => 3
    case StealRead(_) => 2
    case StealRace(_, _) => 1
  }

  function RunThief(d: Deque, i: nat): (r: Deque)
    requires i in d.thieves && |d.buffer| == d.cap
    ensures |r.buffer| == r.cap && r.cap == d.cap && i in r.thieves && r.thieves[i].Away?
    decreases ThiefRank(d.thieves[i])
  {
    if d.thieves[i].Away? then d else RunThief(StepThief(d, i), i)
  }

  /** A deque between calls. */
  ghost predicate AtRest(d: Deque) {
    Inv(d) && d.owner.Resting?
  }

  /** The buffer after the tasks ts were stored from index b on. */
  function Filled(buffer: seq<TaskRef>, cap: pos, b: int, ts: seq<TaskRef>): (r: seq<TaskRef>)
    requires |buffer| == cap
    ensures |r| == cap
    decreases |ts|
  {
    if ts == [] then buffer else Filled(buffer[Slot(cap, b) := ts[0]], cap, b + 1, ts[1..])
  }

  // ---------------------------------------------------------------- what the calls do

  function PushCall(d: Deque, task: TaskRef): Deque
    requires |d.buffer| == d.cap && d.owner.Resting?
  {
    RunOwner(Apply(d, CallPush(task)))
  }

  function BatchCall(d: Deque, tasks: seq<TaskRef>): Deque
    requires |d.buffer| == d.cap && d.owner.Resting?
  {
    RunOwner(Apply(d, CallBatch(tasks)))
  }

  function PopCall(d: Deque): Deque
    requires |d.buffer| == d.cap && d.owner.Resting?
  {
    RunOwner(Apply(d, CallPop))
  }

  /** Equal but for the stale copy of top. */
  predicate SameButCache(d: Deque, e: Deque) {
    d.(topCache := 0) == e.(topCache := 0)
  }

  /** The first two steps of a push, up to the decision. */
  lemma PushStarts(d: Deque, task: TaskRef)
    requires |d.buffer| == d.cap && d.owner.Resting?
    ensures PushCall(d, task) == RunOwner(StepOwner(d.(owner := PushCheck(task, d.bottom))))
  {
    var d0 := Apply(d, CallPush(task));
    var d1 := StepOwner(d0);
    assert RunOwner(d0) == RunOwner(d1) == RunOwner(StepOwner(d1));
  }

  lemma PushEnds(d: Deque, task: TaskRef, b: int)
    requires |d.buffer| == d.cap && d.owner == PushStore(task, b)
    ensures RunOwner(d) == d.(buffer := d.buffer[Slot(d.cap, b) := task], bottom := b + 1, owner := Resting)
  {
    var d1 := StepOwner(d);
    var d2 := StepOwner(d1);
    assert RunOwner(d) == RunOwner(d1) == RunOwner(d2) == d2;
  }

  lemma BatchStarts(d: Deque, tasks: seq<TaskRef>)
    requires |d.buffer| == d.cap && d.owner.Resting? && tasks != []
    ensures BatchCall(d, tasks) == RunOwner(StepOwner(d.(owner := BatchCheck(tasks, d.bottom))))
  {
    var d0 := Apply(d, CallBatch(tasks));
    var d1 := StepOwner(d0);
    assert RunOwner(d0) == RunOwner(d1) == RunOwner(StepOwner(d1));
  }

  lemma PushCallIs(d: Deque, task: TaskRef)
    requires AtRest(d)
    ensures SameButCache(PushCall(d, task),
              if d.bottom - d.top < d.cap
              then d.(buffer := d.buffer[Slot(d.cap, d.bottom) := task], bottom := d.bottom + 1) else d)
  {
    PushStarts(d, task);
    var d2 := StepOwner(d.(owner := PushCheck(task, d.bottom)));
    if !d2.owner.Resting? {
      PushEnds(d2, task, d.bottom);
    }
  }

  function Min(a: int, b: int): int {
    if a < b then a else b
  }

  /** How many of the tasks a batch gets in. */
  function Accepted(d: Deque, tasks: seq<TaskRef>): nat
    requires d.bottom - d.top <= d.cap
  {
    Min(|tasks|, d.cap - (d.bottom - d.top))
  }

  lemma {:induction false} RunBatchStore(d: Deque)
    requires |d.buffer| == d.cap && d.owner.BatchStore? && d.owner.i <= d.owner.n <= |d.owner.tasks|
    ensures RunOwner(d) == d.(owner := Resting, bottom := d.owner.b + d.owner.n,
              buffer := Filled(d.buffer, d.cap, d.owner.b + d.owner.i, d.owner.tasks[d.owner.i..d.owner.n]))
    decreases d.owner.n - d.owner.i
  {
    var d1 := StepOwner(d);
    if d.owner.i < d.owner.n {
      RunBatchStore(d1);
      assert d.owner.tasks[d.owner.i..d.owner.n][1..] == d.owner.tasks[d.owner.i + 1..d.owner.n];
    }
  }

  /** The whole state that a batch leaves, its look at top included. */
  lemma BatchState(d: Deque, tasks: seq<TaskRef>)
    requires AtRest(d)
    ensures d.bottom - d.top <= d.cap
    ensures var n := Accepted(d, tasks);
            BatchCall(d, tasks) ==
              d.(topCache := if d.cap - (d.bottom - d.topCache) < |tasks| then d.top else d.topCache,
                 buffer := Filled(d.buffer, d.cap, d.bottom, tasks[..n]), bottom := d.bottom + n)
  {
    TopOnlyGrows(d, CallPop);
    if tasks != [] {
      BatchStarts(d, tasks);
      var d2 := StepOwner(d.(owner := BatchCheck(tasks, d.bottom)));
      if d2.owner.BatchStore? {
        RunBatchStore(d2);
        assert d2.owner.n == Accepted(d, tasks);
        assert tasks[0..d2.owner.n] == tasks[..d2.owner.n];
      }
    }
  }

  lemma BatchCallIs(d: Deque, tasks: seq<TaskRef>)
    requires AtRest(d)
    ensures d.bottom - d.top <= d.cap
    ensures var n := Accepted(d, tasks);
            SameButCache(BatchCall(d, tasks),
              d.(buffer := Filled(d.buffer, d.cap, d.bottom, tasks[..n]), bottom := d.bottom + n))
  {
    BatchState(d, tasks);
  }

  // ---------------------------------------------------------------- a batch is that many pushes

  /** Pushing the tasks one by one, whatever each push answers. */
  function PushEach(d: Deque, tasks: seq<TaskRef>): Deque
    requires |d.buffer| == d.cap && d.owner.Resting?
    decreases |tasks|
  {
    if tasks == [] then d else PushEach(PushCall(d, tasks[0]), tasks[1..])
  }

  lemma RunsOn(d: Deque)
    requires |d.buffer| == d.cap && !d.owner.Resting?
    ensures RunOwner(d) == RunOwner(StepOwner(d))
  {
  }

  lemma RankFalls(d: Deque)
    requires |d.buffer| == d.cap && !d.owner.Resting?
    ensures OwnerRank(StepOwner(d)) < OwnerRank(d)
  {
  }

  lemma NextInv(d: Deque) returns (e: Deque)
    requires Inv(d) && !d.owner.Resting?
    ensures Inv(e) && RunOwner(d) == RunOwner(e) && OwnerRank(e) < OwnerRank(d)
  {
    StepInv(d, OwnerStep);
    RunsOn(d);
    RankFalls(d);
    e := StepOwner(d);
  }

  lemma {:induction false} RunOwnerInv(d: Deque)
    requires Inv(d)
    ensures AtRest(RunOwner(d))
    decreases OwnerRank(d)
  {
    if !d.owner.Resting? {
      var e := NextInv(d);
      RunOwnerInv(e);
    }
  }

  lemma CallsRest(d: Deque, a: Action)
    requires AtRest(d) && (a.CallPush? || a.CallBatch? || a.CallPop?)
    ensures AtRest(RunOwner(Apply(d, a)))
  {
    StepInv(d, a);
    RunOwnerInv(Apply(d, a));
  }

  lemma {:induction false} PushEachIs(d: Deque, tasks: seq<TaskRef>)
    requires AtRest(d)
    ensures d.bottom - d.top <= d.cap
    ensures var n := Accepted(d, tasks);
            SameButCache(PushEach(d, tasks),
              d.(buffer := Filled(d.buffer, d.cap, d.bottom, tasks[..n]), bottom := d.bottom + n))
    decreases |tasks|
  {
    TopOnlyGrows(d, CallPop);
    if tasks != [] {
      var n, d' := Accepted(d, tasks), PushCall(d, tasks[0]);
      PushCallIs(d, tasks[0]);
      CallsRest(d, CallPush(tasks[0]));
      PushEachIs(d', tasks[1..]);
      if n > 0 {
        assert Accepted(d', tasks[1..]) == n - 1;
        assert tasks[..n][1..] == tasks[1..][..n - 1];
      } else {
        assert Accepted(d', tasks[1..]) == 0;
        assert tasks[1..][..0] == [] == tasks[..0];
      }
    }
  }

  /** push_batch leaves the very buffer, top and bottom that single pushes of the same tasks leave. */
  lemma BatchRefinesPushes(d: Deque, tasks: seq<TaskRef>)
    requires AtRest(d)
    ensures SameButCache(BatchCall(d, tasks), PushEach(d, tasks))
  {
    BatchCallIs(d, tasks);
    PushEachIs(d, tasks);
  }

  /** Filling free slots from bottom on appends to the window. */
  lemma {:induction false} FilledWindow(d: Deque, e: Deque, ts: seq<TaskRef>)
    requires |d.buffer| == d.cap && d.owner.Resting? && d.top <= d.bottom && d.bottom - d.top + |ts| <= d.cap
    requires e == d.(buffer := Filled(d.buffer, d.cap, d.bottom, ts), bottom := d.bottom + |ts|)
    ensures Window(e) == Window(d) + ts
    decreases |ts|
  {
    if ts == [] {
      assert e == d;
    } else {
      var d' := d.(buffer := d.buffer[Slot(d.cap, d.bottom) := ts[0]], bottom := d.bottom + 1);
      forall k | 0 <= k < |Window(d)| ensures Window(d')[k] == Window(d)[k] {
        SlotsDiffer(d.cap, d.top + k, d.bottom);
      }
      assert Window(d') == Window(d) + [ts[0]];
      FilledWindow(d', e, ts[1..]);
      assert Window(d) + ts == (Window(d) + [ts[0]]) + ts[1..];
    }
  }

  lemma CacheIsUnseen(d: Deque, e: Deque)
    requires SameButCache(d, e) && |d.buffer| == d.cap
    ensures Window(d) == Window(e) && d.top == e.top && d.bottom == e.bottom && d.cap == e.cap && d.buffer == e.buffer
    ensures d.owner == e.owner && d.thieves == e.thieves
  {
    assert e.(topCache := 0).top == d.top && e.(topCache := 0).buffer == d.buffer && e.(topCache := 0).cap == d.cap;
    assert e.(topCache := 0).bottom == d.bottom && e.(topCache := 0).owner == d.owner && e.(topCache := 0).thieves == d.thieves;
    WindowKept(d, e);
  }

  /** The batch queues exactly the first min(count, free room) tasks, in order. */
  lemma BatchAppends(d: Deque, tasks: seq<TaskRef>)
    requires AtRest(d)
    ensures |Window(d)| <= d.cap
    ensures Window(BatchCall(d, tasks)) == Window(d) + tasks[..Min(|tasks|, d.cap - |Window(d)|)]
    ensures BatchCall(d, tasks).bottom == d.bottom + Min(|tasks|, d.cap - |Window(d)|)
  {
    BatchCallIs(d, tasks);
    var n := Accepted(d, tasks);
    var e := d.(buffer := Filled(d.buffer, d.cap, d.bottom, tasks[..n]), bottom := d.bottom + n);
    FilledWindow(d, e, tasks[..n]);
    CacheIsUnseen(BatchCall(d, tasks), e);
  }

  lemma PushAppends(d: Deque, task: TaskRef)
    requires AtRest(d)
    ensures Window(PushCall(d, task)) == if |Window(d)| < d.cap then Window(d) + [task] else Window(d)
    ensures PushCall(d, task).bottom == if |Window(d)| < d.cap then d.bottom + 1 else d.bottom
  {
    PushCallIs(d, task);
    if |Window(d)| < d.cap {
      var e := d.(buffer := d.buffer[Slot(d.cap, d.bottom) := task], bottom := d.bottom + 1);
      assert Filled(d.buffer, d.cap, d.bottom, [task]) == e.buffer;
      FilledWindow(d, e, [task]);
      CacheIsUnseen(PushCall(d, task), e);
    } else {
      CacheIsUnseen(PushCall(d, task), d);
    }
  }

  /** A pop without thieves takes the newest task. */
  lemma PopTakesLast(d: Deque)
    requires AtRest(d)
    ensures Window(PopCall(d)) == if Window(d) == [] then [] else Window(d)[..|Window(d)| - 1]
    ensures Window(d) != [] ==> Window(d)[|Window(d)| - 1] == d.buffer[Slot(d.cap, d.bottom - 1)]
    ensures PopCall(d).buffer == d.buffer && PopCall(d).topCache == d.topCache
    ensures PopCall(d).top == if |Window(d)| == 1 then d.top + 1 else d.top
    ensures PopCall(d).bottom == if |Window(d)| <= 1 then d.bottom else d.bottom - 1
  {
    PopState(d);
  }

  /** The whole state that a pop leaves when no thief interferes. */
  lemma PopState(d: Deque)
    requires AtRest(d)
    ensures PopCall(d) ==
              if d.bottom <= d.top then d
              else if d.bottom == d.top + 1 then d.(top := d.top + 1)
              else d.(bottom := d.bottom - 1)
  {
    var d0 := d.(owner := PopLoad);
    RunsOn(d0);
    RunsOn(StepOwner(d0));
    if d.top < d.bottom { PopLowered(d); }
  }

  lemma PopLowered(d: Deque)
    requires |d.buffer| == d.cap && d.top < d.bottom && d.owner.Resting?
    ensures RunOwner(d.(owner := PopLower(d.bottom - 1))) ==
              if d.bottom == d.top + 1 then d.(top := d.top + 1) else d.(bottom := d.bottom - 1)
  {
    var d2 := d.(owner := PopLower(d.bottom - 1));
    RunsOn(d2);
    var d3 := d.(bottom := d.bottom - 1, owner := PopReload(d.bottom - 1));
    RunsOn(d3);
    var d4 := d.(bottom := d.bottom - 1, owner := PopRead(d.bottom - 1, d.top));
    RunsOn(d4);
    if d.bottom == d.top + 1 {
      var d5 := d.(bottom := d.top, owner := PopRace(d.top, d.buffer[Slot(d.cap, d.top)]));
      RunsOn(d5);
      RunsOn(StepOwner(d5));
    }
  }

  /** A steal with nobody else moving takes the oldest task. */
  lemma StealTakesFirst(d: Deque, i: nat)
    requires AtRest(d) && Enabled(d, CallSteal(i))
    ensures var e := RunThief(Apply(d, CallSteal(i)), i);
            && Window(e) == (if Window(d) == [] then [] else Window(d)[1..])
            && e.buffer == d.buffer && e.bottom == d.bottom && e.topCache == d.topCache
            && e.top == (if Window(d) == [] then d.top else d.top + 1)
    ensures Window(d) != [] ==> Window(d)[0] == d.buffer[Slot(d.cap, d.top)]
  {
    var d0 := Apply(d, CallSteal(i));
    var d1 := StepThief(d0, i);
    var d2 := StepThief(d1, i);
    if !d2.thieves[i].Away? {
      var d3 := StepThief(d2, i);
      var d4 := StepThief(d3, i);
      assert RunThief(d2, i) == RunThief(d3, i) == RunThief(d4, i) == d4;
    }
    assert RunThief(d0, i) == RunThief(d1, i) == RunThief(d2, i);
  }

  lemma StealShrinks(d: Deque)
    requires AtRest(d) && d.thieves == map[]
    ensures d.top < d.bottom ==> AtRest(d.(top := d.top + 1)) && Window(d.(top := d.top + 1)) == Window(d)[1..]
  {
    if d.top < d.bottom {
      TopRaised(d, d.(top := d.top + 1));
      WindowShifted(d, d.(top := d.top + 1));
    }
  }

  lemma {:induction false} FilledSnoc(buffer: seq<TaskRef>, cap: pos, b: int, ts: seq<TaskRef>, t: TaskRef)
    requires |buffer| == cap
    ensures Filled(buffer, cap, b, ts + [t]) == Filled(buffer, cap, b, ts)[Slot(cap, b + |ts|) := t]
    decreases |ts|
  {
    if ts == [] {
      assert ts + [t] == [t] && Filled(buffer[Slot(cap, b) := t], cap, b + 1, []) == buffer[Slot(cap, b) := t];
    } else {
      FilledSnoc(buffer[Slot(cap, b) := ts[0]], cap, b + 1, ts[1..], t);
      assert (ts + [t])[1..] == ts[1..] + [t];
    }
  }

  /** All that a batch call owes its caller. */
  lemma BatchRests(d: Deque, tasks: seq<TaskRef>)
    requires AtRest(d)
    ensures |Window(d)| <= d.cap && |Window(d)| == d.bottom - d.top
    ensures var n := Min(|tasks|, d.cap - |Window(d)|);
            && AtRest(BatchCall(d, tasks))
            && BatchCall(d, tasks) ==
                 d.(topCache := if d.cap - (d.bottom - d.topCache) < |tasks| then d.top else d.topCache,
                    buffer := Filled(d.buffer, d.cap, d.bottom, tasks[..n]), bottom := d.bottom + n)
            && Window(BatchCall(d, tasks)) == Window(d) + tasks[..n]
  {
    CallsRest(d, CallBatch(tasks));
    BatchState(d, tasks);
    BatchAppends(d, tasks);
  }

  // ---------------------------------------------------------------- the object

  class ClDeque {
    var top: int
    var bottom: int
    var topCache: int
    const cap: pos                     // capacity_mask + 1
    const buffer: array<TaskRef>

    /** The deque between calls, as a state of the step model. */
    function Snapshot(): Deque
      reads this, buffer
    {
      Deque(cap, top, bottom, topCache, buffer[..], Resting, map[])
    }

    ghost predicate Valid()
      reads this, buffer
    {
      buffer.Length == cap && AtRest(Snapshot())
    }

    function Contents(): seq<TaskRef>
      requires buffer.Length == cap
      reads this, buffer
    {
      Window(Snapshot())
    }

    /** chase_lev_init: the capacity is the requested size rounded up to a power of two. */
    constructor (size: nat)
      ensures Valid() && fresh(buffer) && Contents() == []
      ensures cap == PowerOfTwo.LeastPow2(size)
    {
      PowerOfTwo.LeastPow2IsLeast(size);
      var n: pos := PowerOfTwo.LeastPow2(size);
      cap := n;
      top, bottom, topCache := 0, 0, 0;
      buffer := new TaskRef[n](_ => 0);
    }

    /** chase_lev_push */
    method Push(task: TaskRef) returns (ok: bool)
      requires Valid()
      modifies this`bottom, this`topCache, buffer
      ensures Valid() && Snapshot() == PushCall(old(Snapshot()), task)
      ensures ok <==> |old(Contents())| < cap
      ensures Contents() == if ok then old(Contents()) + [task] else old(Contents())
    {
      ghost var d := Snapshot();
      ghost var d2 := StepOwner(d.(owner := PushCheck(task, d.bottom)));
      CallsRest(d, CallPush(task));
      PushAppends(d, task);
      PushStarts(d, task);
      if d2.owner.PushStore? { PushEnds(d2, task, d.bottom); }
      var b := bottom;
      if b - topCache >= cap {
        topCache := top;
        if b - topCache >= cap {
          return false;
        }
      }
      buffer[Slot(cap, b)] := task;
      bottom := b + 1;
      ok := true;
    }

    /** chase_lev_push_batch */
    method PushBatch(tasks: seq<TaskRef>) returns (n: nat)
      requires Valid()
      modifies this`bottom, this`topCache, buffer
      ensures Valid() && Snapshot() == BatchCall(old(Snapshot()), tasks)
      ensures |old(Contents())| <= cap && n == Min(|tasks|, cap - |old(Contents())|)
      ensures Contents() == old(Contents()) + tasks[..n]
    {
      ghost var d := Snapshot();
      BatchRests(d, tasks);
      if |tasks| == 0 {
        return 0;
      }
      var b := bottom;
      var available := cap - (b - topCache);
      if available < |tasks| {
        topCache := top;
        available := cap - (b - topCache);
        if available <= 0 {
          return 0;
        }
      }
      n := if available < |tasks| then available else |tasks|;
      var i := 0;
      while i < n
        invariant 0 <= i <= n <= |tasks|
        invariant bottom == b && topCache == (if cap - (b - d.topCache) < |tasks| then top else d.topCache)
        invariant buffer[..] == Filled(d.buffer, cap, b, tasks[..i])
      {
        FilledSnoc(d.buffer, cap, b, tasks[..i], tasks[i]);
        assert tasks[..i] + [tasks[i]] == tasks[..i + 1];
        buffer[Slot(cap, b + i)] := tasks[i];
        i := i + 1;
      }
      bottom := b + n;
    }

    /** chase_lev_pop, with no thief at work. */
    method Pop() returns (task: Option<TaskRef>)
      requires Valid()
      modifies this`top, this`bottom
      ensures Valid() && Snapshot() == PopCall(old(Snapshot()))
      ensures task == if old(Contents()) == [] then None else Some(old(Contents())[|old(Contents())| - 1])
      ensures Contents() == if old(Contents()) == [] then [] else old(Contents())[..|old(Contents())| - 1]
    {
      ghost var d := Snapshot();
      CallsRest(d, CallPop);
      PopTakesLast(d);
      PopState(d);
      var b, t := bottom, top;
      if b <= t {
        return None;
      }
      b := b - 1;
      bottom := b;
      t := top;
      if b - t < 0 {
        assert false;   // only a thief could have raised top: PopRestore in ChaseLev
      }
      var found := buffer[Slot(cap, b)];
      if b - t > 0 {
        return Some(found);
      }
      // the compare-and-swap on top: nobody else has moved it
      var won := top == t;
      if won {
        top := t + 1;
      }
      task := if won then Some(found) else None;
      bottom := t + 1;
    }

    /** chase_lev_steal, with nobody else at work. */
    method Steal() returns (task: Option<TaskRef>)
      requires Valid()
      modifies this`top
      ensures Valid()
      ensures task == if old(Contents()) == [] then None else Some(old(Contents())[0])
      ensures Contents() == if old(Contents()) == [] then [] else old(Contents())[1..]
    {
      ghost var d := Snapshot();
      StealTakesFirst(d, 0);
      StealShrinks(d);
      var t := top;
      var b := bottom;
      if b <= t {
        return None;
      }
      var found := buffer[Slot(cap, t)];
      if top != t {
        return None;
      }
      top := t + 1;
      task := Some(found);
      assert Snapshot() == d.(top := d.top + 1);
    }
  }
}
