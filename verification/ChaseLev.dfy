/**
 The bounded work-stealing deque (include/sk_cl_deque.h): one owner pushes and pops at the
 bottom, any number of thieves steal at the top.

 Every load, store and compare-and-swap on shared data is one step. Indices are unbounded; the
 slot of index i is i modulo the capacity (PowerOfTwo shows that this is what the mask computes).
 */
module ChaseLev {
  import opened Basics

  type TaskRef = nat

  /** Where the owner is in its current call; the values are its local variables. */
  datatype OwnerPc =
    | Resting
    | PushLoad(task: TaskRef)                                    // about to load bottom
    | PushCheck(task: TaskRef, b: int)                           // about to compare with top_cache
    | PushStore(task: TaskRef, b: int)                           // about to fill the slot
    | PushPublish(task: TaskRef, b: int)                         // about to store bottom
    | BatchLoad(tasks: seq<TaskRef>)
    | BatchCheck(tasks: seq<TaskRef>, b: int)
    | BatchStore(tasks: seq<TaskRef>, b: int, n: nat, i: nat)    // i of n slots filled
    | PopLoad
    | PopCheck(b: int)                                           // about to load top
    | PopLower(b: int)                                           // b is decremented, about to store bottom
    | PopReload(b: int)                                          // about to load top again
    | PopRead(b: int, t: int)                                    // about to read the slot
    | PopRace(t: int, task: TaskRef)                             // about to CAS top for the last task
    | PopRaise(t: int, won: Option<TaskRef>)                     // about to store bottom = t + 1
    | PopRestore(t: int)                                         // about to store bottom = t

  datatype ThiefPc =
    | Away
    | StealTop
    | StealBottom(t: int)
    | StealRead(t: int)
    | StealRace(t: int, task: TaskRef)

  datatype Deque = Deque(
    cap: pos,
    top: int, bottom: int, topCache: int,
    buffer: seq<TaskRef>,
    owner: OwnerPc,
    thieves: map<nat, ThiefPc>
  )

  datatype Action =
    | CallPush(task: TaskRef)
    | CallBatch(tasks: seq<TaskRef>)
    | CallPop
    | CallSteal(i: nat)
    | OwnerStep
    | ThiefStep(i: nat)

  predicate Enabled(d: Deque, a: Action) {
    match a
    case CallPush(_) => d.owner.Resting?
    case CallBatch(_) => d.owner.Resting?
    case CallPop => d.owner.Resting?
    case CallSteal(i) => i !in d.thieves || d.thieves[i].Away?
    case OwnerStep => !d.owner.Resting? && |d.buffer| == d.cap
    case ThiefStep(i) => i in d.thieves && !d.thieves[i].Away? && |d.buffer| == d.cap
  }

  function Apply(d: Deque, a: Action): Deque
    requires Enabled(d, a)
  {
    match a
    case CallPush(task) => d.(owner := PushLoad(task))
    case CallBatch(tasks) => if tasks == [] then d else d.(owner := BatchLoad(tasks))
    case CallPop => d.(owner := PopLoad)
    case CallSteal(i) => d.(thieves := d.thieves[i := StealTop])
    case OwnerStep => StepOwner(d)
    case ThiefStep(i) => StepThief(d, i)
  }

  /** chase_lev_push, chase_lev_push_batch and chase_lev_pop, one access at a time. */
  function StepOwner(d: Deque): Deque
    requires |d.buffer| == d.cap
  {
    match d.owner
    case Resting => d
    case PushLoad(task) => d.(owner := PushCheck(task, d.bottom))
    case PushCheck(task, b) =>
      if b - d.topCache < d.cap then d.(owner := PushStore(task, b))
      else d.(topCache := d.top, owner := if b - d.top >= d.cap then Resting else PushStore(task, b))
    case PushStore(task, b) => d.(buffer := d.buffer[Slot(d.cap, b) := task], owner := PushPublish(task, b))
    case PushPublish(task, b) => d.(bottom := b + 1, owner := Resting)
    case BatchLoad(tasks) => d.(owner := BatchCheck(tasks, d.bottom))
    case BatchCheck(tasks, b) =>
      if d.cap - (b - d.topCache) >= |tasks| then d.(owner := BatchStore(tasks, b, |tasks|, 0))
      else
        var available := d.cap - (b - d.top);
        d.(topCache := d.top,
           owner := if available <= 0 then Resting
                    else BatchStore(tasks, b, if available < |tasks| then available else |tasks|, 0))
    case BatchStore(tasks, b, n, i) =>
      if i < n && i < |tasks|
      then d.(buffer := d.buffer[Slot(d.cap, b + i) := tasks[i]], owner := BatchStore(tasks, b, n, i + 1))
      else d.(bottom := b + n, owner := Resting)
    case PopLoad => d.(owner := PopCheck(d.bottom))
    case PopCheck(b) => d.(owner := if b <= d.top then Resting else PopLower(b - 1))
    case PopLower(b) => d.(bottom := b, owner := PopReload(b))
    case PopReload(b) => d.(owner := if b - d.top < 0 then PopRestore(d.top) else PopRead(b, d.top))
    case PopRead(b, t) =>
      d.(owner := if b - t > 0 then Resting else PopRace(t, d.buffer[Slot(d.cap, b)]))
    case PopRace(t, task) =>
      if d.top == t then d.(top := t + 1, owner := PopRaise(t, Some(task)))
      else d.(owner := PopRaise(t, None))
    case PopRaise(t, _) => d.(bottom := t + 1, owner := Resting)
    case PopRestore(t) => d.(bottom := t, owner := Resting)
  }

  /** chase_lev_steal, one access at a time. */
  function StepThief(d: Deque, i: nat): Deque
    requires i in d.thieves && |d.buffer| == d.cap
  {
    match d.thieves[i]
    case Away => d
    case StealTop => d.(thieves := d.thieves[i := StealBottom(d.top)])
    case StealBottom(t) => d.(thieves := d.thieves[i := if d.bottom <= t then Away else StealRead(t)])
    case StealRead(t) => d.(thieves := d.thieves[i := StealRace(t, d.buffer[Slot(d.cap, t)])])
    case StealRace(t, task) =>
      var d' := d.(thieves := d.thieves[i := Away]);
      if d.top == t then d'.(top := t + 1) else d'
  }

  // ---------------------------------------------------------------- what goes in and what comes out

  /** The tasks that the step makes available: all at once, at the store to bottom. */
  function Pushed(d: Deque, a: Action): seq<TaskRef>
    requires Enabled(d, a)
  {
    if !a.OwnerStep? then []
    else match d.owner
         case PushPublish(task, _) => [task]
         case BatchStore(tasks, _, n, i) => if i < n && i < |tasks| then [] else if n <= |tasks| then tasks[..n] else []
         case _ => []
  }

  /** The tasks that the step returns to a caller of pop or steal. */
  function Returned(d: Deque, a: Action): seq<TaskRef>
    requires Enabled(d, a)
  {
    match a
    case OwnerStep =>
      (match d.owner
       case PopRead(b, t) => if b - t > 0 then [d.buffer[Slot(d.cap, b)]] else []
       case PopRaise(_, won) => if won.Some? then [won.value] else []
       case _ => [])
    case ThiefStep(i) =>
      (match d.thieves[i]
       case StealRace(t, task) => if d.top == t then [task] else []
       case _ => [])
    case _ => []
  }

  // ---------------------------------------------------------------- the live window

  /** One past the last index still to be taken by somebody. While a pop has lowered bottom and
      not yet decided, that is one more than bottom. */
  function High(d: Deque): int {
    match d.owner
    case PopReload(b) => b + 1
    case PopRead(b, t) => if t == b then b + 1 else b
    case PopRace(t, _) => t + 1
    case PopRaise(t, _) => t + 1
    case PopRestore(t) => t
    case _ => d.bottom
  }

  /** The tasks in the deque, oldest first. */
  function Window(d: Deque): seq<TaskRef>
    requires |d.buffer| == d.cap
  {
    seq(if d.top <= High(d) then High(d) - d.top else 0, k => d.buffer[Slot(d.cap, d.top + k)])
  }

  /** The task that a pop has won and not yet returned. */
  function Hand(d: Deque): seq<TaskRef>
    requires |d.buffer| == d.cap
  {
    match d.owner
    case PopRead(b, t) => if t < b then [d.buffer[Slot(d.cap, b)]] else []
    case PopRaise(_, won) => if won.Some? then [won.value] else []
    case _ => []
  }

  // ---------------------------------------------------------------- the invariant

  ghost predicate OwnerOk(d: Deque)
    requires |d.buffer| == d.cap
  {
    match d.owner
    case PushCheck(_, b) => d.bottom == b && d.top <= b
    case PushStore(_, b) => d.bottom == b && d.top <= b && b - d.topCache < d.cap
    case PushPublish(task, b) => d.bottom == b && d.top <= b && b - d.topCache < d.cap && d.buffer[Slot(d.cap, b)] == task
    case BatchCheck(tasks, b) => d.bottom == b && d.top <= b && tasks != []
    case BatchLoad(tasks) => d.top <= d.bottom && tasks != []
    case BatchStore(tasks, b, n, i) =>
      && d.bottom == b && d.top <= b && i <= n <= |tasks| && b + n <= d.topCache + d.cap
      && forall j :: b <= j < b + i ==> d.buffer[Slot(d.cap, j)] == tasks[j - b]
    case PopCheck(b) => d.bottom == b && d.top <= b
    case PopLower(b) => d.bottom == b + 1 && d.top <= b + 1
    case PopReload(b) => d.bottom == b && d.top <= b + 1
    case PopRead(b, t) => d.bottom == b && t <= b && t <= d.top && d.top <= High(d)
    case PopRace(t, task) => d.bottom == t && t <= d.top <= t + 1 && (d.top == t ==> task == d.buffer[Slot(d.cap, t)])
    case PopRaise(t, _) => d.bottom == t && d.top == t + 1
    case PopRestore(t) => d.bottom == t - 1 && d.top == t
    case _ => d.top <= d.bottom
  }

  /** A thief whose compare-and-swap would succeed holds the oldest live task. */
  ghost predicate ThiefOk(d: Deque, i: nat)
    requires i in d.thieves && |d.buffer| == d.cap
  {
    match d.thieves[i]
    case StealBottom(t) => t <= d.top
    case StealRead(t) => t <= d.top && (t == d.top ==> t < High(d))
    case StealRace(t, task) => t <= d.top && (t == d.top ==> t < High(d) && task == d.buffer[Slot(d.cap, t)])
    case _ => true
  }

  ghost predicate Inv(d: Deque) {
    && |d.buffer| == d.cap
    && d.topCache <= d.top
    && High(d) <= d.topCache + d.cap
    && OwnerOk(d)
    && forall i :: i in d.thieves ==> ThiefOk(d, i)
  }

  predicate Init(d: Deque) {
    d.top == 0 && d.bottom == 0 && d.topCache == 0 && |d.buffer| == d.cap && d.owner.Resting? && d.thieves == map[]
  }

  /** The task at logical index i, if i is live. */
  lemma WindowAt(d: Deque, i: int)
    requires |d.buffer| == d.cap && d.top <= i < High(d)
    ensures Window(d)[i - d.top] == d.buffer[Slot(d.cap, i)]
  {
  }

  // ---------------------------------------------------------------- one step

  /** What a step does to the deque seen as a sequence: nothing, append, take last or take first. */
  ghost predicate Refines(d: Deque, a: Action)
    requires Enabled(d, a) && |d.buffer| == d.cap && |Apply(d, a).buffer| == d.cap && Apply(d, a).cap == d.cap
  {
    var q, q' := Window(d), Window(Apply(d, a));
    if a.OwnerStep? && TakesLast(d) then q != [] && q' == q[..|q| - 1]
    else if TakesFirst(d, a) then q != [] && q' == q[1..]
    else q' == q + Pushed(d, a)
  }

  /** The step at which a pop is decided with tasks to spare, or the owner's winning CAS. */
  predicate TakesLast(d: Deque) {
    match d.owner
    case PopReload(b) => d.top < b
    case PopRace(t, _) => d.top == t
    case _ => false
  }

  /** A thief's winning CAS. */
  predicate TakesFirst(d: Deque, a: Action)
    requires Enabled(d, a)
  {
    a.ThiefStep? && d.thieves[a.i].StealRace? && d.thieves[a.i].t == d.top
  }

  /** Filling the slot of an index at or above High does not disturb live slots. */
  lemma LiveSlotsKept(d: Deque, i: int, task: TaskRef)
    requires |d.buffer| == d.cap && High(d) <= i < d.top + d.cap
    ensures forall k :: d.top <= k < High(d) ==> Slot(d.cap, k) != Slot(d.cap, i)
  {
    forall k | d.top <= k < High(d) ensures Slot(d.cap, k) != Slot(d.cap, i) {
      SlotsDiffer(d.cap, k, i);
    }
  }

  lemma WindowKept(d: Deque, d': Deque)
    requires |d.buffer| == d.cap == d'.cap == |d'.buffer| && d'.top == d.top && High(d') == High(d)
    requires forall k :: d.top <= k < High(d) ==> d'.buffer[Slot(d.cap, k)] == d.buffer[Slot(d.cap, k)]
    ensures Window(d') == Window(d)
  {
    forall k | 0 <= k < |Window(d)| ensures Window(d')[k] == Window(d)[k] {
      assert Slot(d'.cap, d.top + k) == Slot(d.cap, d.top + k);
    }
  }

  lemma PushStoreOk(d: Deque)
    requires Inv(d) && d.owner.PushStore?
    ensures Inv(StepOwner(d)) && Window(StepOwner(d)) == Window(d)
  {
    var d' := StepOwner(d);
    LiveSlotsKept(d, d.owner.b, d.owner.task);
    forall i | i in d'.thieves ensures ThiefOk(d', i) { assert ThiefOk(d, i); }
    WindowKept(d, d');
  }

  lemma BatchStoreOk(d: Deque)
    requires Inv(d) && d.owner.BatchStore? && d.owner.i < d.owner.n
    ensures Inv(StepOwner(d)) && Window(StepOwner(d)) == Window(d)
  {
    var b, i, d' := d.owner.b, d.owner.i, StepOwner(d);
    LiveSlotsKept(d, b + i, d.owner.tasks[i]);
    forall j | b <= j < b + i ensures d'.buffer[Slot(d'.cap, j)] == d.owner.tasks[j - b] {
      SlotsDiffer(d.cap, j, b + i);
    }
    forall j | j in d'.thieves ensures ThiefOk(d', j) { assert ThiefOk(d, j); }
    WindowKept(d, d');
  }

  lemma PopStepOk(d: Deque)
    requires Inv(d) && (d.owner.PopLoad? || d.owner.PopCheck? || d.owner.PopLower? || d.owner.PopReload? ||
                        d.owner.PopRead? || d.owner.PopRace? || d.owner.PopRaise? || d.owner.PopRestore?)
    ensures Inv(StepOwner(d))
  {
    var d' := StepOwner(d);
    forall j | j in d'.thieves ensures ThiefOk(d', j) { assert ThiefOk(d, j); }
  }

  lemma PushStepOk(d: Deque)
    requires Inv(d) && (d.owner.PushLoad? || d.owner.PushCheck? || d.owner.PushPublish? || d.owner.BatchLoad? ||
                        d.owner.BatchCheck? || (d.owner.BatchStore? && d.owner.i == d.owner.n))
    ensures Inv(StepOwner(d))
  {
    var d' := StepOwner(d);
    forall j | j in d'.thieves ensures ThiefOk(d', j) { assert ThiefOk(d, j); }
  }

  /** The owner does not look at the thieves. */
  lemma OnlyThieves(d: Deque, d': Deque)
    requires |d.buffer| == d.cap && d' == d.(thieves := d'.thieves)
    ensures High(d') == High(d) && OwnerOk(d') == OwnerOk(d) && Window(d') == Window(d)
  {
    WindowKept(d, d');
  }

  lemma OtherThief(d: Deque, d': Deque, j: nat)
    requires |d.buffer| == d.cap && d' == d.(thieves := d'.thieves)
    requires j in d.thieves && j in d'.thieves && d'.thieves[j] == d.thieves[j]
    ensures ThiefOk(d', j) == ThiefOk(d, j)
  {
  }

  lemma ThiefMoves(d: Deque, i: nat)
    requires Inv(d) && Enabled(d, ThiefStep(i)) && !TakesFirst(d, ThiefStep(i))
    ensures Inv(StepThief(d, i)) && Window(StepThief(d, i)) == Window(d)
  {
    var d' := StepThief(d, i);
    OnlyThieves(d, d');
    assert ThiefOk(d, i);
    forall j | j in d'.thieves ensures ThiefOk(d', j) { if j != i { OtherThief(d, d', j); } }
  }

  /** A thief's winning CAS raises top. */
  lemma TopRaised(d: Deque, d': Deque)
    requires Inv(d) && d.top < High(d) && d' == d.(top := d.top + 1)
    ensures High(d') == High(d) && OwnerOk(d')
    ensures forall j :: j in d.thieves ==> ThiefOk(d', j)
  {
    forall j | j in d.thieves ensures ThiefOk(d', j) { assert ThiefOk(d, j); }
  }

  lemma WindowShifted(d: Deque, d': Deque)
    requires |d.buffer| == d.cap && d.top < High(d) && d' == d.(top := d.top + 1)
    ensures Window(d) == [d.buffer[Slot(d.cap, d.top)]] + Window(d')
  {
    assert High(d') == High(d);
    assert Window(d)[0] == d.buffer[Slot(d.cap, d.top)];
    forall k | 0 <= k < |Window(d')| ensures Window(d')[k] == Window(d)[k + 1] {
      assert Slot(d'.cap, d'.top + k) == Slot(d.cap, d.top + (k + 1));
    }
  }

  lemma ThiefWins(d: Deque, i: nat)
    requires Inv(d) && Enabled(d, ThiefStep(i)) && TakesFirst(d, ThiefStep(i))
    ensures Inv(StepThief(d, i)) && Window(d) == [d.thieves[i].task] + Window(StepThief(d, i))
  {
    var d', d1 := StepThief(d, i), d.(top := d.top + 1);
    assert ThiefOk(d, i);
    TopRaised(d, d1);
    WindowShifted(d, d1);
    OnlyThieves(d1, d');
    forall j | j in d'.thieves ensures ThiefOk(d', j) { if j != i { OtherThief(d1, d', j); } }
  }

  // ---------------------------------------------------------------- every step keeps the invariant and refines

  lemma PushPublishes(d: Deque)
    requires Inv(d) && d.owner.PushPublish?
    ensures Window(StepOwner(d)) == Window(d) + [d.owner.task]
  {
    var d' := StepOwner(d);
    forall k | 0 <= k < |Window(d')| ensures Window(d')[k] == (Window(d) + [d.owner.task])[k] {
      assert Slot(d'.cap, d'.top + k) == Slot(d.cap, d.top + k);
    }
  }

  lemma BatchPublishes(d: Deque)
    requires Inv(d) && d.owner.BatchStore? && d.owner.i == d.owner.n
    ensures Window(StepOwner(d)) == Window(d) + d.owner.tasks[..d.owner.n]
  {
    var d' := StepOwner(d);
    forall k | 0 <= k < |Window(d')| ensures Window(d')[k] == (Window(d) + d.owner.tasks[..d.owner.n])[k] {
      assert Slot(d'.cap, d'.top + k) == Slot(d.cap, d.top + k);
    }
  }

  lemma PopRefines(d: Deque)
    requires Inv(d) && (d.owner.PopLoad? || d.owner.PopCheck? || d.owner.PopLower? || d.owner.PopReload? ||
                        d.owner.PopRead? || d.owner.PopRace? || d.owner.PopRaise? || d.owner.PopRestore?)
    ensures Refines(d, OwnerStep)
  {
    var d' := StepOwner(d);
    if TakesLast(d) {
      assert Window(d') == Window(d)[..|Window(d)| - 1];
    } else {
      WindowKept(d, d');
    }
  }

  /** Every step of every interleaving keeps the invariant and acts on the deque as an atomic
      append, take-last or take-first, or not at all. */
  lemma StepInv(d: Deque, a: Action)
    requires Inv(d) && Enabled(d, a)
    ensures Inv(Apply(d, a)) && Apply(d, a).cap == d.cap && Refines(d, a)
  {
    if a.OwnerStep? { OwnerStepInv(d); }
    else if a.ThiefStep? { ThiefStepInv(d, a.i); }
    else { CallInv(d, a); }
  }

  lemma CallInv(d: Deque, a: Action)
    requires Inv(d) && Enabled(d, a) && !a.OwnerStep? && !a.ThiefStep?
    ensures Inv(Apply(d, a)) && Apply(d, a).cap == d.cap && Refines(d, a)
  {
    var d' := Apply(d, a);
    if a.CallSteal? {
      OnlyThieves(d, d');
      forall j | j in d'.thieves ensures ThiefOk(d', j) { if j != a.i { OtherThief(d, d', j); } }
    } else {
      forall j | j in d'.thieves ensures ThiefOk(d', j) { assert ThiefOk(d, j); }
      WindowKept(d, d');
    }
  }

  lemma ThiefStepInv(d: Deque, i: nat)
    requires Inv(d) && Enabled(d, ThiefStep(i))
    ensures Inv(StepThief(d, i)) && StepThief(d, i).cap == d.cap && Refines(d, ThiefStep(i))
  {
    if TakesFirst(d, ThiefStep(i)) { ThiefWins(d, i); } else { ThiefMoves(d, i); }
  }

  lemma OwnerStepInv(d: Deque)
    requires Inv(d) && Enabled(d, OwnerStep)
    ensures Inv(StepOwner(d)) && StepOwner(d).cap == d.cap && Refines(d, OwnerStep)
  {
    if d.owner.PushStore? { PushStoreOk(d); }
    else if d.owner.BatchStore? {
      if d.owner.i < d.owner.n { BatchStoreOk(d); } else { PushStepOk(d); BatchPublishes(d); }
    }
    else if d.owner.PushPublish? { PushStepOk(d); PushPublishes(d); }
    else if d.owner.PushLoad? || d.owner.PushCheck? || d.owner.BatchLoad? || d.owner.BatchCheck? { PushLooks(d); }
    else { PopStepOk(d); PopRefines(d); }
  }

  lemma PushLooks(d: Deque)
    requires Inv(d) && (d.owner.PushLoad? || d.owner.PushCheck? || d.owner.BatchLoad? || d.owner.BatchCheck?)
    ensures Inv(StepOwner(d)) && StepOwner(d).cap == d.cap && Refines(d, OwnerStep)
  {
    PushStepOk(d);
    WindowKept(d, StepOwner(d));
  }

  lemma InitInv(d: Deque)
    requires Init(d)
    ensures Inv(d) && Window(d) == [] && Hand(d) == []
  {
  }

  // ---------------------------------------------------------------- nothing is lost, nothing is returned twice

  predicate IsRun(d: Deque, run: seq<Action>)
    decreases |run|
  {
    run == [] || (Enabled(d, run[0]) && IsRun(Apply(d, run[0]), run[1..]))
  }

  function Final(d: Deque, run: seq<Action>): Deque
    requires IsRun(d, run)
    decreases |run|
  {
    if run == [] then d else Final(Apply(d, run[0]), run[1..])
  }

  /** Everything the run made available, and everything it returned. */
  function AllPushed(d: Deque, run: seq<Action>): multiset<TaskRef>
    requires IsRun(d, run)
    decreases |run|
  {
    if run == [] then multiset{} else multiset(Pushed(d, run[0])) + AllPushed(Apply(d, run[0]), run[1..])
  }

  function AllReturned(d: Deque, run: seq<Action>): multiset<TaskRef>
    requires IsRun(d, run)
    decreases |run|
  {
    if run == [] then multiset{} else multiset(Returned(d, run[0])) + AllReturned(Apply(d, run[0]), run[1..])
  }

  /** The tasks inside: in the live window or won by a pop that has yet to return. */
  function Inside(d: Deque): multiset<TaskRef>
    requires |d.buffer| == d.cap
  {
    multiset(Window(d)) + multiset(Hand(d))
  }

  lemma LastApart(q: seq<TaskRef>)
    requires q != []
    ensures multiset(q) == multiset(q[..|q|-1]) + multiset{q[|q|-1]}
  {
    assert q == q[..|q|-1] + [q[|q|-1]];
  }

  /** The owner wins the last task: it moves from the window to its hand. */
  lemma LastToHand(d: Deque)
    requires Inv(d) && Enabled(d, OwnerStep) && TakesLast(d) && Refines(d, OwnerStep) && |StepOwner(d).buffer| == d.cap
    ensures Hand(d) == [] && Hand(StepOwner(d)) == [Window(d)[|Window(d)| - 1]]
    ensures Window(StepOwner(d)) == Window(d)[..|Window(d)| - 1]
    ensures Returned(d, OwnerStep) == [] && Pushed(d, OwnerStep) == []
  {
    WindowAt(d, High(d) - 1);
  }

  /** Otherwise the owner appends what it publishes, and returns what it held. */
  lemma OwnerQuiet(d: Deque)
    requires Inv(d) && Enabled(d, OwnerStep) && !TakesLast(d) && Refines(d, OwnerStep) && |StepOwner(d).buffer| == d.cap
    ensures Window(StepOwner(d)) == Window(d) + Pushed(d, OwnerStep)
    ensures Hand(d) == Hand(StepOwner(d)) + Returned(d, OwnerStep)
  {
  }

  lemma ThiefConserves(d: Deque, i: nat)
    requires Inv(d) && Enabled(d, ThiefStep(i)) && Refines(d, ThiefStep(i)) && Inv(StepThief(d, i)) && StepThief(d, i).cap == d.cap
    ensures Hand(StepThief(d, i)) == Hand(d)
    ensures Window(d) == Returned(d, ThiefStep(i)) + Window(StepThief(d, i))
  {
    assert ThiefOk(d, i);
  }

  lemma OwnerConserves(d: Deque)
    requires Inv(d) && Enabled(d, OwnerStep) && Refines(d, OwnerStep) && |StepOwner(d).buffer| == d.cap == StepOwner(d).cap
    ensures Inside(d) + multiset(Pushed(d, OwnerStep)) == Inside(StepOwner(d)) + multiset(Returned(d, OwnerStep))
  {
    var d' := StepOwner(d);
    var w, h, w', h' := Window(d), Hand(d), Window(d'), Hand(d');
    if TakesLast(d) {
      LastToHand(d);
      LastApart(w);
      assert multiset(h') == multiset{w[|w| - 1]};
    } else {
      OwnerQuiet(d);
      assert multiset(w') == multiset(w) + multiset(Pushed(d, OwnerStep));
      assert multiset(h) == multiset(h') + multiset(Returned(d, OwnerStep));
    }
  }

  lemma StepConserves(d: Deque, a: Action)
    requires Inv(d) && Enabled(d, a) && Inv(Apply(d, a)) && Apply(d, a).cap == d.cap && Refines(d, a)
    ensures Inside(d) + multiset(Pushed(d, a)) == Inside(Apply(d, a)) + multiset(Returned(d, a))
  {
    match a
    case OwnerStep => OwnerConserves(d);
    case ThiefStep(i) =>
      ThiefConserves(d, i);
      assert multiset(Window(d)) == multiset(Returned(d, a)) + multiset(Window(Apply(d, a)));
    case _ => assert Window(Apply(d, a)) == Window(d);
  }

  lemma Chained(i0: multiset<TaskRef>, p: multiset<TaskRef>, i1: multiset<TaskRef>, r: multiset<TaskRef>,
                ps: multiset<TaskRef>, rs: multiset<TaskRef>, i2: multiset<TaskRef>)
    requires i0 + p == i1 + r && i1 + ps == rs + i2
    ensures i0 + (p + ps) == (r + rs) + i2
  {
    assert i0 + (p + ps) == (i0 + p) + ps;
    assert (i1 + r) + ps == (i1 + ps) + r;
    assert (rs + i2) + r == (r + rs) + i2;
  }

  /** For every interleaving of one owner with any number of thieves, the tasks pushed are exactly
      those returned together with those still inside, and at most one of these is in the owner's
      hand. Nothing is lost or returned twice. */
  lemma {:induction false} ExactlyOnce(d: Deque, run: seq<Action>)
    requires Inv(d) && IsRun(d, run)
    ensures Inv(Final(d, run))
    ensures Inside(d) + AllPushed(d, run) == AllReturned(d, run) + Inside(Final(d, run))
    ensures |Hand(Final(d, run))| <= 1
    decreases |run|
  {
    if run != [] {
      var d', rest := Apply(d, run[0]), run[1..];
      StepInv(d, run[0]);
      StepConserves(d, run[0]);
      ExactlyOnce(d', rest);
      Chained(Inside(d), multiset(Pushed(d, run[0])), Inside(d'), multiset(Returned(d, run[0])),
              AllPushed(d', rest), AllReturned(d', rest), Inside(Final(d', rest)));
    }
  }

  /** Seen as a set, which is how TaskDag sees it: when what is pushed is not inside yet, a step puts in
      what it pushes and takes out what it returns, and what it returns was inside. */
  lemma ActsAsSet(d: Deque, a: Action, t: TaskRef)
    requires Inv(d) && Enabled(d, a) && (t in Inside(d) ==> t !in Pushed(d, a))
    requires Inside(d)[t] <= 1 && multiset(Pushed(d, a))[t] <= 1
    ensures Inv(Apply(d, a)) && Inside(Apply(d, a))[t] <= 1
    ensures t in Inside(Apply(d, a)) <==> (t in Inside(d) || t in Pushed(d, a)) && t !in Returned(d, a)
    ensures t in Returned(d, a) ==> t in Inside(d)
    ensures |Returned(d, a)| <= 1
  {
    StepInv(d, a);
    StepConserves(d, a);
    var i, p, i', r := Inside(d), multiset(Pushed(d, a)), Inside(Apply(d, a)), multiset(Returned(d, a));
    assert (i + p)[t] == (i' + r)[t];
    PushOrReturn(d, a);
  }

  /** No step both pushes and returns. */
  lemma PushOrReturn(d: Deque, a: Action)
    requires Enabled(d, a)
    ensures |Returned(d, a)| <= 1 && (Returned(d, a) == [] || Pushed(d, a) == [])
  {
  }

  // ---------------------------------------------------------------- the positions

  /** The stale copy never runs ahead, no step lowers top, and the window fits the buffer. */
  lemma TopOnlyGrows(d: Deque, a: Action)
    requires Inv(d) && Enabled(d, a)
    ensures d.topCache <= d.top <= Apply(d, a).top
    ensures |Window(d)| <= d.cap && d.bottom - d.top <= d.cap && -1 <= d.bottom - d.top
  {
  }

  /** bottom goes down at one step only, the first store of a pop, and by one; it ends up below top
      if and only if thieves have emptied the deque since the pop looked at top. */
  lemma BottomLowered(d: Deque, a: Action)
    requires Inv(d) && Enabled(d, a)
    ensures Apply(d, a).bottom < d.bottom <==> a.OwnerStep? && d.owner.PopLower?
    ensures a.OwnerStep? && d.owner.PopLower? ==>
              Apply(d, a).bottom == d.bottom - 1 && (Apply(d, a).bottom < Apply(d, a).top <==> Window(d) == [])
  {
    if a.OwnerStep? && d.owner.PopLower? { assert Apply(d, a) == d.(bottom := d.owner.b, owner := PopReload(d.owner.b)); }
  }

  lemma Before(d: Deque, a: Action, rest: seq<Action>) returns (run: seq<Action>)
    requires Enabled(d, a) && IsRun(Apply(d, a), rest)
    ensures IsRun(d, run) && Final(d, run) == Final(Apply(d, a), rest)
  {
    run := [a] + rest;
    assert run[0] == a && run[1..] == rest;
  }

  /** A steal of the only task between the two looks of a pop. */
  lemma StolenUnderPop(d: Deque, b: int) returns (run: seq<Action>)
    requires |d.buffer| == d.cap && d.owner == PopLower(b) && d.thieves == map[] && d.top == b && d.bottom == b + 1
    ensures IsRun(d, run) && Final(d, run).bottom == b && Final(d, run).top == b + 1
  {
    var d1 := Apply(d, CallSteal(0));
    var d2 := Apply(d1, ThiefStep(0));
    var d3 := Apply(d2, ThiefStep(0));
    var d4 := Apply(d3, ThiefStep(0));
    var d5 := Apply(d4, ThiefStep(0));
    run := Before(d5, OwnerStep, []);
    run := Before(d4, ThiefStep(0), run);
    run := Before(d3, ThiefStep(0), run);
    run := Before(d2, ThiefStep(0), run);
    run := Before(d1, ThiefStep(0), run);
    run := Before(d, CallSteal(0), run);
  }

  /** From an empty deque of any capacity: push a task, start a pop, have the task stolen; then the
      pop stores bottom one below top. */
  lemma BottomBelowTop(d: Deque, task: TaskRef) returns (run: seq<Action>)
    requires Init(d)
    ensures IsRun(d, run) && Final(d, run).bottom == Final(d, run).top - 1
  {
    var d1 := Apply(d, CallPush(task));
    var d2 := Apply(d1, OwnerStep);
    var d3 := Apply(d2, OwnerStep);
    var d4 := Apply(d3, OwnerStep);
    var d5 := Apply(d4, OwnerStep);
    var d6 := Apply(d5, CallPop);
    var d7 := Apply(d6, OwnerStep);
    var d8 := Apply(d7, OwnerStep);
    run := StolenUnderPop(d8, 0);
    run := Before(d7, OwnerStep, run);
    run := Before(d6, OwnerStep, run);
    run := Before(d5, CallPop, run);
    run := Before(d4, OwnerStep, run);
    run := Before(d3, OwnerStep, run);
    run := Before(d2, OwnerStep, run);
    run := Before(d1, OwnerStep, run);
    run := Before(d, CallPush(task), run);
  }

  // ---------------------------------------------------------------- what the answers mean

  /** A pop that comes back empty-handed found the deque empty when it was decided. */
  lemma PopNullMeansEmpty(d: Deque)
    requires Inv(d)
    requires (d.owner.PopCheck? && StepOwner(d).owner.Resting?) || (d.owner.PopReload? && StepOwner(d).owner.PopRestore?)
          || (d.owner.PopRace? && StepOwner(d).owner.PopRaise? && StepOwner(d).owner.won.None?)
    ensures Window(d) == []
  {
  }

  /** A push is refused exactly when the deque is full at the reload of top. */
  lemma PushRefusedMeansFull(d: Deque)
    requires Inv(d) && d.owner.PushCheck?
    ensures StepOwner(d).owner.Resting? <==> |Window(d)| == d.cap
  {
  }

  /** A batch gets the free room as of its look at top, or all it asks for. */
  lemma BatchRoom(d: Deque)
    requires Inv(d) && d.owner.BatchCheck?
    ensures var count, room := |d.owner.tasks|, d.cap - |Window(d)|;
            if room == 0 then StepOwner(d).owner.Resting?
            else StepOwner(d).owner.BatchStore? && StepOwner(d).owner.n == (if count < room then count else room)
  {
  }

  /** A steal comes back empty-handed from its CAS exactly if another thread has taken the task, which
      moved top on since it was loaded. */
  lemma FailedStealLost(d: Deque, i: nat)
    requires Inv(d) && Enabled(d, ThiefStep(i)) && d.thieves[i].StealRace?
    ensures Returned(d, ThiefStep(i)) == [] <==> d.thieves[i].t < d.top
    ensures Apply(d, ThiefStep(i)).thieves[i].Away?
  {
    assert ThiefOk(d, i);
  }

  /** And so does a pop from its CAS for the last task. */
  lemma FailedPopLost(d: Deque)
    requires Inv(d) && d.owner.PopRace?
    ensures StepOwner(d).owner.PopRaise? && (StepOwner(d).owner.won.None? <==> d.owner.t < d.top)
  {
  }

  /** A steal whose CAS succeeds returns the oldest task in the deque, the one last pushed at the
      index it read, although it read the slot earlier and slots are reused. */
  lemma StealReturnsOldest(d: Deque, i: nat)
    requires Inv(d) && Enabled(d, ThiefStep(i)) && TakesFirst(d, ThiefStep(i))
    ensures Window(d) != [] && Returned(d, ThiefStep(i)) == [Window(d)[0]]
    ensures Window(d)[0] == d.buffer[Slot(d.cap, d.thieves[i].t)]
  {
    assert ThiefOk(d, i);
  }
}
