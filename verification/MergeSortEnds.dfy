/** The merge sort comes to an end: every step of every call and continuation lowers a measure that
    starts at a square of the number of elements, and where no step is left the first call is over. */
module MergeSortEnds {
  import opened Basics
  import opened Sums
  import opened SortCost
  import opened Sorting
  import opened Merging
  import opened MergeSort

  // ---------------------------------------------------------------- the measure

  /** A bound for the steps that a call, and those it is still to make, have before them. */
  function Ahead(c: Call): nat {
    var n := Left(c.lo, c.hi);
    match c.pc
    case Ready => CallCost(n)
    case Sort(i) => Left(i, c.hi) * (n + 2) + 1
    case Shift(i, _, j) => Left(i + 1, c.hi) * (n + 2) + Left(c.lo, j) + 2
    case Forked(_, _) => 2 * n + 5
    case Take(i, j) => (if c.lo <= c.hi then Left(i, Mid(c.lo, c.hi)) else 0) + Left(j, c.hi) + n + 3
    case Copy(k) => Left(k, c.hi) + 1
    case Over => 0
    case Gone => 0
  }

  ghost function AheadOf(s: State): map<nat, nat> {
    map id | id in s.calls :: Ahead(s.calls[id])
  }

  ghost function Work(s: State): nat {
    Sum(AheadOf(s))
  }

  /** A fork and all below it, and the merge, cost less than the call is allowed. */
  lemma ForkCost(n: nat, a: nat, b: nat)
    requires n == a + b && n > BASE_CASE_THRESHOLD && a > 0 && b > 0
    ensures 2 * n + 5 + CallCost(a) + CallCost(b) < CallCost(n)
  {
    SquareOfSum(a, b);
    ProductIsLarge(a, b);
    FourSquares(n);
    FourSquares(a);
    FourSquares(b);
  }

  // ---------------------------------------------------------------- every step

  /** What the invariant says about the positions of a call. */
  predicate InRange(c: Call) {
    c.lo <= c.hi &&
    match c.pc
    case Sort(i) => c.lo < i
    case Shift(i, _, j) => c.lo <= j <= i < c.hi
    case Take(i, j) => c.lo <= i <= Mid(c.lo, c.hi) <= j <= c.hi
    case Copy(k) => c.lo <= k <= c.hi
    case _ => true
  }

  lemma PositionsInRange(s: State, original: seq<int>, id: Id)
    requires Inv(s, original) && id in s.calls
    ensures InRange(s.calls[id])
  {
    assert CallOk(s, original, id);
  }

  /** Only call id went on; its children, if it takes them over, had nothing before them. */
  lemma OneGoesOn(s: State, t: State, id: Id)
    requires id in s.calls && t.calls.Keys == s.calls.Keys
    requires forall k :: k in s.calls && k != id ==> Ahead(t.calls[k]) == Ahead(s.calls[k])
    ensures Work(t) + Ahead(s.calls[id]) == Work(s) + Ahead(t.calls[id])
  {
    SumChanged(AheadOf(s), AheadOf(t), id);
  }

  lemma TwoCalls(s: State, t: State, id: Id, l: Id, r: Id)
    requires id in s.calls && l !in s.calls && r !in s.calls && l != r && id in t.calls && l in t.calls && r in t.calls
    requires t.calls == s.calls[id := t.calls[id]][l := t.calls[l]][r := t.calls[r]]
    ensures Work(t) + Ahead(s.calls[id]) == Work(s) + Ahead(t.calls[id]) + Ahead(t.calls[l]) + Ahead(t.calls[r])
  {
    var m: map<nat, nat> := AheadOf(s)[id := Ahead(t.calls[id])];
    var n: map<nat, nat> := m[l := Ahead(t.calls[l])];
    SumChanged(AheadOf(s), m, id);
    SumAdded(m, l, Ahead(t.calls[l]));
    SumAdded(n, r, Ahead(t.calls[r]));
    assert AheadOf(t) == n[r := Ahead(t.calls[r])];
  }

  lemma ForkFalls(s: State, e: Event)
    requires Forks(s, e)
    ensures Work(Apply(s, e)) < Work(s)
  {
    var c := s.calls[e.id];
    TwoCalls(s, Apply(s, e), e.id, e.l, e.r);
    ForkCost(c.hi - c.lo, Mid(c.lo, c.hi) - c.lo, c.hi - Mid(c.lo, c.hi));
  }

  lemma JoinFalls(s: State, e: Event)
    requires Joins(s, e) && s.calls[e.id].lo <= s.calls[e.id].hi && ChildrenOk(s, e.id)
    ensures Work(Apply(s, e)) < Work(s)
  {
    var t := Apply(s, e);
    forall k | k in s.calls && k != e.id ensures k in t.calls && Ahead(t.calls[k]) == Ahead(s.calls[k]) { JoinKeeps(s, e, k); }
    OneGoesOn(s, t, e.id);
    MergeBegins(s, e);
  }

  lemma JoinKeeps(s: State, e: Event, k: Id)
    requires Joins(s, e) && s.calls[e.id].lo <= s.calls[e.id].hi && ChildrenOk(s, e.id) && k in s.calls && k != e.id
    ensures k in Apply(s, e).calls && Ahead(Apply(s, e).calls[k]) == Ahead(s.calls[k])
  {
  }

  lemma MergeBegins(s: State, e: Event)
    requires Joins(s, e) && s.calls[e.id].lo <= s.calls[e.id].hi && ChildrenOk(s, e.id)
    ensures e.id in Apply(s, e).calls && Apply(s, e).calls.Keys == s.calls.Keys
    ensures Ahead(Apply(s, e).calls[e.id]) < Ahead(s.calls[e.id])
  {
  }

  /** A step within one call brings it forward. */
  lemma MovesForward(s: State, e: Event)
    requires Enabled(s, e) && InRange(s.calls[e.id]) && !Forks(s, e) && !Joins(s, e)
    ensures e.id in Apply(s, e).calls && Apply(s, e).calls == s.calls[e.id := Apply(s, e).calls[e.id]]
    ensures Ahead(Apply(s, e).calls[e.id]) < Ahead(s.calls[e.id])
  {
    var c := s.calls[e.id];
    match c.pc
    case Ready => InsertionCost(c.hi - c.lo, Left(c.lo + 1, c.hi));
    case Sort(_) => SortsOn(s, e);
    case _ =>
  }

  lemma SortsOn(s: State, e: Event)
    requires Enabled(s, e) && InRange(s.calls[e.id]) && s.calls[e.id].pc.Sort?
    ensures Ahead(Apply(s, e).calls[e.id]) < Ahead(s.calls[e.id])
  {
    var c := s.calls[e.id];
    if c.pc.i < c.hi { OneRoundLess(c.hi - c.pc.i, c.hi - c.lo); }
    Product(Left(c.pc.i, c.hi), c.hi - c.lo + 2);
  }

  /** Every step of every call and continuation lowers the measure. */
  lemma StepFalls(s: State, original: seq<int>, e: Event)
    requires Inv(s, original) && Enabled(s, e)
    ensures Work(Apply(s, e)) < Work(s)
  {
    if Forks(s, e) { ForkFalls(s, e); }
    else if Joins(s, e) {
      assert CallOk(s, original, e.id);
      JoinFalls(s, e);
    }
    else {
      PositionsInRange(s, original, e.id);
      MovesForward(s, e);
      OneGoesOn(s, Apply(s, e), e.id);
    }
  }

  // ---------------------------------------------------------------- whole runs

  /** A call that has forked has two elements at least. */
  predicate Wide(s: State) {
    forall id :: id in s.calls && s.calls[id].pc.Forked? ==> s.calls[id].lo + 2 <= s.calls[id].hi
  }

  lemma StepWide(s: State, e: Event)
    requires Wide(s) && Enabled(s, e)
    ensures Wide(Apply(s, e))
  {
  }

  lemma {:induction false} RunFalls(s: State, original: seq<int>, run: seq<Event>)
    requires Inv(s, original) && Owned(s) && Wide(s) && IsRun(s, run)
    ensures |run| + Work(Final(s, run)) <= Work(s) && Wide(Final(s, run))
    decreases |run|
  {
    if run != [] {
      StepFalls(s, original, run[0]);
      StepInv(s, original, run[0]);
      StepWide(s, run[0]);
      RunFalls(Apply(s, run[0]), original, run[1..]);
    }
  }

  lemma InitWork(s: State, original: seq<int>)
    requires Init(s, original)
    ensures Work(s) == CallCost(|original|)
  {
    SumAdded(map[], 0, CallCost(|original|));
    assert AheadOf(s) == map[][0 := CallCost(|original|)];
  }

  /** For every array and every interleaving of all calls: there are no more steps than this. */
  lemma StepsBounded(s: State, original: seq<int>, run: seq<Event>)
    requires Init(s, original) && IsRun(s, run)
    ensures |run| <= 4 * |original| * |original| + 8 * |original| + 8
  {
    InitInv(s, original);
    InitWork(s, original);
    RunFalls(s, original, run);
  }

  /** A call that is not over can go on, or a call below it can. */
  lemma {:induction false} SomeCallGoesOn(s: State, original: seq<int>, id: Id) returns (e: Event)
    requires Inv(s, original) && Wide(s) && id in s.calls && !s.calls[id].pc.Over? && !s.calls[id].pc.Gone?
    ensures Enabled(s, e)
    decreases if id in s.calls then Left(s.calls[id].lo, s.calls[id].hi) else 0
  {
    assert CallOk(s, original, id);
    var c := s.calls[id];
    var l := NewName(s.calls.Keys);
    var r := NewName(s.calls.Keys + {l});
    NeverOutOfBounds(s, original, id, l, r);
    e := Event(id, l, r);
    if c.pc.Forked? {
      if !s.calls[c.pc.l].pc.Over? { e := SomeCallGoesOn(s, original, c.pc.l); }
      else if !s.calls[c.pc.r].pc.Over? { e := SomeCallGoesOn(s, original, c.pc.r); }
    }
  }

  /** Total correctness: where no step is left, the first call and its continuation are over, and the
      array is what the sequential merge sort, or any other sort, leaves. */
  lemma SortsInTheEnd(s: State, original: seq<int>, run: seq<Event>, sequential: seq<int>)
    requires Init(s, original) && IsRun(s, run) && forall e :: !Enabled(Final(s, run), e)
    requires SortedRange(sequential, 0, |sequential|) && Rearranged(original, sequential, 0, |original|)
    ensures Final(s, run).arr == sequential && Sorted(Final(s, run).arr)
  {
    InitInv(s, original);
    InvRun(s, original, run);
    RunFalls(s, original, run);
    var t := Final(s, run);
    if !t.calls[0].pc.Over? { var e := SomeCallGoesOn(t, original, 0); }
    SameAsSequential(s, original, run, sequential);
  }
}
