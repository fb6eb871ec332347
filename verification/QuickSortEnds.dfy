/** The quicksort comes to an end: every step of every call lowers a measure that starts at a square of
    the number of elements, and where no step is left all calls are over and the array is sorted. */
module QuickSortEnds {
  import opened Basics
  import opened Sums
  import opened SortCost
  import opened Sorting
  import opened QuickSort

  // ---------------------------------------------------------------- the measure

  /** A bound for the steps that an activity, and those it is still to spawn, have before them. */
  function Ahead(a: Activity): nat {
    var n := Left(a.lo, a.hi);
    match a.pc
    case Ready => CallCost(n)
    case Sort(i) => Left(i, a.hi) * (n + 2) + 1
    case Shift(i, _, j) => Left(i + 1, a.hi) * (n + 2) + Left(a.lo, j) + 2
    case Scan(_, _, j) => 2 * Left(j, a.hi) + 5 + BothCosts(n)
    case Fill(_, _, j, _) => 2 * Left(j, a.hi) + 4 + BothCosts(n)
    case Settle(_, _) => 4 + BothCosts(n)
    case SpawnLeft(p) => 3 + CallCost(Left(a.lo, p)) + CallCost(Left(p + 1, a.hi))
    case SpawnRight => 2 + CallCost(n)
    case Over => 0
  }

  /** The most that the two calls below a call on n elements can cost. */
  function BothCosts(n: nat): nat {
    CallCost(if n > 0 then n - 1 else 0) + 8
  }

  ghost function AheadOf(s: State): map<nat, nat> {
    map id | id in s.acts :: Ahead(s.acts[id])
  }

  ghost function Work(s: State): nat {
    Sum(AheadOf(s))
  }

  // ---------------------------------------------------------------- arithmetic

  /** Two parts cost no more than one of them all. */
  lemma PartsCost(a: nat, b: nat)
    ensures CallCost(a) + CallCost(b) <= BothCosts(a + b + 1)
  {
    SquareOfSum(a, b);
    Product(a, b);
    FourSquares(a + b);
    FourSquares(a);
    FourSquares(b);
  }

  lemma PartitionCost(n: nat)
    requires n > BASE_CASE_THRESHOLD
    ensures 2 * n + 5 + BothCosts(n) < CallCost(n)
  {
    SquareOfSum(n - 1, 1);
    FourSquares(n);
    FourSquares(n - 1);
  }

  // ---------------------------------------------------------------- every step

  /** Only activity id went on. */
  lemma OneGoesOn(s: State, t: State, id: Id)
    requires id in s.acts && id in t.acts && t.acts == s.acts[id := t.acts[id]]
    ensures Work(t) + Ahead(s.acts[id]) == Work(s) + Ahead(t.acts[id])
  {
    SumChanged(AheadOf(s), AheadOf(t), id);
  }

  /** It spawned a call as well. */
  lemma OneSpawns(s: State, t: State, id: Id, child: Id)
    requires id in s.acts && id in t.acts && child !in s.acts && child in t.acts
    requires t.acts == s.acts[id := t.acts[id]][child := t.acts[child]]
    ensures Work(t) + Ahead(s.acts[id]) == Work(s) + Ahead(t.acts[id]) + Ahead(t.acts[child])
  {
    var m := AheadOf(s)[id := Ahead(t.acts[id])];
    SumChanged(AheadOf(s), m, id);
    SumAdded(m, child, Ahead(t.acts[child]));
    assert AheadOf(t) == m[child := Ahead(t.acts[child])];
  }

  /** What the invariant says about the positions of an activity. */
  predicate InRange(a: Activity) {
    a.lo <= a.hi &&
    match a.pc
    case Sort(i) => a.lo < i
    case Shift(i, _, j) => a.lo <= j <= i < a.hi
    case Scan(_, _, j) => a.lo <= j < a.hi
    case Fill(_, _, j, _) => a.lo <= j < a.hi - 1
    case Settle(i, _) => a.lo <= i < a.hi
    case SpawnLeft(p) => a.lo <= p < a.hi
    case _ => true
  }

  lemma PositionsInRange(s: State, original: seq<int>, id: Id)
    requires Inv(s, original) && id in s.acts
    ensures InRange(s.acts[id])
  {
    assert ActivityOk(s, id);
  }

  predicate Spawning(a: Activity) {
    a.pc.SpawnLeft? || a.pc.SpawnRight?
  }

  /** A step that spawns nothing brings its activity forward. */
  lemma MovesForward(s: State, e: Event)
    requires Enabled(s, e) && InRange(s.acts[e.id]) && !Spawning(s.acts[e.id])
    ensures e.id in Apply(s, e).acts && Apply(s, e).acts == s.acts[e.id := Apply(s, e).acts[e.id]]
    ensures Ahead(Apply(s, e).acts[e.id]) < Ahead(s.acts[e.id])
  {
    var a := s.acts[e.id];
    match a.pc
    case Ready => Starts(s, e);
    case Sort(i) => SortsOn(s, e);
    case Shift(_, _, _) => ShiftsOn(s, e);
    case Settle(p, _) => PartsCost(p - a.lo, a.hi - p - 1);
    case _ =>
  }

  lemma Starts(s: State, e: Event)
    requires Enabled(s, e) && InRange(s.acts[e.id]) && s.acts[e.id].pc.Ready?
    ensures Ahead(Apply(s, e).acts[e.id]) < Ahead(s.acts[e.id])
  {
    var a := s.acts[e.id];
    var n := a.hi - a.lo;
    if n <= BASE_CASE_THRESHOLD { InsertionCost(n, Left(a.lo + 1, a.hi)); } else { PartitionCost(n); }
  }

  lemma SortsOn(s: State, e: Event)
    requires Enabled(s, e) && InRange(s.acts[e.id]) && s.acts[e.id].pc.Sort?
    ensures Ahead(Apply(s, e).acts[e.id]) < Ahead(s.acts[e.id])
  {
    var a := s.acts[e.id];
    if a.pc.i < a.hi { OneRoundLess(a.hi - a.pc.i, a.hi - a.lo); }
    Product(Left(a.pc.i, a.hi), a.hi - a.lo + 2);
  }

  lemma ShiftsOn(s: State, e: Event)
    requires Enabled(s, e) && InRange(s.acts[e.id]) && s.acts[e.id].pc.Shift?
    ensures Ahead(Apply(s, e).acts[e.id]) < Ahead(s.acts[e.id])
  {
  }

  lemma SpawnsForward(s: State, e: Event)
    requires Enabled(s, e) && InRange(s.acts[e.id]) && Spawning(s.acts[e.id])
    ensures Work(Apply(s, e)) < Work(s)
  {
    var t := Apply(s, e);
    if e.child in t.acts { OneSpawns(s, t, e.id, e.child); } else { OneGoesOn(s, t, e.id); }
  }

  /** Every step of every call lowers the measure. */
  lemma StepFalls(s: State, original: seq<int>, e: Event)
    requires Inv(s, original) && Enabled(s, e)
    ensures Work(Apply(s, e)) < Work(s)
  {
    PositionsInRange(s, original, e.id);
    if Spawning(s.acts[e.id]) {
      SpawnsForward(s, e);
    } else {
      MovesForward(s, e);
      OneGoesOn(s, Apply(s, e), e.id);
    }
  }

  // ---------------------------------------------------------------- whole runs

  lemma {:induction false} RunFalls(s: State, original: seq<int>, run: seq<Event>)
    requires Inv(s, original) && IsRun(s, run)
    ensures |run| + Work(Final(s, run)) <= Work(s)
    decreases |run|
  {
    if run != [] {
      StepFalls(s, original, run[0]);
      StepInv(s, original, run[0]);
      RunFalls(Apply(s, run[0]), original, run[1..]);
    }
  }

  lemma InitWork(s: State, original: seq<int>)
    requires Init(s, original)
    ensures Work(s) == CallCost(|original|)
  {
    SumAdded(map[], 0, CallCost(|original|));
    assert AheadOf(s) == map[][0 := CallCost(|original|)];
  }

  /** For every array and every interleaving of all calls: there are no more steps than this. */
  lemma StepsBounded(s: State, original: seq<int>, run: seq<Event>)
    requires Init(s, original) && IsRun(s, run)
    ensures |run| <= 4 * |original| * |original| + 8 * |original| + 8
  {
    InitInv(s, original);
    InitWork(s, original);
    RunFalls(s, original, run);
  }

  /** Total correctness: every run can be continued until all calls are over, and then the array is a
      sorted rearrangement of its input. */
  lemma SortsInTheEnd(s: State, original: seq<int>, run: seq<Event>)
    requires Init(s, original) && IsRun(s, run) && forall e :: !Enabled(Final(s, run), e)
    ensures AllOver(Final(s, run)) && Sorted(Final(s, run).arr) && multiset(Final(s, run).arr) == multiset(original)
  {
    InitInv(s, original);
    InvRun(s, original, run);
    var t := Final(s, run);
    forall id | id in t.acts ensures t.acts[id].pc.Over? {
      var child := NewName(t.acts.Keys);
      if !t.acts[id].pc.Over? { NeverStuck(t, original, id, child); }
    }
    AllOverMeansSorted(t, original);
  }
}
