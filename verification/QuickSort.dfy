/**
 The quicksort of examples/quick_sort_concurrent_ex.c:138-160 on the scheduler, with every access
 to the shared array as one step.

 A call of sk_quicksort_task is an activity of its own from the moment it is spawned. Whether the
 scheduler queues it, lets a thief run it or, for want of a node or of room in the deque, runs it in
 place, is left open: any interleaving of the steps of all activities is allowed, so every schedule
 and every pattern of exhaustion is among them. Each spawn asks for a single chunk, which is run
 by exactly one call (Spawning.OneChunkOneCall).
 */
module QuickSort {
  import opened Basics
  import opened Sorting

  type Id = nat

  const BASE_CASE_THRESHOLD := 1024

  datatype Pc =
    | Ready
    | Sort(i: nat)                                      // insertion sort, outer loop head
    | Shift(i: nat, key: int, j: nat)                   // inner loop head; the key belongs at the hole j
    | Scan(pivot: int, i: nat, j: nat)                  // partition, loop head
    | Fill(pivot: int, i: nat, j: nat, t: int)          // half a swap: t belongs at j
    | Settle(i: nat, t: int)                            // half of the last swap: t belongs at the end
    | SpawnLeft(p: nat)
    | SpawnRight                                        // lo has moved past the pivot
    | Over

  datatype Activity = Activity(lo: nat, hi: nat, pc: Pc)

  datatype State = State(
    arr: seq<int>,
    acts: map<Id, Activity>,
    own: seq<Option<Id>>                                // bookkeeping: whose part an index is in
  )

  /** One step of activity id; a new activity, if the step makes one, is called `child`. */
  datatype Event = Event(id: Id, child: Id)

  predicate InBounds(s: State, a: Activity) {
    a.lo <= a.hi <= |s.arr| &&
    match a.pc
    case Ready => true
    case Sort(i) => true
    case Shift(i, _, j) => j < |s.arr|
    case Scan(_, i, j) => i < |s.arr| && j < |s.arr| && a.hi > 0
    case Fill(_, i, j, _) => j < |s.arr|
    case Settle(_, _) => a.hi > 0
    case SpawnLeft(p) => p < |s.arr|
    case _ => true
  }

  predicate Enabled(s: State, e: Event) {
    e.id in s.acts && !s.acts[e.id].pc.Over? && e.child !in s.acts && InBounds(s, s.acts[e.id])
  }

  function WithPc(s: State, id: Id, pc: Pc): State
    requires id in s.acts
  {
    s.(acts := s.acts[id := s.acts[id].(pc := pc)])
  }

  /** The activity that the index belongs to from now on. */
  function Give(own: seq<Option<Id>>, lo: nat, hi: nat, to: Option<Id>): (r: seq<Option<Id>>)
    ensures |r| == |own|
    ensures forall x :: 0 <= x < |own| ==> r[x] == if lo <= x < hi then to else own[x]
  {
    seq(|own|, x requires 0 <= x < |own| => if lo <= x < hi then to else own[x])
  }

  /** A spawned call: none for an empty range. */
  function Spawn(s: State, child: Id, lo: nat, hi: nat): State {
    if lo < hi then s.(acts := s.acts[child := Activity(lo, hi, Ready)], own := Give(s.own, lo, hi, Some(child))) else s
  }

  function Apply(s: State, e: Event): State
    requires Enabled(s, e)
  {
    var id, a := e.id, s.acts[e.id];
    match a.pc
    case Ready =>
      WithPc(s, id, if a.hi - a.lo <= BASE_CASE_THRESHOLD then Sort(a.lo + 1) else Scan(s.arr[a.hi - 1], a.lo, a.lo))
    case Sort(i) =>
      if i < a.hi then WithPc(s, id, Shift(i, s.arr[i], i))
      else WithPc(s, id, Over).(own := Give(s.own, a.lo, a.hi, None))
    case Shift(i, key, j) =>
      if j > a.lo && s.arr[j - 1] > key then WithPc(s, id, Shift(i, key, j - 1)).(arr := s.arr[j := s.arr[j - 1]])
      else WithPc(s, id, Sort(i + 1)).(arr := s.arr[j := key])
    case Scan(pivot, i, j) =>
      if j < a.hi - 1 then
        if s.arr[j] <= pivot then WithPc(s, id, Fill(pivot, i, j, s.arr[i])).(arr := s.arr[i := s.arr[j]])
        else WithPc(s, id, Scan(pivot, i, j + 1))
      else WithPc(s, id, Settle(i, s.arr[i])).(arr := s.arr[i := s.arr[a.hi - 1]])
    case Fill(pivot, i, j, t) => WithPc(s, id, Scan(pivot, i + 1, j + 1)).(arr := s.arr[j := t])
    case Settle(i, t) => WithPc(s, id, SpawnLeft(i)).(arr := s.arr[a.hi - 1 := t])
    case SpawnLeft(p) =>
      Spawn(s.(acts := s.acts[id := Activity(p + 1, a.hi, SpawnRight)], own := Give(s.own, p, p + 1, None)), e.child, a.lo, p)
    case SpawnRight => Spawn(WithPc(s, id, Over), e.child, a.lo, a.hi)
    case Over => s
  }

  // ---------------------------------------------------------------- the logical array

  /** The hole of an activity, and what belongs there. */
  function Hole(a: Activity): Option<(int, int)> {
    match a.pc
    case Shift(_, key, j) => Some((j, key))
    case Fill(_, _, j, t) => Some((j, t))
    case Settle(_, t) => Some((a.hi - 1, t))
    case _ => None
  }

  function ValueAt(s: State, x: nat): int
    requires x < |s.arr| == |s.own|
  {
    if s.own[x].Some? && s.own[x].value in s.acts && Hole(s.acts[s.own[x].value]).Some? &&
       Hole(s.acts[s.own[x].value]).value.0 == x
    then Hole(s.acts[s.own[x].value]).value.1
    else s.arr[x]
  }

  function ValuesUpTo(s: State, n: nat): (r: seq<int>)
    requires n <= |s.arr| == |s.own|
    ensures |r| == n
  {
    if n == 0 then [] else ValuesUpTo(s, n - 1) + [ValueAt(s, n - 1)]
  }

  /** The array with every hole filled. */
  function Logical(s: State): (r: seq<int>)
    requires |s.arr| == |s.own|
    ensures |r| == |s.arr|
  {
    ValuesUpTo(s, |s.arr|)
  }

  lemma {:induction false} ValuesAt(s: State, n: nat)
    requires n <= |s.arr| == |s.own|
    ensures forall x :: 0 <= x < n ==> ValuesUpTo(s, n)[x] == ValueAt(s, x)
  {
    if n > 0 { ValuesAt(s, n - 1); }
  }

  lemma LogicalAt(s: State)
    requires |s.arr| == |s.own|
    ensures forall x :: 0 <= x < |s.arr| ==> Logical(s)[x] == ValueAt(s, x)
  {
    ValuesAt(s, |s.arr|);
  }

  // ---------------------------------------------------------------- the invariant

  /** What an activity knows about its part of the logical array. */
  predicate PcOk(v: seq<int>, a: Activity)
    requires a.lo <= a.hi <= |v|
  {
    match a.pc
    case Ready => true
    case Sort(i) => a.lo < i && (i <= a.hi || i == a.lo + 1) && SortedRange(v, a.lo, if i <= a.hi then i else a.hi)
    case Shift(i, key, j) => i < a.hi && AlmostSorted(v, a.lo, j, i)
    case Scan(pivot, i, j) => Scanned(v, a.lo, i, j, a.hi, pivot)
    case Fill(pivot, i, j, _) => a.lo <= i && j < a.hi - 1 && Scanned(v, a.lo, i + 1, j + 1, a.hi, pivot)
    case Settle(i, _) => Split(v, a.lo, i, a.hi)
    case SpawnLeft(p) => Split(v, a.lo, p, a.hi)
    case _ => true
  }

  /** An index is the activity's own exactly when it lies in its range, until it is over. */
  predicate OwnOk(s: State, id: Id)
    requires id in s.acts
  {
    forall x :: 0 <= x < |s.own| ==>
      (s.own[x] == Some(id) <==> s.acts[id].lo <= x < s.acts[id].hi && !s.acts[id].pc.Over?)
  }

  ghost predicate ActivityOk(s: State, id: Id)
    requires id in s.acts && |s.arr| == |s.own|
  {
    s.acts[id].lo <= s.acts[id].hi <= |s.arr| && OwnOk(s, id) && PcOk(Logical(s), s.acts[id])
  }

  /** Two indices that are in nobody's part, or not in the same, are in their final order. */
  ghost predicate Ordered(v: seq<int>, own: seq<Option<Id>>)
    requires |v| == |own|
  {
    forall x, y :: 0 <= x < y < |v| && (own[x] == own[y] ==> own[x].None?) ==> v[x] <= v[y]
  }

  ghost predicate Inv(s: State, original: seq<int>) {
    && |s.arr| == |s.own|
    && (forall id :: id in s.acts ==> ActivityOk(s, id))
    && (forall x :: 0 <= x < |s.own| && s.own[x].Some? ==> s.own[x].value in s.acts)
    && Ordered(Logical(s), s.own)
    && multiset(Logical(s)) == multiset(original)
  }

  /** The job starts with one call for the whole array: it is submitted with chunk size n. */
  predicate Init(s: State, original: seq<int>) {
    && s.arr == original && s.acts == map[0 := Activity(0, |original|, Ready)]
    && s.own == seq(|original|, _ => Some(0))
  }

  // ---------------------------------------------------------------- steps

  lemma SameValues(v: seq<int>, w: seq<int>, a: Activity)
    requires a.lo <= a.hi <= |v| == |w| && forall x :: a.lo <= x < a.hi ==> v[x] == w[x]
    ensures PcOk(v, a) == PcOk(w, a)
  {
    match a.pc
    case Shift(i, _, j) => if i < a.hi { assert AlmostSorted(v, a.lo, j, i) == AlmostSorted(w, a.lo, j, i); }
    case _ =>
  }

  /** The values in an activity's own part. */
  lemma OwnValues(s: State, id: Id)
    requires |s.arr| == |s.own| && id in s.acts && OwnOk(s, id) && !s.acts[id].pc.Over? && s.acts[id].hi <= |s.arr|
    ensures forall x :: s.acts[id].lo <= x < s.acts[id].hi ==>
              Logical(s)[x] == if Hole(s.acts[id]).Some? && Hole(s.acts[id]).value.0 == x then Hole(s.acts[id]).value.1 else s.arr[x]
  {
    LogicalAt(s);
  }

  /** t differs from s in one activity, which stays where it is, and in that activity's part. */
  predicate OnlyMoves(s: State, t: State, id: Id) {
    && |s.arr| == |s.own| == |t.arr| && t.own == s.own && id in s.acts && id in t.acts
    && t.acts == s.acts[id := t.acts[id]]
    && t.acts[id].lo == s.acts[id].lo && t.acts[id].hi == s.acts[id].hi && !t.acts[id].pc.Over? && !s.acts[id].pc.Over?
    && forall x :: 0 <= x < |s.own| && s.own[x] != Some(id) ==> t.arr[x] == s.arr[x]
  }

  lemma OthersKeep(s: State, t: State, id: Id)
    requires OnlyMoves(s, t, id)
    ensures forall x :: 0 <= x < |s.own| && s.own[x] != Some(id) ==> Logical(t)[x] == Logical(s)[x]
  {
    LogicalAt(s);
    LogicalAt(t);
  }

  /** Swapping two values of one part keeps the order between parts. */
  lemma OrderedSwap(v: seq<int>, own: seq<Option<Id>>, id: Id, lo: nat, hi: nat, x: nat, y: nat)
    requires |v| == |own| && Ordered(v, own) && lo <= x < hi <= |v| && lo <= y < hi
    requires forall k :: 0 <= k < |own| ==> (own[k] == Some(id) <==> lo <= k < hi)
    ensures Ordered(Swap(v, x, y), own)
  {
    var w := Swap(v, x, y);
    forall i, j | 0 <= i < j < |w| && (own[i] == own[j] ==> own[i].None?) ensures w[i] <= w[j] {
      var i' := if i == x then y else if i == y then x else i;
      var j' := if j == x then y else if j == y then x else j;
      assert w[i] == v[i'] && w[j] == v[j'];
      assert own[i'] == own[i] && own[j'] == own[j];
    }
  }

  /** A step within an activity's part that swaps two of its values, or none. */
  lemma LocalStep(s: State, t: State, original: seq<int>, id: Id, x: nat, y: nat)
    requires Inv(s, original) && OnlyMoves(s, t, id)
    requires s.acts[id].lo <= x < s.acts[id].hi && s.acts[id].lo <= y < s.acts[id].hi
    requires forall k :: s.acts[id].lo <= k < s.acts[id].hi ==> Logical(t)[k] == Swap(Logical(s), x, y)[k]
    requires PcOk(Swap(Logical(s), x, y), t.acts[id])
    ensures Inv(t, original)
  {
    var v, w := Logical(s), Swap(Logical(s), x, y);
    assert ActivityOk(s, id);
    OthersKeep(s, t, id);
    assert Logical(t) == w;
    SwapPermutes(v, x, y);
    OrderedSwap(v, s.own, id, s.acts[id].lo, s.acts[id].hi, x, y);
    forall k | k in t.acts ensures ActivityOk(t, k) {
      if k != id { OtherActivity(s, t, id, k); }
    }
  }

  lemma OtherActivity(s: State, t: State, id: Id, k: Id)
    requires OnlyMoves(s, t, id) && k != id && k in s.acts && ActivityOk(s, k)
    requires forall x :: 0 <= x < |s.own| && s.own[x] != Some(id) ==> Logical(t)[x] == Logical(s)[x]
    ensures ActivityOk(t, k)
  {
    if !s.acts[k].pc.Over? { SameValues(Logical(s), Logical(t), s.acts[k]); }
  }

  /** A step that moves no value. */
  lemma QuietStep(s: State, t: State, original: seq<int>, id: Id)
    requires Inv(s, original) && OnlyMoves(s, t, id)
    requires forall k :: s.acts[id].lo <= k < s.acts[id].hi ==> Logical(t)[k] == Logical(s)[k]
    requires s.acts[id].hi <= |s.arr| && PcOk(Logical(s), t.acts[id])
    ensures Inv(t, original)
  {
    assert ActivityOk(s, id);
    OthersKeep(s, t, id);
    assert Logical(t) == Logical(s);
    forall k | k in t.acts ensures ActivityOk(t, k) {
      if k != id { OtherActivity(s, t, id, k); }
    }
  }

  lemma Owns(s: State, id: Id, x: nat)
    requires id in s.acts && OwnOk(s, id) && s.acts[id].lo <= x < s.acts[id].hi <= |s.own| && !s.acts[id].pc.Over?
    ensures s.own[x] == Some(id)
  {
  }

  /** Activity id takes a step that writes `value` at index `at` (which may change nothing). */
  lemma Writes(s: State, t: State, original: seq<int>, id: Id, at: nat, value: int)
    requires Inv(s, original) && id in s.acts && !s.acts[id].pc.Over? && s.acts[id].lo <= at < s.acts[id].hi <= |s.arr|
    requires id in t.acts && t == s.(arr := s.arr[at := value], acts := s.acts[id := t.acts[id]])
    requires t.acts[id].lo == s.acts[id].lo && t.acts[id].hi == s.acts[id].hi && !t.acts[id].pc.Over?
    ensures OnlyMoves(s, t, id)
    ensures forall x :: s.acts[id].lo <= x < s.acts[id].hi ==>
              Logical(s)[x] == if Hole(s.acts[id]).Some? && Hole(s.acts[id]).value.0 == x then Hole(s.acts[id]).value.1 else s.arr[x]
    ensures forall x :: t.acts[id].lo <= x < t.acts[id].hi ==>
              Logical(t)[x] == if Hole(t.acts[id]).Some? && Hole(t.acts[id]).value.0 == x then Hole(t.acts[id]).value.1 else t.arr[x]
  {
    assert ActivityOk(s, id);
    Owns(s, id, at);
    OwnValues(s, id);
    assert OwnOk(t, id);
    OwnValues(t, id);
  }

  lemma ReadyStep(s: State, original: seq<int>, e: Event)
    requires Inv(s, original) && Enabled(s, e) && s.acts[e.id].pc.Ready?
    ensures Inv(Apply(s, e), original)
  {
    var t := Apply(s, e);
    assert ActivityOk(s, e.id);
    OwnValues(s, e.id);
    assert OwnOk(t, e.id);
    OwnValues(t, e.id);
    QuietStep(s, t, original, e.id);
  }

  lemma SortStep(s: State, original: seq<int>, e: Event)
    requires Inv(s, original) && Enabled(s, e) && s.acts[e.id].pc.Sort? && s.acts[e.id].pc.i < s.acts[e.id].hi
    ensures Inv(Apply(s, e), original)
  {
    var t := Apply(s, e);
    assert ActivityOk(s, e.id);
    OwnValues(s, e.id);
    assert OwnOk(t, e.id);
    OwnValues(t, e.id);
    QuietStep(s, t, original, e.id);
  }

  lemma ShiftGoesOn(s: State, original: seq<int>, e: Event)
    requires Inv(s, original) && Enabled(s, e) && s.acts[e.id].pc.Shift?
    requires s.acts[e.id].pc.j > s.acts[e.id].lo && s.arr[s.acts[e.id].pc.j - 1] > s.acts[e.id].pc.key
    ensures Inv(Apply(s, e), original)
  {
    var t, a := Apply(s, e), s.acts[e.id];
    var j := a.pc.j;
    assert ActivityOk(s, e.id);
    Writes(s, t, original, e.id, j, s.arr[j - 1]);
    ShiftKeeps(Logical(s), a.lo, j, a.pc.i);
    LocalStep(s, t, original, e.id, j - 1, j);
  }

  lemma ShiftEnds(s: State, original: seq<int>, e: Event)
    requires Inv(s, original) && Enabled(s, e) && s.acts[e.id].pc.Shift?
    requires !(s.acts[e.id].pc.j > s.acts[e.id].lo && s.arr[s.acts[e.id].pc.j - 1] > s.acts[e.id].pc.key)
    ensures Inv(Apply(s, e), original)
  {
    var t, a := Apply(s, e), s.acts[e.id];
    assert ActivityOk(s, e.id);
    Writes(s, t, original, e.id, a.pc.j, a.pc.key);
    ShiftDone(Logical(s), a.lo, a.pc.j, a.pc.i);
    QuietStep(s, t, original, e.id);
  }

  lemma ScanPasses(s: State, original: seq<int>, e: Event)
    requires Inv(s, original) && Enabled(s, e) && s.acts[e.id].pc.Scan?
    requires s.acts[e.id].pc.j < s.acts[e.id].hi - 1 && s.arr[s.acts[e.id].pc.j] > s.acts[e.id].pc.pivot
    ensures Inv(Apply(s, e), original)
  {
    var t, a := Apply(s, e), s.acts[e.id];
    assert ActivityOk(s, e.id);
    assert t == s.(arr := s.arr[a.pc.j := s.arr[a.pc.j]], acts := s.acts[e.id := t.acts[e.id]]);
    Writes(s, t, original, e.id, a.pc.j, s.arr[a.pc.j]);
    QuietStep(s, t, original, e.id);
  }

  lemma ScanSwapsOne(s: State, original: seq<int>, e: Event)
    requires Inv(s, original) && Enabled(s, e) && s.acts[e.id].pc.Scan?
    requires s.acts[e.id].pc.j < s.acts[e.id].hi - 1 && s.arr[s.acts[e.id].pc.j] <= s.acts[e.id].pc.pivot
    ensures Inv(Apply(s, e), original)
  {
    var t, a := Apply(s, e), s.acts[e.id];
    assert ActivityOk(s, e.id);
    Writes(s, t, original, e.id, a.pc.i, s.arr[a.pc.j]);
    ScanSwaps(Logical(s), a.lo, a.pc.i, a.pc.j, a.hi, a.pc.pivot);
    LocalStep(s, t, original, e.id, a.pc.i, a.pc.j);
  }

  lemma ScanEnds(s: State, original: seq<int>, e: Event)
    requires Inv(s, original) && Enabled(s, e) && s.acts[e.id].pc.Scan? && s.acts[e.id].pc.j >= s.acts[e.id].hi - 1
    ensures Inv(Apply(s, e), original)
  {
    assert ActivityOk(s, e.id);
    ScanSettlesAt(s, Apply(s, e), original, e.id);
  }

  lemma ScanSettlesAt(s: State, t: State, original: seq<int>, id: Id)
    requires Inv(s, original) && id in s.acts && s.acts[id].pc.Scan? && s.acts[id].lo <= s.acts[id].pc.i < s.acts[id].hi <= |s.arr|
    requires s.acts[id].pc.j >= s.acts[id].hi - 1
    requires var a := s.acts[id]; t == s.(arr := s.arr[a.pc.i := s.arr[a.hi - 1]], acts := s.acts[id := a.(pc := Settle(a.pc.i, s.arr[a.pc.i]))])
    ensures Inv(t, original)
  {
    var a := s.acts[id];
    assert ActivityOk(s, id);
    Writes(s, t, original, id, a.pc.i, s.arr[a.hi - 1]);
    ScanSettles(Logical(s), a.lo, a.pc.i, a.hi, a.pc.pivot);
    LocalStep(s, t, original, id, a.pc.i, a.hi - 1);
  }

  lemma FillStep(s: State, original: seq<int>, e: Event)
    requires Inv(s, original) && Enabled(s, e) && s.acts[e.id].pc.Fill?
    ensures Inv(Apply(s, e), original)
  {
    var t, a := Apply(s, e), s.acts[e.id];
    assert ActivityOk(s, e.id);
    Writes(s, t, original, e.id, a.pc.j, a.pc.t);
    QuietStep(s, t, original, e.id);
  }

  lemma SettleStep(s: State, original: seq<int>, e: Event)
    requires Inv(s, original) && Enabled(s, e) && s.acts[e.id].pc.Settle?
    ensures Inv(Apply(s, e), original)
  {
    var t, a := Apply(s, e), s.acts[e.id];
    assert ActivityOk(s, e.id);
    Writes(s, t, original, e.id, a.hi - 1, a.pc.t);
    QuietStep(s, t, original, e.id);
  }

  // ---------------------------------------------------------------- steps that hand parts over

  /** Only the parts change hands: within one activity's part, which has no hole. */
  lemma SameLogical(s: State, t: State, id: Id)
    requires |s.arr| == |s.own| == |t.own| && t.arr == s.arr && id in s.acts && OwnOk(s, id) && Hole(s.acts[id]).None?
    requires forall k :: k in s.acts && k != id ==> k in t.acts && t.acts[k] == s.acts[k]
    requires forall x :: 0 <= x < |s.own| && s.own[x] != Some(id) ==> t.own[x] == s.own[x]
    requires forall x :: 0 <= x < |s.own| && s.own[x].Some? ==> s.own[x].value in s.acts
    requires forall x :: 0 <= x < |s.own| && s.own[x] == Some(id) && t.own[x].Some? ==>
               t.own[x].value in t.acts && Hole(t.acts[t.own[x].value]).None?
    ensures Logical(t) == Logical(s)
  {
    LogicalAt(s);
    LogicalAt(t);
    forall x | 0 <= x < |s.own| ensures Logical(t)[x] == Logical(s)[x] {}
  }

  lemma Finishes(s: State, original: seq<int>, e: Event)
    requires Inv(s, original) && Enabled(s, e) && s.acts[e.id].pc.Sort? && s.acts[e.id].pc.i >= s.acts[e.id].hi
    ensures Inv(Apply(s, e), original)
  {
    var t, a, v := Apply(s, e), s.acts[e.id], Logical(s);
    assert ActivityOk(s, e.id);
    SameLogical(s, t, e.id);
    assert SortedRange(v, a.lo, a.hi);
    forall k | k in t.acts ensures ActivityOk(t, k) { assert ActivityOk(s, k); }
  }

  /** The pivot is in its final place, and the part left of it goes to its own call. */
  lemma OrderedAround(v: seq<int>, own: seq<Option<Id>>, now: seq<Option<Id>>, id: Id, left: Id, lo: nat, p: nat, hi: nat)
    requires |v| == |own| == |now| && Ordered(v, own) && lo <= p < hi <= |v| && Split(v, lo, p, hi) && left != id
    requires forall k :: 0 <= k < |own| ==> (own[k] == Some(id) <==> lo <= k < hi)
    requires forall k :: 0 <= k < |own| ==>
               now[k] == if lo <= k < p then Some(left) else if k == p then None else own[k]
    requires forall k :: 0 <= k < |own| ==> own[k] != Some(left)
    ensures Ordered(v, now)
  {
    forall x, y | 0 <= x < y < |v| && (now[x] == now[y] ==> now[x].None?) ensures v[x] <= v[y] {
      if lo <= x && y < hi { assert v[x] <= v[p] <= v[y]; }
      else { assert own[x] == own[y] ==> own[x].None?; }
    }
  }

  /** Activity id hands part of what it owns on to a new activity, or to nobody. */
  predicate HandsOver(s: State, t: State, id: Id, child: Id) {
    && |s.arr| == |s.own| == |t.own| && t.arr == s.arr && id in s.acts && OwnOk(s, id) && child !in s.acts
    && (forall x :: 0 <= x < |s.own| && s.own[x].Some? ==> s.own[x].value in s.acts)
    && (forall x :: 0 <= x < |s.own| && s.own[x] != Some(id) ==> t.own[x] == s.own[x])
    && (forall x :: 0 <= x < |s.own| && s.own[x] == Some(id) ==> t.own[x] == Some(id) || t.own[x] == Some(child) || t.own[x].None?)
  }

  lemma BystanderOk(s: State, t: State, id: Id, child: Id, k: Id)
    requires HandsOver(s, t, id, child) && Logical(t) == Logical(s)
    requires k in s.acts && k != id && k in t.acts && t.acts[k] == s.acts[k] && ActivityOk(s, k)
    ensures ActivityOk(t, k)
  {
    assert forall x :: 0 <= x < |s.own| ==> (t.own[x] == Some(k) <==> s.own[x] == Some(k));
  }

  lemma ChildOk(s: State, t: State, id: Id, child: Id, lo: nat, hi: nat)
    requires HandsOver(s, t, id, child) && child in t.acts && t.acts[child] == Activity(lo, hi, Ready) && lo <= hi <= |s.arr|
    requires forall x :: 0 <= x < |s.own| && s.own[x] == Some(id) ==> (t.own[x] == Some(child) <==> lo <= x < hi)
    requires forall x :: lo <= x < hi ==> s.own[x] == Some(id)
    ensures ActivityOk(t, child)
  {
    assert forall x :: 0 <= x < |s.own| ==> s.own[x] != Some(child);
  }

  lemma LeftShape(s: State, t: State, e: Event)
    requires Enabled(s, e) && s.acts[e.id].pc.SpawnLeft? && t == Apply(s, e) && |s.arr| == |s.own| && OwnOk(s, e.id)
    requires s.acts[e.id].lo <= s.acts[e.id].pc.p < s.acts[e.id].hi <= |s.arr|
    requires forall x :: 0 <= x < |s.own| && s.own[x].Some? ==> s.own[x].value in s.acts
    ensures HandsOver(s, t, e.id, e.child) && Logical(t) == Logical(s)
    ensures e.id in t.acts && OwnOk(t, e.id)
    ensures forall k :: k in t.acts && k != e.id ==> if k in s.acts then t.acts[k] == s.acts[k] else k == e.child
    ensures e.child in t.acts ==> ActivityOk(t, e.child)
  {
    var a := s.acts[e.id];
    SameLogical(s, t, e.id);
    if a.lo < a.pc.p { ChildOk(s, t, e.id, e.child, a.lo, a.pc.p); }
  }

  lemma LeftSpawned(s: State, original: seq<int>, e: Event)
    requires Inv(s, original) && Enabled(s, e) && s.acts[e.id].pc.SpawnLeft?
    ensures Inv(Apply(s, e), original)
  {
    var t, a, v := Apply(s, e), s.acts[e.id], Logical(s);
    assert ActivityOk(s, e.id);
    LeftShape(s, t, e);
    OrderedAround(v, s.own, t.own, e.id, e.child, a.lo, a.pc.p, a.hi);
    forall k | k in t.acts ensures ActivityOk(t, k) {
      if k in s.acts && k != e.id { BystanderOk(s, t, e.id, e.child, k); }
    }
  }

  lemma RightShape(s: State, t: State, e: Event)
    requires Enabled(s, e) && s.acts[e.id].pc.SpawnRight? && t == Apply(s, e) && |s.arr| == |s.own| && OwnOk(s, e.id)
    requires s.acts[e.id].lo <= s.acts[e.id].hi <= |s.arr|
    requires forall x :: 0 <= x < |s.own| && s.own[x].Some? ==> s.own[x].value in s.acts
    ensures HandsOver(s, t, e.id, e.child) && Logical(t) == Logical(s)
    ensures e.id in t.acts && OwnOk(t, e.id)
    ensures forall k :: k in t.acts && k != e.id ==> if k in s.acts then t.acts[k] == s.acts[k] else k == e.child
    ensures e.child in t.acts ==> ActivityOk(t, e.child)
    ensures forall x :: 0 <= x < |s.own| ==> t.own[x] == if s.own[x] == Some(e.id) then Some(e.child) else s.own[x]
  {
    var a := s.acts[e.id];
    SameLogical(s, t, e.id);
    if a.lo < a.hi { ChildOk(s, t, e.id, e.child, a.lo, a.hi); }
  }

  /** Renaming the owner of a part changes nothing for the order. */
  lemma OrderedRenamed(v: seq<int>, own: seq<Option<Id>>, now: seq<Option<Id>>, id: Id, child: Id)
    requires |v| == |own| == |now| && Ordered(v, own) && forall k :: 0 <= k < |own| ==> own[k] != Some(child)
    requires forall k :: 0 <= k < |own| ==> now[k] == if own[k] == Some(id) then Some(child) else own[k]
    ensures Ordered(v, now)
  {
  }

  lemma RightSpawned(s: State, original: seq<int>, e: Event)
    requires Inv(s, original) && Enabled(s, e) && s.acts[e.id].pc.SpawnRight?
    ensures Inv(Apply(s, e), original)
  {
    var t := Apply(s, e);
    assert ActivityOk(s, e.id);
    RightShape(s, t, e);
    OrderedRenamed(Logical(s), s.own, t.own, e.id, e.child);
    forall k | k in t.acts ensures ActivityOk(t, k) {
      if k in s.acts && k != e.id { BystanderOk(s, t, e.id, e.child, k); }
    }
  }

  // ---------------------------------------------------------------- whole runs

  lemma StepInv(s: State, original: seq<int>, e: Event)
    requires Inv(s, original) && Enabled(s, e)
    ensures Inv(Apply(s, e), original)
  {
    match s.acts[e.id].pc
    case Ready => ReadyStep(s, original, e);
    case Sort(i) => if i < s.acts[e.id].hi { SortStep(s, original, e); } else { Finishes(s, original, e); }
    case Shift(_, key, j) =>
      if j > s.acts[e.id].lo && s.arr[j - 1] > key { ShiftGoesOn(s, original, e); } else { ShiftEnds(s, original, e); }
    case Scan(pivot, _, j) =>
      if j >= s.acts[e.id].hi - 1 { ScanEnds(s, original, e); }
      else if s.arr[j] <= pivot { ScanSwapsOne(s, original, e); }
      else { ScanPasses(s, original, e); }
    case Fill(_, _, _, _) => FillStep(s, original, e);
    case Settle(_, _) => SettleStep(s, original, e);
    case SpawnLeft(_) => LeftSpawned(s, original, e);
    case SpawnRight => RightSpawned(s, original, e);
  }

  lemma InitInv(s: State, original: seq<int>)
    requires Init(s, original)
    ensures Inv(s, original)
  {
    LogicalAt(s);
    assert Logical(s) == original;
  }

  predicate IsRun(s: State, run: seq<Event>)
    decreases |run|
  {
    run == [] || (Enabled(s, run[0]) && IsRun(Apply(s, run[0]), run[1..]))
  }

  function Final(s: State, run: seq<Event>): State
    requires IsRun(s, run)
    decreases |run|
  {
    if run == [] then s else Final(Apply(s, run[0]), run[1..])
  }

  lemma {:induction false} InvRun(s: State, original: seq<int>, run: seq<Event>)
    requires Inv(s, original) && IsRun(s, run)
    ensures Inv(Final(s, run), original)
    decreases |run|
  {
    if run != [] {
      StepInv(s, original, run[0]);
      InvRun(Apply(s, run[0]), original, run[1..]);
    }
  }

  predicate AllOver(s: State) {
    forall id :: id in s.acts ==> s.acts[id].pc.Over?
  }

  lemma OwnerActive(s: State, original: seq<int>, x: nat)
    requires Inv(s, original) && x < |s.own| && s.own[x].Some?
    ensures s.own[x].value in s.acts && !s.acts[s.own[x].value].pc.Over?
  {
    assert ActivityOk(s, s.own[x].value);
  }

  lemma OwnersActive(s: State, original: seq<int>)
    requires Inv(s, original)
    ensures forall x :: 0 <= x < |s.own| && s.own[x].Some? ==> s.own[x].value in s.acts && !s.acts[s.own[x].value].pc.Over?
  {
    forall x | 0 <= x < |s.own| && s.own[x].Some? ensures s.own[x].value in s.acts && !s.acts[s.own[x].value].pc.Over? {
      OwnerActive(s, original, x);
    }
  }

  lemma AllOverMeansSorted(s: State, original: seq<int>)
    requires Inv(s, original) && AllOver(s)
    ensures Sorted(s.arr) && multiset(s.arr) == multiset(original)
  {
    LogicalAt(s);
    OwnersActive(s, original);
    assert forall x :: 0 <= x < |s.own| ==> s.own[x].None?;
    assert Logical(s) == s.arr;
  }

  /** For every array and every interleaving: once all calls have returned, the array is a sorted
      rearrangement of what it was. */
  lemma SortsAnyhow(s: State, original: seq<int>, run: seq<Event>)
    requires Init(s, original) && IsRun(s, run) && AllOver(Final(s, run))
    ensures Sorted(Final(s, run).arr) && multiset(Final(s, run).arr) == multiset(original)
  {
    InitInv(s, original);
    InvRun(s, original, run);
    AllOverMeansSorted(Final(s, run), original);
  }

  /** No two calls ever touch the same element: a step changes only elements of its own part. */
  lemma OwnPartOnly(s: State, original: seq<int>, e: Event, x: nat)
    requires Inv(s, original) && Enabled(s, e) && x < |s.arr| && s.own[x] != Some(e.id)
    ensures |Apply(s, e).arr| == |s.arr| && Apply(s, e).arr[x] == s.arr[x]
  {
    assert ActivityOk(s, e.id);
    var a := s.acts[e.id];
    assert !(a.lo <= x < a.hi) || a.pc.Over?;
  }

  /** A call with at most 1024 elements sorts them itself; a longer one partitions. */
  lemma ShortCallsInsert(s: State, e: Event)
    requires Enabled(s, e) && s.acts[e.id].pc.Ready?
    ensures Apply(s, e).acts[e.id].pc.Sort? <==> s.acts[e.id].hi - s.acts[e.id].lo <= 1024
    ensures Apply(s, e).acts[e.id].pc.Scan? <==> s.acts[e.id].hi - s.acts[e.id].lo > 1024
  {
  }

  /** A call that is not over can always go on. */
  lemma NeverStuck(s: State, original: seq<int>, id: Id, child: Id)
    requires Inv(s, original) && id in s.acts && !s.acts[id].pc.Over? && child !in s.acts
    ensures Enabled(s, Event(id, child))
  {
    assert ActivityOk(s, id);
  }
}
