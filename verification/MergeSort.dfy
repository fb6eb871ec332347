/**
 The merge sort of examples/merge_sort_comparison_ex.c:69-87, with every access to the shared arrays
 as one step, for runs in which acquires and pushes succeed.

 A call spawns two children and registers the merge as its continuation, which here starts only once
 both children are over; MergeSortJob runs these calls as tasks of the scheduler and proves that it
 keeps to that. Otherwise the steps of all calls may interleave in any way.
 */
module MergeSort {
  import opened Basics
  import opened Sorting
  import opened Merging
  import Spawning
  import Splitting

  type Id = nat

  datatype Pc =
    | Ready
    | Sort(i: nat)                                // insertion sort, outer loop head
    | Shift(i: nat, key: int, j: nat)             // inner loop head; the key belongs at the hole j
    | Forked(l: Id, r: Id)                        // returned, with its continuation registered
    | Take(i: nat, j: nat)                        // merging into temp
    | Copy(k: nat)                                // copying back, k is next
    | Over
    | Gone                                        // over, and its parent's continuation has started

  datatype Call = Call(lo: nat, hi: nat, pc: Pc)

  datatype State = State(
    arr: seq<int>, temp: seq<int>,
    calls: map<Id, Call>,
    own: seq<Id>                                  // bookkeeping: whose part an index is in
  )

  /** One step of call id; if it spawns, the children are l and r. */
  datatype Event = Event(id: Id, l: Id, r: Id)

  predicate InBounds(s: State, c: Call) {
    c.lo <= c.hi <= |s.arr| == |s.temp| &&
    match c.pc
    case Shift(i, _, j) => j < |s.arr|
    case Take(i, j) => c.lo <= i <= Mid(c.lo, c.hi) <= j <= c.hi
    case _ => true
  }

  predicate Enabled(s: State, e: Event) {
    && e.id in s.calls && InBounds(s, s.calls[e.id]) && e.l !in s.calls && e.r !in s.calls && e.l != e.r
    && match s.calls[e.id].pc
       case Forked(l, r) => l in s.calls && r in s.calls && s.calls[l].pc.Over? && s.calls[r].pc.Over?
       case Over => false
       case Gone => false
       case _ => true
  }

  function WithPc(s: State, id: Id, pc: Pc): State
    requires id in s.calls
  {
    s.(calls := s.calls[id := s.calls[id].(pc := pc)])
  }

  function Give(own: seq<Id>, lo: nat, hi: nat, to: Id): (r: seq<Id>)
    ensures |r| == |own|
    ensures forall x :: 0 <= x < |own| ==> r[x] == if lo <= x < hi then to else own[x]
  {
    seq(|own|, x requires 0 <= x < |own| => if lo <= x < hi then to else own[x])
  }

  /** concurrent_merge_sort on more than 1024 elements: both halves become children. */
  function Fork(s: State, e: Event): State
    requires Enabled(s, e)
  {
    var c := s.calls[e.id];
    var mid := Mid(c.lo, c.hi);
    s.(calls := s.calls[e.id := c.(pc := Forked(e.l, e.r))][e.l := Call(c.lo, mid, Ready)][e.r := Call(mid, c.hi, Ready)],
       own := Give(Give(s.own, c.lo, mid, e.l), mid, c.hi, e.r))
  }

  /** The continuation starts. */
  function Join(s: State, e: Event): State
    requires Enabled(s, e) && s.calls[e.id].pc.Forked?
  {
    var c := s.calls[e.id];
    var l, r := c.pc.l, c.pc.r;
    s.(calls := s.calls[l := s.calls[l].(pc := Gone)][r := s.calls[r].(pc := Gone)][e.id := c.(pc := Take(c.lo, Mid(c.lo, c.hi)))],
       own := Give(s.own, c.lo, c.hi, e.id))
  }

  function Apply(s: State, e: Event): State
    requires Enabled(s, e)
  {
    var id, c := e.id, s.calls[e.id];
    match c.pc
    case Ready => if c.hi - c.lo <= BASE_CASE_THRESHOLD then WithPc(s, id, Sort(c.lo + 1)) else Fork(s, e)
    case Sort(i) => WithPc(s, id, if i < c.hi then Shift(i, s.arr[i], i) else Over)
    case Shift(i, key, j) =>
      if j > c.lo && s.arr[j - 1] > key then WithPc(s, id, Shift(i, key, j - 1)).(arr := s.arr[j := s.arr[j - 1]])
      else WithPc(s, id, Sort(i + 1)).(arr := s.arr[j := key])
    case Forked(_, _) => Join(s, e)
    case Take(i, j) =>
      var mid := Mid(c.lo, c.hi);
      var k := i + (j - mid);
      if i < mid && (j == c.hi || s.arr[i] <= s.arr[j])
      then WithPc(s, id, Take(i + 1, j)).(temp := s.temp[k := s.arr[i]])
      else if j < c.hi
      then WithPc(s, id, Take(i, j + 1)).(temp := s.temp[k := s.arr[j]])
      else WithPc(s, id, Copy(c.lo))
    case Copy(k) =>
      if k < c.hi then WithPc(s, id, Copy(k + 1)).(arr := s.arr[k := s.temp[k]])
      else WithPc(s, id, Over)
    case _ => s
  }

  // ---------------------------------------------------------------- the logical array

  /** The value at x: the key belongs in the hole of an insertion sort, and while a merge is copied
      back its result is in temp. */
  function ValueAt(s: State, x: nat): int
    requires x < |s.arr| == |s.own| == |s.temp|
  {
    if s.own[x] !in s.calls then s.arr[x]
    else match s.calls[s.own[x]].pc
         case Shift(_, key, j) => if x == j then key else s.arr[x]
         case Copy(_) => s.temp[x]
         case _ => s.arr[x]
  }

  function ValuesUpTo(s: State, n: nat): (r: seq<int>)
    requires n <= |s.arr| == |s.own| == |s.temp|
    ensures |r| == n
  {
    if n == 0 then [] else ValuesUpTo(s, n - 1) + [ValueAt(s, n - 1)]
  }

  function Logical(s: State): (r: seq<int>)
    requires |s.arr| == |s.own| == |s.temp|
    ensures |r| == |s.arr|
  {
    ValuesUpTo(s, |s.arr|)
  }

  lemma {:induction false} ValuesAt(s: State, n: nat)
    requires n <= |s.arr| == |s.own| == |s.temp|
    ensures forall x :: 0 <= x < n ==> ValuesUpTo(s, n)[x] == ValueAt(s, x)
  {
    if n > 0 { ValuesAt(s, n - 1); }
  }

  lemma LogicalAt(s: State)
    requires |s.arr| == |s.own| == |s.temp|
    ensures forall x :: 0 <= x < |s.arr| ==> Logical(s)[x] == ValueAt(s, x)
  {
    ValuesAt(s, |s.arr|);
  }

  // ---------------------------------------------------------------- the invariant

  /** The call works on its part, or has finished it and still answers for it. */
  predicate Holds(c: Call) {
    !c.pc.Forked? && !c.pc.Gone?
  }

  predicate PcOk(v: seq<int>, arr: seq<int>, temp: seq<int>, c: Call)
    requires c.lo <= c.hi <= |v| == |arr| == |temp|
  {
    match c.pc
    case Sort(i) => c.lo < i && (i <= c.hi || i == c.lo + 1) && SortedRange(v, c.lo, if i <= c.hi then i else c.hi)
    case Shift(i, _, j) => i < c.hi && AlmostSorted(v, c.lo, j, i)
    case Take(i, j) => c.lo <= i <= Mid(c.lo, c.hi) <= j <= c.hi && TakenInOrder(v, temp, c.lo, Mid(c.lo, c.hi), c.hi, i, j)
    case Copy(k) => c.lo <= k <= c.hi && SortedRange(v, c.lo, c.hi) && forall x :: c.lo <= x < k ==> arr[x] == temp[x]
    case Over => SortedRange(v, c.lo, c.hi)
    case _ => true
  }

  ghost predicate BagOk(v: seq<int>, temp: seq<int>, original: seq<int>, c: Call)
    requires c.lo <= c.hi <= |v| == |original| == |temp|
  {
    && SameElements(v, original, c.lo, c.hi)
    && (c.pc.Ready? ==> forall x :: c.lo <= x < c.hi ==> v[x] == original[x])
    && (c.pc.Take? && c.lo <= c.pc.i <= Mid(c.lo, c.hi) <= c.pc.j <= c.hi ==>
          TakenBag(v, temp, c.lo, Mid(c.lo, c.hi), c.pc.i, c.pc.j))
  }

  predicate OwnOk(s: State, id: Id)
    requires id in s.calls
  {
    forall x :: 0 <= x < |s.own| ==>
      (s.own[x] == id <==> s.calls[id].lo <= x < s.calls[id].hi && Holds(s.calls[id]))
  }

  /** Two children that meet in the middle, and no other call has them. */
  predicate ChildrenOk(s: State, id: Id)
    requires id in s.calls
  {
    var c := s.calls[id];
    c.pc.Forked? && c.lo <= c.hi ==>
      && c.pc.l in s.calls && c.pc.r in s.calls && c.pc.l != c.pc.r && c.pc.l != id && c.pc.r != id
      && s.calls[c.pc.l].lo == c.lo && s.calls[c.pc.l].hi == Mid(c.lo, c.hi) == s.calls[c.pc.r].lo && s.calls[c.pc.r].hi == c.hi
      && !s.calls[c.pc.l].pc.Gone? && !s.calls[c.pc.r].pc.Gone?
  }

  /** Call k is a child of call id. */
  predicate IsChild(s: State, id: Id, k: Id) {
    id in s.calls && s.calls[id].pc.Forked? && (s.calls[id].pc.l == k || s.calls[id].pc.r == k)
  }

  ghost predicate SizesOk(s: State, original: seq<int>) {
    |s.arr| == |s.own| == |s.temp| == |original|
  }

  ghost predicate CallOk(s: State, original: seq<int>, id: Id)
    requires id in s.calls && SizesOk(s, original)
  {
    var c := s.calls[id];
    && c.lo <= c.hi <= |s.arr| && OwnOk(s, id) && ChildrenOk(s, id)
    && (Holds(c) ==> PcOk(Logical(s), s.arr, s.temp, c) && BagOk(Logical(s), s.temp, original, c))
  }

  ghost predicate Inv(s: State, original: seq<int>) {
    && SizesOk(s, original)
    && (forall id :: id in s.calls ==> CallOk(s, original, id))
    && (forall i, j, k :: IsChild(s, i, k) && IsChild(s, j, k) ==> i == j)
    && 0 in s.calls && s.calls[0].lo == 0 && s.calls[0].hi == |original| && !s.calls[0].pc.Gone?
    && (forall i :: !IsChild(s, i, 0))
  }

  /** One call for the whole array; temp may hold anything. */
  predicate Init(s: State, original: seq<int>) {
    && s.arr == original && |s.temp| == |original| && s.calls == map[0 := Call(0, |original|, Ready)]
    && s.own == seq(|original|, _ => 0)
  }

  // ---------------------------------------------------------------- steps within one part

  /** t differs from s in one call that holds its part, and in that part. */
  predicate OnlyMoves(s: State, t: State, id: Id) {
    && |s.arr| == |s.own| == |s.temp| == |t.arr| == |t.temp| && t.own == s.own && id in s.calls && id in t.calls
    && t.calls == s.calls[id := t.calls[id]]
    && t.calls[id].lo == s.calls[id].lo && t.calls[id].hi == s.calls[id].hi && Holds(s.calls[id]) && Holds(t.calls[id])
    && forall x :: 0 <= x < |s.own| && s.own[x] != id ==> t.arr[x] == s.arr[x] && t.temp[x] == s.temp[x]
  }

  /** What a call knows depends on its own part only. */
  lemma PcOnPart(v: seq<int>, arr: seq<int>, temp: seq<int>, v': seq<int>, arr': seq<int>, temp': seq<int>, c: Call)
    requires c.lo <= c.hi <= |v| == |arr| == |temp| == |v'| == |arr'| == |temp'| && PcOk(v, arr, temp, c)
    requires forall x :: c.lo <= x < c.hi ==> v'[x] == v[x] && arr'[x] == arr[x] && temp'[x] == temp[x]
    ensures PcOk(v', arr', temp', c)
  {
    if c.pc.Shift? { assert AlmostSorted(v, c.lo, c.pc.j, c.pc.i); }
  }

  lemma SameTaken(v: seq<int>, temp: seq<int>, v': seq<int>, temp': seq<int>, lo: nat, mid: nat, i: nat, j: nat)
    requires lo <= i <= mid <= j <= |v| == |temp| == |v'| == |temp'| && TakenBag(v, temp, lo, mid, i, j)
    requires forall x :: lo <= x < j ==> v'[x] == v[x] && temp'[x] == temp[x]
    ensures TakenBag(v', temp', lo, mid, i, j)
  {
    ElementsSame(v', v, lo, i);
    ElementsSame(v', v, mid, j);
    ElementsSame(temp', temp, lo, i + (j - mid));
  }

  lemma BagOnPart(v: seq<int>, temp: seq<int>, v': seq<int>, temp': seq<int>, original: seq<int>, c: Call)
    requires c.lo <= c.hi <= |v| == |temp| == |v'| == |temp'| == |original| && BagOk(v, temp, original, c)
    requires forall x :: c.lo <= x < c.hi ==> v'[x] == v[x] && temp'[x] == temp[x]
    ensures BagOk(v', temp', original, c)
  {
    ElementsSame(v', v, c.lo, c.hi);
    if c.pc.Take? && c.lo <= c.pc.i <= Mid(c.lo, c.hi) <= c.pc.j <= c.hi {
      SameTaken(v, temp, v', temp', c.lo, Mid(c.lo, c.hi), c.pc.i, c.pc.j);
    }
  }

  lemma OthersKeep(s: State, t: State, id: Id)
    requires OnlyMoves(s, t, id)
    ensures forall x :: 0 <= x < |s.own| && s.own[x] != id ==> Logical(t)[x] == Logical(s)[x]
  {
    LogicalAt(s);
    LogicalAt(t);
  }

  lemma OtherCall(s: State, t: State, original: seq<int>, id: Id, k: Id)
    requires OnlyMoves(s, t, id) && SizesOk(s, original) && k != id && k in s.calls && CallOk(s, original, k)
    requires !t.calls[id].pc.Gone?
    requires forall x :: 0 <= x < |s.own| && s.own[x] != id ==> Logical(t)[x] == Logical(s)[x]
    ensures CallOk(t, original, k)
  {
    var c := s.calls[k];
    if Holds(c) {
      PcOnPart(Logical(s), s.arr, s.temp, Logical(t), t.arr, t.temp, c);
      BagOnPart(Logical(s), s.temp, Logical(t), t.temp, original, c);
    }
  }

  /** What call id may rely on. */
  ghost predicate CallsOwn(s: State, original: seq<int>, id: Id) {
    SizesOk(s, original) && id in s.calls && CallOk(s, original, id)
  }

  /** Call id moves on within its part, and knows what it should know. */
  ghost predicate Advances(s: State, t: State, original: seq<int>, id: Id) {
    && SizesOk(s, original) && OnlyMoves(s, t, id) && s.calls[id].lo <= s.calls[id].hi <= |s.arr|
    && PcOk(Logical(t), t.arr, t.temp, t.calls[id]) && BagOk(Logical(t), t.temp, original, t.calls[id])
  }

  lemma LocalStep(s: State, t: State, original: seq<int>, id: Id)
    requires Inv(s, original) && Advances(s, t, original, id)
    ensures Inv(t, original)
  {
    assert CallOk(s, original, id);
    OthersKeep(s, t, id);
    forall k | k in t.calls ensures CallOk(t, original, k) { if k != id { OtherCall(s, t, original, id, k); } }
    forall i, k | IsChild(t, i, k) ensures IsChild(s, i, k) {}
  }

  lemma Owns(s: State, id: Id, x: nat)
    requires id in s.calls && OwnOk(s, id) && s.calls[id].lo <= x < s.calls[id].hi <= |s.own| && Holds(s.calls[id])
    ensures s.own[x] == id
  {
  }

  /** The values in a call's own part. */
  lemma OwnValues(s: State, id: Id)
    requires |s.arr| == |s.own| == |s.temp| && id in s.calls && OwnOk(s, id) && Holds(s.calls[id]) && s.calls[id].hi <= |s.arr|
    ensures forall x :: s.calls[id].lo <= x < s.calls[id].hi ==>
              Logical(s)[x] == if s.calls[id].pc.Copy? then s.temp[x]
                               else if s.calls[id].pc.Shift? && s.calls[id].pc.j == x then s.calls[id].pc.key else s.arr[x]
  {
    LogicalAt(s);
  }

  /** The new state moves no value: the part looks as before. */
  lemma QuietStep(s: State, t: State, original: seq<int>, id: Id)
    requires CallsOwn(s, original, id) && OnlyMoves(s, t, id) && s.calls[id].lo <= s.calls[id].hi <= |s.arr|
    requires forall x :: s.calls[id].lo <= x < s.calls[id].hi ==> Logical(t)[x] == Logical(s)[x]
    requires PcOk(Logical(s), t.arr, t.temp, t.calls[id])
    requires !t.calls[id].pc.Take? && !t.calls[id].pc.Ready?
    ensures Advances(s, t, original, id)
  {
    PcOnPart(Logical(s), t.arr, t.temp, Logical(t), t.arr, t.temp, t.calls[id]);
    ElementsSame(Logical(t), Logical(s), s.calls[id].lo, s.calls[id].hi);
  }

  /** The insertion sort's steps but for the shift. */
  lemma SortStep(s: State, original: seq<int>, e: Event)
    requires CallsOwn(s, original, e.id) && Enabled(s, e) && s.calls[e.id].pc.Sort?
    ensures Advances(s, Apply(s, e), original, e.id)
  {
    var t := Apply(s, e);
    OwnValues(s, e.id);
    assert OwnOk(t, e.id);
    OwnValues(t, e.id);
    QuietStep(s, t, original, e.id);
  }

  lemma LeafStarts(s: State, original: seq<int>, e: Event)
    requires CallsOwn(s, original, e.id) && Enabled(s, e) && s.calls[e.id].pc.Ready? && s.calls[e.id].hi - s.calls[e.id].lo <= BASE_CASE_THRESHOLD
    ensures Advances(s, Apply(s, e), original, e.id)
  {
    var t := Apply(s, e);
    OwnValues(s, e.id);
    assert OwnOk(t, e.id);
    OwnValues(t, e.id);
    QuietStep(s, t, original, e.id);
  }

  lemma ShiftEnds(s: State, original: seq<int>, e: Event)
    requires CallsOwn(s, original, e.id) && Enabled(s, e) && s.calls[e.id].pc.Shift?
    requires !(s.calls[e.id].pc.j > s.calls[e.id].lo && s.arr[s.calls[e.id].pc.j - 1] > s.calls[e.id].pc.key)
    ensures Advances(s, Apply(s, e), original, e.id)
  {
    var t, c := Apply(s, e), s.calls[e.id];
    Owns(s, e.id, c.pc.j);
    OwnValues(s, e.id);
    assert OwnOk(t, e.id);
    OwnValues(t, e.id);
    ShiftDone(Logical(s), c.lo, c.pc.j, c.pc.i);
    QuietStep(s, t, original, e.id);
  }

  lemma ShiftGoesOn(s: State, original: seq<int>, e: Event)
    requires CallsOwn(s, original, e.id) && Enabled(s, e) && s.calls[e.id].pc.Shift?
    requires s.calls[e.id].pc.j > s.calls[e.id].lo && s.arr[s.calls[e.id].pc.j - 1] > s.calls[e.id].pc.key
    ensures Advances(s, Apply(s, e), original, e.id)
  {
    var t, c, v := Apply(s, e), s.calls[e.id], Logical(s);
    var j := c.pc.j;
    Owns(s, e.id, j);
    OwnValues(s, e.id);
    assert OwnOk(t, e.id);
    OwnValues(t, e.id);
    ShiftKeeps(v, c.lo, j, c.pc.i);
    SwapStep(s, t, original, e.id, j - 1, j);
  }

  lemma SwappedElements(v: seq<int>, w: seq<int>, lo: nat, hi: nat, x: nat, y: nat)
    requires lo <= x < hi <= |v| == |w| && lo <= y < hi
    requires forall k :: lo <= k < hi ==> w[k] == Swap(v, x, y)[k]
    ensures SameElements(w, v, lo, hi)
  {
    ElementsSwap(v, lo, hi, x, y);
    ElementsSame(w, Swap(v, x, y), lo, hi);
  }

  lemma SwapStep(s: State, t: State, original: seq<int>, id: Id, x: nat, y: nat)
    requires CallsOwn(s, original, id) && OnlyMoves(s, t, id)
    requires s.calls[id].lo <= x < s.calls[id].hi <= |s.arr| && s.calls[id].lo <= y < s.calls[id].hi
    requires forall k :: s.calls[id].lo <= k < s.calls[id].hi ==> Logical(t)[k] == Swap(Logical(s), x, y)[k]
    requires PcOk(Swap(Logical(s), x, y), t.arr, t.temp, t.calls[id]) && !t.calls[id].pc.Take? && !t.calls[id].pc.Ready?
    ensures Advances(s, t, original, id)
  {
    var c, w := s.calls[id], Swap(Logical(s), x, y);
    PcOnPart(w, t.arr, t.temp, Logical(t), t.arr, t.temp, t.calls[id]);
    SwappedElements(Logical(s), Logical(t), c.lo, c.hi, x, y);
  }

  /** The next element comes from the left half. */
  predicate FromLeft(s: State, c: Call)
    requires c.pc.Take? && InBounds(s, c)
  {
    c.pc.i < Mid(c.lo, c.hi) && (c.pc.j == c.hi || s.arr[c.pc.i] <= s.arr[c.pc.j])
  }

  /** A write to temp within the part. */
  lemma WritesTemp(s: State, t: State, original: seq<int>, id: Id, k: nat, value: int)
    requires CallsOwn(s, original, id) && s.calls[id].pc.Take? && s.calls[id].lo <= k < s.calls[id].hi <= |s.arr|
    requires id in t.calls && t == s.(temp := s.temp[k := value], calls := s.calls[id := t.calls[id]])
    requires t.calls[id].lo == s.calls[id].lo && t.calls[id].hi == s.calls[id].hi && t.calls[id].pc.Take?
    ensures OnlyMoves(s, t, id)
    ensures forall x :: s.calls[id].lo <= x < s.calls[id].hi ==> Logical(t)[x] == Logical(s)[x] == s.arr[x]
  {
    Owns(s, id, k);
    OwnValues(s, id);
    assert OwnOk(t, id);
    OwnValues(t, id);
  }

  /** One element from the left half, as far as the call is concerned: v and v' are the array as seen
      before and after. */
  lemma LeftStep(v: seq<int>, v': seq<int>, arr: seq<int>, temp: seq<int>, original: seq<int>, c: Call)
    requires c.lo <= c.hi <= |v| == |v'| == |arr| == |temp| == |original| && c.pc.Take?
    requires PcOk(v, arr, temp, c) && BagOk(v, temp, original, c) && forall x :: c.lo <= x < c.hi ==> v'[x] == v[x]
    requires c.pc.i < Mid(c.lo, c.hi) && (c.pc.j < c.hi ==> v[c.pc.i] <= v[c.pc.j])
    ensures var temp' := temp[c.pc.i + (c.pc.j - Mid(c.lo, c.hi)) := v[c.pc.i]];
            var c' := c.(pc := Take(c.pc.i + 1, c.pc.j));
            PcOk(v', arr, temp', c') && BagOk(v', temp', original, c')
  {
    var i, j, mid := c.pc.i, c.pc.j, Mid(c.lo, c.hi);
    var temp', c' := temp[i + (j - mid) := v[i]], c.(pc := Take(i + 1, j));
    LeftInOrder(v, temp, c.lo, mid, c.hi, i, j);
    LeftBag(v, temp, c.lo, mid, i, j);
    PcOnPart(v, arr, temp', v', arr, temp', c');
    BagOnPart(v, temp', v', temp', original, c');
  }

  lemma RightStep(v: seq<int>, v': seq<int>, arr: seq<int>, temp: seq<int>, original: seq<int>, c: Call)
    requires c.lo <= c.hi <= |v| == |v'| == |arr| == |temp| == |original| && c.pc.Take?
    requires PcOk(v, arr, temp, c) && BagOk(v, temp, original, c) && forall x :: c.lo <= x < c.hi ==> v'[x] == v[x]
    requires c.pc.j < c.hi && (c.pc.i < Mid(c.lo, c.hi) ==> v[c.pc.j] <= v[c.pc.i])
    ensures var temp' := temp[c.pc.i + (c.pc.j - Mid(c.lo, c.hi)) := v[c.pc.j]];
            var c' := c.(pc := Take(c.pc.i, c.pc.j + 1));
            PcOk(v', arr, temp', c') && BagOk(v', temp', original, c')
  {
    var i, j, mid := c.pc.i, c.pc.j, Mid(c.lo, c.hi);
    var temp', c' := temp[i + (j - mid) := v[j]], c.(pc := Take(i, j + 1));
    RightInOrder(v, temp, c.lo, mid, c.hi, i, j);
    RightBag(v, temp, c.lo, mid, i, j);
    PcOnPart(v, arr, temp', v', arr, temp', c');
    BagOnPart(v, temp', v', temp', original, c');
  }

  lemma TakesLeft(s: State, t: State, original: seq<int>, id: Id)
    requires CallsOwn(s, original, id) && s.calls[id].pc.Take? && InBounds(s, s.calls[id])
    requires s.calls[id].pc.i < Mid(s.calls[id].lo, s.calls[id].hi)
    requires s.calls[id].pc.j < s.calls[id].hi ==> s.arr[s.calls[id].pc.i] <= s.arr[s.calls[id].pc.j]
    requires var c := s.calls[id];
             t == s.(temp := s.temp[c.pc.i + (c.pc.j - Mid(c.lo, c.hi)) := s.arr[c.pc.i]],
                     calls := s.calls[id := c.(pc := Take(c.pc.i + 1, c.pc.j))])
    ensures Advances(s, t, original, id)
  {
    var c := s.calls[id];
    WritesTemp(s, t, original, id, c.pc.i + (c.pc.j - Mid(c.lo, c.hi)), s.arr[c.pc.i]);
    SeenLeft(s, t, original, id);
  }

  lemma SeenLeft(s: State, t: State, original: seq<int>, id: Id)
    requires CallsOwn(s, original, id) && s.calls[id].pc.Take? && InBounds(s, s.calls[id]) && OnlyMoves(s, t, id)
    requires forall x :: s.calls[id].lo <= x < s.calls[id].hi ==> Logical(t)[x] == Logical(s)[x] == s.arr[x]
    requires s.calls[id].pc.i < Mid(s.calls[id].lo, s.calls[id].hi)
    requires s.calls[id].pc.j < s.calls[id].hi ==> s.arr[s.calls[id].pc.i] <= s.arr[s.calls[id].pc.j]
    requires var c := s.calls[id];
             && t.temp == s.temp[c.pc.i + (c.pc.j - Mid(c.lo, c.hi)) := s.arr[c.pc.i]]
             && t.arr == s.arr && t.calls[id] == c.(pc := Take(c.pc.i + 1, c.pc.j))
    ensures Advances(s, t, original, id)
  {
    LeftStep(Logical(s), Logical(t), s.arr, s.temp, original, s.calls[id]);
  }

  lemma TakesRight(s: State, t: State, original: seq<int>, id: Id)
    requires CallsOwn(s, original, id) && s.calls[id].pc.Take? && InBounds(s, s.calls[id])
    requires s.calls[id].pc.j < s.calls[id].hi
    requires s.calls[id].pc.i < Mid(s.calls[id].lo, s.calls[id].hi) ==> s.arr[s.calls[id].pc.j] <= s.arr[s.calls[id].pc.i]
    requires var c := s.calls[id];
             t == s.(temp := s.temp[c.pc.i + (c.pc.j - Mid(c.lo, c.hi)) := s.arr[c.pc.j]],
                     calls := s.calls[id := c.(pc := Take(c.pc.i, c.pc.j + 1))])
    ensures Advances(s, t, original, id)
  {
    var c := s.calls[id];
    WritesTemp(s, t, original, id, c.pc.i + (c.pc.j - Mid(c.lo, c.hi)), s.arr[c.pc.j]);
    SeenRight(s, t, original, id);
  }

  lemma SeenRight(s: State, t: State, original: seq<int>, id: Id)
    requires CallsOwn(s, original, id) && s.calls[id].pc.Take? && InBounds(s, s.calls[id]) && OnlyMoves(s, t, id)
    requires forall x :: s.calls[id].lo <= x < s.calls[id].hi ==> Logical(t)[x] == Logical(s)[x] == s.arr[x]
    requires s.calls[id].pc.j < s.calls[id].hi
    requires s.calls[id].pc.i < Mid(s.calls[id].lo, s.calls[id].hi) ==> s.arr[s.calls[id].pc.j] <= s.arr[s.calls[id].pc.i]
    requires var c := s.calls[id];
             && t.temp == s.temp[c.pc.i + (c.pc.j - Mid(c.lo, c.hi)) := s.arr[c.pc.j]]
             && t.arr == s.arr && t.calls[id] == c.(pc := Take(c.pc.i, c.pc.j + 1))
    ensures Advances(s, t, original, id)
  {
    RightStep(Logical(s), Logical(t), s.arr, s.temp, original, s.calls[id]);
  }

  lemma TakeStep(s: State, original: seq<int>, e: Event)
    requires CallsOwn(s, original, e.id) && Enabled(s, e) && s.calls[e.id].pc.Take?
    ensures Advances(s, Apply(s, e), original, e.id)
  {
    if FromLeft(s, s.calls[e.id]) { TakesLeft(s, Apply(s, e), original, e.id); }
    else if s.calls[e.id].pc.j < s.calls[e.id].hi { TakesRight(s, Apply(s, e), original, e.id); }
    else { TakeEnds(s, original, e); }
  }

  /** Everything is in temp: from now on its values count. */
  lemma TakeEnds(s: State, original: seq<int>, e: Event)
    requires CallsOwn(s, original, e.id) && Enabled(s, e) && s.calls[e.id].pc.Take?
    requires s.calls[e.id].pc.i == Mid(s.calls[e.id].lo, s.calls[e.id].hi) && s.calls[e.id].pc.j == s.calls[e.id].hi
    ensures Advances(s, Apply(s, e), original, e.id)
  {
    var c := s.calls[e.id];
    var t := s.(calls := s.calls[e.id := c.(pc := Copy(c.lo))]);
    assert Apply(s, e) == t;
    AllTaken(Logical(s), s.temp, c.lo, Mid(c.lo, c.hi), c.hi);
    CopyBegins(s, t, original, e.id);
  }

  lemma CopyBegins(s: State, t: State, original: seq<int>, id: Id)
    requires SizesOk(s, original) && id in s.calls && OwnOk(s, id) && s.calls[id].lo <= s.calls[id].hi <= |s.arr| && s.calls[id].pc.Take?
    requires t == s.(calls := s.calls[id := s.calls[id].(pc := Copy(s.calls[id].lo))])
    requires SortedRange(s.temp, s.calls[id].lo, s.calls[id].hi)
    requires SameElements(s.temp, original, s.calls[id].lo, s.calls[id].hi)
    ensures Advances(s, t, original, id)
  {
    var c := s.calls[id];
    assert OwnOk(t, id);
    OwnValues(t, id);
    PcOnPart(s.temp, t.arr, t.temp, Logical(t), t.arr, t.temp, t.calls[id]);
    ElementsSame(Logical(t), s.temp, c.lo, c.hi);
  }

  lemma CopyStep(s: State, original: seq<int>, e: Event)
    requires CallsOwn(s, original, e.id) && Enabled(s, e) && s.calls[e.id].pc.Copy?
    ensures Advances(s, Apply(s, e), original, e.id)
  {
    var t, c := Apply(s, e), s.calls[e.id];
    if c.pc.k < c.hi { Owns(s, e.id, c.pc.k); }
    OwnValues(s, e.id);
    assert OwnOk(t, e.id);
    OwnValues(t, e.id);
    QuietStep(s, t, original, e.id);
  }

  // ---------------------------------------------------------------- a call forks

  predicate Forks(s: State, e: Event) {
    Enabled(s, e) && s.calls[e.id].pc.Ready? && s.calls[e.id].hi - s.calls[e.id].lo > BASE_CASE_THRESHOLD
  }

  /** Only the parts change hands, between calls without holes. */
  lemma SameLogical(s: State, t: State)
    requires |s.arr| == |s.own| == |s.temp| == |t.own| && t.arr == s.arr && t.temp == s.temp
    requires forall x :: 0 <= x < |s.own| ==>
               (t.own[x] == s.own[x] && s.own[x] in s.calls && s.own[x] in t.calls && t.calls[t.own[x]] == s.calls[s.own[x]]) ||
               (s.own[x] in s.calls && Plain(s.calls[s.own[x]]) && t.own[x] in t.calls && Plain(t.calls[t.own[x]]))
    ensures Logical(t) == Logical(s)
  {
    LogicalAt(s);
    LogicalAt(t);
    forall x | 0 <= x < |s.own| ensures Logical(t)[x] == Logical(s)[x] {}
  }

  predicate Plain(c: Call) {
    !c.pc.Shift? && !c.pc.Copy?
  }

  /** What forking does to the ranges and to who is whose child. */
  lemma ForkShape(s: State, original: seq<int>, e: Event)
    requires CallsOwn(s, original, e.id) && Forks(s, e)
    requires forall x :: 0 <= x < |s.own| ==> s.own[x] in s.calls
    ensures var t := Apply(s, e);
            SizesOk(t, original) && Logical(t) == Logical(s) && (forall x :: 0 <= x < |t.own| ==> t.own[x] in t.calls)
  {
    var t, c := Apply(s, e), s.calls[e.id];
    forall x | 0 <= x < |s.own|
      ensures (t.own[x] == s.own[x] && s.own[x] in s.calls && s.own[x] in t.calls && t.calls[t.own[x]] == s.calls[s.own[x]]) ||
              (s.own[x] in s.calls && Plain(s.calls[s.own[x]]) && t.own[x] in t.calls && Plain(t.calls[t.own[x]]))
    {
      assert s.own[x] == e.id <==> c.lo <= x < c.hi;
    }
    SameLogical(s, t);
  }

  lemma ForkedParent(s: State, original: seq<int>, e: Event)
    requires CallsOwn(s, original, e.id) && Forks(s, e)
    ensures CallsOwn(Apply(s, e), original, e.id)
  {
    assert OwnOk(Apply(s, e), e.id);
  }

  lemma ForkedChild(s: State, original: seq<int>, e: Event, k: Id)
    requires CallsOwn(s, original, e.id) && Forks(s, e) && (k == e.l || k == e.r)
    requires forall x :: 0 <= x < |s.own| ==> s.own[x] in s.calls
    requires SizesOk(Apply(s, e), original) && Logical(Apply(s, e)) == Logical(s)
    ensures CallsOwn(Apply(s, e), original, k)
  {
    var t, c := Apply(s, e), s.calls[e.id];
    ElementsSame(Logical(s), original, t.calls[k].lo, t.calls[k].hi);
    assert OwnOk(t, k);
  }

  /** A call that an event does not concern, and whose part stays as it is. */
  lemma Bystander(s: State, t: State, original: seq<int>, k: Id)
    requires CallsOwn(s, original, k) && SizesOk(t, original) && k in t.calls && t.calls[k] == s.calls[k]
    requires t.arr == s.arr && t.temp == s.temp && Logical(t) == Logical(s)
    requires forall x :: 0 <= x < |s.own| ==> (t.own[x] == k <==> s.own[x] == k)
    requires ChildrenOk(t, k)
    ensures CallsOwn(t, original, k)
  {
    assert OwnOk(t, k);
  }

  lemma ForkOther(s: State, t: State, original: seq<int>, e: Event, k: Id)
    requires CallsOwn(s, original, e.id) && Forks(s, e) && t == Apply(s, e) && k != e.id && CallsOwn(s, original, k)
    requires SizesOk(t, original) && Logical(t) == Logical(s)
    ensures CallsOwn(t, original, k)
  {
    Bystander(s, t, original, k);
  }

  lemma ForkCalls(s: State, t: State, original: seq<int>, e: Event, k: Id)
    requires Inv(s, original) && Forks(s, e) && t == Apply(s, e) && k in t.calls
    requires SizesOk(t, original) && Logical(t) == Logical(s)
    requires forall x :: 0 <= x < |s.own| ==> s.own[x] in s.calls
    ensures CallsOwn(t, original, k)
  {
    assert CallsOwn(s, original, e.id);
    if k == e.id { ForkedParent(s, original, e); }
    else if k == e.l || k == e.r { ForkedChild(s, original, e, k); }
    else { assert CallsOwn(s, original, k); ForkOther(s, t, original, e, k); }
  }

  lemma ForkInv(s: State, original: seq<int>, e: Event)
    requires Inv(s, original) && Forks(s, e) && forall x :: 0 <= x < |s.own| ==> s.own[x] in s.calls
    ensures Inv(Apply(s, e), original)
  {
    var t := Apply(s, e);
    ForkShape(s, original, e) by { assert CallsOwn(s, original, e.id); }
    forall k | k in t.calls ensures CallOk(t, original, k) { ForkCalls(s, t, original, e, k); }
    ForkedOnce(s, t, original, e);
    assert 0 in t.calls && t.calls[0].lo == 0 && t.calls[0].hi == |original| && !t.calls[0].pc.Gone?;
  }

  /** The children are new, so nobody else has them. */
  lemma ForkedOnce(s: State, t: State, original: seq<int>, e: Event)
    requires Inv(s, original) && Forks(s, e) && t == Apply(s, e)
    ensures forall i, j, k :: IsChild(t, i, k) && IsChild(t, j, k) ==> i == j
    ensures forall i :: !IsChild(t, i, 0)
  {
    forall i, k | IsChild(t, i, k) ensures if i == e.id then k == e.l || k == e.r else IsChild(s, i, k) && k in s.calls {
      if i in s.calls { assert CallOk(s, original, i); }
      ForkedChildOf(s, e, i, k);
    }
  }

  lemma ForkedChildOf(s: State, e: Event, i: Id, k: Id)
    requires Forks(s, e) && IsChild(Fork(s, e), i, k)
    requires i in s.calls ==> s.calls[i].lo <= s.calls[i].hi && ChildrenOk(s, i)
    ensures if i == e.id then k == e.l || k == e.r else IsChild(s, i, k) && k in s.calls
  {
  }

  /** A call with at most 1024 elements sorts them itself; a longer one forks. */
  lemma ShortCallsInsert(s: State, e: Event)
    requires Enabled(s, e) && s.calls[e.id].pc.Ready?
    ensures Apply(s, e).calls[e.id].pc.Sort? <==> s.calls[e.id].hi - s.calls[e.id].lo <= 1024
    ensures Forks(s, e) <==> s.calls[e.id].hi - s.calls[e.id].lo > 1024
  {
  }

  /** The two calls that a fork makes are the children that scheduler_spawn_subtasks makes of the call's
      range with the chunk size that concurrent_merge_sort asks for, when it gets two nodes and room. */
  lemma ForkIsSpawn(s: State, e: Event, env: nat -> Spawning.Pass)
    requires Forks(s, e) && env(0).nodes >= 2 && env(0).room >= 2
    ensures e.l in Apply(s, e).calls && e.r in Apply(s, e).calls
    ensures Apply(s, e).calls[e.l].pc.Ready? && Apply(s, e).calls[e.r].pc.Ready?
    ensures Spawning.Passes(s.calls[e.id].lo, s.calls[e.id].hi, SpawnChunk(s.calls[e.id]), env, 0, 0) ==
              [Queued(Apply(s, e).calls[e.l]), Queued(Apply(s, e).calls[e.r])]
  {
    Spawning.HalvesAreTwoChildren(s.calls[e.id].lo, s.calls[e.id].hi, env);
  }

  /** The chunk size of the spawn: the larger half. */
  function SpawnChunk(c: Call): pos
    requires c.lo < c.hi
  {
    (c.hi - c.lo) - (c.hi - c.lo) / 2
  }

  function Queued(c: Call): Splitting.Piece {
    Splitting.Piece(Range(c.lo, c.hi), true)
  }

  // ---------------------------------------------------------------- a continuation starts

  predicate Joins(s: State, e: Event) {
    Enabled(s, e) && s.calls[e.id].pc.Forked?
  }

  lemma JoinShape(s: State, original: seq<int>, e: Event)
    requires CallsOwn(s, original, e.id) && Joins(s, e)
    requires CallsOwn(s, original, s.calls[e.id].pc.l) && CallsOwn(s, original, s.calls[e.id].pc.r)
    requires forall x :: 0 <= x < |s.own| ==> s.own[x] in s.calls
    ensures var t := Apply(s, e);
            SizesOk(t, original) && Logical(t) == Logical(s) && (forall x :: 0 <= x < |t.own| ==> t.own[x] in t.calls)
    ensures forall x :: 0 <= x < |s.own| ==>
              (s.calls[e.id].lo <= x < s.calls[e.id].hi <==> s.own[x] == s.calls[e.id].pc.l || s.own[x] == s.calls[e.id].pc.r)
  {
    var t, c := Apply(s, e), s.calls[e.id];
    forall x | 0 <= x < |s.own|
      ensures (t.own[x] == s.own[x] && s.own[x] in s.calls && s.own[x] in t.calls && t.calls[t.own[x]] == s.calls[s.own[x]]) ||
              (s.own[x] in s.calls && Plain(s.calls[s.own[x]]) && t.own[x] in t.calls && Plain(t.calls[t.own[x]]))
    {
      assert s.own[x] == c.pc.l <==> c.lo <= x < Mid(c.lo, c.hi);
      assert s.own[x] == c.pc.r <==> Mid(c.lo, c.hi) <= x < c.hi;
    }
    SameLogical(s, t);
  }

  lemma TwoStretches(v: seq<int>, o: seq<int>, lo: nat, mid: nat, hi: nat)
    requires lo <= mid <= hi <= |v| == |o|
    requires SameElements(v, o, lo, mid) && SameElements(v, o, mid, hi)
    ensures SameElements(v, o, lo, hi)
  {
    forall c ensures Count(v, lo, hi, c) == Count(o, lo, hi, c) {
      CountJoin(v, lo, mid, hi, c);
      CountJoin(o, lo, mid, hi, c);
    }
  }

  /** The continuation finds both halves sorted, with the elements they started with. */
  lemma JoinedParent(s: State, original: seq<int>, e: Event)
    requires CallsOwn(s, original, e.id) && Joins(s, e)
    requires CallsOwn(s, original, s.calls[e.id].pc.l) && CallsOwn(s, original, s.calls[e.id].pc.r)
    requires SizesOk(Apply(s, e), original) && Logical(Apply(s, e)) == Logical(s)
    requires forall x :: 0 <= x < |s.own| ==>
              (s.calls[e.id].lo <= x < s.calls[e.id].hi <==> s.own[x] == s.calls[e.id].pc.l || s.own[x] == s.calls[e.id].pc.r)
    ensures CallsOwn(Apply(s, e), original, e.id)
  {
    var t, c, v := Apply(s, e), s.calls[e.id], Logical(s);
    TwoStretches(v, original, c.lo, Mid(c.lo, c.hi), c.hi);
    NothingTaken(v, s.temp, c.lo, Mid(c.lo, c.hi), c.hi);
    assert t.calls[e.id] == c.(pc := Take(c.lo, Mid(c.lo, c.hi)));
    assert OwnOk(t, e.id);
  }

  lemma JoinedChild(s: State, original: seq<int>, e: Event, k: Id)
    requires CallsOwn(s, original, e.id) && Joins(s, e) && CallsOwn(s, original, k)
    requires k == s.calls[e.id].pc.l || k == s.calls[e.id].pc.r
    requires SizesOk(Apply(s, e), original)
    ensures CallsOwn(Apply(s, e), original, k)
  {
    assert OwnOk(Apply(s, e), k);
  }

  lemma StillChildren(s: State, original: seq<int>, e: Event, k: Id)
    requires Inv(s, original) && Joins(s, e) && k in s.calls && k != e.id
    requires k != s.calls[e.id].pc.l && k != s.calls[e.id].pc.r
    ensures ChildrenOk(Apply(s, e), k)
  {
    assert CallOk(s, original, k) && CallOk(s, original, e.id);
    assert IsChild(s, e.id, s.calls[e.id].pc.l) && IsChild(s, e.id, s.calls[e.id].pc.r);
    if s.calls[k].pc.Forked? {
      assert IsChild(s, k, s.calls[k].pc.l) && IsChild(s, k, s.calls[k].pc.r);
      ChildrenApart(s, e, k);
    }
  }

  /** A fork whose children are not those of the joining call. */
  lemma ChildrenApart(s: State, e: Event, k: Id)
    requires Joins(s, e) && k in s.calls && s.calls[k].pc.Forked? && k != e.id && ChildrenOk(s, k)
    requires k != s.calls[e.id].pc.l && k != s.calls[e.id].pc.r
    requires forall i, j, c :: IsChild(s, i, c) && IsChild(s, j, c) ==> i == j
    requires IsChild(s, e.id, s.calls[e.id].pc.l) && IsChild(s, e.id, s.calls[e.id].pc.r)
    requires IsChild(s, k, s.calls[k].pc.l) && IsChild(s, k, s.calls[k].pc.r)
    ensures ChildrenOk(Apply(s, e), k)
  {
  }

  lemma JoinOther(s: State, t: State, original: seq<int>, e: Event, k: Id)
    requires Joins(s, e) && t == Apply(s, e) && k != e.id && k != s.calls[e.id].pc.l && k != s.calls[e.id].pc.r
    requires CallsOwn(s, original, k) && ChildrenOk(t, k) && SizesOk(t, original) && Logical(t) == Logical(s)
    requires forall x :: 0 <= x < |s.own| ==>
              (s.calls[e.id].lo <= x < s.calls[e.id].hi <==> s.own[x] == s.calls[e.id].pc.l || s.own[x] == s.calls[e.id].pc.r)
    ensures CallsOwn(t, original, k)
  {
    Bystander(s, t, original, k);
  }

  lemma JoinCalls(s: State, t: State, original: seq<int>, e: Event, k: Id)
    requires Inv(s, original) && Joins(s, e) && t == Apply(s, e) && k in t.calls
    requires SizesOk(t, original) && Logical(t) == Logical(s)
    requires forall x :: 0 <= x < |s.own| ==>
              (s.calls[e.id].lo <= x < s.calls[e.id].hi <==> s.own[x] == s.calls[e.id].pc.l || s.own[x] == s.calls[e.id].pc.r)
    ensures CallsOwn(t, original, k)
  {
    var l, r := s.calls[e.id].pc.l, s.calls[e.id].pc.r;
    assert CallsOwn(s, original, e.id) && CallsOwn(s, original, l) && CallsOwn(s, original, r) && CallsOwn(s, original, k);
    if k == e.id { JoinedParent(s, original, e); }
    else if k == l || k == r { JoinedChild(s, original, e, k); }
    else {
      StillChildren(s, original, e, k);
      JoinOther(s, t, original, e, k);
    }
  }

  lemma JoinedOnce(s: State, t: State, original: seq<int>, e: Event)
    requires Inv(s, original) && Joins(s, e) && t == Apply(s, e)
    ensures forall i, j, k :: IsChild(t, i, k) && IsChild(t, j, k) ==> i == j
    ensures forall i :: !IsChild(t, i, 0)
    ensures 0 in t.calls && t.calls[0].lo == 0 && t.calls[0].hi == |original| && !t.calls[0].pc.Gone?
  {
    assert IsChild(s, e.id, s.calls[e.id].pc.l) && IsChild(s, e.id, s.calls[e.id].pc.r);
    forall i, k | IsChild(t, i, k) ensures IsChild(s, i, k) {}
  }

  lemma JoinInv(s: State, original: seq<int>, e: Event)
    requires Inv(s, original) && Joins(s, e) && forall x :: 0 <= x < |s.own| ==> s.own[x] in s.calls
    ensures Inv(Apply(s, e), original)
  {
    var t := Apply(s, e);
    JoinShape(s, original, e) by {
      assert CallsOwn(s, original, e.id);
      assert CallsOwn(s, original, s.calls[e.id].pc.l) && CallsOwn(s, original, s.calls[e.id].pc.r);
    }
    forall k | k in t.calls ensures CallOk(t, original, k) { JoinCalls(s, t, original, e, k); }
    JoinedOnce(s, t, original, e);
  }

  // ---------------------------------------------------------------- whole runs

  /** Every index is in somebody's part. */
  predicate Owned(s: State) {
    forall x :: 0 <= x < |s.own| ==> s.own[x] in s.calls
  }

  /** A step within one part. */
  lemma Advanced(s: State, original: seq<int>, e: Event)
    requires CallsOwn(s, original, e.id) && Enabled(s, e) && !Forks(s, e) && !Joins(s, e)
    ensures Advances(s, Apply(s, e), original, e.id)
  {
    var c := s.calls[e.id];
    match c.pc
    case Ready => LeafStarts(s, original, e);
    case Sort(_) => SortStep(s, original, e);
    case Shift(_, key, j) =>
      if j > c.lo && s.arr[j - 1] > key { ShiftGoesOn(s, original, e); } else { ShiftEnds(s, original, e); }
    case Take(_, _) => TakeStep(s, original, e);
    case Copy(_) => CopyStep(s, original, e);
  }

  lemma StepInv(s: State, original: seq<int>, e: Event)
    requires Inv(s, original) && Owned(s) && Enabled(s, e)
    ensures Inv(Apply(s, e), original) && Owned(Apply(s, e))
  {
    assert CallsOwn(s, original, e.id);
    if Forks(s, e) {
      ForkShape(s, original, e);
      ForkInv(s, original, e);
    } else if Joins(s, e) {
      assert CallsOwn(s, original, s.calls[e.id].pc.l) && CallsOwn(s, original, s.calls[e.id].pc.r);
      JoinShape(s, original, e);
      JoinInv(s, original, e);
    } else {
      Advanced(s, original, e);
      LocalStep(s, Apply(s, e), original, e.id);
    }
  }

  lemma InitInv(s: State, original: seq<int>)
    requires Init(s, original)
    ensures Inv(s, original) && Owned(s)
  {
    LogicalAt(s);
    assert Logical(s) == original;
  }

  predicate IsRun(s: State, run: seq<Event>)
    decreases |run|
  {
    run == [] || (Enabled(s, run[0]) && IsRun(Apply(s, run[0]), run[1..]))
  }

  function Final(s: State, run: seq<Event>): State
    requires IsRun(s, run)
    decreases |run|
  {
    if run == [] then s else Final(Apply(s, run[0]), run[1..])
  }

  lemma {:induction false} InvRun(s: State, original: seq<int>, run: seq<Event>)
    requires Inv(s, original) && Owned(s) && IsRun(s, run)
    ensures Inv(Final(s, run), original) && Owned(Final(s, run))
    decreases |run|
  {
    if run != [] {
      StepInv(s, original, run[0]);
      InvRun(Apply(s, run[0]), original, run[1..]);
    }
  }

  lemma OverMeansSame(t: State, original: seq<int>, sequential: seq<int>)
    requires Inv(t, original) && t.calls[0].pc.Over?
    requires SortedRange(sequential, 0, |sequential|) && Rearranged(original, sequential, 0, |original|)
    ensures Sorted(t.arr) && multiset(t.arr) == multiset(original) && t.arr == sequential
  {
    assert CallsOwn(t, original, 0);
    OwnValues(t, 0);
    assert forall x :: 0 <= x < |t.own| ==> Logical(t)[x] == t.arr[x];
    assert Logical(t) == t.arr;
    WholeElements(t.arr, original);
    SortedIsUnique(t.arr, sequential);
  }

  /** For every array and every interleaving: once the first call and its continuation are over, the
      array is sorted, and is the very array that the sequential merge sort leaves, or any other
      method that sorts what it was given. */
  lemma SameAsSequential(s: State, original: seq<int>, run: seq<Event>, sequential: seq<int>)
    requires Init(s, original) && IsRun(s, run) && 0 in Final(s, run).calls && Final(s, run).calls[0].pc.Over?
    requires SortedRange(sequential, 0, |sequential|) && Rearranged(original, sequential, 0, |original|)
    ensures Sorted(Final(s, run).arr) && multiset(Final(s, run).arr) == multiset(original)
    ensures Final(s, run).arr == sequential
  {
    InitInv(s, original);
    InvRun(s, original, run);
    OverMeansSame(Final(s, run), original, sequential);
  }

  /** The code never indexes outside either array: what Enabled asks for in bounds always holds, and a
      call that is not over can go on unless it waits for its children. */
  lemma NeverOutOfBounds(s: State, original: seq<int>, id: Id, l: Id, r: Id)
    requires Inv(s, original) && id in s.calls && l !in s.calls && r !in s.calls && l != r
    ensures InBounds(s, s.calls[id])
    ensures s.calls[id].pc.Forked? || s.calls[id].pc.Over? || s.calls[id].pc.Gone? || Enabled(s, Event(id, l, r))
  {
    assert CallOk(s, original, id);
  }

  /** No two calls ever write the same element of either array. */
  lemma OwnPartOnly(s: State, original: seq<int>, e: Event, x: nat)
    requires Inv(s, original) && Owned(s) && Enabled(s, e) && x < |s.own| && s.own[x] != e.id
    ensures |Apply(s, e).arr| == |Apply(s, e).temp| == |s.own|
    ensures Apply(s, e).arr[x] == s.arr[x] && Apply(s, e).temp[x] == s.temp[x]
  {
    assert CallsOwn(s, original, e.id);
    if !Forks(s, e) && !Joins(s, e) { Advanced(s, original, e); }
  }
}
