/** The sequential routines that the sorting examples share, in place on an array. */
module Sorting {

  predicate SortedRange(s: seq<int>, lo: nat, hi: nat)
    requires hi <= |s|
  {
    forall x, y :: lo <= x < y < hi ==> s[x] <= s[y]
  }

  predicate Sorted(s: seq<int>) {
    SortedRange(s, 0, |s|)
  }

  function Swap(s: seq<int>, x: nat, y: nat): (r: seq<int>)
    requires x < |s| && y < |s|
    ensures |r| == |s|
  {
    s[x := s[y]][y := s[x]]
  }

  lemma SwapPermutes(s: seq<int>, x: nat, y: nat)
    requires x < |s| && y < |s|
    ensures multiset(Swap(s, x, y)) == multiset(s)
  {
  }

  /** Same elements, and nothing moved outside [lo, hi). */
  ghost predicate Rearranged(s: seq<int>, t: seq<int>, lo: nat, hi: nat) {
    && |s| == |t| && multiset(s) == multiset(t)
    && forall x :: 0 <= x < |s| && !(lo <= x < hi) ==> t[x] == s[x]
  }

  lemma SwapRearranges(s: seq<int>, t: seq<int>, lo: nat, hi: nat, x: nat, y: nat)
    requires Rearranged(s, t, lo, hi) && lo <= x < hi <= |s| && lo <= y < hi
    ensures Rearranged(s, Swap(t, x, y), lo, hi)
  {
    SwapPermutes(t, x, y);
  }

  lemma RearrangedTwice(s: seq<int>, t: seq<int>, u: seq<int>, lo: nat, hi: nat)
    requires Rearranged(s, t, lo, hi) && Rearranged(t, u, lo, hi)
    ensures Rearranged(s, u, lo, hi)
  {
  }

  /** How often c occurs in [lo, hi) of s. */
  function Count(s: seq<int>, lo: nat, hi: nat, c: int): nat
    requires lo <= hi <= |s|
    decreases hi - lo
  {
    if lo == hi then 0 else Count(s, lo, hi - 1, c) + (if s[hi - 1] == c then 1 else 0)
  }

  /** s and t have the same elements in [lo, hi), in whatever order. */
  ghost predicate SameElements(s: seq<int>, t: seq<int>, lo: nat, hi: nat)
    requires lo <= hi <= |s| && hi <= |t|
  {
    forall c :: Count(s, lo, hi, c) == Count(t, lo, hi, c)
  }

  lemma {:induction false} CountIs(s: seq<int>, lo: nat, hi: nat, c: int)
    requires lo <= hi <= |s|
    ensures Count(s, lo, hi, c) == multiset(s[lo..hi])[c]
    decreases hi - lo
  {
    if lo == hi {
      assert s[lo..hi] == [];
    } else {
      CountIs(s, lo, hi - 1, c);
      assert s[lo..hi] == s[lo..hi - 1] + [s[hi - 1]];
    }
  }

  lemma {:induction false} Occurs(s: seq<int>, n: nat, c: int) returns (k: nat)
    requires n <= |s| && Count(s, 0, n, c) > 0
    ensures k < n && s[k] == c
    decreases n
  {
    k := n - 1;
    if s[k] != c { k := Occurs(s, n - 1, c); }
  }

  /** Taking out position k. */
  lemma CountWithout(s: seq<int>, k: nat, c: int)
    requires k < |s|
    ensures multiset(s) == multiset(s[..k] + s[k + 1..]) + multiset{s[k]}
    ensures Count(s, 0, |s|, c) == Count(s[..k] + s[k + 1..], 0, |s| - 1, c) + (if s[k] == c then 1 else 0)
  {
    var t := s[..k] + s[k + 1..];
    assert s == s[..k] + [s[k]] + s[k + 1..];
    CountIs(s, 0, |s|, c);
    CountIs(t, 0, |t|, c);
    assert s[0..|s|] == s && t[0..|t|] == t;
  }

  /** For whole sequences that means equal multisets. */
  lemma {:induction false} WholeElements(s: seq<int>, t: seq<int>)
    requires |s| == |t| && SameElements(s, t, 0, |s|)
    ensures multiset(s) == multiset(t)
    decreases |s|
  {
    if s != [] {
      var n := |s| - 1;
      var k := Occurs(t, |t|, s[n]);
      var s', t' := s[..n] + s[n + 1..], t[..k] + t[k + 1..];
      forall c ensures Count(s', 0, n, c) == Count(t', 0, n, c) {
        CountWithout(s, n, c);
        CountWithout(t, k, c);
      }
      WholeElements(s', t');
      CountWithout(s, n, 0);
      CountWithout(t, k, 0);
    }
  }

  lemma {:induction false} CountSame(s: seq<int>, t: seq<int>, lo: nat, hi: nat, c: int)
    requires lo <= hi <= |s| && hi <= |t| && forall x :: lo <= x < hi ==> s[x] == t[x]
    ensures Count(s, lo, hi, c) == Count(t, lo, hi, c)
    decreases hi - lo
  {
    if lo < hi { CountSame(s, t, lo, hi - 1, c); }
  }

  lemma ElementsSame(s: seq<int>, t: seq<int>, lo: nat, hi: nat)
    requires lo <= hi <= |s| && hi <= |t| && forall x :: lo <= x < hi ==> s[x] == t[x]
    ensures SameElements(s, t, lo, hi)
  {
    forall c ensures Count(s, lo, hi, c) == Count(t, lo, hi, c) { CountSame(s, t, lo, hi, c); }
  }

  lemma {:induction false} CountJoin(s: seq<int>, lo: nat, mid: nat, hi: nat, c: int)
    requires lo <= mid <= hi <= |s|
    ensures Count(s, lo, hi, c) == Count(s, lo, mid, c) + Count(s, mid, hi, c)
    decreases hi - mid
  {
    if mid < hi { CountJoin(s, lo, mid, hi - 1, c); }
  }

  lemma ElementsSwap(s: seq<int>, lo: nat, hi: nat, x: nat, y: nat)
    requires lo <= x < hi <= |s| && lo <= y < hi
    ensures SameElements(Swap(s, x, y), s, lo, hi)
  {
    assert Swap(s, x, y)[lo..hi] == Swap(s[lo..hi], x - lo, y - lo);
    SwapPermutes(s[lo..hi], x - lo, y - lo);
    forall c ensures Count(Swap(s, x, y), lo, hi, c) == Count(s, lo, hi, c) {
      CountIs(Swap(s, x, y), lo, hi, c);
      CountIs(s, lo, hi, c);
    }
  }

  /** The inner loop's state: [lo, i] is sorted but for the key at j, which is not above anything on
      its right. */
  predicate AlmostSorted(s: seq<int>, lo: nat, j: nat, i: nat)
    requires i < |s|
  {
    lo <= j <= i && forall x, y :: lo <= x < y <= i && y != j ==> s[x] <= s[y]
  }

  /** Moving the hole one to the left. */
  lemma ShiftKeeps(s: seq<int>, lo: nat, j: nat, i: nat)
    requires i < |s| && AlmostSorted(s, lo, j, i) && lo < j && s[j - 1] > s[j]
    ensures AlmostSorted(Swap(s, j - 1, j), lo, j - 1, i)
  {
  }

  lemma Shifted(original: seq<int>, s: seq<int>, lo: nat, j: nat, i: nat, hi: nat) returns (t: seq<int>)
    requires i < hi <= |s| && AlmostSorted(s, lo, j, i) && lo < j && s[j - 1] > s[j] && Rearranged(original, s, lo, hi)
    ensures |t| == |s| && AlmostSorted(t, lo, j - 1, i) && Rearranged(original, t, lo, hi)
    ensures t[j - 1] == s[j] && t[j] == s[j - 1] && forall k :: 0 <= k < |s| && k != j && k != j - 1 ==> t[k] == s[k]
  {
    t := Swap(s, j - 1, j);
    ShiftKeeps(s, lo, j, i);
    SwapRearranges(original, s, lo, hi, j - 1, j);
  }

  lemma ShiftDone(s: seq<int>, lo: nat, j: nat, i: nat)
    requires i < |s| && AlmostSorted(s, lo, j, i) && (lo == j || s[j - 1] <= s[j])
    ensures SortedRange(s, lo, i + 1)
  {
    forall x, y | lo <= x < y < i + 1 ensures s[x] <= s[y] {
      if y == j && x < j - 1 { assert s[x] <= s[j - 1]; }
    }
  }

  /** insertion_sort (examples/quick_sort_concurrent_ex.c:48-58): between the steps of the inner loop
      the array with the key put into the hole is a rearrangement of the original. */
  method InsertionSort(a: array<int>, start: nat, end: nat)
    requires start <= end <= a.Length
    modifies a
    ensures SortedRange(a[..], start, end) && Rearranged(old(a[..]), a[..], start, end)
  {
    ghost var original := a[..];
    var i := start + 1;
    while i < end
      invariant start < i && (i <= end || i == start + 1)
      invariant SortedRange(a[..], start, if i <= end then i else end)
      invariant Rearranged(original, a[..], start, end)
    {
      Insert(a, start, i, end, original);
      i := i + 1;
    }
  }

  /** The inner loop: a[i] moves left to its place. */
  method Insert(a: array<int>, start: nat, i: nat, end: nat, ghost original: seq<int>)
    requires start < i < end <= a.Length
    requires SortedRange(a[..], start, i) && Rearranged(original, a[..], start, end)
    modifies a
    ensures SortedRange(a[..], start, i + 1) && Rearranged(original, a[..], start, end)
  {
    var key := a[i];
    var j := i;
    ghost var v := a[..];
    while j > start && a[j - 1] > key
      invariant start <= j <= i && |v| == a.Length && v[j] == key
      invariant forall k :: 0 <= k < a.Length && k != j ==> a[k] == v[k]
      invariant AlmostSorted(v, start, j, i) && Rearranged(original, v, start, end)
    {
      v := Shifted(original, v, start, j, i, end);
      a[j] := a[j - 1];
      j := j - 1;
    }
    ShiftDone(v, start, j, i);
    a[j] := key;
    assert a[..] == v;
  }

  /** s[p] is the pivot: nothing left of it is greater, and everything right of it is. */
  predicate Split(s: seq<int>, lo: nat, p: nat, hi: nat)
    requires hi <= |s|
  {
    && lo <= p < hi
    && (forall x :: lo <= x < p ==> s[x] <= s[p])
    && (forall x :: p < x < hi ==> s[x] > s[p])
  }

  /** The scan's state: [lo, i) is at most the pivot, [i, j) above it. */
  predicate Scanned(s: seq<int>, lo: nat, i: nat, j: nat, hi: nat, pivot: int)
    requires hi <= |s|
  {
    && lo <= i <= j < hi && s[hi - 1] == pivot
    && (forall x :: lo <= x < i ==> s[x] <= pivot)
    && (forall x :: i <= x < j ==> s[x] > pivot)
  }

  lemma ScanSwaps(s: seq<int>, lo: nat, i: nat, j: nat, hi: nat, pivot: int)
    requires hi <= |s| && Scanned(s, lo, i, j, hi, pivot) && j < hi - 1 && s[j] <= pivot
    ensures Scanned(Swap(s, i, j), lo, i + 1, j + 1, hi, pivot)
  {
  }

  lemma ScanSettles(s: seq<int>, lo: nat, i: nat, hi: nat, pivot: int)
    requires 0 < hi <= |s| && Scanned(s, lo, i, hi - 1, hi, pivot)
    ensures Split(Swap(s, i, hi - 1), lo, i, hi)
  {
  }

  lemma SwappedSmall(original: seq<int>, s: seq<int>, lo: nat, i: nat, j: nat, hi: nat, pivot: int)
    requires hi <= |s| && Scanned(s, lo, i, j, hi, pivot) && j < hi - 1 && s[j] <= pivot && Rearranged(original, s, lo, hi)
    ensures Scanned(Swap(s, i, j), lo, i + 1, j + 1, hi, pivot) && Rearranged(original, Swap(s, i, j), lo, hi)
  {
    ScanSwaps(s, lo, i, j, hi, pivot);
    SwapRearranges(original, s, lo, hi, i, j);
  }

  lemma SwappedPivot(original: seq<int>, s: seq<int>, lo: nat, i: nat, hi: nat, pivot: int)
    requires 0 < hi <= |s| && Scanned(s, lo, i, hi - 1, hi, pivot) && Rearranged(original, s, lo, hi)
    ensures Split(Swap(s, i, hi - 1), lo, i, hi) && Rearranged(original, Swap(s, i, hi - 1), lo, hi)
    ensures Swap(s, i, hi - 1)[i] == pivot
  {
    ScanSettles(s, lo, i, hi, pivot);
    SwapRearranges(original, s, lo, hi, i, hi - 1);
  }

  /** partition (examples/quick_sort_concurrent_ex.c:64-76) */
  method Partition(a: array<int>, start: nat, end: nat) returns (i: nat)
    requires start < end <= a.Length
    modifies a
    ensures start <= i < end && Split(a[..], start, i, end) && a[i] == old(a[end - 1])
    ensures Rearranged(old(a[..]), a[..], start, end)
  {
    ghost var original := a[..];
    var pivot := a[end - 1];
    i := start;
    var j := start;
    while j < end - 1
      invariant Scanned(a[..], start, i, j, end, pivot)
      invariant Rearranged(original, a[..], start, end)
    {
      if a[j] <= pivot {
        SwappedSmall(original, a[..], start, i, j, end, pivot);
        SwapElements(a, i, j);
        i := i + 1;
      }
      j := j + 1;
    }
    SwappedPivot(original, a[..], start, i, end, pivot);
    SwapElements(a, i, end - 1);
  }

  /** swap (examples/quick_sort_concurrent_ex.c:60-62) */
  method SwapElements(a: array<int>, i: nat, j: nat)
    requires i < a.Length && j < a.Length
    modifies a
    ensures a[..] == Swap(old(a[..]), i, j)
  {
    var t := a[i];
    a[i] := a[j];
    a[j] := t;
  }

  /** Two sorted rearrangements of the same elements are the same. */
  lemma {:induction false} SortedIsUnique(s: seq<int>, t: seq<int>)
    requires Sorted(s) && Sorted(t) && multiset(s) == multiset(t)
    ensures s == t
    decreases |s|
  {
    assert |s| == |multiset(s)| == |multiset(t)| == |t|;
    if s != [] {
      var n := |s| - 1;
      LastIsGreatest(s, t);
      LastIsGreatest(t, s);
      AllButLast(s);
      AllButLast(t);
      SortedIsUnique(s[..n], t[..n]);
    }
  }

  lemma AllButLast(s: seq<int>)
    requires s != []
    ensures s == s[..|s| - 1] + [s[|s| - 1]] && multiset(s[..|s| - 1]) == multiset(s) - multiset{s[|s| - 1]}
  {
    assert s == s[..|s| - 1] + [s[|s| - 1]];
  }

  lemma LastIsGreatest(s: seq<int>, t: seq<int>)
    requires Sorted(s) && s != [] && multiset(s) == multiset(t) && |s| == |t|
    ensures t[|t| - 1] <= s[|s| - 1]
  {
    assert t[|t| - 1] in multiset(s);
    var k :| 0 <= k < |s| && s[k] == t[|t| - 1];
  }
}
