/** The sequential merge sort of examples/merge_sort_comparison_ex.c:25-66, in place on its arrays. */
module Merging {
  import opened Sorting

  const BASE_CASE_THRESHOLD := 1024

  function Mid(lo: nat, hi: nat): (m: nat)
    requires lo <= hi
    ensures lo <= m <= hi && (lo + 2 <= hi ==> lo < m < hi)
  {
    lo + ((hi - lo) - (hi - lo) / 2)
  }

  /** What has been taken is sorted, and its last element is not above the next one of either half. */
  predicate TakenInOrder(v: seq<int>, temp: seq<int>, lo: nat, mid: nat, hi: nat, i: nat, j: nat)
    requires lo <= i <= mid <= j <= hi <= |v| && hi <= |temp|
  {
    && SortedRange(v, lo, mid) && SortedRange(v, mid, hi)
    && SortedRange(temp, lo, i + (j - mid))
    && (lo < i + (j - mid) && i < mid ==> temp[i + (j - mid) - 1] <= v[i])
    && (lo < i + (j - mid) && j < hi ==> temp[i + (j - mid) - 1] <= v[j])
  }

  /** [lo, i) and [mid, j) of v have been merged into temp, from lo on. */
  ghost predicate Taken(v: seq<int>, temp: seq<int>, lo: nat, mid: nat, hi: nat, i: nat, j: nat) {
    && lo <= i <= mid <= j <= hi <= |v| && hi <= |temp|
    && TakenInOrder(v, temp, lo, mid, hi, i, j)
    && TakenBag(v, temp, lo, mid, i, j)
  }

  lemma LeftInOrder(v: seq<int>, temp: seq<int>, lo: nat, mid: nat, hi: nat, i: nat, j: nat)
    requires lo <= i < mid <= j <= hi <= |v| && hi <= |temp| && TakenInOrder(v, temp, lo, mid, hi, i, j) && (j < hi ==> v[i] <= v[j])
    ensures TakenInOrder(v, temp[i + (j - mid) := v[i]], lo, mid, hi, i + 1, j)
  {
  }

  lemma RightInOrder(v: seq<int>, temp: seq<int>, lo: nat, mid: nat, hi: nat, i: nat, j: nat)
    requires lo <= i <= mid <= j < hi <= |v| && hi <= |temp| && TakenInOrder(v, temp, lo, mid, hi, i, j) && (i < mid ==> v[j] <= v[i])
    ensures TakenInOrder(v, temp[i + (j - mid) := v[j]], lo, mid, hi, i, j + 1)
  {
  }

  /** The elements taken are those of [lo, i) and [mid, j). */
  ghost predicate TakenBag(v: seq<int>, temp: seq<int>, lo: nat, mid: nat, i: nat, j: nat)
    requires lo <= i <= mid <= j <= |v| && i + (j - mid) <= |temp|
  {
    forall c :: Count(temp, lo, i + (j - mid), c) == Count(v, lo, i, c) + Count(v, mid, j, c)
  }

  lemma LeftBag(v: seq<int>, temp: seq<int>, lo: nat, mid: nat, i: nat, j: nat)
    requires lo <= i < mid <= j <= |v| && i + (j - mid) < |temp| && TakenBag(v, temp, lo, mid, i, j)
    ensures TakenBag(v, temp[i + (j - mid) := v[i]], lo, mid, i + 1, j)
  {
    ElementsSame(temp[i + (j - mid) := v[i]], temp, lo, i + (j - mid));
  }

  lemma RightBag(v: seq<int>, temp: seq<int>, lo: nat, mid: nat, i: nat, j: nat)
    requires lo <= i <= mid <= j < |v| && i + (j - mid) < |temp| && TakenBag(v, temp, lo, mid, i, j)
    ensures TakenBag(v, temp[i + (j - mid) := v[j]], lo, mid, i, j + 1)
  {
    ElementsSame(temp[i + (j - mid) := v[j]], temp, lo, i + (j - mid));
  }

  lemma TakeLeft(v: seq<int>, temp: seq<int>, lo: nat, mid: nat, hi: nat, i: nat, j: nat)
    requires Taken(v, temp, lo, mid, hi, i, j) && i < mid && (j < hi ==> v[i] <= v[j])
    ensures Taken(v, temp[i + (j - mid) := v[i]], lo, mid, hi, i + 1, j)
  {
    LeftInOrder(v, temp, lo, mid, hi, i, j);
    LeftBag(v, temp, lo, mid, i, j);
  }

  lemma TakeRight(v: seq<int>, temp: seq<int>, lo: nat, mid: nat, hi: nat, i: nat, j: nat)
    requires Taken(v, temp, lo, mid, hi, i, j) && j < hi && (i < mid ==> v[j] <= v[i])
    ensures Taken(v, temp[i + (j - mid) := v[j]], lo, mid, hi, i, j + 1)
  {
    RightInOrder(v, temp, lo, mid, hi, i, j);
    RightBag(v, temp, lo, mid, i, j);
  }

  lemma TakeSmaller(v: seq<int>, t: seq<int>, u: seq<int>, lo: nat, mid: nat, hi: nat, i: nat, j: nat, i': nat, j': nat)
    requires Taken(v, t, lo, mid, hi, i, j) && i < mid && j < hi
    requires if v[i] <= v[j] then i' == i + 1 && j' == j && u == t[i + (j - mid) := v[i]]
             else i' == i && j' == j + 1 && u == t[i + (j - mid) := v[j]]
    ensures lo <= i' <= mid <= j' <= hi && Taken(v, u, lo, mid, hi, i', j')
  {
    if v[i] <= v[j] { TakeLeft(v, t, lo, mid, hi, i, j); } else { TakeRight(v, t, lo, mid, hi, i, j); }
  }

  lemma NothingTaken(v: seq<int>, temp: seq<int>, lo: nat, mid: nat, hi: nat)
    requires lo <= mid <= hi <= |v| && hi <= |temp| && SortedRange(v, lo, mid) && SortedRange(v, mid, hi)
    ensures Taken(v, temp, lo, mid, hi, lo, mid)
  {
  }

  lemma AllTaken(v: seq<int>, temp: seq<int>, lo: nat, mid: nat, hi: nat)
    requires Taken(v, temp, lo, mid, hi, mid, hi)
    ensures SortedRange(temp, lo, hi) && SameElements(temp, v, lo, hi)
  {
    forall c ensures Count(temp, lo, hi, c) == Count(v, lo, hi, c) { CountJoin(v, lo, mid, hi, c); }
  }

  /** Replacing a stretch by a rearrangement of it rearranges the whole. */
  lemma StretchRearranged(s: seq<int>, t: seq<int>, lo: nat, hi: nat)
    requires |s| == |t| && lo <= hi <= |s| && SameElements(s, t, lo, hi)
    requires forall x :: 0 <= x < |s| && !(lo <= x < hi) ==> t[x] == s[x]
    ensures Rearranged(s, t, lo, hi)
  {
    ElementsSame(s, t, 0, lo);
    ElementsSame(s, t, hi, |s|);
    forall c ensures Count(s, 0, |s|, c) == Count(t, 0, |s|, c) {
      ThreeStretches(s, lo, hi, c);
      ThreeStretches(t, lo, hi, c);
    }
    WholeElements(s, t);
  }

  lemma ThreeStretches(s: seq<int>, lo: nat, hi: nat, c: int)
    requires lo <= hi <= |s|
    ensures Count(s, 0, |s|, c) == Count(s, 0, lo, c) + Count(s, lo, hi, c) + Count(s, hi, |s|, c)
  {
    CountJoin(s, 0, hi, |s|, c);
    CountJoin(s, 0, lo, hi, c);
  }

  /** sequential_merge_step */
  method MergeStep(a: array<int>, temp: array<int>, start: nat, mid: nat, end: nat)
    requires start <= mid <= end <= a.Length && end <= temp.Length && a != temp
    requires SortedRange(a[..], start, mid) && SortedRange(a[..], mid, end)
    modifies a, temp
    ensures SortedRange(a[..], start, end) && Rearranged(old(a[..]), a[..], start, end)
  {
    ghost var v := a[..];
    MergeInto(a, temp, start, mid, end);
    ghost var merged := temp[..];
    AllTaken(v, merged, start, mid, end);
    var i := start;
    while i < end
      modifies a
      invariant start <= i <= end
      invariant forall x :: start <= x < i ==> a[x] == merged[x]
      invariant forall x :: 0 <= x < a.Length && !(start <= x < i) ==> a[x] == v[x]
    {
      a[i] := temp[i];
      i := i + 1;
    }
    ElementsSame(a[..], merged, start, end);
    StretchRearranged(v, a[..], start, end);
  }

  /** Its first loop and the two that follow it. */
  method MergeInto(a: array<int>, temp: array<int>, start: nat, mid: nat, end: nat)
    requires start <= mid <= end <= a.Length && end <= temp.Length && a != temp
    requires SortedRange(a[..], start, mid) && SortedRange(a[..], mid, end)
    modifies temp
    ensures Taken(a[..], temp[..], start, mid, end, mid, end)
  {
    var i, j, k := MergeWhileBoth(a, temp, start, mid, end);
    i, k := DrainLeft(a, temp, start, mid, end, i, j, k);
    DrainRight(a, temp, start, mid, end, j, k);
  }

  method MergeWhileBoth(a: array<int>, temp: array<int>, start: nat, mid: nat, end: nat) returns (i: nat, j: nat, k: nat)
    requires start <= mid <= end <= a.Length && end <= temp.Length && a != temp
    requires SortedRange(a[..], start, mid) && SortedRange(a[..], mid, end)
    modifies temp
    ensures Taken(a[..], temp[..], start, mid, end, i, j) && (i == mid || j == end) && k == i + (j - mid)
  {
    i, j, k := start, mid, start;
    ghost var v, t := a[..], temp[..];
    NothingTaken(v, t, start, mid, end);
    while i < mid && j < end
      invariant start <= i <= mid <= j <= end && k == i + (j - mid)
      invariant a[..] == v && temp[..] == t && Taken(v, t, start, mid, end, i, j)
    {
      ghost var i0, j0, before := i, j, t;
      i, j := TakeOne(a, temp, i, j, k);
      t := temp[..];
      TakeSmaller(v, before, t, start, mid, end, i0, j0, i, j);
      k := k + 1;
    }
  }

  /** The body of that loop: the smaller of two elements goes next. */
  method TakeOne(a: array<int>, temp: array<int>, i0: nat, j0: nat, k: nat) returns (i: nat, j: nat)
    requires i0 < a.Length && j0 < a.Length && k < temp.Length && a != temp
    modifies temp
    ensures if a[i0] <= a[j0] then i == i0 + 1 && j == j0 && temp[..] == old(temp[..])[k := a[i0]]
            else i == i0 && j == j0 + 1 && temp[..] == old(temp[..])[k := a[j0]]
  {
    i, j := i0, j0;
    if a[i] <= a[j] {
      temp[k] := a[i];
      i := i + 1;
    } else {
      temp[k] := a[j];
      j := j + 1;
    }
  }

  method DrainLeft(a: array<int>, temp: array<int>, start: nat, mid: nat, end: nat, i0: nat, j: nat, k0: nat)
    returns (i: nat, k: nat)
    requires end <= a.Length && a != temp && Taken(a[..], temp[..], start, mid, end, i0, j) && k0 == i0 + (j - mid)
    requires i0 < mid ==> j == end
    modifies temp
    ensures i == mid && k == j && Taken(a[..], temp[..], start, mid, end, mid, j)
  {
    i, k := i0, k0;
    ghost var v, t := a[..], temp[..];
    while i < mid
      invariant i0 <= i <= mid <= j <= end && k == i + (j - mid)
      invariant a[..] == v && temp[..] == t && Taken(v, t, start, mid, end, i, j)
    {
      TakeLeft(v, t, start, mid, end, i, j);
      temp[k] := a[i];
      t := t[k := v[i]];
      i := i + 1;
      k := k + 1;
    }
  }

  method DrainRight(a: array<int>, temp: array<int>, start: nat, mid: nat, end: nat, j0: nat, k0: nat)
    requires end <= a.Length && a != temp && Taken(a[..], temp[..], start, mid, end, mid, j0) && k0 == j0
    modifies temp
    ensures Taken(a[..], temp[..], start, mid, end, mid, end)
  {
    var j, k := j0, k0;
    ghost var v, t := a[..], temp[..];
    while j < end
      invariant mid <= j <= end && k == j
      invariant a[..] == v && temp[..] == t && Taken(v, t, start, mid, end, mid, j)
    {
      TakeRight(v, t, start, mid, end, mid, j);
      temp[k] := a[j];
      t := t[k := v[j]];
      j := j + 1;
      k := k + 1;
    }
  }

  /** sequential_merge_sort */
  method MergeSort(a: array<int>, temp: array<int>, start: nat, end: nat)
    requires start <= end <= a.Length && end <= temp.Length && a != temp
    modifies a, temp
    ensures SortedRange(a[..], start, end) && Rearranged(old(a[..]), a[..], start, end)
    decreases end - start
  {
    if end - start <= BASE_CASE_THRESHOLD {
      InsertionSort(a, start, end);
      return;
    }
    var mid := Mid(start, end);
    ghost var v0 := a[..];
    MergeSort(a, temp, start, mid);
    ghost var v1 := a[..];
    MergeSort(a, temp, mid, end);
    ghost var v2 := a[..];
    assert SortedRange(v2, start, mid);
    MergeStep(a, temp, start, mid, end);
    RearrangedWider(v0, v1, start, mid, start, end);
    RearrangedWider(v1, v2, mid, end, start, end);
    RearrangedTwice(v0, v1, v2, start, end);
    RearrangedTwice(v0, v2, a[..], start, end);
  }

  lemma RearrangedWider(s: seq<int>, t: seq<int>, lo: nat, hi: nat, lo': nat, hi': nat)
    requires Rearranged(s, t, lo, hi) && lo' <= lo && hi <= hi'
    ensures Rearranged(s, t, lo', hi')
  {
  }
}
