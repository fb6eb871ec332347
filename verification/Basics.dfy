/** Small types shared by the models of the scheduler's parts. */
module Basics {
  type pos = n: nat | 0 < n witness 1

  datatype Option<+T> = None | Some(value: T)

  /** A half-open index range, as passed to every task function. */
  datatype Range = Range(lo: nat, hi: nat) {
    predicate Contains(x: int) {
      lo <= x < hi
    }
  }

  /** The slot of logical index i in a circular buffer. */
  function Slot(cap: pos, i: int): (r: nat)
    ensures r < cap
  {
    i % cap
  }

  lemma NoMultipleBetween(c: pos, q: int)
    ensures !(0 < c * q < c)
  {
    if q <= 0 { assert c * q <= 0; } else { assert c * q >= c; }
  }

  /** Indices less than a capacity apart have different slots. */
  lemma SlotsDiffer(cap: pos, i: int, j: int)
    requires i < j < i + cap
    ensures Slot(cap, i) != Slot(cap, j)
  {
    var c := cap as int;
    assert i == c * (i / c) + i % c && j == c * (j / c) + j % c;
    assert j - i == c * (j / c - i / c) + (j % c - i % c);
    NoMultipleBetween(cap, j / c - i / c);
  }
}
