/**
 How a job's range is cut up: internal_macro_job_splitter (src/sk_worker.c:287-333), for every
 range, every chunk size and every pattern of failed acquires and refused pushes.
 */
module Splitting {
  import opened Basics
  import PowerOfTwo

  /** Where internal_macro_job_splitter cuts [lo, hi): the middle, rounded up to a multiple of c. */
  function MidPoint(lo: nat, hi: nat, c: pos): (m: nat)
    requires lo <= hi
  {
    var m := lo + (hi - lo) / 2;
    if m % c == 0 then m else m + (c - m % c)
  }

  /** The loop condition together with the early exit. */
  predicate Splits(lo: nat, hi: nat, c: pos) {
    lo <= hi && hi - lo > c && MidPoint(lo, hi, c) < hi
  }

  // ---------------------------------------------------------------- one splitter task

  /** What became of a right part. */
  datatype Outcome = Pushed | NoNode | PushRefused

  /** A part of the range that the task disposed of: a call of the job's function, or a new task. */
  datatype Piece = Piece(range: Range, queued: bool)

  /** The pieces lie end to end from hi down to lo. */
  predicate TilesDown(pieces: seq<Range>, lo: nat, hi: nat)
    decreases |pieces|
  {
    if pieces == [] then lo == hi
    else pieces[0].hi == hi && pieces[0].lo <= hi && TilesDown(pieces[1..], lo, pieces[0].lo)
  }

  function Ranges(pieces: seq<Piece>): (r: seq<Range>)
    ensures |r| == |pieces|
    ensures forall k :: 0 <= k < |pieces| ==> r[k] == pieces[k].range
  {
    seq(|pieces|, k requires 0 <= k < |pieces| => pieces[k].range)
  }

  function CountQueued(pieces: seq<Piece>): nat
    decreases |pieces|
  {
    if pieces == [] then 0 else CountQueued(pieces[..|pieces| - 1]) + (if pieces[|pieces| - 1].queued then 1 else 0)
  }

  /** What one splitter task does with [lo, hi), from its i-th iteration on; outcome(i) is the fate
      of the i-th right part. */
  function Pieces(lo: nat, hi: nat, c: pos, outcome: nat -> Outcome, i: nat): (r: seq<Piece>)
    requires lo <= hi
    ensures r != []
    decreases hi
  {
    if Splits(lo, hi, c) then
      var mid := MidPoint(lo, hi, c);
      [Piece(Range(mid, hi), outcome(i).Pushed?)] + Pieces(lo, mid, c, outcome, i + 1)
    else [Piece(Range(lo, hi), false)]
  }

  /** Exactly the pieces that were cut off and accepted are queued. */
  predicate QueuedAsPushed(pieces: seq<Piece>, outcome: nat -> Outcome) {
    forall k :: 0 <= k < |pieces| ==> (pieces[k].queued <==> k + 1 < |pieces| && outcome(k).Pushed?)
  }

  /** internal_macro_job_splitter: it disposes of exactly [lo, hi), and leaves its task's counter
      greater by the number of tasks it queued. */
  method SplitTask(lo: nat, hi: nat, c: pos, outcome: nat -> Outcome, deps0: nat) returns (pieces: seq<Piece>, deps: nat)
    requires lo <= hi
    ensures pieces == Pieces(lo, hi, c, outcome, 0)
    ensures TilesDown(Ranges(pieces), lo, hi)
    ensures QueuedAsPushed(pieces, outcome)
    ensures deps == deps0 + CountQueued(pieces)
  {
    pieces := [];
    deps := deps0;
    var end := hi;
    var i := 0;
    while end - lo > c
      invariant lo <= end <= hi
      invariant pieces + Pieces(lo, end, c, outcome, i) == Pieces(lo, hi, c, outcome, 0)
      invariant deps == deps0 + CountQueued(pieces)
      decreases end
    {
      MidPointInside(lo, end, c);
      var mid := MidPoint(lo, end, c);
      if mid >= end {
        break;
      }
      var queued := false;
      if !outcome(i).NoNode? {
        deps := deps + 1;
        if outcome(i).PushRefused? {
          deps := deps - 1;
        } else {
          queued := true;
        }
      }
      Appended(pieces, Piece(Range(mid, end), queued), Pieces(lo, mid, c, outcome, i + 1));
      pieces := pieces + [Piece(Range(mid, end), queued)];
      end := mid;
      i := i + 1;
    }
    Appended(pieces, Piece(Range(lo, end), false), []);
    pieces := pieces + [Piece(Range(lo, end), false)];
    PiecesTile(lo, hi, c, outcome, 0);
    AsPushed(lo, hi, c, outcome);
  }

  lemma AsPushed(lo: nat, hi: nat, c: pos, outcome: nat -> Outcome)
    requires lo <= hi
    ensures QueuedAsPushed(Pieces(lo, hi, c, outcome, 0), outcome)
  {
    var ps := Pieces(lo, hi, c, outcome, 0);
    forall k | 0 <= k < |ps| ensures ps[k].queued <==> k + 1 < |ps| && outcome(k).Pushed? {
      QueuedWhenPushed(lo, hi, c, outcome, 0, k);
    }
  }

  lemma Appended(before: seq<Piece>, p: Piece, rest: seq<Piece>)
    ensures (before + [p]) + rest == before + ([p] + rest)
    ensures CountQueued(before + [p]) == CountQueued(before) + (if p.queued then 1 else 0)
    ensures rest == [] ==> before + [p] == before + ([p] + rest)
  {
    assert (before + [p])[..|before|] == before;
  }

  /** The cut is not left of the middle, so the loop makes progress. */
  lemma MidPointInside(lo: nat, hi: nat, c: pos)
    requires lo <= hi && hi - lo > c
    ensures lo < MidPoint(lo, hi, c)
  {
  }

  lemma {:induction false} PiecesTile(lo: nat, hi: nat, c: pos, outcome: nat -> Outcome, i: nat)
    requires lo <= hi
    ensures TilesDown(Ranges(Pieces(lo, hi, c, outcome, i)), lo, hi)
    decreases hi
  {
    if Splits(lo, hi, c) {
      var mid := MidPoint(lo, hi, c);
      var ps, rest := Pieces(lo, hi, c, outcome, i), Pieces(lo, mid, c, outcome, i + 1);
      MidPointInside(lo, hi, c);
      PiecesTile(lo, mid, c, outcome, i + 1);
      assert Ranges(ps)[1..] == Ranges(rest);
    } else {
      assert Ranges(Pieces(lo, hi, c, outcome, i))[1..] == [];
    }
  }

  // ---------------------------------------------------------------- the whole tree of tasks

  /** Every call of the job's function made for [lo, hi): those of the task itself, and those of the
      tasks it queued; fate(r) tells what happens to the right parts of the task with range r. */
  function Calls(pieces: seq<Piece>, size: nat, c: pos, fate: Range -> (nat -> Outcome)): seq<Range>
    requires forall p :: p in pieces && p.queued ==> p.range.lo <= p.range.hi && p.range.hi - p.range.lo < size
    decreases size, 0, |pieces|
  {
    if pieces == [] then []
    else (if pieces[0].queued then TreeCalls(pieces[0].range.lo, pieces[0].range.hi, c, fate) else [pieces[0].range])
         + Calls(pieces[1..], size, c, fate)
  }

  function TreeCalls(lo: nat, hi: nat, c: pos, fate: Range -> (nat -> Outcome)): seq<Range>
    requires lo <= hi
    decreases hi - lo, 1, 0
  {
    var ps := Pieces(lo, hi, c, fate(Range(lo, hi)), 0);
    QueuedAreSmaller(lo, hi, c, fate(Range(lo, hi)), 0);
    Calls(ps, hi - lo, c, fate)
  }

  /** A piece becomes a task exactly if it was cut off and its push was accepted; the last one, and every
      one that the pool or the queue refused, is called in place. */
  lemma {:induction false} QueuedWhenPushed(lo: nat, hi: nat, c: pos, outcome: nat -> Outcome, i: nat, k: nat)
    requires lo <= hi && k < |Pieces(lo, hi, c, outcome, i)|
    ensures Pieces(lo, hi, c, outcome, i)[k].queued <==> k + 1 < |Pieces(lo, hi, c, outcome, i)| && outcome(i + k).Pushed?
    decreases hi
  {
    if Splits(lo, hi, c) {
      var mid := MidPoint(lo, hi, c);
      var ps, rest := Pieces(lo, hi, c, outcome, i), Pieces(lo, mid, c, outcome, i + 1);
      assert ps == [Piece(Range(mid, hi), outcome(i).Pushed?)] + rest;
      if k > 0 {
        QueuedWhenPushed(lo, mid, c, outcome, i + 1, k - 1);
        assert ps[k] == rest[k - 1] && (i + 1) + (k - 1) == i + k;
      } else {
        assert outcome(i + k) == outcome(i);
      }
    }
  }

  lemma {:induction false} QueuedAreSmaller(lo: nat, hi: nat, c: pos, outcome: nat -> Outcome, i: nat)
    requires lo <= hi
    ensures forall p :: p in Pieces(lo, hi, c, outcome, i) && p.queued ==>
              lo < p.range.lo <= p.range.hi <= hi && p.range.hi - p.range.lo < hi - lo
    decreases hi
  {
    if Splits(lo, hi, c) {
      MidPointInside(lo, hi, c);
      QueuedAreSmaller(lo, MidPoint(lo, hi, c), c, outcome, i + 1);
    }
  }

  lemma {:induction false} TilesJoin(a: seq<Range>, b: seq<Range>, lo: nat, mid: nat, hi: nat)
    requires TilesDown(a, mid, hi) && TilesDown(b, lo, mid)
    ensures TilesDown(a + b, lo, hi)
    decreases |a|
  {
    if a == [] {
      assert a + b == b;
    } else {
      TilesJoin(a[1..], b, lo, mid, a[0].lo);
      assert (a + b)[1..] == a[1..] + b;
    }
  }

  lemma {:induction false} TilesAreOrdered(ps: seq<Range>, lo: nat, hi: nat)
    requires TilesDown(ps, lo, hi)
    ensures lo <= hi
    decreases |ps|
  {
    if ps != [] { TilesAreOrdered(ps[1..], lo, ps[0].lo); }
  }

  lemma {:induction false} CallsTile(pieces: seq<Piece>, size: nat, c: pos, fate: Range -> (nat -> Outcome), lo: nat, hi: nat)
    requires TilesDown(Ranges(pieces), lo, hi)
    requires forall p :: p in pieces && p.queued ==> p.range.lo <= p.range.hi && p.range.hi - p.range.lo < size
    ensures TilesDown(Calls(pieces, size, c, fate), lo, hi)
    decreases size, 0, |pieces|
  {
    if pieces != [] {
      var r := pieces[0].range;
      assert Ranges(pieces)[0] == r && Ranges(pieces)[1..] == Ranges(pieces[1..]);
      CallsTile(pieces[1..], size, c, fate, lo, r.lo);
      if pieces[0].queued {
        TreeTiles(r.lo, r.hi, c, fate);
        TilesJoin(TreeCalls(r.lo, r.hi, c, fate), Calls(pieces[1..], size, c, fate), lo, r.lo, hi);
      } else {
        TilesJoin([r], Calls(pieces[1..], size, c, fate), lo, r.lo, hi);
      }
    }
  }

  /** Whatever acquires and pushes fail in whichever tasks, all calls together lie end to end over
      exactly [lo, hi). */
  lemma {:induction false} TreeTiles(lo: nat, hi: nat, c: pos, fate: Range -> (nat -> Outcome))
    requires lo <= hi
    ensures TilesDown(TreeCalls(lo, hi, c, fate), lo, hi)
    decreases hi - lo, 1, 0
  {
    var outcome := fate(Range(lo, hi));
    QueuedAreSmaller(lo, hi, c, outcome, 0);
    PiecesTile(lo, hi, c, outcome, 0);
    CallsTile(Pieces(lo, hi, c, outcome, 0), hi - lo, c, fate, lo, hi);
  }

  /** How many of the ranges contain x. */
  function Hits(rs: seq<Range>, x: int): nat
    decreases |rs|
  {
    if rs == [] then 0 else (if rs[0].Contains(x) then 1 else 0) + Hits(rs[1..], x)
  }

  lemma {:induction false} TilesHitOnce(rs: seq<Range>, lo: nat, hi: nat, x: int)
    requires TilesDown(rs, lo, hi)
    ensures Hits(rs, x) == if lo <= x < hi then 1 else 0
    decreases |rs|
  {
    TilesAreOrdered(rs, lo, hi);
    if rs != [] {
      TilesAreOrdered(rs[1..], lo, rs[0].lo);
      TilesHitOnce(rs[1..], lo, rs[0].lo, x);
    }
  }

  /** So the job's function is called on each index of the range exactly once, and on no other. */
  lemma EachIndexOnce(lo: nat, hi: nat, c: pos, fate: Range -> (nat -> Outcome), x: int)
    requires lo <= hi
    ensures Hits(TreeCalls(lo, hi, c, fate), x) == if lo <= x < hi then 1 else 0
  {
    TreeTiles(lo, hi, c, fate);
    TilesHitOnce(TreeCalls(lo, hi, c, fate), lo, hi, x);
  }

  // ---------------------------------------------------------------- balance and alignment

  /** How many chunks of size c cover t elements. */
  function Chunks(t: nat, c: pos): (k: nat)
  {
    (t + c - 1) / c
  }

  lemma DivUnique(a: nat, c: pos, q: nat)
    requires c * q <= a < c * q + c
    ensures a / c == q
  {
    var d := a / c - q;
    assert a == c * (a / c) + a % c;
    assert c * d == c * (a / c) - c * q;
    PowerOfTwo.FarMultiple(c, d);
  }

  lemma ChunksIs(t: nat, c: pos, k: nat)
    requires t <= c * k && (k > 0 ==> c * (k - 1) < t)
    ensures Chunks(t, c) == k
  {
    if k > 0 { assert c * (k - 1) == c * k - c; }
    DivUnique(t + c - 1, c, k);
  }

  lemma ChunksFit(t: nat, c: pos)
    ensures t <= c * Chunks(t, c)
    ensures t > 0 ==> Chunks(t, c) > 0 && c * (Chunks(t, c) - 1) < t
  {
    var k := Chunks(t, c);
    assert t + c - 1 == c * k + (t + c - 1) % c;
    if t > 0 {
      assert c * k > 0;
      assert c * (k - 1) == c * k - c;
    }
  }

  lemma RoundUpIs(m: nat, c: pos)
    ensures (if m % c == 0 then m else m + (c - m % c)) == c * Chunks(m, c)
  {
    var q: nat, r := m / c, m % c;
    assert m == c * q + r;
    if r == 0 {
      if q > 0 { assert c * (q - 1) == c * q - c; }
      ChunksIs(m, c, q);
    } else {
      assert c * (q + 1) == c * q + c && c * (q + 1 - 1) == c * q;
      ChunksIs(m, c, q + 1);
    }
  }

  lemma ChunksShift(a: nat, h: nat, c: pos)
    requires h > 0
    ensures Chunks(c * a + h, c) == a + Chunks(h, c)
  {
    var j := Chunks(h, c);
    ChunksFit(h, c);
    assert c * (a + j) == c * a + c * j;
    assert c * (a + j - 1) == c * a + c * (j - 1);
    ChunksIs(c * a + h, c, a + j);
  }

  /** Half of k chunks' worth of elements needs half of k chunks, rounded down or up. */
  lemma HalfTheChunks(t: nat, c: pos)
    requires t > c
    ensures var k, j := Chunks(t, c), Chunks(t / 2, c);
            k >= 2 && j >= 1 && (j == k / 2 || j == (k + 1) / 2)
    ensures c * Chunks(t / 2, c) < t && Chunks(t - c * Chunks(t / 2, c), c) == Chunks(t, c) - Chunks(t / 2, c)
  {
    var k := Chunks(t, c);
    ChunksFit(t, c);
    assert c * (k - 1) == c * k - c && c * (k - 1) > 0;
    var m := k / 2;
    assert c * (2 * m) == 2 * (c * m);
    if k % 2 == 0 {
      assert k == 2 * m;
      EvenHalf(t, c, m);
      RestChunks(t, c, k, m);
    } else {
      assert k == 2 * m + 1 && c * (2 * m + 1) == 2 * (c * m) + c;
      OddHalf(t, c, m);
      RestChunks(t, c, k, Chunks(t / 2, c));
    }
  }

  lemma EvenHalf(t: nat, c: pos, m: nat)
    requires m > 0 && 2 * (c * m) - c < t <= 2 * (c * m)
    ensures Chunks(t / 2, c) == m
  {
    assert c * (m - 1) == c * m - c;
    ChunksIs(t / 2, c, m);
  }

  lemma OddHalf(t: nat, c: pos, m: nat)
    requires m > 0 && 2 * (c * m) < t <= 2 * (c * m) + c
    ensures Chunks(t / 2, c) == m || Chunks(t / 2, c) == m + 1
  {
    assert c * (m - 1) == c * m - c && c * (m + 1) == c * m + c;
    ChunksIs(t / 2, c, if t / 2 == c * m then m else m + 1);
  }

  lemma RestChunks(t: nat, c: pos, k: nat, j: nat)
    requires c * (k - 1) < t <= c * k && j < k
    ensures c * j < t && Chunks(t - c * j, c) == k - j
  {
    assert c * (k - j) == c * k - c * j;
    assert c * (k - j - 1) == c * (k - 1) - c * j;
    assert c * (k - 1 - j) >= 0;
    ChunksIs(t - c * j, c, k - j);
  }

  /** A range that starts at a multiple of the chunk size and is longer than one chunk is always cut:
      the early exit is never taken, and the cut, itself at a multiple, leaves half of the chunks on
      either side, one more or less when their number is odd. */
  lemma Balanced(a: nat, t: nat, c: pos)
    requires t > c
    ensures var lo, k := c * a, Chunks(t, c);
            var mid := MidPoint(lo, lo + t, c);
            && Splits(lo, lo + t, c) && lo < mid < lo + t && mid % c == 0
            && Chunks(mid - lo, c) + Chunks(lo + t - mid, c) == k
            && (Chunks(mid - lo, c) == k / 2 || Chunks(mid - lo, c) == (k + 1) / 2)
  {
    var lo, j := c * a, Chunks(t / 2, c);
    HalfTheChunks(t, c);
    CutIs(a, t, c);
    CutAt(a, j, c);
  }

  /** The left part of a cut after j chunks. */
  lemma CutAt(a: nat, j: nat, c: pos)
    requires j > 0
    ensures c * (a + j) == c * a + c * j && c * j > 0 && (c * (a + j)) % c == 0 && Chunks(c * j, c) == j
  {
    MultipleMod(c, a + j);
    assert c * (j - 1) == c * j - c && c * (j - 1) >= 0;
    ChunksIs(c * j, c, j);
  }

  lemma CutIs(a: nat, t: nat, c: pos)
    requires t / 2 > 0
    ensures MidPoint(c * a, c * a + t, c) == c * (a + Chunks(t / 2, c))
  {
    RoundUpIs(c * a + t / 2, c);
    ChunksShift(a, t / 2, c);
  }

  lemma MultipleMod(c: pos, q: nat)
    ensures (c * q) % c == 0
  {
    PowerOfTwo.RemainderIs(c * q, c, q, 0);
  }

  lemma MultipleOf(x: nat, c: pos) returns (a: nat)
    requires x % c == 0
    ensures x == c * a
  {
    a := x / c;
  }

  /** A task's loop makes at most ceil(log2 k) cuts in a range of k chunks, whatever fails. */
  lemma {:induction false} LogarithmicLoop(lo: nat, hi: nat, c: pos, outcome: nat -> Outcome, i: nat, m: nat)
    requires lo <= hi && lo % c == 0 && Chunks(hi - lo, c) <= PowerOfTwo.Pow2(m)
    ensures |Pieces(lo, hi, c, outcome, i)| <= m + 1
    decreases hi
  {
    if Splits(lo, hi, c) {
      var a := MultipleOf(lo, c);
      Balanced(a, hi - lo, c);
      assert PowerOfTwo.Pow2(0) == 1;
      LogarithmicLoop(lo, MidPoint(lo, hi, c), c, outcome, i + 1, m - 1);
    }
  }

  // ---------------------------------------------------------------- alignment of every call

  /** Starts at a multiple of the chunk size and ends at one, or where the job ends. */
  predicate Aligned(r: Range, c: pos, n: nat) {
    r.lo % c == 0 && r.lo <= r.hi <= n && (r.hi % c == 0 || r.hi == n)
  }

  /** One of the job's chunks. */
  predicate IsChunk(r: Range, c: pos, n: nat) {
    r.lo % c == 0 && r.hi == (if r.lo + c <= n then r.lo + c else n)
  }

  ghost predicate AllQueued(fate: Range -> (nat -> Outcome)) {
    forall r, i :: fate(r)(i) == Pushed
  }

  lemma {:induction false} PiecesAligned(lo: nat, hi: nat, c: pos, outcome: nat -> Outcome, i: nat, n: nat)
    requires Aligned(Range(lo, hi), c, n) && (lo < hi || n == 0)
    ensures forall p :: p in Pieces(lo, hi, c, outcome, i) ==> Aligned(p.range, c, n) && (p.range.lo < p.range.hi || n == 0)
    decreases hi
  {
    if Splits(lo, hi, c) {
      var a := MultipleOf(lo, c);
      Balanced(a, hi - lo, c);
      PiecesAligned(lo, MidPoint(lo, hi, c), c, outcome, i + 1, n);
    }
  }

  /** When nothing is refused, the only piece a task runs itself is at most one chunk long. */
  lemma {:induction false} OnlyShortCalls(lo: nat, hi: nat, c: pos, outcome: nat -> Outcome, i: nat, n: nat)
    requires Aligned(Range(lo, hi), c, n) && (lo < hi || n == 0) && forall k :: outcome(k) == Pushed
    ensures forall p :: p in Pieces(lo, hi, c, outcome, i) && !p.queued ==> p.range.hi - p.range.lo <= c
    decreases hi
  {
    if hi - lo > c {
      var a := MultipleOf(lo, c);
      Balanced(a, hi - lo, c);
      OnlyShortCalls(lo, MidPoint(lo, hi, c), c, outcome, i + 1, n);
    }
  }

  lemma ShortIsChunk(r: Range, c: pos, n: nat)
    requires Aligned(r, c, n) && (r.lo < r.hi || n == 0) && r.hi - r.lo <= c
    ensures IsChunk(r, c, n)
  {
    if r.hi % c == 0 && r.lo < r.hi {
      var a := MultipleOf(r.lo, c);
      var b := MultipleOf(r.hi, c);
      assert c * (b - a) == r.hi - r.lo;
      PowerOfTwo.FarMultiple(c, b - a);
      PowerOfTwo.FarMultiple(c, b - a - 1);
      assert c * (b - a - 1) == c * (b - a) - c;
    }
  }

  lemma {:induction false} CallsAreChunks(pieces: seq<Piece>, size: nat, c: pos, fate: Range -> (nat -> Outcome), n: nat)
    requires AllQueued(fate)
    requires forall p :: p in pieces && p.queued ==> p.range.lo <= p.range.hi && p.range.hi - p.range.lo < size
    requires forall p :: p in pieces ==> Aligned(p.range, c, n) && (p.range.lo < p.range.hi || n == 0)
    requires forall p :: p in pieces && !p.queued ==> p.range.hi - p.range.lo <= c
    ensures forall r :: r in Calls(pieces, size, c, fate) ==> IsChunk(r, c, n)
    decreases size, 0, |pieces|
  {
    if pieces != [] {
      assert pieces[0] in pieces;
      CallsAreChunks(pieces[1..], size, c, fate, n);
      if pieces[0].queued { TreeIsChunks(pieces[0].range.lo, pieces[0].range.hi, c, fate, n); }
      else { ShortIsChunk(pieces[0].range, c, n); }
    }
  }

  lemma {:induction false} TreeIsChunks(lo: nat, hi: nat, c: pos, fate: Range -> (nat -> Outcome), n: nat)
    requires AllQueued(fate) && Aligned(Range(lo, hi), c, n) && (lo < hi || n == 0)
    ensures forall r :: r in TreeCalls(lo, hi, c, fate) ==> IsChunk(r, c, n)
    decreases hi - lo, 1, 0
  {
    var outcome := fate(Range(lo, hi));
    assert forall k :: outcome(k) == Pushed;
    QueuedAreSmaller(lo, hi, c, outcome, 0);
    PiecesAligned(lo, hi, c, outcome, 0, n);
    OnlyShortCalls(lo, hi, c, outcome, 0, n);
    CallsAreChunks(Pieces(lo, hi, c, outcome, 0), hi - lo, c, fate, n);
  }

  lemma {:induction false} ChunkTiles(rs: seq<Range>, hi: nat, c: pos, n: nat)
    requires TilesDown(rs, 0, hi) && n > 0 && hi <= n && (hi == n || hi % c == 0)
    requires forall r :: r in rs ==> IsChunk(r, c, n) && r.lo < r.hi
    ensures |rs| == Chunks(hi, c)
    decreases |rs|
  {
    if rs == [] {
      ChunksIs(0, c, 0);
    } else {
      var r := rs[0];
      assert r in rs;
      TilesAreOrdered(rs[1..], 0, r.lo);
      ChunkTiles(rs[1..], r.lo, c, n);
      OneMoreChunk(r.lo, r.hi - r.lo, c);
    }
  }

  /** A stretch of at most a chunk, after a multiple of the chunk size. */
  lemma OneMoreChunk(lo: nat, t: nat, c: pos)
    requires lo % c == 0 && 0 < t <= c
    ensures Chunks(lo + t, c) == Chunks(lo, c) + 1
  {
    var a := MultipleOf(lo, c);
    WholeChunks(a, c);
    assert Chunks(t, c) == 1 by {
      assert c * 1 == c && c * 0 == 0;
      ChunksIs(t, c, 1);
    }
    ChunksShift(a, t, c);
  }

  lemma WholeChunks(a: nat, c: pos)
    ensures Chunks(c * a, c) == a
  {
    if a > 0 { assert c * (a - 1) == c * a - c; }
    ChunksIs(c * a, c, a);
  }

  /** When nothing is refused, a job of n elements is run as its chunks and nothing else: each call
      is one chunk, and there are as many calls as chunks. */
  lemma OneCallPerChunk(n: nat, c: pos, fate: Range -> (nat -> Outcome))
    requires AllQueued(fate)
    ensures forall r :: r in TreeCalls(0, n, c, fate) ==> IsChunk(r, c, n)
    ensures n > 0 ==> |TreeCalls(0, n, c, fate)| == Chunks(n, c)
  {
    TreeIsChunks(0, n, c, fate, n);
    TreeTiles(0, n, c, fate);
    if n > 0 {
      TreeNonEmpty(0, n, c, fate, n);
      ChunkTiles(TreeCalls(0, n, c, fate), n, c, n);
    }
  }

  lemma {:induction false} CallsNonEmpty(pieces: seq<Piece>, size: nat, c: pos, fate: Range -> (nat -> Outcome), n: nat)
    requires n > 0
    requires forall p :: p in pieces && p.queued ==> p.range.lo <= p.range.hi && p.range.hi - p.range.lo < size
    requires forall p :: p in pieces ==> Aligned(p.range, c, n) && p.range.lo < p.range.hi
    ensures forall r :: r in Calls(pieces, size, c, fate) ==> r.lo < r.hi
    decreases size, 0, |pieces|
  {
    if pieces != [] {
      assert pieces[0] in pieces;
      CallsNonEmpty(pieces[1..], size, c, fate, n);
      if pieces[0].queued { TreeNonEmpty(pieces[0].range.lo, pieces[0].range.hi, c, fate, n); }
    }
  }

  /** No call is empty unless the job is. */
  lemma {:induction false} TreeNonEmpty(lo: nat, hi: nat, c: pos, fate: Range -> (nat -> Outcome), n: nat)
    requires Aligned(Range(lo, hi), c, n) && lo < hi
    ensures forall r :: r in TreeCalls(lo, hi, c, fate) ==> r.lo < r.hi
    decreases hi - lo, 1, 0
  {
    var outcome := fate(Range(lo, hi));
    QueuedAreSmaller(lo, hi, c, outcome, 0);
    PiecesAligned(lo, hi, c, outcome, 0, n);
    CallsNonEmpty(Pieces(lo, hi, c, outcome, 0), hi - lo, c, fate, n);
  }
}
