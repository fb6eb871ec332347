/**
 How a range is spawned: scheduler_spawn_subtasks (src/sk_scheduler.c:291-366), batch by batch, for
 every range, every chunk size and every pattern of failed acquires and refused pushes.
 */
module Spawning {
  import opened Basics
  import opened Splitting
  import Merging
  import PowerOfTwo

  const BATCH_SIZE := 256
  const DEFAULT_CHUNK_SIZE: pos := 128

  /** What the environment allows one pass: how many nodes the pool would give, and how many the
      deque would take. */
  datatype Pass = Pass(nodes: nat, room: nat)

  function Min(a: nat, b: nat): nat {
    if a < b then a else b
  }

  /** Where chunk number k starts: start_idx + k * chunk_size. */
  function At(lo: nat, c: pos, k: nat): nat {
    lo + k * c
  }

  /** Chunk number k of [lo, hi). */
  function ChunkAt(lo: nat, hi: nat, c: pos, k: nat): Range {
    Range(At(lo, c, k), Min(At(lo, c, k) + c, hi))
  }

  /** The children made from chunk `done` on: n of them, of which the first `taken` are queued. */
  function Children(lo: nat, hi: nat, c: pos, done: nat, n: nat, taken: nat): (r: seq<Piece>)
    ensures |r| == n
  {
    seq(n, k requires 0 <= k < n => Piece(ChunkAt(lo, hi, c, done + k), k < taken))
  }

  function ThisPass(lo: nat, hi: nat, c: pos, done: nat): nat
    requires lo <= hi && done <= Chunks(hi - lo, c)
  {
    Min(Chunks(hi - lo, c) - done, BATCH_SIZE)
  }

  function Acquired(lo: nat, hi: nat, c: pos, done: nat, p: Pass): nat
    requires lo <= hi && done <= Chunks(hi - lo, c)
  {
    Min(p.nodes, ThisPass(lo, hi, c, done))
  }

  /** The rest of the range from chunk k on, run by one call in place, if there is any. */
  function Rest(lo: nat, hi: nat, c: pos, k: nat): seq<Piece> {
    if At(lo, c, k) < hi then [Piece(Range(At(lo, c, k), hi), false)] else []
  }

  /** A pass that gets n nodes is the last: no node, or not all of its children taken. */
  predicate Ends(p: Pass, n: nat) {
    n == 0 || p.room < n
  }

  /** What such a pass makes of the range from chunk `done` on. */
  function Made(lo: nat, hi: nat, c: pos, p: Pass, done: nat, n: nat): seq<Piece> {
    if n == 0 then [Piece(Range(At(lo, c, done), hi), false)]
    else Children(lo, hi, c, done, n, Min(p.room, n)) + (if p.room < n then Rest(lo, hi, c, done + n) else [])
  }

  /** What becomes of the chunks from number `done` on, from the i-th pass on. */
  function Passes(lo: nat, hi: nat, c: pos, env: nat -> Pass, done: nat, i: nat): seq<Piece>
    requires lo <= hi && done <= Chunks(hi - lo, c)
    decreases Chunks(hi - lo, c) - done
  {
    if done == Chunks(hi - lo, c) then []
    else
      var n := Acquired(lo, hi, c, done, env(i));
      var taken := Min(env(i).room, n);
      if n == 0 then [Piece(Range(At(lo, c, done), hi), false)]
      else if taken < n then Children(lo, hi, c, done, n, taken) + Rest(lo, hi, c, done + n)
      else Children(lo, hi, c, done, n, n) + Passes(lo, hi, c, env, done + ThisPass(lo, hi, c, done), i + 1)
  }

  /** Some pass that is reached gets some of its nodes but not all, and a deque with room for them. */
  predicate Skips(lo: nat, hi: nat, c: pos, env: nat -> Pass, done: nat, i: nat)
    requires lo <= hi && done <= Chunks(hi - lo, c)
    decreases Chunks(hi - lo, c) - done
  {
    if done == Chunks(hi - lo, c) then false
    else
      var n := Acquired(lo, hi, c, done, env(i));
      n > 0 && env(i).room >= n &&
      (n < ThisPass(lo, hi, c, done) || Skips(lo, hi, c, env, done + ThisPass(lo, hi, c, done), i + 1))
  }

  // ---------------------------------------------------------------- the function itself

  function ChunkSize(chunk: nat): pos {
    if chunk == 0 then DEFAULT_CHUNK_SIZE else chunk
  }

  /** scheduler_spawn_subtasks: what it does with the range, and that the parent's counter ends up
      greater by exactly the number of children queued. */
  method SpawnSubtasks(lo: nat, hi: nat, chunk: nat, env: nat -> Pass, deps0: nat) returns (pieces: seq<Piece>, deps: int)
    ensures lo >= hi ==> pieces == []
    ensures lo < hi ==> pieces == Passes(lo, hi, ChunkSize(chunk), env, 0, 0)
    ensures lo < hi && Unhindered(env) ==> OneChildPerChunk(pieces, lo, hi, if chunk == 0 then 128 else chunk)
    ensures lo < hi && chunk == hi - lo ==> |pieces| == 1 && pieces[0].range == Range(lo, hi)
    ensures lo + 2 <= hi && chunk == (hi - lo) - (hi - lo) / 2 && env(0).nodes >= 2 && env(0).room >= 2 ==>
              pieces == [Piece(Range(lo, Merging.Mid(lo, hi)), true), Piece(Range(Merging.Mid(lo, hi), hi), true)]
    ensures deps == deps0 + CountQueued(pieces)
  {
    pieces := [];
    deps := deps0;
    if lo >= hi {
      return;
    }
    pieces, deps := SpawnInBatches(lo, hi, ChunkSize(chunk), env, deps0);
    SpawnsAsAsked(lo, hi, chunk, env);
  }

  /** The pool and the deque can take a whole pass, every time. */
  ghost predicate Unhindered(env: nat -> Pass) {
    forall i :: env(i).nodes >= 256 && env(i).room >= 256
  }

  /** The pieces are the chunks of c indices of [lo, hi), in order and all queued. */
  predicate OneChildPerChunk(pieces: seq<Piece>, lo: nat, hi: nat, c: nat) {
    && pieces != [] && lo + (|pieces| - 1) * c < hi <= lo + |pieces| * c
    && forall k :: 0 <= k < |pieces| ==>
         pieces[k] == Piece(Range(lo + k * c, if lo + (k + 1) * c < hi then lo + (k + 1) * c else hi), true)
  }

  lemma SpawnsAsAsked(lo: nat, hi: nat, chunk: nat, env: nat -> Pass)
    requires lo < hi
    ensures var pieces := Passes(lo, hi, ChunkSize(chunk), env, 0, 0);
            && (Unhindered(env) ==> OneChildPerChunk(pieces, lo, hi, if chunk == 0 then 128 else chunk))
            && (chunk == hi - lo ==> |pieces| == 1 && pieces[0].range == Range(lo, hi))
            && (lo + 2 <= hi && chunk == (hi - lo) - (hi - lo) / 2 && env(0).nodes >= 2 && env(0).room >= 2 ==>
                  pieces == [Piece(Range(lo, Merging.Mid(lo, hi)), true), Piece(Range(Merging.Mid(lo, hi), hi), true)])
  {
    if Unhindered(env) { UnhinderedSpawn(lo, hi, ChunkSize(chunk), env); }
    if chunk == hi - lo { OneChunkOneCall(lo, hi, env); }
    if lo + 2 <= hi && chunk == (hi - lo) - (hi - lo) / 2 && env(0).nodes >= 2 && env(0).room >= 2 {
      HalvesAreTwoChildren(lo, hi, env);
    }
  }

  lemma UnhinderedSpawn(lo: nat, hi: nat, c: pos, env: nat -> Pass)
    requires lo < hi && Unhindered(env)
    ensures OneChildPerChunk(Passes(lo, hi, c, env, 0, 0), lo, hi, c)
  {
    var ps, total := Passes(lo, hi, c, env, 0, 0), Chunks(hi - lo, c);
    ChunksFit(hi - lo, c);
    AllChunksQueued(lo, hi, c, env, 0, 0);
    ChunkEnd(lo, hi, c, total - 1);
    assert (total - 1) * c + c == total * c;
    forall k | 0 <= k < |ps|
      ensures ps[k] == Piece(Range(lo + k * c, if lo + (k + 1) * c < hi then lo + (k + 1) * c else hi), true)
    {
      assert ps[k] == Piece(ChunkAt(lo, hi, c, k), true) && (k + 1) * c == k * c + c;
    }
  }

  lemma {:induction false} AllChunksQueued(lo: nat, hi: nat, c: pos, env: nat -> Pass, done: nat, i: nat)
    requires lo < hi && done <= Chunks(hi - lo, c) && Unhindered(env)
    ensures var ps := Passes(lo, hi, c, env, done, i);
            |ps| == Chunks(hi - lo, c) - done && forall k :: 0 <= k < |ps| ==> ps[k] == Piece(ChunkAt(lo, hi, c, done + k), true)
    decreases Chunks(hi - lo, c) - done
  {
    if done < Chunks(hi - lo, c) {
      var pass := ThisPass(lo, hi, c, done);
      AllChunksQueued(lo, hi, c, env, done + pass, i + 1);
      var rest := Passes(lo, hi, c, env, done + pass, i + 1);
      assert env(i).nodes >= 256 && env(i).room >= 256;
      assert Passes(lo, hi, c, env, done, i) == Children(lo, hi, c, done, pass, pass) + rest;
      forall k | 0 <= k < |rest| ensures rest[k] == Piece(ChunkAt(lo, hi, c, done + (pass + k)), true) {
        assert done + pass + k == done + (pass + k);
      }
    }
  }

  /** Pass by pass, what becomes of the chunks from `done` on: the first of them, as many as there are nodes
      and room for, up to 256, become tasks; the others of the pass that got a node are called in place, one
      by one; and when a node or room was missing, all that is left after those is called at once. */
  lemma OnePassQueues(lo: nat, hi: nat, c: pos, env: nat -> Pass, done: nat, i: nat)
    requires lo < hi && done < Chunks(hi - lo, c)
    ensures var ps, total := Passes(lo, hi, c, env, done, i), Chunks(hi - lo, c);
            var pass := if total - done < 256 then total - done else 256;
            var n := if env(i).nodes < pass then env(i).nodes else pass;
            && done + pass <= total && |ps| >= n
            && (forall k :: 0 <= k < n ==> ps[k].range.lo == lo + (done + k) * c && (ps[k].queued <==> k < env(i).room))
            && (if n > 0 && env(i).room >= n then ps[n..] == Passes(lo, hi, c, env, done + pass, i + 1)
                else ps[n..] == if lo + (done + n) * c < hi then [Piece(Range(lo + (done + n) * c, hi), false)] else [])
  {
    var n := Acquired(lo, hi, c, done, env(i));
    var ps := Passes(lo, hi, c, env, done, i);
    var cs := Children(lo, hi, c, done, n, Min(env(i).room, n));
    if n == 0 {
      ChunkEnd(lo, hi, c, done);
      assert ps[0..] == ps;
    } else {
      assert ps[..n] == cs;
      forall k | 0 <= k < n ensures ps[k].range.lo == lo + (done + k) * c && (ps[k].queued <==> k < env(i).room) {
        assert ps[k] == ps[..n][k] == cs[k];
      }
    }
  }

  /** The loop over batches of at most 256 nodes. */
  method SpawnInBatches(lo: nat, hi: nat, c: pos, env: nat -> Pass, deps0: nat) returns (pieces: seq<Piece>, deps: int)
    requires lo < hi
    ensures pieces == Passes(lo, hi, c, env, 0, 0)
    ensures deps == deps0 + CountQueued(pieces)
  {
    pieces := [];
    deps := deps0;
    var total := Chunks(hi - lo, c);
    var done, i := 0, 0;
    ghost var all := Passes(lo, hi, c, env, 0, 0);
    while done < total
      invariant done <= total
      invariant pieces + Passes(lo, hi, c, env, done, i) == all
      invariant deps == deps0 + CountQueued(pieces)
    {
      var ended;
      pieces, ended, done, deps := OnePass(pieces, lo, hi, c, env, done, i, deps, all);
      if ended {
        return;
      }
      i := i + 1;
    }
    assert pieces + [] == pieces;
  }

  /** One round of that loop. */
  method OnePass(before: seq<Piece>, lo: nat, hi: nat, c: pos, env: nat -> Pass, done: nat, i: nat, deps0: int, ghost all: seq<Piece>)
    returns (pieces: seq<Piece>, ended: bool, next: nat, deps: int)
    requires lo < hi && done < Chunks(hi - lo, c) && before + Passes(lo, hi, c, env, done, i) == all
    ensures deps - CountQueued(pieces) == deps0 - CountQueued(before)
    ensures done < next <= Chunks(hi - lo, c)
    ensures if ended then pieces == all else pieces + Passes(lo, hi, c, env, next, i + 1) == all
  {
    var pass := ThisPass(lo, hi, c, done);
    var made;
    made, ended, deps := RunPass(lo, hi, c, env(i), done, pass, deps0);
    PassJoins(before, lo, hi, c, env, done, i, made, ended);
    pieces := before + made;
    next := done + pass;
  }

  /** What one pass does with the range from chunk `done` on; it ends the call when a node or a place
      in the deque was missing. */
  method RunPass(lo: nat, hi: nat, c: pos, env: Pass, done: nat, pass: nat, deps0: int)
    returns (made: seq<Piece>, ended: bool, deps: int)
    ensures ended == Ends(env, Min(env.nodes, pass)) && made == Made(lo, hi, c, env, done, Min(env.nodes, pass))
    ensures deps == deps0 + CountQueued(made)
  {
    var batch := AcquireBatch(lo, hi, c, done, pass, env.nodes);
    var n := |batch|;
    if n == 0 {
      CountOne([], Piece(Range(At(lo, c, done), hi), false));
      assert [] + [Piece(Range(At(lo, c, done), hi), false)] == [Piece(Range(At(lo, c, done), hi), false)];
      return [Piece(Range(At(lo, c, done), hi), false)], true, deps0;
    }
    deps := deps0 + n;
    var pushed := Min(env.room, n);
    ended := pushed < n;
    made := Children(lo, hi, c, done, n, pushed);
    CountAllChildren(lo, hi, c, done, n, pushed);
    if ended {
      deps := deps - (n - pushed);
      made := RunRest(made, lo, hi, c, done + n);
    } else {
      assert made == made + [];
    }
  }

  /** What is left of the range after a pass cut short is run by one call in place. */
  method RunRest(before: seq<Piece>, lo: nat, hi: nat, c: pos, k: nat) returns (made: seq<Piece>)
    ensures made == before + Rest(lo, hi, c, k) && CountQueued(made) == CountQueued(before)
  {
    made := before;
    var start := At(lo, c, k);
    if start < hi {
      CountOne(made, Piece(Range(start, hi), false));
      made := made + [Piece(Range(start, hi), false)];
    } else {
      assert before == before + [];
    }
  }

  lemma CountAllChildren(lo: nat, hi: nat, c: pos, done: nat, n: nat, taken: nat)
    requires taken <= n
    ensures CountQueued(Children(lo, hi, c, done, n, taken)) == taken
  {
    CountChildren([], lo, hi, c, done, n, taken);
    assert [] + Children(lo, hi, c, done, n, taken) == Children(lo, hi, c, done, n, taken);
  }

  lemma PassIs(lo: nat, hi: nat, c: pos, env: nat -> Pass, done: nat, i: nat, made: seq<Piece>, ended: bool)
    requires lo <= hi && done < Chunks(hi - lo, c)
    requires ended == Ends(env(i), Acquired(lo, hi, c, done, env(i)))
    requires made == Made(lo, hi, c, env(i), done, Acquired(lo, hi, c, done, env(i)))
    ensures var pass := ThisPass(lo, hi, c, done);
            && pass > 0 && done + pass <= Chunks(hi - lo, c)
            && Passes(lo, hi, c, env, done, i) == made + (if ended then [] else Passes(lo, hi, c, env, done + pass, i + 1))
  {
    var n := Acquired(lo, hi, c, done, env(i));
    if ended { assert made + [] == made; }
    else { assert made == Children(lo, hi, c, done, n, n); }
  }

  /** What a pass made, joined to what was made before it. */
  lemma PassJoins(pieces: seq<Piece>, lo: nat, hi: nat, c: pos, env: nat -> Pass, done: nat, i: nat, made: seq<Piece>, ended: bool)
    requires lo <= hi && done < Chunks(hi - lo, c)
    requires ended == Ends(env(i), Acquired(lo, hi, c, done, env(i)))
    requires made == Made(lo, hi, c, env(i), done, Acquired(lo, hi, c, done, env(i)))
    ensures CountQueued(pieces + made) == CountQueued(pieces) + CountQueued(made)
    ensures var pass := ThisPass(lo, hi, c, done);
            && pass > 0 && done + pass <= Chunks(hi - lo, c)
            && pieces + Passes(lo, hi, c, env, done, i) ==
                 (if ended then pieces + made else (pieces + made) + Passes(lo, hi, c, env, done + pass, i + 1))
  {
    PassIs(lo, hi, c, env, done, i, made, ended);
    CountJoin(pieces, made);
    if !ended { Grouped(pieces, made, Passes(lo, hi, c, env, done + ThisPass(lo, hi, c, done), i + 1)); }
    else { assert made + [] == made; }
  }

  lemma {:induction false} CountJoin(a: seq<Piece>, b: seq<Piece>)
    ensures CountQueued(a + b) == CountQueued(a) + CountQueued(b)
    decreases |b|
  {
    if b == [] {
      assert a + b == a;
    } else {
      assert a + b == (a + b[..|b| - 1]) + [b[|b| - 1]];
      CountOne(a + b[..|b| - 1], b[|b| - 1]);
      CountJoin(a, b[..|b| - 1]);
    }
  }

  /** The loop that acquires and fills in the nodes of one pass. */
  method AcquireBatch(lo: nat, hi: nat, c: pos, done: nat, pass: nat, nodes: nat) returns (batch: seq<Range>)
    ensures batch == seq(Min(nodes, pass), k requires k >= 0 => ChunkAt(lo, hi, c, done + k))
  {
    batch := [];
    var i := 0;
    while i < pass
      invariant 0 <= i <= pass && |batch| == i <= nodes
      invariant forall k :: 0 <= k < i ==> batch[k] == ChunkAt(lo, hi, c, done + k)
    {
      if i == nodes {
        break;
      }
      var start := At(lo, c, done + i);
      var end := start + c;
      if end > hi {
        end := hi;
      }
      batch := batch + [Range(start, end)];
      i := i + 1;
    }
  }

  lemma Grouped(a: seq<Piece>, b: seq<Piece>, c: seq<Piece>)
    ensures (a + b) + c == a + (b + c)
  {
  }

  lemma CountOne(pieces: seq<Piece>, p: Piece)
    ensures CountQueued(pieces + [p]) == CountQueued(pieces) + (if p.queued then 1 else 0)
  {
    Appended(pieces, p, []);
  }

  lemma {:induction false} CountChildren(pieces: seq<Piece>, lo: nat, hi: nat, c: pos, done: nat, n: nat, taken: nat)
    requires taken <= n
    ensures CountQueued(pieces + Children(lo, hi, c, done, n, taken)) == CountQueued(pieces) + taken
    decreases n
  {
    var cs := Children(lo, hi, c, done, n, taken);
    if n == 0 {
      assert pieces + cs == pieces;
    } else {
      var most := if taken < n then taken else n - 1;
      CountChildren(pieces, lo, hi, c, done, n - 1, most);
      assert cs == Children(lo, hi, c, done, n - 1, most) + [cs[n - 1]];
      assert pieces + cs == (pieces + Children(lo, hi, c, done, n - 1, most)) + [cs[n - 1]];
      CountOne(pieces + Children(lo, hi, c, done, n - 1, most), cs[n - 1]);
    }
  }

  // ---------------------------------------------------------------- what is covered

  lemma {:induction false} HitsJoin(a: seq<Range>, b: seq<Range>, x: int)
    ensures Hits(a + b, x) == Hits(a, x) + Hits(b, x)
    decreases |a|
  {
    if a == [] {
      assert a + b == b;
    } else {
      HitsJoin(a[1..], b, x);
      assert (a + b)[1..] == a[1..] + b;
    }
  }

  lemma PiecesJoin(a: seq<Piece>, b: seq<Piece>, x: int)
    ensures Hits(Ranges(a + b), x) == Hits(Ranges(a), x) + Hits(Ranges(b), x)
  {
    assert Ranges(a + b) == Ranges(a) + Ranges(b);
    HitsJoin(Ranges(a), Ranges(b), x);
  }

  /** The hits of a pass and of what follows it. */
  lemma PassHits(lo: nat, hi: nat, c: pos, env: nat -> Pass, done: nat, i: nat, x: int)
    requires lo < hi && done < Chunks(hi - lo, c)
    ensures var n, pass := Acquired(lo, hi, c, done, env(i)), ThisPass(lo, hi, c, done);
            && pass > 0 && n <= pass && done + pass <= Chunks(hi - lo, c)
            && Start(lo, hi, c, done) <= Start(lo, hi, c, done + n) <= Start(lo, hi, c, done + pass)
            && Hits(Ranges(Passes(lo, hi, c, env, done, i)), x) ==
                 (if n == 0 || env(i).room < n
                  then if Start(lo, hi, c, done) <= x < hi then 1 else 0
                  else (if Start(lo, hi, c, done) <= x < Start(lo, hi, c, done + n) then 1 else 0)
                       + Hits(Ranges(Passes(lo, hi, c, env, done + pass, i + 1)), x))
  {
    var n, pass := Acquired(lo, hi, c, done, env(i)), ThisPass(lo, hi, c, done);
    var taken := Min(env(i).room, n);
    ChildrenHit(lo, hi, c, done + n, pass - n, 0, x);
    ChildrenHit(lo, hi, c, done, n, taken, x);
    if n == 0 {
      ChunkEnd(lo, hi, c, done);
      RestHit(lo, hi, c, done, x);
    } else if taken < n {
      RestHit(lo, hi, c, done + n, x);
      PiecesJoin(Children(lo, hi, c, done, n, taken), Rest(lo, hi, c, done + n), x);
      StartInside(lo, hi, c, done + n);
    } else {
      PiecesJoin(Children(lo, hi, c, done, n, n), Passes(lo, hi, c, env, done + pass, i + 1), x);
    }
  }

  lemma StartInside(lo: nat, hi: nat, c: pos, k: nat)
    requires lo < hi
    ensures Start(lo, hi, c, k) <= hi
    ensures k < Chunks(hi - lo, c) ==> Start(lo, hi, c, k) < hi
  {
    if k < Chunks(hi - lo, c) { ChunkEnd(lo, hi, c, k); }
  }

  /** The last chunk ends at hi; every other chunk ends where the next one starts. */
  lemma ChunkEnd(lo: nat, hi: nat, c: pos, k: nat)
    requires lo < hi && k < Chunks(hi - lo, c)
    ensures At(lo, c, k) < hi
    ensures Min(At(lo, c, k) + c, hi) == if k + 1 < Chunks(hi - lo, c) then At(lo, c, k + 1) else hi
  {
    var total := Chunks(hi - lo, c);
    ChunksFit(hi - lo, c);
    assert (k + 1) * c == k * c + c;
    LessTimes(c, k, total - 1);
    if k + 1 < total { LessTimes(c, k + 1, total - 1); }
  }

  lemma LessTimes(c: pos, j: nat, k: nat)
    requires j <= k
    ensures c * j <= c * k && c * j == j * c
  {
    assert c * k - c * j == c * (k - j);
    if k > j { PowerOfTwo.FarMultiple(c, k - j); }
  }

  /** Where chunk k starts, or hi past the last chunk. */
  function Start(lo: nat, hi: nat, c: pos, k: nat): nat
    requires lo <= hi
  {
    if k < Chunks(hi - lo, c) then At(lo, c, k) else hi
  }

  /** The children of one pass cover exactly the stretch from their first chunk to the next one. */
  lemma {:induction false} ChildrenHit(lo: nat, hi: nat, c: pos, done: nat, n: nat, taken: nat, x: int)
    requires lo < hi && done + n <= Chunks(hi - lo, c)
    ensures Start(lo, hi, c, done) <= Start(lo, hi, c, done + n)
    ensures Hits(Ranges(Children(lo, hi, c, done, n, taken)), x) ==
            if Start(lo, hi, c, done) <= x < Start(lo, hi, c, done + n) then 1 else 0
    decreases n
  {
    var cs := Children(lo, hi, c, done, n, taken);
    if n == 0 {
      assert Ranges(cs) == [];
    } else {
      var less := if taken > 0 then taken - 1 else 0;
      ChildrenHit(lo, hi, c, done + 1, n - 1, less, x);
      assert Ranges(cs)[1..] == Ranges(Children(lo, hi, c, done + 1, n - 1, less));
      assert Ranges(cs)[0] == ChunkAt(lo, hi, c, done);
      ChunkEnd(lo, hi, c, done);
    }
  }

  lemma RestHit(lo: nat, hi: nat, c: pos, k: nat, x: int)
    requires lo < hi && k <= Chunks(hi - lo, c)
    ensures Hits(Ranges(Rest(lo, hi, c, k)), x) == if Start(lo, hi, c, k) <= x < hi then 1 else 0
  {
    if k < Chunks(hi - lo, c) {
      ChunkEnd(lo, hi, c, k);
      assert Ranges(Rest(lo, hi, c, k))[1..] == [];
    } else {
      ChunksFit(hi - lo, c);
      LessTimes(c, k, k);
    }
  }

  /** As long as no pass is short of nodes without being short of room, each index is dealt with
      exactly once. */
  lemma {:induction false} Covers(lo: nat, hi: nat, c: pos, env: nat -> Pass, done: nat, i: nat, x: int)
    requires lo < hi && done <= Chunks(hi - lo, c) && !Skips(lo, hi, c, env, done, i)
    ensures Hits(Ranges(Passes(lo, hi, c, env, done, i)), x) == if Start(lo, hi, c, done) <= x < hi then 1 else 0
    decreases Chunks(hi - lo, c) - done
  {
    if done < Chunks(hi - lo, c) {
      var n, pass := Acquired(lo, hi, c, done, env(i)), ThisPass(lo, hi, c, done);
      PassHits(lo, hi, c, env, done, i, x);
      StartInside(lo, hi, c, done + pass);
      if n > 0 && env(i).room >= n { Covers(lo, hi, c, env, done + pass, i + 1, x); }
    }
  }

  lemma {:induction false} NothingBefore(lo: nat, hi: nat, c: pos, env: nat -> Pass, done: nat, i: nat, x: int)
    requires lo < hi && done <= Chunks(hi - lo, c) && x < Start(lo, hi, c, done)
    ensures Hits(Ranges(Passes(lo, hi, c, env, done, i)), x) == 0
    decreases Chunks(hi - lo, c) - done
  {
    if done < Chunks(hi - lo, c) {
      var n, pass := Acquired(lo, hi, c, done, env(i)), ThisPass(lo, hi, c, done);
      PassHits(lo, hi, c, env, done, i, x);
      if n > 0 && env(i).room >= n { NothingBefore(lo, hi, c, env, done + pass, i + 1, x); }
    }
  }

  /** Otherwise some index is left out: the first of the chunks that the short pass skips. */
  lemma {:induction false} LeftOut(lo: nat, hi: nat, c: pos, env: nat -> Pass, done: nat, i: nat) returns (x: nat)
    requires lo < hi && done <= Chunks(hi - lo, c) && Skips(lo, hi, c, env, done, i)
    ensures Start(lo, hi, c, done) <= x < hi && Hits(Ranges(Passes(lo, hi, c, env, done, i)), x) == 0
    decreases Chunks(hi - lo, c) - done
  {
    var n, pass := Acquired(lo, hi, c, done, env(i)), ThisPass(lo, hi, c, done);
    if n < pass {
      x := Start(lo, hi, c, done + n);
      StartInside(lo, hi, c, done + n);
      StartsApart(lo, hi, c, done + n, pass - n);
      NothingBefore(lo, hi, c, env, done + pass, i + 1, x);
    } else {
      x := LeftOut(lo, hi, c, env, done + pass, i + 1);
    }
    PassHits(lo, hi, c, env, done, i, x);
  }

  lemma StartsApart(lo: nat, hi: nat, c: pos, k: nat, n: nat)
    requires lo < hi && n > 0 && k + n <= Chunks(hi - lo, c)
    ensures Start(lo, hi, c, k) < Start(lo, hi, c, k + n)
  {
    ChildrenHit(lo, hi, c, k + 1, n - 1, 0, 0);
    ChunkEnd(lo, hi, c, k);
  }

  /** The exact condition: the queued chunks, the refused chunks run in place and the remainder run
      in place deal with every index of [lo, hi) exactly once, if and only if no pass gets some but
      not all of its nodes and then has all of these accepted by the deque. */
  lemma SpawnCoversExactly(lo: nat, hi: nat, chunk: nat, env: nat -> Pass)
    requires lo < hi
    ensures (forall x: int :: lo <= x < hi ==> Hits(Ranges(Passes(lo, hi, ChunkSize(chunk), env, 0, 0)), x) == 1)
            <==> !Skips(lo, hi, ChunkSize(chunk), env, 0, 0)
    ensures !Skips(lo, hi, ChunkSize(chunk), env, 0, 0) ==>
              forall x: int :: !(lo <= x < hi) ==> Hits(Ranges(Passes(lo, hi, ChunkSize(chunk), env, 0, 0)), x) == 0
  {
    var c := ChunkSize(chunk);
    ChunksFit(hi - lo, c);
    if Skips(lo, hi, c, env, 0, 0) {
      var x := LeftOut(lo, hi, c, env, 0, 0);
    } else {
      forall x: int ensures Hits(Ranges(Passes(lo, hi, c, env, 0, 0)), x) == if lo <= x < hi then 1 else 0 {
        Covers(lo, hi, c, env, 0, 0, x);
      }
    }
  }

  /** The condition can fail: with one node left in the pool and room in the deque, the second of two
      chunks is never run. */
  lemma SkippedChunk()
    ensures var env := (i: nat) => Pass(1, 100);
            Skips(0, 256, 128, env, 0, 0) && Hits(Ranges(Passes(0, 256, 128, env, 0, 0)), 128) == 0
  {
    var env := (i: nat) => Pass(1, 100);
    ChunksIs(256, 128, 2);
    ChildrenHit(0, 256, 128, 0, 1, 1, 128);
    ChildrenHit(0, 256, 128, 1, 1, 1, 128);
    assert Passes(0, 256, 128, env, 2, 1) == [];
    assert Passes(0, 256, 128, env, 0, 0) == Children(0, 256, 128, 0, 1, 1) + [];
    assert Passes(0, 256, 128, env, 0, 0) == Children(0, 256, 128, 0, 1, 1);
  }

  // ---------------------------------------------------------------- the same loop, advancing by the nodes it got

  /** The loop with line 364 advancing by the number of nodes obtained instead of the size of the pass. */
  function PassesByNodes(lo: nat, hi: nat, c: pos, env: nat -> Pass, done: nat, i: nat): seq<Piece>
    requires lo <= hi && done <= Chunks(hi - lo, c)
    decreases Chunks(hi - lo, c) - done
  {
    if done == Chunks(hi - lo, c) then []
    else
      var n := Acquired(lo, hi, c, done, env(i));
      if Ends(env(i), n) then Made(lo, hi, c, env(i), done, n)
      else Children(lo, hi, c, done, n, n) + PassesByNodes(lo, hi, c, env, done + n, i + 1)
  }

  /** The hits of a pass that ends the loop. */
  lemma LastPassHits(lo: nat, hi: nat, c: pos, p: Pass, done: nat, x: int)
    requires lo < hi && done < Chunks(hi - lo, c) && Ends(p, Acquired(lo, hi, c, done, p))
    ensures Hits(Ranges(Made(lo, hi, c, p, done, Acquired(lo, hi, c, done, p))), x) ==
            if Start(lo, hi, c, done) <= x < hi then 1 else 0
  {
    var n := Acquired(lo, hi, c, done, p);
    if n == 0 {
      ChunkEnd(lo, hi, c, done);
      RestHit(lo, hi, c, done, x);
    } else {
      ChildrenHit(lo, hi, c, done, n, p.room, x);
      RestHit(lo, hi, c, done + n, x);
      PiecesJoin(Children(lo, hi, c, done, n, p.room), Rest(lo, hi, c, done + n), x);
      StartInside(lo, hi, c, done + n);
    }
  }

  lemma {:induction false} CoversByNodes(lo: nat, hi: nat, c: pos, env: nat -> Pass, done: nat, i: nat, x: int)
    requires lo < hi && done <= Chunks(hi - lo, c)
    ensures Hits(Ranges(PassesByNodes(lo, hi, c, env, done, i)), x) == if Start(lo, hi, c, done) <= x < hi then 1 else 0
    decreases Chunks(hi - lo, c) - done
  {
    if done < Chunks(hi - lo, c) {
      var n := Acquired(lo, hi, c, done, env(i));
      if Ends(env(i), n) {
        LastPassHits(lo, hi, c, env(i), done, x);
      } else {
        CoversByNodes(lo, hi, c, env, done + n, i + 1, x);
        ChildrenHit(lo, hi, c, done, n, n, x);
        PiecesJoin(Children(lo, hi, c, done, n, n), PassesByNodes(lo, hi, c, env, done + n, i + 1), x);
        StartInside(lo, hi, c, done + n);
      }
    }
  }

  /** Without a pass that skips chunks the two loops do the same. */
  lemma {:induction false} SameWithoutSkip(lo: nat, hi: nat, c: pos, env: nat -> Pass, done: nat, i: nat)
    requires lo < hi && done <= Chunks(hi - lo, c) && !Skips(lo, hi, c, env, done, i)
    ensures PassesByNodes(lo, hi, c, env, done, i) == Passes(lo, hi, c, env, done, i)
    decreases Chunks(hi - lo, c) - done
  {
    if done < Chunks(hi - lo, c) {
      var n := Acquired(lo, hi, c, done, env(i));
      if !Ends(env(i), n) { SameWithoutSkip(lo, hi, c, env, done + n, i + 1); }
    }
  }

  /** Advancing by the nodes obtained, the loop deals with every index of [lo, hi) exactly once and with
      no other, whatever fails; and it differs from the loop as it is exactly where that skips chunks. */
  lemma AdvancingByNodesCovers(lo: nat, hi: nat, chunk: nat, env: nat -> Pass)
    requires lo < hi
    ensures forall x: int :: Hits(Ranges(PassesByNodes(lo, hi, ChunkSize(chunk), env, 0, 0)), x) == if lo <= x < hi then 1 else 0
    ensures PassesByNodes(lo, hi, ChunkSize(chunk), env, 0, 0) == Passes(lo, hi, ChunkSize(chunk), env, 0, 0)
            <==> !Skips(lo, hi, ChunkSize(chunk), env, 0, 0)
  {
    var c := ChunkSize(chunk);
    ChunksFit(hi - lo, c);
    forall x: int ensures Hits(Ranges(PassesByNodes(lo, hi, c, env, 0, 0)), x) == if lo <= x < hi then 1 else 0 {
      CoversByNodes(lo, hi, c, env, 0, 0, x);
    }
    if Skips(lo, hi, c, env, 0, 0) {
      var x := LeftOut(lo, hi, c, env, 0, 0);
    } else {
      SameWithoutSkip(lo, hi, c, env, 0, 0);
    }
  }

  // ---------------------------------------------------------------- the spawns of the sorting examples

  /** A spawn whose chunk is the whole range: whatever fails, one call for exactly that range. */
  lemma OneChunkOneCall(lo: nat, hi: nat, env: nat -> Pass)
    requires lo < hi
    ensures |Passes(lo, hi, hi - lo, env, 0, 0)| == 1 && Passes(lo, hi, hi - lo, env, 0, 0)[0].range == Range(lo, hi)
    ensures !Skips(lo, hi, hi - lo, env, 0, 0)
  {
    var c: pos := hi - lo;
    assert c * 1 == c && c * 0 == 0;
    ChunksIs(hi - lo, c, 1);
    assert At(lo, c, 0) == lo && At(lo, c, 1) == hi;
    assert Passes(lo, hi, c, env, 1, 1) == [];
    assert Rest(lo, hi, c, 1) == [];
    var n := Acquired(lo, hi, c, 0, env(0));
    if n > 0 { assert Children(lo, hi, c, 0, 1, Min(env(0).room, 1))[0].range == Range(lo, hi); }
  }

  /** The merge sort's middle is where the spawn's first chunk ends. */
  lemma MidIsWhereChunksMeet(lo: nat, hi: nat)
    requires lo + 2 <= hi
    ensures var c := (hi - lo) - (hi - lo) / 2;
            && ChunkAt(lo, hi, c, 0) == Range(lo, Merging.Mid(lo, hi))
            && ChunkAt(lo, hi, c, 1) == Range(Merging.Mid(lo, hi), hi)
  {
    var c: pos := (hi - lo) - (hi - lo) / 2;
    assert c * 1 == c && c * 2 == c + c && 0 * c == 0;
  }

  /** A spawn whose chunk is the larger half: two chunks, which meet where the continuation merges; with
      two nodes and room for them both are queued. */
  lemma HalvesAreTwoChildren(lo: nat, hi: nat, env: nat -> Pass)
    requires lo + 2 <= hi && env(0).nodes >= 2 && env(0).room >= 2
    ensures Passes(lo, hi, (hi - lo) - (hi - lo) / 2, env, 0, 0) ==
              [Piece(Range(lo, Merging.Mid(lo, hi)), true), Piece(Range(Merging.Mid(lo, hi), hi), true)]
  {
    var c: pos := (hi - lo) - (hi - lo) / 2;
    assert c * 2 == c + c;
    ChunksIs(hi - lo, c, 2);
    MidIsWhereChunksMeet(lo, hi);
    assert Passes(lo, hi, c, env, 2, 1) == [];
    var children := Children(lo, hi, c, 0, 2, 2);
    assert children == [Piece(ChunkAt(lo, hi, c, 0), true), Piece(ChunkAt(lo, hi, c, 1), true)];
    assert Passes(lo, hi, c, env, 0, 0) == children + [];
    assert children + [] == children;
  }
}
