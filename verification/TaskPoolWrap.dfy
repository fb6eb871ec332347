/**
 What the pool's tag does not protect against: a run of the pool as it is booted, every swap of which
 is harmless but the last. In it 2^32 swaps pass between one acquire's load of the head word and its
 compare-and-swap; this finds the very word again, succeeds, and makes a node that sits in another
 thread's cache the head of the free list.

 While thread 0 stands still with the head word and a link in its hands, thread 1 goes through bursts:
 it acquires until it holds 65 nodes, and releases them so that the first node of the list becomes its
 first node again, while its second node and the bottom of the cache change places.
 */
module TaskPoolWrap {
  import opened TaskPool

  // ---------------------------------------------------------------- reachable pools

  /** p is the outcome of a run, with timely swaps only, of the pool that boot leaves. */
  ghost predicate Reachable(p0: Pool, p: Pool) {
    Init(p0) && exists run :: IsRun(p0, run) && Final(p0, run) == p
  }

  lemma InvOf(p0: Pool, p: Pool)
    requires Reachable(p0, p)
    ensures Inv(p)
  {
    var run :| IsRun(p0, run) && Final(p0, run) == p;
    InitInv(p0);
    InvRun(p0, run);
  }

  lemma {:induction false} OneMore(p: Pool, run: seq<Action>, a: Action)
    requires IsRun(p, run) && Enabled(Final(p, run), a) && Timely(Final(p, run), a)
    ensures IsRun(p, run + [a]) && Final(p, run + [a]) == Apply(Final(p, run), a)
    decreases |run|
  {
    if run == [] {
      assert run + [a] == [a] && [a][1..] == [];
    } else {
      OneMore(Apply(p, run[0]), run[1..], a);
      assert (run + [a])[0] == run[0] && (run + [a])[1..] == run[1..] + [a];
    }
  }

  lemma Onward(p0: Pool, p: Pool, a: Action)
    requires Reachable(p0, p) && Enabled(p, a) && Timely(p, a)
    ensures Reachable(p0, Apply(p, a))
  {
    var run :| IsRun(p0, run) && Final(p0, run) == p;
    OneMore(p0, run, a);
  }

  predicate Idle(p: Pool, t: ThreadId) {
    t in p.threads && p.threads[t].pc.Resting?
  }

  function CacheOf(p: Pool, t: ThreadId): seq<Node>
    requires Idle(p, t)
  {
    p.threads[t].cache
  }

  /** In the midst of a call of thread t: nothing has changed but links, and where the thread is. */
  ghost predicate OnItsWay(p: Pool, q: Pool, t: ThreadId, pc: Pc)
    requires t in p.threads
  {
    && q.threads == p.threads[t := p.threads[t].(pc := pc)] && q.chain == p.chain && q.swaps == p.swaps
    && forall n: nat :: Holds(q, n) <==> Holds(p, n)
  }

  // ---------------------------------------------------------------- taking nodes

  /** Somebody has taken the first k nodes of the list. */
  ghost predicate TookList(p: Pool, q: Pool, k: nat) {
    && k <= |p.chain| && q.threads == p.threads && q.chain == p.chain[k..] && q.swaps == p.swaps + k
    && forall n: nat :: Holds(p, n) || n in p.chain[..k] ==> Holds(q, n)
  }

  lemma LoadsHead(p0: Pool, p: Pool, t: ThreadId) returns (q: Pool)
    requires Reachable(p0, p) && Idle(p, t) && CacheOf(p, t) == [] && p.chain != []
    ensures Reachable(p0, q) && OnItsWay(p, q, t, ReadNext(p.head, p.swaps))
  {
    InvOf(p0, p);
    EmptyWord(p);
    Onward(p0, p, Acquire(t));
    var p1 := Apply(p, Acquire(t));
    Onward(p0, p1, Step(t));
    q := Apply(p1, Step(t));
  }

  lemma ReadsLink(p0: Pool, p: Pool, t: ThreadId) returns (q: Pool)
    requires Reachable(p0, p) && t in p.threads && p.threads[t].pc == ReadNext(p.head, p.swaps) && p.chain != []
    ensures Reachable(p0, q) && OnItsWay(p, q, t, Unlink(p.head, p.swaps, LinkOf(p.chain, 1)))
  {
    InvOf(p0, p);
    NeverOutOfBounds(p, t);
    Onward(p0, p, Step(t));
    q := Apply(p, Step(t));
    EmptyWord(p);
    assert p.next[p.chain[0]] == LinkOf(p.chain, 1);
  }

  lemma SwapsNow(p0: Pool, p: Pool, t: ThreadId) returns (q: Pool)
    requires Reachable(p0, p) && t in p.threads && p.threads[t].pc.Unlink? && p.threads[t].pc.at == p.swaps && p.chain != []
    ensures Reachable(p0, q) && q.threads == p.threads[t := p.threads[t].(pc := Resting)]
    ensures q.chain == p.chain[1..] && q.swaps == p.swaps + 1
    ensures forall n: nat :: Holds(p, n) || n == p.chain[0] ==> Holds(q, n)
  {
    InvOf(p0, p);
    NeverOutOfBounds(p, t);
    assert ThreadOk(p, t);
    EmptyWord(p);
    Onward(p0, p, Step(t));
    q := Apply(p, Step(t));
  }

  lemma TakeOne(p0: Pool, p: Pool, t: ThreadId) returns (q: Pool)
    requires Reachable(p0, p) && Idle(p, t) && CacheOf(p, t) == [] && p.chain != []
    ensures Reachable(p0, q) && TookList(p, q, 1)
  {
    var p1 := LoadsHead(p0, p, t);
    WordStays(p0, p, p1);
    var p2 := ReadsLink(p0, p1, t);
    q := SwapsNow(p0, p2, t);
    assert q.threads == p.threads;
    assert p.chain[..1] == [p.chain[0]];
  }

  /** Equal lists and equal counts of swaps make equal head words. */
  lemma WordStays(p0: Pool, p: Pool, q: Pool)
    requires Reachable(p0, p) && Reachable(p0, q)
    requires LinkOf(p.chain, 0) == LinkOf(q.chain, 0) && p.swaps % TAGS == q.swaps % TAGS
    ensures p.head == q.head
  {
    InvOf(p0, p);
    InvOf(p0, q);
    PackUnpack(0, 0, p.head);
    PackUnpack(0, 0, q.head);
  }

  lemma {:induction false} TakeMany(p0: Pool, p: Pool, t: ThreadId, k: nat) returns (q: Pool)
    requires Reachable(p0, p) && Idle(p, t) && CacheOf(p, t) == [] && k <= |p.chain|
    ensures Reachable(p0, q) && TookList(p, q, k)
    decreases k
  {
    if k == 0 {
      q := p;
    } else {
      var p1 := TakeOne(p0, p, t);
      q := TakeMany(p0, p1, t, k - 1);
      TookOn(p, p1, q, k);
    }
  }

  lemma TookOn(p: Pool, p1: Pool, q: Pool, k: nat)
    requires 0 < k <= |p.chain| && TookList(p, p1, 1) && TookList(p1, q, k - 1)
    ensures TookList(p, q, k)
  {
    assert p.chain[..k] == p.chain[..1] + p1.chain[..k - 1];
    assert p1.chain[k - 1..] == p.chain[k..];
  }

  /** Thread t has taken all nodes out of its cache. */
  ghost predicate Emptied(p: Pool, q: Pool, t: ThreadId)
    requires Idle(p, t)
  {
    && q.threads == p.threads[t := Thread([], Resting)] && q.chain == p.chain && q.swaps == p.swaps
    && forall n: nat :: Holds(p, n) || n in CacheOf(p, t) ==> Holds(q, n)
  }

  lemma TakeCached(p0: Pool, p: Pool, t: ThreadId) returns (q: Pool)
    requires Reachable(p0, p) && Idle(p, t) && CacheOf(p, t) != []
    ensures var c := CacheOf(p, t);
            && Reachable(p0, q) && q.threads == p.threads[t := Thread(c[..|c| - 1], Resting)]
            && q.chain == p.chain && q.swaps == p.swaps
            && forall n: nat :: Holds(p, n) || n == c[|c| - 1] ==> Holds(q, n)
  {
    InvOf(p0, p);
    assert ThreadOk(p, t);
    Onward(p0, p, Acquire(t));
    q := Apply(p, Acquire(t));
  }

  lemma {:induction false} EmptyCache(p0: Pool, p: Pool, t: ThreadId) returns (q: Pool)
    requires Reachable(p0, p) && Idle(p, t)
    ensures Reachable(p0, q) && Emptied(p, q, t)
    decreases if t in p.threads then |p.threads[t].cache| else 0
  {
    var c := CacheOf(p, t);
    if c == [] {
      q := p;
      assert p.threads == p.threads[t := Thread([], Resting)];
    } else {
      var p1 := TakeCached(p0, p, t);
      q := EmptyCache(p0, p1, t);
      assert c == c[..|c| - 1] + [c[|c| - 1]];
    }
  }

  // ---------------------------------------------------------------- giving nodes back

  predicate Distinct(ws: seq<Node>) {
    forall i, j :: 0 <= i < j < |ws| ==> ws[i] != ws[j]
  }

  /** Thread t has put ws into its cache. */
  ghost predicate PutAway(p: Pool, q: Pool, t: ThreadId, ws: seq<Node>)
    requires Idle(p, t)
  {
    && q.threads == p.threads[t := Thread(CacheOf(p, t) + ws, Resting)] && q.chain == p.chain && q.swaps == p.swaps
    && forall n: nat :: Holds(p, n) && n !in ws ==> Holds(q, n)
  }

  lemma PutOne(p0: Pool, p: Pool, t: ThreadId, n: Node) returns (q: Pool)
    requires Reachable(p0, p) && Idle(p, t) && |CacheOf(p, t)| < CACHE && Holds(p, n)
    ensures Reachable(p0, q) && PutAway(p, q, t, [n])
  {
    Onward(p0, p, Release(t, n));
    q := Apply(p, Release(t, n));
  }

  lemma {:induction false} PutAll(p0: Pool, p: Pool, t: ThreadId, ws: seq<Node>) returns (q: Pool)
    requires Reachable(p0, p) && Idle(p, t) && |CacheOf(p, t)| + |ws| <= CACHE && Distinct(ws)
    requires forall i: nat :: i < |ws| ==> Holds(p, ws[i])
    ensures Reachable(p0, q) && PutAway(p, q, t, ws)
    decreases |ws|
  {
    if ws == [] {
      q := p;
      assert CacheOf(p, t) + ws == CacheOf(p, t);
      assert p.threads == p.threads[t := Thread(CacheOf(p, t), Resting)];
    } else {
      var p1 := PutOne(p0, p, t, ws[0]);
      forall i: nat | i < |ws[1..]| ensures Holds(p1, ws[1..][i]) { assert ws[1 + i] != ws[0]; }
      q := PutAll(p0, p1, t, ws[1..]);
      PutOn(p, p1, q, t, ws);
    }
  }

  lemma PutOn(p: Pool, p1: Pool, q: Pool, t: ThreadId, ws: seq<Node>)
    requires Idle(p, t) && Idle(p1, t) && ws != [] && PutAway(p, p1, t, [ws[0]]) && PutAway(p1, q, t, ws[1..])
    ensures PutAway(p, q, t, ws)
  {
    assert CacheOf(p1, t) + ws[1..] == CacheOf(p, t) + ws;
    assert ws == [ws[0]] + ws[1..];
  }

  lemma StartRelease(p0: Pool, p: Pool, t: ThreadId, n: Node) returns (q: Pool)
    requires Reachable(p0, p) && Idle(p, t) && |CacheOf(p, t)| == CACHE && Holds(p, n)
    ensures Reachable(p0, q) && q.threads == p.threads[t := Thread(CacheOf(p, t), Link(n, KEPT + 1))]
    ensures q.chain == p.chain && q.swaps == p.swaps
  {
    Onward(p0, p, Release(t, n));
    q := Apply(p, Release(t, n));
  }

  /** Any step of a release before its swap. */
  lemma OneLink(p0: Pool, p: Pool, t: ThreadId) returns (q: Pool)
    requires Reachable(p0, p) && t in p.threads
    requires p.threads[t].pc.Link? || p.threads[t].pc.LoadTop? || p.threads[t].pc.LinkTail?
    ensures Reachable(p0, q) && t in q.threads && OnItsWay(p, q, t, q.threads[t].pc)
    ensures match p.threads[t].pc
            case Link(n, i) => q.threads[t].pc == if i < CACHE then Link(n, i + 1) else LoadTop(n)
            case LoadTop(n) => q.threads[t].pc == LinkTail(n, p.head, p.swaps)
            case LinkTail(n, word, at) => q.threads[t].pc == Splice(n, word, at)
            case _ => true
    ensures q.head == p.head
  {
    InvOf(p0, p);
    NeverOutOfBounds(p, t);
    Onward(p0, p, Step(t));
    q := Apply(p, Step(t));
  }

  lemma {:induction false} LinkAll(p0: Pool, p: Pool, t: ThreadId, n: Node, i: nat) returns (q: Pool)
    requires Reachable(p0, p) && t in p.threads && p.threads[t].pc == Link(n, i) && i <= CACHE
    ensures Reachable(p0, q) && OnItsWay(p, q, t, LoadTop(n))
    decreases CACHE - i
  {
    q := OneLink(p0, p, t);
    if i < CACHE { q := LinkAll(p0, q, t, n, i + 1); }
  }

  lemma SpliceNow(p0: Pool, p: Pool, t: ThreadId) returns (q: Pool)
    requires Reachable(p0, p) && t in p.threads && p.threads[t].pc.Splice? && p.threads[t].pc.word == p.head
    ensures |p.threads[t].cache| == CACHE
    ensures Reachable(p0, q) && q.threads == p.threads[t := Thread(p.threads[t].cache[..KEPT], Resting)]
    ensures q.chain == Evicted(p.threads[t].pc.node, p.threads[t].cache) + p.chain && q.swaps == p.swaps + 1
  {
    InvOf(p0, p);
    NeverOutOfBounds(p, t);
    Onward(p0, p, Step(t));
    q := Apply(p, Step(t));
  }

  /** Thread t, whose cache is full, releases node n, and half of its cache with it. */
  lemma SpliceIn(p0: Pool, p: Pool, t: ThreadId, n: Node) returns (q: Pool)
    requires Reachable(p0, p) && Idle(p, t) && |CacheOf(p, t)| == CACHE && Holds(p, n)
    ensures Reachable(p0, q) && q.threads == p.threads[t := Thread(CacheOf(p, t)[..KEPT], Resting)]
    ensures q.chain == Evicted(n, CacheOf(p, t)) + p.chain && q.swaps == p.swaps + 1
  {
    var p1 := StartRelease(p0, p, t, n);
    var p2 := LinkAll(p0, p1, t, n, KEPT + 1);
    var p3 := OneLink(p0, p2, t);
    var p4 := OneLink(p0, p3, t);
    q := SpliceNow(p0, p4, t);
    assert q.threads == p.threads[t := Thread(CacheOf(p, t)[..KEPT], Resting)];
  }

  // ---------------------------------------------------------------- a burst

  /** Thread t empties its cache, takes the first a nodes of the list, and releases ws and then the
      first of them. */
  ghost predicate CanBurst(p: Pool, t: ThreadId, a: nat, ws: seq<Node>) {
    && Idle(p, t) && 0 < a <= |p.chain| && |ws| == CACHE && Distinct(ws)
    && forall i: nat :: i < |ws| ==> ws[i] in CacheOf(p, t) || ws[i] in p.chain[1..a]
  }

  lemma FirstNotAgain(p0: Pool, p: Pool, t: ThreadId, a: nat, ws: seq<Node>)
    requires Reachable(p0, p) && CanBurst(p, t, a, ws)
    ensures p.chain[0] !in ws
  {
    InvOf(p0, p);
    assert ThreadOk(p, t);
    forall i: nat | i < |ws| ensures ws[i] != p.chain[0] {}
  }

  lemma Burst(p0: Pool, p: Pool, t: ThreadId, a: nat, ws: seq<Node>) returns (q: Pool)
    requires Reachable(p0, p) && CanBurst(p, t, a, ws)
    ensures Reachable(p0, q) && q.threads == p.threads[t := Thread(ws[..KEPT], Resting)]
    ensures q.chain == Evicted(p.chain[0], ws) + p.chain[a..] && q.swaps == p.swaps + a + 1
  {
    FirstNotAgain(p0, p, t, a, ws);
    var p1 := EmptyCache(p0, p, t);
    var p2 := TakeMany(p0, p1, t, a);
    forall i: nat | i < |ws| ensures Holds(p2, ws[i]) {
      if ws[i] in p.chain[1..a] { assert p.chain[1..a] == p.chain[..a][1..]; }
    }
    var p3 := PutAll(p0, p2, t, ws);
    assert p.chain[0] == p.chain[..a][0];
    assert CacheOf(p3, t) == ws;
    q := SpliceIn(p0, p3, t, p.chain[0]);
    assert q.threads == p.threads[t := Thread(ws[..KEPT], Resting)];
  }

  /** The nodes that a burst of a thread with KEPT cached nodes releases: the second and following
      of the list first, the bottom of the cache last. */
  function Returned(p: Pool, t: ThreadId): seq<Node>
    requires Idle(p, t) && |CacheOf(p, t)| == KEPT && |p.chain| > KEPT
  {
    p.chain[1..KEPT + 1] + CacheOf(p, t)[1..] + [CacheOf(p, t)[0]]
  }

  lemma ReturnedOnce(p0: Pool, p: Pool, t: ThreadId)
    requires Reachable(p0, p) && Idle(p, t) && |CacheOf(p, t)| == KEPT && |p.chain| > KEPT
    ensures Distinct(Returned(p, t))
  {
    InvOf(p0, p);
    assert ThreadOk(p, t);
    var ws, c := Returned(p, t), CacheOf(p, t);
    forall i, j | 0 <= i < j < |ws| ensures ws[i] != ws[j] {
      assert j >= KEPT ==> p.place[ws[j]] == Cached(t);
      assert i < KEPT ==> p.place[ws[i]] == Listed;
    }
  }

  /** A burst that takes m nodes for good: the head of the list stays, its second node and the bottom
      of the cache change places. */
  lemma BurstTurns(p0: Pool, p: Pool, t: ThreadId, m: nat) returns (q: Pool)
    requires Reachable(p0, p) && Idle(p, t) && |CacheOf(p, t)| == KEPT && |p.chain| > KEPT + m
    ensures Reachable(p0, q) && q.threads.Keys == p.threads.Keys && Idle(q, t)
    ensures forall u :: u in p.threads && u != t ==> q.threads[u] == p.threads[u]
    ensures |CacheOf(q, t)| == KEPT && |q.chain| == |p.chain| - m && q.swaps == p.swaps + KEPT + 2 + m
    ensures q.chain[0] == p.chain[0] && q.chain[1] == CacheOf(p, t)[0] && CacheOf(q, t)[0] == p.chain[1]
  {
    var ws, a := Returned(p, t), KEPT + 1 + m;
    ReturnedOnce(p0, p, t);
    forall i: nat | i < |ws| ensures ws[i] in CacheOf(p, t) || ws[i] in p.chain[1..a] {
      if i < KEPT { assert ws[i] == p.chain[1..a][i]; }
    }
    q := Burst(p0, p, t, a, ws);
  }

  /** k bursts. */
  lemma {:induction false} Bursts(p0: Pool, p: Pool, t: ThreadId, k: nat) returns (q: Pool)
    requires Reachable(p0, p) && Idle(p, t) && |CacheOf(p, t)| == KEPT && |p.chain| > KEPT
    ensures Reachable(p0, q) && q.threads.Keys == p.threads.Keys && Idle(q, t)
    ensures forall u :: u in p.threads && u != t ==> q.threads[u] == p.threads[u]
    ensures |CacheOf(q, t)| == KEPT && |q.chain| == |p.chain| && q.swaps == p.swaps + k * (KEPT + 2)
    ensures q.chain[0] == p.chain[0]
    ensures k % 2 == 0 ==> q.chain[1] == p.chain[1] && CacheOf(q, t)[0] == CacheOf(p, t)[0]
    ensures k % 2 == 1 ==> q.chain[1] == CacheOf(p, t)[0] && CacheOf(q, t)[0] == p.chain[1]
    decreases k
  {
    if k == 0 {
      q := p;
    } else {
      var p1 := Bursts(p0, p, t, k - 1);
      q := BurstTurns(p0, p1, t, 0);
    }
  }

  // ---------------------------------------------------------------- 2^32 swaps

  /** The first burst, out of an empty cache. */
  lemma FirstBurst(p0: Pool, t: ThreadId) returns (q: Pool)
    requires Init(p0) && t in p0.threads && |p0.next| >= CACHE + 1
    ensures Reachable(p0, q) && Idle(q, t) && |CacheOf(q, t)| == KEPT && |q.chain| == |p0.next| - KEPT
    ensures q.threads.Keys == p0.threads.Keys
    ensures forall u :: u in p0.threads && u != t ==> q.threads[u] == p0.threads[u]
  {
    assert IsRun(p0, []) && Final(p0, []) == p0;
    q := Burst(p0, p0, t, CACHE + 1, p0.chain[1..CACHE + 1]);
  }

  /** Thread 0 has loaded the head word and the link behind it, and stops. */
  lemma VictimStops(p0: Pool) returns (q: Pool)
    requires Init(p0) && 0 in p0.threads && 1 in p0.threads && |p0.next| >= CACHE + 1
    ensures Reachable(p0, q) && Idle(q, 1) && |CacheOf(q, 1)| == KEPT && |q.chain| == |p0.next| - KEPT
    ensures 0 in q.threads && q.threads[0] == Thread([], Unlink(q.head, q.swaps, LinkOf(q.chain, 1)))
  {
    var p1 := FirstBurst(p0, 1);
    var p2 := LoadsHead(p0, p1, 0);
    WordStays(p0, p1, p2);
    q := ReadsLink(p0, p2, 0);
    WordStays(p0, p1, q);
  }

  /** From boot, with two threads and 83 nodes or more, the pool reaches a state in which thread 0's
      compare-and-swap, exactly 2^32 swaps after its load, succeeds with a stale link; every swap before
      it was timely. */
  lemma WrapIsReachable(p0: Pool) returns (p: Pool)
    requires Init(p0) && 0 in p0.threads && 1 in p0.threads && |p0.next| >= 83
    ensures Reachable(p0, p) && Enabled(p, Step(0)) && SwapsOut(p, Step(0))
    ensures p.swaps - p.threads[0].pc.at == TAGS && !Current(p, Step(0))
    ensures InCacheOf(p, 1, p.threads[0].pc.next)
  {
    var p1 := VictimStops(p0);
    var p2 := BurstTurns(p0, p1, 1, 18);
    p := Bursts(p0, p2, 1, 126322566);
    WordStays(p0, p1, p);
    assert p.threads[0].pc.next == p1.chain[1] == CacheOf(p, 1)[0];
    StandsStale(p0, p, 0, 1);
  }

  lemma StandsStale(p0: Pool, p: Pool, t: ThreadId, u: ThreadId)
    requires Reachable(p0, p) && t in p.threads && p.threads[t].pc.Unlink? && p.threads[t].pc.word == p.head
    requires |p.chain| > 1 && InCacheOf(p, u, p.threads[t].pc.next)
    ensures Enabled(p, Step(t)) && SwapsOut(p, Step(t)) && !Current(p, Step(t))
  {
    InvOf(p0, p);
    NeverOutOfBounds(p, t);
    NotListed(p, u, p.threads[t].pc.next, 1);
  }

  lemma NotListed(p: Pool, t: ThreadId, n: Node, k: nat)
    requires Inv(p) && InCacheOf(p, t, n) && k < |p.chain|
    ensures p.chain[k] != n
  {
    assert ThreadOk(p, t);
  }

  /** That step puts a node that thread 1 has in its cache at the head of the free list. */
  lemma WrapListsCachedNode(p0: Pool) returns (p: Pool, q: Pool)
    requires Init(p0) && 0 in p0.threads && 1 in p0.threads && |p0.next| >= 83
    ensures Reachable(p0, p) && Enabled(p, Step(0)) && q == Apply(p, Step(0))
    ensures InCacheOf(q, 1, Index(q.head)) && !Inv(q)
  {
    p := WrapIsReachable(p0);
    q := Apply(p, Step(0));
    InvOf(p0, p);
    KeptIffCurrent(p, Step(0));
    assert ThreadOk(p, 0);
    SuccessorIs(p.head, p.swaps, p.threads[0].pc.next);
  }
}
