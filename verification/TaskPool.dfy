/**
 The pool of task nodes (src/sk_scheduler.c:19-136): a free list threaded through `next_free_idx`
 under a head word that packs an index with a tag, and a small cache of nodes for every thread.

 Every access to the head word or to a node's link is one step; the caches are private. A weak
 compare-and-swap may fail although the words are equal (section 7.17.7.4 of ISO/IEC 9899:2011).
 */
module TaskPool {
  import opened Basics

  type Node = nat
  type ThreadId = nat

  const EMPTY: nat := 0xFFFF_FFFF           // POOL_EMPTY_INDEX
  const TAGS: nat := 0x1_0000_0000          // tags are 32 bits wide and wrap around
  const WORDS: nat := 0x1_0000_0000_0000_0000
  const CACHE := 64                         // TASK_CACHE_CAPACITY
  const KEPT := 32                          // TASK_CACHE_CAPACITY - TASK_EVICT_COUNT

  // ---------------------------------------------------------------- the head word

  function Pack(index: nat, tag: nat): nat {
    tag * 0x1_0000_0000 + index
  }

  function Index(word: nat): nat {
    word % 0x1_0000_0000
  }

  function Tag(word: nat): nat {
    word / 0x1_0000_0000
  }

  /** The head word holds both halves, and nothing else. */
  lemma PackUnpack(index: nat, tag: nat, word: nat)
    requires index < TAGS && tag < TAGS && word < WORDS
    ensures Index(Pack(index, tag)) == index && Tag(Pack(index, tag)) == tag && Pack(index, tag) < WORDS
    ensures Pack(Index(word), Tag(word)) == word && Index(word) < TAGS && Tag(word) < TAGS
  {
  }

  /** The word that replaces `word` when the list is to start at `index`. */
  function Successor(word: nat, index: nat): nat {
    Pack(index, (Tag(word) + 1) % TAGS)
  }

  // ---------------------------------------------------------------- state

  /** Where a thread is in its current call; `at` counts the successful swaps of the head before
      the thread loaded `word`, a history variable that no step reads. */
  datatype Pc =
    | Resting
    | LoadHead                                      // acquire, with an empty cache
    | ReadNext(word: nat, at: nat)
    | Unlink(word: nat, at: nat, next: nat)         // about to CAS
    | Link(node: Node, i: nat)                      // release, with a full cache: i-1 evicted nodes linked
    | LoadTop(node: Node)
    | LinkTail(node: Node, word: nat, at: nat)
    | Splice(node: Node, word: nat, at: nat)        // about to CAS

  datatype Thread = Thread(cache: seq<Node>, pc: Pc)

  /** Bookkeeping: who answers for a node. */
  datatype Place = Listed | Cached(t: ThreadId) | Releasing(t: ThreadId) | Allocated

  datatype Pool = Pool(
    next: seq<nat>,                       // next_free_idx of every node
    head: nat,                            // global_pool_head
    threads: map<ThreadId, Thread>,
    swaps: nat,                           // history: successful swaps of the head
    chain: seq<Node>,                     // history: the free list
    place: seq<Place>
  )

  datatype Action =
    | Acquire(t: ThreadId)
    | Release(t: ThreadId, n: Node)
    | Step(t: ThreadId)
    | SpuriousFailure(t: ThreadId)

  predicate AtSwap(p: Pool, t: ThreadId) {
    t in p.threads && (p.threads[t].pc.Unlink? || p.threads[t].pc.Splice?)
  }

  predicate Enabled(p: Pool, a: Action) {
    match a
    case Acquire(t) => t in p.threads && p.threads[t].pc.Resting?
    case Release(t, n) => t in p.threads && p.threads[t].pc.Resting? && n < |p.place| && p.place[n].Allocated?
    case Step(t) => t in p.threads && !p.threads[t].pc.Resting? && StepSafe(p, p.threads[t])
    case SpuriousFailure(t) => AtSwap(p, t)
  }

  /** The indices the step uses are within bounds. */
  predicate StepSafe(p: Pool, th: Thread) {
    match th.pc
    case ReadNext(word, _) => Index(word) < |p.next|
    case Unlink(word, _, _) => Index(word) < |p.place|
    case Link(node, i) => |th.cache| == CACHE && 0 < i <= CACHE && node < |p.next| && (i < CACHE ==> th.cache[i] < |p.next|)
    case LinkTail(node, _, _) => |th.cache| == CACHE && th.cache[KEPT] < |p.next|
    case Splice(node, _, _) => |th.cache| == CACHE
    case _ => true
  }

  function WithPc(p: Pool, t: ThreadId, pc: Pc): Pool
    requires t in p.threads
  {
    p.(threads := p.threads[t := p.threads[t].(pc := pc)])
  }

  /** acquire looks at the head word it has just got; an empty list ends the call. */
  function LookAt(p: Pool, t: ThreadId): Pool
    requires t in p.threads
  {
    WithPc(p, t, if Index(p.head) == EMPTY then Resting else ReadNext(p.head, p.swaps))
  }

  /** The chain that a release puts in front of the list: the node, then the evicted half of the
      cache from its last node down. */
  function Evicted(node: Node, cache: seq<Node>): (r: seq<Node>)
    requires |cache| == CACHE
    ensures |r| == CACHE - KEPT + 1
  {
    seq(CACHE - KEPT + 1, k requires 0 <= k <= CACHE - KEPT => if k == 0 then node else cache[CACHE - k])
  }

  function Relabel(place: seq<Place>, nodes: seq<Node>, p: Place): (r: seq<Place>)
    ensures |r| == |place|
    ensures forall n :: 0 <= n < |place| ==> r[n] == if n in nodes then p else place[n]
  {
    seq(|place|, n requires 0 <= n < |place| => if n in nodes then p else place[n])
  }

  function SetPlace(place: seq<Place>, n: Node, p: Place): seq<Place> {
    if n < |place| then place[n := p] else place
  }

  function StepThread(p: Pool, t: ThreadId): Pool
    requires t in p.threads && StepSafe(p, p.threads[t])
  {
    var th := p.threads[t];
    match th.pc
    case Resting => p
    case LoadHead => LookAt(p, t)
    case ReadNext(word, at) => WithPc(p, t, Unlink(word, at, p.next[Index(word)]))
    case Unlink(word, _, next) =>
      if p.head != word then LookAt(p, t)
      else WithPc(p, t, Resting).(head := Successor(word, next), swaps := p.swaps + 1,
                                  chain := if p.chain == [] then [] else p.chain[1..],
                                  place := SetPlace(p.place, Index(word), Allocated))
    case Link(node, i) =>
      if i < CACHE then WithPc(p, t, Link(node, i + 1)).(next := p.next[th.cache[i] := th.cache[i - 1]])
      else WithPc(p, t, LoadTop(node)).(next := p.next[node := th.cache[CACHE - 1]])
    case LoadTop(node) => WithPc(p, t, LinkTail(node, p.head, p.swaps))
    case LinkTail(node, word, at) =>
      WithPc(p, t, Splice(node, word, at)).(next := p.next[th.cache[KEPT] := Index(word)])
    case Splice(node, word, _) =>
      if p.head != word then WithPc(p, t, LinkTail(node, p.head, p.swaps))
      else p.(threads := p.threads[t := Thread(th.cache[..KEPT], Resting)],
              head := Successor(word, node), swaps := p.swaps + 1,
              chain := Evicted(node, th.cache) + p.chain,
              place := Relabel(p.place, Evicted(node, th.cache), Listed))
  }

  function Apply(p: Pool, a: Action): Pool
    requires Enabled(p, a)
  {
    match a
    case Acquire(t) =>
      var c := p.threads[t].cache;
      if c != [] then p.(threads := p.threads[t := Thread(c[..|c| - 1], Resting)],
                         place := SetPlace(p.place, c[|c| - 1], Allocated))
      else WithPc(p, t, LoadHead)
    case Release(t, n) =>
      var c := p.threads[t].cache;
      if |c| < CACHE then p.(threads := p.threads[t := Thread(c + [n], Resting)], place := p.place[n := Cached(t)])
      else WithPc(p, t, Link(n, KEPT + 1)).(place := p.place[n := Releasing(t)])
    case Step(t) => StepThread(p, t)
    case SpuriousFailure(t) =>
      if p.threads[t].pc.Unlink? then LookAt(p, t)
      else WithPc(p, t, LinkTail(p.threads[t].pc.node, p.head, p.swaps))
  }

  /** The node that the action hands to a caller of acquire. */
  function Given(p: Pool, a: Action): Option<Node>
    requires Enabled(p, a)
  {
    match a
    case Acquire(t) => if p.threads[t].cache != [] then Some(p.threads[t].cache[|p.threads[t].cache| - 1]) else None
    case Step(t) => if p.threads[t].pc.Unlink? && p.head == p.threads[t].pc.word then Some(Index(p.head)) else None
    case _ => None
  }

  /** The node that the action takes back from a caller of release. */
  function TakenBack(a: Action): Option<Node> {
    if a.Release? then Some(a.n) else None
  }

  /** The action tells a caller of acquire that there is no node. */
  predicate Refuses(p: Pool, a: Action)
    requires Enabled(p, a)
  {
    && (a.Step? || a.SpuriousFailure?)
    && (p.threads[a.t].pc.LoadHead? || p.threads[a.t].pc.Unlink?)
    && Given(p, a).None? && Apply(p, a).threads[a.t].pc.Resting?
  }

  /** The action is the successful compare-and-swap of an acquire. */
  predicate SwapsOut(p: Pool, a: Action) {
    a.Step? && a.t in p.threads && p.threads[a.t].pc.Unlink? && p.head == p.threads[a.t].pc.word
  }

  /** The premise: fewer than 2^32 swaps of the head between an acquire's load of the head word and
      its own successful swap. A release needs no premise. */
  predicate Timely(p: Pool, a: Action) {
    SwapsOut(p, a) ==> p.swaps - p.threads[a.t].pc.at < TAGS
  }

  /** The link that the acquire read is still the one in the node it takes. */
  predicate Current(p: Pool, a: Action) {
    SwapsOut(p, a) ==> p.threads[a.t].pc.next == LinkOf(p.chain, 1)
  }

  // ---------------------------------------------------------------- the invariant

  /** The link that node k of a list holds. */
  function LinkOf(chain: seq<Node>, k: nat): nat {
    if k < |chain| then chain[k] else EMPTY
  }

  /** The free list: finite, without repetition, ended by POOL_EMPTY_INDEX, and the very nodes
      that nobody else answers for. */
  ghost predicate ListOk(p: Pool)
    requires |p.next| == |p.place|
  {
    && Index(p.head) == LinkOf(p.chain, 0)
    && (forall k: nat :: k < |p.chain| ==> p.chain[k] < |p.place| && p.place[p.chain[k]] == Listed)
    && (forall k: nat :: k < |p.chain| ==> p.next[p.chain[k]] == LinkOf(p.chain, k + 1))
    && (forall j: nat, k: nat :: j < k < |p.chain| ==> p.chain[j] != p.chain[k])
  }

  ghost predicate SizesOk(p: Pool) {
    && |p.next| == |p.place| <= EMPTY && p.head < WORDS && Tag(p.head) == p.swaps % TAGS
    && forall n: nat :: n < |p.next| ==> p.next[n] < TAGS
  }

  /** A word loaded earlier. */
  predicate WordOk(p: Pool, word: nat, at: nat) {
    && at <= p.swaps && word < WORDS && Tag(word) == at % TAGS
    && (at == p.swaps ==> word == p.head)
    && (Index(word) < |p.next| || Index(word) == EMPTY)
  }

  ghost predicate CacheOk(p: Pool, t: ThreadId, cache: seq<Node>) {
    && |cache| <= CACHE
    && (forall i: nat :: i < |cache| ==> cache[i] < |p.place| && p.place[cache[i]] == Cached(t))
    && (forall i: nat, j: nat :: i < j < |cache| ==> cache[i] != cache[j])
  }

  /** The evicted nodes KEPT+1 .. i-1 are linked. */
  ghost predicate LinkedTo(p: Pool, cache: seq<Node>, i: nat)
    requires |cache| == CACHE && forall k: nat :: k < |cache| ==> cache[k] < |p.next|
  {
    forall k: nat :: KEPT < k < i && k < CACHE ==> p.next[cache[k]] == cache[k - 1]
  }

  /** The node in the hands of a release. */
  function InHand(pc: Pc): Option<Node> {
    match pc
    case Link(node, _) => Some(node)
    case LoadTop(node) => Some(node)
    case LinkTail(node, _, _) => Some(node)
    case Splice(node, _, _) => Some(node)
    case _ => None
  }

  ghost predicate HandOk(p: Pool, t: ThreadId, th: Thread)
    requires |p.next| == |p.place| && CacheOk(p, t, th.cache)
  {
    InHand(th.pc).Some? ==>
      var node := InHand(th.pc).value;
      && node < |p.place| && p.place[node] == Releasing(t) && |th.cache| == CACHE
      && LinkedTo(p, th.cache, if th.pc.Link? then th.pc.i else CACHE)
      && (!th.pc.Link? ==> p.next[node] == th.cache[CACHE - 1])
  }

  ghost predicate PcOk(p: Pool, th: Thread) {
    match th.pc
    case Resting => true
    case LoadHead => th.cache == []
    case ReadNext(word, at) => WordOk(p, word, at) && Index(word) < |p.next| && th.cache == []
    case Unlink(word, at, next) =>
      && WordOk(p, word, at) && Index(word) < |p.next| && th.cache == []
      && next < TAGS && (at == p.swaps ==> next == p.next[Index(word)])
    case Link(_, i) => KEPT < i <= CACHE
    case LoadTop(_) => true
    case LinkTail(_, word, at) => WordOk(p, word, at)
    case Splice(_, word, at) =>
      && WordOk(p, word, at) && |th.cache| == CACHE && th.cache[KEPT] < |p.next|
      && p.next[th.cache[KEPT]] == Index(word)
  }

  ghost predicate ThreadOk(p: Pool, t: ThreadId)
    requires t in p.threads && |p.next| == |p.place|
  {
    var th := p.threads[t];
    CacheOk(p, t, th.cache) && HandOk(p, t, th) && PcOk(p, th)
  }

  predicate InCacheOf(p: Pool, t: ThreadId, n: Node) {
    t in p.threads && n in p.threads[t].cache
  }

  predicate InHandOf(p: Pool, t: ThreadId, n: Node) {
    t in p.threads && InHand(p.threads[t].pc) == Some(n)
  }

  /** The bookkeeping tells the truth about node n. */
  predicate PlaceOk(p: Pool, n: Node)
    requires n < |p.place|
  {
    match p.place[n]
    case Listed => n in p.chain
    case Cached(t) => InCacheOf(p, t, n)
    case Releasing(t) => InHandOf(p, t, n)
    case Allocated => true
  }

  ghost predicate Inv(p: Pool) {
    && SizesOk(p) && ListOk(p)
    && (forall t :: t in p.threads ==> ThreadOk(p, t))
    && (forall n: nat :: n < |p.place| ==> PlaceOk(p, n))
  }

  // ---------------------------------------------------------------- what a step leaves alone

  /** Nodes that thread u or everybody counts on keep their links and their places. */
  ghost predicate KeepsFor(p: Pool, q: Pool, u: ThreadId) {
    && |q.next| == |p.next| == |p.place| == |q.place|
    && (forall n: nat :: n < |p.place| && (p.place[n] == Cached(u) || p.place[n] == Releasing(u)) ==>
          q.place[n] == p.place[n] && q.next[n] == p.next[n])
  }

  lemma CacheKept(p: Pool, q: Pool, u: ThreadId, th: Thread)
    requires KeepsFor(p, q, u) && CacheOk(p, u, th.cache) && HandOk(p, u, th)
    ensures CacheOk(q, u, th.cache) && HandOk(q, u, th)
  {
    if InHand(th.pc).Some? {
      var i := if th.pc.Link? then th.pc.i else CACHE;
      forall k: nat | KEPT < k < i && k < CACHE ensures q.next[th.cache[k]] == th.cache[k - 1] {
        assert p.place[th.cache[k]] == Cached(u);
      }
    }
  }

  /** Another thread, while the head stays. */
  lemma OtherThread(p: Pool, q: Pool, u: ThreadId)
    requires u in p.threads && u in q.threads && q.threads[u] == p.threads[u]
    requires q.head == p.head && q.swaps == p.swaps && KeepsFor(p, q, u) && ThreadOk(p, u)
    requires Index(p.head) < |p.next| ==> q.next[Index(p.head)] == p.next[Index(p.head)]
    ensures ThreadOk(q, u)
  {
    CacheKept(p, q, u, p.threads[u]);
    if p.threads[u].pc.Splice? { assert p.place[p.threads[u].cache[KEPT]] == Cached(u); }
  }

  /** Another thread, when the head is swapped: what it loaded is out of date now. */
  lemma OutOfDate(p: Pool, q: Pool, u: ThreadId)
    requires u in p.threads && u in q.threads && q.threads[u] == p.threads[u]
    requires q.swaps == p.swaps + 1 && KeepsFor(p, q, u) && ThreadOk(p, u)
    ensures ThreadOk(q, u)
  {
    CacheKept(p, q, u, p.threads[u]);
    if p.threads[u].pc.Splice? { assert p.place[p.threads[u].cache[KEPT]] == Cached(u); }
  }

  /** The places still tell the truth when only thread t changed, and kept its nodes. */
  lemma PlacesKept(p: Pool, q: Pool, t: ThreadId)
    requires Inv(p) && t in p.threads && q.place == p.place && q.chain == p.chain
    requires t in q.threads && q.threads == p.threads[t := q.threads[t]]
    requires q.threads[t].cache == p.threads[t].cache && InHand(q.threads[t].pc) == InHand(p.threads[t].pc)
    ensures forall n: nat :: n < |q.place| ==> PlaceOk(q, n)
  {
    forall n: nat | n < |q.place| ensures PlaceOk(q, n) { assert PlaceOk(p, n); }
  }

  /** A step that only moves thread t on. */
  lemma MovesOn(p: Pool, t: ThreadId, pc: Pc)
    requires Inv(p) && t in p.threads && InHand(pc) == InHand(p.threads[t].pc)
    requires PcOk(p, p.threads[t].(pc := pc)) && HandOk(p, t, p.threads[t].(pc := pc))
    ensures Inv(WithPc(p, t, pc))
  {
    var q := WithPc(p, t, pc);
    PlacesKept(p, q, t);
    forall u | u in q.threads ensures ThreadOk(q, u) {
      if u != t { OtherThread(p, q, u); } else { CacheKept(p, q, t, q.threads[t]); }
    }
  }

  /** A link written in a node that only thread t answers for. */
  lemma WritesLink(p: Pool, t: ThreadId, n: Node, link: nat, pc: Pc)
    requires Inv(p) && t in p.threads && n < |p.next| && (p.place[n] == Cached(t) || p.place[n] == Releasing(t))
    requires InHand(pc) == InHand(p.threads[t].pc) && link < TAGS
    requires var q := p.(next := p.next[n := link]);
             PcOk(q, p.threads[t].(pc := pc)) && HandOk(q, t, p.threads[t].(pc := pc))
    ensures Inv(WithPc(p, t, pc).(next := p.next[n := link]))
  {
    var q := WithPc(p, t, pc).(next := p.next[n := link]);
    PlacesKept(p, q, t);
    assert ListOk(q);
    if Index(p.head) < |p.next| { assert p.chain != []; assert p.place[p.chain[0]] == Listed; }
    forall u | u in q.threads ensures ThreadOk(q, u) { if u != t { OtherThread(p, q, u); } }
  }

  // ---------------------------------------------------------------- the steps, one kind at a time

  lemma EmptyWord(p: Pool)
    requires SizesOk(p) && ListOk(p)
    ensures if p.chain == [] then Index(p.head) == EMPTY else Index(p.head) == p.chain[0] < |p.next|
  {
    if p.chain != [] { assert p.chain[0] < |p.place|; }
  }

  lemma LooksAt(p: Pool, t: ThreadId)
    requires Inv(p) && t in p.threads && p.threads[t].cache == [] && InHand(p.threads[t].pc).None?
    ensures Inv(LookAt(p, t))
  {
    EmptyWord(p);
    MovesOn(p, t, if Index(p.head) == EMPTY then Resting else ReadNext(p.head, p.swaps));
  }

  /** Taking a node from the thread's own cache. */
  lemma TakesCached(p: Pool, t: ThreadId)
    requires Inv(p) && Enabled(p, Acquire(t)) && p.threads[t].cache != []
    ensures Inv(Apply(p, Acquire(t)))
    ensures var n := p.threads[t].cache[|p.threads[t].cache| - 1];
            n < |p.place| && p.place[n] == Cached(t) && Apply(p, Acquire(t)).place == p.place[n := Allocated]
  {
    var q, c := Apply(p, Acquire(t)), p.threads[t].cache;
    var n := c[|c| - 1];
    assert ThreadOk(p, t);
    assert p.place[n] == Cached(t);
    forall u | u in q.threads ensures ThreadOk(q, u) { if u != t { OtherThread(p, q, u); } }
    forall m: nat | m < |q.place| ensures PlaceOk(q, m) {
      assert PlaceOk(p, m);
      TakenPlace(p, q, t, m);
    }
  }

  lemma TakenPlace(p: Pool, q: Pool, t: ThreadId, m: Node)
    requires t in p.threads && p.threads[t].pc.Resting? && p.threads[t].cache != [] && m < |p.place| && PlaceOk(p, m)
    requires q.threads == p.threads[t := Thread(p.threads[t].cache[..|p.threads[t].cache| - 1], Resting)] && q.chain == p.chain
    requires q.place == SetPlace(p.place, p.threads[t].cache[|p.threads[t].cache| - 1], Allocated)
    ensures PlaceOk(q, m)
  {
    var c := p.threads[t].cache;
    if m != c[|c| - 1] && p.place[m] == Cached(t) { StaysIn(c, m); }
  }

  lemma StaysIn(c: seq<Node>, m: Node)
    requires m in c && c[|c| - 1] != m
    ensures m in c[..|c| - 1]
  {
    var i :| 0 <= i < |c| && c[i] == m;
    assert c[..|c| - 1][i] == m;
  }

  /** Putting a node into the thread's own cache. */
  lemma PutsInCache(p: Pool, t: ThreadId, n: Node)
    requires Inv(p) && Enabled(p, Release(t, n)) && |p.threads[t].cache| < CACHE
    ensures Inv(Apply(p, Release(t, n)))
  {
    var q, c := Apply(p, Release(t, n)), p.threads[t].cache;
    assert ThreadOk(p, t);
    forall u | u in q.threads ensures ThreadOk(q, u) { if u != t { OtherThread(p, q, u); } }
    forall m: nat | m < |q.place| ensures PlaceOk(q, m) {
      assert PlaceOk(p, m);
    }
  }

  lemma StartsRelease(p: Pool, t: ThreadId, n: Node)
    requires Inv(p) && Enabled(p, Release(t, n)) && |p.threads[t].cache| == CACHE
    ensures Inv(Apply(p, Release(t, n)))
  {
    var q := Apply(p, Release(t, n));
    assert ThreadOk(p, t);
    forall u | u in q.threads ensures ThreadOk(q, u) { if u != t { OtherThread(p, q, u); } }
    forall m: nat | m < |q.place| ensures PlaceOk(q, m) { assert PlaceOk(p, m); }
  }

  /** Linking one more evicted node keeps the links made so far. */
  lemma OneMoreLink(p: Pool, t: ThreadId, th: Thread)
    requires |p.next| == |p.place| && CacheOk(p, t, th.cache) && HandOk(p, t, th) && th.pc.Link? && KEPT < th.pc.i < CACHE
    ensures var q := p.(next := p.next[th.cache[th.pc.i] := th.cache[th.pc.i - 1]]);
            HandOk(q, t, th.(pc := Link(th.pc.node, th.pc.i + 1)))
  {
    var q := p.(next := p.next[th.cache[th.pc.i] := th.cache[th.pc.i - 1]]);
    forall k: nat | KEPT < k < th.pc.i + 1 && k < CACHE ensures q.next[th.cache[k]] == th.cache[k - 1] {
      assert k < th.pc.i ==> th.cache[k] != th.cache[th.pc.i];
    }
  }

  lemma LastLink(p: Pool, t: ThreadId, th: Thread)
    requires |p.next| == |p.place| && CacheOk(p, t, th.cache) && HandOk(p, t, th) && th.pc.Link? && th.pc.i == CACHE
    ensures var q := p.(next := p.next[th.pc.node := th.cache[CACHE - 1]]);
            HandOk(q, t, th.(pc := LoadTop(th.pc.node)))
  {
    var q := p.(next := p.next[th.pc.node := th.cache[CACHE - 1]]);
    forall k: nat | KEPT < k < CACHE ensures q.next[th.cache[k]] == th.cache[k - 1] {
      assert p.place[th.cache[k]] == Cached(t);
    }
  }

  lemma LinksOn(p: Pool, t: ThreadId)
    requires Inv(p) && Enabled(p, Step(t)) && p.threads[t].pc.Link?
    ensures Inv(StepThread(p, t))
  {
    var th := p.threads[t];
    assert ThreadOk(p, t);
    if th.pc.i < CACHE {
      OneMoreLink(p, t, th);
      WritesLink(p, t, th.cache[th.pc.i], th.cache[th.pc.i - 1], Link(th.pc.node, th.pc.i + 1));
    } else {
      LastLink(p, t, th);
      WritesLink(p, t, th.pc.node, th.cache[CACHE - 1], LoadTop(th.pc.node));
    }
  }

  lemma LinksTail(p: Pool, t: ThreadId)
    requires Inv(p) && Enabled(p, Step(t)) && p.threads[t].pc.LinkTail?
    ensures Inv(StepThread(p, t))
  {
    var th := p.threads[t];
    assert ThreadOk(p, t);
    WritesLink(p, t, th.cache[KEPT], Index(th.pc.word), Splice(th.pc.node, th.pc.word, th.pc.at));
  }

  /** A release looks at the head word (again). */
  lemma LoadsTop(p: Pool, t: ThreadId)
    requires Inv(p) && t in p.threads && (p.threads[t].pc.LoadTop? || p.threads[t].pc.Splice?)
    ensures Inv(WithPc(p, t, LinkTail(p.threads[t].pc.node, p.head, p.swaps)))
  {
    assert ThreadOk(p, t);
    EmptyWord(p);
    MovesOn(p, t, LinkTail(p.threads[t].pc.node, p.head, p.swaps));
  }

  /** Fewer than 2^32 swaps apart, equal tags mean that there was none. */
  lemma SameTagSameTime(at: nat, now: nat)
    requires at <= now < at + TAGS && at % TAGS == now % TAGS
    ensures at == now
  {
  }

  lemma NextTag(swaps: nat)
    ensures (swaps % TAGS + 1) % TAGS == (swaps + 1) % TAGS
  {
  }

  /** The premise at work: the compare-and-swap of an acquire that succeeds finds the head not merely
      equal to the word it loaded, but untouched since, and the link it read is still the current one. */
  lemma SwapIsCurrent(p: Pool, t: ThreadId)
    requires SizesOk(p) && ListOk(p) && Enabled(p, Step(t)) && ThreadOk(p, t) && SwapsOut(p, Step(t)) && Timely(p, Step(t))
    ensures p.threads[t].pc.at == p.swaps
    ensures p.chain != [] && Index(p.head) == p.chain[0] && Index(p.head) < |p.next|
    ensures p.threads[t].pc.next == p.next[Index(p.head)] == LinkOf(p.chain, 1)
  {
    SameTagSameTime(p.threads[t].pc.at, p.swaps);
  }

  /** A release that succeeds has the list's first node behind its own, however old its load is. */
  lemma SpliceIsCurrent(p: Pool, t: ThreadId)
    requires SizesOk(p) && ListOk(p) && t in p.threads && ThreadOk(p, t) && p.threads[t].pc.Splice? && p.head == p.threads[t].pc.word
    ensures |p.threads[t].cache| == CACHE && p.threads[t].cache[KEPT] < |p.next|
    ensures p.next[p.threads[t].cache[KEPT]] == LinkOf(p.chain, 0)
  {
  }

  lemma PackHalves(index: nat, tag: nat)
    requires index < TAGS && tag < TAGS
    ensures Index(Pack(index, tag)) == index && Tag(Pack(index, tag)) == tag && Pack(index, tag) < WORDS
  {
  }

  lemma SuccessorIs(word: nat, swaps: nat, link: nat)
    requires link < TAGS && Tag(word) == swaps % TAGS
    ensures Index(Successor(word, link)) == link && Successor(word, link) < WORDS
    ensures Tag(Successor(word, link)) == (swaps + 1) % TAGS
  {
    NextTag(swaps);
    var tag: nat := (swaps + 1) % TAGS;
    assert Successor(word, link) == Pack(link, tag);
    PackHalves(link, tag);
  }

  lemma SwappedSizes(p: Pool, q: Pool, link: nat)
    requires SizesOk(p) && q.head == Successor(p.head, link) && q.swaps == p.swaps + 1 && link < TAGS
    requires q.next == p.next && |q.place| == |p.place|
    ensures SizesOk(q) && Index(q.head) == link
  {
    SuccessorIs(p.head, p.swaps, link);
  }

  lemma Unlinks(p: Pool, t: ThreadId)
    requires Inv(p) && Enabled(p, Step(t)) && SwapsOut(p, Step(t)) && Current(p, Step(t))
    ensures Inv(StepThread(p, t))
    ensures var n := Index(p.head); n < |p.place| && p.place[n] == Listed && StepThread(p, t).place == p.place[n := Allocated]
  {
    assert ThreadOk(p, t);
    EmptyWord(p);
    var q, n := StepThread(p, t), p.chain[0];
    assert p.place[n] == Listed;
    assert ListOk(p);
    assert |p.chain| > 1 ==> p.chain[1] < |p.place|;
    SwappedSizes(p, q, LinkOf(p.chain, 1));
    forall u | u in q.threads ensures ThreadOk(q, u) { if u != t { OutOfDate(p, q, u); } else { assert ThreadOk(p, t); } }
    forall m: nat | m < |q.place| ensures PlaceOk(q, m) { assert PlaceOk(p, m); }
    UnlinkedList(p, q);
  }

  lemma UnlinkedList(p: Pool, q: Pool)
    requires SizesOk(p) && ListOk(p) && p.chain != [] && q.next == p.next && |q.place| == |p.place|
    requires q.chain == p.chain[1..] && q.place == p.place[p.chain[0] := Allocated] && Index(q.head) == LinkOf(p.chain, 1)
    ensures ListOk(q)
  {
    forall k: nat | k < |q.chain| ensures q.place[q.chain[k]] == Listed && q.next[q.chain[k]] == LinkOf(q.chain, k + 1) {
      assert q.chain[k] == p.chain[k + 1] != p.chain[0];
      assert p.next[p.chain[k + 1]] == LinkOf(p.chain, k + 2);
    }
  }

  /** The nodes of the private chain, and their links. */
  lemma EvictedLinks(p: Pool, t: ThreadId, node: Node, cache: seq<Node>, k: nat)
    requires |p.next| == |p.place| && |cache| == CACHE && CacheOk(p, t, cache) && LinkedTo(p, cache, CACHE)
    requires node < |p.place| && p.place[node] == Releasing(t) && p.next[node] == cache[CACHE - 1]
    requires k < |Evicted(node, cache)|
    ensures var n := Evicted(node, cache)[k];
            && n < |p.place| && (if k == 0 then p.place[n] == Releasing(t) else p.place[n] == Cached(t))
            && (k + 1 < |Evicted(node, cache)| ==> p.next[n] == Evicted(node, cache)[k + 1])
            && (k + 1 == |Evicted(node, cache)| ==> n == cache[KEPT])
  {
    if k > 0 { assert p.place[cache[CACHE - k]] == Cached(t); }
  }

  /** The private chain in front of the list is a list. */
  lemma JoinedList(p: Pool, q: Pool, t: ThreadId, node: Node, cache: seq<Node>)
    requires SizesOk(p) && ListOk(p) && |cache| == CACHE && CacheOk(p, t, cache) && LinkedTo(p, cache, CACHE)
    requires node < |p.place| && p.place[node] == Releasing(t) && p.next[node] == cache[CACHE - 1]
    requires p.next[cache[KEPT]] == LinkOf(p.chain, 0)
    requires q.next == p.next && q.chain == Evicted(node, cache) + p.chain && Index(q.head) == node
    requires q.place == Relabel(p.place, Evicted(node, cache), Listed)
    ensures ListOk(q)
  {
    forall k: nat | k < |q.chain| ensures q.chain[k] < |q.place| && q.place[q.chain[k]] == Listed && q.next[q.chain[k]] == LinkOf(q.chain, k + 1) {
      JoinedLink(p, q, t, node, cache, k);
    }
    forall j: nat, k: nat | j < k < |q.chain| ensures q.chain[j] != q.chain[k] {
      NoneTwice(p, t, node, cache, j, k);
    }
  }

  lemma JoinedLink(p: Pool, q: Pool, t: ThreadId, node: Node, cache: seq<Node>, k: nat)
    requires |p.next| == |p.place| && ListOk(p) && |cache| == CACHE && CacheOk(p, t, cache) && LinkedTo(p, cache, CACHE)
    requires node < |p.place| && p.place[node] == Releasing(t) && p.next[node] == cache[CACHE - 1]
    requires p.next[cache[KEPT]] == LinkOf(p.chain, 0)
    requires q.next == p.next && q.chain == Evicted(node, cache) + p.chain && k < |q.chain|
    requires q.place == Relabel(p.place, Evicted(node, cache), Listed)
    ensures q.chain[k] < |q.place| && q.place[q.chain[k]] == Listed && q.next[q.chain[k]] == LinkOf(q.chain, k + 1)
  {
    var e := Evicted(node, cache);
    if k < |e| {
      EvictedLinks(p, t, node, cache, k);
      assert q.chain[k] == e[k] && e[k] in e;
    } else {
      assert q.chain[k] == p.chain[k - |e|];
    }
  }

  lemma NoneTwice(p: Pool, t: ThreadId, node: Node, cache: seq<Node>, j: nat, k: nat)
    requires |p.next| == |p.place| && ListOk(p) && |cache| == CACHE && CacheOk(p, t, cache) && LinkedTo(p, cache, CACHE)
    requires node < |p.place| && p.place[node] == Releasing(t) && p.next[node] == cache[CACHE - 1]
    requires j < k < |Evicted(node, cache) + p.chain|
    ensures (Evicted(node, cache) + p.chain)[j] != (Evicted(node, cache) + p.chain)[k]
  {
    var e := Evicted(node, cache);
    if j < |e| {
      EvictedLinks(p, t, node, cache, j);
      if k < |e| {
        EvictedLinks(p, t, node, cache, k);
        if j > 0 { assert cache[CACHE - k] != cache[CACHE - j]; }
      } else {
        assert p.place[p.chain[k - |e|]] == Listed;
      }
    }
  }

  /** The rest of the cache does not overlap what is evicted. */
  lemma KeptApart(p: Pool, t: ThreadId, node: Node, cache: seq<Node>, i: nat)
    requires |cache| == CACHE && CacheOk(p, t, cache) && node < |p.place| && p.place[node] == Releasing(t) && i < CACHE
    ensures i < KEPT <==> cache[i] !in Evicted(node, cache)
  {
    var e := Evicted(node, cache);
    if i < KEPT {
      forall k | 0 <= k < |e| ensures e[k] != cache[i] { assert p.place[cache[i]] == Cached(t); }
    } else {
      assert e[CACHE - i] == cache[i];
    }
  }

  lemma SplicedList(p: Pool, q: Pool, t: ThreadId)
    requires SizesOk(p) && ListOk(p) && Enabled(p, Step(t)) && ThreadOk(p, t) && p.threads[t].pc.Splice? && p.head == p.threads[t].pc.word
    requires q == StepThread(p, t)
    ensures SizesOk(q) && ListOk(q)
  {
    var node, cache := p.threads[t].pc.node, p.threads[t].cache;
    SpliceIsCurrent(p, t);
    SwappedSizes(p, q, node);
    JoinedList(p, q, t, node, cache);
  }

  lemma Splices(p: Pool, t: ThreadId)
    requires Inv(p) && Enabled(p, Step(t)) && p.threads[t].pc.Splice? && p.head == p.threads[t].pc.word
    ensures Inv(StepThread(p, t))
  {
    assert ThreadOk(p, t);
    SplicedList(p, StepThread(p, t), t);
    SplicedThreads(p, StepThread(p, t), t);
    SplicedPlaces(p, StepThread(p, t), t);
  }

  lemma SplicesNoneAway(p: Pool, t: ThreadId)
    requires Inv(p) && Enabled(p, Step(t)) && p.threads[t].pc.Splice? && p.head == p.threads[t].pc.word
    ensures |StepThread(p, t).place| == |p.place|
    ensures forall n: nat :: n < |p.place| ==> (StepThread(p, t).place[n] == Allocated <==> p.place[n] == Allocated)
  {
    var node, cache := p.threads[t].pc.node, p.threads[t].cache;
    assert ThreadOk(p, t);
    forall n: nat | n < |p.place| && p.place[n] == Allocated ensures n !in Evicted(node, cache) {
      forall k | 0 <= k < |Evicted(node, cache)| ensures Evicted(node, cache)[k] != n {}
    }
  }

  lemma SplicedThreads(p: Pool, q: Pool, t: ThreadId)
    requires Inv(p) && Enabled(p, Step(t)) && p.threads[t].pc.Splice? && p.head == p.threads[t].pc.word && q == StepThread(p, t)
    ensures forall u :: u in q.threads ==> ThreadOk(q, u)
  {
    var node, cache := p.threads[t].pc.node, p.threads[t].cache;
    assert ThreadOk(p, t);
    forall u | u in q.threads ensures ThreadOk(q, u) {
      if u != t {
        forall n: nat | n < |p.place| && (p.place[n] == Cached(u) || p.place[n] == Releasing(u)) ensures n !in Evicted(node, cache) {
          forall k | 0 <= k < |Evicted(node, cache)| ensures Evicted(node, cache)[k] != n {}
        }
        OutOfDate(p, q, u);
      } else {
        forall i: nat | i < KEPT ensures cache[i] !in Evicted(node, cache) { KeptApart(p, t, node, cache, i); }
      }
    }
  }

  lemma SplicedPlaces(p: Pool, q: Pool, t: ThreadId)
    requires Inv(p) && Enabled(p, Step(t)) && p.threads[t].pc.Splice? && p.head == p.threads[t].pc.word && q == StepThread(p, t)
    ensures forall n: nat :: n < |q.place| ==> PlaceOk(q, n)
  {
    var node, cache := p.threads[t].pc.node, p.threads[t].cache;
    assert ThreadOk(p, t);
    forall n: nat | n < |q.place| ensures PlaceOk(q, n) {
      assert PlaceOk(p, n);
      if n !in Evicted(node, cache) {
        assert Evicted(node, cache)[0] == node;
        if p.place[n] == Cached(t) {
          var i :| 0 <= i < |cache| && cache[i] == n;
          KeptApart(p, t, node, cache, i);
          assert cache[..KEPT][i] == n;
        }
      }
    }
  }

  // ---------------------------------------------------------------- every step

  /** Every step keeps the invariant. What it hands out was free before and is allocated after;
      no other node becomes allocated, and only a release makes one free. */
  lemma StepInv(p: Pool, a: Action)
    requires Inv(p) && Enabled(p, a) && Current(p, a)
    ensures Inv(Apply(p, a)) && |Apply(p, a).place| == |p.place|
    ensures Given(p, a).Some? ==> Given(p, a).value < |p.place| && !p.place[Given(p, a).value].Allocated?
    ensures forall n: nat :: n < |p.place| ==>
              (Apply(p, a).place[n] == Allocated <==>
                 Given(p, a) == Some(n) || (p.place[n] == Allocated && TakenBack(a) != Some(n)))
  {
    assert a.t in p.threads ==> ThreadOk(p, a.t);
    match a
    case Acquire(t) => if p.threads[t].cache != [] { TakesCached(p, t); } else { MovesOn(p, t, LoadHead); }
    case Release(t, n) => if |p.threads[t].cache| < CACHE { PutsInCache(p, t, n); } else { StartsRelease(p, t, n); }
    case SpuriousFailure(t) => if p.threads[t].pc.Unlink? { LooksAt(p, t); } else { LoadsTop(p, t); }
    case Step(t) => ThreadStepInv(p, t);
  }

  lemma ThreadStepInv(p: Pool, t: ThreadId)
    requires Inv(p) && Enabled(p, Step(t)) && Current(p, Step(t))
    ensures Inv(StepThread(p, t)) && |StepThread(p, t).place| == |p.place|
    ensures Given(p, Step(t)).Some? ==> Given(p, Step(t)).value < |p.place| && !p.place[Given(p, Step(t)).value].Allocated?
    ensures forall n: nat :: n < |p.place| ==>
              (StepThread(p, t).place[n] == Allocated <==> Given(p, Step(t)) == Some(n) || p.place[n] == Allocated)
  {
    assert ThreadOk(p, t);
    match p.threads[t].pc
    case LoadHead => LooksAt(p, t);
    case ReadNext(word, at) => MovesOn(p, t, Unlink(word, at, p.next[Index(word)]));
    case Unlink(word, _, _) => if p.head == word { Unlinks(p, t); } else { LooksAt(p, t); }
    case Link(_, _) => LinksOn(p, t);
    case LoadTop(_) => LoadsTop(p, t);
    case LinkTail(_, _, _) => LinksTail(p, t);
    case Splice(_, word, _) => if p.head == word { Splices(p, t); SplicesNoneAway(p, t); } else { LoadsTop(p, t); }
  }

  /** The premise is enough. */
  lemma TimelyIsCurrent(p: Pool, a: Action)
    requires Inv(p) && Enabled(p, a) && Timely(p, a)
    ensures Current(p, a)
  {
    if SwapsOut(p, a) {
      assert ThreadOk(p, a.t);
      SwapIsCurrent(p, a.t);
    }
  }

  /** And the exact condition: a step keeps the invariant if and only if it is not an acquire's swap
      with a link that is out of date. */
  lemma KeptIffCurrent(p: Pool, a: Action)
    requires Inv(p) && Enabled(p, a)
    ensures Inv(Apply(p, a)) <==> Current(p, a)
  {
    if Current(p, a) {
      StepInv(p, a);
    } else {
      StaleBreaks(p, a.t);
    }
  }

  lemma StaleBreaks(p: Pool, t: ThreadId)
    requires Inv(p) && Enabled(p, Step(t)) && SwapsOut(p, Step(t)) && !Current(p, Step(t))
    ensures !ListOk(StepThread(p, t)) || !SizesOk(StepThread(p, t))
  {
    assert ThreadOk(p, t);
    EmptyWord(p);
    SuccessorIs(p.head, p.swaps, p.threads[t].pc.next);
    assert LinkOf(p.chain[1..], 0) == LinkOf(p.chain, 1);
  }

  // ---------------------------------------------------------------- whole runs

  predicate IsRun(p: Pool, run: seq<Action>)
    decreases |run|
  {
    run == [] || (Enabled(p, run[0]) && Timely(p, run[0]) && IsRun(Apply(p, run[0]), run[1..]))
  }

  function Final(p: Pool, run: seq<Action>): Pool
    requires IsRun(p, run)
    decreases |run|
  {
    if run == [] then p else Final(Apply(p, run[0]), run[1..])
  }

  /** The pool as scheduler_boot leaves it: node 0 first, every node linked to the next. */
  predicate Init(p: Pool) {
    && |p.next| == |p.place| == |p.chain| <= EMPTY && p.swaps == 0
    && p.head == Pack(LinkOf(p.chain, 0), 0)
    && (forall k: nat :: k < |p.chain| ==> p.chain[k] == k && p.next[k] == LinkOf(p.chain, k + 1) && p.place[k] == Listed)
    && (forall t :: t in p.threads ==> p.threads[t] == Thread([], Resting))
  }

  lemma InitSizes(p: Pool)
    requires Init(p)
    ensures SizesOk(p) && Index(p.head) == LinkOf(p.chain, 0)
  {
    InitLinks(p);
    PackHalves(LinkOf(p.chain, 0), 0);
    assert 0 % TAGS == 0;
  }

  lemma InitLinks(p: Pool)
    requires Init(p)
    ensures LinkOf(p.chain, 0) < TAGS && forall n: nat :: n < |p.next| ==> p.next[n] < TAGS
  {
    forall n: nat | n < |p.next| ensures p.next[n] < TAGS { assert p.chain[n] == n && p.next[n] == LinkOf(p.chain, n + 1); }
  }

  lemma InitThreads(p: Pool)
    requires Init(p) && SizesOk(p)
    ensures forall t :: t in p.threads ==> ThreadOk(p, t)
  {
  }

  lemma InitInv(p: Pool)
    requires Init(p)
    ensures Inv(p)
  {
    InitSizes(p);
    InitThreads(p);
    assert ListOk(p) by { forall j: nat, k: nat | j < k < |p.chain| ensures p.chain[j] != p.chain[k] {} }
    forall n: nat | n < |p.place| ensures PlaceOk(p, n) { assert p.chain[n] == n; }
  }

  lemma {:induction false} InvRun(p: Pool, run: seq<Action>)
    requires Inv(p) && IsRun(p, run)
    ensures Inv(Final(p, run)) && |Final(p, run).place| == |p.place|
    decreases |run|
  {
    if run != [] {
      TimelyIsCurrent(p, run[0]);
      StepInv(p, run[0]);
      InvRun(Apply(p, run[0]), run[1..]);
    }
  }

  predicate Holds(p: Pool, n: Node) {
    n < |p.place| && p.place[n].Allocated?
  }

  /** How many times the run hands out node n, and how many times it takes it back. */
  function TimesGiven(p: Pool, run: seq<Action>, n: Node): nat
    requires IsRun(p, run)
    decreases |run|
  {
    if run == [] then 0
    else (if Given(p, run[0]) == Some(n) then 1 else 0) + TimesGiven(Apply(p, run[0]), run[1..], n)
  }

  function TimesTaken(run: seq<Action>, n: Node): nat
    decreases |run|
  {
    if run == [] then 0 else (if TakenBack(run[0]) == Some(n) then 1 else 0) + TimesTaken(run[1..], n)
  }

  /** Over every run, of any number of threads and with any spurious failures: a node is handed out
      and taken back in turn, so that nobody is ever given a node that somebody holds. */
  lemma {:induction false} GivenInTurn(p: Pool, run: seq<Action>, n: Node)
    requires Inv(p) && IsRun(p, run)
    ensures (if Holds(p, n) then 1 else 0) + TimesGiven(p, run, n) ==
            (if Holds(Final(p, run), n) then 1 else 0) + TimesTaken(run, n)
    decreases |run|
  {
    if run != [] {
      TimelyIsCurrent(p, run[0]);
      StepInv(p, run[0]);
      GivenInTurn(Apply(p, run[0]), run[1..], n);
    }
  }

  // ---------------------------------------------------------------- where a node is

  /** Node n is in the free list. */
  predicate InList(p: Pool, n: Node) {
    n in p.chain
  }

  /** In every reachable state a node is in exactly one place: allocated, in the free list, in one
      thread's cache at one position, or in the hands of one release. */
  lemma OnePlace(p0: Pool, run: seq<Action>, n: Node)
    requires Init(p0) && IsRun(p0, run) && n < |p0.next|
    ensures var p := Final(p0, run);
            && (Holds(p, n) || InList(p, n) || (exists t :: InCacheOf(p, t, n)) || (exists t :: InHandOf(p, t, n)))
            && (Holds(p, n) ==> !InList(p, n) && forall t :: !InCacheOf(p, t, n) && !InHandOf(p, t, n))
            && (InList(p, n) ==> forall t :: !InCacheOf(p, t, n) && !InHandOf(p, t, n))
            && (forall t, u :: InCacheOf(p, t, n) ==> !InHandOf(p, u, n))
            && (forall t, u :: InCacheOf(p, t, n) && InCacheOf(p, u, n) ==> t == u)
            && (forall t, u :: InHandOf(p, t, n) && InHandOf(p, u, n) ==> t == u)
  {
    InitInv(p0);
    InvRun(p0, run);
    var p := Final(p0, run);
    assert PlaceOk(p, n);
    forall t ensures (InCacheOf(p, t, n) ==> p.place[n] == Cached(t)) && (InHandOf(p, t, n) ==> p.place[n] == Releasing(t)) {
      if t in p.threads { assert ThreadOk(p, t); }
    }
  }

  /** In every reachable state the links from the head word lead through every free node, each
      once, to POOL_EMPTY_INDEX; no thread's cache overflows or lists a node twice. */
  lemma ListIsFinite(p0: Pool, run: seq<Action>)
    requires Init(p0) && IsRun(p0, run)
    ensures var p := Final(p0, run);
            && Index(p.head) == LinkOf(p.chain, 0)
            && (forall k: nat :: k < |p.chain| ==> p.chain[k] < |p.next| && p.next[p.chain[k]] == LinkOf(p.chain, k + 1))
            && (forall j: nat, k: nat :: j < k < |p.chain| ==> p.chain[j] != p.chain[k])
            && (forall t :: t in p.threads ==> CacheOk(p, t, p.threads[t].cache))
  {
    InitInv(p0);
    InvRun(p0, run);
    forall t | t in Final(p0, run).threads ensures CacheOk(Final(p0, run), t, Final(p0, run).threads[t].cache) {
      assert ThreadOk(Final(p0, run), t);
    }
  }

  /** acquire answers NULL only when the thread's cache and the free list are both empty. */
  lemma NullMeansEmpty(p: Pool, a: Action)
    requires Inv(p) && Enabled(p, a) && Refuses(p, a)
    ensures p.threads[a.t].cache == [] && p.chain == []
  {
    assert ThreadOk(p, a.t);
    EmptyWord(p);
  }

  /** The action is a compare-and-swap of thread t that fails. */
  predicate FailsToSwap(p: Pool, a: Action) {
    AtSwap(p, a.t) && (a.SpuriousFailure? || (a.Step? && p.head != p.threads[a.t].pc.word))
  }

  /** A compare-and-swap that fails, but for no reason, does so because somebody else's has succeeded since
      the load; and whoever fails goes on with the head word as it is now, or finds the list empty. */
  lemma FailureMeansProgress(p: Pool, a: Action)
    requires Inv(p) && Enabled(p, a) && FailsToSwap(p, a)
    ensures a.Step? ==> p.threads[a.t].pc.at < p.swaps
    ensures Apply(p, a).head == p.head && Apply(p, a).chain == p.chain && Apply(p, a).swaps == p.swaps
    ensures p.threads[a.t].pc.Unlink? ==>
              Apply(p, a).threads[a.t].pc == if p.chain == [] then Resting else ReadNext(p.head, p.swaps)
    ensures p.threads[a.t].pc.Splice? ==>
              Apply(p, a).threads[a.t].pc == LinkTail(p.threads[a.t].pc.node, p.head, p.swaps)
  {
    assert ThreadOk(p, a.t);
    EmptyWord(p);
  }

  // ---------------------------------------------------------------- runs without the premise

  /** Every step is possible; nothing is said about how old the loads are. */
  predicate IsFreeRun(p: Pool, run: seq<Action>)
    decreases |run|
  {
    run == [] || (Enabled(p, run[0]) && IsFreeRun(Apply(p, run[0]), run[1..]))
  }

  ghost predicate InvThroughout(p: Pool, run: seq<Action>)
    requires IsFreeRun(p, run)
    decreases |run|
  {
    Inv(p) && (run == [] || InvThroughout(Apply(p, run[0]), run[1..]))
  }

  predicate AllCurrent(p: Pool, run: seq<Action>)
    requires IsFreeRun(p, run)
    decreases |run|
  {
    run == [] || (Current(p, run[0]) && AllCurrent(Apply(p, run[0]), run[1..]))
  }

  /** Over every run whatsoever: the invariant holds all along if and only if every acquire that
      swaps its node out does so with a link that is still current. */
  lemma {:induction false} ExactlyWhileCurrent(p: Pool, run: seq<Action>)
    requires Inv(p) && IsFreeRun(p, run)
    ensures InvThroughout(p, run) <==> AllCurrent(p, run)
    decreases |run|
  {
    if run != [] {
      KeptIffCurrent(p, run[0]);
      if Current(p, run[0]) { ExactlyWhileCurrent(Apply(p, run[0]), run[1..]); }
      else { NotInv(Apply(p, run[0]), run[1..]); }
    }
  }

  lemma NotInv(p: Pool, run: seq<Action>)
    requires !Inv(p) && IsFreeRun(p, run)
    ensures !InvThroughout(p, run)
  {
  }

  /** The code never indexes outside the node array or the cache: what Enabled asks for in bounds
      always holds. */
  lemma NeverOutOfBounds(p: Pool, t: ThreadId)
    requires Inv(p) && t in p.threads
    ensures StepSafe(p, p.threads[t])
    ensures p.threads[t].pc.Resting? || Enabled(p, Step(t))
  {
    assert ThreadOk(p, t);
  }
}
