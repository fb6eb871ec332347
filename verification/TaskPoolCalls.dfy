/**
 The node pool as an object: what scheduler_boot sets up, and memory_pool_acquire and
 memory_pool_release as whole calls of one thread that nobody interrupts.
 */
module TaskPoolCalls {
  import opened Basics
  import opened TaskPool

  // ---------------------------------------------------------------- a call with nobody else moving

  /** One thread's view between calls. */
  predicate AtRest(p: Pool) {
    p.threads.Keys == {0} && p.threads[0].pc.Resting?
  }

  function CacheOf(p: Pool): seq<Node>
    requires AtRest(p)
  {
    p.threads[0].cache
  }

  function WithCache(p: Pool, cache: seq<Node>): Pool {
    p.(threads := map[0 := Thread(cache, Resting)])
  }

  /** The pool after acquire took a node from the list. */
  function Unlinked(p: Pool): Pool
    requires p.chain != [] && |p.next| > Index(p.head)
  {
    p.(head := Successor(p.head, p.next[Index(p.head)]), swaps := p.swaps + 1, chain := p.chain[1..],
       place := SetPlace(p.place, Index(p.head), Allocated))
  }

  lemma UnlinkedIs(p: Pool)
    requires AtRest(p) && p.chain != [] && |p.place| == |p.next| > Index(p.head)
    ensures Unlinked(p) == StepThread(WithPc(p, 0, Unlink(p.head, p.swaps, p.next[Index(p.head)])), 0)
  {
    assert Unlinked(p).threads == StepThread(WithPc(p, 0, Unlink(p.head, p.swaps, p.next[Index(p.head)])), 0).threads;
  }

  lemma AcquireUnlinks(p: Pool)
    requires Inv(p) && AtRest(p) && CacheOf(p) == []
    ensures p.chain == [] <==> Index(p.head) == EMPTY
    ensures p.chain != [] ==>
              && Index(p.head) == p.chain[0] < |p.next| && Inv(Unlinked(p)) && p.place[p.chain[0]] == Listed
  {
    assert ThreadOk(p, 0);
    if p.chain != [] {
      assert p.chain[0] < |p.place|;
      var pc := Unlink(p.head, p.swaps, p.next[Index(p.head)]);
      MovesOn(p, 0, pc);
      Unlinks(WithPc(p, 0, pc), 0);
      UnlinkedIs(p);
    }
  }

  ghost predicate Usable(p: Pool) {
    AtRest(p) && |CacheOf(p)| == CACHE && forall k: nat :: k < CACHE ==> CacheOf(p)[k] < |p.next|
  }

  /** The links once the evicted nodes below position i of the cache are linked. */
  function Links(next: seq<nat>, cache: seq<Node>, i: nat): (r: seq<nat>)
    requires |cache| == CACHE && KEPT < i <= CACHE && forall k: nat :: k < CACHE ==> cache[k] < |next|
    ensures |r| == |next|
  {
    if i == KEPT + 1 then next else Links(next, cache, i - 1)[cache[i - 1] := cache[i - 2]]
  }

  /** The pool after release evicted half of a full cache. */
  function Spliced(p: Pool, node: Node): Pool
    requires AtRest(p) && |CacheOf(p)| == CACHE && (forall k: nat :: k < CACHE ==> CacheOf(p)[k] < |p.next|) && node < |p.next| == |p.place|
  {
    var cache := CacheOf(p);
    WithCache(p, cache[..KEPT]).(
      next := Links(p.next, cache, CACHE)[node := cache[CACHE - 1]][cache[KEPT] := Index(p.head)],
      head := Successor(p.head, node), swaps := p.swaps + 1,
      chain := Evicted(node, cache) + p.chain,
      place := Relabel(p.place[node := Releasing(0)], Evicted(node, cache), Listed))
  }

  /** In the midst of linking. */
  function Linking(p: Pool, node: Node, i: nat): Pool
    requires AtRest(p) && |CacheOf(p)| == CACHE && (forall k: nat :: k < CACHE ==> CacheOf(p)[k] < |p.next|)
    requires KEPT < i <= CACHE && node < |p.place|
  {
    p.(threads := map[0 := Thread(CacheOf(p), Link(node, i))], place := p.place[node := Releasing(0)],
       next := Links(p.next, CacheOf(p), i))
  }

  lemma CacheInBounds(p: Pool)
    requires Inv(p) && AtRest(p)
    ensures forall k: nat :: k < |CacheOf(p)| ==> CacheOf(p)[k] < |p.next|
  {
    assert ThreadOk(p, 0);
  }

  lemma LinkingStarts(p: Pool, node: Node)
    requires Inv(p) && Usable(p) && node < |p.place| && p.place[node].Allocated?
    ensures Inv(Linking(p, node, KEPT + 1))
  {
    StartsRelease(p, 0, node);
    assert Linking(p, node, KEPT + 1) == Apply(p, Release(0, node));
  }

  lemma LinkingGoesOn(p: Pool, node: Node, i: nat)
    requires Usable(p) && node < |p.place| == |p.next| && KEPT < i < CACHE
    ensures Enabled(Linking(p, node, i), Step(0)) && Linking(p, node, i + 1) == StepThread(Linking(p, node, i), 0)
  {
  }

  lemma {:induction false} LinkingInv(p: Pool, node: Node, i: nat)
    requires Inv(p) && Usable(p) && node < |p.place| && p.place[node].Allocated? && KEPT < i <= CACHE
    ensures Inv(Linking(p, node, i))
    decreases i
  {
    if i == KEPT + 1 {
      LinkingStarts(p, node);
    } else {
      LinkingInv(p, node, i - 1);
      LinkingGoesOn(p, node, i - 1);
      LinksOn(Linking(p, node, i - 1), 0);
    }
  }

  /** The last link, the load of the head, the link to the old list and the swap, in one go. */
  function Finished(q: Pool): Pool
    requires q.threads.Keys == {0} && q.threads[0].pc.Link? && |q.threads[0].cache| == CACHE
    requires q.threads[0].cache[KEPT] < |q.next| && q.threads[0].pc.node < |q.next|
  {
    var th := q.threads[0];
    q.(next := q.next[th.pc.node := th.cache[CACHE - 1]][th.cache[KEPT] := Index(q.head)],
       threads := map[0 := Thread(th.cache[..KEPT], Resting)],
       head := Successor(q.head, th.pc.node), swaps := q.swaps + 1,
       chain := Evicted(th.pc.node, th.cache) + q.chain,
       place := Relabel(q.place, Evicted(th.pc.node, th.cache), Listed))
  }

  lemma FinishedIs(q: Pool)
    requires |q.next| == |q.place| && q.threads.Keys == {0} && q.threads[0].pc.Link? && q.threads[0].pc.i == CACHE
    requires |q.threads[0].cache| == CACHE && q.threads[0].cache[KEPT] < |q.next| && q.threads[0].pc.node < |q.next|
    ensures Finished(q) == StepThread(StepThread(StepThread(StepThread(q, 0), 0), 0), 0)
  {
    var th := q.threads[0];
    var q1 := StepThread(q, 0);
    assert q1.threads[0] == Thread(th.cache, LoadTop(th.pc.node));
    var q2 := StepThread(q1, 0);
    assert q2.threads[0] == Thread(th.cache, LinkTail(th.pc.node, q.head, q.swaps));
    var q3 := StepThread(q2, 0);
    assert q3.threads[0] == Thread(th.cache, Splice(th.pc.node, q.head, q.swaps));
    assert StepThread(q3, 0).threads == map[0 := Thread(th.cache[..KEPT], Resting)];
  }

  lemma FinishInv(q: Pool)
    requires Inv(q) && q.threads.Keys == {0} && q.threads[0].pc.Link? && q.threads[0].pc.i == CACHE
    requires |q.threads[0].cache| == CACHE && q.threads[0].cache[KEPT] < |q.next| && q.threads[0].pc.node < |q.next|
    ensures Inv(Finished(q)) && |Finished(q).place| == |q.place|
    ensures forall n: nat :: n < |q.place| ==> (Finished(q).place[n].Allocated? <==> q.place[n].Allocated?)
  {
    FinishedIs(q);
    LinksOn(q, 0);
    FinishLinked(StepThread(q, 0));
  }

  lemma FinishLinked(q: Pool)
    requires Inv(q) && q.threads.Keys == {0} && q.threads[0].pc.LoadTop?
    requires |q.threads[0].cache| == CACHE && q.threads[0].cache[KEPT] < |q.next|
    ensures var r := StepThread(StepThread(StepThread(q, 0), 0), 0);
            && Inv(r) && |r.place| == |q.place|
            && forall n: nat :: n < |q.place| ==> (r.place[n].Allocated? <==> q.place[n].Allocated?)
  {
    LoadsTop(q, 0);
    FinishLoaded(StepThread(q, 0));
  }

  lemma FinishLoaded(q: Pool)
    requires Inv(q) && q.threads.Keys == {0} && q.threads[0].pc.LinkTail? && q.threads[0].pc.word == q.head && q.threads[0].pc.at == q.swaps
    requires |q.threads[0].cache| == CACHE && q.threads[0].cache[KEPT] < |q.next|
    ensures var r := StepThread(StepThread(q, 0), 0);
            && Inv(r) && |r.place| == |q.place|
            && forall n: nat :: n < |q.place| ==> (r.place[n].Allocated? <==> q.place[n].Allocated?)
  {
    LinksTail(q, 0);
    Splices(StepThread(q, 0), 0);
    SplicesNoneAway(StepThread(q, 0), 0);
  }

  lemma SplicedIs(p: Pool, node: Node)
    requires Usable(p) && node < |p.place| == |p.next|
    ensures Spliced(p, node) == Finished(Linking(p, node, CACHE))
  {
  }

  lemma ReleaseSplices(p: Pool, node: Node)
    requires Inv(p) && Usable(p) && node < |p.place| && p.place[node].Allocated?
    ensures Inv(Spliced(p, node)) && |Spliced(p, node).place| == |p.place|
    ensures forall n: nat :: n < |p.place| ==> (Spliced(p, node).place[n].Allocated? <==> n != node && p.place[n].Allocated?)
  {
    LinkingInv(p, node, CACHE);
    FinishInv(Linking(p, node, CACHE));
    SplicedIs(p, node);
  }

  // ---------------------------------------------------------------- the object

  class NodePool {
    const next: array<nat>              // next_free_idx of every node
    var head: nat                       // global_pool_head
    const cache: array<Node>            // task_cache
    var count: nat                      // task_cache_count
    ghost var swaps: nat
    ghost var chain: seq<Node>          // the free list
    ghost var place: seq<Place>

    ghost function Snapshot(): Pool
      reads this, next, cache
      requires count <= cache.Length
    {
      Pool(next[..], head, map[0 := Thread(cache[..count], Resting)], swaps, chain, place)
    }

    ghost predicate Valid()
      reads this, next, cache
    {
      cache.Length == CACHE && count <= CACHE && Inv(Snapshot()) && next != cache
    }

    ghost function Cached(): seq<Node>
      reads this, cache
      requires count <= cache.Length
    {
      cache[..count]
    }

    ghost predicate Allocated(n: Node)
      reads this
    {
      n < |place| && place[n].Allocated?
    }

    /** The free list is all nodes in order, and the cache is empty. */
    constructor (capacity: nat)
      requires 0 < capacity <= EMPTY
      ensures Valid() && fresh(next) && fresh(cache)
      ensures next.Length == capacity && Cached() == [] && chain == seq(capacity, k => k)
      ensures Init(Snapshot())
    {
      next := new nat[capacity];
      cache := new Node[CACHE];
      count := 0;
      swaps := 0;
      chain := seq(capacity, k => k);
      place := seq(capacity, _ => Listed);
      new;
      var i := 0;
      while i < capacity
        modifies next
        invariant 0 <= i <= capacity && count == 0
        invariant forall k :: 0 <= k < i ==> next[k] == if k == capacity - 1 then EMPTY else k + 1
      {
        next[i] := if i == capacity - 1 then EMPTY else i + 1;
        i := i + 1;
      }
      head := Pack(0, 0);
      InitInv(Snapshot());
    }

    /** memory_pool_acquire: the node cached last, else the first of the free list, else nothing. */
    method Acquire() returns (node: Option<Node>)
      requires Valid()
      modifies this
      ensures Valid()
      ensures node == if old(Cached()) != [] then Some(old(Cached())[|old(Cached())| - 1])
                      else if old(chain) != [] then Some(old(chain)[0]) else None
      ensures Cached() == if old(Cached()) != [] then old(Cached())[..|old(Cached())| - 1] else []
      ensures chain == if old(Cached()) == [] && old(chain) != [] then old(chain)[1..] else old(chain)
      ensures node.Some? ==> !old(Allocated(node.value)) && Allocated(node.value)
      ensures forall n: nat :: node != Some(n) ==> Allocated(n) == old(Allocated(n))
    {
      if count > 0 {
        TakesCached(Snapshot(), 0);
        var n := TakeCached();
        return Some(n);
      }
      AcquireUnlinks(Snapshot());
      var index := Index(head);
      if index == EMPTY {
        return None;
      }
      UnlinkHead();
      node := Some(index);
    }

    method TakeCached() returns (node: Node)
      requires cache.Length == CACHE && 0 < count <= CACHE
      modifies this`count, this`place
      ensures count <= CACHE && Snapshot() == Apply(old(Snapshot()), TaskPool.Acquire(0))
      ensures node == old(Cached())[|old(Cached())| - 1] && Cached() == old(Cached())[..|old(Cached())| - 1]
    {
      count := count - 1;
      place := SetPlace(place, cache[count], TaskPool.Allocated);
      assert cache[..count] == old(cache[..count])[..count];
      node := cache[count];
    }

    method PutInCache(node: Node)
      requires cache.Length == CACHE && count < CACHE && next != cache && Allocated(node)
      modifies this`count, this`place, cache
      ensures count <= CACHE && Snapshot() == Apply(old(Snapshot()), TaskPool.Release(0, node))
      ensures Cached() == old(Cached()) + [node] && place == old(place)[node := TaskPool.Cached(0)]
    {
      cache[count] := node;
      count := count + 1;
      place := place[node := TaskPool.Cached(0)];
      assert cache[..count] == old(cache[..count]) + [node];
    }

    /** The loop of memory_pool_acquire, whose first compare-and-swap succeeds. */
    method UnlinkHead()
      requires cache.Length == CACHE && count == 0 && chain != [] && Index(head) < next.Length
      modifies this`head, this`swaps, this`chain, this`place
      ensures Snapshot() == Unlinked(old(Snapshot()))
    {
      var index := Index(head);
      head := Successor(head, next[index]);
      swaps, chain, place := swaps + 1, chain[1..], SetPlace(place, index, TaskPool.Allocated);
    }

    /** memory_pool_release: into the cache; a full cache first gives its upper half and the node to
        the free list, the node in front. */
    method Release(node: Node)
      requires Valid() && Allocated(node)
      modifies this, next, cache
      ensures Valid() && !Allocated(node)
      ensures |old(Cached())| < CACHE ==> Cached() == old(Cached()) + [node] && chain == old(chain)
      ensures |old(Cached())| == CACHE ==>
                Cached() == old(Cached())[..KEPT] && chain == Evicted(node, old(Cached())) + old(chain)
      ensures forall n: nat :: n != node ==> Allocated(n) == old(Allocated(n))
    {
      if count < CACHE {
        PutsInCache(Snapshot(), 0, node);
        PutInCache(node);
      } else {
        ReleaseFull(node);
      }
    }

    method ReleaseFull(node: Node)
      requires Valid() && Allocated(node) && count == CACHE
      modifies this`head, this`count, this`swaps, this`chain, this`place, next
      ensures Valid() && !Allocated(node)
      ensures Cached() == old(Cached())[..KEPT] && chain == Evicted(node, old(Cached())) + old(chain)
      ensures forall n: nat :: n != node ==> Allocated(n) == old(Allocated(n))
    {
      assert cache[..count] == cache[..];
      CacheInBounds(Snapshot());
      ReleaseSplices(Snapshot(), node);
      EvictHalf(node);
      assert Cached() == CacheOf(Snapshot());
    }

    /** The slow path of memory_pool_release. */
    method EvictHalf(node: Node)
      requires cache.Length == CACHE == count && next != cache && Usable(Snapshot()) && node < next.Length == |place|
      modifies this`head, this`count, this`swaps, this`chain, this`place, next
      ensures count <= CACHE && Snapshot() == Spliced(old(Snapshot()), node)
    {
      ghost var p := Snapshot();
      assert cache[..count] == cache[..];
      var i := KEPT + 1;
      while i < CACHE
        modifies next
        invariant KEPT < i <= CACHE && cache[..] == CacheOf(p)
        invariant next[..] == Links(p.next, cache[..], i)
      {
        next[cache[i]] := cache[i - 1];
        i := i + 1;
      }
      next[node] := cache[CACHE - 1];
      next[cache[KEPT]] := Index(head);
      head := Successor(head, node);
      count := KEPT;
      swaps, chain, place := Spliced(p, node).swaps, Spliced(p, node).chain, Spliced(p, node).place;
      assert cache[..count] == CacheOf(p)[..KEPT];
    }
  }
}
