/**
 The bounded ring through which jobs reach the workers: one producer (spmc_producer_push,
 src/sk_scheduler.c:152-166) and any number of consumers (spmc_consumer_pop, src/sk_worker.c:44-63),
 the ring's own worker and its thieves alike.

 Every load, store and compare-and-swap on shared data is one step.
 */
module SpmcRing {
  import opened Basics

  type TaskRef = nat

  datatype ProducerPc =
    | Resting
    | LoadTail(task: TaskRef)
    | Check(task: TaskRef, t: nat)           // about to compare with rb_head_cache, and to load rb_head if that is too low
    | Store(task: TaskRef, t: nat)
    | Publish(task: TaskRef, t: nat)

  datatype ConsumerPc =
    | Away
    | AtHead
    | AtTail(h: nat)
    | AtSlot(h: nat)
    | AtSwap(h: nat, task: TaskRef)

  datatype Ring = Ring(
    cap: pos,
    head: nat, tail: nat, headCache: nat,
    buffer: seq<TaskRef>,
    producer: ProducerPc,
    consumers: map<nat, ConsumerPc>,
    pushed: seq<TaskRef>,                    // history: the tasks published, in order
    popped: seq<TaskRef>                     // history: the tasks returned, in the order of the swaps
  )

  datatype Action = CallPush(task: TaskRef) | CallPop(i: nat) | Produce | Consume(i: nat)

  predicate Enabled(r: Ring, a: Action) {
    match a
    case CallPush(_) => r.producer.Resting?
    case CallPop(i) => i !in r.consumers || r.consumers[i].Away?
    case Produce => !r.producer.Resting? && |r.buffer| == r.cap
    case Consume(i) => i in r.consumers && !r.consumers[i].Away? && |r.buffer| == r.cap
  }

  function Apply(r: Ring, a: Action): Ring
    requires Enabled(r, a)
  {
    match a
    case CallPush(task) => r.(producer := LoadTail(task))
    case CallPop(i) => r.(consumers := r.consumers[i := AtHead])
    case Produce => StepProducer(r)
    case Consume(i) => StepConsumer(r, i)
  }

  function StepProducer(r: Ring): Ring
    requires |r.buffer| == r.cap
  {
    match r.producer
    case Resting => r
    case LoadTail(task) => r.(producer := Check(task, r.tail))
    case Check(task, t) =>
      if t - r.headCache < r.cap then r.(producer := Store(task, t))
      else r.(headCache := r.head, producer := if t - r.head >= r.cap then Resting else Store(task, t))
    case Store(task, t) => r.(buffer := r.buffer[Slot(r.cap, t) := task], producer := Publish(task, t))
    case Publish(task, t) => r.(tail := t + 1, producer := Resting, pushed := r.pushed + [task])
  }

  function StepConsumer(r: Ring, i: nat): Ring
    requires i in r.consumers && |r.buffer| == r.cap
  {
    match r.consumers[i]
    case Away => r
    case AtHead => r.(consumers := r.consumers[i := AtTail(r.head)])
    case AtTail(h) => r.(consumers := r.consumers[i := if h >= r.tail then Away else AtSlot(h)])
    case AtSlot(h) => r.(consumers := r.consumers[i := AtSwap(h, r.buffer[Slot(r.cap, h)])])
    case AtSwap(h, task) =>
      var r' := r.(consumers := r.consumers[i := Away]);
      if r.head == h then r'.(head := h + 1, popped := r.popped + [task]) else r'
  }

  /** The consumer's compare-and-swap is about to succeed. */
  predicate Wins(r: Ring, i: nat) {
    i in r.consumers && r.consumers[i].AtSwap? && r.consumers[i].h == r.head
  }

  /** The n tasks in the ring from index lo on. */
  function Live(buffer: seq<TaskRef>, cap: pos, lo: nat, n: nat): seq<TaskRef>
    requires |buffer| == cap
  {
    seq(n, k requires k >= 0 => buffer[Slot(cap, lo + k)])
  }

  /** The tasks in the ring, oldest first. */
  function Window(r: Ring): seq<TaskRef>
    requires |r.buffer| == r.cap
  {
    Live(r.buffer, r.cap, r.head, if r.head <= r.tail then r.tail - r.head else 0)
  }

  // ---------------------------------------------------------------- the invariant

  ghost predicate ProducerOk(r: Ring)
    requires |r.buffer| == r.cap
  {
    match r.producer
    case Check(_, t) => t == r.tail
    case Store(_, t) => t == r.tail && t < r.headCache + r.cap
    case Publish(task, t) => t == r.tail && t < r.headCache + r.cap && r.buffer[Slot(r.cap, t)] == task
    case _ => true
  }

  ghost predicate ConsumerOk(r: Ring, i: nat)
    requires i in r.consumers && |r.pushed| == r.tail
  {
    match r.consumers[i]
    case AtTail(h) => h <= r.head
    case AtSlot(h) => h <= r.head && h < r.tail
    case AtSwap(h, task) => h <= r.head && h < r.tail && (h == r.head ==> task == r.pushed[h])
    case _ => true
  }

  ghost predicate Inv(r: Ring) {
    && |r.buffer| == r.cap && |r.pushed| == r.tail
    && r.headCache <= r.head <= r.tail <= r.headCache + r.cap
    && r.popped == r.pushed[..r.head]
    && (forall k: nat :: r.head <= k < r.tail ==> r.buffer[Slot(r.cap, k)] == r.pushed[k])
    && ProducerOk(r)
    && (forall i :: i in r.consumers ==> ConsumerOk(r, i))
  }

  predicate Init(r: Ring) {
    && r.head == r.tail == r.headCache == 0 && |r.buffer| == r.cap
    && r.producer.Resting? && r.consumers == map[] && r.pushed == [] == r.popped
  }

  // ---------------------------------------------------------------- every step

  lemma StoreOk(r: Ring)
    requires Inv(r) && r.producer.Store?
    ensures Inv(StepProducer(r))
  {
    var r', t := StepProducer(r), r.producer.t;
    forall k: nat | r'.head <= k < r'.tail ensures r'.buffer[Slot(r'.cap, k)] == r'.pushed[k] { SlotsDiffer(r.cap, k, t); }
    forall i | i in r'.consumers ensures ConsumerOk(r', i) { assert ConsumerOk(r, i); }
  }

  lemma ProducerStepOk(r: Ring)
    requires Inv(r) && Enabled(r, Produce) && !r.producer.Store?
    ensures Inv(StepProducer(r))
  {
    var r' := StepProducer(r);
    assert r'.pushed[..r'.head] == r.pushed[..r.head];
    forall i | i in r'.consumers ensures ConsumerOk(r', i) { assert ConsumerOk(r, i); }
  }

  lemma ConsumerStepOk(r: Ring, i: nat)
    requires Inv(r) && Enabled(r, Consume(i))
    ensures Inv(StepConsumer(r, i))
  {
    var r' := StepConsumer(r, i);
    assert ConsumerOk(r, i);
    if Wins(r, i) { assert r.pushed[..r.head + 1] == r.pushed[..r.head] + [r.pushed[r.head]]; }
    forall j | j in r'.consumers ensures ConsumerOk(r', j) { assert j in r.consumers ==> ConsumerOk(r, j); }
  }

  lemma StepInv(r: Ring, a: Action)
    requires Inv(r) && Enabled(r, a)
    ensures Inv(Apply(r, a)) && Apply(r, a).cap == r.cap
  {
    match a
    case Produce => if r.producer.Store? { StoreOk(r); } else { ProducerStepOk(r); }
    case Consume(i) => ConsumerStepOk(r, i);
    case _ =>
      var r' := Apply(r, a);
      forall j | j in r'.consumers ensures ConsumerOk(r', j) { assert j in r.consumers ==> ConsumerOk(r, j); }
  }

  // ---------------------------------------------------------------- whole runs

  predicate IsRun(r: Ring, run: seq<Action>)
    decreases |run|
  {
    run == [] || (Enabled(r, run[0]) && IsRun(Apply(r, run[0]), run[1..]))
  }

  function Final(r: Ring, run: seq<Action>): Ring
    requires IsRun(r, run)
    decreases |run|
  {
    if run == [] then r else Final(Apply(r, run[0]), run[1..])
  }

  lemma {:induction false} InvRun(r: Ring, run: seq<Action>)
    requires Inv(r) && IsRun(r, run)
    ensures Inv(Final(r, run)) && Final(r, run).cap == r.cap
    decreases |run|
  {
    if run != [] {
      StepInv(r, run[0]);
      InvRun(Apply(r, run[0]), run[1..]);
    }
  }

  /** For every interleaving of the producer with any number of consumers: the tasks returned, in
      the order of the successful swaps, are a prefix of the tasks pushed; those not returned yet
      are in the ring in their order; and the four positions never cross. */
  lemma PoppedInOrder(r0: Ring, run: seq<Action>)
    requires Init(r0) && IsRun(r0, run)
    ensures var r := Final(r0, run);
            && |r.buffer| == r.cap == r0.cap && r.popped <= r.pushed && |r.popped| == r.head
            && r.headCache <= r.head <= r.tail <= r.head + r.cap
            && r.pushed == r.popped + Window(r)
  {
    InvRun(r0, run);
    var r := Final(r0, run);
    WindowIs(r);
    assert r.pushed == r.pushed[..r.head] + r.pushed[r.head..];
  }

  lemma WindowIs(r: Ring)
    requires Inv(r)
    ensures Window(r) == r.pushed[r.head..]
  {
    forall k | 0 <= k < |Window(r)| ensures Window(r)[k] == r.pushed[r.head + k] {}
  }

  /** Seen as a sequence, the ring changes at two kinds of steps only: the producer's store to rb_tail
      appends the task, and a successful swap takes the oldest one. */
  lemma StepRefines(r: Ring, a: Action)
    requires Inv(r) && Enabled(r, a)
    ensures |Apply(r, a).buffer| == Apply(r, a).cap
    ensures a.Consume? && Wins(r, a.i) ==> Window(r) != [] && Window(r)[0] == r.consumers[a.i].task
    ensures Window(Apply(r, a)) == if a.Produce? && r.producer.Publish? then Window(r) + [r.producer.task]
                                   else if a.Consume? && Wins(r, a.i) then Window(r)[1..]
                                   else Window(r)
  {
    StepInv(r, a);
    WindowIs(r);
    WindowIs(Apply(r, a));
    if a.Consume? { assert ConsumerOk(r, a.i); }
  }

  /** A consumer whose slot was overwritten, or whose task somebody else took, loses its swap: one
      that wins returns the oldest task in the ring. */
  lemma StaleConsumerLoses(r: Ring, i: nat)
    requires Inv(r) && i in r.consumers && r.consumers[i].AtSwap?
    ensures r.consumers[i].h < |r.pushed|
    ensures r.consumers[i].task != r.pushed[r.consumers[i].h] ==> !Wins(r, i)
    ensures Wins(r, i) ==> Window(r) != [] && r.consumers[i].task == Window(r)[0]
    ensures Wins(r, i) ==> Window(StepConsumer(r, i)) == Window(r)[1..]
  {
    assert ConsumerOk(r, i);
    if Wins(r, i) {
      var r' := StepConsumer(r, i);
      forall k | 0 <= k < |Window(r')| ensures Window(r')[k] == Window(r)[k + 1] {
        assert Slot(r'.cap, r'.head + k) == Slot(r.cap, r.head + (k + 1));
      }
    }
  }

  /** A push is refused exactly when the ring is full at the look at rb_head. */
  lemma RefusedMeansFull(r: Ring)
    requires Inv(r) && r.producer.Check?
    ensures StepProducer(r).producer.Resting? <==> |Window(r)| == r.cap
  {
  }

  /** A consumer that finds nothing found the ring empty when it looked at rb_tail. */
  lemma NothingMeansEmpty(r: Ring, i: nat)
    requires Inv(r) && i in r.consumers && r.consumers[i].AtTail? && StepConsumer(r, i).consumers[i].Away?
    ensures Window(r) == []
  {
    assert ConsumerOk(r, i);
  }

  // ---------------------------------------------------------------- the steps of one call alone

  function ProducerRank(p: ProducerPc): nat {
    match p
    case Resting => 0
    case LoadTail(_) => 4
    case Check(_, _) => 3
    case Store(_, _) => 2
    case Publish(_, _) => 1
  }

  /** The producer's call, with nobody else moving. */
  function RunProducer(r: Ring): (q: Ring)
    requires |r.buffer| == r.cap
    ensures |q.buffer| == q.cap && q.producer.Resting?
    decreases ProducerRank(r.producer)
  {
    if r.producer.Resting? then r else RunProducer(StepProducer(r))
  }

  function ConsumerRank(p: ConsumerPc): nat {
    match p
    case Away => 0
    case AtHead => 4
    case AtTail(_) => 3
    case AtSlot(_) => 2
    case AtSwap(_, _) => 1
  }

  /** A consumer's call, with nobody else moving. */
  function RunConsumer(r: Ring, i: nat): (q: Ring)
    requires i in r.consumers && |r.buffer| == r.cap
    ensures |q.buffer| == q.cap && i in q.consumers && q.consumers[i].Away?
    decreases ConsumerRank(r.consumers[i])
  {
    if r.consumers[i].Away? then r else RunConsumer(StepConsumer(r, i), i)
  }

  ghost predicate AtRest(r: Ring) {
    Inv(r) && r.producer.Resting? && r.consumers == map[]
  }

  function PushCall(r: Ring, task: TaskRef): Ring
    requires |r.buffer| == r.cap && r.producer.Resting?
  {
    RunProducer(Apply(r, CallPush(task)))
  }

  /** The ring after a pop, with the consumer gone. */
  function PopCall(r: Ring): Ring
    requires |r.buffer| == r.cap && r.consumers == map[]
  {
    RunConsumer(Apply(r, CallPop(0)), 0).(consumers := map[])
  }

  lemma ProducesOn(r: Ring)
    requires |r.buffer| == r.cap && !r.producer.Resting?
    ensures RunProducer(r) == RunProducer(StepProducer(r))
  {
  }

  lemma {:induction false} RunProducerInv(r: Ring)
    requires Inv(r)
    ensures Inv(RunProducer(r)) && RunProducer(r).consumers == r.consumers
    decreases ProducerRank(r.producer)
  {
    if !r.producer.Resting? {
      StepInv(r, Produce);
      ProducesOn(r);
      RunProducerInv(StepProducer(r));
    }
  }

  /** What a push comes to: the task at the end unless the ring is full. */
  lemma PushState(r: Ring, task: TaskRef)
    requires AtRest(r)
    ensures AtRest(PushCall(r, task))
    ensures var cache := if r.tail - r.headCache < r.cap then r.headCache else r.head;
            PushCall(r, task) == if r.tail - r.head >= r.cap then r.(headCache := cache)
              else r.(headCache := cache, buffer := r.buffer[Slot(r.cap, r.tail) := task], tail := r.tail + 1, pushed := r.pushed + [task])
  {
    var r0 := Apply(r, CallPush(task));
    StepInv(r, CallPush(task));
    RunProducerInv(r0);
    var r1 := StepProducer(r0);
    ProducesOn(r0);
    var r2 := StepProducer(r1);
    ProducesOn(r1);
    if !r2.producer.Resting? {
      ProducesOn(r2);
      ProducesOn(StepProducer(r2));
    }
  }

  lemma ConsumesOn(r: Ring, i: nat)
    requires i in r.consumers && |r.buffer| == r.cap && !r.consumers[i].Away?
    ensures RunConsumer(r, i) == RunConsumer(StepConsumer(r, i), i)
  {
  }

  /** What a pop comes to. */
  lemma PopState(r: Ring)
    requires AtRest(r)
    ensures AtRest(PopCall(r))
    ensures PopCall(r) == if r.head >= r.tail then r
                          else r.(head := r.head + 1, popped := r.popped + [r.buffer[Slot(r.cap, r.head)]])
  {
    var r0 := Apply(r, CallPop(0));
    ConsumesOn(r0, 0);
    var r1 := StepConsumer(r0, 0);
    ConsumesOn(r1, 0);
    var r2 := StepConsumer(r1, 0);
    if r.head < r.tail {
      ConsumesOn(r2, 0);
      ConsumesOn(StepConsumer(r2, 0), 0);
      assert r.pushed[..r.head + 1] == r.pushed[..r.head] + [r.pushed[r.head]];
    }
  }

  lemma PushWindow(r: Ring, task: TaskRef)
    requires AtRest(r)
    ensures Window(PushCall(r, task)) == if |Window(r)| < r.cap then Window(r) + [task] else Window(r)
  {
    PushState(r, task);
    var w := Window(PushCall(r, task));
    forall k | 0 <= k < |Window(r)| ensures w[k] == Window(r)[k] {
      if |Window(r)| < r.cap { SlotsDiffer(r.cap, r.head + k, r.tail); }
    }
    assert w == if |Window(r)| < r.cap then Window(r) + [task] else Window(r);
  }

  lemma PopWindow(r: Ring)
    requires AtRest(r)
    ensures Window(PopCall(r)) == if Window(r) == [] then [] else Window(r)[1..]
    ensures Window(r) != [] ==> Window(r)[0] == r.buffer[Slot(r.cap, r.head)]
  {
    PopState(r);
    var q := PopCall(r);
    if Window(r) != [] {
      forall k | 0 <= k < |Window(q)| ensures Window(q)[k] == Window(r)[k + 1] {
        assert Slot(q.cap, q.head + k) == Slot(r.cap, r.head + (k + 1));
      }
    }
  }

  // ---------------------------------------------------------------- the object, one call at a time

  class WorkerRing {
    const cap: pos                     // rb_capacity_mask + 1
    var head: nat
    var tail: nat
    var headCache: nat
    const buffer: array<TaskRef>
    ghost var pushed: seq<TaskRef>     // history, as in the step model
    ghost var popped: seq<TaskRef>

    /** The ring between calls, as a state of the step model. */
    ghost function Snapshot(): Ring
      reads this, buffer
    {
      Ring(cap, head, tail, headCache, buffer[..], Resting, map[], pushed, popped)
    }

    ghost predicate Valid()
      reads this, buffer
    {
      buffer.Length == cap && AtRest(Snapshot())
    }

    ghost function Contents(): seq<TaskRef>
      requires buffer.Length == cap
      reads this, buffer
    {
      Window(Snapshot())
    }

    constructor (capacity: pos)
      ensures Valid() && fresh(buffer) && cap == capacity && Contents() == [] && Init(Snapshot())
    {
      cap := capacity;
      head, tail, headCache := 0, 0, 0;
      pushed, popped := [], [];
      buffer := new TaskRef[capacity](_ => 0);
    }

    /** spmc_producer_push: what the producer's steps come to when they run alone. */
    method Push(task: TaskRef) returns (ok: bool)
      requires Valid()
      modifies this`tail, this`headCache, this`pushed, buffer
      ensures Valid() && Snapshot() == PushCall(old(Snapshot()), task)
      ensures ok <==> |old(Contents())| < cap
      ensures Contents() == if ok then old(Contents()) + [task] else old(Contents())
    {
      ghost var r := Snapshot();
      PushState(r, task);
      PushWindow(r, task);
      var t := tail;
      if t - headCache >= cap {
        headCache := head;
        if t - headCache >= cap {
          assert Snapshot() == PushCall(r, task);
          return false;
        }
      }
      buffer[Slot(cap, t)] := task;
      tail := t + 1;
      pushed := pushed + [task];
      ok := true;
      assert Snapshot() == PushCall(r, task);
    }

    /** spmc_consumer_pop: what a consumer's steps come to when they run alone. */
    method Pop() returns (task: Option<TaskRef>)
      requires Valid()
      modifies this`head, this`popped
      ensures Valid() && Snapshot() == PopCall(old(Snapshot()))
      ensures task == if old(Contents()) == [] then None else Some(old(Contents())[0])
      ensures Contents() == if old(Contents()) == [] then [] else old(Contents())[1..]
    {
      ghost var r := Snapshot();
      PopState(r);
      PopWindow(r);
      var h := head;
      if h >= tail {
        return None;
      }
      task := Some(buffer[Slot(cap, h)]);
      // the compare-and-swap on rb_head: nobody else has moved it
      head := h + 1;
      popped := popped + [buffer[Slot(cap, h)]];
      assert Snapshot() == PopCall(r);
    }
  }
}
