/**
 The task completion protocol: workers, the tasks they run, the counter
 `unfinished_dependencies` of every task, and the jobs.

 Every atomic access of the source is one event; work on data no other thread can reach (a
 node just acquired, a local variable) is folded into a neighbouring event. Any number of
 workers and any interleaving are allowed. The deques and rings appear as the set of tasks
 whose place is `Queued`: ChaseLev and SpmcRing prove that each queue hands out exactly what
 was put into it. The node pool appears as the set of tasks whose place is `Free`: TaskPool
 proves that it hands out each free node once.
 */
module TaskDag {
  import opened Basics
  import opened Splitting

  type TaskId = nat
  type WorkerId = nat
  type JobId = nat
  type StageId = nat

  const BATCH_SIZE := 256
  const DEFAULT_CHUNK_SIZE := 128

  /** What `task_fn` points to. Every registered client function gets a fresh stage number. */
  datatype Fn = Null | Splitter | Finish | Code(id: StageId)

  /** Where a task node is. */
  datatype Place =
    | Free                                // in the pool
    | Submitting                          // in the hands of scheduler_submit_job
    | Fresh(w: WorkerId, k: nat)          // in the batch of stack frame k of w, not counted by its parent
    | Offered(w: WorkerId, k: nat)        // likewise, but counted by its parent
    | Recycled(w: WorkerId, k: nat)       // its function runs in place above frame k of w
    | Queued                              // in a deque or ring
    | Active(w: WorkerId)                 // w holds its virtual lock
    | Owned(w: WorkerId)                  // w dropped its counter to 0
    | Parked                              // waiting for children

  datatype Task = Task(
    fn: Fn, deps: int, parent: Option<TaskId>,
    place: Place,
    serial: nat,                          // birth order, for the forest
    job: JobId,
    pend: Range                           // the part of the job's range this splitter task still answers for
  )

  /** One activation record on a worker's call stack. */
  datatype Frame =
    | User(id: StageId)                        // a client function
    | Split(lo: nat, hi: nat)                  // internal_macro_job_splitter, at its loop head
    | Publish                                  // hooked_job_finish_task
    | New                                      // its batch of children is being acquired and filled in
    | Offer                                    // the batch is counted, about to be pushed
    | Reject                                   // what is left of the batch did not fit, about to be uncounted
    | Inline                                   // it is uncounted, about to be run in place
    | Recycle(c: TaskId)                       // c is being run in place, then released

  datatype Ctx = Main | Cascade

  datatype Worker =
    | Idle
    | Running(t: TaskId, ctx: Ctx, frames: seq<Frame>)
    | Dropping(t: TaskId, ctx: Ctx)            // the function returned, about to drop the virtual lock
    | Owner(t: TaskId, ctx: Ctx)               // the counter fell to 0: about to look at task_fn
    | Armed(t: TaskId)                         // re-armed to 1, about to push or to run
    | Reporting(p: TaskId)                     // released a child of p, about to decrement p

  datatype Submitter =
    | NoSubmit
    | HasRoot(r: TaskId, n: nat, chunk: pos)
    | HasBoth(r: TaskId, c: TaskId, n: nat, chunk: pos)
    | Refused(c: TaskId)

  datatype Answer = Pending(t: TaskId) | Called(k: nat)

  datatype Job = Job(
    n: nat, chunk: pos, root: TaskId, done: bool,
    calls: seq<Range>,                    // calls of job_function made by the splitter, in order
    answer: seq<Answer>                   // who answers for each index
  )

  datatype StageState = Waiting(t: TaskId) | Executing(w: WorkerId, k: nat) | Ended | Overwritten

  datatype State = State(
    tasks: map<TaskId, Task>,
    workers: map<WorkerId, Worker>,
    sub: Submitter,
    jobs: map<JobId, Job>,
    clock: nat,
    stages: seq<StageState>
  )

  /** Events of a worker between two functions. */
  datatype LoopEvent =
    | Take(t: TaskId)
    | Drop
    | RunOwn
    | Arm
    | Requeue
    | RunArmed
    | Retire
    | Report

  /** Events of a worker inside a function. */
  datatype StackEvent =
    | SetContinuation
    | Return
    | PublishDone
    | SplitCall
    | SplitInline
    | SplitNew(r: TaskId)
    | SplitFree(r: TaskId)
    | SpawnBegin
    | SpawnNew(r: TaskId)
    | SpawnDirect
    | SpawnEnd
    | CountBatch
    | PushBatch(acc: set<TaskId>)
    | Rollback
    | RunRejected(r: TaskId)
    | FreeRejected

  /** Events of the submitting thread. */
  datatype SubmitEvent =
    | SubmitRoot(r: TaskId, n: nat, chunk: nat)
    | SubmitChild(c: TaskId)
    | DropRoot
    | DropChild
    | SubmitPush(j: JobId)

  datatype Event =
    | Loop(w: WorkerId, l: LoopEvent)
    | Stack(w: WorkerId, f: StackEvent)
    | Submit(m: SubmitEvent)

  // ---------------------------------------------------------------- access helpers

  predicate IsRunning(s: State, w: WorkerId) {
    w in s.workers && s.workers[w].Running? && s.workers[w].frames != [] && s.workers[w].t in s.tasks
  }

  function Top(s: State, w: WorkerId): Frame
    requires IsRunning(s, w)
  {
    s.workers[w].frames[|s.workers[w].frames| - 1]
  }

  predicate Over(s: State, w: WorkerId) {
    IsRunning(s, w) && |s.workers[w].frames| > 1
  }

  /** The frame that called the top frame. */
  function Below(s: State, w: WorkerId): Frame
    requires Over(s, w)
  {
    s.workers[w].frames[|s.workers[w].frames| - 2]
  }

  /** The index of the top frame. */
  function TopIndex(s: State, w: WorkerId): nat
    requires IsRunning(s, w)
  {
    |s.workers[w].frames| - 1
  }

  predicate IsFree(s: State, t: TaskId) {
    t in s.tasks && s.tasks[t].place.Free?
  }

  /** The tasks that stack frame k of w has acquired and not handed on: batch_array, right_task. */
  function Batch(s: State, w: WorkerId, k: nat): set<TaskId> {
    set c | c in s.tasks && (s.tasks[c].place == Fresh(w, k) || s.tasks[c].place == Offered(w, k))
  }

  function TopBatch(s: State, w: WorkerId): set<TaskId>
    requires IsRunning(s, w)
  {
    Batch(s, w, TopIndex(s, w))
  }

  /** The job that the current task of w belongs to, and its chunk size. */
  function JobOf(s: State, w: WorkerId): JobId
    requires IsRunning(s, w)
  {
    s.tasks[s.workers[w].t].job
  }

  function ChunkOf(s: State, w: WorkerId): pos
    requires IsRunning(s, w)
  {
    if JobOf(s, w) in s.jobs then s.jobs[JobOf(s, w)].chunk else 1
  }

  predicate AtSplit(s: State, w: WorkerId) {
    IsRunning(s, w) && Top(s, w).Split?
  }

  predicate WantsSplit(s: State, w: WorkerId) {
    AtSplit(s, w) && Splits(Top(s, w).lo, Top(s, w).hi, ChunkOf(s, w))
  }

  function SplitPoint(s: State, w: WorkerId): nat
    requires WantsSplit(s, w)
  {
    MidPoint(Top(s, w).lo, Top(s, w).hi, ChunkOf(s, w))
  }

  // ---------------------------------------------------------------- updates

  /** Worker w of state s with its top frame replaced by `fs`. */
  function WithTop(s: State, w: WorkerId, fs: seq<Frame>): Worker
    requires IsRunning(s, w)
  {
    var f := s.workers[w].frames;
    s.workers[w].(frames := f[..|f| - 1] + fs)
  }

  /** Worker w of state s after its top function returned; the last one hands the task back to
      the worker loop. */
  function Popped(s: State, w: WorkerId): Worker
    requires IsRunning(s, w)
  {
    var wk := s.workers[w];
    if |wk.frames| == 1 then Dropping(wk.t, wk.ctx) else WithTop(s, w, [])
  }

  /** Moves every task of `b` to place `p`. */
  function MoveAll(m: map<TaskId, Task>, b: set<TaskId>, p: Place): (r: map<TaskId, Task>)
    ensures r.Keys == m.Keys
    ensures forall t :: t in m ==> r[t] == if t in b then m[t].(place := p) else m[t]
  {
    map t | t in m :: if t in b then m[t].(place := p) else m[t]
  }

  function AddDeps(m: map<TaskId, Task>, t: TaskId, d: int): map<TaskId, Task>
    requires t in m
  {
    m[t := m[t].(deps := m[t].deps + d)]
  }

  function SetStage(stages: seq<StageState>, id: StageId, st: StageState): seq<StageState> {
    if id < |stages| then stages[id := st] else stages
  }

  function Assign(a: seq<Answer>, lo: nat, hi: nat, v: Answer): (r: seq<Answer>)
    ensures |r| == |a|
    ensures forall x :: 0 <= x < |a| ==> r[x] == if lo <= x < hi then v else a[x]
  {
    seq(|a|, x requires 0 <= x < |a| => if lo <= x < hi then v else a[x])
  }

  /** The splitter of job j calls job_function on [lo, hi). */
  function LogCall(jobs: map<JobId, Job>, j: JobId, lo: nat, hi: nat): map<JobId, Job> {
    if j in jobs then
      var job := jobs[j];
      jobs[j := job.(calls := job.calls + [Range(lo, hi)],
                     answer := Assign(job.answer, lo, hi, Called(|job.calls|)))]
    else jobs
  }

  /** Task r of job j takes over [lo, hi). */
  function HandOver(jobs: map<JobId, Job>, j: JobId, lo: nat, hi: nat, r: TaskId): map<JobId, Job> {
    if j in jobs then jobs[j := jobs[j].(answer := Assign(jobs[j].answer, lo, hi, Pending(r)))] else jobs
  }

  // ---------------------------------------------------------------- the worker loop (src/sk_worker.c:143-267)

  /** The function pointer of task t is read and cleared, and its function is entered. */
  function StartStage(s: State, w: WorkerId, t: TaskId, ctx: Ctx): State
    requires t in s.tasks
  {
    var task := s.tasks[t];
    var f := match task.fn
             case Splitter => Split(task.pend.lo, task.pend.hi)
             case Finish => Publish
             case Code(id) => User(id)
             case Null => User(0);
    s.(tasks := s.tasks[t := task.(fn := Null, deps := 1, place := Active(w))],
       workers := s.workers[w := Running(t, ctx, [f])],
       stages := if task.fn.Code? then SetStage(s.stages, task.fn.id, Executing(w, 0)) else s.stages)
  }

  predicate CanTake(s: State, w: WorkerId, t: TaskId) {
    w in s.workers && s.workers[w].Idle? && t in s.tasks && s.tasks[t].place.Queued?
  }

  function DoTake(s: State, w: WorkerId, t: TaskId): State
    requires CanTake(s, w, t)
  {
    StartStage(s, w, t, Main)
  }

  predicate CanDrop(s: State, w: WorkerId) {
    w in s.workers && s.workers[w].Dropping? && s.workers[w].t in s.tasks
  }

  /** The fetch_sub that drops the virtual lock: whoever brings the counter to 0 owns the task. */
  function DoDrop(s: State, w: WorkerId): State
    requires CanDrop(s, w)
  {
    var t, task := s.workers[w].t, s.tasks[s.workers[w].t];
    if task.deps == 1
    then s.(tasks := s.tasks[t := task.(deps := 0, place := Owned(w))],
            workers := s.workers[w := Owner(t, s.workers[w].ctx)])
    else s.(tasks := s.tasks[t := task.(deps := task.deps - 1, place := Parked)],
            workers := s.workers[w := Idle])
  }

  predicate AtOwner(s: State, w: WorkerId) {
    w in s.workers && s.workers[w].Owner? && s.workers[w].t in s.tasks
  }

  predicate CanRunOwn(s: State, w: WorkerId) {
    AtOwner(s, w) && s.workers[w].ctx.Main? && !s.tasks[s.workers[w].t].fn.Null?
  }

  function DoRunOwn(s: State, w: WorkerId): State
    requires CanRunOwn(s, w)
  {
    StartStage(s, w, s.workers[w].t, Main)
  }

  predicate CanArm(s: State, w: WorkerId) {
    AtOwner(s, w) && s.workers[w].ctx.Cascade? && !s.tasks[s.workers[w].t].fn.Null?
  }

  function DoArm(s: State, w: WorkerId): State
    requires CanArm(s, w)
  {
    var t := s.workers[w].t;
    s.(tasks := s.tasks[t := s.tasks[t].(deps := 1, place := Active(w))],
       workers := s.workers[w := Armed(t)])
  }

  predicate AtArmed(s: State, w: WorkerId) {
    w in s.workers && s.workers[w].Armed? && s.workers[w].t in s.tasks
  }

  predicate CanRequeue(s: State, w: WorkerId) {
    AtArmed(s, w) && s.tasks[s.workers[w].t].parent.Some?
  }

  function DoRequeue(s: State, w: WorkerId): State
    requires CanRequeue(s, w)
  {
    var t := s.workers[w].t;
    s.(tasks := s.tasks[t := s.tasks[t].(place := Queued)], workers := s.workers[w := Idle])
  }

  /** The push failed, or t is a root: its continuation runs in place. */
  function DoRunArmed(s: State, w: WorkerId): State
    requires AtArmed(s, w)
  {
    StartStage(s, w, s.workers[w].t, Cascade)
  }

  predicate CanRetire(s: State, w: WorkerId) {
    AtOwner(s, w) && s.tasks[s.workers[w].t].fn.Null?
  }

  function DoRetire(s: State, w: WorkerId): State
    requires CanRetire(s, w)
  {
    var t, task := s.workers[w].t, s.tasks[s.workers[w].t];
    s.(tasks := s.tasks[t := task.(place := Free)],
       workers := s.workers[w := if task.parent.Some? then Reporting(task.parent.value) else Idle])
  }

  predicate CanReport(s: State, w: WorkerId) {
    w in s.workers && s.workers[w].Reporting? && s.workers[w].p in s.tasks
  }

  function DoReport(s: State, w: WorkerId): State
    requires CanReport(s, w)
  {
    var p, task := s.workers[w].p, s.tasks[s.workers[w].p];
    if task.deps == 1
    then s.(tasks := s.tasks[p := task.(deps := 0, place := Owned(w))],
            workers := s.workers[w := Owner(p, Cascade)])
    else s.(tasks := s.tasks[p := task.(deps := task.deps - 1)],
            workers := s.workers[w := Idle])
  }

  // ---------------------------------------------------------------- client functions

  predicate AtUser(s: State, w: WorkerId) {
    IsRunning(s, w) && Top(s, w).User?
  }

  /** scheduler_set_continuation (src/sk_scheduler.c:368-370): also from a function run in place,
      where it replaces what the task itself registered. */
  function DoSetContinuation(s: State, w: WorkerId): State
    requires AtUser(s, w)
  {
    var t, task := s.workers[w].t, s.tasks[s.workers[w].t];
    var stages := if task.fn.Code? then SetStage(s.stages, task.fn.id, Overwritten) else s.stages;
    s.(tasks := s.tasks[t := task.(fn := Code(|s.stages|))], stages := stages + [Waiting(t)])
  }

  function DoReturn(s: State, w: WorkerId): State
    requires AtUser(s, w)
  {
    s.(workers := s.workers[w := Popped(s, w)], stages := SetStage(s.stages, Top(s, w).id, Ended))
  }

  predicate AtPublish(s: State, w: WorkerId) {
    IsRunning(s, w) && Top(s, w).Publish?
  }

  /** hooked_job_finish_task (src/sk_worker.c:272-284): the exchange on the job's state. */
  function DoPublish(s: State, w: WorkerId): State
    requires AtPublish(s, w)
  {
    var j := JobOf(s, w);
    s.(workers := s.workers[w := Popped(s, w)],
       jobs := if j in s.jobs then s.jobs[j := s.jobs[j].(done := true)] else s.jobs)
  }

  // ---------------------------------------------------------------- the splitter (src/sk_worker.c:287-333)

  predicate CanSplitCall(s: State, w: WorkerId) {
    AtSplit(s, w) && !WantsSplit(s, w)
  }

  /** The last call, on what is left of the range. */
  function DoSplitCall(s: State, w: WorkerId): State
    requires CanSplitCall(s, w)
  {
    var t, f := s.workers[w].t, Top(s, w);
    s.(tasks := s.tasks[t := s.tasks[t].(pend := Range(0, 0))],
       workers := s.workers[w := WithTop(s, w, [User(|s.stages|)])],
       jobs := LogCall(s.jobs, JobOf(s, w), f.lo, f.hi),
       stages := s.stages + [Executing(w, TopIndex(s, w))])
  }

  /** No node left: the splitter calls the job's function on the right part itself. */
  function DoSplitInline(s: State, w: WorkerId): State
    requires WantsSplit(s, w)
  {
    var t, f, mid := s.workers[w].t, Top(s, w), SplitPoint(s, w);
    s.(tasks := s.tasks[t := s.tasks[t].(pend := Range(f.lo, mid))],
       workers := s.workers[w := WithTop(s, w, [Split(f.lo, mid), User(|s.stages|)])],
       jobs := LogCall(s.jobs, JobOf(s, w), mid, f.hi),
       stages := s.stages + [Executing(w, TopIndex(s, w) + 1)])
  }

  predicate CanSplitNew(s: State, w: WorkerId, r: TaskId) {
    WantsSplit(s, w) && IsFree(s, r)
  }

  function DoSplitNew(s: State, w: WorkerId, r: TaskId): State
    requires CanSplitNew(s, w, r)
  {
    var t, f, mid := s.workers[w].t, Top(s, w), SplitPoint(s, w);
    var right := Task(Splitter, 1, Some(t), Fresh(w, TopIndex(s, w) + 1), s.clock, JobOf(s, w), Range(mid, f.hi));
    s.(tasks := s.tasks[t := s.tasks[t].(pend := Range(f.lo, mid))][r := right],
       workers := s.workers[w := WithTop(s, w, [Split(f.lo, mid), New])],
       jobs := HandOver(s.jobs, JobOf(s, w), mid, f.hi, r),
       clock := s.clock + 1)
  }

  predicate CanSplitFree(s: State, w: WorkerId, r: TaskId) {
    Over(s, w) && Top(s, w).Inline? && Below(s, w).Split? && r in s.tasks && TopBatch(s, w) == {r}
  }

  /** The right part could not be queued: release its node and call the job's function on it. */
  function DoSplitFree(s: State, w: WorkerId, r: TaskId): State
    requires CanSplitFree(s, w, r)
  {
    var pend := s.tasks[r].pend;
    s.(tasks := s.tasks[r := s.tasks[r].(place := Free, pend := Range(0, 0))],
       workers := s.workers[w := WithTop(s, w, [User(|s.stages|)])],
       jobs := LogCall(s.jobs, JobOf(s, w), pend.lo, pend.hi),
       stages := s.stages + [Executing(w, TopIndex(s, w))])
  }

  // ---------------------------------------------------------------- spawning (src/sk_scheduler.c:291-366)

  function DoSpawnBegin(s: State, w: WorkerId): State
    requires AtUser(s, w)
  {
    s.(workers := s.workers[w := WithTop(s, w, [Top(s, w), New])])
  }

  predicate CanSpawnNew(s: State, w: WorkerId, r: TaskId) {
    Over(s, w) && Top(s, w).New? && Below(s, w).User? && |TopBatch(s, w)| < BATCH_SIZE && IsFree(s, r)
  }

  function DoSpawnNew(s: State, w: WorkerId, r: TaskId): State
    requires CanSpawnNew(s, w, r)
  {
    var child := Task(Code(|s.stages|), 1, Some(s.workers[w].t), Fresh(w, TopIndex(s, w)), s.clock, JobOf(s, w), Range(0, 0));
    s.(tasks := s.tasks[r := child], clock := s.clock + 1, stages := s.stages + [Waiting(r)])
  }

  /** Nothing acquired, or nothing left to recycle: the spawn is about to end. */
  predicate AtSpawnEnd(s: State, w: WorkerId) {
    Over(s, w) && (Top(s, w).New? || Top(s, w).Inline?) && Below(s, w).User? && TopBatch(s, w) == {}
  }

  /** No node for the pass, or a pass cut short: what remains is run by one call in place. */
  function DoSpawnDirect(s: State, w: WorkerId): State
    requires AtSpawnEnd(s, w)
  {
    s.(workers := s.workers[w := WithTop(s, w, [User(|s.stages|)])],
       stages := s.stages + [Executing(w, TopIndex(s, w))])
  }

  function DoSpawnEnd(s: State, w: WorkerId): State
    requires AtSpawnEnd(s, w)
  {
    s.(workers := s.workers[w := WithTop(s, w, [])])
  }

  predicate CanCount(s: State, w: WorkerId) {
    Over(s, w) && Top(s, w).New? && TopBatch(s, w) != {}
  }

  /** The parent's counter grows by the size of the batch before any of it is published. */
  function DoCount(s: State, w: WorkerId): State
    requires CanCount(s, w)
  {
    var b := TopBatch(s, w);
    s.(tasks := MoveAll(AddDeps(s.tasks, s.workers[w].t, |b|), b, Offered(w, TopIndex(s, w))),
       workers := s.workers[w := WithTop(s, w, [Offer])])
  }

  predicate CanPush(s: State, w: WorkerId, acc: set<TaskId>) {
    Over(s, w) && Top(s, w).Offer? && acc <= TopBatch(s, w)
  }

  /** The accepted part becomes visible to every worker at the store to `bottom`. */
  function DoPush(s: State, w: WorkerId, acc: set<TaskId>): State
    requires CanPush(s, w, acc)
  {
    var fs := if acc != TopBatch(s, w) then [Reject] else if Below(s, w).Split? then [] else [New];
    s.(tasks := MoveAll(s.tasks, acc, Queued), workers := s.workers[w := WithTop(s, w, fs)])
  }

  predicate CanRollback(s: State, w: WorkerId) {
    Over(s, w) && Top(s, w).Reject?
  }

  function DoRollback(s: State, w: WorkerId): State
    requires CanRollback(s, w)
  {
    var b := TopBatch(s, w);
    s.(tasks := MoveAll(AddDeps(s.tasks, s.workers[w].t, -|b|), b, Fresh(w, TopIndex(s, w))),
       workers := s.workers[w := WithTop(s, w, [Inline])])
  }

  predicate CanRunRejected(s: State, w: WorkerId, r: TaskId) {
    Over(s, w) && Top(s, w).Inline? && Below(s, w).User? && r in TopBatch(s, w)
  }

  /** A rejected child's function is called in place. Its node is released afterwards; its
      task_fn, never read again before the next acquire rewrites it, is cleared here. */
  function DoRunRejected(s: State, w: WorkerId, r: TaskId): State
    requires CanRunRejected(s, w, r)
  {
    var id := if s.tasks[r].fn.Code? then s.tasks[r].fn.id else 0;
    s.(tasks := s.tasks[r := s.tasks[r].(fn := Null, place := Recycled(w, TopIndex(s, w)))],
       workers := s.workers[w := WithTop(s, w, [Recycle(r), User(id)])],
       stages := SetStage(s.stages, id, Executing(w, TopIndex(s, w) + 1)))
  }

  predicate CanFreeRejected(s: State, w: WorkerId) {
    Over(s, w) && Top(s, w).Recycle? && Top(s, w).c in s.tasks
  }

  function DoFreeRejected(s: State, w: WorkerId): State
    requires CanFreeRejected(s, w)
  {
    var c := Top(s, w).c;
    s.(tasks := s.tasks[c := s.tasks[c].(place := Free)], workers := s.workers[w := WithTop(s, w, [Inline])])
  }

  // ---------------------------------------------------------------- submission (src/sk_scheduler.c:240-290)

  predicate CanSubmitRoot(s: State, r: TaskId) {
    s.sub.NoSubmit? && IsFree(s, r)
  }

  function DoSubmitRoot(s: State, r: TaskId, n: nat, chunk: nat): State
    requires CanSubmitRoot(s, r)
  {
    s.(tasks := s.tasks[r := Task(Finish, 1, None, Submitting, s.clock, 0, Range(0, 0))],
       clock := s.clock + 1,
       sub := HasRoot(r, n, if chunk > n || chunk == 0 then DEFAULT_CHUNK_SIZE else chunk))
  }

  predicate CanSubmitChild(s: State, c: TaskId) {
    s.sub.HasRoot? && IsFree(s, c)
  }

  function DoSubmitChild(s: State, c: TaskId): State
    requires CanSubmitChild(s, c)
  {
    s.(tasks := s.tasks[c := Task(Splitter, 1, Some(s.sub.r), Submitting, s.clock, 0, Range(0, s.sub.n))],
       clock := s.clock + 1,
       sub := HasBoth(s.sub.r, c, s.sub.n, s.sub.chunk))
  }

  predicate CanDropRoot(s: State) {
    (s.sub.HasRoot? || s.sub.HasBoth?) && s.sub.r in s.tasks
  }

  /** No second node, or a full ring: the root goes back to the pool. */
  function DoDropRoot(s: State): State
    requires CanDropRoot(s)
  {
    s.(tasks := s.tasks[s.sub.r := s.tasks[s.sub.r].(place := Free)],
       sub := if s.sub.HasRoot? then NoSubmit else Refused(s.sub.c))
  }

  predicate CanDropChild(s: State) {
    s.sub.Refused? && s.sub.c in s.tasks
  }

  function DoDropChild(s: State): State
    requires CanDropChild(s)
  {
    s.(tasks := s.tasks[s.sub.c := s.tasks[s.sub.c].(place := Free)], sub := NoSubmit)
  }

  predicate CanSubmitPush(s: State, j: JobId) {
    s.sub.HasBoth? && s.sub.r in s.tasks && s.sub.c in s.tasks && j !in s.jobs
  }

  /** The child enters the ring: the job is accepted. */
  function DoSubmitPush(s: State, j: JobId): State
    requires CanSubmitPush(s, j)
  {
    var r, c := s.sub.r, s.sub.c;
    var m := s.tasks[r := s.tasks[r].(place := Parked, job := j)];
    s.(tasks := m[c := m[c].(place := Queued, job := j)],
       sub := NoSubmit,
       jobs := s.jobs[j := Job(s.sub.n, s.sub.chunk, r, false, [], seq(s.sub.n, _ => Pending(c)))])
  }

  // ---------------------------------------------------------------- events and runs

  predicate LoopEnabled(s: State, w: WorkerId, l: LoopEvent) {
    match l
    case Take(t) => CanTake(s, w, t)
    case Drop => CanDrop(s, w)
    case RunOwn => CanRunOwn(s, w)
    case Arm => CanArm(s, w)
    case Requeue => CanRequeue(s, w)
    case RunArmed => AtArmed(s, w)
    case Retire => CanRetire(s, w)
    case Report => CanReport(s, w)
  }

  function LoopApply(s: State, w: WorkerId, l: LoopEvent): State
    requires LoopEnabled(s, w, l)
  {
    match l
    case Take(t) => DoTake(s, w, t)
    case Drop => DoDrop(s, w)
    case RunOwn => DoRunOwn(s, w)
    case Arm => DoArm(s, w)
    case Requeue => DoRequeue(s, w)
    case RunArmed => DoRunArmed(s, w)
    case Retire => DoRetire(s, w)
    case Report => DoReport(s, w)
  }

  predicate StackEnabled(s: State, w: WorkerId, f: StackEvent) {
    match f
    case SetContinuation => AtUser(s, w)
    case Return => AtUser(s, w)
    case PublishDone => AtPublish(s, w)
    case SplitCall => CanSplitCall(s, w)
    case SplitInline => WantsSplit(s, w)
    case SplitNew(r) => CanSplitNew(s, w, r)
    case SplitFree(r) => CanSplitFree(s, w, r)
    case SpawnBegin => AtUser(s, w)
    case SpawnNew(r) => CanSpawnNew(s, w, r)
    case SpawnDirect => AtSpawnEnd(s, w)
    case SpawnEnd => AtSpawnEnd(s, w)
    case CountBatch => CanCount(s, w)
    case PushBatch(acc) => CanPush(s, w, acc)
    case Rollback => CanRollback(s, w)
    case RunRejected(r) => CanRunRejected(s, w, r)
    case FreeRejected => CanFreeRejected(s, w)
  }

  function StackApply(s: State, w: WorkerId, f: StackEvent): State
    requires StackEnabled(s, w, f)
  {
    match f
    case SetContinuation => DoSetContinuation(s, w)
    case Return => DoReturn(s, w)
    case PublishDone => DoPublish(s, w)
    case SplitCall => DoSplitCall(s, w)
    case SplitInline => DoSplitInline(s, w)
    case SplitNew(r) => DoSplitNew(s, w, r)
    case SplitFree(r) => DoSplitFree(s, w, r)
    case SpawnBegin => DoSpawnBegin(s, w)
    case SpawnNew(r) => DoSpawnNew(s, w, r)
    case SpawnDirect => DoSpawnDirect(s, w)
    case SpawnEnd => DoSpawnEnd(s, w)
    case CountBatch => DoCount(s, w)
    case PushBatch(acc) => DoPush(s, w, acc)
    case Rollback => DoRollback(s, w)
    case RunRejected(r) => DoRunRejected(s, w, r)
    case FreeRejected => DoFreeRejected(s, w)
  }

  predicate SubmitEnabled(s: State, m: SubmitEvent) {
    match m
    case SubmitRoot(r, _, _) => CanSubmitRoot(s, r)
    case SubmitChild(c) => CanSubmitChild(s, c)
    case DropRoot => CanDropRoot(s)
    case DropChild => CanDropChild(s)
    case SubmitPush(j) => CanSubmitPush(s, j)
  }

  function SubmitApply(s: State, m: SubmitEvent): State
    requires SubmitEnabled(s, m)
  {
    match m
    case SubmitRoot(r, n, chunk) => DoSubmitRoot(s, r, n, chunk)
    case SubmitChild(c) => DoSubmitChild(s, c)
    case DropRoot => DoDropRoot(s)
    case DropChild => DoDropChild(s)
    case SubmitPush(j) => DoSubmitPush(s, j)
  }

  predicate Enabled(s: State, e: Event) {
    match e
    case Loop(w, l) => LoopEnabled(s, w, l)
    case Stack(w, f) => StackEnabled(s, w, f)
    case Submit(m) => SubmitEnabled(s, m)
  }

  function Apply(s: State, e: Event): State
    requires Enabled(s, e)
  {
    match e
    case Loop(w, l) => LoopApply(s, w, l)
    case Stack(w, f) => StackApply(s, w, f)
    case Submit(m) => SubmitApply(s, m)
  }

  predicate Init(s: State) {
    && (forall t :: t in s.tasks ==> s.tasks[t].place.Free?)
    && (forall w :: w in s.workers ==> s.workers[w].Idle?)
    && s.sub.NoSubmit? && s.jobs == map[] && s.stages == []
  }

  /** Every event of the run is enabled where it happens. */
  predicate IsRun(s: State, es: seq<Event>)
    decreases |es|
  {
    es == [] || (Enabled(s, es[0]) && IsRun(Apply(s, es[0]), es[1..]))
  }

  function Final(s: State, es: seq<Event>): State
    requires IsRun(s, es)
    decreases |es|
  {
    if es == [] then s else Final(Apply(s, es[0]), es[1..])
  }
}
