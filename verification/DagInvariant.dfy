/** What every reachable state of the task completion protocol satisfies. */
module DagInvariant {
  import opened Basics
  import opened Splitting
  import opened TaskDag

  // ---------------------------------------------------------------- who refers to what

  /** The task whose virtual lock the worker holds. */
  function Holds(wk: Worker): Option<TaskId> {
    match wk
    case Running(t, _, _) => Some(t)
    case Dropping(t, _) => Some(t)
    case Armed(t) => Some(t)
    case _ => None
  }

  function SubTasks(sub: Submitter): set<TaskId> {
    match sub
    case NoSubmit => {}
    case HasRoot(r, _, _) => {r}
    case HasBoth(r, c, _, _) => {r, c}
    case Refused(c) => {c}
  }

  /** Frame `f` may be called from frame `below`. */
  predicate CallOk(below: Frame, f: Frame) {
    match f
    case User(_) => below.User? || below.Split? || below.Recycle?
    case Split(_, _) => false
    case Publish => false
    case Recycle(_) => below.User?
    case _ => below.User? || below.Split?
  }

  predicate FramesOk(f: seq<Frame>) {
    && f != []
    && (f[0].User? || f[0].Split? || f[0].Publish?)
    && (f[0].Publish? ==> |f| == 1)
    && (forall k :: 1 <= k < |f| ==> CallOk(f[k-1], f[k]))
  }

  /** The stack frame k of worker w, if there is one. */
  function FrameAt(s: State, w: WorkerId, k: nat): Option<Frame> {
    if w in s.workers && s.workers[w].Running? && k < |s.workers[w].frames|
    then Some(s.workers[w].frames[k])
    else None
  }

  predicate OffersAt(s: State, w: WorkerId, k: nat) {
    FrameAt(s, w, k) == Some(Offer) || FrameAt(s, w, k) == Some(Reject)
  }

  predicate HoldsFreshAt(s: State, w: WorkerId, k: nat) {
    FrameAt(s, w, k) == Some(New) || FrameAt(s, w, k) == Some(Inline) ||
    (FrameAt(s, w, k).Some? && FrameAt(s, w, k).value.Recycle?)
  }

  /** Task t was made by the function that worker w runs, and is listed in its frame k. */
  predicate MadeBy(s: State, w: WorkerId, k: nat, task: Task) {
    && w in s.workers && s.workers[w].Running? && task.parent == Some(s.workers[w].t)
    && 0 < k < |s.workers[w].frames|
    && (s.workers[w].frames[k-1].Split? ==> task.fn.Splitter?)
    && (s.workers[w].frames[k-1].User? ==> task.fn.Code?)
  }

  ghost predicate WorkerOk(s: State, w: WorkerId)
    requires w in s.workers
  {
    match s.workers[w]
    case Idle => true
    case Running(t, _, f) => t in s.tasks && s.tasks[t].place == Active(w) && FramesOk(f)
    case Dropping(t, _) => t in s.tasks && s.tasks[t].place == Active(w)
    case Owner(t, _) => t in s.tasks && s.tasks[t].place == Owned(w)
    case Armed(t) => t in s.tasks && s.tasks[t].place == Active(w) && !s.tasks[t].fn.Null?
    case Reporting(p) => p in s.tasks && (s.tasks[p].place.Active? || s.tasks[p].place.Parked?)
  }

  ghost predicate PlaceOk(s: State, t: TaskId)
    requires t in s.tasks
  {
    match s.tasks[t].place
    case Free => true
    case Submitting => t in SubTasks(s.sub)
    case Fresh(w, k) => HoldsFreshAt(s, w, k) && MadeBy(s, w, k, s.tasks[t])
    case Offered(w, k) => OffersAt(s, w, k) && MadeBy(s, w, k, s.tasks[t])
    case Recycled(w, k) => FrameAt(s, w, k) == Some(Recycle(t)) && s.tasks[t].fn.Null?
                           && s.tasks[t].parent == Some(s.workers[w].t)
    case Queued => !s.tasks[t].fn.Null? && s.tasks[t].parent.Some?
    case Active(w) => w in s.workers && Holds(s.workers[w]) == Some(t)
    case Owned(w) => w in s.workers && s.workers[w].Owner? && s.workers[w].t == t
    case Parked => true
  }

  ghost predicate SubOk(s: State) {
    && (forall t :: t in SubTasks(s.sub) ==> t in s.tasks && s.tasks[t].place.Submitting?)
    && (s.sub.HasBoth? ==> s.sub.r != s.sub.c)
  }

  ghost predicate RecycleOk(s: State, w: WorkerId, k: nat)
    requires FrameAt(s, w, k).Some?
  {
    var f := FrameAt(s, w, k).value;
    f.Recycle? ==> f.c in s.tasks && s.tasks[f.c].place == Recycled(w, k)
  }

  ghost predicate Refs(s: State) {
    && (forall w :: w in s.workers ==> WorkerOk(s, w))
    && (forall t :: t in s.tasks ==> PlaceOk(s, t))
    && (forall w, k: nat :: FrameAt(s, w, k).Some? ==> RecycleOk(s, w, k))
    && SubOk(s)
  }

  /** What the submitting thread has filled in so far. */
  ghost predicate SubmitOk(s: State) {
    match s.sub
    case NoSubmit => true
    case HasRoot(r, _, _) => r in s.tasks && s.tasks[r].fn.Finish? && s.tasks[r].parent.None? && s.tasks[r].pend == Range(0, 0)
    case HasBoth(r, c, n, _) =>
      && r in s.tasks && s.tasks[r].fn.Finish? && s.tasks[r].parent.None? && s.tasks[r].pend == Range(0, 0)
      && c in s.tasks && s.tasks[c].fn.Splitter? && s.tasks[c].parent == Some(r) && s.tasks[c].pend == Range(0, n)
      && s.tasks[r].serial < s.tasks[c].serial
    case Refused(c) => true
  }

  // ---------------------------------------------------------------- the dependency count

  predicate Started(task: Task) {
    !task.place.Free? && !task.place.Submitting?
  }

  /** A task that its parent has counted and that has not been released. */
  predicate CountedChild(task: Task, p: TaskId) {
    task.parent == Some(p) &&
    (task.place.Offered? || task.place.Queued? || task.place.Active? || task.place.Owned? || task.place.Parked?)
  }

  function Kids(m: map<TaskId, Task>, t: TaskId): set<TaskId> {
    set c | c in m && CountedChild(m[c], t)
  }

  /** Workers that released a child of t and have not decremented t yet. */
  function Reps(ws: map<WorkerId, Worker>, t: TaskId): set<WorkerId> {
    set w | w in ws && ws[w] == Reporting(t)
  }

  /** The virtual lock. */
  function Lock(task: Task): nat {
    if task.place.Fresh? || task.place.Offered? || task.place.Recycled? || task.place.Queued? || task.place.Active?
    then 1 else 0
  }

  ghost predicate CountOk(s: State, t: TaskId)
    requires t in s.tasks
  {
    var task := s.tasks[t];
    && (Started(task) ==> task.deps == Lock(task) + |Kids(s.tasks, t)| + |Reps(s.workers, t)|)
    && (task.place.Fresh? || task.place.Offered? || task.place.Recycled? || task.place.Queued? || task.place.Submitting?
        ==> task.deps == 1)
    && (task.place.Owned? ==> task.deps == 0)
    && (task.place.Parked? ==> task.deps > 0)
  }

  ghost predicate RunOk(s: State, w: WorkerId)
    requires w in s.workers
  {
    match s.workers[w]
    case Running(t, _, f) => t in s.tasks && (f != [] && f[0].Publish? ==> s.tasks[t].deps == 1)
    case Armed(t) => t in s.tasks && s.tasks[t].deps == 1
    case _ => true
  }

  ghost predicate Counts(s: State) {
    && (forall t :: t in s.tasks ==> CountOk(s, t))
    && (forall w :: w in s.workers ==> RunOk(s, w))
  }

  // ---------------------------------------------------------------- the forest of live tasks

  ghost predicate TreeOk(s: State, t: TaskId)
    requires t in s.tasks
  {
    var task := s.tasks[t];
    && (!task.place.Free? ==> task.serial < s.clock)
    && (Started(task) ==>
          match task.parent
          case None => task.place.Active? || task.place.Owned? || task.place.Parked?
          case Some(p) =>
            && p in s.tasks && (s.tasks[p].place.Active? || s.tasks[p].place.Parked?)
            && s.tasks[p].serial < task.serial && s.tasks[p].job == task.job)
  }

  ghost predicate Forest(s: State) {
    forall t :: t in s.tasks ==> TreeOk(s, t)
  }

  // ---------------------------------------------------------------- jobs and their root tasks

  /** The life of a root: waiting for the splitter child, about to publish, or published. */
  ghost predicate RootOk(s: State, t: TaskId)
    requires t in s.tasks
  {
    var task := s.tasks[t];
    Started(task) && task.parent.None? ==>
      && task.job in s.jobs && s.jobs[task.job].root == t && task.pend == Range(0, 0)
      && match task.place
         case Parked => task.fn.Finish? && !s.jobs[task.job].done
         case Owned(w) =>
           w in s.workers && s.workers[w].Owner? &&
           if s.jobs[task.job].done then task.fn.Null? else task.fn.Finish? && s.workers[w].ctx.Cascade?
         case Active(w) =>
           w in s.workers &&
           (match s.workers[w]
            case Armed(_) => task.fn.Finish? && !s.jobs[task.job].done
            case Running(_, _, f) => task.fn.Null? && f == [Publish] && !s.jobs[task.job].done
            case Dropping(_, _) => task.fn.Null? && s.jobs[task.job].done && task.deps == 1
            case _ => false)
         case _ => false
  }

  ghost predicate NodeOk(s: State, t: TaskId)
    requires t in s.tasks
  {
    var task := s.tasks[t];
    Started(task) ==> task.job in s.jobs && (task.parent.Some? ==> !task.fn.Finish?)
  }

  ghost predicate OnStackOk(s: State, w: WorkerId)
    requires w in s.workers
  {
    s.workers[w].Running? && s.workers[w].frames != [] && s.workers[w].frames[0].Publish? ==>
      s.workers[w].t in s.tasks && s.tasks[s.workers[w].t].parent.None?
  }

  ghost predicate JobOk(s: State, j: JobId)
    requires j in s.jobs
  {
    var job := s.jobs[j];
    !job.done ==> job.root in s.tasks && Started(s.tasks[job.root]) && s.tasks[job.root].parent.None?
                  && s.tasks[job.root].job == j
  }

  ghost predicate Roots(s: State) {
    && (forall t :: t in s.tasks ==> RootOk(s, t))
    && (forall t :: t in s.tasks ==> NodeOk(s, t))
    && (forall w :: w in s.workers ==> OnStackOk(s, w))
    && (forall j :: j in s.jobs ==> JobOk(s, j))
  }

  // ---------------------------------------------------------------- which part of a job's range is whose

  /** A splitter task answers for exactly the range its code still has to deal with. */
  ghost predicate PendOk(s: State, t: TaskId)
    requires t in s.tasks
  {
    var task := s.tasks[t];
    Started(task) ==>
      && task.pend.lo <= task.pend.hi
      && (task.pend == Range(0, 0) || task.fn.Splitter? ||
          (task.place.Active? && FrameAt(s, task.place.w, 0).Some? && FrameAt(s, task.place.w, 0).value.Split?))
      && (task.fn.Splitter? ==> task.place.Fresh? || task.place.Offered? || task.place.Queued?)
  }

  ghost predicate SplitterOk(s: State, w: WorkerId)
    requires w in s.workers
  {
    match s.workers[w]
    case Running(t, _, f) =>
      t in s.tasks && (f != [] && f[0].Split? ==> s.tasks[t].pend == Range(f[0].lo, f[0].hi))
    case _ => true
  }

  ghost predicate Pends(s: State) {
    && (forall t :: t in s.tasks ==> PendOk(s, t))
    && (forall w :: w in s.workers ==> SplitterOk(s, w))
  }

  /** Task t belongs to job j and answers for index x. */
  predicate AnswersFor(s: State, t: TaskId, j: JobId, x: int) {
    t in s.tasks && Started(s.tasks[t]) && s.tasks[t].job == j && s.tasks[t].pend.Contains(x)
  }

  /** Call number k of the job covers index x. */
  predicate InCall(job: Job, k: nat, x: int) {
    k < |job.calls| && job.calls[k].Contains(x)
  }

  /** Whoever is on record for index x does answer for it. */
  predicate Answered(s: State, j: JobId, x: nat)
    requires j in s.jobs && x < |s.jobs[j].answer|
  {
    match s.jobs[j].answer[x]
    case Pending(t) => AnswersFor(s, t, j, x)
    case Called(k) => InCall(s.jobs[j], k, x)
  }

  ghost predicate CoverOk(s: State, j: JobId)
    requires j in s.jobs
  {
    var job := s.jobs[j];
    && |job.answer| == job.n
    && (forall x :: 0 <= x < job.n ==> Answered(s, j, x))
    && (forall t, x :: AnswersFor(s, t, j, x) ==> x < job.n && job.answer[x] == Pending(t))
    && (forall k: nat, x :: InCall(job, k, x) ==> x < job.n && job.answer[x] == Called(k))
  }

  ghost predicate Cover(s: State) {
    forall j :: j in s.jobs ==> CoverOk(s, j)
  }

  // ---------------------------------------------------------------- stages

  /** Task t is to run stage id. */
  predicate Registered(s: State, t: TaskId, id: StageId) {
    t in s.tasks && Started(s.tasks[t]) && s.tasks[t].fn == Code(id)
  }

  /** Frame k of worker w executes stage id. */
  predicate OnStack(s: State, w: WorkerId, k: nat, id: StageId) {
    FrameAt(s, w, k) == Some(User(id))
  }

  /** A stage is waiting in one task, on one stack, over, or overwritten: never two of these. */
  ghost predicate StageOk(s: State, id: StageId)
    requires id < |s.stages|
  {
    match s.stages[id]
    case Waiting(t) => Registered(s, t, id)
    case Executing(w, k) => OnStack(s, w, k, id)
    case _ => true
  }

  ghost predicate Stages(s: State) {
    && (forall id :: 0 <= id < |s.stages| ==> StageOk(s, id))
    && (forall t, id: nat :: Registered(s, t, id) ==> id < |s.stages| && s.stages[id] == Waiting(t))
    && (forall w, k: nat, id: nat :: OnStack(s, w, k, id) ==> id < |s.stages| && s.stages[id] == Executing(w, k))
  }

  // ---------------------------------------------------------------- the splitter's single right part

  /** Frame k of w holds the right part of the splitter below it. */
  predicate HoldsRight(s: State, w: WorkerId, k: nat) {
    FrameAt(s, w, k).Some? && k > 0 && s.workers[w].frames[k-1].Split? && !s.workers[w].frames[k].User?
  }

  ghost predicate Solo(s: State) {
    forall w, k: nat :: HoldsRight(s, w, k) ==> |Batch(s, w, k)| == 1
  }

  ghost predicate Inv(s: State) {
    && Refs(s) && Counts(s) && Forest(s) && SubmitOk(s)
    && Roots(s) && Pends(s) && Cover(s) && Stages(s) && Solo(s)
  }
}
