# A verified model of a work-stealing scheduler

The repository is a lock-free fork-join scheduler in C. Worker threads run *tasks*; a task may spawn
children, register a continuation that runs after them, and is released when all of this is over. Its
correctness rests on a few small concurrent protocols and on the arithmetic that cuts ranges up. This
project models each of them and proves what it is for.

Every protocol is a transition system: one atomic load, store, compare-and-swap or fetch-and-modify on
shared data is one step (in `TaskDag`, work on data that no other thread can reach is folded into a
neighbouring step), any number of threads take part, and every interleaving under sequential consistency is
allowed. Theorems speak of every reachable state or of every run. The sequential bodies (the calls on the
deque, the ring and the node pool, the splitter, the spawn loop, `next_power_of_two`, the sorting routines)
are also written as classes and methods over arrays and loops, and proved against specification functions.

| file | what it models |
|---|---|
| `TaskDag.dfy` | workers, tasks, `unfinished_dependencies`, continuations, the splitter, spawning, submission, jobs |
| `DagInvariant.dfy` | what holds in every reachable state of it: references, counts, the forest of live tasks, roots, ranges, stages |
| `DagRefs`, `DagCounts`, `DagForest`, `DagJobs`, `DagCover`, `DagStages` | every event keeps each part of it |
| `DagTheorems.dfy`, `DagOthers.dfy`, `DagOutcome.dfy` | ownership, release, what a step leaves alone, what DONE means, no stuck jobs, stages run once and in order |
| `DagProgress.dfy` | how much work a run can make of what clients ask for, and that it ends with every job DONE |
| `DagJobStages.dfy`, `DagTaskStages.dfy` | which job, and which task, a function runs for |
| `DagRequests.dfy`, `DagSubmitted.dfy` | every function handed over has run; a job's calls are those of what its client submitted |
| `DagSingleChunk.dfy`, `DagCalls.dfy` | jobs submitted as a single chunk; the calls of every job: none on an empty range, one for an empty job |
| `ChaseLev.dfy`, `ChaseLevCalls.dfy` | the bounded work-stealing deque: its steps, and its calls on an array |
| `TaskPool.dfy`, `TaskPoolCalls.dfy` | the node pool with its tagged head word and the thread caches: its steps, and its calls on arrays |
| `TaskPoolWrap.dfy` | a run from boot in which the 32-bit tag wraps around between an acquire's load and its swap |
| `SpmcRing.dfy` | the single-producer ring: its steps, and its calls on an array |
| `JobWait.dfy` | waiting for a job and publishing its end |
| `Splitting.dfy`, `Spawning.dfy`, `PowerOfTwo.dfy` | range and capacity arithmetic |
| `Sorting.dfy`, `QuickSort.dfy`, `QuickSortEnds.dfy` | the quicksort example: it sorts, and it comes to an end |
| `QuickSortJob.dfy`, `QuickSortJobEnds.dfy` | the same as a job of the scheduler |
| `Merging.dfy`, `MergeSort.dfy`, `MergeSortEnds.dfy` | the merge sort example: it sorts as the sequential one does, and it comes to an end |
| `MergeSortJob.dfy`, `MergeSortJobShape.dfy`, `MergeSortJobEnds.dfy` | the same as a job of the scheduler |
| `Basics.dfy`, `Sums.dfy`, `SortCost.dfy` | shared types and arithmetic |

How the parts fit. `TaskDag` treats the deques and rings as the set of queued tasks and the pool as the set of
free nodes. What entitles it to is proved queue by queue and step by step: `ChaseLev.ActsAsSet`,
`SpmcRing.StepRefines` and `TaskPool.StepInv` say that each of their steps puts in, takes out or hands over
exactly what the corresponding event of `TaskDag` does. `QuickSortJob` and `MergeSortJob` run `TaskDag` together
with the steps of the sorting functions, one task for each call, so that their theorems speak of the job's DONE;
in `MergeSortJob` it is the scheduler, not an assumption, that starts a merge only after both halves are over.
`QuickSortJobEnds` and `MergeSortJobEnds` add that every schedule gets there: the sorts are totally correct on
the scheduler.
`Splitting` and `Spawning` show, call by call, which ranges the splitter and the spawn loop deal with, and
`DagCalls` carries the alignment of the splitter's ranges over to whole runs.

Three findings about the code:

- `scheduler_spawn_subtasks` can lose part of its range. When the pool gives some but not all of the nodes
  for a pass and the deque takes all of these, line 364 of `src/sk_scheduler.c` advances by the size of the
  pass instead of by the number of nodes, and the chunks in between are never run. `Spawning.SpawnCoversExactly`
  gives the exact condition, `Spawning.SkippedChunk` a concrete case; `Spawning.AdvancingByNodesCovers` shows
  that advancing by the number of nodes covers the range whatever fails.
- The comment at `include/sk_cl_deque.h:16-17` says that `bottom` only grows. It does not:
  `ChaseLev.BottomLowered` shows that a pop's first store, and no other step, lowers it, by one and to one less
  than `top` exactly when thieves have emptied the deque by then; `ChaseLev.BottomBelowTop` is a run from an
  empty deque that gets there. What makes the stale copy of `top` safe is that `top` only grows.
- The 32-bit tag does not protect the free list for ever. The pool's invariant survives a run if and only if
  every acquire that swaps a node out does so with a link that is still current
  (`TaskPool.KeptIffCurrent`, `TaskPool.ExactlyWhileCurrent`); fewer than 2^32 swaps of the head between the
  acquire's load and its swap are enough for that (`TaskPool.SwapIsCurrent`), and a release needs nothing.
  2^32 swaps are not: `TaskPoolWrap.WrapListsCachedNode` reaches, from boot with two threads and 83 nodes or
  more, an acquire whose swap succeeds after exactly that many and puts a node that another thread has in its
  cache at the head of the free list.

## Model

| member | source | states |
|---|---|---|
| DagTheorems.InvRun | src/sk_worker.c:143-267 | the whole invariant holds after any run from any state that satisfies it, for any number of workers and every interleaving |
| DagTheorems.DependencyCount | src/sk_worker.c:180-266 | in every reachable state `unfinished_dependencies` of a live task is its virtual lock plus its counted live children plus the children released but not yet reported |
| DagTheorems.UniqueOwner | src/sk_worker.c:209-247 | no two workers hold the same task, and a live task whose counter is 0 has exactly one owner |
| DagTheorems.OwnerByDecrement | src/sk_worker.c:209-266 | a worker becomes the owner of a task if and only if its own drop of the virtual lock, or its own report of a released child, brings the counter from 1 to 0 |
| DagTheorems.OnlyTouchesOwn | src/sk_worker.c:143-267 | a worker's step changes no task but those in `Touches`, and a free or queued one that this very step acquires or takes |
| DagTheorems.NoUseAfterRelease | src/sk_worker.c:174-264 | no worker is about to touch a node that is back in the pool, and the parent of a live task is live |
| DagTheorems.ReleaseIsLast | src/sk_worker.c:209-263 | when a node is released it has no live child, and no other worker holds it, owns it or is about to decrement it; afterwards nobody is |
| DagOutcome.ReleasedOnce | src/sk_scheduler.c:59-136 | over every run each node is acquired and released in turn: acquires minus releases is 1 while it is in use and 0 otherwise |
| DagOutcome.OnlyTheRoot | src/sk_worker.c:272-284 | once a root is about to publish, or has published, it is the only live task of its job |
| DagOutcome.JobDone | src/sk_worker.c:272-333 | a DONE job's function was called by the splitter on an exact partition of [0, n), and none of its nodes is in use but, at most, its root |
| DagSubmitted.RecordedAsSubmitted | src/sk_scheduler.c:240-290 | in every reachable state the record of every accepted job has the size its client submitted, and the chunk size asked for if that is between 1 and the size, else 128 |
| DagSubmitted.SubmittedIsDone | src/sk_scheduler.c:240-290 | when a job submitted with size n is DONE, every index below n was in exactly one call, no other index in any, no call is empty unless n is 0, and all its nodes but, at most, the root are released |
| DagSubmitted.SubmittedChunks | src/sk_scheduler.c:241-244 | every call starts at a multiple of the chunk size asked for (128 if that is 0 or too large) and ends at one or at n; a job of at most one such chunk has one call |
| DagOutcome.PublishedOnce | src/sk_worker.c:278 | at the exchange that publishes DONE the job was not DONE, the calls already partition [0, n), and every other task of the job is released |
| DagOutcome.DoneIsFinal | src/sk_worker.c:272-284 | nothing changes a job once it is DONE: no second publication, no late call |
| DagOutcome.NoStuckJobs | src/sk_worker.c:189-264 | when all queues are empty and no thread is in mid-operation, every node is free and every accepted job is DONE |
| DagOutcome.BusyCanMove | src/sk_worker.c:143-267 | in every reachable state a worker that is not idle can take a step of its own that no client has to ask for, whatever the others do and whichever tasks of a pending batch its deque takes |
| DagOutcome.DeadlockMeansDone | src/sk_worker.c:143-267 | a run can only come to a stop with every node free and every accepted job DONE |
| DagProgress.BoundedWork | src/sk_worker.c:143-333 | over every run, for every schedule and pattern of failures, the scheduler takes at most 10 steps of its own for every continuation, spawn and child that clients ask for and 20 + 32 n for every job of size n |
| DagProgress.EveryScheduleEnds | src/sk_worker.c:143-333 | from every reachable state, once clients ask for nothing more, every schedule ends, within a number of steps bounded by what was asked before |
| DagProgress.OutOfStepsMeansDone | src/sk_worker.c:143-284 | a run after which no step but a client's request is possible has released every node and finished every accepted job |
| DagProgress.CanFinish | src/sk_worker.c:143-284 | from every state with the invariant the scheduler can come to rest, every node free and nothing queued, without any further request |
| DagOutcome.StartsAlone | src/sk_worker.c:192-253 | a function of a task, first or continuation, taken from a queue or run by the cascading worker, starts only when every task below it is released and no worker is inside an earlier function of it |
| DagOutcome.StageMovesOn | src/sk_scheduler.c:368-370 | a registered function starts at most once, ends only after it started, and is otherwise only replaced, before it starts, by a continuation set from the same task |
| DagOutcome.EveryStageRan | src/sk_worker.c:192-253 | when everything is quiet every function ever registered has run to its end, or was replaced before it could start |
| DagRequests.HandedOver | src/sk_scheduler.c:291-370 | a continuation is registered in the task whose function sets it, a child's function in the child, whose parent is that task, and what the splitter calls or a spawn runs in place is entered at once by the same worker |
| DagRequests.RecordedIsEntered | src/sk_worker.c:287-333 | a call is recorded exactly by the events that enter the job's function for it, one at a time |
| DagRequests.EveryRequestRan | src/sk_worker.c:192-253 | in every run that ends quiet, the function handed over by any event has run to its end, or was replaced before it could start; one entered at once has run to its end without exception |
| DagRequests.EveryChoiceIsPossible | src/sk_scheduler.c:310-364 | nothing that the pool, the queues or a client function may do is shut out by the model: every such choice is a possible event |
| DagRequests.VisitsKeepKind | src/sk_worker.c:174-266 | a worker that took a task from a queue runs its continuations itself at once; one that came to a task by its report re-arms it first, and then queues it or runs it; neither changes until it leaves the task |
| DagJobStages.NoStageLeft | src/sk_worker.c:272-284 | a DONE job has no function registered or running, in whatever task or worker |
| DagJobStages.StageEnds | src/sk_worker.c:174-207 | only the return of its function, or a new continuation for the same task, ends a registered or running function |
| DagSingleChunk.OneChunkStep | src/sk_worker.c:287-333 | a job submitted with a chunk size of at least its size is never split: its only splitter task keeps the whole range until its single call |
| DagSingleChunk.CalledOnceWhenDone | src/sk_worker.c:287-333 | after any run that follows the submission of such a job, once it is DONE its function has been called exactly once by the splitter, for [0, n), also for n = 0 |
| DagCalls.CallsAreParts | src/sk_worker.c:287-333 | in every reachable state every call made so far starts at a multiple of the chunk size, ends at one or at the end of the job, and is not on an empty range unless the job is empty |
| DagCalls.ChunkByChunk | src/sk_worker.c:290-333 | in every run in which no part of the job is refused a node or a place in a queue, every call is for exactly one chunk |
| DagCalls.CallsWhenDone | src/sk_worker.c:272-333 | the calls of a DONE job are an exact partition of [0, n) into non-empty ranges, and nothing besides; an empty job has had one call, on the empty range |
| DagCalls.OneCallWhenDone | src/sk_worker.c:287-333 | in every reachable state a DONE job of at most one chunk has had exactly one call, for [0, n) |
| DagSingleChunk.CallKeepsOne | src/sk_worker.c:329-333 | the single call of such a job is for [0, n) and is the first |
| ChaseLev.StepInv | include/sk_cl_deque.h:45-156 | every step of the owner and of any thief keeps the invariant, and acts on the deque seen as a sequence as an append, a take-last, a take-first, or not at all |
| ChaseLev.ExactlyOnce | include/sk_cl_deque.h:45-156 | for every interleaving of one owner with any number of thieves, what was pushed is exactly what was returned together with what is inside; nothing is lost or returned twice, and at most one task is in the owner's hand |
| ChaseLev.StealReturnsOldest | include/sk_cl_deque.h:135-156 | a steal whose compare-and-swap succeeds returns the oldest task, the one last stored for the index it read, although it read the slot earlier and slots are reused |
| ChaseLev.TopOnlyGrows | include/sk_cl_deque.h:12-24 | `top_cache <= top`, no step lowers `top`, and `bottom - top` stays between -1 and the capacity |
| ChaseLev.BottomLowered | include/sk_cl_deque.h:92-133 | `bottom` goes down at the first store of a pop and at no other step, by one, and to one less than `top` if and only if the deque is empty by then |
| ChaseLev.BottomBelowTop | include/sk_cl_deque.h:92-156 | from an empty deque of any capacity: a push, a pop and a steal after which `bottom` is one less than `top` |
| ChaseLev.FailedStealLost | include/sk_cl_deque.h:147-155 | a steal comes back empty-handed from its compare-and-swap if and only if another thread moved `top` since it was loaded |
| ChaseLev.FailedPopLost | include/sk_cl_deque.h:118-128 | and so does a pop from its compare-and-swap for the last task |
| ChaseLev.ActsAsSet | include/sk_cl_deque.h:45-156 | seen as a set of distinct tasks, every step puts in what it publishes and takes out what it returns, which was inside |
| ChaseLev.PopNullMeansEmpty | include/sk_cl_deque.h:92-133 | a pop that finds nothing, on any of its three ways out, found the deque empty when it was decided |
| ChaseLev.PushRefusedMeansFull | include/sk_cl_deque.h:53-56 | a push is refused exactly when the deque holds as many tasks as its capacity at the look at `top` |
| ChaseLev.BatchRoom | include/sk_cl_deque.h:72-80 | a batch gets the free room at its look at `top`, or all it asks for, thieves notwithstanding |
| ChaseLevCalls.BatchRefinesPushes | include/sk_cl_deque.h:66-90 | `chase_lev_push_batch` leaves the very buffer, `top` and `bottom` that single pushes of the same tasks leave |
| ChaseLevCalls.BatchAppends | include/sk_cl_deque.h:66-90 | it appends exactly the first min(count, free room) tasks, in order, and advances `bottom` by as many |
| ChaseLevCalls.PopTakesLast | include/sk_cl_deque.h:92-133 | undisturbed, a pop takes the newest task and leaves the buffer alone; it moves `top` instead of `bottom` for the last one |
| ChaseLevCalls.StealTakesFirst | include/sk_cl_deque.h:135-156 | undisturbed, a steal takes the oldest task and changes nothing but `top` |
| ChaseLevCalls.ClDeque.constructor | include/sk_cl_deque.h:27-43 | an empty deque whose capacity is the least power of two that is at least the requested size |
| ChaseLevCalls.ClDeque.Push | include/sk_cl_deque.h:45-64 | the state is that of the owner's steps run alone; the task is appended unless the deque is full |
| ChaseLevCalls.ClDeque.PushBatch | include/sk_cl_deque.h:66-90 | the loop fills the slots so that the state is that of the owner's steps run alone; the answer is the number of tasks appended |
| ChaseLevCalls.ClDeque.Pop | include/sk_cl_deque.h:92-133 | returns and removes the newest task, or nothing from an empty deque |
| ChaseLevCalls.ClDeque.Steal | include/sk_cl_deque.h:135-156 | returns and removes the oldest task, or nothing from an empty deque |
| TaskPool.PackUnpack | src/sk_scheduler.c:47-57 | the packed head word determines index and tag and is determined by them |
| TaskPool.StepInv | src/sk_scheduler.c:59-136 | every step of every acquire and release keeps the invariant; what it hands out was not allocated before, and no other node becomes allocated |
| TaskPool.SwapIsCurrent | src/sk_scheduler.c:77-88 | a successful compare-and-swap finds the head untouched since its load, and the `next_free_idx` read in between still current |
| TaskPool.GivenInTurn | src/sk_scheduler.c:59-136 | over every run, of any number of threads and with any spurious failures, each node is handed out and taken back in turn |
| TaskPool.OnePlace | src/sk_scheduler.c:59-136 | in every reachable state a node is in exactly one place: allocated, in the free list, in one thread's cache, or in the hands of one release |
| TaskPool.ListIsFinite | src/sk_scheduler.c:104-133 | the links from the head lead through every free node once and end at POOL_EMPTY_INDEX, also after 33 nodes were spliced in at once |
| TaskPool.NullMeansEmpty | src/sk_scheduler.c:71-75 | acquire answers NULL only when the thread's cache and the free list are both empty |
| TaskPool.KeptIffCurrent | src/sk_scheduler.c:77-88 | any step of any thread keeps the invariant if and only if it is not an acquire's successful swap with a link that is out of date |
| TaskPool.ExactlyWhileCurrent | src/sk_scheduler.c:59-136 | over every run whatsoever the invariant holds all along if and only if every acquire's swap is made with a current link |
| TaskPool.FailureMeansProgress | src/sk_scheduler.c:80-91 | a compare-and-swap that fails, but spuriously, does so because another one has succeeded since the load; whoever fails goes on with the head word as it is now, or finds the list empty |
| TaskPool.NeverOutOfBounds | src/sk_scheduler.c:59-136 | no step ever indexes outside the node array or a cache, so a thread inside a call can always take its next step |
| TaskPoolWrap.WrapIsReachable | src/sk_scheduler.c:66-88 | from boot, with two threads and 83 nodes or more, a run of timely swaps leads to an acquire whose swap, exactly 2^32 swaps after its load, succeeds with a stale link |
| TaskPoolWrap.WrapListsCachedNode | src/sk_scheduler.c:78-88 | that swap puts a node that is in another thread's cache at the head of the free list |
| TaskPoolWrap.BurstTurns | src/sk_scheduler.c:59-136 | acquiring 33 nodes and releasing them leaves the head node in place and makes the second node of the list and the bottom of the cache change places |
| TaskPoolCalls.NodePool.constructor | src/sk_scheduler.c:179-204 | boot links all nodes in order, the last to POOL_EMPTY_INDEX |
| TaskPoolCalls.NodePool.Acquire | src/sk_scheduler.c:59-95 | gives the node cached last, else the first of the free list, else nothing; it was not allocated, and no other node changes hands |
| TaskPoolCalls.NodePool.Release | src/sk_scheduler.c:97-136 | puts the node in the cache; a full cache first gives its upper half, with the node in front, to the free list |
| TaskPoolCalls.LinkingInv | src/sk_scheduler.c:104-109 | each round of the loop that links the evicted nodes is a step of the protocol and keeps its invariant |
| SpmcRing.StepInv | src/sk_scheduler.c:152-166 | every step of the producer and of any consumer keeps the invariant |
| SpmcRing.PoppedInOrder | src/sk_worker.c:44-63 | for every interleaving the tasks returned are a prefix of the tasks pushed, the rest is in the ring in order, and `rb_head_cache <= rb_head <= rb_tail <= rb_head + capacity` |
| SpmcRing.StepRefines | src/sk_worker.c:44-63 | seen as a sequence, the ring changes only when the producer stores `rb_tail`, which appends its task, and when a consumer's swap succeeds, which takes the oldest task |
| SpmcRing.StaleConsumerLoses | src/sk_worker.c:52-62 | a consumer whose slot was overwritten fails its compare-and-swap; one that succeeds returns and removes the oldest task |
| SpmcRing.RefusedMeansFull | src/sk_scheduler.c:156-161 | a push is refused exactly when the ring is full at the look at `rb_head` |
| SpmcRing.NothingMeansEmpty | src/sk_worker.c:45-50 | a consumer that gives up at once found the ring empty when it looked at `rb_tail` |
| SpmcRing.PushState | src/sk_scheduler.c:152-166 | the producer's steps, run alone, keep the invariant and come to one store to the slot, `rb_tail` and, if it looked stale, `rb_head_cache` |
| SpmcRing.WorkerRing.Push | src/sk_scheduler.c:152-166 | the state is that of the producer's steps run alone; the task is appended unless the ring is full |
| SpmcRing.WorkerRing.Pop | src/sk_worker.c:44-63 | the state is that of a consumer's steps run alone; the oldest task is returned and removed, or nothing from an empty ring |
| JobWait.StepInv | src/sk_scheduler.c:409-436 | the state only moves RUNNING, optionally WAITING, DONE; a call of wait returns only in DONE |
| JobWait.NoLostWakeUp | src/sk_scheduler.c:417-435 | a sleeping waiter implies that the finisher will find WAITING or is about to wake; once it is through nobody sleeps |
| JobWait.SleepsAndOwes | src/sk_scheduler.c:417-435 | a waiter falls asleep exactly when it reaches the futex while the state is WAITING, and the finisher owes a wake exactly when its exchange found WAITING |
| JobWait.WaiterSleeps | src/sk_scheduler.c:409-436 | while the job is not DONE a waiter takes at most 1003 steps before it sleeps, whatever the others do |
| JobWait.ReturnsOnlyAfterDone | src/sk_scheduler.c:409-436 | in every reachable state, if a waiter has returned, the job is DONE |
| JobWait.WaiterReturns | src/sk_scheduler.c:409-436 | once the finisher is through, a waiter returns within two more steps of its own, whatever the others do and however often its waits end for no reason |
| Splitting.SplitTask | src/sk_worker.c:287-333 | the loop disposes of pieces that lie end to end over exactly [lo, hi); a piece is queued if and only if it was cut off, got a node and its push was accepted, and every other one is called in place; the counter grows by the number queued |
| Splitting.TreeTiles | src/sk_worker.c:287-333 | the calls of a splitter task and of all tasks below it lie end to end over the range, whatever acquires and pushes fail in whichever of them |
| Splitting.EachIndexOnce | src/sk_worker.c:287-333 | so every index of the range is in exactly one call, and no other index is in any |
| Splitting.Balanced | src/sk_worker.c:290-299 | from a multiple of the chunk size, a range longer than a chunk is always cut (the early exit is unreachable), strictly inside, at a multiple, and each part gets half of the k chunks rounded down or up |
| Splitting.LogarithmicLoop | src/sk_worker.c:290-327 | a task with k chunks makes at most ceil(log2 k) cuts, whatever fails |
| Splitting.PiecesAligned | src/sk_worker.c:290-327 | whatever fails, every piece starts at a multiple of the chunk size and ends at one or at the end of the job, and none is empty unless the job is |
| Splitting.OneCallPerChunk | src/sk_worker.c:287-333 | when nothing is refused every call is exactly one chunk and there are as many calls as chunks |
| Spawning.SpawnSubtasks | src/sk_scheduler.c:291-366 | unhindered, it queues one child for every chunk of the size asked for (128 for 0), in order; a chunk of the whole range gives one call for it; a chunk of the larger half gives two children that meet at the merge sort's middle; the parent's counter grows by the children queued, whatever fails |
| Spawning.OnePassQueues | src/sk_scheduler.c:303-365 | in each pass of up to 256 chunks those with both a node and room are queued, the others with a node are called in place one by one, and after a shortage all that is left is called at once |
| Spawning.SpawnCoversExactly | src/sk_scheduler.c:303-365 | every index is dealt with exactly once if and only if no pass gets some but not all of its nodes and then has all of these accepted |
| Spawning.SkippedChunk | src/sk_scheduler.c:364 | with one node left and room in the deque the second of two chunks is never run |
| Spawning.AdvancingByNodesCovers | src/sk_scheduler.c:303-365 | with line 364 advancing by the nodes obtained every index is dealt with exactly once whatever fails, and the outcome differs from the code's exactly when the code skips chunks |
| Spawning.OneChunkOneCall | examples/quick_sort_concurrent_ex.c:152-160 | a spawn whose chunk is its whole range always makes exactly one call for exactly that range |
| Spawning.HalvesAreTwoChildren | examples/merge_sort_comparison_ex.c:71-86 | the spawn whose chunk is the larger half makes two children that meet at `Merging.Mid`, where the continuation merges |
| PowerOfTwo.NextPowerOfTwo | include/sk_memory_utils.h:32-51 | the cascade of shifts and ors computes the least power of two that is at least the size, modulo 2^64 |
| PowerOfTwo.LeastPow2IsLeast | include/sk_memory_utils.h:31-36 | that number is a power of two, at least 2 and the size, and no smaller power is |
| PowerOfTwo.FitsExactlyUpTo63Bits | include/sk_memory_utils.h:50 | the 64-bit result is right if and only if the size is at most 2^63; beyond, it is 0 |
| PowerOfTwo.IdempotentUpTo63Bits | src/sk_worker.c:106-111 | rounding the 64-bit result a second time, as the worker set-up and the deque do, changes nothing if and only if the size is at most 2^63; beyond, the first result is 0 and the second 2 |
| PowerOfTwo.MaskIsModulo | include/sk_cl_deque.h:59 | `i & mask` is `i` modulo the capacity |
| Sorting.InsertionSort | examples/quick_sort_concurrent_ex.c:48-58 | sorts [start, end) in place and leaves the rest alone |
| Sorting.Partition | examples/quick_sort_concurrent_ex.c:64-76 | rearranges [start, end) around the former last element and returns its index |
| QuickSort.StepInv | examples/quick_sort_concurrent_ex.c:138-160 | every step of every call keeps: the parts of the calls are disjoint, each is bounded by everything outside it, and the array with half-done moves completed is a rearrangement of the input |
| QuickSort.SortsAnyhow | examples/quick_sort_concurrent_ex.c:138-160 | for every array and every interleaving of all calls, the array is sorted and a rearrangement of its input once all calls are over |
| QuickSortEnds.StepsBounded | examples/quick_sort_concurrent_ex.c:138-160 | every interleaving of all calls on n elements has at most 4 n^2 + 8 n + 8 steps |
| QuickSortEnds.SortsInTheEnd | examples/quick_sort_concurrent_ex.c:138-160 | a run in which no call can take another step has sorted the array |
| QuickSort.ShortCallsInsert | examples/quick_sort_concurrent_ex.c:142-145 | a call sorts by insertion if and only if it has at most 1024 elements |
| QuickSort.OwnPartOnly | examples/quick_sort_concurrent_ex.c:138-160 | no step of a call changes an element outside the call's own part |
| QuickSortJob.SortedWhenDone | examples/quick_sort_concurrent_ex.c:138-160 | for every array, schedule and pattern of pool or deque exhaustion, alongside any other jobs, the array is sorted and a rearrangement of its input when the job is DONE |
| QuickSortJobEnds.StepsBounded | examples/quick_sort_concurrent_ex.c:138-160 | for every schedule and pattern of exhaustion the steps of sort and scheduler are bounded by n^2, the number of workers and what was asked before, and by what other clients ask for meanwhile |
| QuickSortJobEnds.SortedInTheEnd | examples/quick_sort_concurrent_ex.c:138-160 | a run that only new requests of other clients could continue has finished the job and sorted the array |
| Merging.MergeStep | examples/merge_sort_comparison_ex.c:38-52 | merges two sorted halves through the second array: [start, end) is sorted, rearranged, and nothing else changes |
| Merging.MergeSort | examples/merge_sort_comparison_ex.c:54-66 | sorts [start, end) and leaves the rest alone |
| MergeSort.StepInv | examples/merge_sort_comparison_ex.c:69-87 | every step of every call and continuation keeps: the parts are disjoint, each holds the elements it started with, and a continuation finds both halves sorted |
| MergeSort.SameAsSequential | examples/merge_sort_comparison_ex.c:69-87 | every interleaving leaves the array sorted, a rearrangement of its input, and equal to what the sequential merge sort leaves |
| MergeSort.ForkIsSpawn | examples/merge_sort_comparison_ex.c:83-86 | the two calls of a fork are exactly the children that `scheduler_spawn_subtasks` makes for the range and chunk size that the function passes |
| MergeSort.ShortCallsInsert | examples/merge_sort_comparison_ex.c:78-81 | a call sorts by insertion if and only if it has at most 1024 elements, and forks otherwise |
| MergeSortEnds.StepsBounded | examples/merge_sort_comparison_ex.c:69-87 | every interleaving of all calls and continuations on n elements has at most 4 n^2 + 8 n + 8 steps |
| MergeSortEnds.SortsInTheEnd | examples/merge_sort_comparison_ex.c:69-87 | a run in which no step is left ends with the array that the sequential merge sort leaves |
| MergeSortJobEnds.StepsBounded | examples/merge_sort_comparison_ex.c:69-87 | for every schedule the steps of the sort are bounded by n^2 alone, its requests by its steps, and all steps by these, the workers and what others ask for |
| MergeSortJobEnds.SortedInTheEnd | examples/merge_sort_comparison_ex.c:69-87 | a run that only new requests of other clients could continue, with a node left in the pool, has finished the job, and the array is what the sequential merge sort leaves |
| MergeSortJobShape.StepWhole | examples/merge_sort_comparison_ex.c:69-87 | a worker of the job holds one function or one that is making its two children, a forked call waits in its task, and unfinished calls have tasks of their own |
| MergeSort.NeverOutOfBounds | examples/merge_sort_comparison_ex.c:38-87 | no step indexes outside either array, and a call that is not over can go on unless it waits for its children |
| MergeSortJob.SameWhenDone | examples/merge_sort_comparison_ex.c:69-87 | for every array and schedule, alongside any other jobs, and with no acquire or push of this job failing, the array is sorted and equal to what the sequential merge sort, or any sorted rearrangement of the input, is when the job is DONE |
| MergeSortJob.MergesInTime | src/sk_worker.c:209-253 | whenever the scheduler starts the continuation of a call, both children of the call are over |
| Sorting.SortedIsUnique | examples/merge_sort_comparison_ex.c:54-66 | two sorted rearrangements of the same elements are equal |

## Left out

- Weak memory: every atomic access is one sequentially consistent step; the memory orders and fences are not modelled.
- Counter widths: deque and ring positions, ranges and dependency counts are unbounded integers; wrap-around of `int64_t` and `size_t` there is not modelled (the pool's 32-bit tag and the 64-bit `next_power_of_two` are).
- TaskPool.GivenInTurn: assumes fewer than 2^32 swaps of the head between an acquire's load and its own successful swap; TaskPoolWrap.WrapListsCachedNode shows what happens otherwise. Likewise OnePlace and ListIsFinite.
- DagOutcome.JobDone: speaks of the size on record, and admits calls on empty ranges; DagSubmitted.SubmittedIsDone speaks of the size submitted and rules them out.
- DagOutcome.StageMovesOn: in a function run in place, `scheduler_set_continuation` replaces the continuation of the task whose function called it, as in the code; no more than that is claimed for continuations set there.
- DagProgress.BoundedWork: counts the events of `TaskDag`; retries inside a queue or the pool and the polling of idle workers are not among them, and a client function returns whenever the schedule lets it. Likewise EveryScheduleEnds and CanFinish.
- MergeSort.SameAsSequential: that a continuation starts only once both children are over is part of its steps; MergeSortJob.MergesInTime proves that the scheduler keeps to it. Acquires and pushes of the job succeed, as the example needs; MergeSortJobEnds.SortedInTheEnd says what happens up to the point where the pool is exhausted.
- TaskDag: the part of a batch that a deque accepts is an arbitrary subset, and which queue a task is in is not recorded; ChaseLev and SpmcRing have the order.
- TaskDag: payload pointers and the start and end indices of spawned children are not recorded; Spawning has the ranges.
- ChaseLevCalls.ClDeque: the methods run one call at a time; the branch of a pop that only a thief can cause is dead there and is covered by ChaseLev.
- Several submitting threads, submission from inside a task, shutdown and re-boot: one submitter and one boot epoch are modelled.
- The choice of the victim (`xorshift32`), thread creation and pinning, the CPU count, `cpu_relax`, allocation of the arrays and error printing.
- The futex system calls: a wait checks and sleeps in one step, a wake wakes all sleepers; the polling fallback for other systems is not modelled.
- The raw-thread quicksort, the Mandelbrot and array examples, timing and benchmarks, and the amalgamated header under `release/`.
