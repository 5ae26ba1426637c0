# A verified model of the reika executor, task pools and reactor

Reika runs asynchronous tasks on one thread without allocating: an executor with an intrusive run
queue, pools of task slots with an intrusive free list, leaf futures that submit one io_uring request
each, and a reactor that reaps completions and wakes tasks. The four parts rest on a protocol that the
code nowhere writes down. `enqueue`, for one, asks that "the task is not already in the queue" and
checks nothing; that it never is follows only from an argument about all four parts together.

The project states that protocol twice and proves that the two agree.

* **A machine on values** (`Types`, `Machine`). The state holds pools, live tasks, run queue, detached
  segment, ring and counters; the twelve steps are total, and each one raises `fault` if it breaks an
  unwritten assumption of the code: a double enqueue, a write over a live future, a wake without a
  waker, a completion for a request nobody waits for, a double free, a counter below zero.
  `Invariant` and `Preservation` give the inductive invariant; `Runs`, `Rounds`, `Matching`,
  `Paths`, `Typestate`, `Progress`, `Termination` and `Dropping` derive what holds of every run.
* **The objects of a thread** (`Queues`, `Pools`, `Rings`, `Runtime`, `Reactors`, `RunLoop`). The
  classes have the fields of the source's structs, the methods its loops and assignments. `Executor.st`
  is the machine's state; `Valid()` says that every header, list and counter agrees with it and that it
  is reachable. Every method moves `st` by the machine's own steps, so the objects refine the machine,
  and the contracts of the unchecked list operations are met at each call because the invariant holds.
  The contracts say so: a drain ends a run of the machine (`Drained`), a call of the reactor leads to
  its last state by the machine's steps (`Leads`, in `Spent`), and `RunLoop.Run` and `RunLoop.Entry`
  give a run from the first state to the last (`LeadsTo`), to which every theorem about runs applies.
  `RunLoop.Run` is the whole program; Dafny proves that it ends, and its contract (`Ran`) that it is a
  drain and a call of the post-drain function, over and over until no task is left.

A future is a finite `Script`: await a leaf and branch on `Ok` or `Err`, prepare and spawn a child and
branch on whether a slot was free, finish. Every finite behaviour of an `async` block that awaits one
leaf at a time is a path through such a tree, and so is every finite part of an endless one. All
requests of a slot use one address, which is the harshest case of address reuse.

The kernel takes submissions and answers entries in any order, with any result, and `submit_and_wait`
returns any error number. That `run` ends is proved twice. `Termination` needs no bound on the kernel:
if each round starts with nothing left to submit, and delivers a result when nothing is queued, then at
most as many rounds follow each other as there is work in the scripts (`Termination.RunTerminates`).
`RunLoop.Run` derives its own end from the same lemma (`Termination.RoundSpends`). There a helpful
answer takes all submissions and returns 0, or completes some request if one is in flight, lets
timeouts expire, and completes any number of further entries or none; `IoUring.patience`, an arbitrary number, bounds the unhelpful answers
only. A call that never returns is not cut short by that bound: it is the outcome `Spins`.

What passes between user space and the kernel - each `submit_and_wait` with its argument and value, each
completion consumed, each timeout entry pushed - is `IoUring.log`. Every method of the reactor reports its
own part of it as `seen`, and its contract says by `seen` what the call did, how it ends and what its
counters are. For `run_for_ns` that is an automaton over the log (`TimeoutLoop`).

## What the proofs found

* `flush_completions(1, ..)` counts requests only. It returns if and only if some request has reached
  the kernel (`Reactors.FlushCompletions`). Without an outstanding request one EBUSY or EAGAIN makes
  `flush_submissions`, `flush` and `run_for_ns` spin for ever. `run` calls `run_for_ns` only in that
  state: the wait then spins if and only if the kernel answered EBUSY or EAGAIN or left a timeout entry
  in the submission queue, errors and the panic aside (`Reactors.Wait`).
* `flush` drops the counters that `flush_submissions` returns (reika-reactor/src/lib.rs:116). Its
  result is lower by the timeouts it consumed after the kernel's last answer only; those consumed
  before are dropped from the account (`Reactors.Flush`). The pass made on EBUSY or EAGAIN may drop a
  timeout if and only if a request and a timeout have reached the kernel (`Dropping.PassDropsExactly`).
  For a whole `flush` outstanding entries are enough, if the kernel takes them and answers EBUSY all the
  same (`Dropping.FlushDropsExactly`). What is dropped stays in the count of `run_for_ns` through all
  its turns (`Reactors.Turns`): errors and the panic aside, the call spins if and only if EBUSY or
  EAGAIN was the last answer, or a timeout was dropped, or one was left in the submission queue,
  whatever is outstanding (`Reactors.RunForNs`). `Dropping.TimeoutCanBeDropped` is an input that fails.
* `submit` counts a request before a push that may fail. `req_queued` is therefore the outstanding
  requests plus all pushes that ever failed (`Runs.Counters`); after one failure `requires_reaping`
  stays true and `Reactor::run` never waits again.
* Subtracting a running total on each pass is right exactly for `want` 0 and 1
  (`Accounting.RightExactlyForSmallWant`); no caller passes more.
* The comment on `Executor::run` says that it polls for ever; the code stops when `spawned` is 0, and
  the model follows the code.

## Assumptions

* A task awaits one leaf at a time, and nothing but the leaf keeps its waker.
* A `TaskRef` is spawned once per `prepare_task` (`EvSpawn` is enabled for held tasks only).
* Futures are not dropped while a request of theirs is outstanding.
* `flush`, `run` and `run_for_ns` are called between drains, as post-drain functions. The functions are public
  and a task could call them while it is polled; that is excluded.
* `flush`, `run` and `run_for_ns` are not entered while a timeout entry of an earlier, failed call is in
  the ring.

## Model

| member | source | states |
|---|---|---|
| Queues.TaskQueue.Enqueue | async-executor/src/queue.rs:48-57 | pushes at the head, whatever the list; the list stays well-formed if the task was not in it |
| Queues.TaskQueue.Drain | async-executor/src/queue.rs:59-80 | with a callback that enqueues nothing: ends on every link structure, cyclic ones included, and visits exactly the walk along the links |
| Queues.TaskQueue.DrainReentrant | async-executor/src/queue.rs:59-80 | with a callback that enqueues: visits the detached list exactly, the new queue is what the callbacks pushed, last first, and no link is left in the others |
| Queues.WalkChain | async-executor/src/queue.rs:65-80 | the walk over a well-formed list is the list |
| Queues.EnqueueExact | async-executor/src/queue.rs:50-57 | after a push the drain visits no task twice if and only if the pushed task was not queued |
| Queues.ReenqueueCutsOff | async-executor/src/queue.rs:50-80 | re-enqueueing t in P, t, S makes the drain visit t, P, t and never reach S |
| Queues.TaskFreeList.Enqueue | async-executor/src/queue.rs:108-115 | push of a stack; touches no run-queue link |
| Queues.TaskFreeList.Dequeue | async-executor/src/queue.rs:117-140 | pop of a stack, although the removed header keeps its stale link |
| Pools.TaskPool.constructor | async-executor/src/lib.rs:190-197 | all slots never used, free list empty, no future anywhere |
| Pools.TaskPool.PrepareTask | async-executor/src/lib.rs:199-233 | takes the next never-used slot while there is one, then the top of the free list, else null; fills that slot and no other; the non-null assertion holds |
| Pools.TaskPool.Finalize | async-executor/src/lib.rs:235-248 | pushes a used slot that is not free on the free list |
| Preservation.StepKeeps | async-executor/src/lib.rs:201-328 | the protocol of queue, ring, leaves, pools and counters is inductive |
| Runs.NoFault | async-executor/src/lib.rs:201-328 | in no run is an unwritten assumption broken or a counter taken below zero |
| Runs.OnePlace | async-executor/src/lib.rs:284-328 | an unfinished task that is not being polled is once in the queue, or once in the segment, or waits for exactly one outstanding request; a slot without a task is nowhere |
| Runs.EnqueuedOnce | async-executor/src/queue.rs:50-52 | whatever a step of a run enqueues is in neither list |
| Runs.NoDuplicateSubmission | reika-macros/src/lib.rs:457-474 | a leaf submits only when its address has nothing outstanding |
| Runs.PrepareExact | async-executor/src/lib.rs:201-232 | `prepare_task` returns None exactly when every slot is handed out, and otherwise a slot that is not |
| Runs.RecycledLast | async-executor/src/lib.rs:204-217 | a slot is recycled exactly when every slot of its pool has been used, and then it is the top of the free list |
| Runs.PoolPartition | async-executor/src/lib.rs:183-248 | each slot is never used, free or handed out, and only one of these |
| Runs.FreeIsNotQueued | async-executor/src/lib.rs:293-299 | a free slot is not queued, not to be drained, not polled and owns no outstanding request |
| Runs.FailsExactlyWhenFull | reika-reactor/src/lib.rs:107-110 | the submission queue never holds more than its capacity; a push fails, and the task wakes itself, exactly if it is full |
| Runs.Counters | reika-reactor/src/lib.rs:99-113 | `spawned` counts the unfinished tasks, `req_queued` the outstanding requests plus every failed push |
| Runs.Exit | async-executor/src/lib.rs:314-319 | at the break no task is left, nothing is queued or outstanding, and every spawned task was driven to Ready exactly once |
| Runs.NoLostWakeup | async-executor/src/lib.rs:284-321 | an empty queue and no outstanding request mean that no task is left |
| Runs.NeverPolledAgain | async-executor/src/lib.rs:287-307 | a finished task is never polled again, whatever happens to its slot |
| Rounds.RoundPollsQueue | async-executor/src/lib.rs:285-307 | a drain polls the tasks queued when it starts, newest first, each exactly once, and no other |
| Rounds.NextRoundPolls | async-executor/src/queue.rs:65-80 | a task queued during a round - in a recycled slot too - is not polled in the rest of it and exactly once in the next |
| Paths.ScriptsFollowed | async-executor/src/lib.rs:157-170 | in every run what each task did, by results and spawns, is a path through the script it was spawned with: so far if it lives, to the end if it is finished |
| Paths.AwaitedIsObserved | reika-macros/src/lib.rs:457-463 | the results on that path are the observed ones, of requests with the awaited operation from the task's own slot |
| Paths.SpawnedExactly | async-executor/src/lib.rs:201-232 | a task that tries to spawn a child does so exactly if the pool has a slot that is not handed out |
| Matching.RequestsMatchResults | reika-reactor/src/lib.rs:224-239 | an observed result was delivered before, is the kernel's reply to the request the observer pushed, and no request is pushed, delivered or observed twice |
| Matching.ResumesObserved | reika-macros/src/lib.rs:453-462 | whenever a leaf returns Ready, it is by a result of its own ticket, and that is in the log |
| Typestate.FutureTypestate | async-executor/src/util.rs:18-24 | per slot: no write on a live future, no poll of an uninitialised one, writes and drops alternate |
| Progress.StepSpends | reika-macros/src/lib.rs:457-474 | no step adds work but a spawn from outside; pushes, deliveries, resumptions, spawns and completions use some up |
| Progress.RunSpends | async-executor/src/lib.rs:284-321 | the steps of a run that get a task on are bounded by the work in the scripts, however tasks interleave |
| Termination.RoundFalls | async-executor/src/lib.rs:284-312 | a round that starts with nothing left to submit, and delivers a result if nothing is queued, uses up work, even if nearly every submission in it fails |
| Termination.RunTerminates | async-executor/src/lib.rs:283-321 | at most as many such rounds follow each other as there is work in the scripts: `run` ends |
| Runtime.Executor.Enqueue | async-executor/src/lib.rs:323-328 | pushes on the run queue and sets the executor; segment, free lists and other headers are framed |
| Runtime.Executor.SpawnTask | async-executor/src/lib.rs:271-281 | is the machine's spawn, and its enqueue is sound |
| Runtime.Executor.PrepareTask | async-executor/src/lib.rs:201-233 | is the machine's preparation, and writes to no live future |
| Runtime.Executor.Wake | async-executor/src/waker.rs:11-13 | puts the task on the run queue and changes nothing else; does nothing for a task without an executor |
| Runtime.Reactor.Submit | reika-reactor/src/lib.rs:99-113 | counts first, then pushes at the end of the submission queue, fails exactly if that is full, and does not undo the count |
| Runtime.Executor.PollLeaf | reika-macros/src/lib.rs:453-475 | returns the result if it is there; otherwise is the machine's submission, with a sound self-wake after a failed push |
| Runtime.Executor.PollSpawn | examples/tcpecho/src/main.rs:40-48 | is the machine's spawn of a child, or the branch for a full pool |
| Runtime.Executor.PollFuture | async-executor/src/lib.rs:157-170 | runs the future to Pending or to its end by steps of the machine; without progress only if the submission queue is full |
| Runtime.Executor.Complete | async-executor/src/lib.rs:290-305 | drops the live future, frees the slot, lowers a positive `spawned` |
| Runtime.Executor.RunTask | async-executor/src/lib.rs:287-307 | the drain callback, by steps of the machine; the undrained segment is left alone |
| Runtime.Executor.DrainRound | async-executor/src/queue.rs:65-80 | the whole drain with that callback: polls exactly the queued tasks, in order, and leaves no link in a task that is not queued; uses up work unless the submission queue is full or nothing was queued |
| Runtime.Executor.Deliver | reika-reactor/src/lib.rs:224-239 | writes the result to the leaf that waits for it and wakes its task once |
| Runtime.Executor.Settle | reika-reactor/src/lib.rs:241-241 | the subtraction of what the pass consumed is exact and does not underflow |
| Reactors.Pass | reika-reactor/src/lib.rs:224-239 | consumes the completion queue: timeouts leave the local count, requests are delivered and counted; the decrement does not underflow |
| Reactors.FlushCompletions | reika-reactor/src/lib.rs:210-248 | lowers `req_queued` by exactly the requests consumed; with `want` 0 always returns, with `want` 1 if and only if a request has reached the kernel, with more only after that many, or it comes to a pass that subtracts too much |
| Reactors.FlushSubmissions | reika-reactor/src/lib.rs:179-208 | the kernel decides: EINTR and, once some request was consumed, EBUSY and EAGAIN make for another turn; 0 returns, another error is passed on; it spins exactly if EBUSY or EAGAIN came last and no request is where it could come from; the counters it returns are exact over all turns |
| Reactors.Flush | reika-reactor/src/lib.rs:115-118 | ends as its `flush_submissions`, with the same `want`, does; of the timeouts consumed, exactly those before the last answer stay in the caller's count, and there are such only after EBUSY or EAGAIN with a request and a timeout outstanding |
| Reactors.SubmitTimeout | reika-reactor/src/lib.rs:148-161 | one more timeout in the ring, after a `flush_submissions` exactly if there was no room; panics only if the kernel accepted and there still is none |
| Reactors.TimeoutRound | reika-reactor/src/lib.rs:138-164 | a turn of the first loop pushes one timeout, and raises what the count is too high by, by exactly the timeouts dropped in it |
| Reactors.Turns | reika-reactor/src/lib.rs:138-170 | from the head of the first loop, whatever its locals: each turn pushes one timeout and submits it, `want` 1, and none starts after an expiry that counts; what the count is too high by stays and all that is dropped adds to it, and from a count too high the call never returns Ok |
| Reactors.RunForNs | reika-reactor/src/lib.rs:129-171 | `timeouts` is the timeouts in the ring and those dropped; an Ok return leaves none and comes after an expiry; errors and the panic aside it spins if and only if EBUSY or EAGAIN came last, or a timeout was dropped, or one is unsubmitted, and then what it waits for can not come |
| Reactors.Reap | reika-reactor/src/lib.rs:166-168 | the last loop ends if and only if no timeout was dropped and none is unsubmitted |
| Dropping.PassDropsExactly | reika-reactor/src/lib.rs:194-197 | in every reachable state between drains: the pass of `flush_submissions` on EBUSY or EAGAIN may consume a timeout whose count is dropped if and only if a request and a timeout have reached the kernel |
| Dropping.FlushDropsExactly | reika-reactor/src/lib.rs:115-118 | a whole `flush`, the kernel moving before it answers EBUSY, may drop a timeout if and only if a request and a timeout are outstanding |
| Dropping.TimeoutCanBeDropped | reika-reactor/src/lib.rs:115-118 | a reachable state and the three steps in which an EBUSY makes `flush` drop the only timeout |
| Reactors.StuckStays | reika-reactor/src/lib.rs:223-247 | however often the kernel answers and completions are consumed, in any order: as long as nothing is submitted, no request (no timeout) is ever consumed if none has reached the kernel, so that a loop waiting for one waits for ever |
| Reactors.RequiresReaping | reika-reactor/src/lib.rs:173-177 | true exactly if a request is outstanding or a push has ever failed |
| Reactors.Wait | reika-reactor/src/lib.rs:122-123 | `run_for_ns` as `run` calls it, which requires that no request is outstanding and no push ever failed: returns after an expiry, or spins exactly after EBUSY, EAGAIN or with a timeout unsubmitted, or ends by an error or the panic |
| Reactors.Run | reika-reactor/src/lib.rs:119-127 | flushes with `want` 0 first; an Ok return has then waited for an expiry if and only if no request is outstanding and no push ever failed; it hangs only if EBUSY or EAGAIN came last and no request can come, or on a timeout that is unsubmitted |
| Accounting.ExactIff | reika-reactor/src/lib.rs:216-247 | the cumulative subtraction is right if and only if every pass but the last found nothing, and otherwise takes off too much |
| Accounting.RightExactlyForSmallWant | reika-reactor/src/lib.rs:210-247 | every call with `want` is right if and only if `want` is at most 1 |
| RunLoop.CallPostDrain | reika-macros/src/lib.rs:412-416 | calls the function it is given: `run_for_ns` returns without error only after an expiry, `run` after one if and only if no request is outstanding and no push ever failed |
| RunLoop.Run | async-executor/src/lib.rs:283-321 | by a run of the machine: a drain, then the post-drain function, until `spawned` is 0; ends for finite scripts unless the reactor hangs, and then all spawned tasks were driven to Ready exactly once, nothing is queued or outstanding; always ends so while the kernel helps; hangs only in a post-drain function that waits for what can not come: a request after EBUSY or EAGAIN, or a timeout unsubmitted or dropped |
| RunLoop.Entry | reika-macros/src/lib.rs:404-418 | the generated entry function, by a run of the machine from the start: the main task, alone in its pool, is spawned first and then `run` does its turns; when it ends the main task has run its script to the end and everything spawned has finished; it hangs only where `Reactor::run` does |

## Left out

- Concurrent leaves in one task (join, select) and futures dropped mid-flight: the code gives no protection there; excluded by the assumptions above.
- Timeout entries that a failed `run_for_ns` leaves in the ring: the next flush would underflow; `RunLoop.Run` stops with `Leftover` there.
- `run` without a post-drain function: nothing would then submit or reap; every use in the repository passes one, and the three that are used are modelled.
- Runtime.Executor.Settle: takes the completions of one pass only; `Reactors.FlushCompletions` stops with `Miscounts` where the source would subtract those of an earlier pass again, and `Accounting` says what that does.
- `submit_and_wait` waiting for `want` completions: which `want` is asked for is in the contracts, but the kernel of the model may return early, which only adds behaviours.
- Integer widths: `spawned`, `req_queued` and `timeouts` are unbounded; only going below zero is ruled out.
- Time: `clock_gettime`, timespec contents and how long a wait takes.
- Slots outside pools (`TaskStorage::prepare_task`, boxed `spawn`): a pooled slot that is never freed.
- Memory layout, `Pin`, `MaybeUninit` and waker vtables: object references and the future's typestate stand for them.
- Thread-locals, CPU affinity, replication over threads: each thread has its own instance of what is modelled.
- The operations in `ops/` and the argument parsing of the macros: each builds one request or plain syntax.
