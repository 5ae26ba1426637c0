/** The values shared by the executor, the task pools and the reactor of one thread. */
module Types {

  datatype Option<+T> = None | Some(value: T)

  /** A task slot: element `index` of task pool `pool`.  It plays the part of a `TaskRef`, and of
      the address of the one request embedded in that slot's future (`user_data` of an entry). */
  datatype Id = Id(pool: nat, index: nat)

  /** What a task's future does between suspension points.  Every finite behaviour of an `async`
      block that awaits one leaf at a time is a path through such a tree. */
  datatype Script =
    | Finish
    | Await(op: int, onOk: Script, onErr: Script)
    | Spawn(pool: nat, child: Script, onSpawned: Script, onFull: Script)

  /** `ReactorRequest` inside a leaf future.  `ticket` numbers the last push that succeeded; it is
      history that no operation reads. */
  datatype Request = Request(ticket: Option<nat>, returnVal: Option<int>, waker: Option<Id>)

  /** A spawned, unfinished task: its rest of script and, once polled, its current leaf. */
  datatype Task = Task(serial: nat, script: Script, leaf: Option<Request>)

  /** A submission queue entry.  `Timeout` is the entry with `user_data == 0`. */
  datatype Entry = Timeout | Req(owner: Id, ticket: nat, op: int)

  /** A completion queue entry: the entry it answers and the result. */
  datatype Cqe = Cqe(entry: Entry, res: int)

  /** The three stages of an io_uring: submission queue, kernel, completion queue. */
  datatype Ring = Ring(cap: nat, sq: seq<Entry>, inflight: seq<Entry>, cq: seq<Cqe>)

  /** One step of the kernel. */
  datatype Move = Take | Answer(at: nat, res: int)

  /** `TaskPool` as numbers: `used` is `exhaust_list_cnt`, `free` the free list, head first. */
  datatype Pool = Pool(size: nat, used: nat, free: seq<nat>)

  /** The error number a timeout entry completes with when it expires. */
  const ETIME := 62

  // ---- task pool ----

  /** The slot `prepare_task` picks: a never-used one first, then the head of the free list. */
  function PoolTake(p: Pool): (r: (Pool, Option<nat>))
  {
    if p.used < p.size then (p.(used := p.used + 1), Some(p.used))
    else if p.free != [] then (p.(free := p.free[1..]), Some(p.free[0]))
    else (p, None)
  }

  function PoolGive(p: Pool, i: nat): Pool
  {
    p.(free := [i] + p.free)
  }

  // ---- ring ----

  function EntriesOf(cq: seq<Cqe>): (es: seq<Entry>)
    ensures |es| == |cq|
  {
    seq(|cq|, i requires 0 <= i < |cq| => cq[i].entry)
  }

  /** Every entry that was pushed and whose completion has not been consumed. */
  ghost function Outstanding(r: Ring): multiset<Entry>
  {
    multiset(r.sq) + multiset(r.inflight) + multiset(EntriesOf(r.cq))
  }

  ghost function NumTimeouts(r: Ring): nat
  {
    Outstanding(r)[Timeout]
  }

  ghost function NumRequests(r: Ring): nat
  {
    |Outstanding(r)| - Outstanding(r)[Timeout]
  }

  predicate CanPush(r: Ring) {
    |r.sq| < r.cap
  }

  function Push(r: Ring, e: Entry): Ring
  {
    r.(sq := r.sq + [e])
  }

  function KernelMove(r: Ring, m: Move): Ring
  {
    match m
    case Take =>
      if r.sq == [] then r else r.(sq := r.sq[1..], inflight := r.inflight + [r.sq[0]])
    case Answer(at, res) =>
      if at >= |r.inflight| then r
      else r.(inflight := r.inflight[..at] + r.inflight[at + 1..],
              cq := r.cq + [Cqe(r.inflight[at], res)])
  }

  function KernelMoves(r: Ring, ms: seq<Move>): Ring
    decreases |ms|
  {
    if ms == [] then r else KernelMoves(KernelMove(r, ms[0]), ms[1..])
  }
}
