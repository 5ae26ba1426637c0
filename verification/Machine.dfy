/** The executor, its pools, the leaf futures and the reactor of one thread as one machine.

    `fault` is raised by every step that breaks an assumption the code leaves unwritten or asserts:
    enqueueing a task that is already queued, writing over a live future, polling or completing
    into a slot that holds none, waking without a waker, freeing a free slot, a counter going below
    zero.  The steps are otherwise total, so that they say what happens without assuming it. */
module Machine {
  import opened Types

  datatype State = State(
    pools: seq<Pool>,
    held: map<Id, Script>,      // prepared, not yet spawned
    live: map<Id, Task>,        // spawned, not yet finished
    queue: seq<Id>,             // the run queue, head first
    segment: seq<Id>,           // detached by drain, still to be visited
    polling: Option<Id>,        // the task inside poll
    spawned: nat,               // Executor::spawned
    ring: Ring,
    reqQueued: nat,             // Reactor::req_queued
    unsettled: nat,             // completions consumed in this pass, not yet subtracted
    failed: nat,                // history: pushes that failed
    nextTicket: nat,            // history: pushes that succeeded
    delivered: map<nat, int>,   // history: result written for each ticket
    nextSerial: nat,            // history: tasks spawned
    finished: seq<nat>,         // history: serials of the tasks driven to Ready, in order
    fault: bool)

  datatype Event =
    | EvPrepare(pool: nat, script: Script)
    | EvSpawn(id: Id)
    | EvBeginDrain
    | EvVisit
    | EvResume
    | EvSubmit
    | EvBranch
    | EvComplete
    | EvKernel(move: Move)
    | EvPushTimeout
    | EvDeliver
    | EvSettle

  /** Between drains: where the post-drain function runs and where a drain may start. */
  predicate Between(s: State) {
    s.polling.None? && s.segment == []
  }

  /** The polled task has `script` of the wanted shape next. */
  predicate Polls(s: State) {
    s.polling.Some? && s.polling.value in s.live
  }

  function Polled(s: State): Task
    requires Polls(s)
  {
    s.live[s.polling.value]
  }

  /** The leaf has its result: its poll returns Ready. */
  predicate Answered(t: Task) {
    t.leaf.Some? && t.leaf.value.returnVal.Some?
  }

  /** The leaf was pushed and has no result yet. */
  predicate Waiting(t: Task) {
    t.leaf.Some? && t.leaf.value.ticket.Some? && t.leaf.value.returnVal.None?
  }

  // ---- enqueue, wake ----

  function DoEnqueue(s: State, id: Id): State
  {
    s.(queue := [id] + s.queue,
       fault := s.fault || id in s.queue || id in s.segment || id !in s.live)
  }

  // ---- pool and spawn ----

  function Candidate(s: State, pool: nat): Option<Id>
  {
    if pool >= |s.pools| then None else
    match PoolTake(s.pools[pool]).1
    case None => None
    case Some(i) => Some(Id(pool, i))
  }

  function DoPrepare(s: State, pool: nat, script: Script): State
  {
    match Candidate(s, pool)
    case None => s
    case Some(id) =>
      s.(pools := s.pools[pool := PoolTake(s.pools[pool]).0],
         held := s.held[id := script],
         fault := s.fault || id in s.held || id in s.live)
  }

  function DoSpawn(s: State, id: Id): State
    requires id in s.held
  {
    DoEnqueue(
      s.(held := s.held - {id},
         live := s.live[id := Task(s.nextSerial, s.held[id], None)],
         nextSerial := s.nextSerial + 1,
         spawned := s.spawned + 1,
         fault := s.fault || id in s.live),
      id)
  }

  // ---- drain ----

  function DoBeginDrain(s: State): State
  {
    s.(queue := [], segment := s.queue)
  }

  function DoVisit(s: State): State
    requires s.segment != []
  {
    s.(polling := Some(s.segment[0]), segment := s.segment[1..],
       fault := s.fault || s.segment[0] !in s.live)
  }

  // ---- poll ----

  function SetPolled(s: State, t: Task): State
    requires Polls(s)
  {
    s.(live := s.live[s.polling.value := t])
  }

  predicate CanResume(s: State) {
    Polls(s) && Polled(s).script.Await? && Answered(Polled(s))
  }

  /** The leaf's poll returns Ready: the task goes on with the branch of the result. */
  function DoResume(s: State): State
    requires CanResume(s)
  {
    var t := Polled(s);
    SetPolled(s, t.(script := if t.leaf.value.returnVal.value < 0 then t.script.onErr else t.script.onOk,
                    leaf := None))
  }

  predicate CanSubmit(s: State) {
    Polls(s) && Polled(s).script.Await? && !Answered(Polled(s))
  }

  /** The leaf's poll stores the waker, submits and returns Pending; a failed push wakes the task. */
  function DoSubmit(s: State): State
    requires CanSubmit(s)
  {
    var id := s.polling.value;
    var t := Polled(s);
    if CanPush(s.ring) then
      SetPolled(s, t.(leaf := Some(Request(Some(s.nextTicket), None, Some(id)))))
        .(ring := Push(s.ring, Req(id, s.nextTicket, t.script.op)),
          nextTicket := s.nextTicket + 1,
          reqQueued := s.reqQueued + 1,
          polling := None)
    else
      DoEnqueue(
        SetPolled(s, t.(leaf := Some(Request(None, None, Some(id)))))
          .(reqQueued := s.reqQueued + 1,
            failed := s.failed + 1,
            polling := None),
        id)
  }

  predicate CanBranch(s: State) {
    Polls(s) && Polled(s).script.Spawn?
  }

  /** The task prepares a child; if a slot was free it spawns the child at once. */
  function DoBranch(s: State): State
    requires CanBranch(s)
  {
    var t := Polled(s);
    var p := DoPrepare(s, t.script.pool, t.script.child);
    match Candidate(s, t.script.pool)
    case None => SetPolled(p, t.(script := t.script.onFull))
    case Some(c) =>
      SetPolled(DoSpawn(p, c), t.(script := t.script.onSpawned))
  }

  predicate CanComplete(s: State) {
    Polls(s) && Polled(s).script.Finish?
  }

  /** The future is dropped, the slot is freed and `spawned` goes down. */
  function DoComplete(s: State): State
    requires CanComplete(s)
  {
    var id := s.polling.value;
    s.(live := s.live - {id},
       finished := s.finished + [Polled(s).serial],
       pools := if id.pool < |s.pools| then s.pools[id.pool := PoolGive(s.pools[id.pool], id.index)] else s.pools,
       spawned := if s.spawned == 0 then 0 else s.spawned - 1,
       polling := None,
       fault := s.fault || s.spawned == 0 || id.pool >= |s.pools| || id.index in s.pools[id.pool].free)
  }

  // ---- reactor ----

  function DoKernel(s: State, m: Move): State
  {
    s.(ring := KernelMove(s.ring, m))
  }

  function DoPushTimeout(s: State): State
  {
    if CanPush(s.ring) then s.(ring := Push(s.ring, Timeout)) else s
  }

  /** The reactor consumes the next completion: it writes the result at the request's address and
      wakes the waker found there. */
  function DoDeliver(s: State): State
    requires s.ring.cq != []
  {
    var c := s.ring.cq[0];
    var s1 := s.(ring := s.ring.(cq := s.ring.cq[1..]));
    match c.entry
    case Timeout => s1
    case Req(o, k, _) =>
      if o in s.live && s.live[o].leaf.Some? then
        var leaf := s.live[o].leaf.value;
        var s2 := s1.(live := s.live[o := s.live[o].(leaf := Some(leaf.(returnVal := Some(c.res))))],
                      delivered := s.delivered[k := c.res],
                      unsettled := s.unsettled + 1,
                      fault := s.fault || k in s.delivered);
        match leaf.waker
        case Some(w) => DoEnqueue(s2, w)
        case None => s2.(fault := true)
      else s1.(fault := true)
  }

  /** The pass ends: what it consumed is subtracted from `req_queued`. */
  function DoSettle(s: State): State
  {
    s.(reqQueued := if s.reqQueued < s.unsettled then 0 else s.reqQueued - s.unsettled,
       unsettled := 0,
       fault := s.fault || s.reqQueued < s.unsettled)
  }

  // ---- runs ----

  /** Where control can be for `e` to be the next step.  Nothing here speaks of queues, requests
      in flight or counters, except that a `TaskRef` is spawned once per `prepare_task`. */
  predicate Enabled(s: State, e: Event) {
    match e
    case EvPrepare(_, _) => true
    case EvSpawn(id) => id in s.held
    case EvBeginDrain => Between(s)
    case EvVisit => s.polling.None? && s.segment != []
    case EvResume => CanResume(s)
    case EvSubmit => CanSubmit(s)
    case EvBranch => CanBranch(s)
    case EvComplete => CanComplete(s)
    case EvKernel(_) => true
    case EvPushTimeout => Between(s)
    case EvDeliver => Between(s) && s.ring.cq != []
    case EvSettle => Between(s)
  }

  function Apply(s: State, e: Event): State
    requires Enabled(s, e)
  {
    match e
    case EvPrepare(pool, script) => DoPrepare(s, pool, script)
    case EvSpawn(id) => DoSpawn(s, id)
    case EvBeginDrain => DoBeginDrain(s)
    case EvVisit => DoVisit(s)
    case EvResume => DoResume(s)
    case EvSubmit => DoSubmit(s)
    case EvBranch => DoBranch(s)
    case EvComplete => DoComplete(s)
    case EvKernel(m) => DoKernel(s, m)
    case EvPushTimeout => DoPushTimeout(s)
    case EvDeliver => DoDeliver(s)
    case EvSettle => DoSettle(s)
  }

  /** A fresh thread: pools of the given sizes, an empty ring of capacity `cap`. */
  function Start(sizes: seq<nat>, cap: nat): State
  {
    State(seq(|sizes|, i requires 0 <= i < |sizes| => Pool(sizes[i], 0, [])), map[], map[], [], [], None, 0,
          Ring(cap, [], [], []), 0, 0, 0, 0, map[], 0, [], false)
  }

  ghost predicate Legal(s: State, run: seq<Event>)
    decreases |run|
  {
    run == [] || (Enabled(s, run[0]) && Legal(Apply(s, run[0]), run[1..]))
  }

  ghost function Exec(s: State, run: seq<Event>): State
    requires Legal(s, run)
    decreases |run|
  {
    if run == [] then s else Exec(Apply(s, run[0]), run[1..])
  }

  ghost predicate Reachable(s: State) {
    exists sizes: seq<nat>, cap: nat, run: seq<Event> ::
      Legal(Start(sizes, cap), run) && Exec(Start(sizes, cap), run) == s
  }
}
