/** One thread: its executor, task pools and reactor as objects.  `st` is the machine's state; every
    method below moves it by the machine's own steps (`Reachable(st)`), so that the methods refine
    the machine and each call they make to an unchecked list operation is proved sound. */
module Runtime {
  import opened Types
  import opened Machine
  import opened Invariant
  import opened Preservation
  import opened Runs
  import opened Rounds
  import opened Progress
  import opened Queues
  import opened Pools
  import opened Rings

  function IdsOf(q: seq<TaskHeader>): (r: seq<Id>)
    ensures |r| == |q|
  {
    seq(|q|, i requires 0 <= i < |q| => q[i].id)
  }

  lemma IdsCons(t: TaskHeader, q: seq<TaskHeader>)
    ensures IdsOf([t] + q) == [t.id] + IdsOf(q)
  {
  }

  lemma IdsIn(q: seq<TaskHeader>, t: TaskHeader)
    requires t.id !in IdsOf(q)
    ensures t !in q
  {
    forall i | 0 <= i < |q| ensures q[i] != t {
      assert IdsOf(q)[i] == q[i].id;
    }
  }

  ghost function FutureAt(s: State, id: Id): Option<Script> {
    if id in s.live then Some(s.live[id].script) else
    if id in s.held then Some(s.held[id]) else None
  }

  ghost function LeafAt(s: State, id: Id): Option<Request> {
    if id in s.live then s.live[id].leaf else None
  }

  /** Slots other than `id` are left alone. */
  ghost predicate OthersSame(id: Id, s: State, s': State) {
    forall i | i != id ::
      && FutureAt(s', i) == FutureAt(s, i) && LeafAt(s', i) == LeafAt(s, i)
      && (i in s'.live <==> i in s.live) && (HandedOut(s', i) <==> HandedOut(s, i))
  }

  /** What a drain leaves alone in the ring. */
  ghost predicate DrainKeeps(s: State, s': State) {
    && s'.unsettled == s.unsettled && s'.ring.cap == s.ring.cap && NumTimeouts(s'.ring) == NumTimeouts(s.ring)
    && s.nextSerial <= s'.nextSerial
  }

  datatype View = View(
    future: Option<Script>, leaf: Option<Request>, pollFn: bool, finalizer: object?, executor: object?)

  class Reactor {
    const ring: IoUring
    var reqQueued: nat

    /** Counts the request before the push, and does not undo it when the push fails. */
    method Submit(owner: Id, op: int) returns (ok: bool, ticket: nat)
      modifies `reqQueued, ring`sq, ring`pushes
      ensures ok == CanPush(old(ring.V())) && ticket == old(ring.pushes)
      ensures !ok <==> |old(ring.sq)| >= ring.cap
      ensures ring.sq == old(ring.sq) + if ok then [Req(owner, ticket, op)] else []
      ensures reqQueued == old(reqQueued) + 1
      ensures ring.V() == if ok then Push(old(ring.V()), Req(owner, ticket, op)) else old(ring.V())
      ensures ring.pushes == old(ring.pushes) + if ok then 1 else 0
    {
      reqQueued := reqQueued + 1;
      ticket := ring.pushes;
      ok := ring.Push(Req(owner, ticket, op));
    }

    constructor (ring: IoUring)
      ensures this.ring == ring && reqQueued == 0
    {
      this.ring := ring;
      reqQueued := 0;
    }
  }

  function SizesOf(pools: seq<TaskPool>): seq<nat> {
    seq(|pools|, p requires 0 <= p < |pools| => |pools[p].slots|)
  }

  class Executor {
    const pools: seq<TaskPool>
    const taskQueue: TaskQueue
    const reactor: Reactor
    var spawned: nat
    ghost const headers: set<TaskHeader>
    ghost const freeLists: set<TaskFreeList>
    ghost var seg: seq<TaskHeader>   // detached by drain, still to be visited
    ghost var st: State

    // ---- the objects of a thread; none is allocated after start-up ----

    ghost predicate Mine(t: TaskHeader) {
      t.id.pool < |pools| && pools[t.id.pool].Owns(t)
    }

    ghost predicate Wired() {
      && (forall p :: 0 <= p < |pools| ==> pools[p].index == p && pools[p].Wired())
      && (forall p, q :: 0 <= p < q < |pools| ==> pools[p].freeList != pools[q].freeList)
      && (forall p :: 0 <= p < |pools| ==> pools[p].freeList in freeLists)
      && (forall p, i :: 0 <= p < |pools| && 0 <= i < |pools[p].slots| ==> pools[p].slots[i] in headers)
      && (forall h <- headers :: Mine(h))
    }

    lemma MineIsHeader(t: TaskHeader)
      requires Wired()
      ensures Mine(t) <==> t in headers
    {
    }

    ghost predicate QueueRep(ids: seq<Id>)
      reads taskQueue`head, taskQueue`contents, taskQueue.contents`next
    {
      taskQueue.Valid() && IdsOf(taskQueue.contents) == ids && forall t <- taskQueue.contents :: Mine(t)
    }

    ghost predicate SegRep(list: seq<TaskHeader>, ids: seq<Id>)
      reads list`next
    {
      Chained(list) && IdsOf(list) == ids && forall t <- list :: Mine(t)
    }

    ghost predicate PoolRep(p: nat, v: Pool)
      requires p < |pools|
      reads {pools[p]}`exhausted, pools[p].freeList`top, pools[p].freeList`stack
      reads pools[p].freeList.stack`freeNext, pools[p].slots`storage
    {
      pools[p].Valid() && pools[p].V() == v
    }

    ghost predicate PoolsRep(vs: seq<Pool>)
      reads pools`exhausted, freeLists`top, freeLists`stack, headers`freeNext, headers`storage
    {
      && Wired() && |vs| == |pools|
      && (forall p: nat :: p < |pools| ==> forall t <- pools[p].freeList.stack :: t in headers)
      && (forall p: nat :: p < |pools| ==> PoolRep(p, vs[p]))
    }

    ghost function Views(): map<TaskHeader, View>
      reads headers`future, headers`leaf, headers`pollFn, headers`finalizer, headers`executor
    {
      map h | h in headers :: View(h.future, h.leaf, h.pollFn, h.finalizer, h.executor)
    }

    /** What the header of slot `h.id` holds when the machine is in state `s`. */
    ghost predicate Agrees(h: TaskHeader, v: View, s: State) {
      && Mine(h)
      && v.future == FutureAt(s, h.id) && v.leaf == LeafAt(s, h.id)
      && (HandedOut(s, h.id) ==> v.pollFn && v.finalizer == pools[h.id.pool])
      && (h.id in s.live ==> v.executor == this)
    }

    lemma ViewsAll()
      ensures Views().Keys == headers
    {
    }

    /** The fields of the header of a slot, in state `s`. */
    lemma HeaderIs(t: TaskHeader, s: State)
      requires HeadersRep(Views(), s) && t in headers
      ensures t in Views() && Views()[t] == View(t.future, t.leaf, t.pollFn, t.finalizer, t.executor)
      ensures Agrees(t, Views()[t], s)
    {
    }

    ghost predicate HeadersRep(views: map<TaskHeader, View>, s: State) {
      forall h <- views :: Agrees(h, views[h], s)
    }

    lemma HeadersSame(views: map<TaskHeader, View>, s: State, s': State)
      requires HeadersRep(views, s) && s'.live == s.live && s'.held == s.held
      ensures HeadersRep(views, s')
    {
      forall h | h in views ensures Agrees(h, views[h], s') {
        assert Agrees(h, views[h], s);
      }
    }

    lemma HeaderAgrees(views: map<TaskHeader, View>, t: TaskHeader, s: State)
      requires HeadersRep(views, s) && t in views
      ensures Agrees(t, views[t], s)
    {
    }

    lemma OneHeader(views: map<TaskHeader, View>, t: TaskHeader, v: View, s: State, s': State)
      requires HeadersRep(views, s) && OthersSame(t.id, s, s')
      requires Agrees(t, v, s')
      ensures HeadersRep(views[t := v], s')
    {
      forall h | h in views || h == t ensures Agrees(h, views[t := v][h], s') {
        if h != t {
          assert Agrees(h, views[h], s);
        }
      }
    }

    ghost predicate ScalarRep()
      reads `spawned, `st, reactor`reqQueued, reactor.ring
    {
      && spawned == st.spawned && reactor.reqQueued == st.reqQueued
      && reactor.ring.V() == st.ring && reactor.ring.pushes == st.nextTicket
    }

    /** The lists are well-formed and hold the given tasks. */
    ghost predicate ListsRep(queue: seq<Id>, list: seq<TaskHeader>, segment: seq<Id>, vs: seq<Pool>)
      reads taskQueue`head, taskQueue`contents, taskQueue.contents`next, list`next
      reads pools`exhausted, freeLists`top, freeLists`stack, headers`freeNext, headers`storage, headers`next
    {
      QueueRep(queue) && SegRep(list, segment) && PoolsRep(vs) && Unlinked(list)
    }

    /** No link is left in a task that is in neither list. */
    ghost predicate Unlinked(list: seq<TaskHeader>)
      reads taskQueue`contents, headers`next
    {
      forall h <- headers :: h !in taskQueue.contents && h !in list ==> h.next == null
    }

    ghost predicate Valid()
      reads `spawned, `st, `seg, reactor`reqQueued, reactor.ring
      reads taskQueue`head, taskQueue`contents, taskQueue.contents`next, seg`next
      reads pools`exhausted, freeLists`top, freeLists`stack, headers
    {
      && Wired() && Reachable(st) && ScalarRep()
      && ListsRep(st.queue, seg, st.segment, st.pools) && HeadersRep(Views(), st)
    }

    constructor (pools: seq<TaskPool>, reactor: Reactor)
      requires forall p :: 0 <= p < |pools| ==>
                 pools[p].index == p && pools[p].Valid() && pools[p].V() == Pool(|pools[p].slots|, 0, [])
      requires forall p, i :: 0 <= p < |pools| && 0 <= i < |pools[p].slots| ==>
                 pools[p].slots[i].future.None? && pools[p].slots[i].leaf.None? && pools[p].slots[i].next == null
      requires forall p, q :: 0 <= p < q < |pools| ==> pools[p].freeList != pools[q].freeList
      requires reactor.reqQueued == 0 && reactor.ring.pushes == 0
      requires reactor.ring.V() == Ring(reactor.ring.cap, [], [], [])
      ensures this.pools == pools && this.reactor == reactor && Valid() && fresh(taskQueue)
      ensures headers == set p, i | 0 <= p < |pools| && 0 <= i < |pools[p].slots| :: pools[p].slots[i]
      ensures freeLists == set p | 0 <= p < |pools| :: pools[p].freeList
      ensures st == Start(SizesOf(pools), reactor.ring.cap)
    {
      hide Reachable, FreeChained, SizesOf, Valid, Start, Chained, Wired;
      this.pools, this.reactor, spawned, seg := pools, reactor, 0, [];
      taskQueue := new TaskQueue();
      headers := set p, i | 0 <= p < |pools| && 0 <= i < |pools[p].slots| :: pools[p].slots[i];
      freeLists := set p | 0 <= p < |pools| :: pools[p].freeList;
      st := Start(SizesOf(pools), reactor.ring.cap);
      new;
      AllMine();
      StartValid();
    }

    lemma StartValid()
      requires Wired() && st == Start(SizesOf(pools), reactor.ring.cap)
      requires forall p :: 0 <= p < |pools| ==>
                 pools[p].index == p && pools[p].Valid() && pools[p].V() == Pool(|pools[p].slots|, 0, [])
      requires forall p, i :: 0 <= p < |pools| && 0 <= i < |pools[p].slots| ==>
                 pools[p].slots[i].future.None? && pools[p].slots[i].leaf.None? && pools[p].slots[i].next == null
      requires spawned == 0 && seg == [] && taskQueue.Valid() && taskQueue.contents == []
      requires reactor.reqQueued == 0 && reactor.ring.pushes == 0
      requires reactor.ring.V() == Ring(reactor.ring.cap, [], [], [])
      ensures Valid()
    {
      hide Reachable, Wired, PoolsRep, HeadersRep;
      StartReachable(SizesOf(pools), reactor.ring.cap);
      EmptyPools(st.pools);
      FreshHeaders(st);
    }

    lemma AllMine()
      requires forall p :: 0 <= p < |pools| ==> pools[p].index == p && pools[p].Wired()
      requires forall p, q :: 0 <= p < q < |pools| ==> pools[p].freeList != pools[q].freeList
      requires headers == set p, i | 0 <= p < |pools| && 0 <= i < |pools[p].slots| :: pools[p].slots[i]
      requires freeLists == set p | 0 <= p < |pools| :: pools[p].freeList
      ensures Wired()
    {
    }

    lemma EmptyPools(vs: seq<Pool>)
      requires Wired() && vs == Start(SizesOf(pools), 0).pools
      requires forall p :: 0 <= p < |pools| ==>
                 pools[p].index == p && pools[p].Valid() && pools[p].V() == Pool(|pools[p].slots|, 0, [])
      ensures PoolsRep(vs)
    {
      forall p: nat | p < |pools| ensures PoolRep(p, vs[p]) && pools[p].freeList.stack == [] {
        assert |IndicesOf(pools[p].freeList.stack)| == 0;
      }
    }

    lemma FreshHeaders(s: State)
      requires Wired() && s.live == map[] && s.held == map[]
      requires forall p, i :: 0 <= p < |pools| && 0 <= i < |pools[p].slots| ==>
                 pools[p].slots[i].future.None? && pools[p].slots[i].leaf.None? && pools[p].slots[i].next == null
      ensures HeadersRep(Views(), s) && forall h <- headers :: h.next == null
    {
      forall h | h in headers ensures Agrees(h, Views()[h], s) && h.next == null {
        assert Mine(h) && pools[h.id.pool].slots[h.id.index] == h;
      }
    }


    // ---- spawning ----

    /** `Executor::enqueue`: the task is in neither of the lists. */
    method Enqueue(t: TaskHeader, ghost queue: seq<Id>, ghost segment: seq<Id>, ghost vs: seq<Pool>)
      requires ListsRep(queue, seg, segment, vs)
      requires Mine(t) && t in headers && t.id !in queue && t.id !in segment
      modifies taskQueue`head, taskQueue`contents, t`next, t`executor
      ensures ListsRep([t.id] + queue, seg, segment, vs)
      ensures Views() == old(Views())[t := old(Views())[t].(executor := this)]
    {
      hide PoolsRep, Distinct;
      IdsIn(taskQueue.contents, t);
      IdsIn(seg, t);
      IdsCons(t, taskQueue.contents);
      t.executor := this;
      taskQueue.Enqueue(t);
    }

    method SpawnTask(t: TaskHeader)
      requires Valid() && Mine(t) && t.id in st.held
      modifies `spawned, `st, taskQueue`head, taskQueue`contents, t`next, t`executor
      ensures Valid() && st == DoSpawn(old(st), t.id)
    {
      hide Inv, Reachable, ListsRep, HeadersRep, Views, Wired, DoSpawn, OthersSame;
      ghost var s, views := st, Views();
      NoFault(s);
      MineIsHeader(t);
      ViewsAll();
      HeaderAgrees(views, t, s);
      SpawnIsSound(s, t.id);
      Enqueue(t, s.queue, s.segment, s.pools);
      spawned := spawned + 1;
      st := DoSpawn(s, t.id);
      ReachableStep(s, EvSpawn(t.id));
      OneHeader(views, t, views[t].(executor := this), s, st);
    }

    // ---- preparing ----

    /** The header of the slot that pool `p`, in state `v`, hands out next. */
    ghost function PickSet(p: nat, v: Pool): set<TaskHeader> {
      set h | h in headers && h.id.pool == p && PoolTake(v).1 == Some(h.id.index)
    }

    /** The pool's own `prepare_task`: it writes to no live future. */
    method TakeFrom(p: nat, script: Script, ghost vs: seq<Pool>) returns (r: TaskHeader?)
      requires PoolsRep(vs) && p < |pools| && forall h <- PickSet(p, vs[p]) :: h.future.None?
      modifies {pools[p]}`exhausted, pools[p].freeList`top, pools[p].freeList`stack
      modifies PickSet(p, vs[p])`future, PickSet(p, vs[p])`leaf, PickSet(p, vs[p])`storage
      modifies PickSet(p, vs[p])`pollFn, PickSet(p, vs[p])`finalizer
      ensures PoolsRep(vs[p := PoolTake(vs[p]).0])
      ensures r == null <==> PoolTake(vs[p]).1.None?
      ensures r == null ==> PickSet(p, vs[p]) == {}
      ensures r != null ==>
                && Mine(r) && PickSet(p, vs[p]) == {r}
                && r.future == Some(script) && r.leaf.None? && r.pollFn && r.finalizer == pools[p]
    {
      var pool := pools[p];
      assert PoolRep(p, vs[p]);
      ghost var pick := pool.Pick();
      if pick != null {
        assert Mine(pick);
        MineIsHeader(pick);
        forall h | h in PickSet(p, vs[p]) ensures h == pick {
          MineIsHeader(h);
        }
        assert PickSet(p, vs[p]) == {pick};
      }
      r := pool.PrepareTask(script);
    }

    method TakeSlot(p: nat, script: Script, ghost queue: seq<Id>, ghost segment: seq<Id>, ghost vs: seq<Pool>)
      returns (r: TaskHeader?)
      requires ListsRep(queue, seg, segment, vs) && p < |pools|
      requires forall h <- PickSet(p, vs[p]) :: h.future.None?
      modifies {pools[p]}`exhausted, pools[p].freeList`top, pools[p].freeList`stack
      modifies PickSet(p, vs[p])`future, PickSet(p, vs[p])`leaf, PickSet(p, vs[p])`storage
      modifies PickSet(p, vs[p])`pollFn, PickSet(p, vs[p])`finalizer
      ensures ListsRep(queue, seg, segment, vs[p := PoolTake(vs[p]).0])
      ensures r == null <==> PoolTake(vs[p]).1.None?
      ensures r != null ==> Mine(r) && r in PickSet(p, vs[p])
      ensures Views() == if r == null then old(Views()) else
                old(Views())[r := View(Some(script), None, true, pools[p], old(Views())[r].executor)]
    {
      hide QueueRep, SegRep, Mine, Wired, PickSet, PoolsRep, Unlinked;
      r := TakeFrom(p, script, vs);
    }

    method PrepareTask(p: nat, script: Script) returns (r: TaskHeader?)
      requires Valid()
      modifies `st, pools`exhausted, freeLists`top, freeLists`stack
      modifies headers`future, headers`leaf, headers`storage, headers`pollFn, headers`finalizer
      ensures Valid() && st == DoPrepare(old(st), p, script)
      ensures r == null <==> Candidate(old(st), p).None?
      ensures r != null ==> Mine(r) && Candidate(old(st), p) == Some(r.id) && r.id in st.held
    {
      hide Inv, Reachable, HeadersRep, Wired, ListsRep, DoPrepare, Mine, OthersSame;
      ghost var s := st;
      ReachableStep(s, EvPrepare(p, script));
      PrepareIs(s, p, script);
      PoolCount(s.queue, seg, s.segment, s.pools);
      if p >= |pools| {
        return null;
      }
      r := PrepareIn(p, script, s);
      st := DoPrepare(s, p, script);
    }

    method PrepareIn(p: nat, script: Script, ghost s: State) returns (r: TaskHeader?)
      requires Wired() && ListsRep(s.queue, seg, s.segment, s.pools) && HeadersRep(Views(), s)
      requires Reachable(s) && p < |pools|
      modifies {pools[p]}`exhausted, freeLists`top, freeLists`stack
      modifies headers`future, headers`leaf, headers`storage, headers`pollFn, headers`finalizer
      ensures var s' := DoPrepare(s, p, script); ListsRep(s'.queue, seg, s'.segment, s'.pools) && HeadersRep(Views(), s')
      ensures r == null <==> Candidate(s, p).None?
      ensures r != null ==> Mine(r) && Candidate(s, p) == Some(r.id)
    {
      hide Inv, Reachable, HeadersRep, Wired, ListsRep, PickSet, DoPrepare, OthersSame;
      ghost var views := Views();
      NoFault(s);
      PrepareIs(s, p, script);
      PoolCount(s.queue, seg, s.segment, s.pools);
      CandidateIsUnused(views, s, p);
      PoolIsMine(p);
      r := TakeSlot(p, script, s.queue, s.segment, s.pools);
      if r == null {
        assert s.pools[p := PoolTake(s.pools[p]).0] == s.pools;
      } else {
        OneHeader(views, r, View(Some(script), None, true, pools[p], views[r].executor), s, DoPrepare(s, p, script));
      }
    }

    lemma PoolCount(queue: seq<Id>, list: seq<TaskHeader>, segment: seq<Id>, vs: seq<Pool>)
      requires ListsRep(queue, list, segment, vs)
      ensures |vs| == |pools|
    {
    }

    lemma PoolIsMine(p: nat)
      requires Wired() && p < |pools|
      ensures pools[p].freeList in freeLists
    {
    }

    lemma CandidateIsUnused(views: map<TaskHeader, View>, s: State, p: nat)
      requires Inv(s) && HeadersRep(views, s) && p < |s.pools| && views.Keys == headers
      ensures forall h <- PickSet(p, s.pools[p]) :: h in views && h in headers && h.id.pool == p &&
                Candidate(s, p) == Some(h.id) && views[h].future.None? && h.id !in s.live && h.id !in s.held
    {
      hide QueueInv, RingInv, LeafInv, PoolInv, SerialInv, CountInv;
      if Candidate(s, p).Some? {
        PoolTakes(s, p, Finish);
      }
      forall h | h in PickSet(p, s.pools[p])
        ensures Candidate(s, p) == Some(h.id) && views[h].future.None? && h.id !in s.live && h.id !in s.held
      {
        assert Agrees(h, views[h], s);
      }
    }

    // ---- polling ----

    /** `poll` of a leaf future: returns Ready if the result is there, otherwise stores the waker,
        submits, wakes the task at once if that failed, and returns Pending. */
    method PollLeaf(t: TaskHeader) returns (result: Option<int>)
      requires Valid() && Mine(t) && st.polling == Some(t.id) && Polls(st) && Polled(st).script.Await?
      modifies `st, reactor`reqQueued, reactor.ring`sq, reactor.ring`pushes
      modifies taskQueue`head, taskQueue`contents, t`next, t`executor, t`leaf
      ensures Valid()
      ensures if Answered(old(Polled(st))) then result == old(Polled(st)).leaf.value.returnVal && st == old(st)
              else result.None? && CanSubmit(old(st)) && st == DoSubmit(old(st))
    {
      hide Inv, Reachable, HeadersRep, Wired, ListsRep;
      ghost var s, views := st, Views();
      NoFault(s);
      MineIsHeader(t);
      HeaderAgrees(views, t, s);
      if t.leaf.Some? && t.leaf.value.returnVal.Some? {
        return t.leaf.value.returnVal;
      }
      SubmitLeaf(t);
      return None;
    }

    method SubmitLeaf(t: TaskHeader)
      requires Valid() && Mine(t) && st.polling == Some(t.id) && CanSubmit(st)
      modifies `st, reactor`reqQueued, reactor.ring`sq, reactor.ring`pushes
      modifies taskQueue`head, taskQueue`contents, t`next, t`executor, t`leaf
      ensures Valid() && st == DoSubmit(old(st))
    {
      hide Inv, Reachable, HeadersRep, Wired, ListsRep, Views, DoSubmit, OthersSame;
      ghost var s, views := st, Views();
      NoFault(s);
      MineIsHeader(t);
      HeaderIs(t, s);
      SubmitIsSound(s);
      Arm(t, t.future.value.op, s.queue, s.segment, s.pools);
      st := DoSubmit(s);
      ReachableStep(s, EvSubmit);
      ghost var ticket := if CanPush(s.ring) then Some(s.nextTicket) else None;
      OneHeader(views, t, views[t].(leaf := Some(Request(ticket, None, Some(t.id)))), s, st);
    }

    /** The waker is stored, the request submitted, the waker woken if the push failed. */
    method Arm(t: TaskHeader, op: int, ghost queue: seq<Id>, ghost segment: seq<Id>, ghost vs: seq<Pool>)
      requires ListsRep(queue, seg, segment, vs) && Mine(t) && t in headers && t.executor == this
      requires CanPush(reactor.ring.V()) || (t.id !in queue && t.id !in segment)
      modifies reactor`reqQueued, reactor.ring`sq, reactor.ring`pushes
      modifies taskQueue`head, taskQueue`contents, t`next, t`executor, t`leaf
      ensures var ok := CanPush(old(reactor.ring.V()));
              && reactor.reqQueued == old(reactor.reqQueued) + 1
              && reactor.ring.V() == (if ok then Push(old(reactor.ring.V()), Req(t.id, old(reactor.ring.pushes), op))
                                      else old(reactor.ring.V()))
              && reactor.ring.pushes == old(reactor.ring.pushes) + (if ok then 1 else 0)
              && ListsRep(if ok then queue else [t.id] + queue, seg, segment, vs)
              && Views() == old(Views())[t := old(Views())[t].(leaf :=
                   Some(Request(if ok then Some(old(reactor.ring.pushes)) else None, None, Some(t.id))))]
    {
      hide ListsRep;
      t.leaf := Some(Request(None, None, Some(t.id)));
      var ok, ticket := reactor.Submit(t.id, op);
      if ok {
        t.leaf := Some(Request(Some(ticket), None, Some(t.id)));
      } else {
        Wake(t, queue, segment, vs);
      }
    }

    /** `wake` and `enqueue_self`: a task that was never spawned has no executor, and nothing happens. */
    method Wake(t: TaskHeader, ghost queue: seq<Id>, ghost segment: seq<Id>, ghost vs: seq<Pool>)
      requires ListsRep(queue, seg, segment, vs) && Mine(t) && t in headers
      requires t.executor == null || (t.executor == this && t.id !in queue && t.id !in segment)
      modifies taskQueue`head, taskQueue`contents, t`next, t`executor
      ensures ListsRep(if old(t.executor) == null then queue else [t.id] + queue, seg, segment, vs)
      ensures Views() == old(Views())
    {
      hide ListsRep;
      if t.executor != null {
        Enqueue(t, queue, segment, vs);
      }
    }

    /** The polled future goes on with `f`. */
    method SetFuture(t: TaskHeader, f: Script, ghost s': State)
      requires Valid() && Mine(t) && st.polling == Some(t.id) && Polls(st)
      requires s' == SetPolled(st, Polled(st).(script := f, leaf := None)) && Reachable(s')
      modifies `st, t`future, t`leaf
      ensures Valid() && st == s'
    {
      hide Inv, Reachable, HeadersRep, Wired, ListsRep;
      ghost var s, views := st, Views();
      MineIsHeader(t);
      HeaderAgrees(views, t, s);
      t.future, t.leaf := Some(f), None;
      st := s';
      OneHeader(views, t, Views()[t], s, st);
      assert Views() == views[t := Views()[t]];
    }

    /** The future reaches a spawn: it calls the task function of a pool, and spawns what it gets. */
    method PollSpawn(t: TaskHeader)
      requires Valid() && Mine(t) && st.polling == Some(t.id) && CanBranch(st)
      modifies `st, pools`exhausted, freeLists`top, freeLists`stack
      modifies headers`future, headers`leaf, headers`storage, headers`pollFn, headers`finalizer
      modifies `spawned, taskQueue`head, taskQueue`contents, headers`next, headers`executor
      ensures Valid() && st == DoBranch(old(st))
    {
      hide Inv, Reachable, HeadersRep, Wired, ListsRep, Valid, DoPrepare, DoSpawn, Mine;
      ghost var s := st;
      var script := FutureOf(t);
      IsHeader(t);
      BranchSteps(s);
      ReachableStep(s, EvBranch);
      var c := PrepareTask(script.pool, script.child);
      if c == null {
        SetFuture(t, script.onFull, DoBranch(s));
      } else {
        IsHeader(c);
        SpawnTask(c);
        SetFuture(t, script.onSpawned, DoBranch(s));
      }
    }

    method FutureOf(t: TaskHeader) returns (f: Script)
      requires Valid() && Mine(t) && t.id in st.live
      ensures f == st.live[t.id].script
    {
      hide Inv, Reachable, HeadersRep, Wired, ListsRep;
      MineIsHeader(t);
      HeaderAgrees(Views(), t, st);
      f := t.future.value;
    }

    lemma IsHeader(t: TaskHeader)
      requires Valid() && Mine(t)
      ensures t in headers && Reachable(st)
    {
    }

    /** One suspension point or spawn of the future: whether the poll ends here, Pending. */
    method PollOnce(t: TaskHeader, script: Script) returns (pending: bool, rest: Script)
      requires Valid() && Mine(t) && st.polling == Some(t.id) && Polls(st) && script == Polled(st).script
      requires !script.Finish?
      modifies `st, pools`exhausted, freeLists`top, freeLists`stack
      modifies headers`future, headers`leaf, headers`storage, headers`pollFn, headers`finalizer
      modifies `spawned, taskQueue`head, taskQueue`contents, headers`next, headers`executor
      modifies reactor`reqQueued, reactor.ring`sq, reactor.ring`pushes
      ensures Valid() && st.segment == old(st).segment && DrainKeeps(old(st), st) && Leads(old(st), st)
      ensures if pending then st.polling.None?
              else st.polling == Some(t.id) && Polls(st) && rest == Polled(st).script && rest < script
      ensures Total(st.live) < Total(old(st).live)
              || (Total(st.live) == Total(old(st).live) && pending && !CanPush(st.ring))
    {
      hide Inv, Reachable, HeadersRep, Wired, ListsRep, Valid, Mine, DoResume, DoSubmit, DoBranch, Total, Leads;
      ghost var s := st;
      IsHeader(t);
      NoFault(s);
      LeadsNowhere(s);
      if script.Spawn? {
        BranchSteps(s);
        BranchSpends(s);
        LeadsStep(s, s, EvBranch);
        PollSpawn(t);
        rest := FutureOf(t);
        return false, rest;
      }
      PollSteps(s);
      var result := PollLeaf(t);
      if result.None? {
        LeadsStep(s, s, EvSubmit);
        return true, script;
      }
      LeadsStep(s, s, EvResume);
      rest := if result.value < 0 then script.onErr else script.onOk;
      ReachableStep(s, EvResume);
      SetFuture(t, rest, DoResume(s));
      return false, rest;
    }

    /** `future.poll`: runs the future until it is Pending or comes to its end. */
    method PollFuture(t: TaskHeader) returns (ready: bool)
      requires Valid() && Mine(t) && st.polling == Some(t.id) && Polls(st)
      modifies `st, pools`exhausted, freeLists`top, freeLists`stack
      modifies headers`future, headers`leaf, headers`storage, headers`pollFn, headers`finalizer
      modifies `spawned, taskQueue`head, taskQueue`contents, headers`next, headers`executor
      modifies reactor`reqQueued, reactor.ring`sq, reactor.ring`pushes
      ensures Valid() && st.segment == old(st).segment && DrainKeeps(old(st), st) && Leads(old(st), st)
      ensures if ready then st.polling == Some(t.id) && CanComplete(st) else st.polling.None?
      ensures Total(st.live) < Total(old(st).live)
              || (Total(st.live) == Total(old(st).live) && (ready || !CanPush(st.ring)))
    {
      hide Inv, Reachable, HeadersRep, Wired, ListsRep, Valid, Mine, Total, Leads;
      IsHeader(t);
      var script := FutureOf(t);
      LeadsNowhere(st);
      while !script.Finish?
        invariant Valid() && st.polling == Some(t.id) && Polls(st) && st.segment == old(st).segment
        invariant script == Polled(st).script && DrainKeeps(old(st), st) && Leads(old(st), st)
        invariant Total(st.live) <= Total(old(st).live)
        decreases script
      {
        ghost var s := st;
        var pending;
        pending, script := PollOnce(t, script);
        LeadsOn(old(st), s, st);
        if pending {
          return false;
        }
      }
      return true;
    }

    // ---- completing ----

    /** `TaskPool::finalize`: the slot is not in the free list. */
    method GiveSlot(t: TaskHeader, ghost queue: seq<Id>, ghost segment: seq<Id>, ghost vs: seq<Pool>)
      requires ListsRep(queue, seg, segment, vs) && Mine(t) && |vs| == |pools|
      requires t.id.index < vs[t.id.pool].used && t.id.index !in vs[t.id.pool].free
      modifies pools[t.id.pool].freeList`top, pools[t.id.pool].freeList`stack, t`freeNext
      ensures ListsRep(queue, seg, segment, vs[t.id.pool := PoolGive(vs[t.id.pool], t.id.index)])
    {
      hide QueueRep, SegRep, Unlinked;
      assert PoolsRep(vs);
      MineIsHeader(t);
      PoolFinalize(t, vs);
    }

    method PoolFinalize(t: TaskHeader, ghost vs: seq<Pool>)
      requires PoolsRep(vs) && Mine(t)
      requires t.id.index < vs[t.id.pool].used && t.id.index !in vs[t.id.pool].free
      modifies pools[t.id.pool].freeList`top, pools[t.id.pool].freeList`stack, t`freeNext
      ensures PoolsRep(vs[t.id.pool := PoolGive(vs[t.id.pool], t.id.index)])
    {
      hide PoolRep;
      var p := t.id.pool;
      ghost var v := PoolGive(vs[p], t.id.index);
      PoolIs(p, vs[p]);
      MineIsHeader(t);
      OtherPools(t, vs);
      pools[p].Finalize(t);
      PoolIs(p, v);
    }

    lemma PoolIs(p: nat, v: Pool)
      requires p < |pools|
      ensures PoolRep(p, v) <==> pools[p].Valid() && pools[p].V() == v
    {
    }

    lemma OtherPools(t: TaskHeader, vs: seq<Pool>)
      requires PoolsRep(vs) && Mine(t)
      ensures forall q: nat :: q < |pools| && q != t.id.pool ==>
                pools[q].freeList != pools[t.id.pool].freeList && t !in pools[q].freeList.stack
    {
      forall q: nat | q < |pools| && q != t.id.pool
        ensures pools[q].freeList != pools[t.id.pool].freeList && t !in pools[q].freeList.stack
      {
        assert PoolRep(q, vs[q]) && pools[q].index == q;
        assert q < t.id.pool || t.id.pool < q;
      }
    }

    /** The end of `TaskStorage::poll` and of the drain callback for a finished task: the future is
        dropped, the pool's finalizer frees the slot, `spawned` goes down. */
    method Complete(t: TaskHeader)
      requires Valid() && Mine(t) && st.polling == Some(t.id) && CanComplete(st)
      modifies `st, `spawned, pools[t.id.pool].freeList`top, pools[t.id.pool].freeList`stack
      modifies t`freeNext, t`future, t`leaf
      ensures Valid() && st == DoComplete(old(st))
    {
      hide Inv, Reachable, HeadersRep, Wired, ListsRep, DoComplete, OthersSame;
      ghost var s, views := st, Views();
      IsHeader(t);
      HeaderAgrees(views, t, s);
      CompleteIsSound(s);
      PoolCount(s.queue, seg, s.segment, s.pools);
      Release(t, s.queue, s.segment, s.pools);
      assert spawned > 0;
      spawned := spawned - 1;
      st := DoComplete(s);
      ReachableStep(s, EvComplete);
      OneHeader(views, t, views[t].(future := None, leaf := None), s, st);
    }

    /** The live future is dropped, once, and the slot goes to the free list. */
    method Release(t: TaskHeader, ghost queue: seq<Id>, ghost segment: seq<Id>, ghost vs: seq<Pool>)
      requires ListsRep(queue, seg, segment, vs) && Mine(t) && t in headers && |vs| == |pools|
      requires t.id.index < vs[t.id.pool].used && t.id.index !in vs[t.id.pool].free
      requires t.future.Some? && t.finalizer == pools[t.id.pool]
      modifies pools[t.id.pool].freeList`top, pools[t.id.pool].freeList`stack, t`freeNext, t`future, t`leaf
      ensures ListsRep(queue, seg, segment, vs[t.id.pool := PoolGive(vs[t.id.pool], t.id.index)])
      ensures Views() == old(Views())[t := old(Views())[t].(future := None, leaf := None)]
    {
      hide ListsRep;
      t.future, t.leaf := None, None;
      if t.finalizer != null {
        GiveSlot(t, queue, segment, vs);
      }
    }

    lemma HasPollFn(t: TaskHeader)
      requires Valid() && Mine(t) && t.id in st.live
      ensures t.pollFn
    {
      hide Inv, Reachable, HeadersRep, Wired, ListsRep;
      MineIsHeader(t);
      HeaderAgrees(Views(), t, st);
    }

    /** The callback that `run` passes to `drain`. */
    method RunTask(t: TaskHeader)
      requires Valid() && Mine(t) && st.polling == Some(t.id) && Polls(st)
      modifies `st, `spawned, pools`exhausted, freeLists`top, freeLists`stack
      modifies taskQueue`head, taskQueue`contents, headers
      modifies reactor`reqQueued, reactor.ring`sq, reactor.ring`pushes
      ensures Valid() && st.polling.None? && st.segment == old(st).segment && DrainKeeps(old(st), st)
      ensures Leads(old(st), st)
      ensures Total(st.live) < Total(old(st).live)
              || (Total(st.live) == Total(old(st).live) && !CanPush(st.ring))
    {
      hide Inv, Reachable, HeadersRep, Wired, ListsRep, Valid, Mine, DoComplete, Total, Leads;
      IsHeader(t);
      HasPollFn(t);
      if t.pollFn {
        var finished := PollFuture(t);
        if finished {
          CompleteSpends(st);
          IsHeader(t);
          CompleteIsSound(st);
          MyPool(t);
          LeadsStep(old(st), st, EvComplete);
          Complete(t);
        }
      }
    }

    lemma MyPool(t: TaskHeader)
      requires Valid() && Mine(t)
      ensures t.id.pool < |pools| && pools[t.id.pool].freeList in freeLists
    {
    }

    // ---- the run loop ----

    /** `self.task_queue.drain(..)` with the callback above: the detached list is `seg`. */
    method DrainRound()
      requires Valid() && Between(st)
      modifies `st, `seg, `spawned, pools`exhausted, freeLists`top, freeLists`stack
      modifies taskQueue`head, taskQueue`contents, headers
      modifies reactor`reqQueued, reactor.ring`sq, reactor.ring`pushes
      ensures Valid() && Between(st) && DrainKeeps(old(st), st) && Drained(old(st), st)
      ensures forall h <- headers :: h !in taskQueue.contents ==> h.next == null
      ensures Total(st.live) < Total(old(st).live)
              || (Total(st.live) == Total(old(st).live) && !CanPush(st.ring))
              || (old(st).queue == [] && st == old(st))
    {
      hide Inv, Reachable, HeadersRep, Wired, ListsRep, Valid, Mine, Total, Leads, Drained;
      Facts();
      NoFault(st);
      LeadsNowhere(DoBeginDrain(st));
      var next := Detach();
      while next != null
        invariant Valid() && st.polling.None? && next == First(seg) && IdsOf(seg) == st.segment
        invariant DrainKeeps(old(st), st) && Leads(DoBeginDrain(old(st)), st)
        invariant Total(st.live) < Total(old(st).live)
                  || (Total(st.live) == Total(old(st).live) && !CanPush(st.ring))
                  || (st == DoBeginDrain(old(st)) && (next == null ==> old(st).queue == []))
        decreases |seg|
      {
        var task: TaskHeader := next;
        NextIsLive();
        ghost var s := st;
        next := StepOver(task);
        LeadsStep(DoBeginDrain(old(st)), s, EvVisit);
        s := st;
        RunTask(task);
        LeadsOn(DoBeginDrain(old(st)), s, st);
      }
      LeadsDrained(old(st), st);
      NoLinkLeft();
    }

    lemma NoLinkLeft()
      requires Valid() && seg == []
      ensures forall h <- headers :: h !in taskQueue.contents ==> h.next == null
    {
    }

    method Detach() returns (next: TaskHeader?)
      requires Valid() && Between(st)
      modifies `st, `seg, taskQueue`head, taskQueue`contents
      ensures Valid() && st == DoBeginDrain(old(st))
      ensures next == First(seg) && IdsOf(seg) == st.segment
    {
      hide Inv, Reachable, HeadersRep, Wired, ListsRep;
      ghost var s := st;
      next := DetachList(s.queue, s.pools);
      st := DoBeginDrain(s);
      HeadersSame(Views(), s, st);
      ReachableStep(s, EvBeginDrain);
    }

    /** The head is replaced by null, the list is left to the caller. */
    method DetachList(ghost queue: seq<Id>, ghost vs: seq<Pool>) returns (next: TaskHeader?)
      requires ListsRep(queue, seg, [], vs)
      modifies `seg, taskQueue`head, taskQueue`contents
      ensures ListsRep([], seg, queue, vs)
      ensures next == First(seg) && IdsOf(seg) == queue
    {
      hide PoolsRep, Distinct;
      next := taskQueue.head;
      taskQueue.head := null;
      seg := taskQueue.contents;
      taskQueue.contents := [];
      EmptyLists();
    }

    method StepOver(task: TaskHeader) returns (next: TaskHeader?)
      requires Valid() && st.polling.None? && seg != [] && task == seg[0]
      modifies `st, `seg, task`next
      ensures Valid() && seg == old(seg)[1..] && st == DoVisit(old(st)) && Mine(task)
      ensures st.polling == Some(task.id) && Polls(st)
      ensures next == First(seg) && IdsOf(seg) == st.segment
    {
      hide Inv, Reachable, HeadersRep, Wired, ListsRep;
      ghost var s := st;
      NextIsLive();
      next := TakeLink(task, s.queue, s.segment, s.pools);
      st := DoVisit(s);
      HeadersSame(Views(), s, st);
      ReachableStep(s, EvVisit);
    }

    /** The next task to visit is live and not queued again. */
    lemma NextIsLive()
      requires Valid() && seg != []
      ensures var t := seg[0];
              && Mine(t) && t in headers && t.id !in st.queue && |st.segment| == |seg| && st.segment[0] == t.id
              && t.id in st.live
    {
      NoFault(st);
      hide RingInv, LeafInv, PoolInv, SerialInv, CountInv, Reachable, PoolsRep, HeadersRep, Chained;
      assert IdsOf(seg)[0] == seg[0].id && seg[0] in seg;
      MineIsHeader(seg[0]);
      SegmentLive(st);
      SegmentNotQueued(st, seg[0].id);
    }

    /** The link of the visited task is taken and cleared. */
    method TakeLink(task: TaskHeader, ghost queue: seq<Id>, ghost segment: seq<Id>, ghost vs: seq<Pool>)
      returns (next: TaskHeader?)
      requires ListsRep(queue, seg, segment, vs) && seg != [] && task == seg[0] && segment != []
      requires Mine(task) && task.id !in queue
      modifies `seg, task`next
      ensures ListsRep(queue, seg, segment[1..], vs) && seg == old(seg)[1..]
      ensures next == First(seg) && IdsOf(seg) == segment[1..]
    {
      hide PoolsRep, Distinct, Chained;
      IdsIn(taskQueue.contents, task);
      ChainTail(seg);
      next := task.next;
      task.next := null;
      seg := seg[1..];
    }

    // ---- completions ----

    /** One `cqe` of `flush_completions`: the result is written at the address in `user_data`, the
        waker stored there is woken. */
    method Deliver() returns (c: Cqe)
      requires Valid() && Between(st) && st.ring.cq != []
      modifies `st, reactor.ring`cq, reactor.ring`log, taskQueue`head, taskQueue`contents
      modifies headers`next, headers`executor, headers`leaf
      ensures Valid() && st == DoDeliver(old(st)) && c == old(st).ring.cq[0]
      ensures reactor.ring.log == old(reactor.ring.log) + [Popped(c)]
    {
      hide Inv, Reachable, HeadersRep, Wired, ListsRep, DoDeliver, OthersSame;
      ghost var s := st;
      DeliverIsSound(s);
      c := reactor.ring.Pop();
      if c.entry.Req? {
        AnswerOwner(c, s);
      } else {
        HeadersSame(Views(), s, DoDeliver(s));
      }
      st := DoDeliver(s);
      ReachableStep(s, EvDeliver);
    }

    /** The request's address is that of a live task's leaf. */
    method AnswerOwner(c: Cqe, ghost s: State)
      requires Wired() && ListsRep(s.queue, seg, s.segment, s.pools) && HeadersRep(Views(), s)
      requires Reachable(s) && Between(s) && s.ring.cq != [] && c == s.ring.cq[0] && c.entry.Req?
      modifies taskQueue`head, taskQueue`contents, headers`next, headers`executor, headers`leaf
      ensures var s' := DoDeliver(s); ListsRep(s'.queue, seg, s'.segment, s'.pools) && HeadersRep(Views(), s')
    {
      hide Inv, Reachable, HeadersRep, Wired, ListsRep, DoDeliver, OthersSame;
      ghost var views := Views();
      DeliverIsSound(s);
      LiveIsMine(s, c.entry.owner);
      var t := pools[c.entry.owner.pool].slots[c.entry.owner.index];
      HeaderAgrees(views, t, s);
      Answer(t, c.res, s.queue, s.segment, s.pools);
      OneHeader(views, t, Views()[t], s, DoDeliver(s));
    }

    /** `return_val = Some(..)` and `waker.unwrap().wake_by_ref()`. */
    method Answer(t: TaskHeader, res: int, ghost queue: seq<Id>, ghost segment: seq<Id>, ghost vs: seq<Pool>)
      requires ListsRep(queue, seg, segment, vs)
      requires Mine(t) && t in headers && t.id !in queue && t.id !in segment && t.executor == this
      requires t.leaf.Some? && t.leaf.value.waker == Some(t.id)
      modifies taskQueue`head, taskQueue`contents, t`next, t`executor, t`leaf
      ensures ListsRep([t.id] + queue, seg, segment, vs)
      ensures Views() == old(Views())[t := old(Views())[t].(
                leaf := Some(old(t.leaf).value.(returnVal := Some(res))))]
    {
      hide ListsRep;
      t.leaf := Some(t.leaf.value.(returnVal := Some(res)));
      var waker := t.leaf.value.waker.value;
      Wake(pools[waker.pool].slots[waker.index], queue, segment, vs);
    }

    lemma LiveIsMine(s: State, id: Id)
      requires Wired() && ListsRep(s.queue, seg, s.segment, s.pools) && Reachable(s) && id in s.live
      ensures id.pool < |pools| && id.index < |pools[id.pool].slots|
      ensures var t := pools[id.pool].slots[id.index]; t.id == id && Mine(t) && t in headers
    {
      hide QueueInv, RingInv, LeafInv, SerialInv, CountInv, Reachable, QueueRep, SegRep;
      NoFault(s);
      assert InUse(s, id);
      assert PoolRep(id.pool, s.pools[id.pool]);
    }

    // ---- the ring ----

    method PushTimeout() returns (ok: bool)
      requires Valid() && Between(st)
      modifies `st, reactor.ring`sq, reactor.ring`pushes, reactor.ring`log
      ensures Valid() && st == DoPushTimeout(old(st)) && ok == CanPush(old(st).ring)
      ensures reactor.ring.log == old(reactor.ring.log) + if ok then [Armed] else []
    {
      hide Inv, Reachable, HeadersRep, Wired, ListsRep;
      ghost var s := st;
      ok := reactor.ring.Push(Timeout);
      reactor.ring.log := reactor.ring.log + if ok then [Armed] else [];
      st := DoPushTimeout(s);
      ReachableStep(s, EvPushTimeout);
      HeadersSame(Views(), s, st);
    }

    /** `submit_and_wait`. */
    method Enter(want: nat) returns (code: int, ghost moves: seq<Move>)
      requires Valid()
      modifies `st, reactor.ring`sq, reactor.ring`inflight, reactor.ring`cq, reactor.ring`patience, reactor.ring`log
      ensures Valid() && st == old(st).(ring := KernelMoves(old(st).ring, moves))
      ensures reactor.ring.log == old(reactor.ring.log) + [Code(want, code)]
      ensures reactor.ring.patience <= old(reactor.ring.patience)
      ensures reactor.ring.patience == old(reactor.ring.patience) ==>
                code == 0 && st.ring.sq == [] && (Expired(old(st).ring.cq) ==> Expired(st.ring.cq))
    {
      hide Inv, Reachable, HeadersRep, Wired, ListsRep, Expired;
      ghost var s := st;
      code, moves := reactor.ring.SubmitAndWait(want);
      st := s.(ring := KernelMoves(s.ring, moves));
      KernelReach(s, moves);
      HeadersSame(Views(), s, st);
    }

    /** A look at the completion queue. */
    method Sync() returns (ghost moves: seq<Move>)
      requires Valid()
      modifies `st, reactor.ring`sq, reactor.ring`inflight, reactor.ring`cq, reactor.ring`patience
      ensures Valid() && st == old(st).(ring := KernelMoves(old(st).ring, moves)) && st.ring.sq == old(st).ring.sq
      ensures reactor.ring.patience <= old(reactor.ring.patience)
      ensures reactor.ring.patience == old(reactor.ring.patience) ==>
                && (NoRequest(EntriesOf(st.ring.cq)) ==> NoRequest(st.ring.inflight))
                && (st.ring.cq == [] ==> st.ring.inflight == [])
                && (Expired(old(st).ring.cq) ==> Expired(st.ring.cq))
    {
      hide Inv, Reachable, HeadersRep, Wired, ListsRep, Expired, NoRequest;
      ghost var s := st;
      moves := reactor.ring.Completion();
      st := s.(ring := KernelMoves(s.ring, moves));
      KernelReach(s, moves);
      HeadersSame(Views(), s, st);
    }

    /** `*mutreq -= collected`, which does not underflow. */
    method Settle(collected: nat)
      requires Valid() && Between(st) && collected == st.unsettled
      modifies `st, reactor`reqQueued
      ensures Valid() && st == DoSettle(old(st)) && old(st).reqQueued == st.reqQueued + collected
    {
      hide Inv, Reachable, HeadersRep, Wired, ListsRep;
      ghost var s := st;
      Counters(s);
      reactor.reqQueued := reactor.reqQueued - collected;
      st := DoSettle(s);
      ReachableStep(s, EvSettle);
      HeadersSame(Views(), s, st);
    }

    ghost function Repr(): set<object> {
      {this, taskQueue, reactor, reactor.ring} + headers + freeLists + set p | 0 <= p < |pools| :: pools[p]
    }

    lemma Facts()
      requires Valid()
      ensures Reachable(st) && reactor.ring.V() == st.ring && reactor.reqQueued == st.reqQueued && spawned == st.spawned
    {
    }
  }

  lemma {:induction false} KernelLeads(s: State, ms: seq<Move>)
    ensures Leads(s, s.(ring := KernelMoves(s.ring, ms)))
    decreases |ms|
  {
    hide Leads, KernelMove;
    LeadsNowhere(s);
    if ms == [] {
      assert s.(ring := KernelMoves(s.ring, ms)) == s;
    } else {
      var s1 := DoKernel(s, ms[0]);
      LeadsStep(s, s, EvKernel(ms[0]));
      KernelLeads(s1, ms[1..]);
      LeadsOn(s, s1, s.(ring := KernelMoves(s.ring, ms)));
    }
  }

  lemma {:induction false} KernelReach(s: State, ms: seq<Move>)
    requires Reachable(s)
    ensures Reachable(s.(ring := KernelMoves(s.ring, ms)))
    decreases |ms|
  {
    hide Reachable, KernelMove;
    if ms == [] {
      assert s.(ring := KernelMoves(s.ring, ms)) == s;
    } else {
      ReachableStep(s, EvKernel(ms[0]));
      KernelReach(DoKernel(s, ms[0]), ms[1..]);
    }
  }

  /** What a delivery changes, and that its write and its wake are sound. */
  lemma DeliverIsSound(s: State)
    requires Reachable(s) && Between(s) && s.ring.cq != []
    ensures var s', c := DoDeliver(s), s.ring.cq[0];
            && s'.segment == s.segment && s'.pools == s.pools && s'.spawned == s.spawned
            && s'.reqQueued == s.reqQueued && s'.nextTicket == s.nextTicket && s'.held == s.held
            && s'.ring == s.ring.(cq := s.ring.cq[1..])
            && (c.entry.Timeout? ==> s'.queue == s.queue && s'.live == s.live)
            && (c.entry.Req? ==>
                  var id := c.entry.owner;
                  && id in s.live && s.live[id].leaf.Some? && s.live[id].leaf.value.waker == Some(id)
                  && id !in s.queue && id !in s.segment && s'.queue == [id] + s.queue
                  && OthersSame(id, s, s') && id in s'.live && FutureAt(s', id) == FutureAt(s, id)
                  && LeafAt(s', id) == Some(s.live[id].leaf.value.(returnVal := Some(c.res))))
  {
    hide QueueInv, RingInv, LeafInv, PoolInv, SerialInv, CountInv, Reachable;
    NoFault(s);
    if s.ring.cq[0].entry.Req? {
      DeliverTarget(s);
      QueueDelivers(s);
    }
  }

  /** What preparing changes. */
  lemma PrepareIs(s: State, p: nat, script: Script)
    ensures var s' := DoPrepare(s, p, script);
            match Candidate(s, p)
            case None => s' == s
            case Some(id) =>
              && s' == s.(pools := s'.pools, held := s'.held, fault := s'.fault)
              && s'.pools == s.pools[p := PoolTake(s.pools[p]).0]
              && id in s'.held && OthersSame(id, s, s') && HandedOut(s', id)
              && (id !in s.live ==> FutureAt(s', id) == Some(script) && LeafAt(s', id).None?)
  {
  }

  lemma SegmentNotQueued(s: State, id: Id)
    requires QueueInv(s) && id in s.segment
    ensures id !in s.queue
  {
    assert id in multiset(s.segment);
    assert Queued(s)[id] <= 1;
    assert id !in multiset(s.queue);
  }

  /** What completing changes, and that it frees a slot that is not free and finds `spawned` > 0. */
  lemma CompleteIsSound(s: State)
    requires Reachable(s) && CanComplete(s)
    ensures var s', id := DoComplete(s), s.polling.value;
            && s.spawned > 0 && id.pool < |s.pools|
            && id.index < s.pools[id.pool].used && id.index !in s.pools[id.pool].free
            && OthersSame(id, s, s') && FutureAt(s', id).None? && LeafAt(s', id).None? && !HandedOut(s', id)
            && s'.pools == s.pools[id.pool := PoolGive(s.pools[id.pool], id.index)]
            && s'.queue == s.queue && s'.segment == s.segment && s'.spawned == s.spawned - 1
            && s'.ring == s.ring && s'.reqQueued == s.reqQueued && s'.nextTicket == s.nextTicket
            && s'.polling.None? && DrainKeeps(s, s')
  {
    hide QueueInv, RingInv, LeafInv, SerialInv, PoolInv, CountInv;
    NoFault(s);
    PoolGains(s);
    SpawnedIsPositive(s);
  }

  lemma SpawnedIsPositive(s: State)
    requires CountInv(s) && Polls(s)
    ensures s.spawned > 0
  {
    assert s.polling.value in s.live;
  }

  /** A spawn is a preparation, a spawn and a change of the spawner's script. */
  lemma BranchSteps(s: State)
    requires Reachable(s) && CanBranch(s)
    ensures var s', t := DoBranch(s), Polled(s);
            && s'.polling == s.polling && s'.segment == s.segment && Polls(s') && t.leaf.None?
            && DrainKeeps(s, s')
            && match Candidate(s, t.script.pool)
               case None =>
                 && DoPrepare(s, t.script.pool, t.script.child) == s
                 && s' == SetPolled(s, t.(script := t.script.onFull, leaf := None))
               case Some(c) =>
                 && c in DoPrepare(s, t.script.pool, t.script.child).held
                 && var s1 := DoSpawn(DoPrepare(s, t.script.pool, t.script.child), c);
                 && Polls(s1) && s1.polling == s.polling && Polled(s1) == t
                 && s' == SetPolled(s1, t.(script := t.script.onSpawned, leaf := None))
  {
    NoFault(s);
    hide QueueInv, RingInv, PoolInv, SerialInv, CountInv;
    assert LeafOk(s, s.polling.value, Polled(s));
    if Candidate(s, Polled(s).script.pool).Some? {
      PoolTakes(s, Polled(s).script.pool, Polled(s).script.child);
    }
  }

  /** What a poll of the leaf can do. */
  lemma PollSteps(s: State)
    requires Reachable(s) && Polls(s) && Polled(s).script.Await?
    ensures Answered(Polled(s)) ==>
              var s' := DoResume(s);
              && s' == SetPolled(s, Polled(s).(script := if Polled(s).leaf.value.returnVal.value < 0
                                                         then Polled(s).script.onErr else Polled(s).script.onOk,
                                               leaf := None))
              && Polls(s') && DrainKeeps(s, s') && Total(s'.live) < Total(s.live)
    ensures !Answered(Polled(s)) ==>
              var s' := DoSubmit(s);
              && s'.polling.None? && s'.segment == s.segment && DrainKeeps(s, s')
              && (Total(s'.live) < Total(s.live) || (Total(s'.live) == Total(s.live) && !CanPush(s'.ring)))
  {
    NoFault(s);
    hide RingInv, LeafInv, PoolInv, SerialInv, CountInv;
    if Answered(Polled(s)) {
      ResumeSpends(s);
    } else {
      SubmitSpends(s);
      PushCounts(s.ring, Req(s.polling.value, s.nextTicket, Polled(s).script.op));
    }
  }

  lemma StartReachable(sizes: seq<nat>, cap: nat)
    ensures Reachable(Start(sizes, cap))
  {
    assert Legal(Start(sizes, cap), []) && Exec(Start(sizes, cap), []) == Start(sizes, cap);
  }

  /** What submitting changes, and that waking the task after a failed push is sound. */
  lemma SubmitIsSound(s: State)
    requires Inv(s) && CanSubmit(s)
    ensures var s', id := DoSubmit(s), s.polling.value;
            && OthersSame(id, s, s') && id in s'.live && FutureAt(s', id) == FutureAt(s, id)
            && s'.segment == s.segment && s'.pools == s.pools && s'.spawned == s.spawned
            && s'.reqQueued == s.reqQueued + 1
            && (if CanPush(s.ring) then
                  && s'.ring == Push(s.ring, Req(id, s.nextTicket, Polled(s).script.op))
                  && s'.nextTicket == s.nextTicket + 1 && s'.queue == s.queue
                  && LeafAt(s', id) == Some(Request(Some(s.nextTicket), None, Some(id)))
                else
                  && s'.ring == s.ring && s'.nextTicket == s.nextTicket && s'.queue == [id] + s.queue
                  && LeafAt(s', id) == Some(Request(None, None, Some(id)))
                  && id !in s.queue && id !in s.segment)
  {
    hide RingInv, LeafInv, PoolInv, SerialInv, CountInv;
    QueueSubmits(s);
  }

  lemma SpawnIsSound(s: State, id: Id)
    requires Inv(s) && id in s.held
    ensures id !in s.live && id !in s.queue && id !in s.segment
    ensures var s' := DoSpawn(s, id);
            && s'.queue == [id] + s.queue && s'.segment == s.segment && s'.pools == s.pools
            && s'.spawned == s.spawned + 1 && s'.ring == s.ring
            && s'.reqQueued == s.reqQueued && s'.nextTicket == s.nextTicket
            && OthersSame(id, s, s') && FutureAt(s', id) == FutureAt(s, id) && LeafAt(s', id).None?
  {
    hide RingInv, LeafInv, SerialInv, CountInv;
    PoolSpawns(s, id);
    QueueSpawns(s, id);
  }
}
