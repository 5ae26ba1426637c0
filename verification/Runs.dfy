/** What the invariant says about whole runs. */
module Runs {
  import opened Types
  import opened Machine
  import opened Invariant
  import opened Preservation

  // ---- runs ----

  lemma StartInv(sizes: seq<nat>, cap: nat)
    ensures Inv(Start(sizes, cap))
  {
    var s := Start(sizes, cap);
    assert EntriesOf([]) == [];
    assert Outstanding(s.ring) == multiset{};
    forall p: nat | p < |s.pools| ensures PoolOk(s, p) {
    }
  }

  lemma {:induction false} RunKeeps(s: State, run: seq<Event>)
    requires Inv(s) && Legal(s, run)
    ensures Inv(Exec(s, run))
    decreases |run|
  {
    if run != [] {
      StepKeeps(s, run[0]);
      RunKeeps(Apply(s, run[0]), run[1..]);
    }
  }

  /** No run of the machine breaks an unwritten assumption of the code. */
  lemma NoFault(s: State)
    requires Reachable(s)
    ensures Inv(s) && !s.fault
  {
    var sizes: seq<nat>, cap: nat, run: seq<Event> :|
      Legal(Start(sizes, cap), run) && Exec(Start(sizes, cap), run) == s;
    StartInv(sizes, cap);
    RunKeeps(Start(sizes, cap), run);
  }

  lemma {:induction false} ExecConcat(s: State, run: seq<Event>, more: seq<Event>)
    requires Legal(s, run) && Legal(Exec(s, run), more)
    ensures Legal(s, run + more) && Exec(s, run + more) == Exec(Exec(s, run), more)
    decreases |run|
  {
    if run == [] {
      assert run + more == more;
    } else {
      ExecConcat(Apply(s, run[0]), run[1..], more);
      assert (run + more)[1..] == run[1..] + more;
    }
  }

  lemma OneStep(s: State, e: Event)
    requires Enabled(s, e)
    ensures Legal(s, [e]) && Exec(s, [e]) == Apply(s, e)
  {
    assert [e][1..] == [];
    assert Legal(s, [e]) && Exec(s, [e]) == Exec(Apply(s, e), []) == Apply(s, e);
  }

  lemma ReachableStep(s: State, e: Event)
    requires Reachable(s) && Enabled(s, e)
    ensures Reachable(Apply(s, e))
  {
    var sizes: seq<nat>, cap: nat, run: seq<Event> :|
      Legal(Start(sizes, cap), run) && Exec(Start(sizes, cap), run) == s;
    OneStep(s, e);
    ExecConcat(Start(sizes, cap), run, [e]);
  }

  lemma ReachableRun(s: State, run: seq<Event>)
    requires Reachable(s) && Legal(s, run)
    ensures Reachable(Exec(s, run))
  {
    var sizes: seq<nat>, cap: nat, past: seq<Event> :|
      Legal(Start(sizes, cap), past) && Exec(Start(sizes, cap), past) == s;
    ExecConcat(Start(sizes, cap), past, run);
  }

  /** No drain starts in `run`. */
  ghost predicate NoBegin(run: seq<Event>) {
    forall e <- run :: !e.EvBeginDrain?
  }

  /** Nothing is prepared or spawned from outside the tasks. */
  ghost predicate NoOutside(run: seq<Event>) {
    forall e <- run :: !e.EvPrepare? && !e.EvSpawn?
  }

  /** A run without a new drain leads from `s` to `s'`. */
  ghost predicate Leads(s: State, s': State) {
    exists run :: Legal(s, run) && NoBegin(run) && NoOutside(run) && Exec(s, run) == s'
  }

  /** A run of any steps leads from `s` to `s'`. */
  ghost predicate LeadsTo(s: State, s': State) {
    exists run :: Legal(s, run) && Exec(s, run) == s'
  }

  lemma LeadsToItself(s: State)
    ensures LeadsTo(s, s)
  {
    assert Legal(s, []) && Exec(s, []) == s;
  }

  lemma LeadsToOn(s: State, s1: State, s2: State)
    requires LeadsTo(s, s1) && LeadsTo(s1, s2)
    ensures LeadsTo(s, s2)
  {
    var a :| Legal(s, a) && Exec(s, a) == s1;
    var b :| Legal(s1, b) && Exec(s1, b) == s2;
    ExecConcat(s, a, b);
  }

  lemma LeadsToStep(s: State, s1: State, e: Event)
    requires LeadsTo(s, s1) && Enabled(s1, e)
    ensures LeadsTo(s, Apply(s1, e))
  {
    OneStep(s1, e);
    LeadsToOn(s, s1, Apply(s1, e));
  }

  lemma LeadsNowhere(s: State)
    ensures Leads(s, s)
  {
    assert Legal(s, []) && NoBegin([]) && NoOutside([]) && Exec(s, []) == s;
  }

  lemma LeadsOn(s: State, s1: State, s2: State)
    requires Leads(s, s1) && Leads(s1, s2)
    ensures Leads(s, s2)
  {
    var a :| Legal(s, a) && NoBegin(a) && NoOutside(a) && Exec(s, a) == s1;
    var b :| Legal(s1, b) && NoBegin(b) && NoOutside(b) && Exec(s1, b) == s2;
    ExecConcat(s, a, b);
    assert NoBegin(a + b) && NoOutside(a + b);
  }

  lemma LeadsStep(s: State, s1: State, e: Event)
    requires Leads(s, s1) && Enabled(s1, e) && !e.EvBeginDrain? && !e.EvPrepare? && !e.EvSpawn?
    ensures Leads(s, Apply(s1, e))
  {
    OneStep(s1, e);
    assert NoBegin([e]) && NoOutside([e]);
    LeadsOn(s, s1, Apply(s1, e));
  }

  // ---- every unfinished task is in exactly one place ----

  /** `e` is outstanding and completing it would wake the task in slot `id`. */
  ghost predicate PendingFor(s: State, id: Id, e: Entry) {
    e in Outstanding(s.ring) && e.Req? && e.owner == id
  }

  /** A live task that is not being polled sits in the run queue once, or in the segment once, or
      waits for the one outstanding request of its slot; a slot without a task is nowhere. */
  lemma OnePlace(s: State, id: Id)
    requires Reachable(s)
    ensures id in s.live && s.polling != Some(id) ==>
              multiset(s.queue)[id] + multiset(s.segment)[id]
              + (if exists e :: PendingFor(s, id, e) then 1 else 0) == 1
    ensures id !in s.live || s.polling == Some(id) ==>
              id !in s.queue && id !in s.segment && !exists e :: PendingFor(s, id, e)
    ensures forall e, e' :: PendingFor(s, id, e) && PendingFor(s, id, e') ==> e == e' && Outstanding(s.ring)[e] == 1
  {
    NoFault(s);
    assert Queued(s)[id] == multiset(s.queue)[id] + multiset(s.segment)[id];
    assert id in multiset(s.queue) <==> id in s.queue;
    assert id in multiset(s.segment) <==> id in s.segment;
    assert forall e :: PendingFor(s, id, e) ==> WaitsFor(s, e);
    if id in s.live && Waiting(s.live[id]) {
      var t := s.live[id];
      assert LeafOk(s, id, t);
      var e := Req(id, t.leaf.value.ticket.value, t.script.op);
      assert WaitsFor(s, e);
      assert Outstanding(s.ring)[e] == 1;
      assert PendingFor(s, id, e);
    }
  }

  /** Only `drain` takes tasks off the run queue or the segment; every other step pushes at most. */
  lemma StepQueue(s: State, e: Event)
    requires Enabled(s, e) && !e.EvBeginDrain?
    ensures var s' := Apply(s, e);
            && s.segment == (if e.EvVisit? then [s.segment[0]] else []) + s'.segment
            && (s'.queue == s.queue || (s'.queue != [] && s'.queue[1..] == s.queue))
            && (e.EvVisit? ==> s'.queue == s.queue)
  {
    if e.EvBranch? {
      BranchQueue(s);
    }
  }

  lemma BranchQueue(s: State)
    requires CanBranch(s)
    ensures var s' := DoBranch(s);
            s'.segment == s.segment && (s'.queue == s.queue || (s'.queue != [] && s'.queue[1..] == s.queue))
  {
  }

  lemma AtMostOnce(s: State, id: Id, rest: seq<Id>)
    requires QueueInv(s) && s.queue == [id] + rest
    ensures id !in rest && id !in s.segment
  {
    assert Queued(s)[id] <= 1;
    assert Queued(s) == multiset(rest) + multiset(s.segment) + multiset{id};
    assert id !in multiset(rest) && id !in multiset(s.segment);
  }

  /** The comment on `enqueue`, for every step of every run that pushes a task. */
  lemma EnqueuedOnce(s: State, e: Event, id: Id)
    requires Reachable(s) && Enabled(s, e)
    requires Apply(s, e).queue == [id] + s.queue
    ensures id !in s.queue && id !in s.segment
  {
    hide QueueInv, RingInv, LeafInv, PoolInv, SerialInv, CountInv;
    NoFault(s);
    StepKeeps(s, e);
    AtMostOnce(Apply(s, e), id, s.queue);
    if !e.EvBeginDrain? {
      StepQueue(s, e);
    }
  }

  /** A leaf is polled without a result only when its slot has nothing outstanding. */
  lemma NoDuplicateSubmission(s: State, e: Entry)
    requires Reachable(s) && CanSubmit(s)
    ensures !PendingFor(s, s.polling.value, e)
  {
    OnePlace(s, s.polling.value);
  }

  // ---- pools ----

  /** `prepare_task` picks a slot that is not handed out, and fails exactly when all are. */
  lemma PrepareExact(s: State, p: nat)
    requires Reachable(s) && p < |s.pools|
    ensures Candidate(s, p).None? <==> forall i: nat :: i < s.pools[p].size ==> HandedOut(s, Id(p, i))
    ensures Candidate(s, p).Some? ==>
              && Candidate(s, p).value.pool == p && Candidate(s, p).value.index < s.pools[p].size
              && !HandedOut(s, Candidate(s, p).value)
  {
    NoFault(s);
    var pool := s.pools[p];
    assert PoolOk(s, p);
    if Candidate(s, p).Some? {
      PoolTakes(s, p, Finish);
      if pool.used == pool.size {
        assert pool.free[0] in multiset(pool.free);
      }
    } else {
      forall i: nat | i < pool.size ensures HandedOut(s, Id(p, i)) {
        assert multiset(pool.free)[i] == 0;
      }
    }
  }

  /** A slot is recycled only after every slot of the pool has been used. */
  lemma RecycledLast(s: State, p: nat)
    requires Reachable(s) && p < |s.pools| && Candidate(s, p).Some?
    ensures Candidate(s, p).value.index in s.pools[p].free <==>
              forall i: nat :: i < s.pools[p].size ==> InUse(s, Id(p, i))
    ensures Candidate(s, p).value.index in s.pools[p].free ==> Candidate(s, p).value.index == s.pools[p].free[0]
  {
    NoFault(s);
    assert PoolOk(s, p);
    var pool := s.pools[p];
    if pool.used < pool.size {
      assert !InUse(s, Id(p, pool.used));
      assert multiset(pool.free)[pool.used] == 0;
    }
  }

  /** Never-used, free and handed-out slots are a partition of the pool. */
  lemma PoolPartition(s: State, p: nat, i: nat)
    requires Reachable(s) && p < |s.pools| && i < s.pools[p].size
    ensures (if i >= s.pools[p].used then 1 else 0)
            + multiset(s.pools[p].free)[i]
            + (if HandedOut(s, Id(p, i)) then 1 else 0) == 1
  {
    NoFault(s);
    assert PoolOk(s, p);
    if i >= s.pools[p].used {
      assert !InUse(s, Id(p, i));
    }
  }

  /** The free lists and the run queue never share a task, whatever stale links the headers keep. */
  lemma FreeIsNotQueued(s: State, p: nat, i: nat)
    requires Reachable(s) && p < |s.pools| && i in s.pools[p].free
    ensures Id(p, i) !in s.queue && Id(p, i) !in s.segment && s.polling != Some(Id(p, i))
    ensures forall e :: !PendingFor(s, Id(p, i), e)
  {
    NoFault(s);
    assert PoolOk(s, p);
    assert i in multiset(s.pools[p].free);
    OnePlace(s, Id(p, i));
  }

  // ---- the submission queue ----

  lemma StepWithin(s: State, e: Event)
    requires Enabled(s, e) && |s.ring.sq| <= s.ring.cap
    ensures |Apply(s, e).ring.sq| <= Apply(s, e).ring.cap && Apply(s, e).ring.cap == s.ring.cap
  {
    hide DoBranch;
    if e.EvBranch? {
      BranchRing(s);
    }
  }

  lemma BranchRing(s: State)
    requires CanBranch(s)
    ensures DoBranch(s).ring == s.ring
  {
  }

  lemma {:induction false} RunWithin(s: State, run: seq<Event>)
    requires Legal(s, run) && |s.ring.sq| <= s.ring.cap
    ensures |Exec(s, run).ring.sq| <= s.ring.cap == Exec(s, run).ring.cap
    decreases |run|
  {
    hide Apply, Enabled;
    if run != [] {
      StepWithin(s, run[0]);
      RunWithin(Apply(s, run[0]), run[1..]);
    }
  }

  /** The submission queue never holds more than its capacity; a push fails, and the task then wakes
      itself, exactly if the queue is full. */
  lemma FailsExactlyWhenFull(s: State)
    requires Reachable(s)
    ensures |s.ring.sq| <= s.ring.cap && (CanPush(s.ring) <==> |s.ring.sq| < s.ring.cap)
    ensures CanSubmit(s) ==> (DoSubmit(s).failed == s.failed + 1 <==> |s.ring.sq| == s.ring.cap)
    ensures CanSubmit(s) ==>
              if |s.ring.sq| == s.ring.cap then DoSubmit(s).queue == [s.polling.value] + s.queue && DoSubmit(s).ring == s.ring
              else DoSubmit(s).queue == s.queue && |DoSubmit(s).ring.sq| == |s.ring.sq| + 1
  {
    var sizes: seq<nat>, cap: nat, run: seq<Event> :|
      Legal(Start(sizes, cap), run) && Exec(Start(sizes, cap), run) == s;
    RunWithin(Start(sizes, cap), run);
  }

  // ---- counters ----

  /** `spawned` counts the unfinished tasks; `req_queued`, between two passes, the outstanding
      requests and every push that ever failed. */
  lemma Counters(s: State)
    requires Reachable(s)
    ensures s.spawned == |s.live|
    ensures s.reqQueued == NumRequests(s.ring) + s.failed + s.unsettled
    ensures s.unsettled == 0 ==> (s.reqQueued > 0 <==> NumRequests(s.ring) > 0 || s.failed > 0)
  {
    NoFault(s);
  }

  // ---- the end of run ----

  lemma SegmentLive(s: State)
    requires Inv(s)
    ensures forall id <- s.segment :: id in s.live && s.polling != Some(id)
    ensures forall id <- s.queue :: id in s.live && s.polling != Some(id)
  {
    forall id | id in s.segment || id in s.queue ensures Runnable(s, id) {
      assert id in multiset(s.segment) || id in multiset(s.queue);
      assert Queued(s)[id] > 0;
    }
  }

  lemma LastIsNew(xs: seq<nat>)
    requires NoDup(xs) && xs != []
    ensures xs[|xs| - 1] !in xs[..|xs| - 1]
  {
  }

  /** `n` different numbers below `n` are all the numbers below `n`. */
  lemma {:induction false} Pigeonhole(xs: seq<nat>, n: nat)
    requires NoDup(xs) && |xs| == n && forall x <- xs :: x < n
    ensures forall k: nat :: k < n ==> k in xs
  {
    if n > 0 {
      var i := if n - 1 in xs then IndexOf(xs, n - 1) else n - 1;
      var rest := xs[..i] + xs[i + 1..];
      assert forall x <- rest :: x in xs;
      Pigeonhole(rest, n - 1);
      if n - 1 !in xs {
        assert rest == xs[..n - 1] && xs[n - 1] in xs;
        LastIsNew(xs);
        assert false;
      }
    }
  }

  ghost function IndexOf(xs: seq<nat>, x: nat): (i: nat)
    requires x in xs
    ensures i < |xs| && xs[i] == x
  {
    var i :| 0 <= i < |xs| && xs[i] == x; i
  }

  lemma QueueEmpty(s: State)
    requires QueueInv(s) && s.live == map[]
    ensures s.queue == []
  {
    forall id ensures multiset(s.queue)[id] == 0 {
      assert Queued(s)[id] == 0;
    }
    assert multiset(s.queue) == multiset{};
  }

  /** When `run` breaks out of its loop nothing is queued or outstanding, no task is left, and every
      task ever spawned was driven to Ready exactly once. */
  lemma Exit(s: State)
    requires Reachable(s) && Between(s) && s.spawned == 0
    ensures s.live == map[] && s.queue == [] && NumRequests(s.ring) == 0
    ensures NoDup(s.finished) && forall n: nat :: n in s.finished <==> n < s.nextSerial
    ensures |s.delivered| == s.nextTicket
  {
    NoFault(s);
    assert s.live == map[];
    NoWaiterNoRequest(s);
    QueueEmpty(s);
    assert SerialInv(s) && |s.finished| == s.nextSerial;
    Pigeonhole(s.finished, s.nextSerial);
  }

  lemma Somewhere(s: State, id: Id)
    requires Inv(s) && id in s.live && s.polling != Some(id)
    ensures id in s.queue || id in s.segment || NumRequests(s.ring) > 0
  {
    if Waiting(s.live[id]) {
      WaiterHasRequest(s, id);
    } else {
      assert Runnable(s, id);
      assert id in Queued(s);
      assert id in multiset(s.queue) || id in multiset(s.segment);
    }
  }

  /** Nothing queued, nothing being polled and nothing outstanding means that no task is left: a
      task can not be forgotten. */
  lemma NoLostWakeup(s: State)
    requires Reachable(s) && Between(s) && s.queue == [] && NumRequests(s.ring) == 0
    ensures s.spawned == 0 && s.live == map[]
  {
    NoFault(s);
    forall id ensures id !in s.live {
      if id in s.live {
        Somewhere(s, id);
      }
    }
  }

  /** A finished task stays finished. */
  lemma FinishedGrows(s: State, e: Event)
    requires Enabled(s, e)
    ensures s.finished <= Apply(s, e).finished
  {
  }

  /** A task that was driven to Ready is never polled again, whatever happens to its slot. */
  lemma {:induction false} NeverPolledAgain(s: State, run: seq<Event>, serial: nat)
    requires Inv(s) && Legal(s, run) && serial in s.finished
    ensures var s' := Exec(s, run); Polls(s') ==> Polled(s').serial != serial
    decreases |run|
  {
    RunKeeps(s, run);
    if run != [] {
      StepKeeps(s, run[0]);
      FinishedGrows(s, run[0]);
      NeverPolledAgain(Apply(s, run[0]), run[1..], serial);
    }
  }
}
