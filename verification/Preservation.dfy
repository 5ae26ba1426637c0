/** Every step keeps the invariant.  A lemma `XKeeps` composes one lemma per conjunct that the step
    touches; the `Same` lemmas carry over the conjuncts it does not. */
module Preservation {
  import opened Types
  import opened Machine
  import opened Invariant

  // ---- conjuncts a step leaves alone ----

  lemma PoolSame(s: State, s': State)
    requires PoolInv(s)
    requires s'.pools == s.pools && s'.live.Keys == s.live.Keys && s'.held == s.held
    ensures PoolInv(s')
  {
    forall p: nat | p < |s'.pools| ensures PoolOk(s', p) {
      assert PoolOk(s, p);
    }
  }

  lemma SerialSame(s: State, s': State)
    requires SerialInv(s)
    requires s'.finished == s.finished && s'.nextSerial == s.nextSerial && s'.live.Keys == s.live.Keys
    requires forall id <- s.live :: s'.live[id].serial == s.live[id].serial
    ensures SerialInv(s')
  {
    assert |s'.live| == |s'.live.Keys| == |s.live.Keys| == |s.live|;
  }

  lemma QueueSame(s: State, s': State)
    requires QueueInv(s)
    requires Queued(s') == Queued(s) && s'.polling == s.polling && s'.live.Keys == s.live.Keys
    requires forall id <- s.live :: Waiting(s'.live[id]) == Waiting(s.live[id])
    ensures QueueInv(s')
  {
    assert forall i :: Runnable(s', i) <==> Runnable(s, i);
  }

  /** A task that does not wait, before and after, may change: the ring does not know it. */
  lemma RingSame(s: State, s': State)
    requires RingInv(s)
    requires Outstanding(s'.ring) == Outstanding(s.ring)
    requires forall id :: id in s.live && Waiting(s.live[id]) ==> id in s'.live && s'.live[id] == s.live[id]
    requires forall id :: id in s'.live && Waiting(s'.live[id]) ==> id in s.live && s'.live[id] == s.live[id]
    ensures RingInv(s')
  {
    assert forall e: Entry :: WaitsFor(s', e) <==> WaitsFor(s, e);
  }

  lemma LeafSame(s: State, s': State)
    requires LeafInv(s)
    requires s'.delivered == s.delivered && s'.nextTicket == s.nextTicket
    requires forall id :: id in s'.live ==> s'.live[id].leaf.None? || (id in s.live && s'.live[id] == s.live[id])
    ensures LeafInv(s')
  {
    forall id | id in s'.live ensures LeafOk(s', id, s'.live[id]) {
      assert s'.live[id].leaf.Some? ==> LeafOk(s, id, s.live[id]);
    }
  }

  /** Nothing but the ring's stages, the queue's split or a counter changed. */
  lemma TasksSame(s: State, s': State)
    requires Inv(s)
    requires s'.live == s.live && s'.held == s.held && s'.pools == s.pools && s'.polling == s.polling
    requires Queued(s') == Queued(s)
    requires forall e: Entry | e.Req? :: Outstanding(s'.ring)[e] == Outstanding(s.ring)[e]
    requires s'.delivered == s.delivered && s'.nextTicket == s.nextTicket
    requires s'.finished == s.finished && s'.nextSerial == s.nextSerial
    requires !s'.fault && CountInv(s')
    ensures Inv(s')
  {
    hide QueueInv, LeafInv, PoolInv, SerialInv, CountInv;
    assert forall e: Entry :: WaitsFor(s', e) <==> WaitsFor(s, e);
    QueueSame(s, s');
    LeafSame(s, s');
    PoolSame(s, s');
    SerialSame(s, s');
  }

  // ---- the queue ----

  /** `id` becomes runnable and is pushed. */
  lemma QueueGains(s: State, s': State, id: Id)
    requires QueueInv(s) && !Runnable(s, id) && Runnable(s', id)
    requires s'.queue == [id] + s.queue && s'.segment == s.segment
    requires s'.polling == s.polling || (s.polling == Some(id) && s'.polling.None?)
    requires s'.live.Keys == s.live.Keys + {id}
    requires forall i <- s.live | i != id :: s'.live[i] == s.live[i]
    ensures QueueInv(s')
    ensures id !in s.queue && id !in s.segment
  {
    assert Queued(s)[id] == 0;
    assert id !in multiset(s.queue) && id !in multiset(s.segment);
    assert Queued(s') == Queued(s) + multiset{id};
    forall i ensures Queued(s')[i] == if Runnable(s', i) then 1 else 0 {
      assert i != id ==> (Runnable(s', i) <==> Runnable(s, i));
      assert Queued(s)[i] == if Runnable(s, i) then 1 else 0;
    }
  }

  lemma QueueVisits(s: State)
    requires QueueInv(s) && s.polling.None? && s.segment != []
    ensures QueueInv(DoVisit(s)) && s.segment[0] in s.live
  {
    var s' := DoVisit(s);
    var id := s.segment[0];
    assert s.segment == [id] + s'.segment;
    assert Queued(s) == Queued(s') + multiset{id};
    assert Queued(s)[id] == 1 && Runnable(s, id);
    assert forall i :: Runnable(s', i) <==> Runnable(s, i) && i != id;
  }

  /** The polled task leaves `poll` by waiting or by finishing. */
  lemma QueueReleases(s: State, s': State, id: Id)
    requires QueueInv(s) && s.polling == Some(id)
    requires s'.queue == s.queue && s'.segment == s.segment && s'.polling.None?
    requires s'.live.Keys - {id} == s.live.Keys - {id}
    requires forall i <- s.live | i != id :: i in s'.live && s'.live[i] == s.live[i]
    requires id in s'.live ==> Waiting(s'.live[id])
    ensures QueueInv(s')
  {
    forall i ensures Runnable(s', i) <==> Runnable(s, i) {
      assert i != id ==> (i in s'.live <==> i in s'.live.Keys - {id});
      assert i != id ==> (i in s.live <==> i in s.live.Keys - {id});
    }
  }

  // ---- pool steps ----

  lemma PoolTakes(s: State, p: nat, f: Script)
    requires PoolInv(s) && Candidate(s, p).Some?
    ensures var id := Candidate(s, p).value;
            id !in s.live && id !in s.held && PoolInv(DoPrepare(s, p, f))
  {
    var s' := DoPrepare(s, p, f);
    var id := Candidate(s, p).value;
    var pool, pool' := s.pools[p], s'.pools[p];
    assert PoolOk(s, p);
    if pool.used < pool.size {
      assert multiset(pool.free)[id.index] == 0;
      assert !InUse(s, id);
    } else {
      assert pool.free == [id.index] + pool'.free;
      assert multiset(pool.free)[id.index] == 1;
      assert multiset(pool.free) == multiset(pool'.free) + multiset{id.index};
    }
    forall q: nat | q < |s'.pools| ensures PoolOk(s', q) {
      assert PoolOk(s, q);
    }
    assert forall i :: InUse(s, i) ==> InUse(s', i);
    assert InUse(s', id);
  }

  lemma PrepareKeeps(s: State, p: nat, f: Script)
    requires Inv(s)
    ensures Inv(DoPrepare(s, p, f))
  {
    hide QueueInv, RingInv, LeafInv, PoolInv, SerialInv;
    if Candidate(s, p).Some? {
      var s' := DoPrepare(s, p, f);
      PoolTakes(s, p, f);
      QueueSame(s, s');
      RingSame(s, s');
      LeafSame(s, s');
      SerialSame(s, s');
    }
  }

  lemma PoolSpawns(s: State, id: Id)
    requires PoolInv(s) && id in s.held
    ensures PoolInv(DoSpawn(s, id)) && id !in s.live
  {
    var s' := DoSpawn(s, id);
    forall q: nat | q < |s'.pools| ensures PoolOk(s', q) {
      assert PoolOk(s, q);
    }
  }

  lemma QueueSpawns(s: State, id: Id)
    requires QueueInv(s) && id in s.held && id !in s.live
    ensures QueueInv(DoSpawn(s, id))
    ensures id !in s.queue && id !in s.segment
  {
    QueueGains(s, DoSpawn(s, id), id);
  }

  lemma SerialSpawns(s: State, id: Id)
    requires SerialInv(s) && id in s.held && id !in s.live
    ensures SerialInv(DoSpawn(s, id))
    ensures |DoSpawn(s, id).live| == |s.live| + 1
  {
  }

  lemma SpawnKeeps(s: State, id: Id)
    requires Inv(s) && id in s.held
    ensures Inv(DoSpawn(s, id))
  {
    hide QueueInv, RingInv, LeafInv, PoolInv, SerialInv;
    var s' := DoSpawn(s, id);
    PoolSpawns(s, id);
    SerialSpawns(s, id);
    QueueSpawns(s, id);
    RingSame(s, s');
    LeafSame(s, s');
  }

  // ---- drain steps ----

  lemma BeginDrainKeeps(s: State)
    requires Inv(s) && Between(s)
    ensures Inv(DoBeginDrain(s))
  {
    TasksSame(s, DoBeginDrain(s));
  }

  lemma VisitKeeps(s: State)
    requires Inv(s) && s.polling.None? && s.segment != []
    ensures Inv(DoVisit(s))
  {
    hide QueueInv, RingInv, LeafInv, PoolInv, SerialInv;
    var s' := DoVisit(s);
    QueueVisits(s);
    PoolSame(s, s');
    SerialSame(s, s');
    LeafSame(s, s');
    RingSame(s, s');
  }

  // ---- poll steps ----

  lemma ResumeKeeps(s: State)
    requires Inv(s) && CanResume(s)
    ensures Inv(DoResume(s))
  {
    hide QueueInv, RingInv, LeafInv, PoolInv, SerialInv;
    var s' := DoResume(s);
    assert s'.live.Keys == s.live.Keys;
    QueueSame(s, s');
    RingSame(s, s');
    LeafSame(s, s');
    PoolSame(s, s');
    SerialSame(s, s');
  }

  /** The polled task's leaf gets a new ticket, or none. */
  lemma LeafArms(s: State, s': State, id: Id, ticket: Option<nat>)
    requires LeafInv(s) && id in s.live && s.live[id].script.Await?
    requires s'.live == s.live[id := s.live[id].(leaf := Some(Request(ticket, None, Some(id))))]
    requires s'.delivered == s.delivered
    requires match ticket case None => s'.nextTicket == s.nextTicket
                          case Some(k) => k == s.nextTicket && s'.nextTicket == s.nextTicket + 1
    ensures LeafInv(s')
  {
    forall i | i in s.live ensures LeafOk(s', i, s'.live[i]) {
      assert LeafOk(s, i, s.live[i]);
    }
  }

  lemma LeafSubmits(s: State)
    requires LeafInv(s) && CanSubmit(s)
    ensures LeafInv(DoSubmit(s))
  {
    hide LeafInv;
    LeafArms(s, DoSubmit(s), s.polling.value, if CanPush(s.ring) then Some(s.nextTicket) else None);
  }

  lemma RingSubmits(s: State)
    requires RingInv(s) && LeafInv(s) && QueueInv(s) && CanSubmit(s) && CanPush(s.ring)
    ensures RingInv(DoSubmit(s))
  {
    var s' := DoSubmit(s);
    var id := s.polling.value;
    var e := Req(id, s.nextTicket, s.live[id].script.op);
    PushAdds(s.ring, e);
    assert !WaitsFor(s, e);
    assert forall x: Entry :: WaitsFor(s', x) <==> WaitsFor(s, x) || x == e;
  }

  lemma RingFails(s: State)
    requires RingInv(s) && QueueInv(s) && CanSubmit(s) && !CanPush(s.ring)
    ensures RingInv(DoSubmit(s))
  {
    RingSame(s, DoSubmit(s));
  }

  lemma QueueSubmits(s: State)
    requires QueueInv(s) && CanSubmit(s)
    ensures QueueInv(DoSubmit(s))
    ensures !CanPush(s.ring) ==> s.polling.value !in s.queue && s.polling.value !in s.segment
  {
    var s' := DoSubmit(s);
    var id := s.polling.value;
    assert s'.live.Keys == s.live.Keys;
    if CanPush(s.ring) {
      QueueReleases(s, s', id);
    } else {
      QueueGains(s, s', id);
    }
  }

  lemma CountSubmits(s: State)
    requires CountInv(s) && CanSubmit(s)
    ensures CountInv(DoSubmit(s))
  {
    var s' := DoSubmit(s);
    PushCounts(s.ring, Req(s.polling.value, s.nextTicket, Polled(s).script.op));
    assert |s'.live| == |s'.live.Keys| == |s.live.Keys| == |s.live|;
  }

  lemma SubmitKeeps(s: State)
    requires Inv(s) && CanSubmit(s)
    ensures Inv(DoSubmit(s))
  {
    hide QueueInv, RingInv, LeafInv, PoolInv, SerialInv, CountInv;
    var s' := DoSubmit(s);
    assert s'.live.Keys == s.live.Keys;
    LeafSubmits(s);
    QueueSubmits(s);
    CountSubmits(s);
    PoolSame(s, s');
    SerialSame(s, s');
    if CanPush(s.ring) {
      RingSubmits(s);
    } else {
      RingFails(s);
    }
  }

  lemma PoolGains(s: State)
    requires PoolInv(s) && CanComplete(s)
    ensures PoolInv(DoComplete(s))
    ensures var id := s.polling.value; InUse(s, id) && id.index !in s.pools[id.pool].free && id !in s.held
  {
    var s' := DoComplete(s);
    var id := s.polling.value;
    assert PoolOk(s, id.pool);
    assert multiset(s.pools[id.pool].free)[id.index] == 0;
    forall q: nat | q < |s'.pools| ensures PoolOk(s', q) {
      assert PoolOk(s, q);
      if q == id.pool {
        assert multiset(s'.pools[q].free) == multiset(s.pools[q].free) + multiset{id.index};
      }
    }
    assert forall i :: InUse(s, i) ==> InUse(s', i);
  }

  lemma SerialCompletes(s: State)
    requires SerialInv(s) && CanComplete(s)
    ensures SerialInv(DoComplete(s))
    ensures |DoComplete(s).live| == |s.live| - 1
  {
    var s' := DoComplete(s);
    var id := s.polling.value;
    assert s.live == s'.live[id := s.live[id]];
  }

  lemma QueueCompletes(s: State)
    requires QueueInv(s) && CanComplete(s)
    ensures QueueInv(DoComplete(s))
  {
    QueueReleases(s, DoComplete(s), s.polling.value);
  }

  lemma RingCompletes(s: State)
    requires RingInv(s) && QueueInv(s) && CanComplete(s)
    ensures RingInv(DoComplete(s))
  {
    RingSame(s, DoComplete(s));
  }

  lemma CompleteKeeps(s: State)
    requires Inv(s) && CanComplete(s)
    ensures Inv(DoComplete(s))
  {
    hide QueueInv, RingInv, LeafInv, PoolInv, SerialInv;
    PoolGains(s);
    SerialCompletes(s);
    QueueCompletes(s);
    LeafSame(s, DoComplete(s));
    RingCompletes(s);
  }

  /** Choosing the branch of a spawn touches the script of the polled task only. */
  lemma ScriptKeeps(s: State, f: Script)
    requires Inv(s) && Polls(s) && Polled(s).leaf.None?
    ensures Inv(SetPolled(s, Polled(s).(script := f)))
  {
    hide QueueInv, RingInv, LeafInv, PoolInv, SerialInv;
    var s' := SetPolled(s, Polled(s).(script := f));
    assert s'.live.Keys == s.live.Keys;
    QueueSame(s, s');
    RingSame(s, s');
    LeafSame(s, s');
    PoolSame(s, s');
    SerialSame(s, s');
  }

  lemma BranchKeeps(s: State)
    requires Inv(s) && CanBranch(s)
    ensures Inv(DoBranch(s))
  {
    var t := Polled(s);
    assert LeafOk(s, s.polling.value, t);
    var p := DoPrepare(s, t.script.pool, t.script.child);
    PrepareKeeps(s, t.script.pool, t.script.child);
    match Candidate(s, t.script.pool)
    case None =>
      ScriptKeeps(p, t.script.onFull);
    case Some(c) =>
      PoolTakes(s, t.script.pool, t.script.child);
      SpawnKeeps(p, c);
      ScriptKeeps(DoSpawn(p, c), t.script.onSpawned);
  }

  // ---- reactor steps ----

  lemma KernelKeeps(s: State, m: Move)
    requires Inv(s)
    ensures Inv(DoKernel(s, m))
  {
    KernelConserves(s.ring, m);
    TasksSame(s, DoKernel(s, m));
  }

  lemma PushTimeoutKeeps(s: State)
    requires Inv(s)
    ensures Inv(DoPushTimeout(s))
  {
    hide QueueInv, RingInv, LeafInv, PoolInv, SerialInv;
    PushAdds(s.ring, Timeout);
    PushCounts(s.ring, Timeout);
    TasksSame(s, DoPushTimeout(s));
  }

  lemma SettleKeeps(s: State)
    requires Inv(s)
    ensures Inv(DoSettle(s))
  {
    TasksSame(s, DoSettle(s));
  }

  /** The consumed request is the one its owner waits for, so the write and the wake are sound. */
  lemma DeliverTarget(s: State)
    requires RingInv(s) && LeafInv(s) && s.ring.cq != [] && s.ring.cq[0].entry.Req?
    ensures var e := s.ring.cq[0].entry;
            && WaitsFor(s, e) && s.live[e.owner].leaf.value.waker == Some(e.owner)
            && e.ticket !in s.delivered
  {
    var e := s.ring.cq[0].entry;
    ConsumeRemoves(s.ring);
    assert WaitsFor(s, e);
    assert LeafOk(s, e.owner, s.live[e.owner]);
  }

  lemma LeafDelivers(s: State)
    requires LeafInv(s) && s.ring.cq != [] && s.ring.cq[0].entry.Req?
    requires WaitsFor(s, s.ring.cq[0].entry) && s.live[s.ring.cq[0].entry.owner].leaf.value.waker.Some?
    ensures LeafInv(DoDeliver(s))
  {
    var e := s.ring.cq[0].entry;
    var s' := DoDeliver(s);
    assert LeafOk(s, e.owner, s.live[e.owner]);
    forall i | i in s'.live ensures LeafOk(s', i, s'.live[i]) {
      assert LeafOk(s, i, s.live[i]);
    }
  }

  lemma RingDelivers(s: State)
    requires RingInv(s) && s.ring.cq != [] && s.ring.cq[0].entry.Req?
    requires WaitsFor(s, s.ring.cq[0].entry) && s.live[s.ring.cq[0].entry.owner].leaf.value.waker.Some?
    ensures RingInv(DoDeliver(s))
  {
    var e := s.ring.cq[0].entry;
    var s' := DoDeliver(s);
    ConsumeRemoves(s.ring);
    assert forall x: Entry :: WaitsFor(s', x) <==> WaitsFor(s, x) && x != e;
  }

  lemma QueueDelivers(s: State)
    requires QueueInv(s) && Between(s) && s.ring.cq != [] && s.ring.cq[0].entry.Req?
    requires WaitsFor(s, s.ring.cq[0].entry)
    requires s.live[s.ring.cq[0].entry.owner].leaf.value.waker == Some(s.ring.cq[0].entry.owner)
    ensures QueueInv(DoDeliver(s))
    ensures s.ring.cq[0].entry.owner !in s.queue
  {
    var s' := DoDeliver(s);
    assert s'.live.Keys == s.live.Keys;
    QueueGains(s, s', s.ring.cq[0].entry.owner);
  }

  lemma TimeoutKeeps(s: State)
    requires Inv(s) && s.ring.cq != [] && s.ring.cq[0].entry.Timeout?
    ensures Inv(DoDeliver(s))
  {
    hide QueueInv, RingInv, LeafInv, PoolInv, SerialInv;
    ConsumeCounts(s.ring);
    ConsumeRemoves(s.ring);
    TasksSame(s, DoDeliver(s));
  }

  lemma CountDelivers(s: State)
    requires CountInv(s) && s.ring.cq != [] && s.ring.cq[0].entry.Req?
    requires WaitsFor(s, s.ring.cq[0].entry) && s.live[s.ring.cq[0].entry.owner].leaf.value.waker.Some?
    requires s.ring.cq[0].entry.ticket !in s.delivered
    ensures CountInv(DoDeliver(s))
  {
    ConsumeCounts(s.ring);
    var s' := DoDeliver(s);
    assert s'.live.Keys == s.live.Keys;
    assert |s'.live| == |s'.live.Keys| == |s.live.Keys| == |s.live|;
  }

  lemma DeliverKeeps(s: State)
    requires Inv(s) && Between(s) && s.ring.cq != []
    ensures Inv(DoDeliver(s))
  {
    hide QueueInv, RingInv, LeafInv, PoolInv, SerialInv;
    hide CountInv;
    var s' := DoDeliver(s);
    if s.ring.cq[0].entry.Timeout? {
      TimeoutKeeps(s);
    } else {
      DeliverTarget(s);
      assert s'.live.Keys == s.live.Keys;
      CountDelivers(s);
      LeafDelivers(s);
      RingDelivers(s);
      QueueDelivers(s);
      PoolSame(s, s');
      SerialSame(s, s');
    }
  }

  // ---- every step, every run ----

  /** The invariant is inductive. */
  lemma StepKeeps(s: State, e: Event)
    requires Inv(s) && Enabled(s, e)
    ensures Inv(Apply(s, e))
  {
    match e
    case EvPrepare(p, f) => PrepareKeeps(s, p, f);
    case EvSpawn(id) => SpawnKeeps(s, id);
    case EvBeginDrain => BeginDrainKeeps(s);
    case EvVisit => VisitKeeps(s);
    case EvResume => ResumeKeeps(s);
    case EvSubmit => SubmitKeeps(s);
    case EvBranch => BranchKeeps(s);
    case EvComplete => CompleteKeeps(s);
    case EvKernel(m) => KernelKeeps(s, m);
    case EvPushTimeout => PushTimeoutKeeps(s);
    case EvDeliver => DeliverKeeps(s);
    case EvSettle => SettleKeeps(s);
  }
}
