/** The protocol between executor, pools, leaf futures and reactor, as an inductive invariant:
    no step of any run raises `fault`. */
module Invariant {
  import opened Types
  import opened Machine

  /** How often a task sits in the run queue or in the segment still to be drained. */
  ghost function Queued(s: State): multiset<Id> {
    multiset(s.queue) + multiset(s.segment)
  }

  /** A live task that is neither being polled nor waiting for a completion. */
  ghost predicate Runnable(s: State, id: Id) {
    id in s.live && s.polling != Some(id) && !Waiting(s.live[id])
  }

  /** `e` is the request the task at `e.owner` is waiting for. */
  ghost predicate WaitsFor(s: State, e: Entry) {
    && e.Req?
    && e.owner in s.live
    && var t := s.live[e.owner];
    && Waiting(t) && t.leaf.value.ticket.value == e.ticket && t.script.Await? && t.script.op == e.op
  }

  /** Exactly the runnable tasks are queued, each once. */
  ghost predicate QueueInv(s: State) {
    && (forall id :: Queued(s)[id] == if Runnable(s, id) then 1 else 0)
    && (s.polling.Some? ==> Polls(s) && !Waiting(Polled(s)))
  }

  /** Exactly the awaited requests are outstanding, each once. */
  ghost predicate RingInv(s: State) {
    forall e: Entry :: e.Req? ==> Outstanding(s.ring)[e] == if WaitsFor(s, e) then 1 else 0
  }

  ghost predicate HasTicket(t: Task) {
    t.leaf.Some? && t.leaf.value.ticket.Some?
  }

  ghost predicate LeafOk(s: State, id: Id, t: Task) {
    t.leaf.Some? ==>
      && t.script.Await?
      && t.leaf.value.waker == Some(id)
      && (t.leaf.value.ticket.Some? ==> t.leaf.value.ticket.value < s.nextTicket)
      && (t.leaf.value.returnVal.Some? ==>
            && t.leaf.value.ticket.Some?
            && t.leaf.value.ticket.value in s.delivered
            && s.delivered[t.leaf.value.ticket.value] == t.leaf.value.returnVal.value)
      && (Waiting(t) ==> t.leaf.value.ticket.value !in s.delivered)
  }

  /** A result seen by a leaf is the one delivered for that leaf's own ticket. */
  ghost predicate LeafInv(s: State) {
    && (forall id <- s.live :: LeafOk(s, id, s.live[id]))
    && (forall k <- s.delivered :: k < s.nextTicket)
    && (forall i, j :: i in s.live && j in s.live && i != j && HasTicket(s.live[i]) && HasTicket(s.live[j])
          ==> s.live[i].leaf.value.ticket != s.live[j].leaf.value.ticket)
  }

  /** Slot `i` of pool `p` is handed out: prepared or spawned, not finalised. */
  ghost predicate HandedOut(s: State, id: Id) {
    id in s.live || id in s.held
  }

  ghost predicate InUse(s: State, id: Id) {
    id.pool < |s.pools| && id.index < s.pools[id.pool].used
  }

  /** Never-used, free and handed-out slots partition each pool. */
  ghost predicate PoolOk(s: State, p: nat)
    requires p < |s.pools|
  {
    && s.pools[p].used <= s.pools[p].size
    && forall i: nat :: multiset(s.pools[p].free)[i] ==
                        if i < s.pools[p].used && !HandedOut(s, Id(p, i)) then 1 else 0
  }

  ghost predicate PoolInv(s: State) {
    && (forall p: nat :: p < |s.pools| ==> PoolOk(s, p))
    && (forall id <- s.live :: InUse(s, id) && id !in s.held)
    && (forall id <- s.held :: InUse(s, id))
  }

  ghost predicate CountInv(s: State) {
    && s.spawned == |s.live|
    && s.reqQueued == NumRequests(s.ring) + s.failed + s.unsettled
    && s.nextTicket == |s.delivered| + NumRequests(s.ring)
  }

  ghost predicate NoDup<T>(xs: seq<T>) {
    forall i, j :: 0 <= i < j < |xs| ==> xs[i] != xs[j]
  }

  /** Each serial belongs to one live task or was finished once. */
  ghost predicate SerialInv(s: State) {
    && NoDup(s.finished)
    && (forall n <- s.finished :: n < s.nextSerial)
    && (forall id <- s.live :: s.live[id].serial < s.nextSerial && s.live[id].serial !in s.finished)
    && (forall i, j :: i in s.live && j in s.live && i != j ==> s.live[i].serial != s.live[j].serial)
    && |s.finished| + |s.live| == s.nextSerial
  }

  ghost predicate Inv(s: State) {
    && !s.fault
    && QueueInv(s) && RingInv(s) && LeafInv(s)
    && PoolInv(s) && CountInv(s) && SerialInv(s)
  }

  // ---- ring facts ----

  lemma EntriesAppend(cq: seq<Cqe>, c: Cqe)
    ensures EntriesOf(cq + [c]) == EntriesOf(cq) + [c.entry]
  {
  }

  lemma EntriesHead(cq: seq<Cqe>)
    requires cq != []
    ensures EntriesOf(cq) == [cq[0].entry] + EntriesOf(cq[1..])
  {
  }

  lemma RemoveAt<T>(xs: seq<T>, at: nat)
    requires at < |xs|
    ensures multiset(xs[..at] + xs[at + 1..]) == multiset(xs) - multiset{xs[at]}
    ensures xs[at] in multiset(xs)
  {
    assert xs == xs[..at] + [xs[at]] + xs[at + 1..];
  }

  /** The kernel moves entries forward, it neither loses nor makes any. */
  lemma KernelConserves(r: Ring, m: Move)
    ensures Outstanding(KernelMove(r, m)) == Outstanding(r)
    ensures |KernelMove(r, m).sq| <= |r.sq|
  {
    match m
    case Take =>
      if r.sq != [] {
        TakeConserves(r);
      }
    case Answer(at, res) =>
      if at < |r.inflight| {
        AnswerConserves(r, at, res);
      }
  }

  lemma TakeConserves(r: Ring)
    requires r.sq != []
    ensures Outstanding(KernelMove(r, Take)) == Outstanding(r)
  {
    var e, rest := r.sq[0], r.sq[1..];
    assert r.sq == [e] + rest;
    assert multiset(r.sq) == multiset{e} + multiset(rest);
    assert multiset(r.inflight + [e]) == multiset(r.inflight) + multiset{e};
  }

  lemma AnswerConserves(r: Ring, at: nat, res: int)
    requires at < |r.inflight|
    ensures Outstanding(KernelMove(r, Answer(at, res))) == Outstanding(r)
  {
    hide EntriesOf;
    var e, r' := r.inflight[at], KernelMove(r, Answer(at, res));
    assert multiset(r.inflight) == multiset(r'.inflight) + multiset{e} by {
      RemoveAt(r.inflight, at);
    }
    assert multiset(EntriesOf(r'.cq)) == multiset(EntriesOf(r.cq)) + multiset{e} by {
      EntriesAppend(r.cq, Cqe(e, res));
    }
  }

  lemma PushAdds(r: Ring, e: Entry)
    ensures Outstanding(Push(r, e)) == Outstanding(r) + multiset{e}
  {
  }

  lemma ConsumeRemoves(r: Ring)
    requires r.cq != []
    ensures r.cq[0].entry in Outstanding(r)
    ensures Outstanding(r.(cq := r.cq[1..])) == Outstanding(r) - multiset{r.cq[0].entry}
  {
    EntriesHead(r.cq);
    assert EntriesOf(r.cq)[0] == r.cq[0].entry;
  }

  lemma CountAdd(m: multiset<Entry>, e: Entry)
    ensures var n := m + multiset{e};
            |n| - n[Timeout] == |m| - m[Timeout] + if e.Timeout? then 0 else 1
  {
  }

  /** Requests and timeouts after one more push. */
  lemma PushCounts(r: Ring, e: Entry)
    ensures NumRequests(Push(r, e)) == NumRequests(r) + if e.Timeout? then 0 else 1
    ensures NumTimeouts(Push(r, e)) == NumTimeouts(r) + if e.Timeout? then 1 else 0
  {
    PushAdds(r, e);
    CountAdd(Outstanding(r), e);
  }

  lemma ConsumeCounts(r: Ring)
    requires r.cq != []
    ensures var r' := r.(cq := r.cq[1..]);
            && NumRequests(r) == NumRequests(r') + (if r.cq[0].entry.Timeout? then 0 else 1)
            && NumTimeouts(r) == NumTimeouts(r') + (if r.cq[0].entry.Timeout? then 1 else 0)
  {
    var r' := r.(cq := r.cq[1..]);
    ConsumeRemoves(r);
    assert Outstanding(r) == Outstanding(r') + multiset{r.cq[0].entry};
    CountAdd(Outstanding(r'), r.cq[0].entry);
  }

  /** With no task waiting there is no request in the ring. */
  lemma NoWaiterNoRequest(s: State)
    requires RingInv(s)
    requires forall id <- s.live :: !Waiting(s.live[id])
    ensures NumRequests(s.ring) == 0
  {
    var m := Outstanding(s.ring);
    assert forall e: Entry :: e.Req? ==> !WaitsFor(s, e);
    assert m == multiset{}[Timeout := m[Timeout]];
  }

  /** A waiting task has its request in the ring. */
  lemma WaiterHasRequest(s: State, id: Id)
    requires RingInv(s) && LeafInv(s) && id in s.live && Waiting(s.live[id])
    ensures NumRequests(s.ring) > 0
  {
    var t := s.live[id];
    assert LeafOk(s, id, t);
    var e := Req(id, t.leaf.value.ticket.value, t.script.op);
    assert WaitsFor(s, e);
    var m := Outstanding(s.ring);
    assert m[e] == 1;
    var m' := m - multiset{e};
    assert m == m' + multiset{e};
    CountAdd(m', e);
    assert |m'[Timeout := 0]| == |m'| - m'[Timeout];
  }
}
