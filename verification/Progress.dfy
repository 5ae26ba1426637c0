/** A measure of the work left in finite scripts; it falls with every step that gets a task on. */
module Progress {
  import opened Types
  import opened Machine
  import opened Invariant
  import opened Preservation
  import opened Runs

  function Max(a: nat, b: nat): nat {
    if a < b then b else a
  }

  /** Upper bound on the pushes, deliveries, resumptions, spawns and completions a script leads to. */
  ghost function Work(f: Script): (w: nat)
    ensures w > 0
  {
    match f
    case Finish => 1
    case Await(_, a, b) => 3 + Max(Work(a), Work(b))
    case Spawn(_, c, a, b) => 1 + Max(Work(c) + Work(a), Work(b))
  }

  /** A pushed request and a delivered result are each one step nearer to the continuation. */
  ghost function TaskWork(t: Task): nat {
    if t.script.Await? && Answered(t) then Work(t.script) - 2
    else if t.script.Await? && Waiting(t) then Work(t.script) - 1
    else Work(t.script)
  }

  ghost function Total(m: map<Id, Task>): nat
    decreases m.Keys
  {
    if m == map[] then 0 else
    var id :| id in m;
    assert (m - {id}).Keys < m.Keys;
    TaskWork(m[id]) + Total(m - {id})
  }

  lemma {:induction false} TotalPick(m: map<Id, Task>, id: Id)
    requires id in m
    ensures Total(m) == TaskWork(m[id]) + Total(m - {id})
    decreases m.Keys
  {
    var j :| j in m && Total(m) == TaskWork(m[j]) + Total(m - {j});
    if j != id {
      assert (m - {j}).Keys < m.Keys && (m - {id}).Keys < m.Keys;
      TotalPick(m - {j}, id);
      TotalPick(m - {id}, j);
      assert m - {j} - {id} == m - {id} - {j};
    }
  }

  lemma TotalSet(m: map<Id, Task>, id: Id, t: Task)
    ensures Total(m[id := t]) == Total(m) + TaskWork(t) - if id in m then TaskWork(m[id]) else 0
  {
    TotalPick(m[id := t], id);
    assert m[id := t] - {id} == m - {id};
    if id in m {
      TotalPick(m, id);
    } else {
      assert m - {id} == m;
    }
  }

  /** The steps that get a task on. */
  ghost predicate Advances(s: State, e: Event)
    requires Enabled(s, e)
  {
    || e.EvResume? || e.EvBranch? || e.EvComplete?
    || (e.EvSubmit? && CanPush(s.ring))
    || (e.EvDeliver? && s.ring.cq[0].entry.Req?)
  }

  /** No step but a spawn from outside adds work; the steps that get a task on use some up. */
  ghost predicate Spends(s: State, e: Event)
    requires Enabled(s, e)
  {
    Total(Apply(s, e).live) + (if Advances(s, e) then 1 else 0) <= Total(s.live)
  }

  lemma ResumeSpends(s: State)
    requires CanResume(s)
    ensures Total(DoResume(s).live) < Total(s.live)
  {
    var t := Polled(s);
    TotalSet(s.live, s.polling.value, DoResume(s).live[s.polling.value]);
  }

  lemma SubmitSpends(s: State)
    requires CanSubmit(s) && !Waiting(Polled(s))
    ensures Total(DoSubmit(s).live) + (if CanPush(s.ring) then 1 else 0) == Total(s.live)
  {
    TotalSet(s.live, s.polling.value, DoSubmit(s).live[s.polling.value]);
  }

  lemma BranchSpends(s: State)
    requires Inv(s) && CanBranch(s)
    ensures Total(DoBranch(s).live) < Total(s.live)
  {
    hide QueueInv, RingInv, LeafInv, PoolInv, SerialInv, CountInv;
    var t := Polled(s);
    var id := s.polling.value;
    match Candidate(s, t.script.pool)
    case None =>
      TotalSet(s.live, id, t.(script := t.script.onFull));
      assert LeafFree(s) by { PolledLeafFree(s); }
    case Some(c) =>
      PoolTakes(s, t.script.pool, t.script.child);
      var child := Task(s.nextSerial, t.script.child, None);
      TotalSet(s.live, c, child);
      TotalSet(s.live[c := child], id, t.(script := t.script.onSpawned));
      assert LeafFree(s) by { PolledLeafFree(s); }
  }

  ghost predicate LeafFree(s: State) {
    Polls(s) && Polled(s).leaf.None?
  }

  lemma PolledLeafFree(s: State)
    requires LeafInv(s) && CanBranch(s)
    ensures LeafFree(s)
  {
    assert LeafOk(s, s.polling.value, Polled(s));
  }

  lemma CompleteSpends(s: State)
    requires CanComplete(s)
    ensures Total(DoComplete(s).live) < Total(s.live)
  {
    TotalPick(s.live, s.polling.value);
  }

  lemma DeliverSpends(s: State)
    requires Inv(s) && s.ring.cq != [] && s.ring.cq[0].entry.Req?
    ensures Total(DoDeliver(s).live) < Total(s.live)
  {
    hide QueueInv, RingInv, LeafInv, PoolInv, SerialInv, CountInv;
    DeliverTarget(s);
    var id := s.ring.cq[0].entry.owner;
    TotalSet(s.live, id, DoDeliver(s).live[id]);
  }

  lemma StepSpends(s: State, e: Event)
    requires Inv(s) && Enabled(s, e) && !e.EvPrepare? && !e.EvSpawn?
    ensures Spends(s, e)
  {
    hide RingInv, LeafInv, PoolInv, SerialInv, CountInv;
    if e.EvResume? {
      ResumeSpends(s);
    } else if e.EvSubmit? {
      SubmitSpends(s);
    } else if e.EvBranch? {
      BranchSpends(s);
    } else if e.EvComplete? {
      CompleteSpends(s);
    } else if e.EvDeliver? && s.ring.cq[0].entry.Req? {
      DeliverSpends(s);
    }
  }

  /** The steps of a run that get a task on. */
  ghost function Advancing(s: State, run: seq<Event>): nat
    requires Legal(s, run)
    decreases |run|
  {
    if run == [] then 0 else (if Advances(s, run[0]) then 1 else 0) + Advancing(Apply(s, run[0]), run[1..])
  }

  /** However long a run goes on and however its tasks interleave, only so many of its steps get a
      task on. */
  lemma {:induction false} RunSpends(s: State, run: seq<Event>)
    requires Inv(s) && Legal(s, run) && NoOutside(run)
    ensures Advancing(s, run) + Total(Exec(s, run).live) <= Total(s.live)
    decreases |run|
  {
    hide Inv, Apply, Enabled, Total, Advances;
    if run != [] {
      StepKeeps(s, run[0]);
      StepSpends(s, run[0]);
      RunSpends(Apply(s, run[0]), run[1..]);
    }
  }
}
