/** Scheduling: what one round of `Executor::run` polls. */
module Rounds {
  import opened Types
  import opened Machine
  import opened Invariant
  import opened Preservation
  import opened Runs

  /** The serial number of the task in slot `id`. */
  ghost function SerialAt(s: State, id: Id): nat {
    if id in s.live then s.live[id].serial else 0
  }

  ghost function SerialsOf(s: State, ids: seq<Id>): (r: seq<nat>)
    ensures |r| == |ids|
  {
    seq(|ids|, i requires 0 <= i < |ids| => SerialAt(s, ids[i]))
  }

  ghost function VisitOf(s: State, e: Event): seq<nat>
    requires Enabled(s, e)
  {
    if e.EvVisit? then [SerialAt(s, s.segment[0])] else []
  }

  /** The serials of the tasks polled in a run, in order. */
  ghost function Visits(s: State, run: seq<Event>): seq<nat>
    requires Legal(s, run)
    decreases |run|
  {
    if run == [] then [] else VisitOf(s, run[0]) + Visits(Apply(s, run[0]), run[1..])
  }

  lemma BranchSerials(s: State, id: Id)
    requires Inv(s) && CanBranch(s) && id in s.live && s.polling != Some(id)
    ensures id in DoBranch(s).live && DoBranch(s).live[id] == s.live[id]
  {
    hide QueueInv, RingInv, LeafInv, PoolInv, SerialInv, CountInv;
    var t := Polled(s);
    if Candidate(s, t.script.pool).Some? {
      PoolTakes(s, t.script.pool, t.script.child);
    }
  }

  lemma StepSerials(s: State, e: Event, id: Id)
    requires Inv(s) && Enabled(s, e)
    requires id in s.live && s.polling != Some(id)
    ensures id in Apply(s, e).live && Apply(s, e).live[id].serial == s.live[id].serial
  {
    hide QueueInv, RingInv, LeafInv, PoolInv, SerialInv, CountInv, DoBranch;
    if e.EvSpawn? {
      PoolSpawns(s, e.id);
    } else if e.EvBranch? {
      BranchSerials(s, id);
    }
  }

  /** A step inside a round touches neither the tasks still to be drained nor those queued for the
      next round; a slot freed and handed out again within the round is not among them. */
  lemma StepInRound(s: State, e: Event)
    requires Inv(s) && Enabled(s, e) && !e.EvBeginDrain?
    ensures Inv(Apply(s, e))
    ensures var s' := Apply(s, e);
            && s.segment == (if e.EvVisit? then [s.segment[0]] else []) + s'.segment
            && (s'.queue == s.queue || (s'.queue != [] && s'.queue[1..] == s.queue))
            && forall id :: id in s.segment || id in s.queue ==>
                              id in s.live && id in s'.live && s'.live[id].serial == s.live[id].serial
  {
    hide *;
    StepKeeps(s, e);
    StepQueue(s, e);
    SegmentLive(s);
    forall id | id in s.segment || id in s.queue
      ensures id in s.live && id in Apply(s, e).live && Apply(s, e).live[id].serial == s.live[id].serial
    {
      StepSerials(s, e, id);
    }
  }

  /** Where a round that started in `s` has got to in `s'`, having polled `visited`: the detached
      tasks are polled in order and the queue of the next round only grows; no task of either
      changes its slot's occupant. */
  ghost predicate Progressed(s: State, visited: seq<nat>, s': State) {
    && SerialsOf(s, s.segment) == visited + SerialsOf(s', s'.segment)
    && |s.queue| <= |s'.queue| && s'.queue[|s'.queue| - |s.queue|..] == s.queue
    && forall id <- s.queue :: SerialAt(s', id) == SerialAt(s, id)
  }

  lemma StepProgresses(s: State, e: Event)
    requires Inv(s) && Enabled(s, e) && !e.EvBeginDrain?
    ensures Progressed(s, VisitOf(s, e), Apply(s, e))
  {
    hide Inv, Apply, Enabled;
    StepInRound(s, e);
    var s' := Apply(s, e);
    forall id | id in s.segment || id in s.queue ensures SerialAt(s', id) == SerialAt(s, id) {
    }
    assert SerialsOf(s, s.segment) == VisitOf(s, e) + SerialsOf(s', s'.segment);
  }

  lemma ProgressChains(s: State, v: seq<nat>, s1: State, w: seq<nat>, s2: State)
    requires Progressed(s, v, s1) && Progressed(s1, w, s2)
    ensures Progressed(s, v + w, s2)
  {
    assert forall id <- s.queue :: id in s1.queue;
  }

  lemma NothingProgresses(s: State)
    ensures Progressed(s, [], s)
  {
  }

  /** A round, from the moment the queue is detached. */
  lemma {:induction false} RoundProgresses(s: State, run: seq<Event>)
    requires Inv(s) && Legal(s, run) && NoBegin(run)
    ensures Progressed(s, Visits(s, run), Exec(s, run))
    decreases |run|
  {
    hide Inv, Apply, Enabled, Progressed;
    if run == [] {
      NothingProgresses(s);
    } else {
      var s1 := Apply(s, run[0]);
      StepProgresses(s, run[0]);
      StepKeeps(s, run[0]);
      RoundProgresses(s1, run[1..]);
      ProgressChains(s, VisitOf(s, run[0]), s1, Visits(s1, run[1..]), Exec(s1, run[1..]));
    }
  }

  lemma SerialsDistinct(s: State, ids: seq<Id>)
    requires SerialInv(s) && NoDup(ids) && forall id <- ids :: id in s.live
    ensures NoDup(SerialsOf(s, ids))
  {
  }

  lemma QueueNoDup(s: State)
    requires QueueInv(s)
    ensures NoDup(s.queue) && forall id <- s.queue :: id !in s.segment
  {
    forall i, j | 0 <= i < j < |s.queue| ensures s.queue[i] != s.queue[j] {
      RemoveAt(s.queue, i);
      assert s.queue[j] in s.queue[..i] + s.queue[i + 1..] by {
        assert (s.queue[..i] + s.queue[i + 1..])[j - 1] == s.queue[j];
      }
      assert s.queue[j] in multiset(s.queue[..i] + s.queue[i + 1..]);
      assert Queued(s)[s.queue[i]] <= 1;
    }
    forall id | id in s.queue ensures id !in s.segment {
      assert id in multiset(s.queue);
      assert Queued(s)[id] <= 1;
      assert id !in multiset(s.segment);
    }
  }

  lemma RoundOrder(s: State, run: seq<Event>)
    requires Inv(s) && Between(s) && Legal(DoBeginDrain(s), run) && NoBegin(run)
    requires Between(Exec(DoBeginDrain(s), run))
    ensures Visits(DoBeginDrain(s), run) == SerialsOf(s, s.queue)
    ensures NoDup(SerialsOf(s, s.queue))
  {
    var s0 := DoBeginDrain(s);
    BeginDrainKeeps(s);
    RoundProgresses(s0, run);
    assert SerialsOf(s0, s0.segment) == SerialsOf(s, s.queue);
    QueueNoDup(s);
    SegmentLive(s);
    SerialsDistinct(s, s.queue);
  }

  /** The task queued for the next round is not among those still to be drained. */
  lemma QueuedIsNotDetached(s: State, id: Id)
    requires Inv(s) && id in s.queue
    ensures id in s.live && SerialAt(s, id) !in SerialsOf(s, s.segment)
  {
    hide RingInv, LeafInv, PoolInv, CountInv;
    SegmentLive(s);
    QueueNoDup(s);
    forall j | 0 <= j < |s.segment| ensures SerialsOf(s, s.segment)[j] != SerialAt(s, id) {
      assert s.segment[j] != id;
    }
  }

  lemma StillQueued(s: State, visited: seq<nat>, s': State, id: Id)
    requires Progressed(s, visited, s') && id in s.queue
    ensures id in s'.queue && SerialAt(s', id) in SerialsOf(s', s'.queue) && SerialAt(s', id) == SerialAt(s, id)
  {
    assert id in s'.queue[|s'.queue| - |s.queue|..];
    var i :| 0 <= i < |s'.queue| && s'.queue[i] == id;
    assert SerialsOf(s', s'.queue)[i] == SerialAt(s', id);
  }

  /** LIFO without starvation, first half: a drain polls the tasks queued when it starts, newest
      first, each exactly once, and no other task. */
  lemma RoundPollsQueue(s: State, run: seq<Event>)
    requires Reachable(s) && Between(s) && Legal(DoBeginDrain(s), run) && NoBegin(run)
    requires Between(Exec(DoBeginDrain(s), run))
    ensures Visits(DoBeginDrain(s), run) == SerialsOf(s, s.queue)
    ensures NoDup(Visits(DoBeginDrain(s), run))
  {
    hide Inv;
    NoFault(s);
    RoundOrder(s, run);
  }

  /** Second half: a task that is in the queue at some point of a round, after its `drain` detached
      the list, is not polled in the rest of that round and exactly once in the next one. */
  lemma NextRoundPolls(s: State, id: Id, rest: seq<Event>, next: seq<Event>)
    requires Reachable(s) && id in s.queue
    requires Legal(s, rest) && NoBegin(rest) && Between(Exec(s, rest))
    requires Legal(DoBeginDrain(Exec(s, rest)), next) && NoBegin(next)
    requires Between(Exec(DoBeginDrain(Exec(s, rest)), next))
    ensures SerialAt(s, id) !in Visits(s, rest)
    ensures SerialAt(s, id) in Visits(DoBeginDrain(Exec(s, rest)), next)
    ensures NoDup(Visits(DoBeginDrain(Exec(s, rest)), next))
  {
    hide Inv, Reachable, Exec, Legal, Visits;
    var s1 := Exec(s, rest);
    NoFault(s);
    RunKeeps(s, rest);
    RoundProgresses(s, rest);
    RoundOrder(s1, next);
    StillQueued(s, Visits(s, rest), s1, id);
    QueuedIsNotDetached(s, id);
    assert SerialsOf(s, s.segment) == Visits(s, rest);
  }

  /** `s'` ends a drain that started in `s`: the queued tasks were polled, newest first, each exactly
      once, and no other task. */
  ghost predicate Drained(s: State, s': State) {
    exists run ::
      && Legal(DoBeginDrain(s), run) && NoBegin(run) && NoOutside(run) && Exec(DoBeginDrain(s), run) == s'
      && Visits(DoBeginDrain(s), run) == SerialsOf(s, s.queue)
  }

  lemma LeadsDrained(s: State, s': State)
    requires Inv(s) && Between(s) && Leads(DoBeginDrain(s), s') && Between(s')
    ensures Drained(s, s')
  {
    hide Inv;
    var run :| Legal(DoBeginDrain(s), run) && NoBegin(run) && NoOutside(run) && Exec(DoBeginDrain(s), run) == s';
    RoundOrder(s, run);
  }
}
