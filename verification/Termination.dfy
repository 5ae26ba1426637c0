/** Why the loop of `Executor::run` ends for tasks of finite scripts. */
module Termination {
  import opened Machine
  import opened Invariant
  import opened Preservation
  import opened Runs
  import opened Progress

  /** The results written to leaves between `s` and `s'`. */
  ghost function Delivered(s: State, s': State): int {
    |s'.delivered| - |s.delivered|
  }

  /** A round of `run` from `s`: the list is detached, the run goes on to the next place where a drain
      may start, and nothing is spawned from outside. */
  ghost predicate IsRound(s: State, run: seq<Event>) {
    && Between(s) && Legal(DoBeginDrain(s), run) && NoBegin(run) && NoOutside(run)
    && Between(Exec(DoBeginDrain(s), run))
  }

  ghost function AfterRound(s: State, run: seq<Event>): State
    requires IsRound(s, run)
  {
    Exec(DoBeginDrain(s), run)
  }

  lemma StepDelivers(s: State, e: Event)
    requires Inv(s) && Enabled(s, e)
    ensures |Apply(s, e).delivered| == |s.delivered| + if e.EvDeliver? && s.ring.cq[0].entry.Req? then 1 else 0
  {
    hide QueueInv, RingInv, LeafInv, PoolInv, SerialInv, CountInv;
    if e.EvDeliver? && s.ring.cq[0].entry.Req? {
      DeliverTarget(s);
    }
  }

  /** Every delivery gets a task on. */
  lemma {:induction false} DeliveriesAdvance(s: State, run: seq<Event>)
    requires Inv(s) && Legal(s, run)
    ensures Delivered(s, Exec(s, run)) <= Advancing(s, run)
    decreases |run|
  {
    hide Inv, Apply, Enabled;
    if run != [] {
      StepKeeps(s, run[0]);
      StepDelivers(s, run[0]);
      DeliveriesAdvance(Apply(s, run[0]), run[1..]);
    }
  }

  /** No push and no delivery is forgotten. */
  lemma {:induction false} HistoryGrows(s: State, run: seq<Event>)
    requires Inv(s) && Legal(s, run)
    ensures s.nextTicket <= Exec(s, run).nextTicket && Delivered(s, Exec(s, run)) >= 0
    decreases |run|
  {
    hide Inv, Enabled;
    if run != [] {
      StepKeeps(s, run[0]);
      StepDelivers(s, run[0]);
      HistoryGrows(Apply(s, run[0]), run[1..]);
    }
  }

  /** A step that gets no task on, while tasks are to be polled and the submission queue is empty,
      leaves it so. */
  lemma StallKeeps(s: State, e: Event)
    requires Inv(s) && Enabled(s, e) && !Advances(s, e) && !e.EvBeginDrain? && !e.EvPrepare? && !e.EvSpawn?
    requires s.ring.sq == [] && s.ring.cap > 0 && !Between(s)
    ensures Apply(s, e).ring.sq == [] && Apply(s, e).ring.cap == s.ring.cap && !Between(Apply(s, e))
  {
  }

  /** Where tasks are to be polled and the submission queue is empty, the first poll gets its task on. */
  lemma {:induction false} PollAdvances(s: State, run: seq<Event>)
    requires Inv(s) && Legal(s, run) && NoBegin(run) && NoOutside(run)
    requires s.ring.sq == [] && s.ring.cap > 0 && !Between(s) && Between(Exec(s, run))
    ensures Advancing(s, run) > 0
    decreases |run|
  {
    hide Inv, Apply, Enabled, Advances;
    if !Advances(s, run[0]) {
      StepKeeps(s, run[0]);
      StallKeeps(s, run[0]);
      PollAdvances(Apply(s, run[0]), run[1..]);
    }
  }

  /** A round uses up work if it delivers a result, or starts with a task queued and the submission
      queue empty. */
  lemma RoundSpends(s: State, run: seq<Event>)
    requires Reachable(s) && IsRound(s, run) && s.ring.cap > 0
    requires Delivered(s, AfterRound(s, run)) > 0 || (s.queue != [] && s.ring.sq == [])
    ensures Total(AfterRound(s, run).live) < Total(s.live)
  {
    hide Inv, Reachable, Total;
    NoFault(s);
    var s0 := DoBeginDrain(s);
    BeginDrainKeeps(s);
    RunSpends(s0, run);
    DeliveriesAdvance(s0, run);
    if s.queue != [] && s.ring.sq == [] {
      PollAdvances(s0, run);
    }
  }

  /** A round as the post-drain function should make it: it starts with nothing left to submit, and if
      nothing is queued it delivers at least one result. */
  ghost predicate GoodRound(s: State, run: seq<Event>) {
    && IsRound(s, run) && s.ring.sq == []
    && (s.queue == [] ==> Delivered(s, AfterRound(s, run)) > 0)
  }

  /** A good round uses up work, even if every submission but one of it fails. */
  lemma RoundFalls(s: State, run: seq<Event>)
    requires Reachable(s) && s.ring.cap > 0 && GoodRound(s, run)
    ensures Total(AfterRound(s, run).live) < Total(s.live)
  {
    RoundSpends(s, run);
  }

  ghost predicate GoodRounds(s: State, rounds: seq<seq<Event>>)
    decreases |rounds|
  {
    rounds == [] || (GoodRound(s, rounds[0]) && GoodRounds(AfterRound(s, rounds[0]), rounds[1..]))
  }

  lemma {:induction false} CapConstant(s: State, run: seq<Event>)
    requires Legal(s, run)
    ensures Exec(s, run).ring.cap == s.ring.cap
    decreases |run|
  {
    if run != [] {
      CapConstant(Apply(s, run[0]), run[1..]);
    }
  }

  lemma RoundReachable(s: State, run: seq<Event>)
    requires Reachable(s) && IsRound(s, run)
    ensures Reachable(AfterRound(s, run)) && AfterRound(s, run).ring.cap == s.ring.cap
  {
    ReachableStep(s, EvBeginDrain);
    ReachableRun(DoBeginDrain(s), run);
    CapConstant(DoBeginDrain(s), run);
  }

  /** Only so many good rounds can follow each other: `run` ends. */
  lemma {:induction false} RunTerminates(s: State, rounds: seq<seq<Event>>)
    requires Reachable(s) && s.ring.cap > 0 && GoodRounds(s, rounds)
    ensures |rounds| <= Total(s.live)
    decreases |rounds|
  {
    hide Reachable, GoodRound, IsRound, Total;
    if rounds != [] {
      assert IsRound(s, rounds[0]) by { GoodIsRound(s, rounds[0]); }
      RoundFalls(s, rounds[0]);
      RoundReachable(s, rounds[0]);
      RunTerminates(AfterRound(s, rounds[0]), rounds[1..]);
    }
  }

  lemma GoodIsRound(s: State, run: seq<Event>)
    requires GoodRound(s, run)
    ensures IsRound(s, run)
  {
  }
}
