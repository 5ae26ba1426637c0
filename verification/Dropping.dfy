/** When `flush` loses a timeout: the counters of the pass that `flush_submissions` makes on EBUSY or
    EAGAIN never reach the caller. */
module Dropping {
  import opened Types
  import opened Machine
  import opened Runs
  import opened Runtime
  import opened Reactors

  /** `run` is what `flush_completions(1, ..)` and the kernel may do from `s`: at least one request
      was consumed, so that the call returns; and a timeout was, whose count the caller keeps. */
  ghost predicate PassDrops(s: State, run: seq<Event>) {
    && Legal(s, run) && OnlyReaps(run)
    && Between(Exec(s, run)) && Exec(s, run).ring.cq == [] && Exec(s, run).unsettled == 0
    && NumRequests(Exec(s, run).ring) < NumRequests(s.ring)
    && NumTimeouts(Exec(s, run).ring) < NumTimeouts(s.ring)
  }

  lemma StepThen(s: State, e: Event, rest: seq<Event>)
    requires Enabled(s, e) && Legal(Apply(s, e), rest) && OnlyReaps(rest) && Reaps(e)
    ensures Legal(s, [e] + rest) && Exec(s, [e] + rest) == Exec(Apply(s, e), rest) && OnlyReaps([e] + rest)
  {
    OneStep(s, e);
    ExecConcat(s, [e], rest);
  }

  lemma Nothing(s: State)
    ensures Legal(s, []) && Exec(s, []) == s && OnlyReaps([])
  {
  }

  /** Whatever has reached the kernel can be consumed, one entry after the other. */
  lemma {:induction false} Empties(s: State) returns (run: seq<Event>)
    requires Reachable(s) && Between(s)
    ensures Legal(s, run) && OnlyReaps(run) && Between(Exec(s, run)) && Exec(s, run).unsettled == 0
    ensures Exec(s, run).ring == s.ring.(inflight := [], cq := [])
    decreases 2 * |s.ring.inflight| + |s.ring.cq|
  {
    hide Reachable, Legal, Exec, OnlyReaps;
    var e :=
      if s.ring.cq != [] then EvDeliver
      else if s.ring.inflight != [] then EvKernel(Answer(0, -ETIME))
      else EvSettle;
    if e.EvDeliver? {
      DeliverCounts(s);
    }
    ReachableStep(s, e);
    run := [];
    if e.EvSettle? {
      Nothing(Apply(s, e));
    } else {
      run := Empties(Apply(s, e));
    }
    StepThen(s, e, run);
    run := [e] + run;
  }

  /** While nothing is submitted, timeouts too go by what has reached the kernel. */
  lemma SameSqTimeouts(r: Ring, r': Ring)
    requires r'.sq == r.sq
    ensures NumTimeouts(r) + InKernel(r')[Timeout] == NumTimeouts(r') + InKernel(r)[Timeout]
  {
    assert Outstanding(r) == multiset(r.sq) + InKernel(r);
    assert Outstanding(r') == multiset(r.sq) + InKernel(r');
  }

  /** The pass that `flush_submissions` makes on EBUSY or EAGAIN may lose a timeout if and only if a
      request and a timeout have reached the kernel. */
  lemma PassDropsExactly(s: State)
    requires Reachable(s) && Between(s)
    ensures (exists run :: PassDrops(s, run)) <==> KernelRequests(s.ring) > 0 && InKernel(s.ring)[Timeout] > 0
  {
    hide Reachable, NumRequests, NumTimeouts, KernelRequests, InKernel;
    forall run | PassDrops(s, run)
      ensures KernelRequests(s.ring) > 0 && InKernel(s.ring)[Timeout] > 0
    {
      StuckStays(s, run);
      SameSq(s.ring, Exec(s, run).ring);
      SameSqTimeouts(s.ring, Exec(s, run).ring);
    }
    if KernelRequests(s.ring) > 0 && InKernel(s.ring)[Timeout] > 0 {
      var run := Empties(s);
      var r' := Exec(s, run).ring;
      SameSq(s.ring, r');
      SameSqTimeouts(s.ring, r');
      assert EntriesOf(r'.cq) == [];
      NoneInKernel(r');
      assert PassDrops(s, run);
    }
  }

  lemma {:induction false} TakesAll(r: Ring) returns (ms: seq<Move>)
    ensures KernelMoves(r, ms).sq == []
    decreases |r.sq|
  {
    ms := [];
    if r.sq != [] {
      var rest := TakesAll(KernelMove(r, Take));
      ms := [Take] + rest;
      assert ms[1..] == rest;
    }
  }

  /** A whole `flush`, in which the kernel first moves and then answers EBUSY: it may lose a timeout if
      and only if a request and a timeout are outstanding.  Entries that were not submitted count only
      because the kernel may take them and answer EBUSY all the same. */
  lemma FlushDropsExactly(s: State)
    requires Reachable(s) && Between(s)
    ensures (exists ms: seq<Move>, run :: PassDrops(s.(ring := KernelMoves(s.ring, ms)), run))
            <==> NumRequests(s.ring) > 0 && NumTimeouts(s.ring) > 0
  {
    hide Reachable, NumRequests, NumTimeouts, KernelRequests, InKernel, KernelMoves;
    forall ms: seq<Move>, run | PassDrops(s.(ring := KernelMoves(s.ring, ms)), run)
      ensures NumRequests(s.ring) > 0 && NumTimeouts(s.ring) > 0
    {
      MovesConserve(s.ring, ms);
    }
    if NumRequests(s.ring) > 0 && NumTimeouts(s.ring) > 0 {
      var ms := TakesAll(s.ring);
      var s1 := s.(ring := KernelMoves(s.ring, ms));
      MovesConserve(s.ring, ms);
      KernelLeads(s, ms);
      LeadsReachable(s, s1);
      InKernelIsOutstanding(s1.ring);
      TimeoutsInKernel(s1.ring);
      PassDropsExactly(s1);
      var run :| PassDrops(s1, run);
      assert PassDrops(s.(ring := KernelMoves(s.ring, ms)), run);
    }
  }

  lemma TimeoutsInKernel(r: Ring)
    requires r.sq == []
    ensures InKernel(r)[Timeout] == NumTimeouts(r)
  {
    assert Outstanding(r) == InKernel(r);
  }

  // ---- an input ----

  /** A request and an expired timeout have both completed, and a `run_for_ns` counts one timeout, when
      the kernel answers EBUSY: consuming both, the pass loses the timeout, and the call never ends. */
  lemma TimeoutCanBeDropped()
    ensures exists s ::
              && Reachable(s) && s.ring.cq == [Cqe(Timeout, -ETIME), Cqe(Req(Id(0, 0), 0, 0), 0)]
              && NumTimeouts(s.ring) == 1
              && PassDrops(s, [EvDeliver, EvDeliver, EvSettle])
              && !ReapEnds(1, Exec(s, [EvDeliver, EvDeliver, EvSettle]).ring)
  {
    hide Reachable, PassDrops;
    StartReachable([1], 2);
    var s := SpawnedOne(Start([1], 2));
    var req := Req(Id(0, 0), 0, 0);
    s := BothPushed(s, req);
    s := BothComplete(s, req);
    assert EntriesOf(s.ring.cq) == [Timeout, req];
    assert Outstanding(s.ring) == multiset{Timeout, req};
    BothConsumed(s);
    OneIsLost(s, [EvDeliver, EvDeliver, EvSettle]);
  }

  lemma OneIsLost(s: State, run: seq<Event>)
    requires PassDrops(s, run) && NumTimeouts(s.ring) == 1
    ensures !ReapEnds(1, Exec(s, run).ring)
  {
  }

  lemma BothConsumed(s: State)
    requires Reachable(s) && Between(s) && |s.ring.cq| == 2 && s.ring.sq == [] && s.ring.inflight == []
    requires NumRequests(s.ring) > 0 && NumTimeouts(s.ring) > 0
    ensures PassDrops(s, [EvDeliver, EvDeliver, EvSettle])
  {
    hide Reachable, Legal, Exec, NumRequests, NumTimeouts, OnlyReaps;
    DeliverCounts(s);
    ReachableStep(s, EvDeliver);
    var s1 := DoDeliver(s);
    DeliverCounts(s1);
    ReachableStep(s1, EvDeliver);
    var s2 := DoDeliver(s1);
    var s3 := DoSettle(s2);
    assert [EvDeliver] + [EvDeliver, EvSettle] == [EvDeliver, EvDeliver, EvSettle];
    assert [EvDeliver] + [EvSettle] == [EvDeliver, EvSettle];
    assert [EvSettle] + [] == [EvSettle];
    Nothing(s3);
    StepThen(s2, EvSettle, []);
    StepThen(s1, EvDeliver, [EvSettle]);
    StepThen(s, EvDeliver, [EvDeliver, EvSettle]);
    EmptyRing(s3.ring);
  }

  lemma BothPushed(s: State, req: Entry) returns (s': State)
    requires Reachable(s) && Between(s) && s.queue == [Id(0, 0)] && s.ring == Ring(2, [], [], []) && s.nextTicket == 0
    requires s.live == map[Id(0, 0) := Task(0, Await(0, Finish, Finish), None)] && req == Req(Id(0, 0), 0, 0)
    ensures Reachable(s') && Between(s') && s'.ring == Ring(2, [req, Timeout], [], [])
  {
    hide Reachable;
    ReachableStep(s, EvBeginDrain);
    s' := DoBeginDrain(s);
    ReachableStep(s', EvVisit);
    s' := DoVisit(s');
    ReachableStep(s', EvSubmit);
    s' := DoSubmit(s');
    ReachableStep(s', EvPushTimeout);
    s' := DoPushTimeout(s');
  }

  lemma BothComplete(s: State, req: Entry) returns (s': State)
    requires Reachable(s) && Between(s) && s.ring == Ring(2, [req, Timeout], [], [])
    ensures Reachable(s') && Between(s') && s'.ring == Ring(2, [], [], [Cqe(Timeout, -ETIME), Cqe(req, 0)])
  {
    hide Reachable;
    ReachableStep(s, EvKernel(Take));
    s' := DoKernel(s, Take);
    ReachableStep(s', EvKernel(Take));
    s' := DoKernel(s', Take);
    assert s'.ring == Ring(2, [], [req, Timeout], []);
    ReachableStep(s', EvKernel(Answer(1, -ETIME)));
    s' := DoKernel(s', Answer(1, -ETIME));
    assert s'.ring == Ring(2, [], [req], [Cqe(Timeout, -ETIME)]);
    ReachableStep(s', EvKernel(Answer(0, 0)));
    s' := DoKernel(s', Answer(0, 0));
  }

  lemma SpawnedOne(s: State) returns (s': State)
    requires s == Start([1], 2) && Reachable(s)
    ensures Reachable(s') && Between(s') && s'.queue == [Id(0, 0)] && s'.ring == s.ring && s'.nextTicket == 0
    ensures s'.live == map[Id(0, 0) := Task(0, Await(0, Finish, Finish), None)]
  {
    ReachableStep(s, EvPrepare(0, Await(0, Finish, Finish)));
    var s1 := DoPrepare(s, 0, Await(0, Finish, Finish));
    ReachableStep(s1, EvSpawn(Id(0, 0)));
    s' := DoSpawn(s1, Id(0, 0));
  }
}
