/** `Executor::run` with the post-drain functions that the repository passes to it. */
module RunLoop {
  import opened Types
  import opened Machine
  import opened Invariant
  import opened Preservation
  import opened Runs
  import opened Rounds
  import opened Progress
  import opened Termination
  import opened Pools
  import opened Rings
  import opened Runtime
  import opened Reactors
  import opened Paths

  /** `flush(0, 0, false)`, `run(ns)` and `run_for_ns(ns)`, their errors ignored. */
  datatype PostDrain = CallFlush | CallRun(ns: nat) | CallRunForNs(ns: nat)

  /** `Hung`: the post-drain function never returned.  `Panicked`: it did not find room for a timeout
      entry.  `Leftover`: it failed and left a timeout entry in the ring, where the next flush would
      underflow. */
  datatype Outcome = Done | Hung | Panicked | Leftover

  method CallPostDrain(ex: Executor, hook: PostDrain) returns (r: Flow, ghost seen: seq<Seen>)
    requires Ready(ex) && NumTimeouts(ex.st.ring) == 0 && ex.st.ring.cap > 0
    modifies ex.Repr()
    ensures Ready(ex) && Spent(old(ex.st), ex.st) && ex.reactor.ring.log == old(ex.reactor.ring.log) + seen
    ensures r.Ok? ==> NumTimeouts(ex.st.ring) == 0
    ensures r.Spins? ==> HookHangs(hook, seen, ex.st.ring)
    ensures r.Panics? ==> !CanPush(ex.st.ring) && LastCode(seen) == Some(0)
    ensures !r.Miscounts? && LastCode(seen).Some? && (r.Err? ==> Fails(seen))
    ensures HookRan(hook, old(ex.st), seen, ex.st, r.Ok? || r.Err?)
    ensures r.Ok? && hook.CallRunForNs? ==> Expiry(seen)
    ensures r.Ok? && hook.CallRun? ==> (Expiry(seen) <==> NumRequests(ex.st.ring) == 0 && ex.st.failed == 0)
    ensures hook.CallFlush? ==> !r.Panics? && NumTimeouts(ex.st.ring) == 0 && (r.Spins? ==> Busy(seen))
    ensures ex.reactor.ring.patience <= old(ex.reactor.ring.patience)
    ensures ex.reactor.ring.patience == old(ex.reactor.ring.patience) ==>
              r.Ok? && (NumRequests(old(ex.st).ring) > 0 ==> NumRequests(ex.st.ring) < NumRequests(old(ex.st).ring))
  {
    hide Ready, NumTimeouts, NumRequests, Spent, StuckReq, StuckTime, Busy, Expiry, TimeoutPops, Expired;
    hide LastCode, AfterCode, EndsBusy, Fails, Decides, Dropped, RunLog, WaitLog, Asked;
    match hook
    case CallFlush =>
      r, seen := Flush(ex, 0, 0, false);
      FlushDecides(seen, r);
    case CallRun(ns) =>
      r, seen := Reactors.Run(ex, ns);
    case CallRunForNs(ns) =>
      var timeouts;
      r, timeouts, seen := RunForNs(ex, ns);
  }

  /** What a post-drain function that never returns waits for, in vain: after EBUSY or EAGAIN for a
      request; or in `run_for_ns` for a timeout that it counts, one left unsubmitted or one dropped. */
  ghost predicate HookHangs(hook: PostDrain, seen: seq<Seen>, r: Ring) {
    if EndsBusy(seen) then StuckReq(r) else
    StuckTime(r) && match hook
                    case CallFlush => false
                    case CallRun(_) => Timeout in r.sq
                    case CallRunForNs(_) => Timeout in r.sq || Dropped(seen) > 0
  }

  /** The post-drain function was called in `s` and did in `s'` what it is for; if it `returned` without
      an error it has waited where it should. */
  ghost predicate HookRan(hook: PostDrain, s: State, seen: seq<Seen>, s': State, returned: bool) {
    && Spent(s, s') && LastCode(seen).Some?
    && match hook
       case CallFlush => FlushLog(seen)
       case CallRun(_) =>
         && (RunLog(seen, false) || RunLog(seen, true))
         && (returned ==> RunLog(seen, NumRequests(s'.ring) == 0 && s'.failed == 0))
         && (returned && !Fails(seen) ==> (Expiry(seen) <==> NumRequests(s'.ring) == 0 && s'.failed == 0))
       case CallRunForNs(_) => WaitLog(false, seen) && (returned && !Fails(seen) ==> Expiry(seen))
  }

  /** One turn of the loop of `run`: a drain and then a call of the post-drain function. */
  ghost predicate Turned(hook: PostDrain, s: State, seen: seq<Seen>, s': State, returned: bool) {
    exists s1 :: Drained(s, s1) && HookRan(hook, s1, seen, s', returned)
  }

  /** `n` turns lead from `s` to `s'`, and after each but the last some task was unfinished. */
  ghost predicate Looped(hook: PostDrain, s: State, seen: seq<Seen>, s': State, n: nat, returned: bool)
    decreases n
  {
    if n == 0 then s' == s && seen == [] && returned else
    exists s1, before, more ::
      && Looped(hook, s, before, s1, n - 1, true) && (n > 1 ==> s1.spawned > 0)
      && Turned(hook, s1, more, s', returned) && seen == before + more
  }

  /** What `run` does: at least one turn. */
  ghost predicate Ran(hook: PostDrain, s: State, seen: seq<Seen>, s': State, returned: bool) {
    exists n: nat :: n > 0 && Looped(hook, s, seen, s', n, returned)
  }

  lemma NoTurn(hook: PostDrain, s: State)
    ensures Looped(hook, s, [], s, 0, true)
  {
  }

  lemma OneMore(hook: PostDrain, s: State, before: seq<Seen>, s1: State, n: nat, more: seq<Seen>, s': State, returned: bool)
    requires Looped(hook, s, before, s1, n, true) && (n > 0 ==> s1.spawned > 0)
    requires Turned(hook, s1, more, s', returned)
    ensures Looped(hook, s, before + more, s', n + 1, returned) && Ran(hook, s, before + more, s', returned)
  {
    hide Turned, Looped, Ran;
    LoopedOn(hook, s, before, s1, n, more, s', returned, before + more);
    HasRun(hook, s, before + more, s', n + 1, returned);
  }

  lemma LoopedOn(hook: PostDrain, s: State, before: seq<Seen>, s1: State, n: nat, more: seq<Seen>, s': State,
                 returned: bool, seen: seq<Seen>)
    requires Looped(hook, s, before, s1, n, true) && (n > 0 ==> s1.spawned > 0)
    requires Turned(hook, s1, more, s', returned) && seen == before + more
    ensures Looped(hook, s, seen, s', n + 1, returned)
  {
    hide Turned;
  }

  lemma HasRun(hook: PostDrain, s: State, seen: seq<Seen>, s': State, n: nat, returned: bool)
    requires n > 0 && Looped(hook, s, seen, s', n, returned)
    ensures Ran(hook, s, seen, s', returned)
  {
    hide Looped;
  }

  /** The last call of the post-drain function waited. */
  lemma LastWaited(hook: PostDrain, before: seq<Seen>, s: State, more: seq<Seen>, s': State)
    requires Turned(hook, s, more, s', true)
    ensures hook.CallRun? && NumRequests(s'.ring) == 0 && s'.failed == 0 && !Fails(before + more) ==>
              Expiry(before + more)
    ensures hook.CallRunForNs? && !Fails(before + more) ==> Expiry(before + more)
  {
    hide LastCode, Fails, Expiry;
    SeenBoth(before, more, []);
  }

  // ---- a round ----

  /** A drain and what the post-drain function did after it are a round. */
  lemma RoundOf(s: State, s1: State, s2: State) returns (run: seq<Event>)
    requires Reachable(s) && Between(s) && Drained(s, s1) && Leads(s1, s2) && Between(s2)
    ensures IsRound(s, run) && AfterRound(s, run) == s2 && LeadsTo(s, s2)
  {
    hide Reachable;
    var drain :|
      && Legal(DoBeginDrain(s), drain) && NoBegin(drain) && NoOutside(drain) && Exec(DoBeginDrain(s), drain) == s1;
    var post :| Legal(s1, post) && NoBegin(post) && NoOutside(post) && Exec(s1, post) == s2;
    ExecConcat(DoBeginDrain(s), drain, post);
    run := drain + post;
    LeadsToItself(s);
    LeadsToStep(s, s, EvBeginDrain);
    LeadsToOn(s, DoBeginDrain(s), s2);
  }

  /** A round adds no work and forgets no push. */
  lemma RoundAdds(s: State, run: seq<Event>)
    requires Reachable(s) && IsRound(s, run)
    ensures var s2 := AfterRound(s, run); Total(s2.live) <= Total(s.live) && s.nextTicket <= s2.nextTicket
  {
    hide Inv, Reachable, Total;
    NoFault(s);
    BeginDrainKeeps(s);
    RunSpends(DoBeginDrain(s), run);
    HistoryGrows(DoBeginDrain(s), run);
  }

  lemma DeliveredIs(s: State)
    requires Reachable(s)
    ensures s.nextTicket == |s.delivered| + NumRequests(s.ring) && s.spawned == |s.live|
  {
    NoFault(s);
  }

  lemma NoWorkNoTask(m: map<Id, Task>)
    ensures Total(m) == 0 <==> m == map[]
  {
    if m != map[] {
      var id :| id in m;
      TotalPick(m, id);
    }
  }

  /** If the post-drain function delivers something whenever a request is outstanding, the round uses
      up work. */
  lemma HelpedRoundFalls(s: State, s1: State, s2: State, run: seq<Event>)
    requires Reachable(s) && Reachable(s2) && IsRound(s, run) && AfterRound(s, run) == s2
    requires NumTimeouts(s.ring) == 0 && s.ring.cap > 0
    requires NumRequests(s1.ring) == 0 || NumRequests(s2.ring) < NumRequests(s1.ring)
    requires Spent(s1, s2) && Drained(s, s1) && Reachable(s1) && s2.spawned > 0
    ensures Total(s2.live) < Total(s.live)
  {
    hide Inv, Reachable, Total, NumRequests, NumTimeouts, Drained;
    DrainHistory(s, s1);
    SpentFacts(s1, s2);
    DeliveredIs(s);
    DeliveredIs(s1);
    DeliveredIs(s2);
    if NumRequests(s.ring) == 0 && NumRequests(s1.ring) == 0 {
      RingSize(s.ring);
      if s.queue == [] {
        NoLostWakeup(s);
        RoundAdds(s, run);
        NoWorkNoTask(s2.live);
        NoWorkNoTask(s.live);
      } else {
        RoundSpends(s, run);
      }
    } else {
      RoundSpends(s, run);
    }
  }

  lemma DrainHistory(s: State, s1: State)
    requires Reachable(s) && Between(s) && Drained(s, s1)
    ensures s.nextTicket <= s1.nextTicket && |s.delivered| <= |s1.delivered|
  {
    hide Inv, Reachable;
    NoFault(s);
    BeginDrainKeeps(s);
    var run :| Legal(DoBeginDrain(s), run) && Exec(DoBeginDrain(s), run) == s1;
    HistoryGrows(DoBeginDrain(s), run);
  }

  /** One drain. */
  method Round(ex: Executor)
    requires Ready(ex)
    modifies ex.Repr()
    ensures Ready(ex) && DrainKeeps(old(ex.st), ex.st) && Drained(old(ex.st), ex.st)
    ensures ex.reactor.ring.patience == old(ex.reactor.ring.patience)
    ensures ex.reactor.ring.log == old(ex.reactor.ring.log)
  {
    hide Total, NumTimeouts, Reachable, Drained;
    ex.DrainRound();
  }

  lemma HangsLater(hook: PostDrain, before: seq<Seen>, more: seq<Seen>, r: Ring)
    requires LastCode(more).Some?
    ensures HookHangs(hook, more, r) ==> HookHangs(hook, before + more, r)
  {
    hide LastCode, AfterCode, ArmedAfter, DroppedFrom;
    SeenBoth(before, more, []);
    DroppedConcat(false, before, more);
    ArmedDropsMore(more);
  }

  /** Whether a timeout entry is in the ring. */
  method TimeoutLeft(ex: Executor) returns (b: bool)
    requires Ready(ex)
    ensures b <==> NumTimeouts(ex.st.ring) > 0
  {
    ReadyFacts(ex);
    var ring := ex.reactor.ring;
    b := Timeout in ring.sq || Timeout in ring.inflight || Timeout in EntriesOf(ring.cq);
  }

  method OneTurn(ex: Executor, hook: PostDrain) returns (r: Flow, ghost seen: seq<Seen>)
    requires Ready(ex) && NumTimeouts(ex.st.ring) == 0 && ex.st.ring.cap > 0
    modifies ex.Repr()
    ensures Ready(ex) && LeadsTo(old(ex.st), ex.st) && ex.reactor.ring.log == old(ex.reactor.ring.log) + seen
    ensures Turned(hook, old(ex.st), seen, ex.st, r.Ok? || r.Err?)
    ensures old(ex.st).nextSerial <= ex.st.nextSerial && ex.st.ring.cap > 0 && (r.Ok? ==> NumTimeouts(ex.st.ring) == 0)
    ensures r.Spins? ==> HookHangs(hook, seen, ex.st.ring)
    ensures r.Panics? ==> !CanPush(ex.st.ring) && LastCode(seen) == Some(0)
    ensures !r.Miscounts? && LastCode(seen).Some? && (r.Err? ==> Fails(seen))
    ensures hook.CallFlush? ==> !r.Panics? && NumTimeouts(ex.st.ring) == 0 && (r.Spins? ==> Busy(seen))
    ensures Total(ex.st.live) <= Total(old(ex.st).live) && ex.reactor.ring.patience <= old(ex.reactor.ring.patience)
    ensures ex.reactor.ring.patience == old(ex.reactor.ring.patience) ==>
              r.Ok? && (ex.st.spawned > 0 ==> Total(ex.st.live) < Total(old(ex.st).live))
  {
    hide Ready, NumTimeouts, NumRequests, Spent, Reachable, Total, Drained, Busy, Leads, LeadsTo, LastCode;
    hide HookHangs, Fails, EndsBusy, Expiry, HookRan;
    ghost var s := ex.st;
    ReadyFacts(ex);
    Round(ex);
    ReadyFacts(ex);
    ghost var s1 := ex.st;
    r, seen := CallPostDrain(ex, hook);
    ReadyFacts(ex);
    SpentFacts(s1, ex.st);
    ghost var run := RoundOf(s, s1, ex.st);
    RoundAdds(s, run);
    if ex.reactor.ring.patience == old(ex.reactor.ring.patience) && ex.st.spawned > 0 {
      HelpedRoundFalls(s, s1, ex.st, run);
    }
  }

  /** `run`: with tasks of finite scripts it ends, unless the reactor hangs, and then every task that
      was ever spawned has been driven to Ready exactly once, nothing is queued and no request is
      outstanding.  While the kernel helps nothing else can happen; with `flush` as the post-drain
      function, only EBUSY and EAGAIN can make it hang. */
  method Run(ex: Executor, hook: PostDrain) returns (o: Outcome, ghost seen: seq<Seen>)
    requires Ready(ex) && NumTimeouts(ex.st.ring) == 0 && ex.st.ring.cap > 0
    modifies ex.Repr()
    ensures Ready(ex) && LeadsTo(old(ex.st), ex.st) && ex.reactor.ring.log == old(ex.reactor.ring.log) + seen
    ensures old(ex.st).nextSerial <= ex.st.nextSerial
    ensures o.Done? ==>
              && ex.spawned == 0 && ex.st.live == map[] && ex.st.queue == [] && NumRequests(ex.st.ring) == 0
              && NoDup(ex.st.finished) && (forall n: nat :: n in ex.st.finished <==> n < ex.st.nextSerial)
    ensures Ran(hook, old(ex.st), seen, ex.st, o.Done? || o.Leftover?)
    ensures o.Done? && hook.CallRun? && ex.st.failed == 0 && !Fails(seen) ==> Expiry(seen)
    ensures o.Done? && hook.CallRunForNs? && !Fails(seen) ==> Expiry(seen)
    ensures LastCode(seen).Some?
    ensures o.Hung? ==> HookHangs(hook, seen, ex.st.ring)
    ensures o.Panicked? ==> !CanPush(ex.st.ring) && LastCode(seen) == Some(0)
    ensures o.Leftover? ==> NumTimeouts(ex.st.ring) > 0 && Fails(seen)
    ensures hook.CallFlush? && !Busy(seen) ==> o.Done?
    ensures ex.reactor.ring.patience <= old(ex.reactor.ring.patience)
    ensures ex.reactor.ring.patience == old(ex.reactor.ring.patience) ==> o.Done?
  {
    hide Ready, NumTimeouts, NumRequests, Spent, Reachable, Total, Drained, Busy, Leads, LeadsTo, LastCode;
    hide HookHangs, Fails, EndsBusy, Expiry, Turned, Looped, Ran, NoDup, CanPush;
    ghost var s0, log0 := ex.st, ex.reactor.ring.log;
    ghost var n: nat := 0;
    seen := [];
    LeadsToItself(s0);
    NothingSeen(s0, log0);
    NoTurn(hook, s0);
    while true
      invariant Looped(hook, s0, seen, ex.st, n, true) && (n > 0 ==> ex.st.spawned > 0)
      invariant Ready(ex) && NumTimeouts(ex.st.ring) == 0 && ex.st.ring.cap > 0
      invariant LeadsTo(s0, ex.st) && ex.reactor.ring.log == log0 + seen
      invariant s0.nextSerial <= ex.st.nextSerial && ex.reactor.ring.patience <= old(ex.reactor.ring.patience)
      decreases Total(ex.st.live) + ex.reactor.ring.patience
    {
      ghost var s, before, more := ex.st, seen, [];
      var r;
      r, more := OneTurn(ex, hook);
      ReadyFacts(ex);
      SeenBoth(before, more, log0);
      seen := before + more;
      LeadsToOn(s0, s, ex.st);
      HangsLater(hook, before, more, ex.st.ring);
      OneMore(hook, s0, before, s, n, more, ex.st, r.Ok? || r.Err?);
      n := n + 1;
      if r.Spins? {
        return Hung, seen;
      }
      if r.Panics? {
        return Panicked, seen;
      }
      if ex.spawned == 0 {
        Exit(ex.st);
        LastWaited(hook, before, s, more, ex.st);
        return Done, seen;
      }
      var left := TimeoutLeft(ex);
      if left {
        return Leftover, seen;
      }
    }
  }

  // ---- a whole program ----

  method MakePools(sizes: seq<nat>) returns (pools: seq<TaskPool>)
    ensures |pools| == |sizes|
    ensures forall p :: 0 <= p < |sizes| ==> fresh(pools[p]) && fresh(pools[p].freeList) && fresh(pools[p].slots)
    ensures forall p :: 0 <= p < |sizes| ==>
              pools[p].index == p && pools[p].Valid() && pools[p].V() == Pool(sizes[p], 0, [])
    ensures forall p, i :: 0 <= p < |sizes| && 0 <= i < |pools[p].slots| ==>
              pools[p].slots[i].future.None? && pools[p].slots[i].leaf.None? && pools[p].slots[i].next == null
    ensures forall p, q :: 0 <= p < q < |sizes| ==> pools[p].freeList != pools[q].freeList
  {
    pools := [];
    for n := 0 to |sizes|
      invariant |pools| == n
      invariant forall p :: 0 <= p < n ==> fresh(pools[p]) && fresh(pools[p].freeList) && fresh(pools[p].slots)
      invariant forall p :: 0 <= p < n ==>
                  pools[p].index == p && pools[p].Valid() && pools[p].V() == Pool(sizes[p], 0, [])
      invariant forall p, i :: 0 <= p < n && 0 <= i < |pools[p].slots| ==>
                  pools[p].slots[i].future.None? && pools[p].slots[i].leaf.None? && pools[p].slots[i].next == null
      invariant forall p, q :: 0 <= p < q < n ==> pools[p].freeList != pools[q].freeList
    {
      var pool := new TaskPool(n, sizes[n]);
      pools := pools + [pool];
    }
  }

  /** A thread with pools of the given sizes, a ring and a kernel. */
  method Boot(sizes: seq<nat>, cap: nat, patience: nat) returns (ex: Executor)
    ensures Ready(ex) && ex.st == Start(sizes, cap) && fresh(ex.Repr())
    ensures fresh(ex.headers) && fresh(ex.freeLists) && fresh(ex.pools) && fresh(ex)
    ensures NumTimeouts(ex.st.ring) == 0 && ex.reactor.ring.patience == patience && ex.reactor.ring.log == []
  {
    hide Executor.Valid, Reachable, Executor.Wired;
    var pools := MakePools(sizes);
    var ring := new IoUring(cap, patience);
    var reactor := new Reactor(ring);
    ex := new Executor(pools, reactor);
    assert SizesOf(pools) == sizes;
    EmptyRing(ex.st.ring);
  }

  /** The main task, and no other, is spawned and queued. */
  ghost predicate Begun(main: Script, s: State) {
    s.live == map[Id(0, 0) := Task(0, main, None)] && s.queue == [Id(0, 0)] && s.spawned == 1 && s.failed == 0
  }

  /** Prepares the main task in a pool of one and spawns it. */
  method Begin(main: Script, sizes: seq<nat>, cap: nat, patience: nat) returns (ex: Executor)
    ensures Ready(ex) && LeadsTo(Start([1] + sizes, cap), ex.st) && fresh(ex.Repr())
    ensures Begun(main, ex.st) && RunsMain(main, Start([1] + sizes, cap), ex.st)
    ensures ex.st.nextSerial == 1 && ex.st.ring == Ring(cap, [], [], [])
    ensures ex.reactor.ring.patience == patience && ex.reactor.ring.log == []
  {
    hide Executor.Valid, Reachable, Executor.Wired, LeadsTo, RunsMain;
    ex := Boot([1] + sizes, cap, patience);
    ghost var s := ex.st;
    LeadsToItself(s);
    assert Candidate(s, 0) == Some(Id(0, 0));
    var task := ex.PrepareTask(0, main);
    LeadsToStep(s, s, EvPrepare(0, main));
    ex.IsHeader(task);
    LeadsToStep(s, ex.st, EvSpawn(task.id));
    FirstBirth(main, s);
    ex.SpawnTask(task);
  }

  lemma FirstBirth(main: Script, s: State)
    requires Candidate(s, 0) == Some(Id(0, 0))
    ensures RunsMain(main, s, DoSpawn(DoPrepare(s, 0, main), Id(0, 0)))
  {
    var s1, prepare, spawn := DoPrepare(s, 0, main), EvPrepare(0, main), EvSpawn(Id(0, 0));
    OneStep(s, prepare);
    OneStep(s1, spawn);
    ExecConcat(s, [prepare], [spawn]);
    BirthsConcat(s, [prepare], [spawn]);
    assert Births(s, [prepare]) == Birth(s, prepare) + Births(s1, []) == [];
    assert Births(s1, [spawn]) == Birth(s1, spawn) + Births(DoSpawn(s1, Id(0, 0)), []) == [main];
  }

  /** The main task was spawned, and then `run` did what it does. */
  ghost predicate RanMain(main: Script, s0: State, hook: PostDrain, seen: seq<Seen>, s': State, returned: bool) {
    exists s :: Begun(main, s) && LeadsTo(s0, s) && LeadsTo(s, s') && Ran(hook, s, seen, s', returned)
  }

  /** The function that the `entry` attribute generates: prepare the main task in a pool of one,
      spawn it, run.  Whatever the main task does and spawns, in any number of pools: when the run
      ends, everything has been driven to Ready exactly once. */
  method Entry(main: Script, sizes: seq<nat>, cap: nat, patience: nat, ns: nat) returns (o: Outcome, ex: Executor)
    requires cap > 0
    ensures Ready(ex) && RunsMain(main, Start([1] + sizes, cap), ex.st)
    ensures RanMain(main, Start([1] + sizes, cap), CallRun(ns), ex.reactor.ring.log, ex.st, o.Done? || o.Leftover?)
    ensures o.Done? ==> MainDone(main, Start([1] + sizes, cap), ex.st)
    ensures o.Done? && ex.st.failed == 0 && !Fails(ex.reactor.ring.log) ==> Expiry(ex.reactor.ring.log)
    ensures o.Done? ==> ex.st.live == map[] && NumRequests(ex.st.ring) == 0
    ensures o.Done? ==>
              && 0 in ex.st.finished // the main task
              && NoDup(ex.st.finished) && forall n: nat :: n in ex.st.finished <==> n < ex.st.nextSerial
    ensures o.Hung? ==> HangsOn(ex.reactor.ring.log, ex.st.ring)
    ensures o.Panicked? ==> !CanPush(ex.st.ring) && LastCode(ex.reactor.ring.log) == Some(0)
    ensures o.Leftover? ==> NumTimeouts(ex.st.ring) > 0 && Fails(ex.reactor.ring.log)
    ensures ex.reactor.ring.patience == patience ==> o.Done?
    ensures patience == 0 ==> o.Done?
  {
    hide Ready, NumRequests, NumTimeouts, LeadsTo, StuckReq, StuckTime, Busy, LastCode, Fails, EndsBusy, Expiry, Ran;
    hide RunsMain, MainDone;
    ex := Begin(main, sizes, cap, patience);
    EmptyRing(ex.st.ring);
    ghost var s1, seen := ex.st, [];
    o, seen := Run(ex, CallRun(ns));
    MainThen(main, Start([1] + sizes, cap), s1, ex.st);
    if o.Done? {
      MainFinishes(main, [1] + sizes, cap, ex.st);
    }
    AppendNothing(seen);
  }
}
