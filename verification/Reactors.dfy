/** The loops of the reactor, on one thread's objects.  A call that can be shown never to return is
    an outcome of its own, `Spins`.  Every method reports as `seen` what the kernel answered and what
    it consumed of the completion queue during the call, which is tied to the ring's own log. */
module Reactors {
  import opened Types
  import opened Machine
  import opened Invariant
  import opened Runs
  import opened Progress
  import opened Rings
  import opened TimeoutLoop
  import opened Runtime

  /** `Miscounts`: a further pass would subtract the completions of an earlier one again. */
  datatype Flow = Ok(timeouts: nat, etime: bool) | Err | Spins | Panics | Miscounts

  // ---- between two calls ----

  /** The state between two calls of the reactor. */
  ghost predicate Ready(ex: Executor)
    reads ex, ex.taskQueue, ex.reactor, ex.reactor.ring, ex.pools, ex.freeLists, ex.headers
    reads ex.taskQueue.contents`next, ex.seg`next
  {
    ex.Valid() && Between(ex.st) && ex.st.unsettled == 0
  }

  /** From `s` to `s'` the machine ran without a drain and the reactor consumed some completions: each
      lowered `req_queued` by one and left one step less of work. */
  ghost predicate Spent(s: State, s': State) {
    && Leads(s, s')
    && s'.ring.cap == s.ring.cap && s'.failed == s.failed && s'.nextSerial == s.nextSerial
    && s'.nextTicket == s.nextTicket
    && NumRequests(s'.ring) <= NumRequests(s.ring)
    && s.reqQueued - s'.reqQueued == NumRequests(s.ring) - NumRequests(s'.ring)
    && Total(s'.live) + NumRequests(s.ring) <= Total(s.live) + NumRequests(s'.ring)
  }

  lemma ReadyFacts(ex: Executor)
    requires Ready(ex)
    ensures Reachable(ex.st) && ex.reactor.ring.V() == ex.st.ring && ex.spawned == ex.st.spawned
    ensures ex.reactor.reqQueued == ex.st.reqQueued && Between(ex.st)
  {
  }

  lemma SpentNothing(s: State)
    ensures Spent(s, s)
  {
    LeadsNowhere(s);
  }

  lemma SpentTwice(s: State, s1: State, s2: State)
    requires Spent(s, s1) && Spent(s1, s2)
    ensures Spent(s, s2)
  {
    LeadsOn(s, s1, s2);
  }

  lemma SpentFacts(s: State, s': State)
    requires Spent(s, s')
    ensures s'.ring.cap == s.ring.cap && s'.failed == s.failed && NumRequests(s'.ring) <= NumRequests(s.ring)
    ensures Total(s'.live) <= Total(s.live) && s'.nextSerial == s.nextSerial && s'.nextTicket == s.nextTicket
    ensures Leads(s, s')
  {
  }

  // ---- what has reached the kernel ----

  ghost function InKernel(r: Ring): multiset<Entry> {
    multiset(r.inflight) + multiset(EntriesOf(r.cq))
  }

  ghost function KernelRequests(r: Ring): nat {
    |InKernel(r)| - InKernel(r)[Timeout]
  }

  /** Kernel moves neither lose nor make entries. */
  lemma {:induction false} MovesConserve(r: Ring, ms: seq<Move>)
    ensures Outstanding(KernelMoves(r, ms)) == Outstanding(r)
    ensures NumRequests(KernelMoves(r, ms)) == NumRequests(r) && NumTimeouts(KernelMoves(r, ms)) == NumTimeouts(r)
    ensures KernelMoves(r, ms).cap == r.cap
    decreases |ms|
  {
    hide Outstanding;
    if ms != [] {
      KernelConserves(r, ms[0]);
      MovesConserve(KernelMove(r, ms[0]), ms[1..]);
    }
  }

  /** While nothing is submitted, requests go by what has reached the kernel. */
  lemma SameSq(r: Ring, r': Ring)
    requires r'.sq == r.sq
    ensures NumRequests(r) - NumRequests(r') == KernelRequests(r) - KernelRequests(r')
    ensures Outstanding(r) == Outstanding(r') ==> |r.inflight| + |r.cq| == |r'.inflight| + |r'.cq|
  {
    assert Outstanding(r) == multiset(r.sq) + InKernel(r);
    assert Outstanding(r') == multiset(r.sq) + InKernel(r');
    assert |Outstanding(r)| == |r.sq| + |r.inflight| + |r.cq|;
    assert |Outstanding(r')| == |r.sq| + |r'.inflight| + |r'.cq|;
  }

  lemma NoneInKernel(r: Ring)
    ensures NoRequest(r.inflight) && NoRequest(EntriesOf(r.cq)) ==> KernelRequests(r) == 0
    ensures NoTimeout(r.inflight) && NoTimeout(EntriesOf(r.cq)) ==> InKernel(r)[Timeout] == 0
  {
    var m := InKernel(r);
    assert forall e: Entry :: e in m <==> e in r.inflight || e in EntriesOf(r.cq);
    if NoRequest(r.inflight) && NoRequest(EntriesOf(r.cq)) {
      assert m == multiset{}[Timeout := m[Timeout]];
    }
    if NoTimeout(r.inflight) && NoTimeout(EntriesOf(r.cq)) {
      assert Timeout !in m;
    }
  }

  lemma InKernelIsOutstanding(r: Ring)
    ensures KernelRequests(r) <= NumRequests(r)
    ensures r.sq == [] ==> KernelRequests(r) == NumRequests(r)
  {
    var q := multiset(r.sq);
    assert Outstanding(r) == q + InKernel(r);
    assert |q[Timeout := 0]| == |q| - q[Timeout];
  }

  /** No request, respectively no timeout, has reached the kernel. */
  ghost predicate NoRequestComes(r: Ring) {
    NoRequest(r.inflight) && NoRequest(EntriesOf(r.cq))
  }

  ghost predicate NoTimeoutComes(r: Ring) {
    NoTimeout(r.inflight) && NoTimeout(EntriesOf(r.cq))
  }

  /** Where a loop that waits for a request spins for ever, and one that waits for a timeout. */
  ghost predicate StuckReq(r: Ring) {
    r.cq == [] && NoRequestComes(r)
  }

  ghost predicate StuckTime(r: Ring) {
    r.cq == [] && NoTimeoutComes(r)
  }

  /** The kernel answers, completions are consumed and settled; nothing is submitted. */
  predicate Reaps(e: Event) {
    (e.EvKernel? && e.move.Answer?) || e.EvDeliver? || e.EvSettle?
  }

  ghost predicate OnlyReaps(run: seq<Event>) {
    forall e <- run :: Reaps(e)
  }

  lemma ReapStep(s: State, e: Event)
    requires Enabled(s, e) && Reaps(e)
    ensures var r, r' := s.ring, Apply(s, e).ring;
            && r'.sq == r.sq && r'.cap == r.cap
            && (NoRequestComes(r) ==> NoRequestComes(r') && NumRequests(r') == NumRequests(r))
            && (NoTimeoutComes(r) ==> NoTimeoutComes(r') && NumTimeouts(r') == NumTimeouts(r))
  {
    hide NoRequestComes, NoTimeoutComes, NumRequests, NumTimeouts, DoDeliver, KernelMove;
    match e
    case EvKernel(m) =>
      AnswerBringsNothing(s.ring, m.at, m.res);
    case EvDeliver =>
      DeliverRing(s);
      PopBringsNothing(s.ring);
    case EvSettle =>
  }

  lemma DeliverRing(s: State)
    requires s.ring.cq != []
    ensures DoDeliver(s).ring == s.ring.(cq := s.ring.cq[1..])
  {
  }

  lemma PopBringsNothing(r: Ring)
    requires r.cq != []
    ensures var r' := r.(cq := r.cq[1..]);
            && (NoRequestComes(r) ==> NoRequestComes(r') && NumRequests(r') == NumRequests(r))
            && (NoTimeoutComes(r) ==> NoTimeoutComes(r') && NumTimeouts(r') == NumTimeouts(r))
  {
    hide NumRequests, NumTimeouts;
    EntriesHead(r.cq);
    ConsumeCounts(r);
    assert EntriesOf(r.cq)[0] == r.cq[0].entry;
    assert r.cq[0].entry in EntriesOf(r.cq);
    assert forall e <- EntriesOf(r.cq[1..]) :: e in EntriesOf(r.cq);
  }

  lemma AnswerBringsNothing(r: Ring, at: nat, res: int)
    ensures var r' := KernelMove(r, Answer(at, res));
            && r'.sq == r.sq && r'.cap == r.cap
            && NumRequests(r') == NumRequests(r) && NumTimeouts(r') == NumTimeouts(r)
            && (NoRequestComes(r) ==> NoRequestComes(r')) && (NoTimeoutComes(r) ==> NoTimeoutComes(r'))
  {
    hide Outstanding;
    KernelConserves(r, Answer(at, res));
    if at < |r.inflight| {
      EntriesAppend(r.cq, Cqe(r.inflight[at], res));
      assert forall e <- KernelMove(r, Answer(at, res)).inflight :: e in r.inflight;
    }
  }

  /** Why `Spins` is for ever: the loops that end in it submit nothing, and as long as nothing is
      submitted no request (no timeout) is ever consumed, whatever the kernel answers and however
      often the completion queue is emptied. */
  lemma {:induction false} StuckStays(s: State, run: seq<Event>)
    requires Legal(s, run) && OnlyReaps(run)
    ensures var r, r' := s.ring, Exec(s, run).ring;
            && r'.sq == r.sq && r'.cap == r.cap
            && (NoRequestComes(r) ==> NoRequestComes(r') && NumRequests(r') == NumRequests(r))
            && (NoTimeoutComes(r) ==> NoTimeoutComes(r') && NumTimeouts(r') == NumTimeouts(r))
    decreases |run|
  {
    hide Apply, Enabled, NoRequestComes, NoTimeoutComes, NumRequests, NumTimeouts;
    if run != [] {
      ReapStep(s, run[0]);
      StuckStays(Apply(s, run[0]), run[1..]);
    }
  }

  // ---- what one pass over the completion queue does ----

  /** The step of one completion, in numbers. */
  lemma DeliverCounts(s: State)
    requires Reachable(s) && Between(s) && s.ring.cq != []
    ensures var s', c := DoDeliver(s), s.ring.cq[0];
            && Leads(s, s') && Between(s') && s'.failed == s.failed && s'.reqQueued == s.reqQueued
            && s'.nextSerial == s.nextSerial && s'.nextTicket == s.nextTicket
            && s'.ring == s.ring.(cq := s.ring.cq[1..])
            && NumTimeouts(s.ring) == NumTimeouts(s'.ring) + (if c.entry.Timeout? then 1 else 0)
            && NumRequests(s.ring) == NumRequests(s'.ring) + (if c.entry.Timeout? then 0 else 1)
            && s'.unsettled == s.unsettled + (if c.entry.Timeout? then 0 else 1)
            && Total(s'.live) + (if c.entry.Timeout? then 0 else 1) <= Total(s.live)
  {
    hide QueueInv, RingInv, LeafInv, PoolInv, SerialInv, CountInv, Reachable;
    NoFault(s);
    ConsumeCounts(s.ring);
    LeadsNowhere(s);
    LeadsStep(s, s, EvDeliver);
    if s.ring.cq[0].entry.Req? {
      DeliverIsSound(s);
      DeliverSpends(s);
    }
  }

  /** How a pass that consumes completions moves the machine before it settles. */
  ghost predicate Passed(s: State, s': State, collected: nat) {
    && Leads(s, s') && Between(s') && s'.unsettled == s.unsettled + collected
    && s'.ring == s.ring.(cq := s'.ring.cq)
    && s'.failed == s.failed && s'.reqQueued == s.reqQueued
    && s'.nextSerial == s.nextSerial && s'.nextTicket == s.nextTicket
    && collected + NumRequests(s'.ring) == NumRequests(s.ring)
    && Total(s'.live) + collected <= Total(s.live)
  }

  lemma PassedOne(s: State, s1: State, collected: nat)
    requires Passed(s, s1, collected) && Reachable(s1) && s1.ring.cq != []
    ensures Passed(s, DoDeliver(s1), collected + if s1.ring.cq[0].entry.Timeout? then 0 else 1)
    ensures NumTimeouts(s1.ring) == NumTimeouts(DoDeliver(s1).ring) + if s1.ring.cq[0].entry.Timeout? then 1 else 0
    ensures DoDeliver(s1).ring.cq == s1.ring.cq[1..]
  {
    hide Reachable, Leads, Total, NumRequests, NumTimeouts;
    DeliverCounts(s1);
    LeadsOn(s, s1, DoDeliver(s1));
  }

  /** What one more consumed completion adds. */
  lemma SeenOne(seen: seq<Seen>, c: Cqe)
    requires NoCode(seen)
    ensures var more := seen + [Popped(c)];
            && NoCode(more) && (OnlyTimeouts(more) <==> OnlyTimeouts(seen) && c.entry.Timeout?)
            && TimeoutPops(more) == TimeoutPops(seen) + (if c.entry.Timeout? then 1 else 0)
            && (Expiry(more) <==> Expiry(seen) || c == Cqe(Timeout, -ETIME))
  {
    PopsConcat(seen, [Popped(c)]);
    assert [Popped(c)][1..] == [];
    assert forall x :: x in seen + [Popped(c)] <==> x in seen || x == Popped(c);
  }

  /** The locals of a pass that has `cq` of `cq0` left and has consumed `seen`. */
  ghost predicate Counted(cq0: seq<Cqe>, cq: seq<Cqe>, timeouts: nat, etime: bool,
                          t: nat, e: bool, collected: nat, seen: seq<Seen>) {
    && NoCode(seen) && t + TimeoutPops(seen) == timeouts && e == (etime || Expiry(seen))
    && collected + TimeoutPops(seen) + |cq| == |cq0| && (OnlyTimeouts(seen) <==> collected == 0)
    && (collected == 0 && NoRequest(EntriesOf(cq)) ==> NoRequest(EntriesOf(cq0)))
    && (Expired(cq0) ==> Expired(cq) && (TimeoutPops(seen) > 0 ==> Expiry(seen)))
  }

  lemma CountedOne(cq0: seq<Cqe>, cq: seq<Cqe>, timeouts: nat, etime: bool,
                   t: nat, e: bool, collected: nat, seen: seq<Seen>)
    requires Counted(cq0, cq, timeouts, etime, t, e, collected, seen) && cq != []
    requires cq[0].entry.Timeout? ==> t > 0
    ensures var c := cq[0];
            Counted(cq0, cq[1..], timeouts, etime, if c.entry.Timeout? then t - 1 else t,
                    e || (c.entry.Timeout? && -c.res == ETIME),
                    if c.entry.Timeout? then collected else collected + 1, seen + [Popped(c)])
            && TimeoutPops(seen + [Popped(c)]) == TimeoutPops(seen) + if c.entry.Timeout? then 1 else 0
  {
    SeenOne(seen, cq[0]);
    NoRequestHead(cq);
  }

  /** `for cqe in completion()`. */
  method Pass(ex: Executor, timeouts: nat, etime: bool)
    returns (t: nat, e: bool, collected: nat, ghost seen: seq<Seen>)
    requires Ready(ex) && timeouts >= NumTimeouts(ex.st.ring)
    modifies ex.Repr()
    ensures ex.Valid() && Passed(old(ex.st), ex.st, collected) && ex.st.ring.cq == []
    ensures ex.reactor.ring.patience == old(ex.reactor.ring.patience)
    ensures ex.reactor.ring.log == old(ex.reactor.ring.log) + seen && NoCode(seen)
    ensures t + TimeoutPops(seen) == timeouts && e == (etime || Expiry(seen))
    ensures NumTimeouts(old(ex.st).ring) == NumTimeouts(ex.st.ring) + TimeoutPops(seen)
    ensures collected + TimeoutPops(seen) == |old(ex.st).ring.cq| && (OnlyTimeouts(seen) <==> collected == 0)
    ensures collected == 0 ==> NoRequest(EntriesOf(old(ex.st).ring.cq))
    ensures Expired(old(ex.st).ring.cq) && TimeoutPops(seen) > 0 ==> Expiry(seen)
  {
    hide Inv, Reachable, NumTimeouts, NumRequests, Total, Leads, Passed, Counted, DoDeliver, Executor.Valid;
    t, e, collected, seen := timeouts, etime, 0, [];
    ghost var s := ex.st;
    ex.Facts();
    PassedNone(s);
    CountedNone(s.ring.cq, t, e);
    while ex.reactor.ring.cq != []
      invariant ex.Valid() && Passed(s, ex.st, collected) && ex.reactor.ring.cq == ex.st.ring.cq
      invariant ex.reactor.ring.patience == old(ex.reactor.ring.patience)
      invariant ex.reactor.ring.log == old(ex.reactor.ring.log) + seen
      invariant Counted(s.ring.cq, ex.st.ring.cq, timeouts, etime, t, e, collected, seen)
      invariant NumTimeouts(s.ring) == NumTimeouts(ex.st.ring) + TimeoutPops(seen) && t >= NumTimeouts(ex.st.ring)
      decreases |ex.st.ring.cq|
    {
      ex.Facts();
      PassedBetween(s, ex.st, collected);
      PassedOne(s, ex.st, collected);
      CountedOne(s.ring.cq, ex.st.ring.cq, timeouts, etime, t, e, collected, seen);
      var c := ex.Deliver();
      ex.Facts();
      seen := seen + [Popped(c)];
      if c.entry.Timeout? {
        t := t - 1;
        if -c.res == ETIME {
          e := true;
        }
      } else {
        collected := collected + 1;
      }
    }
    CountedAll(s.ring.cq, timeouts, etime, t, e, collected, seen);
  }

  lemma CountedNone(cq: seq<Cqe>, timeouts: nat, etime: bool)
    ensures Counted(cq, cq, timeouts, etime, timeouts, etime, 0, []) && TimeoutPops([]) == 0
  {
  }

  lemma CountedAll(cq0: seq<Cqe>, timeouts: nat, etime: bool, t: nat, e: bool, collected: nat, seen: seq<Seen>)
    requires Counted(cq0, [], timeouts, etime, t, e, collected, seen)
    ensures NoCode(seen) && t + TimeoutPops(seen) == timeouts && e == (etime || Expiry(seen))
    ensures collected + TimeoutPops(seen) == |cq0| && (collected == 0 ==> NoRequest(EntriesOf(cq0)))
    ensures OnlyTimeouts(seen) <==> collected == 0
    ensures Expired(cq0) && TimeoutPops(seen) > 0 ==> Expiry(seen)
  {
    NoRequestHead([]);
  }

  lemma PassedNone(s: State)
    requires Between(s)
    ensures Passed(s, s, 0)
  {
    LeadsNowhere(s);
  }

  lemma PassedBetween(s: State, s': State, collected: nat)
    requires Passed(s, s', collected)
    ensures Between(s')
  {
  }

  lemma NoRequestHead(cq: seq<Cqe>)
    ensures cq == [] ==> NoRequest(EntriesOf(cq))
    ensures cq != [] && cq[0].entry.Timeout? && NoRequest(EntriesOf(cq[1..])) ==> NoRequest(EntriesOf(cq))
  {
    if cq != [] {
      EntriesHead(cq);
    }
  }

  // ---- flush_completions ----

  /** What a pass of a helpful kernel consumes: a request if one has reached the kernel, something if
      anything has, and only expired timeouts. */
  ghost predicate Helped(r: Ring, r': Ring, seen: seq<Seen>) {
    && (KernelRequests(r) > 0 ==> NumRequests(r') < NumRequests(r))
    && (r.inflight != [] || r.cq != [] ==> NumRequests(r') + NumTimeouts(r') < NumRequests(r) + NumTimeouts(r))
    && (Expired(r.cq) && TimeoutPops(seen) > 0 ==> Expiry(seen))
  }

  /** From `r` to `r1` the kernel helped, then `collected` requests and `seen` were consumed. */
  lemma PassHelps(r: Ring, r1: Ring, r2: Ring, collected: nat, seen: seq<Seen>)
    requires r1.sq == r.sq && Outstanding(r1) == Outstanding(r)
    requires NoRequest(EntriesOf(r1.cq)) ==> NoRequest(r1.inflight)
    requires r1.cq == [] ==> r1.inflight == []
    requires Expired(r.cq) ==> Expired(r1.cq)
    requires collected + NumRequests(r2) == NumRequests(r1)
    requires NumTimeouts(r1) == NumTimeouts(r2) + TimeoutPops(seen)
    requires collected + TimeoutPops(seen) == |r1.cq| && (collected == 0 ==> NoRequest(EntriesOf(r1.cq)))
    requires Expired(r1.cq) && TimeoutPops(seen) > 0 ==> Expiry(seen)
    ensures Helped(r, r2, seen)
  {
    SameSq(r, r1);
    NoneInKernel(r1);
  }

  lemma SettlePassed(s: State, s': State, collected: nat)
    requires Reachable(s) && s.unsettled == 0 && Passed(s, s', collected)
    ensures Spent(s, DoSettle(s')) && DoSettle(s').ring == s'.ring && DoSettle(s').unsettled == 0
    ensures Between(DoSettle(s'))
  {
    hide Total, NumRequests, Leads;
    LeadsStep(s, s', EvSettle);
    LeadsReachable(s, s');
    Counters(s');
  }

  lemma LeadsReachable(s: State, s': State)
    requires Reachable(s) && Leads(s, s')
    ensures Reachable(s')
  {
    hide Reachable;
    var run :| Legal(s, run) && NoBegin(run) && NoOutside(run) && Exec(s, run) == s';
    ReachableRun(s, run);
  }

  /** One turn of the loop of `flush_completions`, entered with `collected` 0. */
  method CollectOnce(ex: Executor, collected: nat, timeouts: nat, etime: bool)
    returns (t: nat, e: bool, got: nat, ghost seen: seq<Seen>)
    requires Ready(ex) && collected == 0 && timeouts >= NumTimeouts(ex.st.ring)
    modifies ex.Repr()
    ensures Ready(ex) && Spent(old(ex.st), ex.st) && ex.st.ring.sq == old(ex.st).ring.sq && ex.st.ring.cq == []
    ensures ex.reactor.ring.log == old(ex.reactor.ring.log) + seen && NoCode(seen)
    ensures t + TimeoutPops(seen) == timeouts && e == (etime || Expiry(seen))
    ensures NumTimeouts(old(ex.st).ring) == NumTimeouts(ex.st.ring) + TimeoutPops(seen)
    ensures got + NumRequests(ex.st.ring) == NumRequests(old(ex.st).ring) && (OnlyTimeouts(seen) <==> got == 0)
    ensures ex.reactor.ring.patience <= old(ex.reactor.ring.patience)
    ensures ex.reactor.ring.patience == old(ex.reactor.ring.patience) ==>
              Helped(old(ex.st).ring, ex.st.ring, seen) && (got == 0 && TimeoutPops(seen) == 0 ==> ex.st.ring.inflight == [])
  {
    hide Inv, Reachable, NumTimeouts, NumRequests, Total, KernelMoves, Leads, Spent, Helped, Expired, Executor.Valid;
    hide NoRequest, TimeoutPops, Expiry, NoCode, OnlyTimeouts, Outstanding, Passed;
    ghost var s := ex.st;
    ReadyFacts(ex);
    ghost var moves := ex.Sync();
    MovesConserve(s.ring, moves);
    ghost var s1 := ex.st;
    KernelSpends(s, moves);
    ex.Facts();
    t, e, got, seen := Pass(ex, timeouts, etime);
    if ex.reactor.ring.patience == old(ex.reactor.ring.patience) {
      assert got == 0 && TimeoutPops(seen) == 0 ==> s1.ring.inflight == [];
      PassedRing(s1, ex.st, got);
      PassHelps(s.ring, s1.ring, ex.st.ring, got, seen);
    }
    SettlePassed(s1, ex.st, got);
    PassedRing(s1, ex.st, got);
    ex.Settle(collected + got);
    SpentTwice(s, s1, ex.st);
  }

  lemma PassedRing(s: State, s': State, collected: nat)
    requires Passed(s, s', collected)
    ensures s'.ring == s.ring.(cq := s'.ring.cq) && collected + NumRequests(s'.ring) == NumRequests(s.ring)
    ensures Between(s') && s'.unsettled == s.unsettled + collected
  {
  }

  lemma KernelSpends(s: State, moves: seq<Move>)
    ensures Spent(s, s.(ring := KernelMoves(s.ring, moves)))
  {
    hide Leads, KernelMoves;
    KernelLeads(s, moves);
    MovesConserve(s.ring, moves);
  }

  /** Every completed request lowers `req_queued` by one.  With `want` 0 the call returns after one
      pass; with `want` 1 it returns if and only if a request has reached the kernel: timeouts do not
      count.  With a larger `want` it may come to a pass that subtracts too much. */
  method FlushCompletions(ex: Executor, want: nat, timeouts: nat, etime: bool)
    returns (r: Flow, ghost seen: seq<Seen>)
    requires Ready(ex) && timeouts >= NumTimeouts(ex.st.ring)
    modifies ex.Repr()
    ensures Ready(ex) && Spent(old(ex.st), ex.st) && ex.st.ring.sq == old(ex.st).ring.sq && ex.st.ring.cq == []
    ensures ex.reactor.ring.log == old(ex.reactor.ring.log) + seen && NoCode(seen)
    ensures NumTimeouts(old(ex.st).ring) == NumTimeouts(ex.st.ring) + TimeoutPops(seen)
    ensures OnlyTimeouts(seen) <==> NumRequests(ex.st.ring) == NumRequests(old(ex.st).ring)
    ensures want == 0 ==> r.Ok?
    ensures want == 1 ==> if KernelRequests(old(ex.st).ring) > 0 then r.Ok? else r.Spins?
    ensures match r
            case Ok(t, e) =>
              && t + TimeoutPops(seen) == timeouts && e == (etime || Expiry(seen))
              && NumRequests(ex.st.ring) + want <= NumRequests(old(ex.st).ring)
            case Spins => NumRequests(ex.st.ring) == NumRequests(old(ex.st).ring) && StuckReq(ex.st.ring)
            case Miscounts => 0 < NumRequests(old(ex.st).ring) - NumRequests(ex.st.ring) < want
            case _ => false
    ensures ex.reactor.ring.patience <= old(ex.reactor.ring.patience)
    ensures ex.reactor.ring.patience == old(ex.reactor.ring.patience) && want == 0 ==>
              Helped(old(ex.st).ring, ex.st.ring, seen)
  {
    hide Ready, NumTimeouts, NumRequests, KernelRequests, InKernel, Spent, Helped, Expiry, TimeoutPops, NoCode;
    hide OnlyTimeouts, StuckReq, StuckTime;
    var t, e, collected := timeouts, etime, 0;
    ghost var s0 := ex.st;
    seen := [];
    NothingSeen(s0, ex.reactor.ring.log);
    while true
      invariant Ready(ex) && collected == 0 && ex.st.ring.sq == s0.ring.sq && Spent(s0, ex.st)
      invariant NumRequests(ex.st.ring) == NumRequests(s0.ring)
      invariant ex.reactor.ring.log == old(ex.reactor.ring.log) + seen && NoCode(seen) && OnlyTimeouts(seen)
      invariant NumTimeouts(s0.ring) == NumTimeouts(ex.st.ring) + TimeoutPops(seen)
      invariant t + TimeoutPops(seen) == timeouts && e == (etime || Expiry(seen))
      invariant ex.reactor.ring.patience <= old(ex.reactor.ring.patience)
      invariant want == 0 ==> ex.st == s0 && seen == []
      decreases ex.reactor.ring.patience + NumTimeouts(ex.st.ring)
    {
      ghost var s, before, more := ex.st, seen, [];
      var got;
      t, e, got, more := CollectOnce(ex, collected, t, e);
      SpentTwice(s0, s, ex.st);
      SameSq(s0.ring, ex.st.ring);
      SeenMore(before, more, old(ex.reactor.ring.log));
      seen := before + more;
      collected := collected + got;
      if collected >= want {
        return Ok(t, e), seen;
      }
      if collected > 0 {
        return Miscounts, seen;
      }
      ReadyFacts(ex);
      if NoRequest(ex.reactor.ring.inflight) {
        StuckHere(ex.st.ring);
        return Spins, seen;
      }
    }
  }

  lemma NothingSeen(s: State, log: seq<Seen>)
    ensures Spent(s, s) && log == log + [] && NoCode([]) && TimeoutPops([]) == 0 && !Expiry([])
    ensures LastCode([]) == None && AfterCode([]) == [] && !Busy([]) && OnlyTimeouts([]) && Retries([])
    ensures Dropped([]) == 0 && !ArmedAfter(false, []) && forall want: nat :: Asked(want, [])
  {
    SpentNothing(s);
  }

  /** Consuming more. */
  lemma SeenMore(a: seq<Seen>, b: seq<Seen>, log: seq<Seen>)
    requires NoCode(b)
    ensures (log + a) + b == log + (a + b)
    ensures TimeoutPops(a + b) == TimeoutPops(a) + TimeoutPops(b)
    ensures Expiry(a + b) <==> Expiry(a) || Expiry(b)
    ensures NoCode(a) ==> NoCode(a + b)
    ensures LastCode(a + b) == LastCode(a) && AfterCode(a + b) == AfterCode(a) + b
    ensures BeforeCode(a + b) == BeforeCode(a)
    ensures forall want: nat :: Asked(want, a) ==> Asked(want, a + b)
    ensures OnlyTimeouts(a + b) <==> OnlyTimeouts(a) && OnlyTimeouts(b)
    ensures Busy(a + b) <==> Busy(a)
    ensures a == [] ==> a + b == b
  {
    hide TimeoutPops, LastCode, AfterCode, BeforeCode, NoCode, OnlyTimeouts;
    PopsConcat(a, b);
    NoCodeHasNone(b);
    LastCodePops(a, b);
    OnlyTimeoutsBoth(a, b);
    AskedBoth(a, b);
    NoCodeBoth(a, b);
    AppendNothing(b);
  }

  lemma NoCodeHasNone(seen: seq<Seen>)
    requires NoCode(seen)
    ensures forall x <- seen :: !x.Code?
  {
  }

  lemma OnlyTimeoutsBoth(a: seq<Seen>, b: seq<Seen>)
    ensures OnlyTimeouts(a + b) <==> OnlyTimeouts(a) && OnlyTimeouts(b)
  {
    assert forall x :: x in a + b <==> x in a || x in b;
  }

  lemma AskedBoth(a: seq<Seen>, b: seq<Seen>)
    ensures forall want: nat :: Asked(want, a + b) <==> Asked(want, a) && Asked(want, b)
    ensures NoCode(b) ==> forall want: nat :: Asked(want, b)
  {
    assert forall x :: x in a + b <==> x in a || x in b;
  }

  lemma NoCodeBoth(a: seq<Seen>, b: seq<Seen>)
    ensures NoCode(a) && NoCode(b) ==> NoCode(a + b)
  {
  }

  lemma StuckHere(r: Ring)
    requires r.cq == []
    ensures NoRequest(r.inflight) ==> KernelRequests(r) == 0 && StuckReq(r)
    ensures NoTimeout(r.inflight) ==> InKernel(r)[Timeout] == 0 && StuckTime(r)
  {
    assert EntriesOf(r.cq) == [];
    NoneInKernel(r);
  }

  // ---- flush_submissions, flush ----

  /** How the kernel decides what becomes of a flush: all its answers but the last make for another
      turn; after the last, 0 is success, EBUSY and EAGAIN are followed by timeouts only, and any other
      error is passed on. */
  ghost predicate Decides(seen: seq<Seen>, r: Flow) {
    && Retries(BeforeCode(seen))
    && match LastCode(seen)
       case None => false
       case Some(c) =>
         if c == 0 then r.Ok? && NoCode(AfterCode(seen))
         else if BusyCode(c) then r.Spins? && OnlyTimeouts(AfterCode(seen))
         else c != EINTR && r.Err? && AfterCode(seen) == []
  }

  /** One more turn of the loop. */
  lemma Retried(seen: seq<Seen>)
    requires LastCode(seen).Some? && Retries(BeforeCode(seen))
    requires if EndsBusy(seen) then NoCode(AfterCode(seen)) && !OnlyTimeouts(AfterCode(seen))
             else LastCode(seen).value == EINTR && AfterCode(seen) == []
    ensures Retries(seen)
  {
  }

  method EnterKernel(ex: Executor, want: nat) returns (code: int)
    requires Ready(ex)
    modifies ex.Repr()
    ensures Ready(ex) && Spent(old(ex.st), ex.st) && NumTimeouts(ex.st.ring) == NumTimeouts(old(ex.st).ring)
    ensures NumRequests(ex.st.ring) == NumRequests(old(ex.st).ring)
    ensures ex.reactor.ring.log == old(ex.reactor.ring.log) + [Code(want, code)]
    ensures ex.reactor.ring.patience <= old(ex.reactor.ring.patience)
    ensures ex.reactor.ring.patience == old(ex.reactor.ring.patience) ==>
              code == 0 && ex.st.ring.sq == [] && (Expired(old(ex.st).ring.cq) ==> Expired(ex.st.ring.cq))
  {
    hide Inv, Reachable, NumTimeouts, NumRequests, KernelMoves, Total, Spent, Expired;
    ghost var s := ex.st;
    ghost var moves;
    code, moves := ex.Enter(want);
    MovesConserve(s.ring, moves);
    KernelSpends(s, moves);
  }

  /** One more answer. */
  lemma SeenCode(a: seq<Seen>, want: nat, code: int, log: seq<Seen>)
    ensures var b := a + [Code(want, code)];
            && (log + a) + [Code(want, code)] == log + b
            && (Asked(want, a) ==> Asked(want, b))
            && TimeoutPops(b) == TimeoutPops(a) && (Expiry(b) <==> Expiry(a))
            && LastCode(b) == Some(code) && AfterCode(b) == [] && BeforeCode(b) == a
            && (Busy(b) <==> Busy(a) || BusyCode(code))
  {
    LastCodeSnoc(a, Code(want, code));
    assert forall x :: x in a + [Code(want, code)] <==> x in a || x == Code(want, code);
  }

  /** Retries until the kernel takes the submissions; on EBUSY and EAGAIN it first waits for one
      request to complete.  The counters it returns are exact, and the kernel's last answer decides
      how it ends; without an outstanding request the first EBUSY or EAGAIN makes it spin. */
  method FlushSubmissions(ex: Executor, want: nat, timeouts: nat, etime: bool)
    returns (r: Flow, ghost seen: seq<Seen>)
    requires Ready(ex) && timeouts >= NumTimeouts(ex.st.ring)
    modifies ex.Repr()
    ensures Ready(ex) && Spent(old(ex.st), ex.st)
    ensures ex.reactor.ring.log == old(ex.reactor.ring.log) + seen && Decides(seen, r) && Asked(want, seen)
    ensures NumTimeouts(old(ex.st).ring) == NumTimeouts(ex.st.ring) + TimeoutPops(seen)
    ensures r.Ok? ==>
              r.timeouts + TimeoutPops(seen) == timeouts && r.etime == (etime || Expiry(seen)) && AfterCode(seen) == []
    ensures r.Spins? ==> StuckReq(ex.st.ring)
    ensures NumRequests(old(ex.st).ring) == 0 ==> (r.Spins? <==> Busy(seen))
    ensures !Busy(seen) ==> TimeoutPops(seen) == 0
    ensures ex.reactor.ring.patience <= old(ex.reactor.ring.patience)
    ensures ex.reactor.ring.patience == old(ex.reactor.ring.patience) ==>
              && r == Ok(timeouts, etime) && seen == [Code(want, 0)] && ex.st.ring.sq == []
              && NumRequests(ex.st.ring) == NumRequests(old(ex.st).ring)
              && (Expired(old(ex.st).ring.cq) ==> Expired(ex.st.ring.cq))
  {
    hide Ready, NumTimeouts, NumRequests, KernelRequests, InKernel, Spent, Expiry, TimeoutPops, NoCode, StuckReq;
    hide Expired, LastCode, AfterCode, BeforeCode, OnlyTimeouts, Retries, Busy, Helped, Asked;
    var t, e := timeouts, etime;
    ghost var s0, log0, first := ex.st, ex.reactor.ring.log, true;
    seen := [];
    NothingSeen(s0, log0);
    while true
      invariant Ready(ex) && Spent(s0, ex.st) && ex.reactor.ring.log == log0 + seen
      invariant NumTimeouts(s0.ring) == NumTimeouts(ex.st.ring) + TimeoutPops(seen)
      invariant t + TimeoutPops(seen) == timeouts && e == (etime || Expiry(seen))
      invariant Retries(seen) && Asked(want, seen) && (Busy(seen) ==> NumRequests(s0.ring) > 0)
      invariant !Busy(seen) ==> TimeoutPops(seen) == 0
      invariant ex.reactor.ring.patience <= old(ex.reactor.ring.patience)
      invariant if first then ex.st == s0 && seen == [] else ex.reactor.ring.patience < old(ex.reactor.ring.patience)
      decreases ex.reactor.ring.patience
    {
      ghost var s := ex.st;
      var code := EnterKernel(ex, want);
      SpentTwice(s0, s, ex.st);
      SeenCode(seen, want, code, log0);
      seen := seen + [Code(want, code)];
      LastBusy(seen);
      if code == 0 {
        return Ok(t, e), seen;
      }
      first := false;
      if code == EINTR {
        Retried(seen);
        continue;
      }
      if code != EBUSY && code != EAGAIN {
        return Err, seen;
      }
      s := ex.st;
      ghost var before, more := seen, [];
      r, more := FlushCompletions(ex, 1, t, e);
      SeenMore(before, more, log0);
      AppendNothing(more);
      seen := before + more;
      LastBusy(seen);
      SpentFacts(s0, s);
      SpentTwice(s0, s, ex.st);
      InKernelIsOutstanding(s.ring);
      if !r.Ok? {
        return r, seen;
      }
      Retried(seen);
      t, e := r.timeouts, r.etime;
    }
  }

  /** The counters that `flush_submissions` returns are not used: of the timeouts that a flush consumes,
      those consumed before the kernel's last answer stay in the caller's count. */
  method Flush(ex: Executor, want: nat, timeouts: nat, etime: bool) returns (r: Flow, ghost seen: seq<Seen>)
    requires Ready(ex) && timeouts >= NumTimeouts(ex.st.ring)
    modifies ex.Repr()
    ensures Ready(ex) && Spent(old(ex.st), ex.st)
    ensures ex.reactor.ring.log == old(ex.reactor.ring.log) + seen && Decides(seen, r) && Asked(want, seen)
    ensures NumTimeouts(old(ex.st).ring) == NumTimeouts(ex.st.ring) + TimeoutPops(seen)
    ensures r.Ok? ==>
              && r.timeouts + TimeoutPops(AfterCode(seen)) == timeouts
              && r.etime == (etime || Expiry(AfterCode(seen)))
    ensures r.Ok? ==> TimeoutPops(AfterCode(seen)) <= TimeoutPops(seen) && ex.st.ring.cq == []
    ensures r.Ok? && TimeoutPops(AfterCode(seen)) != TimeoutPops(seen) ==>
              Busy(seen) && NumRequests(old(ex.st).ring) > 0 && NumTimeouts(old(ex.st).ring) > 0
    ensures r.Spins? ==> StuckReq(ex.st.ring)
    ensures NumRequests(old(ex.st).ring) == 0 ==> (r.Spins? <==> Busy(seen))
    ensures ex.reactor.ring.patience <= old(ex.reactor.ring.patience)
    ensures ex.reactor.ring.patience == old(ex.reactor.ring.patience) ==>
              && r.Ok? && !Busy(seen) && ex.st.ring.sq == []
              && (NumRequests(old(ex.st).ring) > 0 ==> NumRequests(ex.st.ring) < NumRequests(old(ex.st).ring))
              && (NumTimeouts(old(ex.st).ring) > 0 && Expired(old(ex.st).ring.cq) ==>
                    r.etime || NumRequests(ex.st.ring) < NumRequests(old(ex.st).ring))
  {
    hide Ready, NumTimeouts, NumRequests, KernelRequests, InKernel, Spent, Expiry, TimeoutPops, NoCode, StuckReq;
    hide Expired, LastCode, AfterCode, BeforeCode, OnlyTimeouts, Retries, Busy, Helped, Asked;
    ghost var s0, log0, first, more := ex.st, ex.reactor.ring.log, [], [];
    r, first := FlushSubmissions(ex, want, timeouts, etime);
    if !r.Ok? {
      return r, first;
    }
    ghost var s1 := ex.st;
    r, more := FlushCompletions(ex, 0, timeouts, etime);
    seen := first + more;
    SeenMore(first, more, log0);
    SpentTwice(s0, s1, ex.st);
    AppendNothing(more);
    if ex.reactor.ring.patience == old(ex.reactor.ring.patience) {
      SeenCode([], want, 0, log0);
      AppendNothing([Code(want, 0)]);
      NothingSeen(s0, log0);
      FlushHelps(s1.ring, ex.st.ring, more);
    }
  }

  lemma AppendNothing(a: seq<Seen>)
    ensures [] + a == a
  {
  }

  lemma FlushHelps(r: Ring, r': Ring, seen: seq<Seen>)
    requires Helped(r, r', seen) && r.sq == [] && NumTimeouts(r) == NumTimeouts(r') + TimeoutPops(seen)
    ensures NumRequests(r) > 0 ==> NumRequests(r') < NumRequests(r)
    ensures NumTimeouts(r) > 0 && Expired(r.cq) && NumRequests(r') <= NumRequests(r) ==>
              Expiry(seen) || NumRequests(r') < NumRequests(r)
  {
    InKernelIsOutstanding(r);
    if NumTimeouts(r) > 0 && r.inflight == [] && r.cq == [] {
      EmptyRing(r);
    }
  }

  lemma EmptyRing(r: Ring)
    requires r.sq == [] && r.inflight == [] && r.cq == []
    ensures NumRequests(r) == 0 && NumTimeouts(r) == 0
  {
    assert EntriesOf(r.cq) == [];
    assert Outstanding(r) == multiset{};
  }

  // ---- run_for_ns ----

  /** Pushes a timeout entry; false if the submission queue is full. */
  method PushTimeout(ex: Executor) returns (ok: bool)
    requires Ready(ex)
    modifies ex.Repr()
    ensures Ready(ex) && Spent(old(ex.st), ex.st) && ex.reactor.ring.patience == old(ex.reactor.ring.patience)
    ensures ok == CanPush(old(ex.st).ring)
    ensures ex.reactor.ring.log == old(ex.reactor.ring.log) + if ok then [Armed] else []
    ensures NumRequests(ex.st.ring) == NumRequests(old(ex.st).ring) && ex.st.ring.cq == old(ex.st).ring.cq
    ensures if ok then NumTimeouts(ex.st.ring) == NumTimeouts(old(ex.st).ring) + 1
            else ex.st == old(ex.st)
  {
    hide Inv, Reachable, Total;
    PushCounts(ex.st.ring, Timeout);
    LeadsNowhere(ex.st);
    LeadsStep(ex.st, ex.st, EvPushTimeout);
    ok := ex.PushTimeout();
  }

  /** Pushes a timeout entry, making room first if there is none; panics if there still is none. */
  method SubmitTimeout(ex: Executor, timeouts: nat, etime: bool) returns (r: Flow, ghost seen: seq<Seen>)
    requires Ready(ex) && timeouts >= NumTimeouts(ex.st.ring) && ex.st.ring.cap > 0
    modifies ex.Repr()
    ensures Ready(ex) && Spent(old(ex.st), ex.st) && ex.reactor.ring.log == old(ex.reactor.ring.log) + seen
    ensures match r
            case Ok(t, e) =>
              && t + TimeoutPops(seen) == timeouts && e == (etime || Expiry(seen))
              && NumTimeouts(old(ex.st).ring) + 1 == NumTimeouts(ex.st.ring) + TimeoutPops(seen)
            case Panics => !CanPush(ex.st.ring) && LastCode(seen) == Some(0) && timeouts >= NumTimeouts(ex.st.ring)
            case Spins => StuckReq(ex.st.ring) && timeouts >= NumTimeouts(ex.st.ring)
            case Err => timeouts >= NumTimeouts(ex.st.ring)
            case Miscounts => false
    ensures CanPush(old(ex.st).ring) ==> r == Ok(timeouts, etime) && seen == [Armed]
    ensures !CanPush(old(ex.st).ring) ==>
              if r.Ok? then seen != [] && Decides(seen[..|seen| - 1], r)
              else Decides(seen, if r.Panics? then Ok(timeouts, etime) else r)
    ensures r.Ok? ==> Dropped(seen) == 0 && ArmedAfter(false, seen)
    ensures !etime ==>
              var p := After(Place(Head, false), seen);
              if r.Ok? then p == Place(Submitting, r.etime) else p.phase == if r.Panics? then Room else Full
    ensures (r.Spins? <==> EndsBusy(seen)) && (r.Err? <==> Fails(seen)) && (!r.Ok? ==> LastCode(seen).Some?)
    ensures Busy(seen) && NumRequests(old(ex.st).ring) == 0 ==> r.Spins?
    ensures !Busy(seen) ==> TimeoutPops(seen) == 0
    ensures ex.reactor.ring.patience <= old(ex.reactor.ring.patience)
    ensures ex.reactor.ring.patience == old(ex.reactor.ring.patience) ==>
              && r == Ok(timeouts, etime) && !Busy(seen) && NumRequests(ex.st.ring) == NumRequests(old(ex.st).ring)
              && (Expired(old(ex.st).ring.cq) ==> Expired(ex.st.ring.cq))
  {
    hide Ready, NumTimeouts, NumRequests, KernelRequests, InKernel, Spent, Expiry, TimeoutPops, NoCode, StuckReq;
    hide Expired, LastCode, AfterCode, BeforeCode, OnlyTimeouts, Retries, Busy, DroppedFrom, ArmedAfter, After, Asked;
    ghost var s0, log0 := ex.st, ex.reactor.ring.log;
    NothingSeen(s0, log0);
    SeenArmed([], log0);
    AfterOne(Place(Head, false), Armed);
    AppendNothing([Armed]);
    var ok := PushTimeout(ex);
    if ok {
      return Ok(timeouts, etime), [Armed];
    }
    r, seen := FlushSubmissions(ex, 0, timeouts, etime);
    FlushDecides(seen, r);
    MakesRoom(seen, r);
    if !r.Ok? {
      return;
    }
    ghost var s1 := ex.st;
    SpentFacts(s0, s1);
    ok := PushTimeout(ex);
    SpentTwice(s0, s1, ex.st);
    if !ok {
      return Panics, seen;
    }
    DroppedFlush(seen, r);
    SeenArmed(seen, log0);
    ghost var flushed := seen;
    AfterConcat(Place(Head, false), flushed, [Armed]);
    AfterOne(Place(Room, Expiry(flushed)), Armed);
    seen := seen + [Armed];
    assert seen[..|seen| - 1] == flushed;
    NotBusyZero();
  }

  lemma NotBusyZero()
    ensures !Busy([Code(0, 0)]) && TimeoutPops([Code(0, 0)]) == 0
  {
    assert [Code(0, 0)][1..] == [];
  }

  /** Where a flush leads the loop of `run_for_ns`: the one that makes room, and the one that submits. */
  lemma MakesRoom(seen: seq<Seen>, r: Flow)
    requires Decides(seen, r) && Asked(0, seen)
    ensures if r.Ok? && AfterCode(seen) == [] then After(Place(Head, false), seen) == Place(Room, Expiry(seen))
            else r.Ok? || After(Place(Head, false), seen).phase.Full?
  {
    hide LastCode, BeforeCode, AfterCode, After, Retries;
    var p := Place(Head, false);
    var x := AfterAround(p, seen);
    AfterRetries(false, BeforeCode(seen));
    AfterNothing();
    assert Asked(0, BeforeCode(seen)) && x.want == 0;
    if !r.Ok? {
      DecidedPops(seen, r);
      AfterPops(Next(After(p, BeforeCode(seen)), x), AfterCode(seen));
    }
  }

  lemma Submits(seen: seq<Seen>, r: Flow, e: bool)
    requires Decides(seen, r) && Asked(1, seen)
    ensures var p := After(Place(Submitting, e), seen);
            if r.Ok? then p == Place(Head, e || Expiry(AfterCode(seen))) else p.phase.Submitting?
  {
    hide LastCode, BeforeCode, AfterCode, After, Retries;
    var p := Place(Submitting, e);
    var x := AfterAround(p, seen);
    AfterRetries(e, BeforeCode(seen));
    assert Asked(1, BeforeCode(seen)) && x.want == 1;
    DecidedPops(seen, r);
    AfterPops(Next(p, x), AfterCode(seen));
  }

  lemma DecidedPops(seen: seq<Seen>, r: Flow)
    requires Decides(seen, r)
    ensures NoCode(AfterCode(seen))
  {
  }

  /** A timeout is pushed. */
  lemma SeenArmed(a: seq<Seen>, log: seq<Seen>)
    ensures var b := a + [Armed];
            && (log + a) + [Armed] == log + b
            && TimeoutPops(b) == TimeoutPops(a) && (Expiry(b) <==> Expiry(a)) && (Busy(b) <==> Busy(a))
            && LastCode(b) == LastCode(a) && Dropped(b) == Dropped(a) && ArmedAfter(false, b)
  {
    hide LastCode, AfterCode, BeforeCode;
    PopsConcat(a, [Armed]);
    LastCodePops(a, [Armed]);
    DroppedConcat(false, a, [Armed]);
    assert [Armed][1..] == [];
    assert forall x :: x in a + [Armed] <==> x in a || x == Armed;
  }

  /** What a flush that returns drops, if a timeout was pushed before it: all that was consumed before
      the kernel took the submissions. */
  lemma DroppedFlush(seen: seq<Seen>, r: Flow)
    requires Decides(seen, r) && r.Ok?
    ensures DroppedFrom(false, seen) == 0 && !ArmedAfter(false, seen)
    ensures DroppedFrom(true, seen) + TimeoutPops(AfterCode(seen)) == TimeoutPops(seen) && !ArmedAfter(true, seen)
  {
    hide DroppedFrom, ArmedAfter, TimeoutPops, LastCode, BeforeCode, AfterCode, Retries;
    DroppedAround(false, seen);
    DroppedAround(true, seen);
    DroppedRetries(false, BeforeCode(seen));
    DroppedRetries(true, BeforeCode(seen));
  }

  lemma {:induction false} LastBusy(seen: seq<Seen>)
    ensures EndsBusy(seen) ==> Busy(seen)
    decreases |seen|
  {
    if seen != [] && !seen[|seen| - 1].Code? {
      LastBusy(seen[..|seen| - 1]);
    }
  }

  /** When the second loop of `run_for_ns`, entered with `timeouts`, ends: no timeout was dropped from
      the count and none is left in the submission queue. */
  ghost predicate ReapEnds(timeouts: nat, r: Ring) {
    timeouts == NumTimeouts(r) && Timeout !in r.sq
  }

  /** How `run_for_ns` spins, `timeouts` being its local: on EBUSY or EAGAIN it waits for a request,
      otherwise for timeouts that it counts; in both cases, for what does not come. */
  ghost predicate SpinsOn(seen: seq<Seen>, timeouts: nat, r: Ring) {
    if EndsBusy(seen) then StuckReq(r) else StuckTime(r) && timeouts > 0
  }

  /** `run_for_ns` and its local `timeouts`.  The count never falls below the timeout entries in the
      ring, so that its decrement never underflows, and is exact unless the kernel answered EBUSY or
      EAGAIN.  An Ok return leaves no entry behind and comes after an expiry.  Errors and the panic
      aside, the call spins if and only if EBUSY or EAGAIN was the kernel's last answer, or a timeout was
      dropped, or one was left in the submission queue. */
  method RunForNs(ex: Executor, ns: nat) returns (r: Flow, timeouts: nat, ghost seen: seq<Seen>)
    requires Ready(ex) && NumTimeouts(ex.st.ring) == 0 && ex.st.ring.cap > 0
    modifies ex.Repr()
    ensures Ready(ex) && Spent(old(ex.st), ex.st) && ex.reactor.ring.log == old(ex.reactor.ring.log) + seen
    ensures timeouts >= NumTimeouts(ex.st.ring) && !r.Miscounts? && LastCode(seen).Some?
    ensures WaitLog(false, seen) && (r.Ok? ==> After(Place(Head, false), seen) == Place(Head, true))
    ensures (r.Ok? || r.Spins?) && !EndsBusy(seen) ==> timeouts == NumTimeouts(ex.st.ring) + Dropped(seen)
    ensures !Busy(seen) && (r.Ok? || r.Spins?) ==> Dropped(seen) == 0
    ensures r.Ok? ==> timeouts == 0 && Expiry(seen)
    ensures r.Ok? || r.Spins? ==> (r.Spins? <==> EndsBusy(seen) || Dropped(seen) > 0 || Timeout in ex.st.ring.sq)
    ensures r.Spins? ==> SpinsOn(seen, timeouts, ex.st.ring)
    ensures r.Panics? ==> !CanPush(ex.st.ring) && LastCode(seen) == Some(0)
    ensures r.Err? <==> Fails(seen)
    ensures Busy(seen) && NumRequests(old(ex.st).ring) == 0 ==> r.Spins? && EndsBusy(seen)
    ensures ex.reactor.ring.patience <= old(ex.reactor.ring.patience)
    ensures ex.reactor.ring.patience == old(ex.reactor.ring.patience) ==>
              r.Ok? && (NumRequests(old(ex.st).ring) > 0 ==> NumRequests(ex.st.ring) < NumRequests(old(ex.st).ring))
  {
    hide Ready, NumTimeouts, NumRequests, Spent, Expiry, SpinsOn, LastCode, Busy, EndsBusy, Fails, Dropped, After, WaitLog;
    NoTimeoutExpired(ex.st.ring);
    r, timeouts, seen := Turns(ex, 0, false);
  }

  /** What `run_for_ns` does with the kernel: one timeout a turn, no turn after an expiry that counts. */
  ghost predicate WaitLog(etime: bool, seen: seq<Seen>) {
    !After(Place(Head, etime), seen).phase.Wrong?
  }

  /** The two loops of `run_for_ns`, from the head of the first, with its locals.  What the count is
      too high by, it stays too high by, and what is dropped adds to it; the call then never returns
      Ok. */
  method Turns(ex: Executor, timeouts: nat, etime: bool) returns (r: Flow, left: nat, ghost seen: seq<Seen>)
    requires Ready(ex) && timeouts >= NumTimeouts(ex.st.ring) && ex.st.ring.cap > 0 && Expired(ex.st.ring.cq)
    modifies ex.Repr()
    ensures Ready(ex) && Spent(old(ex.st), ex.st) && ex.reactor.ring.log == old(ex.reactor.ring.log) + seen
    ensures left >= NumTimeouts(ex.st.ring) && !r.Miscounts? && (!etime ==> LastCode(seen).Some?)
    ensures (r.Ok? || r.Spins?) && !EndsBusy(seen) ==>
              left + NumTimeouts(old(ex.st).ring) == timeouts + NumTimeouts(ex.st.ring) + Dropped(seen)
    ensures !Busy(seen) && (r.Ok? || r.Spins?) ==> Dropped(seen) == 0
    ensures timeouts > NumTimeouts(old(ex.st).ring) ==> !r.Ok?
    ensures r.Ok? ==> left == 0 && (etime || Expiry(seen))
    ensures r.Ok? || r.Spins? ==>
              (r.Spins? <==> EndsBusy(seen) || left > NumTimeouts(ex.st.ring) || Timeout in ex.st.ring.sq)
    ensures WaitLog(etime, seen)
    ensures r.Ok? || (r.Spins? && !EndsBusy(seen)) ==> After(Place(Head, etime), seen) == Place(Head, true)
    ensures r.Spins? ==> SpinsOn(seen, left, ex.st.ring)
    ensures r.Panics? ==> !CanPush(ex.st.ring) && LastCode(seen) == Some(0)
    ensures r.Err? <==> Fails(seen)
    ensures Busy(seen) && NumRequests(old(ex.st).ring) == 0 ==> r.Spins? && EndsBusy(seen)
    ensures ex.reactor.ring.patience <= old(ex.reactor.ring.patience)
    ensures ex.reactor.ring.patience == old(ex.reactor.ring.patience) && !etime
            && timeouts == NumTimeouts(old(ex.st).ring) ==>
              r.Ok? && (NumRequests(old(ex.st).ring) > 0 ==> NumRequests(ex.st.ring) < NumRequests(old(ex.st).ring))
  {
    hide Ready, NumTimeouts, NumRequests, Spent, Expiry, TimeoutPops, NoCode, StuckReq, StuckTime;
    hide LastCode, AfterCode, BeforeCode, OnlyTimeouts, Busy, DroppedFrom, ArmedAfter, After, Asked;
    var e := etime;
    left := timeouts;
    ghost var s0, log0, p0, first := ex.st, ex.reactor.ring.log, ex.reactor.ring.patience, true;
    seen := [];
    NothingSeen(s0, log0);
    AfterNothing();
    while !e
      invariant After(Place(Head, etime), seen) == Place(Head, e)
      invariant Ready(ex) && Spent(s0, ex.st) && ex.reactor.ring.log == log0 + seen
      invariant left >= NumTimeouts(ex.st.ring)
      invariant left + NumTimeouts(s0.ring) == timeouts + NumTimeouts(ex.st.ring) + Dropped(seen)
      invariant !ArmedAfter(false, seen) && (!Busy(seen) ==> Dropped(seen) == 0)
      invariant (Busy(seen) ==> NumRequests(s0.ring) > 0) && (e ==> etime || Expiry(seen))
      invariant !EndsBusy(seen) && !Fails(seen)
      invariant ex.st.ring.cap > 0 && Expired(ex.st.ring.cq) && ex.reactor.ring.patience <= p0
      invariant if first then ex.st == s0 && e == etime && left == timeouts && seen == [] else LastCode(seen).Some?
      invariant !first && ex.reactor.ring.patience == p0 ==>
                  && !Busy(seen) && ex.st.ring.sq == []
                  && (NumRequests(s0.ring) > 0 ==> NumRequests(ex.st.ring) < NumRequests(s0.ring))
      decreases ex.reactor.ring.patience + NumRequests(ex.st.ring), if e then 0 else 1
    {
      ghost var s, more, before := ex.st, [], seen;
      r, left, e, more := TimeoutRound(ex, left, e);
      SpentTwice(s0, s, ex.st);
      SpentFacts(s0, s);
      SpentFacts(s, ex.st);
      seen := before + more;
      SeenBoth(before, more, log0);
      LastBusy(more);
      DroppedConcat(false, before, more);
      AfterConcat(Place(Head, etime), before, more);
      first := false;
      if !r.Ok? {
        return r, left, seen;
      }
    }
    ghost var s, more := ex.st, [];
    r, left, more := Reap(ex, left);
    SpentFacts(s, ex.st);
    SpentTwice(s0, s, ex.st);
    SeenMore(seen, more, log0);
    DroppedConcat(false, seen, more);
    DroppedPops(false, more);
    AfterConcat(Place(Head, etime), seen, more);
    AfterPops(Place(Head, true), more);
    seen := seen + more;
  }

  /** Every later answer and completion added. */
  lemma SeenBoth(a: seq<Seen>, b: seq<Seen>, log: seq<Seen>)
    ensures (log + a) + b == log + (a + b)
    ensures TimeoutPops(a + b) == TimeoutPops(a) + TimeoutPops(b)
    ensures Expiry(a + b) <==> Expiry(a) || Expiry(b)
    ensures Busy(a + b) <==> Busy(a) || Busy(b)
    ensures LastCode(b).Some? ==>
              LastCode(a + b) == LastCode(b) && AfterCode(a + b) == AfterCode(b) && (EndsBusy(a + b) <==> EndsBusy(b))
              && (Fails(a + b) <==> Fails(b))
  {
    PopsConcat(a, b);
    LastCodeConcat(a, b);
  }

  lemma NoTimeoutExpired(r: Ring)
    requires NumTimeouts(r) == 0
    ensures Expired(r.cq)
  {
    forall i | 0 <= i < |r.cq| ensures r.cq[i].entry.Req? {
      assert EntriesOf(r.cq)[i] in multiset(EntriesOf(r.cq));
      assert EntriesOf(r.cq)[i] in Outstanding(r);
    }
  }

  /** One turn of the first loop of `run_for_ns`. */
  method TimeoutRound(ex: Executor, timeouts: nat, etime: bool)
    returns (r: Flow, t: nat, e: bool, ghost seen: seq<Seen>)
    requires Ready(ex) && timeouts >= NumTimeouts(ex.st.ring) && !etime
    requires ex.st.ring.cap > 0 && Expired(ex.st.ring.cq)
    modifies ex.Repr()
    ensures Ready(ex) && Spent(old(ex.st), ex.st) && ex.reactor.ring.log == old(ex.reactor.ring.log) + seen
    ensures t >= NumTimeouts(ex.st.ring) && !r.Miscounts?
    ensures r.Ok? ==> t + NumTimeouts(old(ex.st).ring) == timeouts + NumTimeouts(ex.st.ring) + Dropped(seen)
    ensures r.Ok? ==> !ArmedAfter(false, seen)
    ensures WaitLog(false, seen) && (r.Ok? ==> After(Place(Head, false), seen) == Place(Head, e))
    ensures r.Ok? && !Busy(seen) ==> Dropped(seen) == 0
    ensures r.Ok? ==> (e ==> Expiry(seen)) && ex.st.ring.cq == []
    ensures r.Panics? ==> !CanPush(ex.st.ring) && LastCode(seen) == Some(0)
    ensures r.Err? <==> Fails(seen)
    ensures (r.Spins? <==> EndsBusy(seen)) && LastCode(seen).Some? && (r.Spins? ==> StuckReq(ex.st.ring))
    ensures Busy(seen) && NumRequests(old(ex.st).ring) == 0 ==> r.Spins?
    ensures ex.reactor.ring.patience <= old(ex.reactor.ring.patience)
    ensures ex.reactor.ring.patience == old(ex.reactor.ring.patience) ==>
              && r.Ok? && !Busy(seen) && ex.st.ring.sq == []
              && (NumRequests(old(ex.st).ring) > 0 ==> NumRequests(ex.st.ring) < NumRequests(old(ex.st).ring))
              && (e || NumRequests(ex.st.ring) < NumRequests(old(ex.st).ring))
  {
    hide Ready, NumTimeouts, NumRequests, Spent, Expiry, TimeoutPops, StuckReq, Expired;
    hide LastCode, AfterCode, Busy, EndsBusy, Fails, Decides, DroppedFrom, ArmedAfter, After, Asked;
    t, e := timeouts + 1, etime;
    ghost var s, log, more := ex.st, ex.reactor.ring.log, [];
    r, seen := SubmitTimeout(ex, t, e);
    if !r.Ok? {
      return;
    }
    t, e := r.timeouts, r.etime;
    ghost var s1, first := ex.st, seen;
    SpentFacts(s, s1);
    r, more := Flush(ex, 1, t, e);
    seen := first + more;
    SeenBoth(first, more, log);
    SpentTwice(s, s1, ex.st);
    SpentFacts(s1, ex.st);
    FlushDecides(more, r);
    DroppedConcat(false, first, more);
    AfterConcat(Place(Head, false), first, more);
    Submits(more, r, e);
    if r.Ok? {
      DroppedFlush(more, r);
      t, e := r.timeouts, r.etime;
      AfterCodeSeen(more);
    }
  }

  lemma FlushDecides(seen: seq<Seen>, r: Flow)
    requires Decides(seen, r)
    ensures !r.Panics? && !r.Miscounts? && LastCode(seen).Some?
    ensures (r.Spins? <==> EndsBusy(seen)) && (r.Err? <==> Fails(seen))
    ensures r.Spins? ==> Busy(seen)
  {
    LastBusy(seen);
  }

  lemma {:induction false} AfterCodeSeen(seen: seq<Seen>)
    ensures Expiry(AfterCode(seen)) ==> Expiry(seen)
    decreases |seen|
  {
    if seen != [] {
      AfterCodeSeen(seen[..|seen| - 1]);
    }
  }

  /** The second loop of `run_for_ns`, which leaves `left` of its `timeouts`. */
  method Reap(ex: Executor, timeouts: nat) returns (r: Flow, left: nat, ghost seen: seq<Seen>)
    requires Ready(ex) && timeouts >= NumTimeouts(ex.st.ring)
    modifies ex.Repr()
    ensures Ready(ex) && Spent(old(ex.st), ex.st) && ex.st.ring.sq == old(ex.st).ring.sq
    ensures ex.reactor.ring.log == old(ex.reactor.ring.log) + seen && NoCode(seen)
    ensures if ReapEnds(timeouts, old(ex.st).ring) then r.Ok? else r.Spins?
    ensures left + NumTimeouts(old(ex.st).ring) == timeouts + NumTimeouts(ex.st.ring)
    ensures r.Ok? ==> left == 0
    ensures r.Spins? ==> StuckTime(ex.st.ring) && left > 0
    ensures ex.reactor.ring.patience <= old(ex.reactor.ring.patience)
  {
    hide Ready, NumTimeouts, NumRequests, KernelRequests, InKernel, Spent, Expiry, TimeoutPops, NoCode;
    hide Expired, StuckReq, StuckTime, OnlyTimeouts;
    var e := true;
    left := timeouts;
    ghost var s0 := ex.st;
    seen := [];
    NothingSeen(s0, ex.reactor.ring.log);
    while left > 0
      invariant Ready(ex) && Spent(s0, ex.st) && ex.st.ring.sq == s0.ring.sq
      invariant ex.reactor.ring.log == old(ex.reactor.ring.log) + seen && NoCode(seen)
      invariant left + NumTimeouts(s0.ring) == timeouts + NumTimeouts(ex.st.ring)
      invariant ex.reactor.ring.patience <= old(ex.reactor.ring.patience)
      decreases ex.reactor.ring.patience + NumTimeouts(ex.st.ring) + NumRequests(ex.st.ring)
    {
      ghost var s, before, more := ex.st, seen, [];
      r, more := FlushCompletions(ex, 0, left, e);
      SpentTwice(s0, s, ex.st);
      SpentFacts(s, ex.st);
      SeenMore(before, more, old(ex.reactor.ring.log));
      seen := before + more;
      left, e := r.timeouts, r.etime;
      ReadyFacts(ex);
      if left > 0 && NoTimeout(ex.reactor.ring.inflight) {
        OnlyInSq(ex.st.ring);
        StuckHere(ex.st.ring);
        return Spins, left, seen;
      }
      RingSize(s.ring);
      RingSize(ex.st.ring);
    }
    TimeoutInSq(ex.st.ring);
    return Ok(left, e), left, seen;
  }

  lemma RingSize(r: Ring)
    ensures NumRequests(r) + NumTimeouts(r) == |r.sq| + |r.inflight| + |r.cq|
  {
    assert |Outstanding(r)| == |r.sq| + |r.inflight| + |r.cq|;
  }

  lemma OnlyInSq(r: Ring)
    requires r.cq == [] && NoTimeout(r.inflight)
    ensures Timeout !in r.sq ==> NumTimeouts(r) == 0
  {
    assert EntriesOf(r.cq) == [];
    NoneInKernel(r);
    assert Outstanding(r) == multiset(r.sq) + InKernel(r);
  }

  lemma TimeoutInSq(r: Ring)
    ensures Timeout in r.sq ==> NumTimeouts(r) > 0
  {
    assert Timeout in r.sq ==> Timeout in multiset(r.sq);
  }

  // ---- run ----

  /** `requires_reaping`: a request is outstanding, or some push has failed at some time. */
  method RequiresReaping(ex: Executor) returns (b: bool)
    requires Ready(ex)
    ensures b <==> NumRequests(ex.st.ring) > 0 || ex.st.failed > 0
  {
    ReadyFacts(ex);
    Counters(ex.st);
    b := ex.reactor.reqQueued > 0;
  }

  /** `run_for_ns` where `run` calls it: nothing is outstanding, no push ever failed. */
  method Wait(ex: Executor, ns: nat) returns (r: Flow, ghost seen: seq<Seen>)
    requires Ready(ex) && NumTimeouts(ex.st.ring) == 0 && ex.st.ring.cap > 0
    requires NumRequests(ex.st.ring) == 0 && ex.st.failed == 0
    modifies ex.Repr()
    ensures Ready(ex) && Spent(old(ex.st), ex.st) && ex.reactor.ring.log == old(ex.reactor.ring.log) + seen
    ensures r.Ok? ==> NumTimeouts(ex.st.ring) == 0 && Expiry(seen)
    ensures r.Ok? || r.Spins? ==> (r.Spins? <==> EndsBusy(seen) || Timeout in ex.st.ring.sq)
    ensures r.Spins? ==> HangsOn(seen, ex.st.ring)
    ensures r.Panics? ==> !CanPush(ex.st.ring) && LastCode(seen) == Some(0)
    ensures r.Err? <==> Fails(seen)
    ensures !r.Miscounts? && LastCode(seen).Some? && (Busy(seen) ==> r.Spins? && EndsBusy(seen))
    ensures WaitLog(false, seen) && (r.Ok? ==> After(Place(Head, false), seen) == Place(Head, true))
    ensures ex.reactor.ring.patience <= old(ex.reactor.ring.patience)
    ensures ex.reactor.ring.patience == old(ex.reactor.ring.patience) ==> r.Ok?
  {
    hide Ready, NumTimeouts, NumRequests, Spent, Expiry, StuckReq, StuckTime, LastCode, Busy, EndsBusy, Fails, Dropped, After, WaitLog;
    var timeouts;
    r, timeouts, seen := RunForNs(ex, ns);
    LastBusy(seen);
  }

  /** How `run` hangs: on EBUSY or EAGAIN, waiting for a request; or waiting for a timeout that the
      kernel has left in the submission queue. */
  ghost predicate HangsOn(seen: seq<Seen>, r: Ring) {
    if EndsBusy(seen) then StuckReq(r) else StuckTime(r) && Timeout in r.sq
  }

  /** What a `flush(0, ..)` does with the kernel, whatever comes of it. */
  ghost predicate FlushLog(seen: seq<Seen>) {
    Asked(0, seen) && exists r :: Decides(seen, r)
  }

  /** What `run` does: it flushes, and then waits or does not, whether or not the flush failed. */
  ghost predicate RunLog(seen: seq<Seen>, waited: bool) {
    exists first, more ::
      && seen == first + more && FlushLog(first)
      && if waited then !EndsBusy(first) && WaitLog(false, more) && LastCode(more).Some? else more == []
  }

  lemma FlushIsRun(seen: seq<Seen>, r: Flow)
    requires Asked(0, seen) && Decides(seen, r)
    ensures RunLog(seen, false)
  {
    assert seen == seen + [] && FlushLog(seen);
  }

  lemma FlushThenWait(first: seq<Seen>, r: Flow, more: seq<Seen>)
    requires Asked(0, first) && Decides(first, r) && !EndsBusy(first) && WaitLog(false, more) && LastCode(more).Some?
    ensures RunLog(first + more, true)
  {
    assert FlushLog(first);
  }

  /** Waits for a timeout to expire if and only if no request is outstanding and no push ever failed. */
  method Run(ex: Executor, ns: nat) returns (r: Flow, ghost seen: seq<Seen>)
    requires Ready(ex) && NumTimeouts(ex.st.ring) == 0 && ex.st.ring.cap > 0
    modifies ex.Repr()
    ensures Ready(ex) && Spent(old(ex.st), ex.st) && ex.reactor.ring.log == old(ex.reactor.ring.log) + seen
    ensures r.Ok? ==> NumTimeouts(ex.st.ring) == 0
    ensures r.Ok? ==> (Expiry(seen) <==> NumRequests(ex.st.ring) == 0 && ex.st.failed == 0)
    ensures !r.Ok? && !r.Spins? ==> NumRequests(ex.st.ring) == 0 && ex.st.failed == 0
    ensures r.Spins? ==> HangsOn(seen, ex.st.ring)
    ensures r.Panics? ==> !CanPush(ex.st.ring) && LastCode(seen) == Some(0)
    ensures !r.Miscounts? && LastCode(seen).Some? && (r.Err? ==> Fails(seen))
    ensures if r.Spins? then RunLog(seen, false) || RunLog(seen, true)
            else RunLog(seen, NumRequests(ex.st.ring) == 0 && ex.st.failed == 0)
    ensures Busy(seen) && NumRequests(old(ex.st).ring) == 0 ==> r.Spins?
    ensures ex.reactor.ring.patience <= old(ex.reactor.ring.patience)
    ensures ex.reactor.ring.patience == old(ex.reactor.ring.patience) ==>
              r.Ok? && (NumRequests(old(ex.st).ring) > 0 ==> NumRequests(ex.st.ring) < NumRequests(old(ex.st).ring))
  {
    hide Ready, NumTimeouts, NumRequests, Spent, Expiry, TimeoutPops, StuckReq, StuckTime, Expired;
    hide LastCode, AfterCode, Busy, EndsBusy, Fails, Decides, Asked, FlushLog, RunLog, WaitLog, After;
    ghost var s0, log := ex.st, ex.reactor.ring.log;
    r, seen := Flush(ex, 0, 0, false);
    FlushDecides(seen, r);
    FlushIsRun(seen, r);
    if r.Spins? {
      return;
    }
    ghost var s, first, more := ex.st, seen, [];
    SpentFacts(s0, s);
    var b := RequiresReaping(ex);
    if b {
      NoExpiry(seen);
      r := Ok(0, false); // the error of flush is ignored
    } else {
      ghost var flushed := r;
      r, more := Wait(ex, ns);
      seen := first + more;
      FlushThenWait(first, flushed, more);
      SeenBoth(first, more, log);
      SpentTwice(s0, s, ex.st);
      SpentFacts(s, ex.st);
    }
  }

  lemma NoExpiry(seen: seq<Seen>)
    ensures TimeoutPops(seen) == 0 ==> !Expiry(seen)
  {
    if Expiry(seen) {
      ExpiryPops(seen);
    }
  }
}
