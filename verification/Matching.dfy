/** Requests and results: what a task observes is the kernel's answer to the request it pushed. */
module Matching {
  import opened Types
  import opened Machine
  import opened Invariant
  import opened Preservation
  import opened Runs

  /** What a run shows of its requests. */
  datatype Obs =
    | Pushed(e: Entry)
    | Replied(e: Entry, res: int)
    | Delivered(e: Entry, res: int)
    | Observed(e: Entry, res: int)

  /** The request behind the leaf of the task in slot `id`. */
  ghost function LeafEntry(id: Id, t: Task): Entry
    requires HasTicket(t) && t.script.Await?
  {
    Req(id, t.leaf.value.ticket.value, t.script.op)
  }

  ghost function ObsOf(s: State, e: Event): seq<Obs>
    requires Enabled(s, e)
  {
    match e
    case EvSubmit =>
      if CanPush(s.ring) then [Pushed(Req(s.polling.value, s.nextTicket, Polled(s).script.op))] else []
    case EvKernel(Answer(at, res)) =>
      if at < |s.ring.inflight| && s.ring.inflight[at].Req? then [Replied(s.ring.inflight[at], res)] else []
    case EvDeliver =>
      if s.ring.cq[0].entry.Req? then [Delivered(s.ring.cq[0].entry, s.ring.cq[0].res)] else []
    case EvResume =>
      if HasTicket(Polled(s))
      then [Observed(LeafEntry(s.polling.value, Polled(s)), Polled(s).leaf.value.returnVal.value)] else []
    case _ => []
  }

  ghost function Log(s: State, run: seq<Event>): seq<Obs>
    requires Legal(s, run)
    decreases |run|
  {
    if run == [] then [] else ObsOf(s, run[0]) + Log(Apply(s, run[0]), run[1..])
  }

  /** The observation that must come before `o`. */
  ghost predicate Causes(c: Obs, o: Obs) {
    match o
    case Pushed(_) => false
    case Replied(e, _) => c == Pushed(e)
    case Delivered(e, r) => c == Replied(e, r)
    case Observed(e, r) => c == Delivered(e, r)
  }

  ghost predicate Causal(log: seq<Obs>) {
    forall j :: 0 <= j < |log| && !log[j].Pushed? ==> exists i :: 0 <= i < j && Causes(log[i], log[j])
  }

  /** Two pushes, two deliveries or two observations of one ticket. */
  ghost predicate Repeats(a: Obs, b: Obs) {
    && a.e.Req? && b.e.Req? && a.e.ticket == b.e.ticket
    && ((a.Pushed? && b.Pushed?) || (a.Delivered? && b.Delivered?) || (a.Observed? && b.Observed?))
  }

  ghost predicate NoRepeat(log: seq<Obs>) {
    forall i, j :: 0 <= i < j < |log| ==> !Repeats(log[i], log[j])
  }

  ghost predicate LeafLogged(id: Id, t: Task, log: seq<Obs>) {
    HasTicket(t) && t.script.Await? ==>
      && Pushed(LeafEntry(id, t)) in log
      && (t.leaf.value.returnVal.Some? ==> Delivered(LeafEntry(id, t), t.leaf.value.returnVal.value) in log)
  }

  /** `o`, which is in the log, is in the past of `s`. */
  ghost predicate Past(s: State, o: Obs) {
    && o.e.Req?
    && (o.Pushed? ==> o.e.ticket < s.nextTicket)
    && (o.Delivered? ==> o.e.ticket in s.delivered)
    && (o.Observed? ==>
          && o.e.ticket < s.nextTicket
          && forall id <- s.live :: HasTicket(s.live[id]) ==> s.live[id].leaf.value.ticket.value != o.e.ticket)
  }

  ghost predicate LogInv(s: State, log: seq<Obs>) {
    && Causal(log) && NoRepeat(log)
    && (forall o <- log :: Past(s, o))
    && (forall id <- s.live :: LeafLogged(id, s.live[id], log))
    && (forall c <- s.ring.cq :: c.entry.Req? ==> Replied(c.entry, c.res) in log)
  }

  lemma Append(log: seq<Obs>, o: Obs)
    requires Causal(log) && NoRepeat(log)
    requires o.Pushed? || exists c <- log :: Causes(c, o)
    requires forall p <- log :: !Repeats(p, o)
    ensures Causal(log + [o]) && NoRepeat(log + [o])
  {
    var l := log + [o];
    forall j | 0 <= j < |l| && !l[j].Pushed? ensures exists i :: 0 <= i < j && Causes(l[i], l[j]) {
      if j < |log| {
        var i :| 0 <= i < j && Causes(log[i], log[j]);
        assert Causes(l[i], l[j]);
      } else {
        var i :| 0 <= i < |log| && Causes(log[i], o);
        assert Causes(l[i], l[j]);
      }
    }
  }

  /** A step that shows nothing: no leaf gets a ticket or a result. */
  lemma LogSame(s: State, s': State, log: seq<Obs>)
    requires LogInv(s, log)
    requires s'.nextTicket == s.nextTicket && s'.delivered == s.delivered && s'.ring.cq == s.ring.cq
    requires forall id :: id in s'.live && HasTicket(s'.live[id]) ==> id in s.live && s'.live[id] == s.live[id]
    ensures LogInv(s', log)
  {
    forall o | o in log ensures Past(s', o) {
      assert Past(s, o);
    }
    forall id | id in s'.live ensures LeafLogged(id, s'.live[id], log) {
      assert HasTicket(s'.live[id]) ==> LeafLogged(id, s.live[id], log);
    }
  }

  lemma LogSubmits(s: State, log: seq<Obs>)
    requires Enabled(s, EvSubmit) && Inv(s) && LogInv(s, log)
    ensures LogInv(Apply(s, EvSubmit), log + ObsOf(s, EvSubmit))
  {
    hide QueueInv, RingInv, PoolInv, SerialInv, CountInv;
    var s' := DoSubmit(s);
    if CanPush(s.ring) {
      var o := Pushed(Req(s.polling.value, s.nextTicket, Polled(s).script.op));
      assert forall p <- log :: Past(s, p) && !Repeats(p, o);
      Append(log, o);
      forall p | p in log + [o] ensures Past(s', p) {
        assert p != o ==> Past(s, p);
      }
      forall id | id in s'.live ensures LeafLogged(id, s'.live[id], log + [o]) {
        assert LeafLogged(id, s.live[id], log);
      }
    } else {
      assert log + ObsOf(s, EvSubmit) == log;
      LogSame(s, s', log);
    }
  }

  lemma LogReplies(s: State, at: nat, res: int, log: seq<Obs>)
    requires Inv(s) && LogInv(s, log)
    ensures LogInv(DoKernel(s, Answer(at, res)), log + ObsOf(s, EvKernel(Answer(at, res))))
  {
    hide QueueInv, PoolInv, SerialInv, CountInv;
    var s' := DoKernel(s, Answer(at, res));
    if at < |s.ring.inflight| && s.ring.inflight[at].Req? {
      var e := s.ring.inflight[at];
      assert e in multiset(s.ring.inflight);
      assert Outstanding(s.ring)[e] > 0;
      assert WaitsFor(s, e);
      assert LeafLogged(e.owner, s.live[e.owner], log);
      assert Causes(Pushed(e), Replied(e, res));
      Append(log, Replied(e, res));
      forall p | p in log + [Replied(e, res)] ensures Past(s', p) {
        assert p != Replied(e, res) ==> Past(s, p);
      }
      forall id | id in s'.live ensures LeafLogged(id, s'.live[id], log + [Replied(e, res)]) {
        assert LeafLogged(id, s.live[id], log);
      }
    } else {
      assert log + ObsOf(s, EvKernel(Answer(at, res))) == log;
      forall o | o in log ensures Past(s', o) {
        assert Past(s, o);
      }
    }
  }

  /** `LogInv` after delivering a request to the leaf that waits for it. */
  lemma LogDelivered(s: State, log: seq<Obs>)
    requires LogInv(s, log) && s.ring.cq != []
    requires WaitsFor(s, s.ring.cq[0].entry) && s.ring.cq[0].entry.ticket !in s.delivered
    requires s.live[s.ring.cq[0].entry.owner].leaf.value.waker.Some?
    ensures LogInv(DoDeliver(s), log + [Delivered(s.ring.cq[0].entry, s.ring.cq[0].res)])
  {
    var s' := DoDeliver(s);
    var c := s.ring.cq[0];
    var o := Delivered(c.entry, c.res);
    assert Causes(Replied(c.entry, c.res), o);
    assert forall p <- log :: Past(s, p) && !Repeats(p, o);
    Append(log, o);
    forall p | p in log + [o] ensures Past(s', p) {
      assert p != o ==> Past(s, p);
    }
    forall id | id in s'.live ensures LeafLogged(id, s'.live[id], log + [o]) {
      assert LeafLogged(id, s.live[id], log);
    }
  }

  lemma LogDelivers(s: State, log: seq<Obs>)
    requires Inv(s) && LogInv(s, log) && Between(s) && s.ring.cq != []
    ensures LogInv(DoDeliver(s), log + ObsOf(s, EvDeliver))
  {
    hide QueueInv, RingInv, LeafInv, PoolInv, SerialInv, CountInv;
    if s.ring.cq[0].entry.Req? {
      DeliverTarget(s);
      LogDelivered(s, log);
    } else {
      assert log + ObsOf(s, EvDeliver) == log;
      forall p | p in log ensures Past(DoDeliver(s), p) {
        assert Past(s, p);
      }
    }
  }

  lemma LogResumes(s: State, log: seq<Obs>)
    requires Inv(s) && LogInv(s, log) && CanResume(s)
    ensures LogInv(DoResume(s), log + ObsOf(s, EvResume))
  {
    hide QueueInv, RingInv, PoolInv, SerialInv, CountInv;
    var s' := DoResume(s);
    var id := s.polling.value;
    assert LeafOk(s, id, Polled(s));
    assert LeafLogged(id, Polled(s), log);
    var e := LeafEntry(id, Polled(s));
    var o := Observed(e, Polled(s).leaf.value.returnVal.value);
    assert Causes(Delivered(e, o.res), o);
    assert forall p <- log :: Past(s, p) && !Repeats(p, o);
    Append(log, o);
    forall p | p in log + [o] ensures Past(s', p) {
      assert p != o ==> Past(s, p);
    }
    forall i | i in s'.live ensures LeafLogged(i, s'.live[i], log + [o]) {
      assert LeafLogged(i, s.live[i], log);
    }
  }

  lemma BranchLeaves(s: State)
    requires Inv(s) && CanBranch(s)
    ensures var s' := DoBranch(s);
            && s'.nextTicket == s.nextTicket && s'.delivered == s.delivered && s'.ring == s.ring
            && forall id :: id in s'.live && HasTicket(s'.live[id]) ==> id in s.live && s'.live[id] == s.live[id]
  {
    hide QueueInv, RingInv, PoolInv, SerialInv, CountInv;
    assert LeafOk(s, s.polling.value, Polled(s));
  }

  lemma LogStep(s: State, e: Event, log: seq<Obs>)
    requires Inv(s) && LogInv(s, log) && Enabled(s, e)
    ensures LogInv(Apply(s, e), log + ObsOf(s, e))
  {
    hide QueueInv, RingInv, LeafInv, PoolInv, SerialInv, CountInv, LogInv, DoBranch;
    if e.EvSubmit? {
      LogSubmits(s, log);
    } else if e.EvKernel? && e.move.Answer? {
      LogReplies(s, e.move.at, e.move.res, log);
    } else if e.EvDeliver? {
      LogDelivers(s, log);
    } else if e.EvResume? {
      LogResumes(s, log);
    } else {
      assert log + ObsOf(s, e) == log;
      if e.EvBranch? {
        BranchLeaves(s);
      }
      LogSame(s, Apply(s, e), log);
    }
  }

  lemma {:induction false} LogRun(s: State, run: seq<Event>, log: seq<Obs>)
    requires Inv(s) && LogInv(s, log) && Legal(s, run)
    ensures LogInv(Exec(s, run), log + Log(s, run))
    decreases |run|
  {
    hide Inv, LogInv, Apply, Enabled;
    if run == [] {
      assert log + [] == log;
    } else {
      StepKeeps(s, run[0]);
      LogStep(s, run[0], log);
      LogRun(Apply(s, run[0]), run[1..], log + ObsOf(s, run[0]));
      assert log + Log(s, run) == (log + ObsOf(s, run[0])) + Log(Apply(s, run[0]), run[1..]);
    }
  }

  /** The log leaves no result out: every resumption of a task on a result is observed. */
  lemma ResumesObserved(s: State)
    requires Reachable(s) && Enabled(s, EvResume)
    ensures HasTicket(Polled(s))
    ensures ObsOf(s, EvResume) == [Observed(LeafEntry(s.polling.value, Polled(s)), Polled(s).leaf.value.returnVal.value)]
  {
    NoFault(s);
    assert LeafOk(s, s.polling.value, Polled(s));
  }

  /** In every run: a result that a task observes was delivered to it before, for the request that
      its own leaf pushed, and is the kernel's reply to that request; no request is pushed,
      delivered or observed twice, although requests reuse addresses. */
  lemma RequestsMatchResults(sizes: seq<nat>, cap: nat, run: seq<Event>)
    requires Legal(Start(sizes, cap), run)
    ensures Causal(Log(Start(sizes, cap), run)) && NoRepeat(Log(Start(sizes, cap), run))
  {
    var s := Start(sizes, cap);
    StartInv(sizes, cap);
    assert LogInv(s, []);
    LogRun(s, run, []);
    assert [] + Log(s, run) == Log(s, run);
  }
}
