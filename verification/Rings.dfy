/** The io_uring seen from user space, with a kernel that answers in any order with any result.

    A kernel is helpful if `submit_and_wait` takes every submission and returns 0, if a request
    completes while one is in flight, anything if something is, and if timeouts complete by expiring.
    `patience` counts the answers by which it still may be unhelpful, in any way.  Its first value is
    arbitrary; helpful answers, however few requests they complete and in whatever order, do not use
    it up. */
module Rings {
  import opened Types

  const EINTR := 4
  const EAGAIN := 11
  const EBUSY := 16

  /** What passes between user space and the kernel: a call of `submit_and_wait` and its value, a
      completion that is consumed, a timeout entry that is pushed. */
  datatype Seen = Code(want: nat, code: int) | Popped(c: Cqe) | Armed

  predicate NoRequest(es: seq<Entry>) {
    forall e <- es :: e.Timeout?
  }

  predicate NoTimeout(es: seq<Entry>) {
    forall e <- es :: e.Req?
  }

  /** Every timeout that has completed has done so by expiring. */
  predicate Expired(cq: seq<Cqe>) {
    forall c <- cq :: c.entry.Timeout? ==> c.res == -ETIME
  }

  class IoUring {
    const cap: nat
    var sq: seq<Entry>
    var inflight: seq<Entry>
    var cq: seq<Cqe>
    var pushes: nat            // history: requests pushed
    var patience: nat
    ghost var log: seq<Seen>   // history

    ghost function V(): Ring
      reads this
    {
      Ring(cap, sq, inflight, cq)
    }

    constructor (cap: nat, patience: nat)
      ensures V() == Ring(cap, [], [], []) && pushes == 0 && this.patience == patience && log == []
    {
      this.cap := cap;
      sq, inflight, cq, pushes := [], [], [], 0;
      this.patience := patience;
      log := [];
    }

    /** `SubmissionQueue::push`. */
    method Push(e: Entry) returns (ok: bool)
      modifies `sq, `pushes
      ensures ok == CanPush(old(V())) && (ok <==> |old(sq)| < cap)
      ensures sq == if ok then old(sq) + [e] else old(sq)
      ensures V() == if ok then Types.Push(old(V()), e) else old(V())
      ensures pushes == old(pushes) + if ok && e.Req? then 1 else 0
    {
      ok := |sq| < cap;
      if ok {
        sq := sq + [e];
        pushes := pushes + if e.Req? then 1 else 0;
      }
    }

    /** The next entry of the completion queue. */
    method Pop() returns (c: Cqe)
      requires cq != []
      modifies `cq, `log
      ensures c == old(cq)[0] && cq == old(cq)[1..] && log == old(log) + [Popped(c)]
    {
      c := cq[0];
      cq := cq[1..];
      log := log + [Popped(c)];
    }

    method Step(m: Move)
      modifies `sq, `inflight, `cq
      ensures V() == KernelMove(old(V()), m)
    {
      match m
      case Take =>
        if sq != [] {
          sq, inflight := sq[1..], inflight + [sq[0]];
        }
      case Answer(at, res) =>
        if at < |inflight| {
          cq, inflight := cq + [Cqe(inflight[at], res)], inflight[..at] + inflight[at + 1..];
        }
    }

    /** Any moves at all; without `submit`, no entry leaves the submission queue. */
    method Drift(submit: bool) returns (ghost moves: seq<Move>)
      modifies `sq, `inflight, `cq
      ensures V() == KernelMoves(old(V()), moves)
      ensures !submit ==> sq == old(sq)
    {
      moves := [];
      var n: nat :| true;
      for i := 0 to n
        invariant V() == KernelMoves(old(V()), moves)
        invariant !submit ==> sq == old(sq)
      {
        var m: Move := *;
        if submit || m.Answer? {
          KernelMovesSnoc(old(V()), moves, m);
          Step(m);
          moves := moves + [m];
        }
      }
    }

    /** One completion; a timeout completes by expiring. */
    method Complete(at: nat) returns (move: Move)
      requires at < |inflight|
      modifies `sq, `inflight, `cq
      ensures V() == KernelMove(old(V()), move) && sq == old(sq)
      ensures |cq| == |old(cq)| + 1 && cq[|old(cq)|].entry == old(inflight)[at]
      ensures forall e <- inflight :: e in old(inflight)
      ensures Expired(old(cq)) ==> Expired(cq)
    {
      var res: int := *;
      move := Answer(at, if inflight[at].Timeout? then -ETIME else res);
      Step(move);
    }

    /** Any number of completions. */
    method CompleteSome() returns (ghost moves: seq<Move>)
      modifies `sq, `inflight, `cq
      ensures V() == KernelMoves(old(V()), moves) && sq == old(sq)
      ensures Expired(old(cq)) ==> Expired(cq)
    {
      moves := [];
      var n: nat :| true;
      for i := 0 to n
        invariant V() == KernelMoves(old(V()), moves) && sq == old(sq)
        invariant Expired(old(cq)) ==> Expired(cq)
      {
        var at: nat :| true;
        if at < |inflight| {
          ghost var r := V();
          var m := Complete(at);
          KernelMovesSnoc(old(V()), moves, m);
          moves := moves + [m];
        }
      }
    }

    method TakeAll() returns (ghost moves: seq<Move>)
      modifies `sq, `inflight, `cq
      ensures V() == KernelMoves(old(V()), moves)
      ensures sq == [] && cq == old(cq) && inflight == old(inflight) + old(sq)
    {
      moves := [];
      while sq != []
        invariant V() == KernelMoves(old(V()), moves)
        invariant cq == old(cq) && inflight + sq == old(inflight) + old(sq)
        decreases |sq|
      {
        KernelMovesSnoc(old(V()), moves, Take);
        Step(Take);
        moves := moves + [Take];
      }
    }

    /** `io_uring_enter`: 0, or the error number. */
    method SubmitAndWait(want: nat) returns (code: int, ghost moves: seq<Move>)
      modifies `sq, `inflight, `cq, `patience, `log
      ensures V() == KernelMoves(old(V()), moves) && log == old(log) + [Code(want, code)]
      ensures patience <= old(patience)
      ensures patience == old(patience) ==> code == 0 && sq == [] && (Expired(old(cq)) ==> Expired(cq))
    {
      var helpful: bool := *;
      if patience > 0 && !helpful {
        patience := patience - 1;
        code := *;
        moves := Drift(true);
      } else {
        code := 0;
        ghost var start, first, more := V(), [], [];
        first := TakeAll();
        more := CompleteSome();
        KernelMovesConcat(start, first, more);
        moves := first + more;
      }
      log := log + [Code(want, code)];
    }

    /** What the kernel has completed when user space looks at the completion queue. */
    method Completion() returns (ghost moves: seq<Move>)
      modifies `sq, `inflight, `cq, `patience
      ensures V() == KernelMoves(old(V()), moves) && sq == old(sq)
      ensures patience <= old(patience)
      ensures patience == old(patience) ==>
                && (NoRequest(EntriesOf(cq)) ==> NoRequest(inflight)) && (cq == [] ==> inflight == [])
                && (Expired(old(cq)) ==> Expired(cq))
    {
      var helpful: bool := *;
      if patience > 0 && !helpful {
        patience := patience - 1;
        moves := Drift(false);
      } else {
        moves := CompleteSome();
        ghost var start := old(V());
        var m;
        if NoRequest(EntriesOf(cq)) && !NoRequest(inflight) {
          var at :| 0 <= at < |inflight| && inflight[at].Req?;
          m := Complete(at);
          KernelMovesSnoc(start, moves, m);
          moves := moves + [m];
          assert EntriesOf(cq)[|cq| - 1] in EntriesOf(cq) && EntriesOf(cq)[|cq| - 1].Req?;
        } else if cq == [] && inflight != [] {
          m := Complete(0);
          KernelMovesSnoc(start, moves, m);
          moves := moves + [m];
        }
      }
    }
  }

  lemma {:induction false} KernelMovesConcat(r: Ring, a: seq<Move>, b: seq<Move>)
    ensures KernelMoves(r, a + b) == KernelMoves(KernelMoves(r, a), b)
    decreases |a|
  {
    if a == [] {
      assert a + b == b;
    } else {
      KernelMovesConcat(KernelMove(r, a[0]), a[1..], b);
      assert (a + b)[1..] == a[1..] + b;
    }
  }

  lemma KernelMovesSnoc(r: Ring, a: seq<Move>, m: Move)
    ensures KernelMoves(r, a + [m]) == KernelMove(KernelMoves(r, a), m)
  {
    KernelMovesConcat(r, a, [m]);
    assert [m][1..] == [];
  }

  // ---- what was seen ----

  /** The timeouts consumed. */
  ghost function TimeoutPops(log: seq<Seen>): nat {
    if log == [] then 0 else
    (if log[0].Popped? && log[0].c.entry.Timeout? then 1 else 0) + TimeoutPops(log[1..])
  }

  /** A timeout that expired was consumed. */
  ghost predicate Expiry(log: seq<Seen>) {
    Popped(Cqe(Timeout, -ETIME)) in log
  }

  predicate BusyCode(code: int) {
    code == EBUSY || code == EAGAIN
  }

  /** `submit_and_wait` answered EBUSY or EAGAIN. */
  ghost predicate Busy(log: seq<Seen>) {
    exists x <- log :: x.Code? && (x.code == EBUSY || x.code == EAGAIN)
  }

  /** The last value of `submit_and_wait` was EBUSY or EAGAIN. */
  ghost predicate EndsBusy(log: seq<Seen>) {
    LastCode(log).Some? && BusyCode(LastCode(log).value)
  }

  /** The last value of `submit_and_wait` was an error that is passed on. */
  ghost predicate Fails(log: seq<Seen>) {
    LastCode(log).Some? && LastCode(log).value != 0 && LastCode(log).value != EINTR && !BusyCode(LastCode(log).value)
  }

  /** After `log`, whether the timeout pushed last is still to be submitted. */
  ghost predicate ArmedAfter(armed: bool, log: seq<Seen>)
    decreases |log|
  {
    if log == [] then armed else
    ArmedAfter(match log[0] case Armed => true case Code(_, c) => armed && c != 0 case Popped(_) => armed, log[1..])
  }

  /** The timeouts consumed while one was still to be submitted, that is in the `flush_submissions` of
      a `flush(1, ..)`. */
  ghost function DroppedFrom(armed: bool, log: seq<Seen>): nat
    decreases |log|
  {
    if log == [] then 0 else
    match log[0]
    case Armed => DroppedFrom(true, log[1..])
    case Code(_, c) => DroppedFrom(armed && c != 0, log[1..])
    case Popped(c) => (if armed && c.entry.Timeout? then 1 else 0) + DroppedFrom(armed, log[1..])
  }

  ghost function Dropped(log: seq<Seen>): nat {
    DroppedFrom(false, log)
  }

  ghost predicate NoCode(log: seq<Seen>) {
    forall x <- log :: x.Popped?
  }

  /** Every call of `submit_and_wait` asked for `want` completions. */
  ghost predicate Asked(want: nat, log: seq<Seen>) {
    forall x <- log :: x.Code? ==> x.want == want
  }

  /** Nothing but timeouts was consumed. */
  ghost predicate OnlyTimeouts(log: seq<Seen>) {
    forall x <- log :: x.Popped? && x.c.entry.Timeout?
  }

  /** Turns of the loop of `flush_submissions` that call for another one: EINTR is answered at once,
      EBUSY and EAGAIN after some request was consumed. */
  ghost predicate Retries(log: seq<Seen>)
    decreases |log|
  {
    log == [] ||
    match LastCode(log)
    case None => false
    case Some(code) =>
      && (if BusyCode(code) then NoCode(AfterCode(log)) && !OnlyTimeouts(AfterCode(log))
          else code == EINTR && AfterCode(log) == [])
      && Retries(BeforeCode(log))
  }

  /** The last value of `submit_and_wait`, None if it was not called. */
  ghost function LastCode(log: seq<Seen>): Option<int>
    decreases |log|
  {
    if log == [] then None else
    var last := log[|log| - 1];
    if last.Code? then Some(last.code) else LastCode(log[..|log| - 1])
  }

  /** What was seen before that call. */
  ghost function BeforeCode(log: seq<Seen>): (before: seq<Seen>)
    ensures LastCode(log).Some? ==> |before| < |log|
    decreases |log|
  {
    if log == [] then [] else
    var rest := log[..|log| - 1];
    if log[|log| - 1].Code? then rest else BeforeCode(rest)
  }

  /** What was consumed after it. */
  ghost function AfterCode(log: seq<Seen>): seq<Seen>
    decreases |log|
  {
    if log == [] then [] else
    var last := log[|log| - 1];
    if last.Code? then [] else AfterCode(log[..|log| - 1]) + [last]
  }

  lemma {:induction false} PopsConcat(a: seq<Seen>, b: seq<Seen>)
    ensures TimeoutPops(a + b) == TimeoutPops(a) + TimeoutPops(b)
  {
    if a == [] {
      assert a + b == b;
    } else {
      assert (a + b)[1..] == a[1..] + b;
      PopsConcat(a[1..], b);
    }
  }

  lemma LastCodeSnoc(a: seq<Seen>, x: Seen)
    requires x.Code?
    ensures LastCode(a + [x]) == Some(x.code) && AfterCode(a + [x]) == []
    ensures BeforeCode(a + [x]) == a
    ensures TimeoutPops(a + [x]) == TimeoutPops(a)
  {
    PopsConcat(a, [x]);
  }

  lemma {:induction false} DroppedConcat(armed: bool, a: seq<Seen>, b: seq<Seen>)
    ensures ArmedAfter(armed, a + b) == ArmedAfter(ArmedAfter(armed, a), b)
    ensures DroppedFrom(armed, a + b) == DroppedFrom(armed, a) + DroppedFrom(ArmedAfter(armed, a), b)
    decreases |a|
  {
    if a == [] {
      assert a + b == b;
    } else {
      assert (a + b)[1..] == a[1..] + b && (a + b)[0] == a[0];
      DroppedConcat(match a[0] case Armed => true case Code(_, c) => armed && c != 0 case Popped(_) => armed, a[1..], b);
    }
  }

  lemma {:induction false} ArmedDropsMore(log: seq<Seen>)
    ensures DroppedFrom(false, log) <= DroppedFrom(true, log)
    decreases |log|
  {
    if log != [] && !log[0].Armed? {
      ArmedDropsMore(log[1..]);
    }
  }

  lemma {:induction false} DroppedPops(armed: bool, log: seq<Seen>)
    requires NoCode(log)
    ensures ArmedAfter(armed, log) == armed
    ensures DroppedFrom(armed, log) == if armed then TimeoutPops(log) else 0
    decreases |log|
  {
    if log != [] {
      assert log[0] in log;
      DroppedPops(armed, log[1..]);
    }
  }

  lemma DroppedCode(armed: bool, x: Seen)
    requires x.Code?
    ensures DroppedFrom(armed, [x]) == 0 && (ArmedAfter(armed, [x]) <==> armed && x.code != 0)
    ensures TimeoutPops([x]) == 0
  {
    assert [x][1..] == [];
    assert DroppedFrom(armed && x.code != 0, []) == 0;
  }

  /** A log around its last code. */
  lemma {:induction false} AroundCode(log: seq<Seen>) returns (x: Seen)
    requires LastCode(log).Some?
    ensures x in log && x.Code? && LastCode(log) == Some(x.code)
    ensures log == BeforeCode(log) + [x] + AfterCode(log)
    decreases |log|
  {
    var rest := log[..|log| - 1];
    x := log[|log| - 1];
    if !x.Code? {
      x := AroundCode(rest);
    }
  }

  /** A turn of the loop of `flush_submissions` and all before it. */
  lemma DroppedAround(armed: bool, log: seq<Seen>)
    requires LastCode(log).Some? && NoCode(AfterCode(log))
    ensures var before, still := BeforeCode(log), ArmedAfter(armed, BeforeCode(log)) && LastCode(log).value != 0;
            && TimeoutPops(log) == TimeoutPops(before) + TimeoutPops(AfterCode(log))
            && DroppedFrom(armed, log) ==
                 DroppedFrom(armed, before) + (if still then TimeoutPops(AfterCode(log)) else 0)
            && ArmedAfter(armed, log) == still
  {
    hide DroppedFrom, ArmedAfter, TimeoutPops, LastCode, BeforeCode, AfterCode;
    var a, b := BeforeCode(log), AfterCode(log);
    var x := AroundCode(log);
    DroppedConcat(armed, a + [x], b);
    DroppedConcat(armed, a, [x]);
    PopsConcat(a + [x], b);
    PopsConcat(a, [x]);
    DroppedCode(ArmedAfter(armed, a), x);
    DroppedPops(ArmedAfter(armed, a) && x.code != 0, b);
  }

  /** While it retries, nothing that was armed is submitted. */
  lemma {:induction false} DroppedRetries(armed: bool, log: seq<Seen>)
    requires Retries(log)
    ensures ArmedAfter(armed, log) == armed
    ensures DroppedFrom(armed, log) == if armed then TimeoutPops(log) else 0
    decreases |log|
  {
    if log != [] {
      DroppedAround(armed, log);
      DroppedRetries(armed, BeforeCode(log));
    }
  }

  lemma {:induction false} LastCodePops(a: seq<Seen>, b: seq<Seen>)
    requires forall x <- b :: !x.Code?
    ensures LastCode(a + b) == LastCode(a) && AfterCode(a + b) == AfterCode(a) + b
    ensures BeforeCode(a + b) == BeforeCode(a)
    decreases |b|
  {
    if b == [] {
      assert a + b == a;
    } else {
      var c := b[..|b| - 1];
      var last := b[|b| - 1];
      assert (a + b)[..|a + b| - 1] == a + c && b == c + [last] && last in b;
      LastCodePops(a, c);
      assert (AfterCode(a) + c) + [last] == AfterCode(a) + b;
    }
  }

  /** The later part decides if it has a code at all. */
  lemma {:induction false} LastCodeConcat(a: seq<Seen>, b: seq<Seen>)
    ensures LastCode(b).Some? ==> LastCode(a + b) == LastCode(b) && AfterCode(a + b) == AfterCode(b)
    decreases |b|
  {
    if b != [] {
      var c := b[..|b| - 1];
      assert (a + b)[..|a + b| - 1] == a + c && b == c + [b[|b| - 1]];
      LastCodeConcat(a, c);
    }
  }

  /** An expired timeout that was consumed is a timeout that was consumed. */
  lemma {:induction false} ExpiryPops(log: seq<Seen>)
    requires Expiry(log)
    ensures TimeoutPops(log) > 0
  {
    if log[0] != Popped(Cqe(Timeout, -ETIME)) {
      ExpiryPops(log[1..]);
    }
  }
}
