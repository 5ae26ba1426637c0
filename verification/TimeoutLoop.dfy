/** The first loop of `run_for_ns` as an automaton over what passes between it and the kernel.  A turn
    pushes one timeout, if need be after a `flush_submissions` that makes room, and flushes it; no
    turn starts after an expiry that was not dropped. */
module TimeoutLoop {
  import opened Types
  import opened Rings

  /** `Head`: between turns, or consuming completions at the end of one.  `Full`: there was no room.
      `Room`: now there is.  `Submitting`: the timeout is pushed. */
  datatype Phase = Head | Full | Room | Submitting | Wrong

  datatype Place = Place(phase: Phase, etime: bool)

  predicate Expires(x: Seen) {
    x == Popped(Cqe(Timeout, -ETIME))
  }

  function Next(p: Place, x: Seen): Place {
    match p.phase
    case Head => (
      match x
      case Popped(_) => p.(etime := p.etime || Expires(x))
      case Armed => if p.etime then p.(phase := Wrong) else p.(phase := Submitting)
      case Code(want, code) =>
        if p.etime || want != 0 then p.(phase := Wrong) else p.(phase := if code == 0 then Room else Full))
    case Full => (
      match x
      case Popped(_) => p.(etime := p.etime || Expires(x))
      case Code(0, code) => p.(phase := if code == 0 then Room else Full)
      case _ => p.(phase := Wrong))
    case Room =>
      if x.Armed? then p.(phase := Submitting) else p.(phase := Wrong)
    case Submitting => (
      match x
      case Popped(_) => p // a timeout consumed here is dropped, its expiry too
      case Code(1, code) => if code == 0 then p.(phase := Head) else p
      case _ => p.(phase := Wrong))
    case Wrong => p
  }

  ghost function After(p: Place, log: seq<Seen>): Place
    decreases |log|
  {
    if log == [] then p else After(Next(p, log[0]), log[1..])
  }

  lemma {:induction false} AfterConcat(p: Place, a: seq<Seen>, b: seq<Seen>)
    ensures After(p, a + b) == After(After(p, a), b)
    decreases |a|
  {
    if a == [] {
      assert a + b == b;
    } else {
      assert (a + b)[1..] == a[1..] + b && (a + b)[0] == a[0];
      AfterConcat(Next(p, a[0]), a[1..], b);
    }
  }

  lemma AfterOne(p: Place, x: Seen)
    ensures After(p, [x]) == Next(p, x)
  {
    assert [x][1..] == [];
  }

  lemma {:induction false} AfterPops(p: Place, log: seq<Seen>)
    requires NoCode(log)
    ensures p.phase.Head? || p.phase.Full? ==> After(p, log) == p.(etime := p.etime || Expiry(log))
    ensures p.phase.Submitting? ==> After(p, log) == p
    decreases |log|
  {
    if log != [] {
      assert log[0] in log && log == [log[0]] + log[1..];
      AfterPops(Next(p, log[0]), log[1..]);
    }
  }

  /** A turn of the loop of `flush_submissions`, after all before it. */
  lemma AfterAround(p: Place, log: seq<Seen>) returns (x: Seen)
    requires LastCode(log).Some?
    ensures x in log && x.Code? && LastCode(log) == Some(x.code)
    ensures After(p, log) == After(Next(After(p, BeforeCode(log)), x), AfterCode(log))
    ensures Expiry(log) <==> Expiry(BeforeCode(log)) || Expiry(AfterCode(log))
    ensures forall y <- BeforeCode(log) :: y in log
  {
    hide After, Next, LastCode, BeforeCode, AfterCode;
    x := AroundCode(log);
    AfterConcat(p, BeforeCode(log) + [x], AfterCode(log));
    AfterConcat(p, BeforeCode(log), [x]);
    AfterOne(After(p, BeforeCode(log)), x);
    assert forall y :: y in log <==> y in BeforeCode(log) || y == x || y in AfterCode(log);
  }

  /** The retries of the `flush_submissions` that makes room, and of the one in `flush`. */
  lemma {:induction false} AfterRetries(e: bool, log: seq<Seen>)
    requires Retries(log)
    ensures Asked(0, log) ==>
              After(Place(Head, false), log) == Place(if log == [] then Head else Full, Expiry(log))
    ensures Asked(1, log) ==> After(Place(Submitting, e), log) == Place(Submitting, e)
    decreases |log|
  {
    hide LastCode, BeforeCode, AfterCode, After;
    if log == [] {
      AfterNothing();
    } else {
      PopsAfter(log);
      var x := AfterAround(Place(Head, false), log);
      AfterRetries(e, BeforeCode(log));
      var y := AfterAround(Place(Submitting, e), log);
      assert Asked(0, log) ==> Asked(0, BeforeCode(log)) && x.want == 0;
      assert Asked(1, log) ==> Asked(1, BeforeCode(log)) && y.want == 1;
      if Asked(0, log) {
        AfterPops(Place(Full, Expiry(BeforeCode(log))), AfterCode(log));
      }
      if Asked(1, log) {
        AfterPops(Place(Submitting, e), AfterCode(log));
      }
    }
  }

  lemma PopsAfter(log: seq<Seen>)
    requires Retries(log) && log != []
    ensures LastCode(log).Some? && LastCode(log).value != 0 && NoCode(AfterCode(log)) && Retries(BeforeCode(log))
    ensures BeforeCode(log) == [] ==> !Expiry(BeforeCode(log))
  {
  }

  lemma AfterNothing()
    ensures forall p :: After(p, []) == p
    ensures !Expiry([])
  {
  }
}
