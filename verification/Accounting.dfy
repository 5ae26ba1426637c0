/** `flush_completions` subtracts its running total after every pass.  When is that right? */
module Accounting {

  /** The completions that the passes of one call consume. */
  function Consumed(passes: seq<nat>): nat {
    if passes == [] then 0 else passes[0] + Consumed(passes[1..])
  }

  /** What the call takes off `req_queued`, `collected` being the total so far. */
  function TakenOff(passes: seq<nat>, collected: nat): nat
    decreases |passes|
  {
    if passes == [] then 0 else
    var total := collected + passes[0];
    total + TakenOff(passes[1..], total)
  }

  /** The passes of a call with `want`: it goes on while its total is below. */
  ghost predicate IsCall(passes: seq<nat>, want: nat, collected: nat)
    decreases |passes|
  {
    && passes != []
    && var total := collected + passes[0];
       if |passes| == 1 then total >= want else total < want && IsCall(passes[1..], want, total)
  }

  lemma {:induction false} TakesEnough(passes: seq<nat>, collected: nat)
    ensures TakenOff(passes, collected) >= Consumed(passes) + if passes == [] then 0 else collected
    decreases |passes|
  {
    if passes != [] {
      TakesEnough(passes[1..], collected + passes[0]);
    }
  }

  /** The count is right exactly if every pass but the last found nothing; otherwise too much is
      taken off. */
  lemma {:induction false} ExactIff(passes: seq<nat>)
    ensures TakenOff(passes, 0) >= Consumed(passes)
    ensures TakenOff(passes, 0) == Consumed(passes) <==> forall i :: 0 <= i < |passes| - 1 ==> passes[i] == 0
    decreases |passes|
  {
    TakesEnough(passes, 0);
    if |passes| > 1 {
      if passes[0] == 0 {
        ExactIff(passes[1..]);
        assert forall i :: 0 <= i < |passes| - 2 ==> passes[1..][i] == passes[i + 1];
        assert forall i :: 1 <= i < |passes| - 1 ==> passes[i] == passes[1..][i - 1];
      } else {
        TakesEnough(passes[1..], passes[0]);
      }
    }
  }

  lemma {:induction false} SmallWant(passes: seq<nat>, want: nat)
    requires IsCall(passes, want, 0) && want <= 1
    ensures TakenOff(passes, 0) == Consumed(passes)
    decreases |passes|
  {
    if |passes| > 1 {
      SmallWant(passes[1..], want);
    }
  }

  /** Every call with `want` is right if and only if `want` is 0 or 1. */
  lemma RightExactlyForSmallWant(want: nat)
    ensures (forall passes :: IsCall(passes, want, 0) ==> TakenOff(passes, 0) == Consumed(passes)) <==> want <= 1
  {
    if want <= 1 {
      forall passes | IsCall(passes, want, 0) ensures TakenOff(passes, 0) == Consumed(passes) {
        SmallWant(passes, want);
      }
    } else {
      var passes := [1, want - 1];
      assert passes[1..] == [want - 1] && passes[1..][1..] == [];
      assert IsCall(passes[1..], want, 1);
      assert IsCall(passes, want, 0);
      assert TakenOff(passes[1..], 1) == want + TakenOff([], want) && Consumed(passes[1..]) == want - 1 + Consumed([]);
      assert TakenOff(passes, 0) == want + 1 && Consumed(passes) == want;
    }
  }
}
