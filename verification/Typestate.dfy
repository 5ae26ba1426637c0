/** The futures in the slots, over whole runs: written when uninitialised, polled when initialised,
    dropped once per occupancy. */
module Typestate {
  import opened Types
  import opened Machine
  import opened Invariant
  import opened Preservation
  import opened Runs

  datatype Mark = Write | Poll | Drop

  /** What step `e` does to the future in slot `id`. */
  ghost function MarkOf(s: State, e: Event, id: Id): seq<Mark>
    requires Enabled(s, e)
  {
    match e
    case EvPrepare(p, _) => if Candidate(s, p) == Some(id) then [Write] else []
    case EvBranch => if Candidate(s, Polled(s).script.pool) == Some(id) then [Write] else []
    case EvVisit => if s.segment[0] == id then [Poll] else []
    case EvComplete => if s.polling == Some(id) then [Drop] else []
    case _ => []
  }

  ghost function Life(s: State, run: seq<Event>, id: Id): seq<Mark>
    requires Legal(s, run)
    decreases |run|
  {
    if run == [] then [] else MarkOf(s, run[0], id) + Life(Apply(s, run[0]), run[1..], id)
  }

  /** `UninitCell`: whether a future is there afterwards, None if it was misused on the way. */
  function Use(marks: seq<Mark>, init: bool): Option<bool> {
    if marks == [] then Some(init) else
    match marks[0]
    case Write => if init then None else Use(marks[1..], true)
    case Poll => if init then Use(marks[1..], true) else None
    case Drop => if init then Use(marks[1..], false) else None
  }

  lemma StepUses(s: State, e: Event, id: Id)
    requires Inv(s) && Enabled(s, e)
    ensures Use(MarkOf(s, e, id), HandedOut(s, id)) == Some(HandedOut(Apply(s, e), id))
  {
    hide QueueInv, RingInv, LeafInv, PoolInv, SerialInv, CountInv;
    match e
    case EvPrepare(p, f) =>
      if Candidate(s, p).Some? {
        PoolTakes(s, p, f);
      }
    case EvBranch =>
      var t := Polled(s);
      if Candidate(s, t.script.pool).Some? {
        PoolTakes(s, t.script.pool, t.script.child);
      }
    case EvVisit =>
      QueueVisits(s);
    case EvComplete =>
      PoolGains(s);
    case EvDeliver =>
      if s.ring.cq[0].entry.Req? {
        DeliverTarget(s);
      }
    case _ =>
  }

  lemma {:induction false} UseConcat(a: seq<Mark>, b: seq<Mark>, init: bool)
    ensures Use(a + b, init) == match Use(a, init) case None => None case Some(i) => Use(b, i)
  {
    if a == [] {
      assert a + b == b;
    } else {
      assert (a + b)[1..] == a[1..] + b;
      match a[0]
      case Drop => UseConcat(a[1..], b, false);
      case _ => UseConcat(a[1..], b, true);
    }
  }

  lemma {:induction false} RunUses(s: State, run: seq<Event>, id: Id)
    requires Inv(s) && Legal(s, run)
    ensures Use(Life(s, run, id), HandedOut(s, id)) == Some(HandedOut(Exec(s, run), id))
    decreases |run|
  {
    hide Inv, Apply, Enabled, MarkOf, HandedOut;
    if run != [] {
      StepKeeps(s, run[0]);
      StepUses(s, run[0], id);
      RunUses(Apply(s, run[0]), run[1..], id);
      UseConcat(MarkOf(s, run[0], id), Life(Apply(s, run[0]), run[1..], id), HandedOut(s, id));
    }
  }

  /** In every run and for every slot: no write hits a live future, no poll an uninitialised one, and
      writes and drops alternate, so that each finished occupancy drops its future exactly once
      before the slot is written again. */
  lemma FutureTypestate(sizes: seq<nat>, cap: nat, run: seq<Event>, id: Id)
    requires Legal(Start(sizes, cap), run)
    ensures Use(Life(Start(sizes, cap), run, id), false) == Some(HandedOut(Exec(Start(sizes, cap), run), id))
  {
    StartInv(sizes, cap);
    RunUses(Start(sizes, cap), run, id);
  }
}
