/** Each task runs its own script: what it does is a path from the script it was spawned with, however
    the tasks interleave and whatever slot it is in. */
module Paths {
  import opened Types
  import opened Machine
  import opened Invariant
  import opened Preservation
  import opened Runs
  import opened Matching

  /** What a task does: it goes on with the result of a leaf, or tries to spawn a child. */
  datatype Act =
    | Awaited(op: int, res: int)
    | Tried(pool: nat, child: Script, spawned: bool)

  datatype Note = Note(serial: nat, act: Act)

  /** Doing `acts`, in order, leads from script `from` to script `to`: a negative result takes the
      error branch, a child without a slot the other one. */
  ghost predicate Path(from: Script, acts: seq<Act>, to: Script)
    decreases |acts|
  {
    if acts == [] then to == from else
    match from
    case Finish => false
    case Await(op, onOk, onErr) =>
      && acts[0].Awaited? && acts[0].op == op
      && Path(if acts[0].res >= 0 then onOk else onErr, acts[1..], to)
    case Spawn(pool, child, onSpawned, onFull) =>
      && acts[0].Tried? && acts[0].pool == pool && acts[0].child == child
      && Path(if acts[0].spawned then onSpawned else onFull, acts[1..], to)
  }

  /** The script of the task that step `e` spawns; one is spawned if the serials go on. */
  ghost function Birth(s: State, e: Event): seq<Script>
    requires Enabled(s, e)
  {
    if Apply(s, e).nextSerial == s.nextSerial then [] else
    match e
    case EvSpawn(id) => [s.held[id]]
    case EvBranch => [Polled(s).script.child]
    case _ => []
  }

  ghost function NoteOf(s: State, e: Event): seq<Note>
    requires Enabled(s, e)
  {
    match e
    case EvResume => [Note(Polled(s).serial, Awaited(Polled(s).script.op, Polled(s).leaf.value.returnVal.value))]
    case EvBranch =>
      var spawned := Apply(s, e).nextSerial > s.nextSerial;
      [Note(Polled(s).serial, Tried(Polled(s).script.pool, Polled(s).script.child, spawned))]
    case _ => []
  }

  /** The scripts of the tasks spawned in a run, in the order of their serials. */
  ghost function Births(s: State, run: seq<Event>): seq<Script>
    requires Legal(s, run)
    decreases |run|
  {
    if run == [] then [] else Birth(s, run[0]) + Births(Apply(s, run[0]), run[1..])
  }

  ghost function Notes(s: State, run: seq<Event>): seq<Note>
    requires Legal(s, run)
    decreases |run|
  {
    if run == [] then [] else NoteOf(s, run[0]) + Notes(Apply(s, run[0]), run[1..])
  }

  /** What the task with serial `n` did. */
  ghost function ActsOf(notes: seq<Note>, n: nat): seq<Act> {
    if notes == [] then [] else
    (if notes[0].serial == n then [notes[0].act] else []) + ActsOf(notes[1..], n)
  }

  lemma ActsHead(notes: seq<Note>, n: nat)
    ensures ActsOf([], n) == []
    ensures notes != [] ==>
              ActsOf(notes, n) == (if notes[0].serial == n then [notes[0].act] else []) + ActsOf(notes[1..], n)
  {
  }

  lemma {:induction false} ActsConcat(a: seq<Note>, b: seq<Note>, n: nat)
    ensures ActsOf(a + b, n) == ActsOf(a, n) + ActsOf(b, n)
  {
    hide ActsOf;
    ActsHead(a, n);
    if a == [] {
      assert a + b == b;
    } else {
      assert (a + b)[1..] == a[1..] + b && (a + b)[0] == a[0];
      ActsHead(a + b, n);
      ActsConcat(a[1..], b, n);
    }
  }

  lemma ActsSnoc(notes: seq<Note>, note: Note, n: nat)
    ensures ActsOf(notes + [note], n) == if note.serial == n then ActsOf(notes, n) + [note.act] else ActsOf(notes, n)
  {
    ActsConcat(notes, [note], n);
    assert [note][1..] == [];
    assert ActsOf([], n) == [];
  }

  lemma {:induction false} NoActs(notes: seq<Note>, n: nat)
    requires forall note <- notes :: note.serial < n
    ensures ActsOf(notes, n) == []
  {
    if notes != [] {
      NoActs(notes[1..], n);
    }
  }

  lemma {:induction false} PathSnoc(from: Script, acts: seq<Act>, mid: Script, act: Act, to: Script)
    requires Path(from, acts, mid) && Path(mid, [act], to)
    ensures Path(from, acts + [act], to)
    decreases |acts|
  {
    if acts == [] {
      assert acts + [act] == [act];
    } else {
      assert (acts + [act])[1..] == acts[1..] + [act];
      match from
      case Await(_, a, b) =>
        PathSnoc(if acts[0].res >= 0 then a else b, acts[1..], mid, act, to);
      case Spawn(_, _, a, b) =>
        PathSnoc(if acts[0].spawned then a else b, acts[1..], mid, act, to);
    }
  }

  /** One act leads to the branch it selects. */
  lemma PathOne(from: Script, act: Act)
    ensures from.Await? && act.Awaited? && act.op == from.op ==>
              Path(from, [act], if act.res >= 0 then from.onOk else from.onErr)
    ensures from.Spawn? && act.Tried? && act.pool == from.pool && act.child == from.child ==>
              Path(from, [act], if act.spawned then from.onSpawned else from.onFull)
  {
    assert [act][1..] == [];
    assert forall f :: Path(f, [], f);
  }

  /** `task` has got from its script to the rest that it still has to do. */
  ghost predicate OnPath(births: seq<Script>, notes: seq<Note>, serial: nat, rest: Script) {
    serial < |births| && Path(births[serial], ActsOf(notes, serial), rest)
  }

  /** Every task is on a path of its script, and the finished ones are at its end. */
  ghost predicate AllOnPath(s: State, births: seq<Script>, notes: seq<Note>) {
    && |births| == s.nextSerial && (forall note <- notes :: note.serial < s.nextSerial)
    && (forall id <- s.live :: OnPath(births, notes, s.live[id].serial, s.live[id].script))
    && (forall n <- s.finished :: OnPath(births, notes, n, Finish))
  }

  lemma OnPathStays(births: seq<Script>, more: seq<Script>, notes: seq<Note>, serial: nat, rest: Script)
    requires OnPath(births, notes, serial, rest)
    ensures OnPath(births + more, notes, serial, rest)
  {
  }

  /** A step after which every task has as much to do as before. */
  lemma NothingDone(s: State, s': State, births: seq<Script>, notes: seq<Note>)
    requires AllOnPath(s, births, notes)
    requires RestSame(s, s')
    ensures AllOnPath(s', births, notes)
  {
    hide OnPath;
    forall id | id in s'.live ensures OnPath(births, notes, s'.live[id].serial, s'.live[id].script) {
      assert OnPath(births, notes, s.live[id].serial, s.live[id].script);
    }
  }

  /** The polled task, now with `rest` to do, has done `act`. */
  lemma ActDone(s: State, s': State, id: Id, act: Act, births: seq<Script>, notes: seq<Note>)
    requires SerialInv(s) && AllOnPath(s, births, notes) && id in s.live && id in s'.live
    requires Path(s.live[id].script, [act], s'.live[id].script)
    requires s'.nextSerial == s.nextSerial && s'.finished == s.finished && s'.live.Keys == s.live.Keys
    requires s'.live[id].serial == s.live[id].serial
    requires forall i <- s.live :: i != id ==> s'.live[i] == s.live[i]
    ensures AllOnPath(s', births, notes + [Note(s.live[id].serial, act)])
  {
    hide Path;
    var note := Note(s.live[id].serial, act);
    assert OnPath(births, notes, s.live[id].serial, s.live[id].script);
    forall i | i in s'.live ensures OnPath(births, notes + [note], s'.live[i].serial, s'.live[i].script) {
      assert OnPath(births, notes, s.live[i].serial, s.live[i].script);
      ActsSnoc(notes, note, s'.live[i].serial);
      if i == id {
        PathSnoc(births[note.serial], ActsOf(notes, note.serial), s.live[id].script, act, s'.live[id].script);
      }
    }
    forall n | n in s.finished ensures OnPath(births, notes + [note], n, Finish) {
      assert OnPath(births, notes, n, Finish);
      ActsSnoc(notes, note, n);
    }
  }

  /** A task is spawned into `id` with `script`. */
  lemma Born(s: State, s': State, id: Id, script: Script, births: seq<Script>, notes: seq<Note>)
    requires AllOnPath(s, births, notes)
    requires s'.nextSerial == s.nextSerial + 1 && s'.finished == s.finished
    requires s'.live == s.live[id := Task(s.nextSerial, script, None)]
    ensures AllOnPath(s', births + [script], notes)
  {
    hide OnPath;
    forall i | i in s'.live ensures OnPath(births + [script], notes, s'.live[i].serial, s'.live[i].script) {
      if i == id {
        NoActs(notes, s.nextSerial);
        BornOnPath(births, notes, script);
      } else {
        assert OnPath(births, notes, s.live[i].serial, s.live[i].script);
        OnPathStays(births, [script], notes, s.live[i].serial, s.live[i].script);
      }
    }
    forall n | n in s.finished ensures OnPath(births + [script], notes, n, Finish) {
      OnPathStays(births, [script], notes, n, Finish);
    }
  }

  lemma BornOnPath(births: seq<Script>, notes: seq<Note>, script: Script)
    requires ActsOf(notes, |births|) == []
    ensures OnPath(births + [script], notes, |births|, script)
  {
  }

  /** The polled task has nothing left to do and is finished. */
  lemma Done(s: State, births: seq<Script>, notes: seq<Note>)
    requires SerialInv(s) && AllOnPath(s, births, notes) && CanComplete(s)
    ensures AllOnPath(DoComplete(s), births, notes)
  {
    hide OnPath;
    var s', id := DoComplete(s), s.polling.value;
    assert OnPath(births, notes, s.live[id].serial, s.live[id].script);
    forall i | i in s'.live ensures OnPath(births, notes, s'.live[i].serial, s'.live[i].script) {
      assert OnPath(births, notes, s.live[i].serial, s.live[i].script);
    }
  }

  lemma BranchDone(s: State, births: seq<Script>, notes: seq<Note>)
    requires Enabled(s, EvBranch) && PoolInv(s) && SerialInv(s) && AllOnPath(s, births, notes)
    ensures AllOnPath(Apply(s, EvBranch), births + Birth(s, EvBranch), notes + NoteOf(s, EvBranch))
  {
    hide PoolInv, SerialInv, OnPath, Path, AllOnPath;
    var id, t, s' := s.polling.value, Polled(s), DoBranch(s);
    match Candidate(s, t.script.pool)
    case None =>
      var act := Tried(t.script.pool, t.script.child, false);
      PathOne(t.script, act);
      ActDone(s, s', id, act, births, notes);
      assert births + Birth(s, EvBranch) == births;
    case Some(c) =>
      PoolTakes(s, t.script.pool, t.script.child);
      var act := Tried(t.script.pool, t.script.child, true);
      var s1 := s.(live := s.live[id := t.(script := t.script.onSpawned)]);
      PathOne(t.script, act);
      ActDone(s, s1, id, act, births, notes);
      Born(s1, s', c, t.script.child, births, notes + [Note(t.serial, act)]);
  }

  /** No task has more or less to do. */
  ghost predicate RestSame(s: State, s': State) {
    && s'.nextSerial == s.nextSerial && s'.finished == s.finished
    && forall id <- s'.live ::
         id in s.live && s'.live[id].serial == s.live[id].serial && s'.live[id].script == s.live[id].script
  }

  lemma SubmitRest(s: State)
    requires CanSubmit(s)
    ensures RestSame(s, DoSubmit(s))
  {
  }

  lemma DeliverRest(s: State)
    requires s.ring.cq != []
    ensures RestSame(s, DoDeliver(s))
  {
  }

  lemma PrepareRest(s: State, pool: nat, script: Script)
    ensures RestSame(s, DoPrepare(s, pool, script))
  {
  }

  lemma SameRest(s: State, e: Event)
    requires Enabled(s, e) && !e.EvSpawn? && !e.EvResume? && !e.EvBranch? && !e.EvComplete?
    ensures RestSame(s, Apply(s, e))
  {
    hide DoSubmit, DoDeliver, DoPrepare;
    match e
    case EvSubmit => SubmitRest(s);
    case EvDeliver => DeliverRest(s);
    case EvPrepare(pool, script) => PrepareRest(s, pool, script);
    case _ =>
  }

  lemma StepOnPath(s: State, e: Event, births: seq<Script>, notes: seq<Note>)
    requires Inv(s) && Enabled(s, e) && AllOnPath(s, births, notes)
    ensures AllOnPath(Apply(s, e), births + Birth(s, e), notes + NoteOf(s, e))
  {
    hide QueueInv, RingInv, LeafInv, PoolInv, SerialInv, CountInv, OnPath, Path, AllOnPath, DoBranch, DoDeliver, DoSubmit, RestSame;
    var s' := Apply(s, e);
    if e.EvBranch? {
      BranchDone(s, births, notes);
    } else if e.EvResume? {
      var act := Awaited(Polled(s).script.op, Polled(s).leaf.value.returnVal.value);
      PathOne(Polled(s).script, act);
      ActDone(s, s', s.polling.value, act, births, notes);
      assert births + Birth(s, e) == births;
    } else if e.EvSpawn? {
      Born(s, s', e.id, s.held[e.id], births, notes);
      assert notes + NoteOf(s, e) == notes;
    } else {
      assert births + Birth(s, e) == births && notes + NoteOf(s, e) == notes;
      if e.EvComplete? {
        Done(s, births, notes);
      } else {
        SameRest(s, e);
        NothingDone(s, s', births, notes);
      }
    }
  }

  lemma {:induction false} RunOnPath(s: State, run: seq<Event>, births: seq<Script>, notes: seq<Note>)
    requires Inv(s) && AllOnPath(s, births, notes) && Legal(s, run)
    ensures AllOnPath(Exec(s, run), births + Births(s, run), notes + Notes(s, run))
    decreases |run|
  {
    hide Inv, AllOnPath, Apply, Enabled, Birth, NoteOf;
    if run == [] {
      assert births + [] == births && notes + [] == notes;
    } else {
      var b, n := Birth(s, run[0]), NoteOf(s, run[0]);
      var s' := Apply(s, run[0]);
      StepKeeps(s, run[0]);
      StepOnPath(s, run[0], births, notes);
      RunOnPath(s', run[1..], births + b, notes + n);
      assert births + Births(s, run) == (births + b) + Births(s', run[1..]);
      assert notes + Notes(s, run) == (notes + n) + Notes(s', run[1..]);
    }
  }

  /** In every run, what the task with serial `n` did is a path through the `n`th script that was
      spawned: to the rest that it still has to do, or to the end if it is finished. */
  lemma ScriptsFollowed(sizes: seq<nat>, cap: nat, run: seq<Event>)
    requires Legal(Start(sizes, cap), run)
    ensures var births, notes, s := Births(Start(sizes, cap), run), Notes(Start(sizes, cap), run), Exec(Start(sizes, cap), run);
            && |births| == s.nextSerial
            && (forall id <- s.live :: s.live[id].serial < |births| &&
                  Path(births[s.live[id].serial], ActsOf(notes, s.live[id].serial), s.live[id].script))
            && (forall n <- s.finished :: n < |births| && Path(births[n], ActsOf(notes, n), Finish))
  {
    hide ActsOf, Path;
    var s0 := Start(sizes, cap);
    StartInv(sizes, cap);
    RunOnPath(s0, run, [], []);
    assert [] + Births(s0, run) == Births(s0, run) && [] + Notes(s0, run) == Notes(s0, run);
    var s := Exec(s0, run);
    forall id | id in s.live
      ensures s.live[id].serial < |Births(s0, run)|
      ensures Path(Births(s0, run)[s.live[id].serial], ActsOf(Notes(s0, run), s.live[id].serial), s.live[id].script)
    {
      assert OnPath(Births(s0, run), Notes(s0, run), s.live[id].serial, s.live[id].script);
    }
  }

  lemma {:induction false} BirthsConcat(s: State, a: seq<Event>, b: seq<Event>)
    requires Legal(s, a) && Legal(Exec(s, a), b)
    ensures Legal(s, a + b) && Births(s, a + b) == Births(s, a) + Births(Exec(s, a), b)
    decreases |a|
  {
    hide Apply, Enabled, Birth;
    ExecConcat(s, a, b);
    if a == [] {
      assert a + b == b;
    } else {
      assert (a + b)[1..] == a[1..] + b;
      BirthsConcat(Apply(s, a[0]), a[1..], b);
    }
  }

  /** A run from `s` to `s'` in which the task spawned first has `main` as its script. */
  ghost predicate RunsMain(main: Script, s: State, s': State) {
    exists run :: Legal(s, run) && Exec(s, run) == s' && Births(s, run) != [] && Births(s, run)[0] == main
  }

  lemma MainThen(main: Script, s: State, s1: State, s2: State)
    requires RunsMain(main, s, s1) && LeadsTo(s1, s2)
    ensures RunsMain(main, s, s2)
  {
    var a :| Legal(s, a) && Exec(s, a) == s1 && Births(s, a) != [] && Births(s, a)[0] == main;
    var b :| Legal(s1, b) && Exec(s1, b) == s2;
    ExecConcat(s, a, b);
    BirthsConcat(s, a, b);
  }

  /** A run from `s` to `s'` in which the first task does the acts of `main`, all of them. */
  ghost predicate MainDone(main: Script, s: State, s': State) {
    exists run :: Legal(s, run) && Exec(s, run) == s' && Path(main, ActsOf(Notes(s, run), 0), Finish)
  }

  /** If the first task is finished, it has run its script from the beginning to the end. */
  lemma MainFinishes(main: Script, sizes: seq<nat>, cap: nat, s: State)
    requires RunsMain(main, Start(sizes, cap), s) && 0 in s.finished
    ensures MainDone(main, Start(sizes, cap), s)
  {
    hide Path, ActsOf;
    var s0 := Start(sizes, cap);
    var run :| Legal(s0, run) && Exec(s0, run) == s && Births(s0, run) != [] && Births(s0, run)[0] == main;
    ScriptsFollowed(sizes, cap, run);
  }

  /** The results on the path are the ones observed: the kernel's replies to requests with the awaited
      operation, pushed from the task's own slot. */
  lemma AwaitedIsObserved(s: State)
    requires Reachable(s) && Enabled(s, EvResume)
    ensures |ObsOf(s, EvResume)| == 1
    ensures var o := ObsOf(s, EvResume)[0];
            && o.Observed? && o.e.Req? && o.e.owner == s.polling.value
            && NoteOf(s, EvResume) == [Note(Polled(s).serial, Awaited(o.e.op, o.res))]
  {
    ResumesObserved(s);
  }

  /** A child is spawned exactly if its pool has a slot that is not handed out. */
  lemma SpawnedExactly(s: State)
    requires Reachable(s) && CanBranch(s)
    ensures var p := Polled(s).script.pool;
            DoBranch(s).nextSerial > s.nextSerial <==>
              p < |s.pools| && exists i: nat :: i < s.pools[p].size && !HandedOut(s, Id(p, i))
  {
    var p := Polled(s).script.pool;
    if p < |s.pools| {
      PrepareExact(s, p);
      if Candidate(s, p).Some? {
        assert !HandedOut(s, Id(p, Candidate(s, p).value.index));
      }
    }
  }
}
