/** The two intrusive lists of queue.rs, threaded through the same headers. */
module Queues {
  import opened Types

  /** `TaskHeader` together with the future of its `TaskStorage`. */
  class TaskHeader {
    const id: Id
    var next: TaskHeader?          // executor_queue_item
    var freeNext: TaskHeader?      // task_pool_queue_item
    var executor: object?
    var pollFn: bool               // poll_fn is Some
    var storage: TaskHeader?       // task_storage_ptr
    var finalizer: object?         // task_pool_ptr and task_pool_finalizer_fn
    var future: Option<Script>     // UninitCell: None is uninitialised
    var leaf: Option<Request>      // the leaf future inside `future`

    constructor (id: Id)
      ensures this.id == id && next == null && freeNext == null && executor == null && !pollFn
      ensures storage == null && finalizer == null && future.None? && leaf.None?
    {
      this.id := id;
      next, freeNext, executor, pollFn := null, null, null, false;
      storage, finalizer, future, leaf := null, null, None, None;
    }
  }

  function First(q: seq<TaskHeader>): TaskHeader? {
    if q == [] then null else q[0]
  }

  function Elems(q: seq<TaskHeader>): set<TaskHeader> {
    set t | t in q
  }

  ghost predicate Distinct(q: seq<TaskHeader>) {
    forall i, j :: 0 <= i < j < |q| ==> q[i] != q[j]
  }

  function After(q: seq<TaskHeader>, i: int): TaskHeader?
    requires 0 <= i < |q|
  {
    if i + 1 < |q| then q[i + 1] else null
  }

  /** `q` is a null-terminated list along `next`. */
  ghost predicate Chained(q: seq<TaskHeader>)
    reads q`next
  {
    Distinct(q) && forall i :: 0 <= i < |q| ==> q[i].next == After(q, i)
  }

  ghost predicate FreeChained(q: seq<TaskHeader>)
    reads q`freeNext
  {
    Distinct(q) && forall i :: 0 <= i < |q| ==> q[i].freeNext == After(q, i)
  }

  lemma ChainTail(q: seq<TaskHeader>)
    requires Chained(q) && q != []
    ensures Chained(q[1..]) && q[0].next == First(q[1..]) && q[0] !in q[1..]
  {
  }

  function Reversed(q: seq<TaskHeader>): seq<TaskHeader> {
    if q == [] then [] else Reversed(q[1..]) + [q[0]]
  }

  function Flat(qs: seq<seq<TaskHeader>>): seq<TaskHeader> {
    if qs == [] then [] else qs[0] + Flat(qs[1..])
  }

  lemma {:induction false} ReversedSnoc(q: seq<TaskHeader>, t: TaskHeader)
    ensures Reversed(q + [t]) == [t] + Reversed(q)
  {
    if q != [] {
      ReversedSnoc(q[1..], t);
      assert (q + [t])[1..] == q[1..] + [t];
    }
  }

  lemma {:induction false} ReversedConcat(a: seq<TaskHeader>, b: seq<TaskHeader>)
    ensures Reversed(a + b) == Reversed(b) + Reversed(a)
  {
    if a == [] {
      assert a + b == b;
    } else {
      ReversedConcat(a[1..], b);
      assert (a + b)[1..] == a[1..] + b;
    }
  }

  lemma {:induction false} ReversedMembers(q: seq<TaskHeader>, t: TaskHeader)
    ensures t in Reversed(q) <==> t in q
  {
    if q != [] {
      ReversedMembers(q[1..], t);
    }
  }

  lemma {:induction false} FlatConcat(a: seq<seq<TaskHeader>>, b: seq<seq<TaskHeader>>)
    ensures Flat(a + b) == Flat(a) + Flat(b)
    decreases |a|
  {
    if a == [] {
      assert a + b == b;
    } else {
      assert (a + b)[1..] == a[1..] + b;
      FlatConcat(a[1..], b);
    }
  }

  lemma FlatOne(q: seq<TaskHeader>)
    ensures Flat([q]) == q
  {
    assert [q][1..] == [];
    assert Flat([q]) == q + Flat([]);
  }

  lemma FlatPrefix(qs: seq<seq<TaskHeader>>, k: nat)
    requires k < |qs|
    ensures Flat(qs[..k + 1]) == Flat(qs[..k]) + qs[k]
  {
    hide Flat;
    assert qs[..k + 1] == qs[..k] + [qs[k]];
    FlatConcat(qs[..k], [qs[k]]);
    FlatOne(qs[k]);
  }

  /** The pushes before, in and after the `k`th call. */
  lemma FlatSplit(qs: seq<seq<TaskHeader>>, k: nat)
    requires k < |qs|
    ensures Flat(qs) == Flat(qs[..k]) + qs[k] + Flat(qs[k + 1..])
    ensures Flat(qs[..k + 1]) == Flat(qs[..k]) + qs[k]
  {
    hide Flat;
    FlatPrefix(qs, k);
    assert qs[..k + 1] + qs[k + 1..] == qs;
    FlatConcat(qs[..k + 1], qs[k + 1..]);
  }

  lemma DistinctParts(a: seq<TaskHeader>, b: seq<TaskHeader>, c: seq<TaskHeader>)
    requires Distinct(a + b + c)
    ensures Distinct(b) && forall t <- b :: t !in a
  {
    var abc := a + b + c;
    assert forall i :: 0 <= i < |a| ==> abc[i] == a[i];
    assert forall i :: 0 <= i < |b| ==> abc[|a| + i] == b[i];
  }

  /** The `k`th call pushes tasks that no earlier call pushed. */
  lemma PushesAreNew(qs: seq<seq<TaskHeader>>, k: nat)
    requires k < |qs| && Distinct(Flat(qs))
    ensures Distinct(qs[k])
    ensures forall t <- qs[k] :: t !in Reversed(Flat(qs[..k]))
    ensures forall t <- qs[k] :: t in Flat(qs)
  {
    FlatSplit(qs, k);
    DistinctParts(Flat(qs[..k]), qs[k], Flat(qs[k + 1..]));
    forall t | t in qs[k] ensures t !in Reversed(Flat(qs[..k])) {
      ReversedMembers(Flat(qs[..k]), t);
    }
    assert forall t <- qs[k] :: t in Flat(qs[..k]) + qs[k];
  }

  lemma PushesStack(qs: seq<seq<TaskHeader>>, k: nat)
    requires k < |qs|
    ensures Reversed(qs[k]) + Reversed(Flat(qs[..k])) == Reversed(Flat(qs[..k + 1]))
  {
    FlatSplit(qs, k);
    ReversedConcat(Flat(qs[..k]), qs[k]);
  }

  lemma {:induction false} FlatMember(qs: seq<seq<TaskHeader>>, t: TaskHeader)
    requires t in Flat(qs)
    ensures exists i :: 0 <= i < |qs| && t in qs[i]
  {
    if t in qs[0] {
    } else {
      FlatMember(qs[1..], t);
      var i :| 0 <= i < |qs[1..]| && t in qs[1..][i];
      assert t in qs[i + 1];
    }
  }

  lemma EmptyLists()
    ensures Chained([]) && Reversed(Flat([])) == []
  {
  }

  lemma NotYet(q: seq<TaskHeader>, i: nat, c: seq<TaskHeader>)
    requires i < |q| && Distinct(q) && q[i] !in c
    ensures q[i] !in Reversed(q[..i]) + c
    ensures Reversed(q[..i + 1]) + c == [q[i]] + (Reversed(q[..i]) + c)
  {
    ReversedMembers(q[..i], q[i]);
    ReversedSnoc(q[..i], q[i]);
    assert q[..i + 1] == q[..i] + [q[i]];
  }

  // ---- following links, well-formed or not ----

  type Links = map<TaskHeader, TaskHeader?>

  ghost function Snapshot(nodes: set<TaskHeader>): Links
    reads nodes`next
  {
    map n | n in nodes :: n.next
  }

  ghost predicate Closed(links: Links) {
    forall n <- links :: links[n] == null || links[n] in links
  }

  /** The nodes that still have a link. */
  ghost function Linked(links: Links): set<TaskHeader> {
    set n | n in links && links[n] != null
  }

  /** What `drain` visits on any link structure: it clears each link it follows. */
  ghost function Walk(links: Links, cur: TaskHeader?): seq<TaskHeader>
    requires Closed(links) && (cur == null || cur in links)
    decreases |Linked(links)| + if cur == null then 0 else 1
  {
    if cur == null then [] else
    var rest := links[cur := null];
    LinkedFalls(links, cur);
    [cur] + Walk(rest, links[cur])
  }

  lemma LinkedFalls(links: Links, n: TaskHeader)
    requires n in links
    ensures |Linked(links[n := null])| == |Linked(links)| - if links[n] == null then 0 else 1
  {
    assert Linked(links[n := null]) == Linked(links) - {n};
  }

  ghost predicate ChainIn(links: Links, q: seq<TaskHeader>) {
    && Distinct(q)
    && forall i :: 0 <= i < |q| ==> q[i] in links && links[q[i]] == After(q, i)
  }

  /** A well-formed list is visited front to back, each node once. */
  lemma {:induction false} WalkChain(links: Links, q: seq<TaskHeader>)
    requires Closed(links) && ChainIn(links, q)
    ensures Walk(links, First(q)) == q
    decreases |q|
  {
    if q != [] {
      assert First(q[1..]) == links[q[0]];
      WalkChain(links[q[0] := null], q[1..]);
    }
  }

  lemma {:induction false} WalkLoop(links: Links, p: seq<TaskHeader>, t: TaskHeader)
    requires Closed(links) && t in links && links[t] == null
    requires Distinct(p + [t])
    requires forall i :: 0 <= i < |p| ==> p[i] in links && links[p[i]] == After(p + [t], i)
    ensures Walk(links, First(p + [t])) == p + [t]
    decreases |p|
  {
    if p != [] {
      assert p + [t] == [p[0]] + (p[1..] + [t]);
      assert links[p[0]] == First(p[1..] + [t]);
      WalkLoop(links[p[0] := null], p[1..], t);
    }
  }

  /** Enqueueing a task that is already queued, at any position: the drain visits it twice and never
      reaches what was behind it. */
  lemma ReenqueueCutsOff(links: Links, p: seq<TaskHeader>, t: TaskHeader, s: seq<TaskHeader>)
    requires Closed(links) && ChainIn(links, p + [t] + s)
    ensures Walk(links[t := First(p + [t] + s)], t) == [t] + p + [t]
  {
    hide Walk, ChainIn;
    ChainUpTo(links, p, t, s);
    var links' := links[t := First(p + [t])];
    WalkOne(links', t);
    WalkLoop(links'[t := null], p, t);
    assert [t] + (p + [t]) == [t] + p + [t];
  }

  lemma WalkOne(links: Links, t: TaskHeader)
    requires Closed(links) && t in links
    ensures Walk(links, t) == [t] + Walk(links[t := null], links[t])
  {
  }

  lemma ChainUpTo(links: Links, p: seq<TaskHeader>, t: TaskHeader, s: seq<TaskHeader>)
    requires ChainIn(links, p + [t] + s)
    ensures First(p + [t] + s) == First(p + [t]) && t in links && Distinct(p + [t])
    ensures forall i :: 0 <= i < |p| ==> p[i] != t && p[i] in links && links[p[i]] == After(p + [t], i)
  {
    var q := p + [t] + s;
    assert q[|p|] == t && q[..|p| + 1] == p + [t];
    assert forall i :: 0 <= i <= |p| ==> (p + [t])[i] == q[i];
    forall i | 0 <= i < |p| ensures p[i] != t && p[i] in links && links[p[i]] == After(p + [t], i) {
      assert q[i] == p[i] && q[i + 1] == (p + [t])[i + 1];
    }
  }

  /** The unwritten precondition of `enqueue` is exact: after pushing `t` on the list `q`, a drain
      visits every queued task once if and only if `t` was not queued. */
  lemma EnqueueExact(links: Links, q: seq<TaskHeader>, t: TaskHeader)
    requires Closed(links) && ChainIn(links, q) && t in links
    ensures Distinct(Walk(links[t := First(q)], t)) <==> t !in q
    ensures t !in q ==> Walk(links[t := First(q)], t) == [t] + q
  {
    if t in q {
      var i :| 0 <= i < |q| && q[i] == t;
      assert q == q[..i] + [t] + q[i + 1..];
      ReenqueueCutsOff(links, q[..i], t, q[i + 1..]);
      var w := [t] + q[..i] + [t];
      assert w[0] == w[|w| - 1];
    } else {
      WalkChain(links[t := First(q)], [t] + q);
    }
  }

  // ---- the run queue ----

  class TaskQueue {
    var head: TaskHeader?
    ghost var contents: seq<TaskHeader>

    ghost predicate Valid()
      reads `head, `contents, contents`next
    {
      head == First(contents) && Chained(contents)
    }

    constructor ()
      ensures Valid() && contents == []
    {
      head, contents := null, [];
    }

    /** Unchecked, as in the source: the list stays well-formed if `t` is not in it. */
    method Enqueue(t: TaskHeader)
      modifies `head, `contents, t`next
      ensures head == t && t.next == old(head)
      ensures contents == [t] + old(contents)
      ensures old(Valid()) && t !in old(contents) ==> Valid()
    {
      var prev := head;
      head := t;
      t.next := prev;
      contents := [t] + contents;
    }

    /** One more visit. */
    static lemma WalkOn(visited: seq<TaskHeader>, links: Links, t: TaskHeader)
      requires Closed(links) && t in links
      ensures visited + Walk(links, t) == visited + [t] + Walk(links[t := null], links[t])
    {
    }

    /** `drain` with a callback that enqueues nothing ends on every link structure, cyclic or not. */
    method Drain(ghost nodes: set<TaskHeader>) returns (visited: seq<TaskHeader>)
      requires Closed(Snapshot(nodes)) && (head == null || head in nodes)
      modifies `head, `contents, nodes`next
      ensures visited == Walk(old(Snapshot(nodes)), old(head))
      ensures Valid() && contents == []
    {
      var next := head;
      head, contents, visited := null, [], [];
      while next != null
        invariant head == null && contents == []
        invariant Closed(Snapshot(nodes)) && (next == null || next in nodes)
        invariant visited + Walk(Snapshot(nodes), next) == Walk(old(Snapshot(nodes)), old(head))
        decreases |Linked(Snapshot(nodes))| + if next == null then 0 else 1
      {
        ghost var links := Snapshot(nodes);
        var task: TaskHeader := next;
        next := task.next;
        task.next := null;
        assert Snapshot(nodes) == links[task := null];
        LinkedFalls(links, task);
        WalkOn(visited, links, task);
        visited := visited + [task];
      }
    }

    /** The tasks pushed by the `i`th callback are not queued again and not still to be visited. */
    static ghost predicate Disciplined(q: seq<TaskHeader>, pushes: seq<seq<TaskHeader>>) {
      && |pushes| == |q|
      && Distinct(Flat(pushes))
      && forall i, t :: 0 <= i < |q| && t in pushes[i] ==> t !in q[i + 1..]
    }

    /** The task about to be visited was not pushed by an earlier call. */
    static lemma VisitedIsNew(q: seq<TaskHeader>, pushes: seq<seq<TaskHeader>>, k: nat)
      requires Disciplined(q, pushes) && k < |q|
      ensures q[k] !in Reversed(Flat(pushes[..k]))
    {
      ReversedMembers(Flat(pushes[..k]), q[k]);
      forall i | 0 <= i < k ensures q[k] !in pushes[..k][i] {
        assert q[i + 1..][k - i - 1] == q[k];
      }
      if q[k] in Flat(pushes[..k]) {
        FlatMember(pushes[..k], q[k]);
      }
    }

    /** What the discipline gives for the next visit. */
    static lemma DrainStep(q: seq<TaskHeader>, pushes: seq<seq<TaskHeader>>,
                           visited: seq<TaskHeader>, rest: seq<TaskHeader>)
      requires Disciplined(q, pushes) && q == visited + rest && rest != []
      ensures var k := |visited|;
              && rest == [rest[0]] + rest[1..] && q == (visited + [rest[0]]) + rest[1..]
              && rest[0] !in Reversed(Flat(pushes[..k])) && Distinct(pushes[k])
              && (forall t <- pushes[k] :: t !in Reversed(Flat(pushes[..k])) && t !in rest[1..])
              && (forall t <- pushes[k] :: t in Flat(pushes))
              && Reversed(pushes[k]) + Reversed(Flat(pushes[..k])) == Reversed(Flat(pushes[..k + 1]))
    {
      hide Distinct, Reversed, Flat;
      var k := |visited|;
      VisitedIsNew(q, pushes, k);
      PushesAreNew(pushes, k);
      PushesStack(pushes, k);
      assert rest[1..] == q[k + 1..];
      forall t | t in pushes[k] ensures t !in Reversed(Flat(pushes[..k])) && t !in rest[1..] {
      }
    }

    /** `drain` with a callback that, on its `i`th call, enqueues `pushes[i]` on this same queue,
        possibly the task being visited: the detached list is visited exactly, newest first, and the
        new queue is what the callbacks pushed, last first. */
    method DrainReentrant(pushes: seq<seq<TaskHeader>>) returns (visited: seq<TaskHeader>)
      requires Valid() && Disciplined(contents, pushes)
      modifies `head, `contents, Elems(contents + Flat(pushes))`next
      ensures Valid() && visited == old(contents)
      ensures contents == Reversed(Flat(pushes))
      ensures Cleared(old(contents))
    {
      hide Chained, Distinct, Reversed, Flat, Cleared;
      ghost var q, rest := contents, contents;
      var next := head;
      head, contents, visited := null, [], [];
      EmptyLists();
      NoneVisited();
      assert pushes[..0] == [];
      while next != null
        invariant q == visited + rest && next == First(rest) && Chained(rest)
        invariant Valid() && contents == Reversed(Flat(pushes[..|visited|]))
        invariant Cleared(visited)
        decreases |rest|
      {
        var task: TaskHeader := next;
        DrainStep(q, pushes, visited, rest);
        next := VisitOne(task, visited, rest[1..], pushes[|visited|]);
        rest, visited := rest[1..], visited + [task];
      }
      assert pushes[..|pushes|] == pushes;
    }

    /** No link is left in those of `visited` that are not queued again. */
    ghost predicate Cleared(visited: seq<TaskHeader>)
      reads `contents, visited`next
    {
      forall t <- visited :: t !in contents ==> t.next == null
    }

    lemma NoneVisited()
      ensures Cleared([])
    {
    }

    /** One iteration: step over `task`, then call back. */
    method VisitOne(task: TaskHeader, ghost visited: seq<TaskHeader>, ghost rest: seq<TaskHeader>, tasks: seq<TaskHeader>) returns (next: TaskHeader?)
      requires Valid() && Chained([task] + rest) && task !in contents && Cleared(visited)
      requires Distinct(tasks) && forall t <- tasks :: t !in contents && t !in rest
      modifies `head, `contents, task`next, Elems(tasks)`next
      ensures Valid() && contents == Reversed(tasks) + old(contents)
      ensures next == First(rest) && Chained(rest)
      ensures Cleared(visited + [task])
    {
      ChainTail([task] + rest);
      assert ([task] + rest)[1..] == rest;
      next := task.next;
      task.next := null;
      Callback(tasks);
    }

    method Callback(tasks: seq<TaskHeader>)
      requires Valid() && Distinct(tasks) && forall t <- tasks :: t !in contents
      modifies `head, `contents, Elems(tasks)`next
      ensures Valid() && contents == Reversed(tasks) + old(contents)
      ensures forall t <- tasks :: t in contents
    {
      assert [] + contents == contents;
      for i := 0 to |tasks|
        invariant Valid() && contents == Reversed(tasks[..i]) + old(contents)
      {
        NotYet(tasks, i, old(contents));
        Enqueue(tasks[i]);
      }
      assert tasks[..|tasks|] == tasks;
      forall t | t in tasks ensures t in contents {
        ReversedMembers(tasks, t);
      }
    }
  }

  // ---- the free list ----

  class TaskFreeList {
    var top: TaskHeader?
    ghost var stack: seq<TaskHeader>

    ghost predicate Valid()
      reads `top, `stack, stack`freeNext
    {
      top == First(stack) && FreeChained(stack)
    }

    constructor ()
      ensures Valid() && stack == []
    {
      top, stack := null, [];
    }

    /** Touches no `next` link: the run queue is framed. */
    method Enqueue(t: TaskHeader)
      requires Valid() && t !in stack
      modifies `top, `stack, t`freeNext
      ensures Valid() && stack == [t] + old(stack)
    {
      var prev := top;
      top := t;
      t.freeNext := prev;
      stack := [t] + stack;
    }

    /** A stack's pop, although the removed header keeps its stale link: no header is modified. */
    method Dequeue() returns (t: TaskHeader?)
      requires Valid()
      modifies `top, `stack
      ensures Valid()
      ensures t == First(old(stack))
      ensures stack == if old(stack) == [] then [] else old(stack)[1..]
    {
      t := top;
      if t != null {
        top := t.freeNext;
        stack := stack[1..];
      }
    }
  }
}
