/** `TaskPool`: fresh slots first, then the free list. */
module Pools {
  import opened Types
  import opened Queues

  function IndicesOf(q: seq<TaskHeader>): (r: seq<nat>)
    ensures |r| == |q|
  {
    seq(|q|, i requires 0 <= i < |q| => q[i].id.index)
  }

  class TaskPool {
    const index: nat
    const slots: seq<TaskHeader>
    const freeList: TaskFreeList
    var exhausted: nat

    /** The pool as numbers. */
    ghost function V(): Pool
      reads `exhausted, freeList`stack
    {
      Pool(|slots|, exhausted, IndicesOf(freeList.stack))
    }

    ghost predicate Owns(t: TaskHeader) {
      t.id.pool == index && t.id.index < |slots| && slots[t.id.index] == t
    }

    ghost predicate Wired() {
      forall i :: 0 <= i < |slots| ==> slots[i].id == Id(index, i)
    }

    ghost predicate Valid()
      reads `exhausted, freeList`top, freeList`stack, freeList.stack`freeNext, slots`storage
    {
      && Wired()
      && freeList.Valid() && (forall t <- freeList.stack :: Owns(t) && t.id.index < exhausted)
      && exhausted <= |slots|
      && forall i :: 0 <= i < exhausted ==> slots[i].storage == slots[i]
    }

    /** The slot the next `prepare_task` writes to. */
    ghost function Pick(): (t: TaskHeader?)
      requires Valid()
      reads `exhausted, freeList`top, freeList`stack, freeList.stack`freeNext, slots`storage
      ensures t != null ==> Owns(t) && PoolTake(V()).1 == Some(t.id.index)
      ensures t == null <==> PoolTake(V()).1.None?
    {
      if exhausted < |slots| then slots[exhausted] else First(freeList.stack)
    }

    ghost function Picked(): set<TaskHeader>
      requires Valid()
      reads `exhausted, freeList`top, freeList`stack, freeList.stack`freeNext, slots`storage
    {
      if Pick() == null then {} else {Pick()}
    }

    constructor (index: nat, size: nat)
      ensures Valid() && V() == Pool(size, 0, []) && this.index == index && exhausted == 0
      ensures fresh(freeList) && fresh(slots) && forall t <- slots :: t.future.None? && t.leaf.None? && t.next == null
    {
      var made: seq<TaskHeader> := [];
      for i := 0 to size
        invariant |made| == i && forall j :: 0 <= j < i ==> made[j].id == Id(index, j)
        invariant fresh(made) && forall t <- made :: t.future.None? && t.leaf.None? && t.next == null
      {
        var t := new TaskHeader(Id(index, i));
        made := made + [t];
      }
      this.index := index;
      slots := made;
      freeList := new TaskFreeList();
      exhausted := 0;
    }

    /** `UninitCell::write` and the header fields.  The slot holds no live future, which the source
        leaves to the callers of `prepare_task`. */
    method Fill(s: TaskHeader, script: Script)
      requires s.future.None?
      modifies s`future, s`leaf, s`storage, s`pollFn, s`finalizer
      ensures s.future == Some(script) && s.leaf.None? && s.pollFn && s.finalizer == this && s.storage == s
    {
      s.future, s.leaf := Some(script), None;
      s.storage := s;
      s.pollFn := true;
      s.finalizer := this;
    }

    method Choose() returns (storage: TaskHeader?)
      requires Valid()
      modifies `exhausted, freeList`top, freeList`stack
      ensures V() == PoolTake(old(V())).0 && storage == old(Pick())
      ensures if old(exhausted) < |slots| then
                storage == slots[old(exhausted)] && exhausted == old(exhausted) + 1
                && freeList.stack == old(freeList.stack)
              else
                exhausted == old(exhausted) && storage == First(old(freeList.stack))
                && freeList.stack == if storage == null then [] else old(freeList.stack)[1..]
      ensures storage != null ==> Owns(storage)
      ensures freeList.Valid() && (forall t <- freeList.stack :: Owns(t) && t.id.index < exhausted)
      ensures exhausted <= |slots|
      ensures forall i :: 0 <= i < exhausted ==> slots[i].storage == slots[i] || slots[i] == storage
    {
      hide FreeChained;
      if exhausted < |slots| {
        storage := slots[exhausted];
        exhausted := exhausted + 1;
      } else {
        ghost var list := freeList.stack;
        var head := freeList.Dequeue();
        if head == null {
          storage := null;
        } else {
          var task: TaskHeader := head;
          assert list == [task] + freeList.stack && task in list;
          assert Owns(task) && slots[task.id.index].storage == task;
          storage := task.storage;
          assert storage != null; // the assertion of the source
        }
      }
    }

    method PrepareTask(script: Script) returns (r: TaskHeader?)
      requires Valid() && (Pick() != null ==> Pick().future.None?)
      modifies `exhausted, freeList`top, freeList`stack
      modifies Picked()`future, Picked()`leaf, Picked()`storage, Picked()`pollFn, Picked()`finalizer
      ensures Valid() && V() == PoolTake(old(V())).0 && r == old(Pick())
      ensures if old(exhausted) < |slots| then
                r == slots[old(exhausted)] && exhausted == old(exhausted) + 1 && freeList.stack == old(freeList.stack)
              else
                exhausted == old(exhausted) && r == First(old(freeList.stack))
                && freeList.stack == if r == null then [] else old(freeList.stack)[1..]
      ensures r != null ==>
                r.future == Some(script) && r.leaf.None? && r.pollFn && r.finalizer == this && r.storage == r
    {
      r := Choose();
      if r != null {
        Fill(r, script);
      }
    }

    method Finalize(t: TaskHeader)
      requires Valid() && Owns(t) && t.id.index < exhausted && t.id.index !in V().free
      modifies freeList`top, freeList`stack, t`freeNext
      ensures Valid() && V() == PoolGive(old(V()), t.id.index) && freeList.stack == [t] + old(freeList.stack)
    {
      hide FreeChained;
      assert forall i :: 0 <= i < |freeList.stack| ==> V().free[i] == freeList.stack[i].id.index;
      ghost var free := V().free;
      freeList.Enqueue(t);
      assert V().free == [t.id.index] + free;
    }
  }
}
