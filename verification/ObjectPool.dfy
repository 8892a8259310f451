/** The fixed-capacity slot allocator with a FIFO queue of free slots. */
module ObjectPool {
  import opened Sockets

  /** `slots[i]` is None while slot i is raw storage; a pointer into the storage is its slot number. */
  datatype Pool<T> = Pool(slots: seq<Option<T>>, free: seq<nat>)

  function Fresh<T>(capacity: nat): Pool<T> {
    Pool(seq(capacity, i => None), seq(capacity, i => i))
  }

  function AcquiredSlot<T>(p: Pool<T>): Option<nat> {
    if p.free == [] || p.free[0] >= |p.slots| then None else Some(p.free[0])
  }

  function AfterAcquire<T>(p: Pool<T>, value: T): Pool<T> {
    if AcquiredSlot(p).None? then p else Pool(p.slots[p.free[0] := Some(value)], p.free[1..])
  }

  /** A pointer outside the storage is ignored. */
  function AfterRelease<T>(p: Pool<T>, pos: int): Pool<T> {
    if 0 <= pos < |p.slots| then Pool(p.slots[pos := None], p.free + [pos]) else p
  }

  /** The queue holds exactly the raw slots, each once. */
  ghost predicate Consistent<T>(p: Pool<T>) {
    && NoDup(p.free)
    && (forall i :: i in p.free ==> i < |p.slots| && p.slots[i].None?)
    && (forall i :: 0 <= i < |p.slots| && p.slots[i].None? ==> i in p.free)
  }

  ghost function Live<T>(p: Pool<T>): set<nat> {
    set i: nat | i < |p.slots| && p.slots[i].Some?
  }

  lemma FreshIsConsistent<T>(capacity: nat)
    ensures Consistent(Fresh<T>(capacity)) && Live(Fresh<T>(capacity)) == {}
    ensures |Fresh<T>(capacity).free| == capacity && forall i :: 0 <= i < capacity ==> Fresh<T>(capacity).free[i] == i
  {
    var p := Fresh<T>(capacity);
    forall i | 0 <= i < |p.slots|
      ensures i in p.free
    {
      assert p.free[i] == i;
    }
  }

  lemma AcquireKeepsConsistent<T>(p: Pool<T>, value: T)
    requires Consistent(p)
    ensures Consistent(AfterAcquire(p, value))
    ensures AcquiredSlot(p).None? <==> p.free == []
    ensures AcquiredSlot(p).Some? ==>
              && AcquiredSlot(p).value !in Live(p)
              && Live(AfterAcquire(p, value)) == Live(p) + {AcquiredSlot(p).value}
              && AfterAcquire(p, value).slots == p.slots[AcquiredSlot(p).value := Some(value)]
    ensures AcquiredSlot(p).None? ==> AfterAcquire(p, value) == p
  {
    if p.free != [] {
      assert p.free[0] in p.free;
      var q := AfterAcquire(p, value);
      forall i | i in q.free
        ensures i < |q.slots| && q.slots[i].None?
      {
        var k :| 0 <= k < |q.free| && q.free[k] == i;
        assert p.free[k + 1] == i && i in p.free;
      }
      forall i | 0 <= i < |q.slots| && q.slots[i].None?
        ensures i in q.free
      {
        var k :| 0 <= k < |p.free| && p.free[k] == i;
        assert q.free[k - 1] == i;
      }
    }
  }

  /** Releasing a pointer into the storage keeps the queue valid exactly when the slot is live. */
  lemma ReleaseKeepsConsistentIff<T>(p: Pool<T>, pos: int)
    requires Consistent(p)
    ensures 0 <= pos < |p.slots| ==> (Consistent(AfterRelease(p, pos)) <==> pos in Live(p))
    ensures !(0 <= pos < |p.slots|) ==> AfterRelease(p, pos) == p
    ensures pos in Live(p) ==> Live(AfterRelease(p, pos)) == Live(p) - {pos}
    ensures |AfterRelease(p, pos).slots| == |p.slots|
    ensures forall i :: 0 <= i < |p.slots| && i != pos ==> AfterRelease(p, pos).slots[i] == p.slots[i]
  {
    if 0 <= pos < |p.slots| {
      var q := AfterRelease(p, pos);
      if p.slots[pos].Some? {
        forall i | 0 <= i < |q.slots| && q.slots[i].None?
          ensures i in q.free
        {
          if i == pos { assert q.free[|p.free|] == pos; } else { assert i in p.free; }
        }
      } else {
        var k :| 0 <= k < |p.free| && p.free[k] == pos;
        assert q.free[k] == q.free[|p.free|];
      }
    }
  }

  ghost function Range(n: nat): (r: set<nat>)
    ensures |r| == n
    ensures forall i: nat :: i in r <==> i < n
  {
    if n == 0 then {} else Range(n - 1) + {n - 1}
  }

  /** Free and live slots together are the whole capacity. */
  lemma Conservation<T>(p: Pool<T>)
    requires Consistent(p)
    ensures |p.free| + |Live(p)| == |p.slots|
  {
    var queued := set i | i in p.free;
    NoDupSize(p.free, queued);
    assert queued + Live(p) == Range(|p.slots|);
    assert queued !! Live(p);
  }

  // Runs of the allocator.

  datatype PoolOp<T> = Acquiring(value: T) | Releasing(pos: int)

  function Step<T>(p: Pool<T>, op: PoolOp<T>): Pool<T> {
    match op
    case Acquiring(value) => AfterAcquire(p, value)
    case Releasing(pos) => AfterRelease(p, pos)
  }

  function RunPool<T>(p: Pool<T>, ops: seq<PoolOp<T>>): Pool<T>
    decreases ops
  {
    if ops == [] then p else RunPool(Step(p, ops[0]), ops[1..])
  }

  /** The slots handed out by a run, in order. */
  function HandedOut<T>(p: Pool<T>, ops: seq<PoolOp<T>>): seq<nat>
    decreases ops
  {
    if ops == [] then []
    else (if ops[0].Acquiring? && AcquiredSlot(p).Some? then [AcquiredSlot(p).value] else [])
         + HandedOut(Step(p, ops[0]), ops[1..])
  }

  /** The slots taken back by a run, in order. */
  function TakenBack<T>(p: Pool<T>, ops: seq<PoolOp<T>>): seq<nat>
    decreases ops
  {
    if ops == [] then []
    else (if ops[0].Releasing? && 0 <= ops[0].pos < |p.slots| then [ops[0].pos] else [])
         + TakenBack(Step(p, ops[0]), ops[1..])
  }

  /** Callers release live slots only; what lies outside the storage does not matter. */
  ghost predicate LegalOps<T>(p: Pool<T>, ops: seq<PoolOp<T>>)
    decreases ops
  {
    ops != [] ==>
      && (ops[0].Releasing? && 0 <= ops[0].pos < |p.slots| ==> ops[0].pos in Live(p))
      && LegalOps(Step(p, ops[0]), ops[1..])
  }

  /** Over any legal run the queue stays valid, the capacity constant, and slots leave in the order they entered. */
  lemma {:induction false} FifoLaw<T>(p: Pool<T>, ops: seq<PoolOp<T>>)
    requires Consistent(p) && LegalOps(p, ops)
    ensures Consistent(RunPool(p, ops)) && |RunPool(p, ops).slots| == |p.slots|
    ensures HandedOut(p, ops) + RunPool(p, ops).free == p.free + TakenBack(p, ops)
    decreases ops
  {
    if ops != [] {
      var q := Step(p, ops[0]);
      if ops[0].Acquiring? {
        AcquireKeepsConsistent(p, ops[0].value);
      } else {
        ReleaseKeepsConsistentIff(p, ops[0].pos);
      }
      FifoLaw(q, ops[1..]);
      assert HandedOut(q, ops[1..]) + RunPool(q, ops[1..]).free == q.free + TakenBack(q, ops[1..]);
      calc {
        HandedOut(p, ops) + RunPool(p, ops).free;
        (if ops[0].Acquiring? && AcquiredSlot(p).Some? then [AcquiredSlot(p).value] else [])
          + (HandedOut(q, ops[1..]) + RunPool(q, ops[1..]).free);
        p.free + TakenBack(p, ops);
      }
    }
  }

  /** A released slot is handed out only after every slot that was free at its release. */
  lemma ReleasedSlotWaits<T>(p: Pool<T>, pos: nat, ops: seq<PoolOp<T>>)
    requires Consistent(p) && pos in Live(p) && LegalOps(AfterRelease(p, pos), ops)
    ensures var handed := HandedOut(AfterRelease(p, pos), ops);
            && (forall j :: 0 <= j < |handed| && j < |p.free| ==> handed[j] == p.free[j] != pos)
            && (|handed| > |p.free| ==> handed[|p.free|] == pos)
  {
    var q := AfterRelease(p, pos);
    ReleaseKeepsConsistentIff(p, pos);
    FifoLaw(q, ops);
    var handed := HandedOut(q, ops);
    var whole := handed + RunPool(q, ops).free;
    assert whole == q.free + TakenBack(q, ops);
    forall j | 0 <= j < |handed| && j <= |p.free|
      ensures handed[j] == q.free[j]
    {
      assert handed[j] == whole[j];
    }
    forall j | 0 <= j < |p.free|
      ensures p.free[j] != pos
    {
      assert p.free[j] in p.free;
    }
  }

  /** The allocator itself: `objects` is the storage, `availables` the queue. */
  class ObjectPool<T> {
    const objects: array<Option<T>>
    var availables: seq<nat>

    ghost function Model(): Pool<T>
      reads this, objects
    {
      Pool(objects[..], availables)
    }

    constructor (capacity: nat)
      ensures Model() == Fresh(capacity) && fresh(objects)
    {
      objects := new Option<T>[capacity](i => None);
      availables := [];
      new;
      for i := 0 to capacity
        invariant objects[..] == Fresh<T>(capacity).slots
        invariant availables == Fresh<T>(capacity).free[..i]
      {
        availables := availables + [i];
      }
    }

    method Acquire(value: T) returns (pos: Option<nat>)
      requires Consistent(Model())
      modifies this, objects
      ensures pos == AcquiredSlot(old(Model()))
      ensures Model() == AfterAcquire(old(Model()), value)
      ensures Consistent(Model())
    {
      AcquireKeepsConsistent(Model(), value);
      if |availables| == 0 {
        return None;
      }
      var ptr := availables[0];
      assert ptr in Model().free;
      availables := availables[1..];
      objects[ptr] := Some(value);
      pos := Some(ptr);
    }

    method Release(pos: int)
      modifies this, objects
      ensures Model() == AfterRelease(old(Model()), pos)
    {
      if 0 <= pos < objects.Length {
        objects[pos] := None;
        availables := availables + [pos];
      }
    }
  }
}
