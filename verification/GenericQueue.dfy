/** sc_generic_queue_t as the C code has it: an array updated in place, built from and
    returned to the allocator and the pthread library. The calls here run alone; what
    interleaved calls do is in QueueModel. */
module GenericQueue {
  import opened Portability
  import opened Ring
  import opened QueueModel
  import opened Resources

  /** What one queue acquires, in the order of sc_generic_queue_init. */
  datatype Kind = Struct | Buffer | RwLock | CondMutex | CondNotEmpty | CondNotFull

  datatype Resource = Resource(kind: Kind, queue: nat)

  function Owned(queue: nat): set<Resource> {
    {Resource(Struct, queue), Resource(Buffer, queue), Resource(RwLock, queue),
     Resource(CondMutex, queue), Resource(CondNotEmpty, queue), Resource(CondNotFull, queue)}
  }

  /** That is one of everything. */
  lemma OwnedIsAll(r: Resource, queue: nat)
    ensures r in Owned(queue) <==> r.queue == queue
  {
    if r.queue == queue {
      match r.kind
      case Struct =>
      case Buffer =>
      case RwLock =>
      case CondMutex =>
      case CondNotEmpty =>
      case CondNotFull =>
    }
  }

  /** A thread's own queue_errno. */
  class Caller {
    var errno: Ret

    constructor ()
      ensures errno == Success
    {
      errno := Success;
    }
  }

  /** The caller's `void *` variable that a pop stores into. */
  class OutVar {
    var value: Ptr

    constructor (value: Ptr)
      ensures this.value == value
    {
      this.value := value;
    }
  }

  /** The callback of nuke_with_cleanup, remembering what it was given. */
  class Cleanup {
    var seen: seq<Ptr>

    constructor ()
      ensures seen == []
    {
      seen := [];
    }

    method Call(item: Ptr)
      modifies this
      ensures seen == old(seen) + [item]
    {
      seen := seen + [item];
    }
  }

  class Queue {
    const id: nat
    var buffer: array?<Ptr>
    var capacity: SizeT
    var size: SizeT
    var head: SizeT
    var tail: SizeT
    var signals: Tally   // sent to cond_not_full (producer) and cond_not_empty (consumer)

    /** calloc: every field zero. */
    constructor (id: nat)
      ensures this.id == id && buffer == null && capacity == size == head == tail == 0
    {
      this.id := id;
      buffer, capacity, size, head, tail, signals := null, 0, 0, 0, 0, Tally(0, 0);
    }

    function Snapshot(): Ring
      requires buffer != null
      reads this, buffer
    {
      Ring(buffer[..], head, tail, size)
    }

    predicate Valid()
      reads this, buffer
    {
      buffer != null && buffer.Length == capacity && ValidRing(Snapshot())
    }

    function Items(): seq<Ptr>
      requires Valid()
      reads this, buffer
    {
      Contents(Snapshot())
    }

    /** NULL exactly when the capacity is refused or some acquisition fails; then everything
        acquired on the way has been released. */
    static method Init(capacity: SizeT, fails: set<Kind>, id: nat, ledger: Ledger<Resource>, caller: Caller)
      returns (q: Queue?)
      requires forall r :: r in ledger.live ==> r.queue != id
      modifies ledger, caller
      ensures q == null <==> capacity == 0 || capacity > 0x0FFF_FFFF_FFFF_FFFF || fails != {}
      ensures q == null ==> ledger.live == old(ledger.live)
      ensures caller.errno == if capacity == 0 then ErrInvalid
                              else if capacity > MAX_CAPACITY then ErrOverflow
                              else if Struct in fails || Buffer in fails then ErrMemory
                              else if fails != {} then ErrThread
                              else Success
      ensures q != null ==>
                && fresh(q) && q.Valid() && fresh(q.buffer) && q.id == id
                && q.capacity == capacity && q.Items() == []
                && ledger.live == old(ledger.live) + Owned(id)
                && (forall r :: r in ledger.live <==> r in old(ledger.live) || r.queue == id)
    {
      caller.errno := Success;
      q := null;
      if capacity == 0 || capacity > MAX_CAPACITY {
        caller.errno := if capacity == 0 then ErrInvalid else ErrOverflow;
        return;
      }
      if MulOverflow(capacity, POINTER_SIZE).None? {
        assert false;
      }
      var ret := AcquireAll(fails, id, ledger);
      if ret != Success {
        caller.errno := ret;
        return;
      }
      AllKinds(fails);
      q := Zeroed(id, capacity);
      forall r ensures r in ledger.live <==> r in old(ledger.live) || r.queue == id {
        OwnedIsAll(r, id);
      }
    }

    /** Memory, then the pthread objects; each failure releases what came before. */
    static method AcquireAll(fails: set<Kind>, id: nat, ledger: Ledger<Resource>) returns (ret: Ret)
      requires forall r :: r in ledger.live ==> r.queue != id
      modifies ledger
      ensures ret == if Struct in fails || Buffer in fails then ErrMemory
                     else if RwLock in fails || CondMutex in fails || CondNotEmpty in fails || CondNotFull in fails
                     then ErrThread
                     else Success
      ensures ledger.live == if ret == Success then old(ledger.live) + Owned(id) else old(ledger.live)
    {
      var ok := ledger.TryAcquire(Resource(Struct, id), Struct in fails);
      if !ok {
        return ErrMemory;
      }
      ok := ledger.TryAcquire(Resource(Buffer, id), Buffer in fails);
      if !ok {
        ledger.Release(Resource(Struct, id));
        return ErrMemory;
      }
      ok := ledger.TryAcquire(Resource(RwLock, id), RwLock in fails);
      if !ok {
        ledger.Release(Resource(Buffer, id));
        ledger.Release(Resource(Struct, id));
        return ErrThread;
      }
      ok := ledger.TryAcquire(Resource(CondMutex, id), CondMutex in fails);
      if !ok {
        ledger.Release(Resource(RwLock, id));
        ledger.Release(Resource(Buffer, id));
        ledger.Release(Resource(Struct, id));
        return ErrThread;
      }
      ok := ledger.TryAcquire(Resource(CondNotEmpty, id), CondNotEmpty in fails);
      if !ok {
        ledger.Release(Resource(CondMutex, id));
        ledger.Release(Resource(RwLock, id));
        ledger.Release(Resource(Buffer, id));
        ledger.Release(Resource(Struct, id));
        return ErrThread;
      }
      ok := ledger.TryAcquire(Resource(CondNotFull, id), CondNotFull in fails);
      if !ok {
        ledger.Release(Resource(CondNotEmpty, id));
        ledger.Release(Resource(CondMutex, id));
        ledger.Release(Resource(RwLock, id));
        ledger.Release(Resource(Buffer, id));
        ledger.Release(Resource(Struct, id));
        return ErrThread;
      }
      ret := Success;
    }

    /** A kind is one of the six that init tries. */
    static lemma AllKinds(fails: set<Kind>)
      requires Struct !in fails && Buffer !in fails && RwLock !in fails
      requires CondMutex !in fails && CondNotEmpty !in fails && CondNotFull !in fails
      ensures fails == {}
    {
      if k :| k in fails {
        match k
        case Struct => assert false;
        case Buffer => assert false;
        case RwLock => assert false;
        case CondMutex => assert false;
        case CondNotEmpty => assert false;
        case CondNotFull => assert false;
      }
    }

    static method Zeroed(id: nat, capacity: SizeT) returns (q: Queue)
      requires 0 < capacity <= MAX_CAPACITY
      ensures fresh(q) && q.id == id && q.Valid() && fresh(q.buffer) && q.capacity == capacity
      ensures q.Items() == []
    {
      q := new Queue(id);
      q.buffer := new Ptr[capacity](i => Null);
      q.capacity := capacity;
      assert q.buffer[..] == seq(capacity, i => Null);
      EmptyIsValid(capacity);
      assert q.Snapshot() == Empty(capacity);
    }

    /** The three assignments of add. */
    method Put(item: Ptr)
      requires Valid() && !IsFull(Snapshot()) && item != Null
      modifies this`tail, this`size, buffer
      ensures buffer == old(buffer) && Valid()
      ensures Snapshot() == PutRing(old(Snapshot()), item)
      ensures Items() == old(Items()) + [item]
    {
      PutAppends(Snapshot(), item);
      buffer[tail] := item;
      tail := Reduce(tail + 1) % capacity;
      size := Reduce(size + 1);
      assert buffer[..] == old(buffer[..])[old(tail) := item];
    }

    /** The three assignments of pop. */
    method Take() returns (item: Ptr)
      requires Valid() && !IsEmpty(Snapshot())
      modifies this`head, this`size
      ensures Valid()
      ensures Snapshot() == TakeRing(old(Snapshot()))
      ensures old(Items()) == [item] + Items()
      ensures item != Null
    {
      TakeRemovesOldest(Snapshot());
      item := buffer[head];
      head := Reduce(head + 1) % capacity;
      size := Reduce(size - 1);
    }

    /** What a call may change: the queue it is given. */
    static ghost function Footprint(q: Queue?): set<object>
      reads q
    {
      if q == null then {} else if q.buffer == null then {q} else {q, q.buffer}
    }

    static method TryAdd(q: Queue?, item: Ptr, caller: Caller) returns (ret: Ret)
      requires q != null ==> q.Valid()
      modifies caller, Footprint(q)
      ensures caller.errno == ret
      ensures ret == if q == null || item == Null then ErrNull
                     else if |old(q.Items())| == q.capacity then ErrFull
                     else Success
      ensures q != null ==>
                && q.Valid() && q.buffer == old(q.buffer) && q.capacity == old(q.capacity)
                && q.Items() == (if ret == Success then old(q.Items()) + [item] else old(q.Items()))
                && q.signals == if ret == Success then old(q.signals).Bump(Consumer) else old(q.signals)
    {
      caller.errno := Success;
      if q == null || item == Null {
        caller.errno := ErrNull;
        return ErrNull;
      }
      if q.size == q.capacity {
        caller.errno := ErrFull;
        return ErrFull;
      }
      q.Put(item);
      q.SendSignal(Consumer);
      ret := Success;
    }

    static method TryPop(q: Queue?, dest: OutVar?, caller: Caller) returns (ret: Ret)
      requires q != null ==> q.Valid()
      modifies caller, dest, Footprint(q)
      ensures caller.errno == ret
      ensures ret == if q == null || dest == null then ErrNull
                     else if old(q.Items()) == [] then ErrEmpty
                     else Success
      ensures q != null ==>
                && q.Valid() && q.buffer == old(q.buffer) && q.capacity == old(q.capacity)
                && (ret == Success ==> dest.value != Null && old(q.Items()) == [dest.value] + q.Items())
                && (ret != Success ==> q.Items() == old(q.Items()))
                && q.signals == if ret == Success then old(q.signals).Bump(Producer) else old(q.signals)
      ensures dest != null && ret != Success ==> dest.value == if ret == ErrNull then old(dest.value) else Null
    {
      caller.errno := Success;
      if q == null || dest == null {
        caller.errno := ErrNull;
        return ErrNull;
      }
      dest.value := Null;
      if q.size == 0 {
        caller.errno := ErrEmpty;
        return ErrEmpty;
      }
      dest.value := q.Take();
      q.SendSignal(Producer);
      ret := Success;
    }

    method SendSignal(side: Side)
      requires Valid()
      modifies this`signals
      ensures Valid() && Items() == old(Items())
      ensures signals == old(signals).Bump(side)
    {
      signals := signals.Bump(side);
    }

    static method AnswerEmpty(q: Queue?, caller: Caller) returns (isEmpty: bool)
      requires q != null ==> q.Valid()
      modifies caller
      ensures caller.errno == if q == null then ErrNull else Success
      ensures isEmpty <==> q != null && q.Items() == []
    {
      caller.errno := Success;
      if q == null {
        caller.errno := ErrNull;
        return false;
      }
      isEmpty := q.size == 0;
    }

    static method AnswerFull(q: Queue?, caller: Caller) returns (isFull: bool)
      requires q != null ==> q.Valid()
      modifies caller
      ensures caller.errno == if q == null then ErrNull else Success
      ensures isFull <==> q != null && |q.Items()| == q.capacity
    {
      caller.errno := Success;
      if q == null {
        caller.errno := ErrNull;
        return false;
      }
      isFull := q.size == q.capacity;
    }

    static method AnswerSize(q: Queue?, caller: Caller) returns (count: SizeT)
      requires q != null ==> q.Valid()
      modifies caller
      ensures caller.errno == if q == null then ErrNull else Success
      ensures count == if q == null then 0 else |q.Items()|
    {
      caller.errno := Success;
      if q == null {
        caller.errno := ErrNull;
        return 0;
      }
      count := q.size;
    }

    /** Destroys the queue and leaves the items alone. A busy rwlock is reported, and stays. */
    static method Nuke(q: Queue?, rwlockBusy: bool, ledger: Ledger<Resource>, caller: Caller) returns (ret: Ret)
      requires q != null ==> Owned(q.id) <= ledger.live
      modifies ledger, caller
      ensures caller.errno == ret
      ensures ret == if q == null then ErrNull else if rwlockBusy then ErrThread else Success
      ensures q == null ==> ledger.live == old(ledger.live)
      ensures q != null ==>
                ledger.live == old(ledger.live) - Owned(q.id) + if rwlockBusy then {Resource(RwLock, q.id)} else {}
    {
      caller.errno := Success;
      if q == null {
        caller.errno := ErrNull;
        return ErrNull;
      }
      if rwlockBusy {
        caller.errno := ErrThread;
      } else {
        ledger.Release(Resource(RwLock, q.id));
      }
      ledger.Release(Resource(CondMutex, q.id));
      ledger.Release(Resource(Buffer, q.id));
      ledger.Release(Resource(CondNotEmpty, q.id));
      ledger.Release(Resource(CondNotFull, q.id));
      ledger.Release(Resource(Struct, q.id));
      ret := caller.errno;
    }

    /** The drain loop: the callback gets every remaining item, once each and oldest first,
        wherever head stands. */
    method Drain(cleanup: Cleanup?)
      requires Valid()
      modifies this`head, this`size, cleanup
      ensures Valid() && size == 0
      ensures cleanup != null ==> cleanup.seen == old(cleanup.seen) + old(Items())
    {
      ghost var all := Items();
      ghost var k := 0;
      while size > 0
        invariant Valid() && k + |Items()| == |all| && Items() == all[k..]
        invariant cleanup != null ==> cleanup.seen == old(cleanup.seen) + all[..k]
        decreases size
      {
        ghost var before := Items();
        var item := Take();
        assert before == [item] + Items();
        assert item == before[0] == all[k];
        assert Items() == before[1..];
        k := k + 1;
        if cleanup != null {
          cleanup.Call(item);
          assert all[..k] == all[..k - 1] + [item];
        }
      }
      assert all[..k] == all;
    }

    /** Drains the queue to the callback and destroys it. A NULL queue is reported in queue_errno,
        which is otherwise left as it was. */
    static method NukeWithCleanup(q: Queue?, cleanup: Cleanup?, rwlockBusy: bool, ledger: Ledger<Resource>,
                                  caller: Caller)
      requires q != null ==> q.Valid() && Owned(q.id) <= ledger.live
      modifies Footprint(q), ledger, cleanup, caller
      ensures caller.errno == if q == null then ErrNull else old(caller.errno)
      ensures q == null ==> ledger.live == old(ledger.live)
      ensures q == null && cleanup != null ==> cleanup.seen == old(cleanup.seen)
      ensures q != null ==>
                && q.size == 0
                && (cleanup != null ==> cleanup.seen == old(cleanup.seen) + old(q.Items()))
                && ledger.live
                   == old(ledger.live) - Owned(q.id) + if rwlockBusy then {Resource(RwLock, q.id)} else {}
    {
      if q == null {
        caller.errno := ErrNull;
        return;
      }
      q.Drain(cleanup);
      ledger.Release(Resource(Buffer, q.id));
      ledger.ReleaseIf(!rwlockBusy, Resource(RwLock, q.id));
      ledger.Release(Resource(CondMutex, q.id));
      ledger.Release(Resource(CondNotEmpty, q.id));
      ledger.Release(Resource(CondNotFull, q.id));
      ledger.Release(Resource(Struct, q.id));
    }
  }
}
