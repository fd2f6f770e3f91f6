/** The circular buffer of src/generic_queue.c as a value: one function per assignment the
    C code makes under the write lock, and what a complete put or take means. */
module Ring {
  import opened Portability

  /** A `void *`: the queue never looks behind it. */
  datatype Ptr = Null | Ref(addr: nat)

  const MAX_CAPACITY: SizeT := SIZE_MAX / POINTER_SIZE / 2

  datatype Ring = Ring(buffer: seq<Ptr>, head: SizeT, tail: SizeT, size: SizeT) {
    function Capacity(): nat { |buffer| }
  }

  /** Indices can be dereferenced and lengths are within the cap of `init`. */
  predicate Shaped(r: Ring) {
    && 0 < r.Capacity() <= MAX_CAPACITY
    && r.head < r.Capacity()
    && r.tail < r.Capacity()
    && r.size <= r.Capacity()
  }

  /** The slot `k` places after `base`, going round at the end of the buffer. */
  function Slot(base: nat, k: nat, capacity: nat): (slot: nat)
    requires base < capacity && k <= capacity
    ensures slot < capacity
  {
    if base + k < capacity then base + k else base + k - capacity
  }

  lemma SlotIsModulo(base: nat, k: nat, capacity: nat)
    requires base < capacity && k <= capacity
    ensures Slot(base, k, capacity) == (base + k) % capacity
  {
    if base + k < capacity {
    } else {
      ModuloOnce(base + k - capacity, capacity);
    }
  }

  lemma ModuloOnce(r: nat, capacity: nat)
    requires r < capacity
    ensures (capacity + r) % capacity == r
  {
    assert (capacity + r) / capacity == 1;
  }

  function SlotOf(r: Ring, i: nat): nat
    requires Shaped(r) && i < r.size
  {
    Slot(r.head, i, r.Capacity())
  }

  /** The live items, oldest first. */
  function Contents(r: Ring): (items: seq<Ptr>)
    requires Shaped(r)
    ensures |items| == r.size
  {
    seq(r.size, i requires 0 <= i < r.size => r.buffer[SlotOf(r, i)])
  }

  predicate ValidRing(r: Ring) {
    && Shaped(r)
    && r.tail == Slot(r.head, r.size, r.Capacity())
    && Null !in Contents(r)
  }

  function Empty(capacity: nat): (r: Ring)
    requires 0 < capacity <= MAX_CAPACITY
  {
    Ring(seq(capacity, i => Null), 0, 0, 0)
  }

  predicate IsFull(r: Ring) { r.size == r.Capacity() }

  predicate IsEmpty(r: Ring) { r.size == 0 }

  // The assignments of add (:290-292) and pop (:348-350), in size_t arithmetic.

  function StoreSlot(r: Ring, item: Ptr): Ring
    requires Shaped(r)
  {
    r.(buffer := r.buffer[r.tail := item])
  }

  function AdvanceTail(r: Ring): Ring
    requires Shaped(r)
  {
    r.(tail := Reduce(r.tail + 1) % r.Capacity())
  }

  function GrowSize(r: Ring): Ring {
    r.(size := Reduce(r.size + 1))
  }

  function LoadSlot(r: Ring): Ptr
    requires Shaped(r)
  {
    r.buffer[r.head]
  }

  function AdvanceHead(r: Ring): Ring
    requires Shaped(r)
  {
    r.(head := Reduce(r.head + 1) % r.Capacity())
  }

  function ShrinkSize(r: Ring): Ring {
    r.(size := Reduce(r.size - 1))
  }

  function PutRing(r: Ring, item: Ptr): Ring
    requires Shaped(r)
  {
    GrowSize(AdvanceTail(StoreSlot(r, item)))
  }

  function TakeRing(r: Ring): Ring
    requires Shaped(r)
  {
    ShrinkSize(AdvanceHead(r))
  }

  /** The cap of 2^60 - 1 slots: twice as many pointers would not fit size_t in bytes. */
  lemma CapIsHalf()
    ensures MAX_CAPACITY == 0x0FFF_FFFF_FFFF_FFFF
    ensures 2 * MAX_CAPACITY * POINTER_SIZE <= SIZE_MAX < 2 * (MAX_CAPACITY + 1) * POINTER_SIZE
  {
  }

  /** Under the capacity cap no index or size computation wraps at 2^64. */
  lemma NoWrap(r: Ring)
    requires Shaped(r)
    ensures Reduce(r.head + 1) == r.head + 1
    ensures Reduce(r.tail + 1) == r.tail + 1
    ensures Reduce(r.size + 1) == r.size + 1
    ensures r.size > 0 ==> Reduce(r.size - 1) == r.size - 1
  {
    ReduceSmall(r.head + 1);
    ReduceSmall(r.tail + 1);
    ReduceSmall(r.size + 1);
    if r.size > 0 {
      ReduceSmall(r.size - 1);
    }
  }

  lemma ReduceSmall(n: nat)
    requires n <= SIZE_MAX
    ensures Reduce(n) == n
  {
  }

  lemma EmptyIsValid(capacity: nat)
    requires 0 < capacity <= MAX_CAPACITY
    ensures ValidRing(Empty(capacity))
    ensures Contents(Empty(capacity)) == []
  {
    assert 0 % capacity == 0;
  }

  lemma AdvanceIsSlot(base: nat, capacity: nat)
    requires base < capacity <= MAX_CAPACITY
    ensures Reduce(base + 1) % capacity == Slot(base, 1, capacity)
  {
    SlotIsModulo(base, 1, capacity);
  }

  /** A put on a ring with room appends the item, whatever the position of head. */
  lemma PutAppends(r: Ring, item: Ptr)
    requires ValidRing(r) && !IsFull(r) && item != Null
    ensures ValidRing(PutRing(r, item))
    ensures Contents(PutRing(r, item)) == Contents(r) + [item]
    ensures PutRing(r, item).Capacity() == r.Capacity()
  {
    AdvanceIsSlot(r.tail, r.Capacity());
    NoWrap(r);
    PutAt(r, PutRing(r, item), item);
  }

  lemma PutAt(r: Ring, r': Ring, item: Ptr)
    requires ValidRing(r) && !IsFull(r) && item != Null
    requires r' == Ring(r.buffer[r.tail := item], r.head, Slot(r.tail, 1, r.Capacity()), r.size + 1)
    ensures ValidRing(r') && Contents(r') == Contents(r) + [item]
  {
    forall i | 0 <= i < r.size
      ensures Contents(r')[i] == Contents(r)[i]
    {
      assert SlotOf(r, i) != r.tail;
    }
    assert Contents(r') == Contents(r) + [item];
  }

  /** A take removes exactly the oldest item, the one at head. */
  lemma TakeRemovesOldest(r: Ring)
    requires ValidRing(r) && !IsEmpty(r)
    ensures ValidRing(TakeRing(r))
    ensures Contents(r) == [LoadSlot(r)] + Contents(TakeRing(r))
    ensures LoadSlot(r) != Null
    ensures TakeRing(r).Capacity() == r.Capacity()
  {
    AdvanceIsSlot(r.head, r.Capacity());
    NoWrap(r);
    TakeAt(r, TakeRing(r));
  }

  lemma TakeAt(r: Ring, r': Ring)
    requires ValidRing(r) && !IsEmpty(r)
    requires r' == Ring(r.buffer, Slot(r.head, 1, r.Capacity()), r.tail, r.size - 1)
    ensures ValidRing(r') && Contents(r) == [LoadSlot(r)] + Contents(r')
    ensures LoadSlot(r) != Null
  {
    assert Contents(r)[0] == LoadSlot(r);
    assert Contents(r) == [LoadSlot(r)] + Contents(r');
  }

  /** The invariant in the source's terms: tail is (head + size) % capacity. */
  lemma TailIsModulo(r: Ring)
    requires Shaped(r)
    ensures ValidRing(r) <==> r.tail == (r.head + r.size) % r.Capacity() && Null !in Contents(r)
  {
    SlotIsModulo(r.head, r.size, r.Capacity());
  }
}
