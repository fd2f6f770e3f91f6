/** Runs that exist: a call that meets no contention succeeds, a signal wakes a waiting call, and
    an add (or pop) can time out although the queue has had room (or an item) since before it
    began to wait. */
module QueueWitness {
  import opened Portability
  import opened Ring
  import opened QueueModel
  import opened QueueInvariant
  import opened QueueTheorems

  /** Nobody holds a lock. */
  ghost predicate Free(s: State) {
    Core(s) && s.writer.None? && s.readers == {} && s.mutex.None?
  }

  predicate OthersSame(s: State, s': State, t: nat) {
    |s'.threads| == |s.threads| && forall u :: 0 <= u < |s.threads| && u != t ==> s'.threads[u] == s.threads[u]
  }

  /** One step of thread t, to a state that is known in full. */
  lemma RunOnce(s: State, t: nat, s': State)
    requires Core(s) && t < |s.threads| && Shaped(s.ring) && CanRun(s, t) && s' == RunStep(s, t)
    ensures RunTo(s, [Run(t)], s') && Core(s')
  {
    CoreKept(s, Run(t));
    OneStep(s, Run(t));
  }

  /** No wait ends by itself: no expiry, no spurious wakeup, no error. */
  predicate Unprompted(ls: seq<Label>) { forall l :: l in ls ==> !l.Wakeup? && !l.RefuseWait? }

  /** Take the write lock and look at the size. */
  lemma LockAndTest(s: State, t: nat) returns (ls: seq<Label>, s': State)
    requires Free(s) && t < |s.threads| && s.threads[t].pc.WantWrite?
    ensures RunTo(s, ls, s') && Unprompted(ls) && Core(s') && OthersSame(s, s', t)
    ensures s'.threads[t] == s.threads[t].(pc := s'.threads[t].pc) && s'.ring == s.ring == s'.stable && s'.mutex.None?
    ensures var op := s.threads[t].op;
            s'.threads[t].pc ==
            if !MustWait(s.ring, op) then Store else if op.Blocks() then UnlockToWait else UnlockToFail
  {
    StableShaped(s);
    var s1 := Go(s.(writer := Some(t)), t, Test);
    RunOnce(s, t, s1);
    s' := TestSize(s1, t);
    RunOnce(s1, t, s');
    RunConcat(s, [Run(t)], s1, [Run(t)], s');
    ls := [Run(t)] + [Run(t)];
  }

  /** Begin, take the write lock and look at the size. */
  lemma EnterCall(s: State, t: nat, op: Op) returns (ls: seq<Label>, s': State)
    requires Free(s) && t < |s.threads| && Resting(s.threads[t].pc) && !op.Asks() && !op.BadArgs()
    ensures RunTo(s, ls, s') && Unprompted(ls) && Core(s') && OthersSame(s, s', t)
    ensures s'.threads[t].op == op && s'.ring == s.ring == s'.stable && s'.mutex.None?
    ensures s'.threads[t].pc == if !MustWait(s.ring, op) then Store else if op.Blocks() then UnlockToWait else UnlockToFail
  {
    StableShaped(s);
    var l := Invoke(t, op, false);
    var s1 := Begin(s, t, op, false);
    CoreKept(s, l);
    OneStep(s, l);
    var more;
    more, s' := LockAndTest(s1, t);
    RunConcat(s, [l], s1, more, s');
    ls := [l] + more;
  }

  lemma SlotOnce(s: State, t: nat) returns (s': State)
    requires Core(s) && t < |s.threads| && s.threads[t].pc.Store?
    ensures RunTo(s, [Run(t)], s') && Core(s') && OthersSame(s, s', t) && s'.stable == s.stable
    ensures s'.threads[t].op == s.threads[t].op && s'.threads[t].pc == Advance && s'.mutex == s.mutex
  {
    StableShaped(s);
    s' := TouchSlot(s, t);
    RunOnce(s, t, s');
  }

  lemma IndexOnce(s: State, t: nat) returns (s': State)
    requires Core(s) && t < |s.threads| && s.threads[t].pc.Advance?
    ensures RunTo(s, [Run(t)], s') && Core(s') && OthersSame(s, s', t) && s'.stable == s.stable
    ensures s'.threads[t].op == s.threads[t].op && s'.threads[t].pc == Resize && s'.mutex == s.mutex
  {
    StableShaped(s);
    s' := MoveIndex(s, t);
    RunOnce(s, t, s');
  }

  lemma SizeOnce(s: State, t: nat) returns (s': State)
    requires Core(s) && t < |s.threads| && s.threads[t].pc.Resize?
    ensures RunTo(s, [Run(t)], s') && Core(s') && OthersSame(s, s', t)
    ensures s'.threads[t].op == s.threads[t].op && s'.threads[t].pc == UnlockToSignal && s'.mutex == s.mutex
    ensures Took(s, s', t)
  {
    StableShaped(s);
    s' := ChangeSize(s, t);
    CommitMeaning(s, t);
    RunOnce(s, t, s');
  }

  /** Thread t has put its item at the end of the queue, or taken the oldest. */
  ghost predicate Took(s: State, s': State, t: nat) {
    && Shaped(s.stable) && Shaped(s'.stable) && s'.ring == s'.stable
    && s'.stable.Capacity() == s.stable.Capacity()
    && t < |s'.threads|
    && var th := s'.threads[t];
       if th.op.Adds() then Contents(s'.stable) == Contents(s.stable) + [th.op.item]
       else Contents(s.stable) == [th.out] + Contents(s'.stable)
  }

  /** The three assignments under the write lock. */
  lemma UpdateRing(s: State, t: nat) returns (ls: seq<Label>, s': State)
    requires Core(s) && t < |s.threads| && s.threads[t].pc.Store? && s.mutex.None?
    ensures RunTo(s, ls, s') && Unprompted(ls) && Core(s') && OthersSame(s, s', t)
    ensures s'.threads[t].op == s.threads[t].op && s'.threads[t].pc == UnlockToSignal && s'.mutex.None?
    ensures Took(s, s', t)
  {
    var l := Run(t);
    var s1 := SlotOnce(s, t);
    var s2 := IndexOnce(s1, t);
    s' := SizeOnce(s2, t);
    RunConcat(s, [l], s1, [l], s2);
    RunConcat(s, [l] + [l], s2, [l], s');
    ls := [l] + [l] + [l];
  }

  /** Unlock, and take cond_mutex. */
  lemma ReachSignal(s: State, t: nat) returns (ls: seq<Label>, s': State)
    requires Core(s) && t < |s.threads| && s.threads[t].pc == UnlockToSignal && s.mutex.None?
    ensures RunTo(s, ls, s') && Unprompted(ls) && Core(s')
    ensures s'.writer.None? && s'.readers == {} && s'.mutex == Some(t)
    ensures s'.threads == s.threads[t := s.threads[t].(pc := Signal)] && s'.ring == s.ring
  {
    assert LockedBy(s, t);
    StableShaped(s);
    var s1 := Go(s.(writer := None), t, WantSignal);
    RunOnce(s, t, s1);
    s' := Go(s1.(mutex := Some(t)), t, Signal);
    RunOnce(s1, t, s');
    RunConcat(s, [Run(t)], s1, [Run(t)], s');
    ls := [Run(t)] + [Run(t)];
  }

  /** Signal whoever listens, if anybody does, and return. */
  lemma SignalAndReturn(s: State, t: nat, woken: Option<nat>) returns (ls: seq<Label>, s': State)
    requires Core(s) && s.writer.None? && s.readers == {} && s.mutex == Some(t)
    requires Enabled(s, Notify(t, woken))
    ensures RunTo(s, ls, s') && Unprompted(ls) && Free(s') && s'.ring == s.ring && |s'.threads| == |s.threads|
    ensures s'.threads[t] == s.threads[t].(pc := Returned(Code(Success)))
    ensures woken.Some? ==> s'.threads[woken.value] == s.threads[woken.value].(pc := Rewake(Zero))
    ensures forall u :: 0 <= u < |s.threads| && u != t && woken != Some(u) ==> s'.threads[u] == s.threads[u]
  {
    var n := Notify(t, woken);
    StableShaped(s);
    var s1 := NotifyStep(s, t, woken);
    CoreKept(s, n);
    OneStep(s, n);
    s' := Go(s1.(mutex := None), t, Returned(Code(Success)));
    RunOnce(s1, t, s');
    RunConcat(s, [n], s1, [Run(t)], s');
    ls := [n] + [Run(t)];
  }

  /** With the locks free and room (or an item) in the ring, a call runs to success without a step
      by any other thread: it puts its item last, or takes the first. */
  lemma UncontendedCall(s: State, t: nat, op: Op, woken: Option<nat>) returns (ls: seq<Label>, s': State)
    requires Free(s) && t < |s.threads| && Resting(s.threads[t].pc) && !op.Asks() && !op.BadArgs()
    requires !MustWait(s.ring, op)
    requires match woken
             case None => forall w :: 0 <= w < |s.threads| ==> !IsWaiter(s.threads[w], SignalSide(op))
             case Some(w) => w < |s.threads| && IsWaiter(s.threads[w], SignalSide(op))
    ensures RunTo(s, ls, s') && Unprompted(ls) && Free(s') && |s'.threads| == |s.threads|
    ensures s'.threads[t].pc == Returned(Code(Success)) && s'.threads[t].op == op && Took(s, s', t)
    ensures woken.Some? ==> s'.threads[woken.value] == s.threads[woken.value].(pc := Rewake(Zero))
    ensures forall u :: 0 <= u < |s.threads| && u != t && woken != Some(u) ==> s'.threads[u] == s.threads[u]
  {
    var ls1, s1 := EnterCall(s, t, op);
    var ls2, s2 := FinishCall(s1, t, woken);
    RunConcat(s, ls1, s1, ls2, s2);
    ls, s' := ls1 + ls2, s2;
  }

  /** From the first assignment to the return. */
  lemma FinishCall(s: State, t: nat, woken: Option<nat>) returns (ls: seq<Label>, s': State)
    requires Core(s) && t < |s.threads| && s.threads[t].pc.Store? && s.mutex.None?
    requires match woken
             case None => forall w :: 0 <= w < |s.threads| ==> !IsWaiter(s.threads[w], SignalSide(s.threads[t].op))
             case Some(w) => w < |s.threads| && IsWaiter(s.threads[w], SignalSide(s.threads[t].op))
    ensures RunTo(s, ls, s') && Unprompted(ls) && Free(s') && |s'.threads| == |s.threads|
    ensures s'.threads[t].pc == Returned(Code(Success)) && s'.threads[t].op == s.threads[t].op && Took(s, s', t)
    ensures woken.Some? ==> s'.threads[woken.value] == s.threads[woken.value].(pc := Rewake(Zero))
    ensures forall u :: 0 <= u < |s.threads| && u != t && woken != Some(u) ==> s'.threads[u] == s.threads[u]
  {
    var ls1, s1 := UpdateRing(s, t);
    var ls2, s2 := ReachSignal(s1, t);
    StableShaped(s2);
    var ls3, s3 := SignalAndReturn(s2, t, woken);
    RunConcat(s, ls1, s1, ls2, s2);
    RunConcat(s, ls1 + ls2, s2, ls3, s3);
    ls, s' := ls1 + ls2 + ls3, s3;
  }

  /** Finding the queue full (or empty), an add (or pop) drops the write lock: its wait has
      not begun. */
  lemma CallDropsLock(s: State, t: nat, op: Op) returns (ls: seq<Label>, s': State)
    requires Free(s) && t < |s.threads| && Resting(s.threads[t].pc)
    requires op.Blocks() && !op.BadArgs() && MustWait(s.ring, op)
    ensures RunTo(s, ls, s') && Unprompted(ls) && Free(s') && OthersSame(s, s', t) && s'.ring == s.ring
    ensures s'.threads[t].pc == WantWait && s'.threads[t].op == op
  {
    var ls1, s1 := EnterCall(s, t, op);
    assert LockedBy(s1, t);
    StableShaped(s1);
    s' := LockStep(s1, t);
    RunOnce(s1, t, s');
    RunConcat(s, ls1, s1, [Run(t)], s');
    ls := ls1 + [Run(t)];
  }

  /** The wait begins. */
  lemma BeginWait(s: State, t: nat) returns (ls: seq<Label>, s': State)
    requires Free(s) && t < |s.threads| && s.threads[t].pc == WantWait
    ensures RunTo(s, ls, s') && Unprompted(ls) && Free(s') && OthersSame(s, s', t)
    ensures s'.threads[t] == s.threads[t].(pc := Waiting) && s'.ring == s.ring
  {
    StableShaped(s);
    var l := Run(t);
    var s1 := Go(s.(mutex := Some(t)), t, EnterWait);
    RunOnce(s, t, s1);
    s' := Go(s1.(mutex := None), t, Waiting);
    RunOnce(s1, t, s');
    RunConcat(s, [l], s1, [l], s');
    ls := [l] + [l];
  }

  /** The wait begins and expires unsignalled. */
  lemma WaitRunsOut(s: State, t: nat) returns (ls: seq<Label>, s': State)
    requires Free(s) && t < |s.threads| && s.threads[t].pc == WantWait
    ensures RunTo(s, ls, s') && Free(s') && OthersSame(s, s', t)
    ensures s'.threads[t] == s.threads[t].(pc := Rewake(TimedOut)) && s'.ring == s.ring
  {
    var ls1, s1 := BeginWait(s, t);
    StableShaped(s1);
    var e := Wakeup(t, TimedOut);
    s' := Go(s1, t, Rewake(TimedOut));
    CoreKept(s1, e);
    OneStep(s1, e);
    RunConcat(s, ls1, s1, [e], s');
    ls := ls1 + [e];
  }

  /** Take cond_mutex back, release it, and report the timeout. */
  lemma GiveUp(s: State, t: nat) returns (ls: seq<Label>, s': State)
    requires Free(s) && t < |s.threads| && s.threads[t].pc == Rewake(TimedOut)
    ensures RunTo(s, ls, s') && Free(s') && OthersSame(s, s', t)
    ensures s'.threads[t].pc == Returned(Code(ErrTimeout))
    ensures s'.threads[t].op == s.threads[t].op && s'.ring == s.ring
  {
    StableShaped(s);
    var l := Run(t);
    var s1 := Go(s.(mutex := Some(t)), t, WaitUnlock(TimedOut));
    RunOnce(s, t, s1);
    var s2 := Go(s1.(mutex := None), t, Decide(TimedOut));
    RunOnce(s1, t, s2);
    s' := Fail(s2, t, ErrTimeout);
    RunOnce(s2, t, s');
    RunConcat(s, [l], s1, [l], s2);
    RunConcat(s, [l] + [l], s2, [l], s');
    ls := [l] + [l] + [l];
  }

  lemma WaitExpires(s: State, t: nat) returns (ls: seq<Label>, s': State)
    requires Free(s) && t < |s.threads| && s.threads[t].pc == WantWait
    ensures RunTo(s, ls, s') && Free(s') && OthersSame(s, s', t)
    ensures s'.threads[t].pc == Returned(Code(ErrTimeout))
    ensures s'.threads[t].op == s.threads[t].op && s'.ring == s.ring
  {
    var ls1, s1 := WaitRunsOut(s, t);
    var ls2, s2 := GiveUp(s1, t);
    RunConcat(s, ls1, s1, ls2, s2);
    ls, s' := ls1 + ls2, s2;
  }

  /** A missed wakeup, for every capacity: at the limit a call that must wait and a call that
      would let it go on can interleave so that the first returns TIMEOUT although the limit
      was gone when its wait began. */
  lemma TimesOutUnblocked(s: State, op: Op, relief: Op) returns (ls: seq<Label>, s': State)
    requires Free(s) && |s.threads| == 2 && Resting(s.threads[0].pc) && Resting(s.threads[1].pc)
    requires op.Blocks() && !op.BadArgs() && MustWait(s.ring, op)
    requires !relief.Asks() && !relief.BadArgs() && SignalSide(relief) == WaitSide(op)
    ensures RunTo(s, ls, s') && |s'.threads| == 2
    ensures s'.threads[0].op == op && s'.threads[0].pc == Returned(Code(ErrTimeout))
    ensures s'.threads[1].op == relief && s'.threads[1].pc == Returned(Code(Success))
    ensures s'.writer.None? && !MustWait(s'.ring, op)
  {
    StableShaped(s);
    var ls1, s1 := CallDropsLock(s, 0, op);
    var ls2, s2 := UncontendedCall(s1, 1, relief, None);
    var ls3, s3 := WaitExpires(s2, 0);
    RunConcat(s, ls1, s1, ls2, s2);
    RunConcat(s, ls1 + ls2, s2, ls3, s3);
    ls, s' := ls1 + ls2 + ls3, s3;
  }

  /** Such a full queue is reached from the start by uncontended adds. */
  lemma {:induction false} FillQueue(capacity: nat, n: nat, item: Ptr) returns (ls: seq<Label>, s: State)
    requires 0 < capacity <= MAX_CAPACITY && n <= capacity && item != Null
    ensures RunTo(Start(2, capacity), ls, s) && Unprompted(ls) && Free(s) && |s.threads| == 2
    ensures Resting(s.threads[0].pc) && Resting(s.threads[1].pc)
    ensures s.ring.size == n && s.ring.Capacity() == capacity
  {
    if n == 0 {
      ls, s := [], Start(2, capacity);
      CoreAtStart(2, capacity);
    } else {
      var ls0, s0 := FillQueue(capacity, n - 1, item);
      var more, s1 := UncontendedCall(s0, 0, Add(item), None);
      RunConcat(Start(2, capacity), ls0, s0, more, s1);
      ls, s := ls0 + more, s1;
    }
  }

  /** For every capacity some run from the start ends with a timed-out add on a queue with room:
      the timeout reports that the queue was full at the test, not that it remained full. */
  lemma TimeoutIsNotFullness(capacity: nat) returns (ls: seq<Label>)
    requires 0 < capacity <= MAX_CAPACITY
    ensures IsRunOf(2, capacity, ls)
    ensures var s := Reached(2, capacity, ls);
            && |s.threads| == 2 && s.threads[0].op.Add? && s.threads[0].pc == Returned(Code(ErrTimeout))
            && s.writer.None? && !IsFull(s.ring)
  {
    var ls1, s1 := FillQueue(capacity, capacity, Ref(1));
    var ls2, s2 := TimesOutUnblocked(s1, Add(Ref(2)), Pop(true));
    RunConcat(Start(2, capacity), ls1, s1, ls2, s2);
    ls := ls1 + ls2;
  }

  /** Dually, some run from the start ends with a timed-out pop on a queue that holds an item. */
  lemma TimeoutIsNotEmptiness(capacity: nat) returns (ls: seq<Label>)
    requires 0 < capacity <= MAX_CAPACITY
    ensures IsRunOf(2, capacity, ls)
    ensures var s := Reached(2, capacity, ls);
            && |s.threads| == 2 && s.threads[0].op.Pop? && s.threads[0].pc == Returned(Code(ErrTimeout))
            && s.writer.None? && !IsEmpty(s.ring)
  {
    var ls1, s1 := FillQueue(capacity, 0, Ref(1));
    var ls2, s2 := TimesOutUnblocked(s1, Pop(true), Add(Ref(1)));
    RunConcat(Start(2, capacity), ls1, s1, ls2, s2);
    ls := ls1 + ls2;
  }

  // A signal ends a wait.

  /** Woken by a signal, take cond_mutex back, release it, and go for the write lock again. */
  lemma TryAgain(s: State, t: nat) returns (ls: seq<Label>, s': State)
    requires Free(s) && t < |s.threads| && s.threads[t].pc == Rewake(Zero)
    ensures RunTo(s, ls, s') && Unprompted(ls) && Free(s') && OthersSame(s, s', t)
    ensures s'.threads[t] == s.threads[t].(pc := WantWrite) && s'.ring == s.ring
  {
    StableShaped(s);
    var l := Run(t);
    var s1 := Go(s.(mutex := Some(t)), t, WaitUnlock(Zero));
    RunOnce(s, t, s1);
    var s2 := Go(s1.(mutex := None), t, Decide(Zero));
    RunOnce(s1, t, s2);
    s' := AfterWait(s2, t, Zero);
    RunOnce(s2, t, s');
    RunConcat(s, [l], s1, [l], s2);
    RunConcat(s, [l] + [l], s2, [l], s');
    ls := [l] + [l] + [l];
  }

  /** A blocked call, the call that relieves it, and what both leave behind: a waiting pop gets
      exactly the item that was put, a waiting add puts its item behind what is left. */
  ghost predicate Relayed(s: State, s': State, op: Op, relief: Op) {
    && Shaped(s.ring) && Shaped(s'.ring) && s'.writer.None?
    && |s'.threads| == 2
    && s'.threads[0].op == op && s'.threads[0].pc == Returned(Code(Success))
    && s'.threads[1].op == relief && s'.threads[1].pc == Returned(Code(Success))
    && if op.Adds() then
         Contents(s.ring) + [op.item] == [s'.threads[1].out] + Contents(s'.ring)
       else
         Contents(s.ring) + [ItemOf(relief)] == [s'.threads[0].out] + Contents(s'.ring)
  }

  /** The call waits, and the other call relieves it and signals. */
  lemma RelieveWaiter(s: State, op: Op, relief: Op) returns (ls: seq<Label>, s': State)
    requires Free(s) && |s.threads| == 2 && Resting(s.threads[0].pc) && Resting(s.threads[1].pc)
    requires op.Blocks() && !op.BadArgs() && MustWait(s.ring, op)
    requires !relief.Asks() && !relief.BadArgs() && relief.Adds() != op.Adds()
    ensures RunTo(s, ls, s') && Unprompted(ls) && Free(s') && |s'.threads| == 2 && Took(s, s', 1)
    ensures s'.threads[0].op == op && s'.threads[0].pc == Rewake(Zero)
    ensures s'.threads[1].op == relief && s'.threads[1].pc == Returned(Code(Success))
  {
    StableShaped(s);
    var ls1, s1 := CallDropsLock(s, 0, op);
    var ls2, s2 := BeginWait(s1, 0);
    var ls3, s3 := UncontendedCall(s2, 1, relief, Some(0));
    RunConcat(s, ls1, s1, ls2, s2);
    RunConcat(s, ls1 + ls2, s2, ls3, s3);
    ls, s' := ls1 + ls2 + ls3, s3;
  }

  /** Woken by a signal and with nothing in its way, the call succeeds. */
  lemma WokenRuns(s: State, t: nat) returns (ls: seq<Label>, s': State)
    requires Free(s) && t < |s.threads| && s.threads[t].pc == Rewake(Zero) && !MustWait(s.ring, s.threads[t].op)
    requires forall w :: 0 <= w < |s.threads| ==> !s.threads[w].pc.Waiting?
    ensures RunTo(s, ls, s') && Unprompted(ls) && Free(s') && OthersSame(s, s', t) && Took(s, s', t)
    ensures s'.threads[t].op == s.threads[t].op && s'.threads[t].pc == Returned(Code(Success))
  {
    var ls1, s1 := TryAgain(s, t);
    var ls2, s2 := LockAndTest(s1, t);
    var ls3, s3 := FinishCall(s2, t, None);
    RunConcat(s, ls1, s1, ls2, s2);
    RunConcat(s, ls1 + ls2, s2, ls3, s3);
    ls, s' := ls1 + ls2 + ls3, s3;
  }

  /** At the limit, a call that waits is woken by the signal of the call that relieves it, and
      succeeds, without any wait ending by itself. */
  lemma WokenCallSucceeds(s: State, op: Op, relief: Op) returns (ls: seq<Label>, s': State)
    requires Free(s) && |s.threads| == 2 && Resting(s.threads[0].pc) && Resting(s.threads[1].pc)
    requires op.Blocks() && !op.BadArgs() && MustWait(s.ring, op)
    requires !relief.Asks() && !relief.BadArgs() && relief.Adds() != op.Adds()
    ensures RunTo(s, ls, s') && Unprompted(ls) && Relayed(s, s', op, relief)
  {
    StableShaped(s);
    var ls1, s1 := RelieveWaiter(s, op, relief);
    var ls2, s2 := WokenRuns(s1, 0);
    RunConcat(s, ls1, s1, ls2, s2);
    ls, s' := ls1 + ls2, s2;
  }

  /** For every capacity and item: a pop that waits on the empty queue is woken when the item is
      added, and returns it. */
  lemma SignalWakesPop(capacity: nat, x: Ptr) returns (ls: seq<Label>)
    requires 0 < capacity <= MAX_CAPACITY && x != Null
    ensures IsRunOf(2, capacity, ls) && Unprompted(ls)
    ensures var s := Reached(2, capacity, ls);
            && |s.threads| == 2
            && s.threads[0].op == Pop(true) && s.threads[0].pc == Returned(Code(Success)) && s.threads[0].out == x
            && s.threads[1].op == Add(x) && s.threads[1].pc == Returned(Code(Success))
  {
    var s0 := Start(2, capacity);
    CoreAtStart(2, capacity);
    EmptyIsValid(capacity);
    var s1;
    ls, s1 := WokenCallSucceeds(s0, Pop(true), Add(x));
    assert ([] + [x])[0] == x;
  }

  /** Dually, an add that waits on the full queue is woken by a pop, and puts its item last. */
  lemma SignalWakesAdd(capacity: nat, x: Ptr) returns (ls: seq<Label>)
    requires 0 < capacity <= MAX_CAPACITY && x != Null
    ensures IsRunOf(2, capacity, ls) && Unprompted(ls)
    ensures var s := Reached(2, capacity, ls);
            && |s.threads| == 2 && Shaped(s.ring) && s.ring.size == capacity
            && s.threads[0].op == Add(x) && s.threads[0].pc == Returned(Code(Success))
            && s.threads[1].op == Pop(true) && s.threads[1].pc == Returned(Code(Success))
            && Contents(s.ring)[capacity - 1] == x
  {
    var ls1, s1 := FillQueue(capacity, capacity, x);
    var ls2, s2 := WokenCallSucceeds(s1, Add(x), Pop(true));
    RunConcat(Start(2, capacity), ls1, s1, ls2, s2);
    StableShaped(s1);
    assert (Contents(s1.ring) + [x])[capacity] == ([s2.threads[1].out] + Contents(s2.ring))[capacity];
    ls := ls1 + ls2;
  }
}
