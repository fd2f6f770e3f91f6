/** What every step of the queue keeps: who holds which lock, what the shared ring looks like
    while a writer is half way through, and what the event log says. */
module QueueInvariant {
  import opened Portability
  import opened Ring
  import opened QueueModel

  predicate HoldsWrite(pc: PC) {
    pc.Test? || pc.Store? || pc.Advance? || pc.Resize? || pc.UnlockToSignal? || pc.UnlockToFail? || pc.UnlockToWait?
  }

  predicate HoldsRead(pc: PC) { pc.Reading? || pc.ReadUnlock? }

  predicate HoldsMutex(pc: PC) {
    pc.Signal? || pc.SignalUnlock? || pc.EnterWait? || pc.WaitUnlock?
  }

  predicate WaitPath(pc: PC) {
    pc.UnlockToWait? || pc.WantWait? || pc.EnterWait? || pc.Waiting? || pc.Rewake? || pc.WaitUnlock? || pc.Decide?
  }

  predicate CommitPath(pc: PC) { pc.Store? || pc.Advance? || pc.Resize? }

  predicate SignalPath(pc: PC) { pc.UnlockToSignal? || pc.WantSignal? || pc.Signal? || pc.SignalUnlock? }

  // Locks.

  predicate LockedBy(s: State, t: nat)
    requires t < |s.threads|
  {
    && (s.writer == Some(t) <==> HoldsWrite(s.threads[t].pc))
    && (t in s.readers <==> HoldsRead(s.threads[t].pc))
    && (s.mutex == Some(t) <==> HoldsMutex(s.threads[t].pc))
  }

  /** The lock fields are exactly the threads' positions. */
  ghost predicate LocksMatch(s: State) {
    && (forall t :: 0 <= t < |s.threads| ==> LockedBy(s, t))
    && (s.writer.Some? ==> s.writer.value < |s.threads| && s.readers == {})
    && (forall t :: t in s.readers ==> t < |s.threads|)
    && (s.mutex.Some? ==> s.mutex.value < |s.threads|)
  }

  predicate WriterFollows(s: State, s': State, t: nat)
    requires t < |s.threads| == |s'.threads|
  {
    var pc, pc' := s.threads[t].pc, s'.threads[t].pc;
    && s'.writer == (if HoldsWrite(pc') then Some(t) else if HoldsWrite(pc) then None else s.writer)
    && (HoldsWrite(pc') && !HoldsWrite(pc) ==> s.writer.None? && s.readers == {})
  }

  predicate ReadersFollow(s: State, s': State, t: nat)
    requires t < |s.threads| == |s'.threads|
  {
    var pc, pc' := s.threads[t].pc, s'.threads[t].pc;
    && s'.readers == (if HoldsRead(pc') then s.readers + {t} else s.readers - {t})
    && (HoldsRead(pc') && !HoldsRead(pc) ==> s.writer.None?)
  }

  predicate MutexFollows(s: State, s': State, t: nat)
    requires t < |s.threads| == |s'.threads|
  {
    var pc, pc' := s.threads[t].pc, s'.threads[t].pc;
    && s'.mutex == (if HoldsMutex(pc') then Some(t) else if HoldsMutex(pc) then None else s.mutex)
    && (HoldsMutex(pc') && !HoldsMutex(pc) ==> s.mutex.None?)
  }

  /** The lock fields move with thread t, and only when the lock is free to be taken. */
  predicate LocksFollow(s: State, s': State, t: nat)
    requires t < |s.threads| == |s'.threads|
  {
    WriterFollows(s, s', t) && ReadersFollow(s, s', t) && MutexFollows(s, s', t)
  }

  lemma LocksTransfer(s: State, s': State, t: nat)
    requires LocksMatch(s) && t < |s.threads| == |s'.threads| && LocksFollow(s, s', t)
    requires forall u {:trigger s'.threads[u]} :: 0 <= u < |s.threads| && u != t ==>
               && HoldsWrite(s'.threads[u].pc) == HoldsWrite(s.threads[u].pc)
               && HoldsRead(s'.threads[u].pc) == HoldsRead(s.threads[u].pc)
               && HoldsMutex(s'.threads[u].pc) == HoldsMutex(s.threads[u].pc)
    ensures LocksMatch(s')
  {
    assert LockedBy(s, t);
    forall u | 0 <= u < |s'.threads|
      ensures LockedBy(s', u)
    {
      assert LockedBy(s, u);
    }
    if s'.writer.Some? {
      assert s'.readers <= s.readers + {t};
      assert t in s'.readers <==> HoldsRead(s'.threads[t].pc);
    }
  }

  lemma LockStepMovesOne(s: State, t: nat)
    requires Enabled(s, Run(t)) && MovesLock(s.threads[t].pc)
    ensures |LockStep(s, t).threads| == |s.threads|
    ensures LockStep(s, t).threads == s.threads[t := LockStep(s, t).threads[t]]
  {
  }

  lemma LockStepWriter(s: State, t: nat)
    requires Enabled(s, Run(t)) && LockedBy(s, t) && MovesLock(s.threads[t].pc)
    requires |LockStep(s, t).threads| == |s.threads|
    ensures WriterFollows(s, LockStep(s, t), t)
  {
  }

  lemma LockStepReaders(s: State, t: nat)
    requires Enabled(s, Run(t)) && LockedBy(s, t) && MovesLock(s.threads[t].pc)
    requires |LockStep(s, t).threads| == |s.threads|
    ensures ReadersFollow(s, LockStep(s, t), t)
  {
  }

  lemma LockStepMutex(s: State, t: nat)
    requires Enabled(s, Run(t)) && LockedBy(s, t) && MovesLock(s.threads[t].pc)
    requires |LockStep(s, t).threads| == |s.threads|
    ensures MutexFollows(s, LockStep(s, t), t)
  {
  }

  lemma WorkStepMovesOne(s: State, t: nat)
    requires Enabled(s, Run(t)) && !MovesLock(s.threads[t].pc)
    ensures |WorkStep(s, t).threads| == |s.threads|
    ensures WorkStep(s, t).threads == s.threads[t := WorkStep(s, t).threads[t]]
  {
  }

  lemma WorkStepFollows(s: State, t: nat)
    requires Enabled(s, Run(t)) && LockedBy(s, t) && !MovesLock(s.threads[t].pc)
    requires |WorkStep(s, t).threads| == |s.threads|
    ensures LocksFollow(s, WorkStep(s, t), t)
  {
  }

  lemma RunFollows(s: State, t: nat)
    requires Enabled(s, Run(t)) && LockedBy(s, t)
    ensures |RunStep(s, t).threads| == |s.threads|
    ensures RunStep(s, t).threads == s.threads[t := RunStep(s, t).threads[t]]
    ensures LocksFollow(s, RunStep(s, t), t)
  {
    if MovesLock(s.threads[t].pc) {
      LockStepMovesOne(s, t);
      LockStepWriter(s, t);
      LockStepReaders(s, t);
      LockStepMutex(s, t);
    } else {
      WorkStepMovesOne(s, t);
      WorkStepFollows(s, t);
    }
  }

  lemma OtherFollows(s: State, l: Label)
    requires Enabled(s, l) && !l.Run? && LockedBy(s, l.tid)
    ensures LocksFollow(s, Step(s, l), l.tid)
  {
    var t := l.tid;
    match l
    case Invoke(_, op, nullQueue) =>
    case Wakeup(_, wake) =>
    case RefuseWait(_) =>
    case Notify(_, None) =>
    case Notify(_, Some(w)) => assert w != t;
  }

  lemma LocksKept(s: State, l: Label)
    requires LocksMatch(s) && Enabled(s, l)
    ensures LocksMatch(Step(s, l))
  {
    assert LockedBy(s, l.tid);
    if l.Run? {
      RunFollows(s, l.tid);
    } else {
      OtherFollows(s, l);
    }
    LocksTransfer(s, Step(s, l), l.tid);
  }

  // Each position belongs to a kind of call.

  predicate WellPlaced(th: Thread) {
    && (th.pc.WantRead? || HoldsRead(th.pc) ==> th.op.Asks() && !th.Refused())
    && (th.pc.WantWrite? || HoldsWrite(th.pc) || WaitPath(th.pc) || SignalPath(th.pc) ==>
          !th.op.Asks() && !th.Refused())
    && (WaitPath(th.pc) ==> th.op.Blocks())
    && (th.pc.UnlockToFail? ==> !th.op.Blocks())
  }

  ghost predicate AllPlaced(s: State) {
    forall t :: 0 <= t < |s.threads| ==> WellPlaced(s.threads[t])
  }

  lemma LockStepPlaced(s: State, t: nat)
    requires Enabled(s, Run(t)) && WellPlaced(s.threads[t])
    ensures WellPlaced(LockStep(s, t).threads[t])
  {
  }

  lemma WorkStepPlaced(s: State, t: nat)
    requires Enabled(s, Run(t)) && WellPlaced(s.threads[t])
    ensures WellPlaced(WorkStep(s, t).threads[t])
  {
  }

  lemma PlacesKept(s: State, l: Label)
    requires LocksMatch(s) && AllPlaced(s) && Enabled(s, l)
    ensures AllPlaced(Step(s, l))
  {
    assert WellPlaced(s.threads[l.tid]) && LockedBy(s, l.tid);
    if l.Run? {
      RunFollows(s, l.tid);
      LockStepPlaced(s, l.tid);
      WorkStepPlaced(s, l.tid);
    }
  }

  // The ring, with at most one writer part of the way through its three assignments.

  function InFlight(stable: Ring, th: Thread): Ring
    requires Shaped(stable)
  {
    var adds := th.op.Adds();
    if th.pc.Advance? && adds then StoreSlot(stable, ItemOf(th.op))
    else if th.pc.Resize? && adds then AdvanceTail(StoreSlot(stable, ItemOf(th.op)))
    else if th.pc.Resize? then AdvanceHead(stable)
    else stable
  }

  ghost predicate RingMatches(s: State) {
    && ValidRing(s.stable)
    && s.ring.Capacity() == s.stable.Capacity()
    && (s.writer.None? ==> s.ring == s.stable)
    && (s.writer.Some? ==>
          && s.writer.value < |s.threads|
          && var th := s.threads[s.writer.value];
             && s.ring == InFlight(s.stable, th)
             && (CommitPath(th.pc) ==> !MustWait(s.stable, th.op))
             && ((th.pc.Advance? || th.pc.Resize?) && th.op.Pops() ==> th.out == LoadSlot(s.stable)))
  }

  lemma StableShaped(s: State)
    requires RingMatches(s)
    ensures Shaped(s.ring)
  {
    if s.writer.Some? {
      var th := s.threads[s.writer.value];
      AdvanceIsSlot(s.stable.tail, s.stable.Capacity());
      AdvanceIsSlot(s.stable.head, s.stable.Capacity());
    }
  }

  /** Only a thread between Store and Resize touches the ring. */
  lemma RunLeavesRing(s: State, t: nat)
    requires Enabled(s, Run(t)) && !CommitPath(s.threads[t].pc)
    ensures RunStep(s, t).ring == s.ring && RunStep(s, t).stable == s.stable
  {
  }

  lemma RunLeavesStable(s: State, t: nat)
    requires Enabled(s, Run(t)) && !s.threads[t].pc.Resize?
    ensures RunStep(s, t).stable == s.stable
  {
  }

  lemma WriterStepsRing(s: State, t: nat)
    requires LocksMatch(s) && AllPlaced(s) && RingMatches(s)
    requires Enabled(s, Run(t)) && HoldsWrite(s.threads[t].pc)
    ensures RingMatches(RunStep(s, t))
  {
    var th := s.threads[t];
    assert LockedBy(s, t);
    match th.pc
    case Test =>
    case Store =>
    case Advance =>
    case Resize => CommitMeaning(s, t);
    case UnlockToSignal =>
    case UnlockToFail =>
    case UnlockToWait =>
  }

  lemma RingKept(s: State, l: Label)
    requires LocksMatch(s) && AllPlaced(s) && RingMatches(s) && Enabled(s, l)
    ensures RingMatches(Step(s, l))
  {
    var t, s' := l.tid, Step(s, l);
    var th := s.threads[t];
    assert LockedBy(s, t);
    if l.Run? {
      if HoldsWrite(th.pc) {
        WriterStepsRing(s, t);
      } else {
        RunLeavesRing(s, t);
        RunFollows(s, t);
      }
    } else {
      OtherFollows(s, l);
      assert s'.ring == s.ring && s'.stable == s.stable;
      if s.writer.Some? {
        assert LockedBy(s, s.writer.value);
        assert s'.threads[s.writer.value] == s.threads[s.writer.value];
      }
    }
  }

  /** The size assignment completes a put or a take of the stable ring. */
  lemma CommitMeaning(s: State, t: nat)
    requires LocksMatch(s) && AllPlaced(s) && RingMatches(s)
    requires t < |s.threads| && s.threads[t].pc.Resize?
    ensures var op, s' := s.threads[t].op, ChangeSize(s, t);
            && s'.ring == s'.stable && ValidRing(s'.stable)
            && s'.stable.Capacity() == s.stable.Capacity()
            && (op.Adds() ==> op.item != Null && |Contents(s.stable)| < s.stable.Capacity()
                              && Contents(s'.stable) == Contents(s.stable) + [op.item])
            && (op.Pops() ==> s.threads[t].out != Null
                              && Contents(s.stable) == [s.threads[t].out] + Contents(s'.stable))
            && (op.Adds() || op.Pops())
  {
    var th := s.threads[t];
    assert LockedBy(s, t);
    if th.op.Adds() {
      PutAppends(s.stable, th.op.item);
      assert ChangeSize(s, t).stable == PutRing(s.stable, th.op.item);
    } else {
      TakeRemovesOldest(s.stable);
      assert ChangeSize(s, t).stable == TakeRing(s.stable);
    }
  }

  // The log.

  ghost predicate LogMatches(s: State) {
    && Shaped(s.stable)
    && Replay(s.log, s.stable.Capacity()) == Some(Contents(s.stable))
  }

  lemma ReplayAppend(log: seq<Event>, log': seq<Event>, e: Event, capacity: nat)
    requires log' == log + [e]
    ensures Replay(log', capacity) ==
            match Replay(log, capacity) case None => None case Some(q) => Effect(q, e, capacity)
  {
    assert log'[..|log'| - 1] == log;
  }

  /** An event that fits the stable queue and turns it into the new one is logged rightly. */
  lemma EventLogged(s: State, s': State, e: Event)
    requires LogMatches(s) && Shaped(s'.stable) && s'.stable.Capacity() == s.stable.Capacity()
    requires s'.log == s.log + [e]
    requires Effect(Contents(s.stable), e, s.stable.Capacity()) == Some(Contents(s'.stable))
    ensures LogMatches(s')
  {
    ReplayAppend(s.log, s'.log, e, s.stable.Capacity());
  }

  lemma RunLeavesLog(s: State, t: nat)
    requires Enabled(s, Run(t))
    requires !s.threads[t].pc.Test? && !s.threads[t].pc.Resize? && !s.threads[t].pc.Reading?
    ensures RunStep(s, t).log == s.log && RunStep(s, t).stable == s.stable
  {
  }

  lemma CommitLogged(s: State, t: nat)
    requires LocksMatch(s) && AllPlaced(s) && RingMatches(s) && LogMatches(s)
    requires t < |s.threads| && s.threads[t].pc.Resize?
    ensures LogMatches(ChangeSize(s, t))
  {
    var th, s' := s.threads[t], ChangeSize(s, t);
    CommitMeaning(s, t);
    if th.op.Adds() {
      EventLogged(s, s', Pushed(t, ItemOf(th.op)));
    } else {
      EventLogged(s, s', Popped(t, th.out));
    }
  }

  lemma TestLogged(s: State, t: nat)
    requires LocksMatch(s) && AllPlaced(s) && RingMatches(s) && LogMatches(s)
    requires t < |s.threads| && s.threads[t].pc.Test?
    ensures LogMatches(TestSize(s, t))
  {
    assert LockedBy(s, t) && s.ring == s.stable;
    if MustWait(s.ring, s.threads[t].op) {
      EventLogged(s, TestSize(s, t), Blocked(t, s.threads[t].op));
    }
  }

  lemma ReadLogged(s: State, t: nat)
    requires LocksMatch(s) && AllPlaced(s) && RingMatches(s) && LogMatches(s)
    requires t < |s.threads| && s.threads[t].pc.Reading?
    ensures LogMatches(ReadSize(s, t))
  {
    assert LockedBy(s, t) && s.ring == s.stable;
    EventLogged(s, ReadSize(s, t), Observed(t, s.ring.size));
  }

  lemma LogKept(s: State, l: Label)
    requires LocksMatch(s) && AllPlaced(s) && RingMatches(s) && LogMatches(s) && Enabled(s, l)
    ensures LogMatches(Step(s, l))
  {
    var t, c := l.tid, s.stable.Capacity();
    if !l.Run? {
    } else if s.threads[t].pc.Resize? {
      CommitLogged(s, t);
    } else if s.threads[t].pc.Test? {
      TestLogged(s, t);
    } else if s.threads[t].pc.Reading? {
      ReadLogged(s, t);
    } else {
      RunLeavesLog(s, t);
    }
  }

  ghost predicate Core(s: State) {
    LocksMatch(s) && AllPlaced(s) && RingMatches(s) && LogMatches(s)
  }

  lemma CapacityKept(s: State, l: Label)
    requires LocksMatch(s) && AllPlaced(s) && RingMatches(s) && Enabled(s, l)
    ensures Step(s, l).stable.Capacity() == s.stable.Capacity()
  {
    if l.Run? {
      if s.threads[l.tid].pc.Resize? {
        CommitMeaning(s, l.tid);
      } else {
        RunLeavesStable(s, l.tid);
      }
    }
  }

  lemma ThreadsKept(s: State, l: Label)
    requires LocksMatch(s) && Enabled(s, l)
    ensures |Step(s, l).threads| == |s.threads|
  {
    if l.Run? {
      RunFollows(s, l.tid) by { assert LockedBy(s, l.tid); }
    }
  }

  lemma CoreKept(s: State, l: Label)
    requires Core(s) && Enabled(s, l)
    ensures Core(Step(s, l))
    ensures Step(s, l).stable.Capacity() == s.stable.Capacity()
    ensures |Step(s, l).threads| == |s.threads|
  {
    LocksKept(s, l);
    PlacesKept(s, l);
    RingKept(s, l);
    LogKept(s, l);
    CapacityKept(s, l);
    ThreadsKept(s, l);
  }

  lemma CoreAtStart(threads: nat, capacity: nat)
    requires 0 < capacity <= MAX_CAPACITY
    ensures Core(Start(threads, capacity))
  {
    EmptyIsValid(capacity);
  }

  lemma {:induction false} CoreAfter(s: State, ls: seq<Label>)
    requires Core(s) && IsRun(s, ls)
    ensures Core(After(s, ls))
    ensures After(s, ls).stable.Capacity() == s.stable.Capacity()
    ensures |After(s, ls).threads| == |s.threads|
    decreases |ls|
  {
    if ls == [] {
    } else {
      CoreKept(s, ls[0]);
      CoreAfter(Step(s, ls[0]), ls[1..]);
    }
  }

  // Putting runs together.

  /** The labels lead from s to t. */
  ghost predicate RunTo(s: State, ls: seq<Label>, t: State) {
    IsRun(s, ls) && After(s, ls) == t
  }

  lemma {:induction false} RunConcat(s: State, ls: seq<Label>, t: State, more: seq<Label>, u: State)
    requires RunTo(s, ls, t) && RunTo(t, more, u)
    ensures RunTo(s, ls + more, u)
    decreases |ls|
  {
    if ls == [] {
      assert ls + more == more;
    } else {
      assert (ls + more)[1..] == ls[1..] + more;
      RunConcat(Step(s, ls[0]), ls[1..], t, more, u);
    }
  }

  lemma OneStep(s: State, l: Label)
    requires Enabled(s, l)
    ensures RunTo(s, [l], Step(s, l))
  {
    var u := Step(s, l);
    assert [l][1..] == [];
    assert IsRun(u, []) && After(u, []) == u;
  }
}
