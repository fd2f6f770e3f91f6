/** What holds in every state that any number of threads can reach, under any schedule. */
module QueueTheorems {
  import opened Portability
  import opened Ring
  import opened QueueModel
  import opened QueueInvariant
  import opened QueueCalls
  import opened QueueProgress

  ghost predicate IsRunOf(threads: nat, capacity: nat, ls: seq<Label>) {
    0 < capacity <= MAX_CAPACITY && IsRun(Start(threads, capacity), ls)
  }

  ghost function Reached(threads: nat, capacity: nat, ls: seq<Label>): State
    requires IsRunOf(threads, capacity, ls)
  {
    After(Start(threads, capacity), ls)
  }

  lemma ReachedCore(threads: nat, capacity: nat, ls: seq<Label>)
    requires IsRunOf(threads, capacity, ls)
    ensures var s := Reached(threads, capacity, ls);
            && Core(s) && s.stable.Capacity() == capacity && |s.threads| == threads
            && Shaped(s.ring) && s.ring.Capacity() == capacity
  {
    CoreAtStart(threads, capacity);
    CoreAfter(Start(threads, capacity), ls);
    StableShaped(Reached(threads, capacity, ls));
  }

  // Refinement to an atomic FIFO queue.

  /** A log that replays is a log in which what went in is what came out plus what is left. */
  lemma {:induction false} ReplayConserves(log: seq<Event>, capacity: nat)
    requires Replay(log, capacity).Some?
    ensures PushedItems(log) == PoppedItems(log) + Replay(log, capacity).value
    ensures |Replay(log, capacity).value| <= capacity
  {
    if log != [] {
      ReplayConserves(log[..|log| - 1], capacity);
    }
  }

  /** Every interleaving is explained by one sequential history on a bounded FIFO queue, and
      the shared ring holds that queue whenever no writer is inside. */
  lemma FifoRefinement(threads: nat, capacity: nat, ls: seq<Label>)
    requires IsRunOf(threads, capacity, ls)
    ensures var s := Reached(threads, capacity, ls);
            && Shaped(s.stable)
            && Replay(s.log, capacity) == Some(Contents(s.stable))
            && PushedItems(s.log) == PoppedItems(s.log) + Contents(s.stable)
            && (s.writer.None? ==> s.ring == s.stable)
  {
    ReachedCore(threads, capacity, ls);
    ReplayConserves(Reached(threads, capacity, ls).log, capacity);
  }

  /** Every index stays inside the buffer, no index or size computation wraps, and between
      writers tail is (head + size) % capacity with a non-NULL pointer in every live slot. */
  lemma RingBounds(threads: nat, capacity: nat, ls: seq<Label>)
    requires IsRunOf(threads, capacity, ls)
    ensures var r := Reached(threads, capacity, ls).ring;
            && r.head < capacity && r.tail < capacity && r.size <= capacity == |r.buffer|
            && r.head + 1 <= SIZE_MAX && r.tail + 1 <= SIZE_MAX && r.size + 1 <= SIZE_MAX
            && (Reached(threads, capacity, ls).writer.None? ==>
                  r.tail == (r.head + r.size) % capacity && Null !in Contents(r))
  {
    ReachedCore(threads, capacity, ls);
    TailIsModulo(Reached(threads, capacity, ls).ring);
  }

  // Locks.

  predicate TouchesRing(pc: PC) { pc.Test? || CommitPath(pc) || pc.Reading? }

  /** The lock fields and the threads' positions: a writer excludes readers and other writers;
      only the writer changes the ring, and only lock holders look at it; cond_mutex has one
      owner, who never holds the rwlock. */
  lemma MutualExclusion(threads: nat, capacity: nat, ls: seq<Label>, t: nat, u: nat)
    requires IsRunOf(threads, capacity, ls) && t < threads && u < threads
    ensures var s := Reached(threads, capacity, ls);
            && |s.threads| == threads
            && (s.writer.Some? ==> s.readers == {})
            && (CommitPath(s.threads[t].pc) ==> s.writer == Some(t))
            && (TouchesRing(s.threads[t].pc) ==> s.writer == Some(t) || t in s.readers)
            && !(s.mutex == Some(t) && (s.writer == Some(t) || t in s.readers))
            && (t != u && HoldsWrite(s.threads[t].pc) ==> !HoldsWrite(s.threads[u].pc) && !HoldsRead(s.threads[u].pc))
            && (t != u ==> !(HoldsMutex(s.threads[t].pc) && HoldsMutex(s.threads[u].pc)))
  {
    ReachedCore(threads, capacity, ls);
    var s := Reached(threads, capacity, ls);
    assert LockedBy(s, t) && LockedBy(s, u);
  }

  /** When a thread can go on by itself: the write lock keeps out everybody, the read lock only
      writers, cond_mutex everybody; nothing else holds up a call that does not wait. A wait may
      end in any way at any time, and a thread without a call may begin any. */
  lemma LockRules(threads: nat, capacity: nat, ls: seq<Label>, t: nat)
    requires IsRunOf(threads, capacity, ls) && t < threads
    ensures var s := Reached(threads, capacity, ls);
            |s.threads| == threads &&
            var pc, runs, ts := s.threads[t].pc, Enabled(s, Run(t)), s.threads;
            && (pc.WantWrite? ==>
                  (runs <==> forall u :: 0 <= u < threads ==> !HoldsWrite(ts[u].pc) && !HoldsRead(ts[u].pc)))
            && (pc.WantRead? ==> (runs <==> forall u :: 0 <= u < threads ==> !HoldsWrite(ts[u].pc)))
            && (pc.WantSignal? || pc.WantWait? || pc.Rewake? ==>
                  (runs <==> forall u :: 0 <= u < threads ==> !HoldsMutex(ts[u].pc)))
            && (HoldsWrite(pc) || HoldsRead(pc) || pc.SignalUnlock? || pc.EnterWait? || pc.WaitUnlock? || pc.Decide?
                ==> runs)
            && (pc.Waiting? ==> forall wake :: Enabled(s, Wakeup(t, wake)))
            && (pc.EnterWait? ==> Enabled(s, RefuseWait(t)))
            && (Resting(pc) ==> forall op, nullQueue :: Enabled(s, Invoke(t, op, nullQueue)))
  {
    ReachedCore(threads, capacity, ls);
    var s := Reached(threads, capacity, ls);
    assert LockedBy(s, t);
    LocksByPosition(s);
  }

  lemma LocksByPosition(s: State)
    requires LocksMatch(s)
    ensures s.writer.None? <==> forall u :: 0 <= u < |s.threads| ==> !HoldsWrite(s.threads[u].pc)
    ensures s.readers == {} <==> forall u :: 0 <= u < |s.threads| ==> !HoldsRead(s.threads[u].pc)
    ensures s.mutex.None? <==> forall u :: 0 <= u < |s.threads| ==> !HoldsMutex(s.threads[u].pc)
  {
    forall u | 0 <= u < |s.threads|
      ensures s.writer == Some(u) <==> HoldsWrite(s.threads[u].pc)
      ensures u in s.readers <==> HoldsRead(s.threads[u].pc)
      ensures s.mutex == Some(u) <==> HoldsMutex(s.threads[u].pc)
    {
      assert LockedBy(s, u);
    }
    if s.writer.Some? {
      assert HoldsWrite(s.threads[s.writer.value].pc);
    }
    if s.mutex.Some? {
      assert HoldsMutex(s.threads[s.mutex.value].pc);
    }
    if s.readers != {} {
      var r :| r in s.readers;
      assert HoldsRead(s.threads[r].pc);
    }
  }

  /** A step that a thread takes by itself, or that time takes for it. */
  predicate Forced(l: Label) { l.Run? || l.Notify? || (l.Wakeup? && l.wake.TimedOut?) }

  /** While any call is unfinished some thread of a call in progress can step, or a wait of the
      unfinished call can expire. */
  lemma DeadlockFreedom(threads: nat, capacity: nat, ls: seq<Label>, t: nat)
    requires IsRunOf(threads, capacity, ls) && t < threads
    ensures |Reached(threads, capacity, ls).threads| == threads
    ensures !Resting(Reached(threads, capacity, ls).threads[t].pc) ==>
              exists l :: Enabled(Reached(threads, capacity, ls), l)
                          && (l.Run? || l.Notify? || l == Wakeup(t, TimedOut))
  {
    ReachedCore(threads, capacity, ls);
    if !Resting(Reached(threads, capacity, ls).threads[t].pc) {
      var l := SomeoneCanMove(Reached(threads, capacity, ls), t);
    }
  }

  /** Every schedule lets every call return: a run takes at most 22 steps for each call begun
      and 9 for each spurious wakeup, on top of 24 for each thread that was already in a call;
      and where no forced step is left every call has returned. */
  lemma EveryScheduleReturns(threads: nat, capacity: nat, ls: seq<Label>, more: seq<Label>)
    requires IsRunOf(threads, capacity, ls) && IsRun(Reached(threads, capacity, ls), more)
    ensures var s, s' := Reached(threads, capacity, ls), After(Reached(threads, capacity, ls), more);
            && |s.threads| == |s'.threads| == threads
            && |more| <= 24 * threads + Grants(more)
            && ((forall t :: 0 <= t < threads ==> Resting(s.threads[t].pc)) ==> |more| <= Grants(more))
            && ((forall l :: l in more ==> Grant(l) == 0) ==> |more| <= 24 * threads)
            && ((forall l :: Forced(l) ==> !Enabled(s', l)) ==>
                  forall t :: 0 <= t < threads ==> Resting(s'.threads[t].pc))
  {
    var s := Reached(threads, capacity, ls);
    ReachedCore(threads, capacity, ls);
    CoreAfter(s, more);
    EffortBounded(s.threads);
    EffortAfter(s, more);
    if forall l :: l in more ==> Grant(l) == 0 {
      GrantsNothing(more);
    }
    forall t | 0 <= t < threads && !Resting(After(s, more).threads[t].pc)
      ensures exists l :: Forced(l) && Enabled(After(s, more), l)
    {
      var l := SomeoneCanMove(After(s, more), t);
    }
  }

  lemma {:induction false} GrantsNothing(ls: seq<Label>)
    requires forall l :: l in ls ==> Grant(l) == 0
    ensures Grants(ls) == 0
  {
    if ls != [] {
      GrantsNothing(ls[1..]);
    }
  }

  /** No reachable state is a trap: some continuation returns every call in progress, within
      twelve steps for each thread. */
  lemma EveryCallCanReturn(threads: nat, capacity: nat, ls: seq<Label>) returns (more: seq<Label>)
    requires IsRunOf(threads, capacity, ls)
    ensures var s := Reached(threads, capacity, ls);
            && IsRun(s, more)
            && (forall l :: l in more ==> !l.Invoke?)
            && |After(s, more).threads| == threads
            && (forall t :: 0 <= t < threads ==> Resting(After(s, more).threads[t].pc))
            && |more| <= 12 * threads
  {
    ReachedCore(threads, capacity, ls);
    var s := Reached(threads, capacity, ls);
    DistanceBounded(s.threads);
    more := FinishFrom(s);
  }

  lemma {:induction false} DistanceBounded(ts: seq<Thread>)
    ensures Total(ts, Distance) <= 12 * |ts|
  {
    if ts != [] {
      DistanceBounded(ts[1..]);
    }
  }

  // What each call did.

  lemma ReachedCalls(threads: nat, capacity: nat, ls: seq<Label>)
    requires IsRunOf(threads, capacity, ls)
    ensures CallsMatch(Reached(threads, capacity, ls))
  {
    CoreAtStart(threads, capacity);
    CallsAfter(Start(threads, capacity), ls);
  }

  /** Result, queue_errno and `*item` of a finished call follow from the events the call left
      in the history since it began: success is one push or pop, failure is none. */
  lemma ReturnsExplained(threads: nat, capacity: nat, ls: seq<Label>, t: nat)
    requires IsRunOf(threads, capacity, ls) && t < threads
    ensures var s := Reached(threads, capacity, ls);
            && |s.threads| == threads && s.threads[t].start <= |s.log|
            && (s.threads[t].pc.Returned? ==>
                  && ReturnExplained(s.threads[t], t, Mine(s, t), s.threads[t].pc.outcome, capacity)
                  && var th := s.threads[t];
                     th.errno == ErrNull <==>
                       th.nullQueue || th.op == Add(Null) || th.op == TryAdd(Null) || th.op == Pop(false) || th.op == TryPop(false))
  {
    ReachedCore(threads, capacity, ls);
    ReachedCalls(threads, capacity, ls);
    assert CallMatches(Reached(threads, capacity, ls), t);
  }

  /** The abstract queue as it was before event i. */
  ghost predicate QueueWas(log: seq<Event>, i: nat, capacity: nat, q: seq<Ptr>) {
    i <= |log| && Replay(log[..i], capacity) == Some(q)
  }

  lemma {:induction false} ReplayPrefix(log: seq<Event>, i: nat, capacity: nat)
    requires i < |log| && Replay(log, capacity).Some?
    ensures Replay(log[..i], capacity).Some?
    ensures Effect(Replay(log[..i], capacity).value, log[i], capacity).Some?
    decreases |log|
  {
    var init := log[..|log| - 1];
    if i < |log| - 1 {
      ReplayPrefix(init, i, capacity);
      assert init[..i] == log[..i];
    }
  }

  /** A thread's event stands somewhere in the stretch of log it was collected from. */
  lemma {:induction false} EventStands(log: seq<Event>, start: nat, t: nat, e: Event) returns (i: nat)
    requires start <= |log| && e in EventsOf(log[start..], t)
    ensures start <= i < |log| && log[i] == e
    decreases |log|
  {
    var tail, init := log[start..], log[..|log| - 1];
    if log[|log| - 1] == e {
      i := |log| - 1;
    } else {
      assert tail[..|tail| - 1] == init[start..];
      i := EventStands(init, start, t, e);
    }
  }

  /** An event of the current call stands after the call began, on a queue it fitted. */
  lemma Linearized(threads: nat, capacity: nat, ls: seq<Label>, t: nat, e: Event) returns (i: nat, q: seq<Ptr>)
    requires IsRunOf(threads, capacity, ls) && t < threads
    ensures var s := Reached(threads, capacity, ls);
            && |s.threads| == threads && s.threads[t].start <= |s.log|
            && (e in Mine(s, t) ==>
                  && s.threads[t].start <= i < |s.log| && s.log[i] == e
                  && QueueWas(s.log, i, capacity, q) && Effect(q, e, capacity).Some?)
  {
    var s := Reached(threads, capacity, ls);
    ReturnsExplained(threads, capacity, ls, t);
    FifoRefinement(threads, capacity, ls);
    i, q := 0, [];
    if e in Mine(s, t) {
      i := EventStands(s.log, s.threads[t].start, t, e);
      ReplayPrefix(s.log, i, capacity);
      q := Replay(s.log[..i], capacity).value;
    }
  }

  predicate GaveUp(pc: PC) {
    pc == Returned(Code(ErrTimeout)) || pc == Returned(Code(ErrThread))
    || pc == Returned(Code(ErrFull)) || pc == Returned(Code(ErrEmpty))
  }

  /** An add that gave up saw the queue full at some moment of the call, a pop that gave up
      saw it empty, and neither changed it; a failed pop leaves `*item` NULL. */
  lemma FailedCallsSawTheLimit(threads: nat, capacity: nat, ls: seq<Label>, t: nat)
    requires IsRunOf(threads, capacity, ls) && t < threads
    ensures var s := Reached(threads, capacity, ls);
            |s.threads| == threads &&
            var th := s.threads[t];
            GaveUp(th.pc) ==>
              && (th.op.Adds() || (th.op.Pops() && th.out == Null))
              && (exists i, q :: th.start <= i < |s.log| && QueueWas(s.log, i, capacity, q)
                                 && (if th.op.Adds() then |q| == capacity else |q| == 0))
              && (forall i :: th.start <= i < |s.log| && s.log[i].tid == t ==> s.log[i] == Blocked(t, th.op))
  {
    ReachedCore(threads, capacity, ls);
    ReturnsExplained(threads, capacity, ls, t);
    var s := Reached(threads, capacity, ls);
    var th := s.threads[t];
    if GaveUp(th.pc) {
      var mine := Mine(s, t);
      assert mine[0] == Blocked(t, th.op) && mine[0] in mine;
      var i, q := Linearized(threads, capacity, ls, t, mine[0]);
      assert QueueWas(s.log, i, capacity, q);
      forall j | th.start <= j < |s.log| && s.log[j].tid == t
        ensures s.log[j] == Blocked(t, th.op)
      {
        EventCollected(s.log, th.start, j);
      }
    }
  }

  lemma {:induction false} EventCollected(log: seq<Event>, start: nat, i: nat)
    requires start <= i < |log|
    ensures log[i] in EventsOf(log[start..], log[i].tid)
    decreases |log|
  {
    var tail, init := log[start..], log[..|log| - 1];
    assert tail[..|tail| - 1] == init[start..];
    if i < |log| - 1 {
      EventCollected(init, start, i);
    }
  }

  /** is_empty, is_full and get_size answer for one queue q that existed during the call, and
      leave no other event. */
  lemma StatusSnapshots(threads: nat, capacity: nat, ls: seq<Label>, t: nat)
    requires IsRunOf(threads, capacity, ls) && t < threads
    ensures var s := Reached(threads, capacity, ls);
            |s.threads| == threads &&
            var th := s.threads[t];
            th.pc.Returned? && th.op.Asks() && th.errno == Success ==>
              && (exists i, q :: th.start <= i < |s.log| && QueueWas(s.log, i, capacity, q)
                                 && (th.op.AskEmpty? ==> th.pc.outcome == Flag(q == []))
                                 && (th.op.AskFull? ==> th.pc.outcome == Flag(|q| == capacity))
                                 && (th.op.AskSize? ==> th.pc.outcome == Count(|q|)))
              && (forall i :: th.start <= i < |s.log| && s.log[i].tid == t ==> s.log[i].Observed?)
  {
    ReachedCore(threads, capacity, ls);
    ReturnsExplained(threads, capacity, ls, t);
    var s := Reached(threads, capacity, ls);
    var th := s.threads[t];
    if th.pc.Returned? && th.op.Asks() && th.errno == Success {
      var mine := Mine(s, t);
      assert mine[0] in mine;
      var i, q := Linearized(threads, capacity, ls, t, mine[0]);
      assert QueueWas(s.log, i, capacity, q);
      forall j | th.start <= j < |s.log| && s.log[j].tid == t
        ensures s.log[j].Observed?
      {
        EventCollected(s.log, th.start, j);
      }
    }
  }

  // Wakeup credit.

  /** Over any run, blocked adds go back to the lock at most once for each successful pop or
      try_pop (and blocked pops once for each successful add), plus once for each spurious
      wakeup. */
  lemma WakeupCredit(threads: nat, capacity: nat, ls: seq<Label>, side: Side)
    requires IsRunOf(threads, capacity, ls)
    ensures var s0, s := Start(threads, capacity), Reached(threads, capacity, ls);
            && HowOften(s0, ls, Retry, side) <= Commits(s.log, side) + HowOften(s0, ls, SpuriousWakeup, side)
            && s.retries.At(side) == HowOften(s0, ls, Retry, side)
  {
    var s0 := Start(threads, capacity);
    CoreAtStart(threads, capacity);
    CreditAtStart(s0.threads, side);
    CreditAfter(s0, ls, side);
    TalliesCount(s0, ls, Retry, side);
    TalliesCount(s0, ls, SpuriousWakeup, side);
  }

  /** Each put signals the consumers once and each take the producers once: never more signals
      are sent than puts and takes made, and as many whenever no call is in progress. */
  lemma EverySuccessSignals(threads: nat, capacity: nat, ls: seq<Label>, side: Side)
    requires IsRunOf(threads, capacity, ls)
    ensures var s := Reached(threads, capacity, ls);
            var sent := HowOften(Start(threads, capacity), ls, SignalSent, side);
            && sent <= Commits(s.log, side)
            && ((forall t :: 0 <= t < |s.threads| ==> Resting(s.threads[t].pc)) ==> sent == Commits(s.log, side))
  {
    var s0, s := Start(threads, capacity), Reached(threads, capacity, ls);
    CoreAtStart(threads, capacity);
    OwedAtRest(s0.threads, side);
    PaidAfter(s0, ls, side);
    TalliesCount(s0, ls, SignalSent, side);
    if forall t :: 0 <= t < |s.threads| ==> Resting(s.threads[t].pc) {
      OwedAtRest(s.threads, side);
    }
  }
}
