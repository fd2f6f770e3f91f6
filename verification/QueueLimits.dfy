/** What a timeout says about the queue. The documentation has an add time out when the queue
    "remains full" (and a pop when it "remains empty"); this module says exactly when it does. */
module QueueLimits {
  import opened Portability
  import opened Ring
  import opened QueueModel
  import opened QueueInvariant
  import opened QueueCalls
  import opened QueueProgress
  import opened QueueTheorems

  /** Full for producers, empty for consumers. */
  predicate AtLimit(size: nat, side: Side, capacity: nat) {
    if side.Producer? then size == capacity else size == 0
  }

  // In the history.

  predicate LimitAt(log: seq<Event>, k: nat, side: Side, capacity: nat) {
    k <= |log| && Replay(log[..k], capacity).Some? && AtLimit(|Replay(log[..k], capacity).value|, side, capacity)
  }

  /** The abstract queue is at the limit after event k, for every k from i to n. */
  ghost predicate RemainsAtLimit(log: seq<Event>, i: nat, n: nat, side: Side, capacity: nat) {
    forall k :: i <= k <= n ==> LimitAt(log, k, side, capacity)
  }

  ghost predicate NoRelief(log: seq<Event>, i: nat, n: nat, side: Side) {
    forall k :: i <= k < n && k < |log| ==> !Relieves(log[k], side)
  }

  lemma PrefixStep(log: seq<Event>, k: nat, capacity: nat)
    requires k < |log|
    ensures Replay(log[..k + 1], capacity) ==
            match Replay(log[..k], capacity) case None => None case Some(q) => Effect(q, log[k], capacity)
  {
    ReplayAppend(log[..k], log[..k + 1], log[k], capacity);
  }

  /** One event on a queue at its limit: a relief leaves the limit, nothing else does. */
  lemma LimitStep(log: seq<Event>, k: nat, side: Side, capacity: nat)
    requires k < |log| && Replay(log, capacity).Some? && LimitAt(log, k, side, capacity)
    ensures LimitAt(log, k + 1, side, capacity) <==> !Relieves(log[k], side)
  {
    PrefixStep(log, k, capacity);
    ReplayPrefix(log, k, capacity);
  }

  /** A queue at its limit leaves it with the first take (or put), and only so. */
  lemma {:induction false} LimitRemains(log: seq<Event>, i: nat, n: nat, side: Side, capacity: nat)
    requires i <= n <= |log| && Replay(log, capacity).Some? && LimitAt(log, i, side, capacity)
    ensures RemainsAtLimit(log, i, n, side, capacity) <==> NoRelief(log, i, n, side)
    decreases n
  {
    if i < n {
      LimitRemains(log, i, n - 1, side, capacity);
      if LimitAt(log, n - 1, side, capacity) {
        LimitStep(log, n - 1, side, capacity);
      }
    }
  }

  lemma {:induction false} LastOwnEvent(log: seq<Event>, start: nat, t: nat) returns (i: nat)
    requires start <= |log| && EventsOf(log[start..], t) != []
    ensures start <= i < |log| && log[i].tid == t
    ensures forall k :: i < k < |log| ==> log[k].tid != t
    decreases |log|
  {
    var tail, init := log[start..], log[..|log| - 1];
    if log[|log| - 1].tid == t {
      i := |log| - 1;
    } else {
      assert tail[..|tail| - 1] == init[start..];
      i := LastOwnEvent(init, start, t);
    }
  }

  /** Event i is the last test of the size by a call that gave up, and found the limit: from
      then on the queue remained full (or empty) exactly as long as nobody took (or put). */
  lemma TimeoutSpan(threads: nat, capacity: nat, ls: seq<Label>, t: nat) returns (i: nat)
    requires IsRunOf(threads, capacity, ls) && t < threads
    ensures var s := Reached(threads, capacity, ls);
            |s.threads| == threads &&
            var th := s.threads[t];
            GaveUp(th.pc) ==>
              && th.start <= i < |s.log| && s.log[i] == Blocked(t, th.op)
              && (forall k :: i < k < |s.log| ==> s.log[k].tid != t)
              && LimitAt(s.log, i, WaitSide(th.op), capacity)
              && (forall n :: i <= n <= |s.log| ==>
                    (RemainsAtLimit(s.log, i, n, WaitSide(th.op), capacity) <==> NoRelief(s.log, i, n, WaitSide(th.op))))
  {
    var s := Reached(threads, capacity, ls);
    ReturnsExplained(threads, capacity, ls, t);
    FifoRefinement(threads, capacity, ls);
    FailedCallsSawTheLimit(threads, capacity, ls, t);
    var th := s.threads[t];
    i := 0;
    if GaveUp(th.pc) {
      i := LastOwnEvent(s.log, th.start, t);
      ReplayPrefix(s.log, i, capacity);
      forall n | i <= n <= |s.log|
        ensures RemainsAtLimit(s.log, i, n, WaitSide(th.op), capacity) <==> NoRelief(s.log, i, n, WaitSide(th.op))
      {
        LimitRemains(s.log, i, n, WaitSide(th.op), capacity);
      }
    }
  }

  // Ahead of time.

  /** The call can still take (for producers) or put (for consumers) without being begun anew. */
  predicate MayRelieve(th: Thread, side: Side) {
    && !th.op.Asks() && SignalSide(th.op) == side
    && match th.pc
       case WantWrite => true
       case Test => true
       case Store => true
       case Advance => true
       case Resize => true
       case UnlockToWait => true
       case WantWait => true
       case EnterWait => true
       case Waiting => true
       case Rewake(wake) => wake.Zero?
       case WaitUnlock(wake) => wake.Zero?
       case Decide(wake) => wake.Zero?
       case _ => false
  }

  predicate BeginsRelief(l: Label, side: Side) {
    l.Invoke? && !l.op.Asks() && SignalSide(l.op) == side
  }

  predicate LimitNow(s: State, side: Side) {
    AtLimit(s.stable.size, side, s.stable.Capacity())
  }

  ghost predicate NobodyMayRelieve(s: State, side: Side) {
    forall t :: 0 <= t < |s.threads| ==> !MayRelieve(s.threads[t], side)
  }

  /** A call under way to its commit is not one that the limit holds up. */
  lemma CommitterRelieves(s: State, t: nat, side: Side)
    requires Core(s) && t < |s.threads| && CommitPath(s.threads[t].pc) && LimitNow(s, side)
    ensures MayRelieve(s.threads[t], side)
  {
    assert LockedBy(s, t) && WellPlaced(s.threads[t]);
  }

  /** The call can no longer take or put, whatever it is. */
  predicate Past(pc: PC) {
    match pc
    case UnlockToSignal => true
    case WantSignal => true
    case Signal => true
    case SignalUnlock => true
    case UnlockToFail => true
    case Rewake(wake) => !wake.Zero?
    case WaitUnlock(wake) => !wake.Zero?
    case Decide(wake) => !wake.Zero?
    case Returned(_) => true
    case _ => false
  }

  lemma LockStepStaysPast(s: State, t: nat)
    requires Enabled(s, Run(t)) && MovesLock(s.threads[t].pc) && Past(s.threads[t].pc)
    ensures Past(LockStep(s, t).threads[t].pc)
  {
  }

  lemma LockStepKeepsOp(s: State, t: nat)
    requires Enabled(s, Run(t)) && MovesLock(s.threads[t].pc)
    ensures LockStep(s, t).threads[t].op == s.threads[t].op
  {
  }

  lemma LockStepKeepsPast(s: State, t: nat, side: Side)
    requires Enabled(s, Run(t)) && WellPlaced(s.threads[t])
    requires MovesLock(s.threads[t].pc) && !MayRelieve(s.threads[t], side)
    ensures !MayRelieve(LockStep(s, t).threads[t], side)
  {
    LockStepKeepsOp(s, t);
    if !s.threads[t].op.Asks() && SignalSide(s.threads[t].op) == side {
      LockStepStaysPast(s, t);
    }
  }

  lemma WorkStepKeepsPast(s: State, t: nat, side: Side)
    requires Enabled(s, Run(t)) && !MovesLock(s.threads[t].pc) && !MayRelieve(s.threads[t], side)
    ensures !MayRelieve(WorkStep(s, t).threads[t], side)
  {
  }

  lemma RunKeepsLimit(s: State, t: nat, side: Side)
    requires Core(s) && Enabled(s, Run(t)) && LimitNow(s, side) && NobodyMayRelieve(s, side)
    ensures LimitNow(RunStep(s, t), side) && NobodyMayRelieve(RunStep(s, t), side)
  {
    assert LockedBy(s, t);
    if s.threads[t].pc.Resize? {
      CommitterRelieves(s, t, side);
    }
    RunLeavesStable(s, t);
    RunFollows(s, t);
    if MovesLock(s.threads[t].pc) {
      assert WellPlaced(s.threads[t]);
      LockStepKeepsPast(s, t, side);
    } else {
      WorkStepKeepsPast(s, t, side);
    }
  }

  lemma OtherKeepsLimit(s: State, l: Label, side: Side)
    requires Enabled(s, l) && !l.Run? && !BeginsRelief(l, side) && LimitNow(s, side) && NobodyMayRelieve(s, side)
    ensures LimitNow(Step(s, l), side) && NobodyMayRelieve(Step(s, l), side)
  {
  }

  /** Nothing that relieves the limit is logged. */
  lemma NothingRelieves(s: State, l: Label, side: Side)
    requires Core(s) && Enabled(s, l) && LimitNow(s, side) && NobodyMayRelieve(s, side)
    ensures Commits(Step(s, l).log, side) == Commits(s.log, side)
  {
    if l.Run? {
      if s.threads[l.tid].pc.Resize? {
        CommitterRelieves(s, l.tid, side);
      }
      assert WellPlaced(s.threads[l.tid]);
      RunGains(s, l.tid, side);
    } else {
      OtherLeavesLog(s, l);
    }
  }

  lemma {:induction false} LimitKept(s: State, ls: seq<Label>, side: Side)
    requires Core(s) && IsRun(s, ls) && LimitNow(s, side) && NobodyMayRelieve(s, side)
    requires forall l :: l in ls ==> !BeginsRelief(l, side)
    ensures LimitNow(After(s, ls), side)
    ensures Commits(After(s, ls).log, side) == Commits(s.log, side)
    decreases |ls|
  {
    if ls != [] {
      CoreKept(s, ls[0]);
      NothingRelieves(s, ls[0], side);
      if ls[0].Run? {
        RunKeepsLimit(s, ls[0].tid, side);
      } else {
        OtherKeepsLimit(s, ls[0], side);
      }
      LimitKept(Step(s, ls[0]), ls[1..], side);
    }
  }

  /** Steps the call itself has to take to its commit, when it finds no limit. */
  function ToCommit(pc: PC): nat {
    match pc
    case Resize => 1
    case Advance => 2
    case Store => 3
    case Test => 4
    case WantWrite => 5
    case Decide(_) => 6
    case WaitUnlock(_) => 7
    case Rewake(_) => 8
    case Waiting => 9
    case EnterWait => 10
    case WantWait => 11
    case UnlockToWait => 12
    case _ => 0
  }

  lemma CommitLeavesLimit(s: State, t: nat, side: Side)
    requires Core(s) && t < |s.threads| && s.threads[t].pc.Resize? && LimitNow(s, side)
    ensures !LimitNow(ChangeSize(s, t), side)
  {
    CommitterRelieves(s, t, side);
    CommitMeaning(s, t);
  }

  lemma LockStepNearsCommit(s: State, t: nat, side: Side)
    requires Enabled(s, Run(t)) && MovesLock(s.threads[t].pc) && MayRelieve(s.threads[t], side)
    ensures MayRelieve(LockStep(s, t).threads[t], side)
    ensures ToCommit(LockStep(s, t).threads[t].pc) < ToCommit(s.threads[t].pc)
  {
  }

  lemma WorkStepNearsCommit(s: State, t: nat, side: Side)
    requires Core(s) && Enabled(s, Run(t)) && !MovesLock(s.threads[t].pc) && !s.threads[t].pc.Resize?
    requires LimitNow(s, side) && MayRelieve(s.threads[t], side)
    ensures MayRelieve(WorkStep(s, t).threads[t], side)
    ensures ToCommit(WorkStep(s, t).threads[t].pc) < ToCommit(s.threads[t].pc)
  {
    assert LockedBy(s, t) && WellPlaced(s.threads[t]);
  }

  lemma WakeNearsCommit(s: State, t: nat, side: Side)
    requires Enabled(s, Wakeup(t, Zero)) && LimitNow(s, side) && MayRelieve(s.threads[t], side)
    ensures var s' := WakeStep(s, t, Zero);
            LimitNow(s', side) && MayRelieve(s'.threads[t], side) && ToCommit(s'.threads[t].pc) < ToCommit(s.threads[t].pc)
  {
  }

  lemma RunNearsCommit(s: State, t: nat, side: Side)
    requires Core(s) && Enabled(s, Run(t)) && !s.threads[t].pc.Resize?
    requires LimitNow(s, side) && MayRelieve(s.threads[t], side)
    ensures var s' := RunStep(s, t);
            && t < |s'.threads| && LimitNow(s', side) && MayRelieve(s'.threads[t], side)
            && ToCommit(s'.threads[t].pc) < ToCommit(s.threads[t].pc)
  {
    assert LockedBy(s, t);
    RunLeavesStable(s, t);
    RunFollows(s, t);
    if MovesLock(s.threads[t].pc) {
      LockStepNearsCommit(s, t, side);
    } else {
      WorkStepNearsCommit(s, t, side);
    }
  }

  /** A step of another thread leaves a thread that is not waiting alone, and uses up effort. */
  lemma OthersStep(s: State, l: Label, t: nat)
    requires Core(s) && Enabled(s, l) && (l.Run? || l.Notify?)
    requires t < |s.threads| && l.tid != t && !s.threads[t].pc.Waiting?
    ensures |Step(s, l).threads| == |s.threads| && Step(s, l).threads[t] == s.threads[t]
    ensures Total(Step(s, l).threads, Effort) < Total(s.threads, Effort)
  {
    assert LockedBy(s, l.tid);
    if l.Run? {
      RunFollows(s, l.tid);
      RunSpends(s, l.tid);
    } else {
      NotifySpends(s, l.tid, l.woken);
    }
  }

  /** No relief by a step that is not a commit. */
  lemma OnlyCommitsRelieve(s: State, l: Label, side: Side)
    requires Core(s) && Enabled(s, l) && LimitNow(s, side) && !(l.Run? && s.threads[l.tid].pc.Resize?)
    ensures LimitNow(Step(s, l), side)
  {
    if l.Run? {
      RunLeavesStable(s, l.tid);
    }
  }

  /** The call is on its way to its wait, or is about to find that it must wait. */
  predicate AboutToWait(th: Thread, side: Side) {
    (th.pc.Test? || th.pc.UnlockToWait? || th.pc.WantWait?) && th.op.Blocks() && WaitSide(th.op) == side
  }

  lemma StillAboutToWait(s: State, l: Label, w: nat, side: Side)
    requires Core(s) && Enabled(s, l) && LimitNow(s, side) && w < |s.threads| && AboutToWait(s.threads[w], side)
    requires l.tid == w ==> l == Run(w) && HoldsLock(s.threads[w].pc)
    requires !l.Invoke?
    ensures |Step(s, l).threads| == |s.threads| && AboutToWait(Step(s, l).threads[w], side)
  {
    assert LockedBy(s, l.tid) && LockedBy(s, w);
    if l.Run? {
      RunFollows(s, l.tid);
    }
    if l.tid == w {
      assert s.ring == s.stable;
    }
  }

  /** A commit leaves everybody else's positions alone, and nobody else holds the write lock. */
  lemma CommitFindsWaiter(s: State, u: nat, w: nat, side: Side)
    requires Core(s) && Enabled(s, Run(u)) && s.threads[u].pc.Resize?
    requires w < |s.threads| && u != w && AboutToWait(s.threads[w], side)
    ensures w < |RunStep(s, u).threads| && RunStep(s, u).threads[w] == s.threads[w]
    ensures s.threads[w].pc.WantWait?
  {
    assert LockedBy(s, u) && LockedBy(s, w);
    RunFollows(s, u);
  }

  ghost predicate WaiterStands(s: State, waiter: Option<nat>, side: Side) {
    waiter.Some? ==> waiter.value < |s.threads| && AboutToWait(s.threads[waiter.value], side)
  }

  /** Still at the limit, with the call of thread t nearer to its commit, or less left to do. */
  ghost predicate Nearer(s: State, s': State, t: nat, side: Side) {
    && t < |s.threads| == |s'.threads| && LimitNow(s', side) && MayRelieve(s'.threads[t], side)
    && (ToCommit(s'.threads[t].pc) < ToCommit(s.threads[t].pc)
        || (s'.threads[t].pc == s.threads[t].pc && Total(s'.threads, Effort) < Total(s.threads, Effort)))
  }

  ghost predicate Relieved(s': State, waiter: Option<nat>, side: Side) {
    && !LimitNow(s', side) && WaiterStands(s', waiter, side)
    && (waiter.Some? ==> s'.threads[waiter.value].pc.WantWait?)
  }

  lemma CommitRelieves(s: State, u: nat, waiter: Option<nat>, side: Side)
    requires Core(s) && Enabled(s, Run(u)) && s.threads[u].pc.Resize?
    requires LimitNow(s, side) && WaiterStands(s, waiter, side)
    ensures Relieved(Step(s, Run(u)), waiter, side)
  {
    CommitLeavesLimit(s, u, side);
    if waiter.Some? {
      CommitFindsWaiter(s, u, waiter.value, side);
    }
  }

  lemma OtherNears(s: State, l: Label, t: nat, waiter: Option<nat>, side: Side)
    requires Core(s) && Enabled(s, l) && !(l.Run? && s.threads[l.tid].pc.Resize?)
    requires t < |s.threads| && LimitNow(s, side) && MayRelieve(s.threads[t], side) && WaiterStands(s, waiter, side)
    requires l == Wakeup(t, Zero) || ((l.Run? || l.Notify?) && !s.threads[t].pc.Waiting?)
    requires l.tid == t || HoldsLock(s.threads[l.tid].pc)
    ensures Nearer(s, Step(s, l), t, side) && WaiterStands(Step(s, l), waiter, side)
  {
    OnlyCommitsRelieve(s, l, side);
    if waiter.Some? {
      StillAboutToWait(s, l, waiter.value, side);
    }
    if l.Wakeup? {
      WakeNearsCommit(s, t, side);
    } else if l.tid == t {
      RunNearsCommit(s, t, side);
    } else {
      OthersStep(s, l, t);
    }
  }

  /** A call that may still relieve the limit does so under some schedule, during which a call
      that is about to wait gets no further than to its wait. */
  lemma {:induction false} Relieve(s: State, t: nat, waiter: Option<nat>, side: Side) returns (ls: seq<Label>)
    requires Core(s) && t < |s.threads| && LimitNow(s, side) && MayRelieve(s.threads[t], side)
    requires WaiterStands(s, waiter, side)
    ensures IsRun(s, ls) && (forall l :: l in ls ==> !l.Invoke?)
    ensures Relieved(After(s, ls), waiter, side)
    decreases ToCommit(s.threads[t].pc), Total(s.threads, Effort)
  {
    var l := SomeoneCanMove(s, t);
    if s.threads[t].pc.Waiting? {
      l := Wakeup(t, Zero);
    }
    var s' := Step(s, l);
    if l.Run? && s.threads[l.tid].pc.Resize? {
      CommitRelieves(s, l.tid, waiter, side);
      OneStep(s, l);
      ls := [l];
    } else {
      OtherNears(s, l, t, waiter, side);
      CoreKept(s, l);
      var rest := Relieve(s', t, waiter, side);
      ls := [l] + rest;
      assert ls[1..] == rest;
    }
  }

  /** No continuation in which nobody begins a take (or a put) takes the queue off its limit. */
  ghost predicate LimitLasts(s: State, side: Side) {
    forall more :: IsRun(s, more) && (forall l :: l in more ==> !BeginsRelief(l, side)) ==> LimitNow(After(s, more), side)
  }

  /** A full queue remains full, as long as nobody begins a take, exactly when no call in
      progress may still take; dually for an empty queue and puts. */
  lemma LimitLastsExactly(threads: nat, capacity: nat, ls: seq<Label>, side: Side)
    requires IsRunOf(threads, capacity, ls)
    ensures var s := Reached(threads, capacity, ls);
            LimitNow(s, side) ==> (LimitLasts(s, side) <==> NobodyMayRelieve(s, side))
  {
    var s := Reached(threads, capacity, ls);
    ReachedCore(threads, capacity, ls);
    if LimitNow(s, side) {
      if NobodyMayRelieve(s, side) {
        forall more | IsRun(s, more) && (forall l :: l in more ==> !BeginsRelief(l, side))
          ensures LimitNow(After(s, more), side)
        {
          LimitKept(s, more, side);
        }
      } else {
        var t :| 0 <= t < |s.threads| && MayRelieve(s.threads[t], side);
        var more := Relieve(s, t, None, side);
        assert forall l :: l in more ==> !BeginsRelief(l, side);
      }
    }
  }

  // What a timeout means.

  /** The wait has expired, and the call's next step reports the timeout. */
  predicate TimesOut(pc: PC) { pc == Decide(TimedOut) }

  /** On the way from dropping the lock to a timeout. */
  predicate Expiring(pc: PC) {
    match pc
    case WantWait => true
    case EnterWait => true
    case Waiting => true
    case Rewake(wake) => wake.TimedOut?
    case WaitUnlock(wake) => wake.TimedOut?
    case Decide(wake) => wake.TimedOut?
    case _ => false
  }

  function ToExpiry(pc: PC): nat {
    match pc
    case WantWait => 5
    case EnterWait => 4
    case Waiting => 3
    case Rewake(_) => 2
    case WaitUnlock(_) => 1
    case _ => 0
  }

  lemma RunNearsExpiry(s: State, w: nat)
    requires Enabled(s, Run(w)) && LockedBy(s, w)
    requires Expiring(s.threads[w].pc) && !TimesOut(s.threads[w].pc)
    ensures |RunStep(s, w).threads| == |s.threads| && Expiring(RunStep(s, w).threads[w].pc)
    ensures ToExpiry(RunStep(s, w).threads[w].pc) < ToExpiry(s.threads[w].pc)
  {
    RunFollows(s, w);
  }

  /** The wait of a call that has dropped the lock expires under some schedule. */
  lemma {:induction false} LetExpire(s: State, w: nat) returns (ls: seq<Label>)
    requires Core(s) && w < |s.threads| && Expiring(s.threads[w].pc)
    ensures IsRun(s, ls) && (forall l :: l in ls ==> !l.Invoke?)
    ensures w < |After(s, ls).threads| && TimesOut(After(s, ls).threads[w].pc)
    decreases ToExpiry(s.threads[w].pc), Total(s.threads, Effort)
  {
    if TimesOut(s.threads[w].pc) {
      return [];
    }
    var l := SomeoneCanMove(s, w);
    if s.threads[w].pc.Waiting? {
      l := Wakeup(w, TimedOut);
    } else if l.tid != w {
      OthersStep(s, l, w);
    } else {
      assert LockedBy(s, w);
      RunNearsExpiry(s, w);
    }
    CoreKept(s, l);
    var rest := LetExpire(Step(s, l), w);
    ls := [l] + rest;
    assert ls[1..] == rest;
  }

  lemma {:induction false} LogExtends(s: State, ls: seq<Label>)
    requires Core(s) && IsRun(s, ls)
    ensures s.log <= After(s, ls).log
    decreases |ls|
  {
    if ls != [] {
      StepGrowsLog(s, ls[0]);
      CoreKept(s, ls[0]);
      LogExtends(Step(s, ls[0]), ls[1..]);
    }
  }

  lemma {:induction false} CommitsSince(log: seq<Event>, i: nat, side: Side)
    requires i <= |log|
    ensures Commits(log[..i], side) <= Commits(log, side)
    ensures Commits(log[..i], side) == Commits(log, side) ==> NoRelief(log, i, |log|, side)
    decreases |log|
  {
    if i == |log| {
      assert log[..i] == log;
    } else {
      var init := log[..|log| - 1];
      CommitsSince(init, i, side);
      assert init[..i] == log[..i];
      if Commits(log[..i], side) == Commits(log, side) {
        forall k | i <= k < |log| ensures !Relieves(log[k], side) {
          assert k < |init| ==> log[k] == init[k];
        }
      }
    }
  }

  /** Whether a state's queue is at the limit can be read off any later history. */
  lemma LimitInHistory(s: State, log: seq<Event>, side: Side)
    requires Core(s) && s.log <= log
    ensures LimitAt(log, |s.log|, side, s.stable.Capacity()) <==> LimitNow(s, side)
  {
    assert log[..|s.log|] == s.log;
  }

  /** Nobody begins a take (or put), and the call of thread t is still the same. */
  ghost predicate Undisturbed(ls: seq<Label>, t: nat, side: Side) {
    forall l :: l in ls ==> !BeginsRelief(l, side) && !(l.Invoke? && l.tid == t)
  }

  /** Under every schedule in which nobody begins a take (or put): at the moment at which the
      call of thread t times out, the queue has remained full (or empty) since now. */
  ghost predicate TimeoutIsTruthful(s: State, t: nat, side: Side) {
    forall more :: IsRun(s, more) && Undisturbed(more, t, side) ==>
      var s' := After(s, more);
      t < |s'.threads| && TimesOut(s'.threads[t].pc) ==>
        RemainsAtLimit(s'.log, |s.log|, |s'.log|, side, s.stable.Capacity())
  }

  lemma TimeoutFindsLimit(s: State, more: seq<Label>, side: Side)
    requires Core(s) && IsRun(s, more) && LimitNow(s, side) && NobodyMayRelieve(s, side)
    requires forall l :: l in more ==> !BeginsRelief(l, side)
    ensures var log := After(s, more).log;
            RemainsAtLimit(log, |s.log|, |log|, side, s.stable.Capacity())
  {
    var log := After(s, more).log;
    CoreAfter(s, more);
    LogExtends(s, more);
    LimitKept(s, more, side);
    LimitInHistory(s, log, side);
    assert log[..|s.log|] == s.log;
    CommitsSince(log, |s.log|, side);
    LimitRemains(log, |s.log|, |log|, side, s.stable.Capacity());
  }

  /** A call about to wait can time out after the limit was relieved. */
  lemma TimeoutAfterRelief(s: State, t: nat, u: nat, side: Side) returns (more: seq<Label>)
    requires Core(s) && t < |s.threads| && AboutToWait(s.threads[t], side)
    requires u < |s.threads| && LimitNow(s, side) && MayRelieve(s.threads[u], side)
    ensures IsRun(s, more) && (forall l :: l in more ==> !l.Invoke?)
    ensures var s' := After(s, more);
            && t < |s'.threads| && TimesOut(s'.threads[t].pc)
            && !RemainsAtLimit(s'.log, |s.log|, |s'.log|, side, s.stable.Capacity())
  {
    var ls1 := Relieve(s, u, Some(t), side);
    var s1 := After(s, ls1);
    CoreAfter(s, ls1);
    LogExtends(s, ls1);
    var ls2 := LetExpire(s1, t);
    var s2 := After(s1, ls2);
    LogExtends(s1, ls2);
    RunConcat(s, ls1, s1, ls2, s2);
    more := ls1 + ls2;
    LimitInHistory(s1, s2.log, side);
    assert !LimitAt(s2.log, |s1.log|, side, s.stable.Capacity());
  }

  /** At the test that sends an add (or pop) to wait: while nobody begins a take (or put), its
      timeout is sure to mean that the queue remained full (or empty) up to the timeout exactly
      when no call in progress may still take (or put). */
  lemma TimeoutExactness(threads: nat, capacity: nat, ls: seq<Label>, t: nat)
    requires IsRunOf(threads, capacity, ls) && t < threads
    ensures var s := Reached(threads, capacity, ls);
            |s.threads| == threads &&
            var th := s.threads[t];
            th.pc.Test? && th.op.Blocks() && MustWait(s.ring, th.op) ==>
              && LimitNow(s, WaitSide(th.op))
              && (TimeoutIsTruthful(s, t, WaitSide(th.op)) <==> NobodyMayRelieve(s, WaitSide(th.op)))
  {
    var s := Reached(threads, capacity, ls);
    ReachedCore(threads, capacity, ls);
    assert LockedBy(s, t) && WellPlaced(s.threads[t]);
    var th, side := s.threads[t], WaitSide(s.threads[t].op);
    if th.pc.Test? && th.op.Blocks() && MustWait(s.ring, th.op) {
      if NobodyMayRelieve(s, side) {
        forall more | IsRun(s, more) && Undisturbed(more, t, side)
          ensures RemainsAtLimit(After(s, more).log, |s.log|, |After(s, more).log|, side, s.stable.Capacity())
        {
          TimeoutFindsLimit(s, more, side);
        }
      } else {
        var u :| 0 <= u < |s.threads| && MayRelieve(s.threads[u], side);
        var more := TimeoutAfterRelief(s, t, u, side);
        assert Undisturbed(more, t, side);
      }
    }
  }

  // The other direction: a queue that remains at its limit lets nobody through.

  /** Where a call can be that has found nothing but the limit. */
  predicate Stuck(pc: PC) {
    match pc
    case WantWrite => true
    case Test => true
    case UnlockToWait => true
    case WantWait => true
    case EnterWait => true
    case Waiting => true
    case Rewake(wake) => !wake.Failed?
    case WaitUnlock(wake) => !wake.Failed?
    case Decide(wake) => !wake.Failed?
    case Returned(outcome) => outcome == Code(ErrTimeout)
    case _ => false
  }

  predicate StuckCall(th: Thread, side: Side) { Stuck(th.pc) && th.op.Blocks() && WaitSide(th.op) == side }

  /** The wait of thread t ends with an error. */
  predicate FailsWait(l: Label, t: nat) { l == Wakeup(t, Failed) || l == RefuseWait(t) }

  ghost predicate WaitsProperly(ls: seq<Label>, t: nat) {
    forall l :: l in ls ==> !FailsWait(l, t) && !(l.Invoke? && l.tid == t)
  }

  lemma StuckRun(s: State, t: nat, side: Side)
    requires Core(s) && Enabled(s, Run(t)) && LimitNow(s, side) && StuckCall(s.threads[t], side)
    ensures |RunStep(s, t).threads| == |s.threads| && StuckCall(RunStep(s, t).threads[t], side)
  {
    assert LockedBy(s, t);
    RunFollows(s, t);
    if MovesLock(s.threads[t].pc) {
      StuckLock(s, t, side);
    } else {
      assert s.threads[t].pc.Test? ==> s.ring == s.stable;
    }
  }

  lemma StuckLock(s: State, t: nat, side: Side)
    requires Enabled(s, Run(t)) && MovesLock(s.threads[t].pc) && StuckCall(s.threads[t], side)
    ensures StuckCall(LockStep(s, t).threads[t], side)
  {
  }

  lemma StuckStep(s: State, l: Label, t: nat, side: Side)
    requires Core(s) && Enabled(s, l) && LimitNow(s, side)
    requires t < |s.threads| && StuckCall(s.threads[t], side)
    requires !FailsWait(l, t) && !(l.Invoke? && l.tid == t)
    ensures |Step(s, l).threads| == |s.threads| && StuckCall(Step(s, l).threads[t], side)
  {
    if l.tid != t {
      OthersStand(s, l, t);
    } else if l.Run? {
      StuckRun(s, t, side);
    }
  }

  lemma {:induction false} StuckAfter(s: State, ls: seq<Label>, t: nat, side: Side)
    requires Core(s) && IsRun(s, ls) && t < |s.threads| && StuckCall(s.threads[t], side) && WaitsProperly(ls, t)
    requires RemainsAtLimit(After(s, ls).log, |s.log|, |After(s, ls).log|, side, s.stable.Capacity())
    ensures |After(s, ls).threads| == |s.threads| && StuckCall(After(s, ls).threads[t], side)
    decreases |ls|
  {
    if ls != [] {
      var s1, log := Step(s, ls[0]), After(s, ls).log;
      LogExtends(s, ls);
      assert LimitAt(log, |s.log|, side, s.stable.Capacity());
      LimitInHistory(s, log, side);
      StuckStep(s, ls[0], t, side);
      CoreKept(s, ls[0]);
      StepGrowsLog(s, ls[0]);
      StuckAfter(s1, ls[1..], t, side);
    }
  }

  /** As documented: an add times out if the queue remains full, a pop if it remains empty. From
      any point of the call on, while the queue remains at the limit and none of the call's own
      waits fails, the call takes no effect and returns nothing but TIMEOUT; and where no
      forced step is left it has returned TIMEOUT. */
  lemma TimesOutAtLimit(threads: nat, capacity: nat, ls: seq<Label>, more: seq<Label>, t: nat)
    requires IsRunOf(threads, capacity, ls) && t < threads && IsRun(Reached(threads, capacity, ls), more)
    ensures var s, s' := Reached(threads, capacity, ls), After(Reached(threads, capacity, ls), more);
            |s.threads| == |s'.threads| == threads &&
            var side := WaitSide(s.threads[t].op);
            StuckCall(s.threads[t], side) && WaitsProperly(more, t)
            && RemainsAtLimit(s'.log, |s.log|, |s'.log|, side, capacity) ==>
              && StuckCall(s'.threads[t], side)
              && (s'.threads[t].pc.Returned? ==> s'.threads[t].pc == Returned(Code(ErrTimeout)))
              && ((forall l :: Forced(l) ==> !Enabled(s', l)) ==> s'.threads[t].pc == Returned(Code(ErrTimeout)))
  {
    var s := Reached(threads, capacity, ls);
    ReachedCore(threads, capacity, ls);
    EveryScheduleReturns(threads, capacity, ls, more);
    var side := WaitSide(s.threads[t].op);
    if StuckCall(s.threads[t], side) && WaitsProperly(more, t)
       && RemainsAtLimit(After(s, more).log, |s.log|, |After(s, more).log|, side, capacity) {
      StuckAfter(s, more, t, side);
    }
  }
}
