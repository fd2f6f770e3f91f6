/** Counting arguments over all threads of the queue: how many retries signals can pay for,
    and how far every call still is from returning. */
module QueueProgress {
  import opened Portability
  import opened Ring
  import opened QueueModel
  import opened QueueInvariant

  datatype Gauge = Debt(side: Side) | Owed(side: Side) | Distance | Effort | Asleep(side: Side)

  /** Woken with result 0 and not yet counted as a retry. */
  predicate PendingRetry(th: Thread, side: Side) {
    (th.pc == Rewake(Zero) || th.pc == WaitUnlock(Zero) || th.pc == Decide(Zero)) && WaitSide(th.op) == side
  }

  /** Has put or taken an item and not yet signalled the other side. */
  predicate OwesSignal(th: Thread, side: Side) {
    (th.pc.UnlockToSignal? || th.pc.WantSignal? || th.pc.Signal?) && SignalSide(th.op) == side
  }

  /** Steps left before the call returns when every wait from now on expires. */
  function StepsLeft(pc: PC): nat {
    match pc
    case Idle => 0
    case Returned(_) => 0
    case SignalUnlock => 1
    case Signal => 2
    case WantSignal => 3
    case UnlockToSignal => 4
    case Resize => 5
    case Advance => 6
    case Store => 7
    case UnlockToFail => 1
    case Waiting => 4
    case EnterWait => 5
    case WantWait => 6
    case UnlockToWait => 7
    case Test => 8
    case WantWrite => 9
    case Decide(wake) => if wake.Zero? then 10 else 1
    case WaitUnlock(wake) => if wake.Zero? then 11 else 2
    case Rewake(wake) => if wake.Zero? then 12 else 3
    case ReadUnlock(_) => 1
    case Reading => 2
    case WantRead => 3
  }

  /** Steps a call may still take under any schedule, short of spurious wakeups: a signal pays
      for the second try of the call it wakes. */
  function EffortLeft(pc: PC): nat {
    match pc
    case Idle => 0
    case Returned(_) => 0
    case SignalUnlock => 1
    case Signal => 10
    case WantSignal => 11
    case UnlockToSignal => 12
    case Resize => 13
    case Advance => 14
    case Store => 15
    case UnlockToFail => 1
    case Waiting => 16
    case EnterWait => 17
    case WantWait => 18
    case UnlockToWait => 19
    case Test => 20
    case WantWrite => 21
    case Decide(wake) => if wake.Zero? then 22 else 1
    case WaitUnlock(wake) => if wake.Zero? then 23 else 2
    case Rewake(wake) => if wake.Zero? then 24 else 3
    case ReadUnlock(_) => 1
    case Reading => 2
    case WantRead => 3
  }

  function Weigh(th: Thread, g: Gauge): nat {
    match g
    case Debt(side) => if PendingRetry(th, side) || OwesSignal(th, side) then 1 else 0
    case Owed(side) => if OwesSignal(th, side) then 1 else 0
    case Distance => StepsLeft(th.pc)
    case Effort => EffortLeft(th.pc)
    case Asleep(side) => if IsWaiter(th, side) then 1 else 0
  }

  function Total(ts: seq<Thread>, g: Gauge): nat {
    if ts == [] then 0 else Weigh(ts[0], g) + Total(ts[1..], g)
  }

  lemma {:induction false} TotalUpdate(ts: seq<Thread>, t: nat, th: Thread, g: Gauge)
    requires t < |ts|
    ensures Total(ts[t := th], g) + Weigh(ts[t], g) == Total(ts, g) + Weigh(th, g)
  {
    if t == 0 {
      assert ts[0 := th][1..] == ts[1..];
    } else {
      assert ts[t := th][1..] == ts[1..][t - 1 := th];
      TotalUpdate(ts[1..], t - 1, th, g);
    }
  }

  /** Changing one thread changes the total by the difference of its weights. */
  lemma ThreadMoves(s: State, s': State, t: nat, g: Gauge)
    requires t < |s.threads| == |s'.threads| && s'.threads == s.threads[t := s'.threads[t]]
    ensures Total(s'.threads, g) + Weigh(s.threads[t], g) == Total(s.threads, g) + Weigh(s'.threads[t], g)
  {
    TotalUpdate(s.threads, t, s'.threads[t], g);
  }

  /** A signal moves the signalling thread and perhaps one waiter. */
  lemma NotifyMoves(s: State, t: nat, woken: Option<nat>, g: Gauge)
    requires Enabled(s, Notify(t, woken))
    ensures var s' := NotifyStep(s, t, woken);
            && |s'.threads| == |s.threads|
            && Total(s'.threads, g) + Weigh(s.threads[t], g)
               + (if woken.Some? then Weigh(s.threads[woken.value], g) else 0)
               == Total(s.threads, g) + Weigh(s'.threads[t], g)
                  + if woken.Some? then Weigh(s'.threads[woken.value], g) else 0
  {
    var th := s.threads[t].(pc := SignalUnlock);
    TotalUpdate(s.threads, t, th, g);
    if woken.Some? {
      var w := woken.value;
      TotalUpdate(s.threads[t := th], w, s.threads[w].(pc := Rewake(Zero)), g);
    }
  }

  // Wakeup credit.

  /** The puts (for consumers) or takes (for producers) that can pay for a wakeup. */
  function Commits(log: seq<Event>, side: Side): nat {
    if log == [] then 0 else
      Commits(log[..|log| - 1], side) + if Relieves(log[|log| - 1], side) then 1 else 0
  }

  ghost predicate CreditHolds(s: State, side: Side) {
    s.retries.At(side) + Total(s.threads, Debt(side)) <= Commits(s.log, side) + s.spurious.At(side)
  }

  lemma LogGains(log: seq<Event>, log': seq<Event>, e: Event, side: Side)
    requires log' == log + [e]
    ensures Commits(log', side) == Commits(log, side) + if Relieves(e, side) then 1 else 0
  {
    assert log'[..|log'| - 1] == log;
  }

  /** What thread t's next step adds to the commits of one side. */
  function Gain(th: Thread, side: Side): nat {
    if th.pc.Resize? && SignalSide(th.op) == side then 1 else 0
  }

  lemma CommitGains(s: State, t: nat, side: Side)
    requires t < |s.threads| && s.threads[t].pc.Resize?
    requires s.threads[t].op.Adds() || s.threads[t].op.Pops()
    ensures Commits(ChangeSize(s, t).log, side) == Commits(s.log, side) + Gain(s.threads[t], side)
  {
    var th, log' := s.threads[t], ChangeSize(s, t).log;
    if th.op.Adds() {
      LogGains(s.log, log', Pushed(t, ItemOf(th.op)), side);
    } else {
      LogGains(s.log, log', Popped(t, th.out), side);
    }
  }

  lemma TestGains(s: State, t: nat, side: Side)
    requires t < |s.threads| && s.threads[t].pc.Test?
    ensures Commits(TestSize(s, t).log, side) == Commits(s.log, side)
  {
    if MustWait(s.ring, s.threads[t].op) {
      LogGains(s.log, TestSize(s, t).log, Blocked(t, s.threads[t].op), side);
    }
  }

  lemma ReadGains(s: State, t: nat, side: Side)
    requires t < |s.threads| && s.threads[t].pc.Reading?
    ensures Commits(ReadSize(s, t).log, side) == Commits(s.log, side)
  {
    LogGains(s.log, ReadSize(s, t).log, Observed(t, s.ring.size), side);
  }

  lemma RunGains(s: State, t: nat, side: Side)
    requires Enabled(s, Run(t)) && WellPlaced(s.threads[t])
    ensures Commits(RunStep(s, t).log, side) == Commits(s.log, side) + Gain(s.threads[t], side)
  {
    if s.threads[t].pc.Test? {
      TestGains(s, t, side);
    } else if s.threads[t].pc.Resize? {
      CommitGains(s, t, side);
    } else if s.threads[t].pc.Reading? {
      ReadGains(s, t, side);
    } else {
      RunLeavesLog(s, t);
    }
  }

  /** What one step of thread t does to the books of one side, apart from the log. */
  ghost predicate Balances(s: State, s': State, t: nat, gain: nat, side: Side) {
    && t < |s.threads| == |s'.threads|
    && s'.retries.At(side) + Weigh(s'.threads[t], Debt(side)) + s.spurious.At(side)
       <= s.retries.At(side) + Weigh(s.threads[t], Debt(side)) + s'.spurious.At(side) + gain
  }

  lemma BalancedCredit(s: State, s': State, t: nat, gain: nat, side: Side)
    requires CreditHolds(s, side) && Balances(s, s', t, gain, side)
    requires s'.threads == s.threads[t := s'.threads[t]]
    requires Commits(s'.log, side) == Commits(s.log, side) + gain
    ensures CreditHolds(s', side)
  {
    ThreadMoves(s, s', t, Debt(side));
  }

  lemma LockBalances(s: State, t: nat, side: Side)
    requires Enabled(s, Run(t)) && MovesLock(s.threads[t].pc)
    ensures Balances(s, LockStep(s, t), t, 0, side)
  {
  }

  lemma WorkBalances(s: State, t: nat, side: Side)
    requires Enabled(s, Run(t)) && !MovesLock(s.threads[t].pc)
    ensures Balances(s, WorkStep(s, t), t, Gain(s.threads[t], side), side)
  {
  }

  lemma RunBalances(s: State, t: nat, side: Side)
    requires Enabled(s, Run(t))
    ensures Balances(s, RunStep(s, t), t, Gain(s.threads[t], side), side)
  {
    if MovesLock(s.threads[t].pc) {
      LockBalances(s, t, side);
    } else {
      WorkBalances(s, t, side);
    }
  }

  lemma RunCredit(s: State, t: nat, side: Side)
    requires Core(s) && CreditHolds(s, side) && Enabled(s, Run(t))
    ensures CreditHolds(RunStep(s, t), side)
  {
    assert WellPlaced(s.threads[t]) && LockedBy(s, t);
    RunBalances(s, t, side);
    RunGains(s, t, side);
    RunFollows(s, t);
    BalancedCredit(s, RunStep(s, t), t, Gain(s.threads[t], side), side);
  }

  lemma NotifyCredit(s: State, t: nat, woken: Option<nat>, side: Side)
    requires CreditHolds(s, side) && Enabled(s, Notify(t, woken))
    ensures CreditHolds(NotifyStep(s, t, woken), side)
  {
    NotifyMoves(s, t, woken, Debt(side));
  }

  lemma BeginCredit(s: State, t: nat, op: Op, nullQueue: bool, side: Side)
    requires CreditHolds(s, side) && Enabled(s, Invoke(t, op, nullQueue))
    ensures CreditHolds(Begin(s, t, op, nullQueue), side)
  {
    BalancedCredit(s, Begin(s, t, op, nullQueue), t, 0, side);
  }

  lemma OtherCredit(s: State, l: Label, side: Side)
    requires CreditHolds(s, side) && Enabled(s, l) && !l.Run?
    ensures CreditHolds(Step(s, l), side)
  {
    match l
    case Invoke(t, op, nullQueue) => BeginCredit(s, t, op, nullQueue, side);
    case Wakeup(t, wake) => BalancedCredit(s, WakeStep(s, t, wake), t, 0, side);
    case RefuseWait(t) => BalancedCredit(s, Go(s, t, WaitUnlock(Failed)), t, 0, side);
    case Notify(t, woken) => NotifyCredit(s, t, woken, side);
  }

  lemma {:induction false} CreditAtStart(ts: seq<Thread>, side: Side)
    requires forall t :: 0 <= t < |ts| ==> ts[t].pc.Idle?
    ensures Total(ts, Debt(side)) == 0
  {
    if ts != [] {
      CreditAtStart(ts[1..], side);
    }
  }

  lemma {:induction false} CreditAfter(s: State, ls: seq<Label>, side: Side)
    requires Core(s) && CreditHolds(s, side) && IsRun(s, ls)
    ensures CreditHolds(After(s, ls), side)
    decreases |ls|
  {
    if ls == [] {
    } else {
      CoreKept(s, ls[0]);
      if ls[0].Run? {
        RunCredit(s, ls[0].tid, side);
      } else {
        OtherCredit(s, ls[0], side);
      }
      CreditAfter(Step(s, ls[0]), ls[1..], side);
    }
  }

  // Signals.

  /** Every put and take has been signalled, or is by a call still on its way to the signal. */
  ghost predicate SignalsPaid(s: State, side: Side) {
    s.signals.At(side) + Total(s.threads, Owed(side)) == Commits(s.log, side)
  }

  /** A step other than the signal leaves signals sent plus signals owed equal to commits. */
  ghost predicate Pays(s: State, s': State, t: nat, gain: nat, side: Side) {
    && t < |s.threads| == |s'.threads|
    && s'.signals == s.signals
    && Weigh(s'.threads[t], Owed(side)) == Weigh(s.threads[t], Owed(side)) + gain
  }

  lemma StillPaid(s: State, s': State, t: nat, gain: nat, side: Side)
    requires SignalsPaid(s, side) && Pays(s, s', t, gain, side)
    requires s'.threads == s.threads[t := s'.threads[t]]
    requires Commits(s'.log, side) == Commits(s.log, side) + gain
    ensures SignalsPaid(s', side)
  {
    ThreadMoves(s, s', t, Owed(side));
  }

  lemma LockPays(s: State, t: nat, side: Side)
    requires Enabled(s, Run(t)) && MovesLock(s.threads[t].pc)
    ensures Pays(s, LockStep(s, t), t, 0, side)
  {
  }

  lemma WorkPays(s: State, t: nat, side: Side)
    requires Enabled(s, Run(t)) && !MovesLock(s.threads[t].pc)
    ensures Pays(s, WorkStep(s, t), t, Gain(s.threads[t], side), side)
  {
  }

  lemma RunPays(s: State, t: nat, side: Side)
    requires Core(s) && SignalsPaid(s, side) && Enabled(s, Run(t))
    ensures SignalsPaid(RunStep(s, t), side)
  {
    assert WellPlaced(s.threads[t]) && LockedBy(s, t);
    if MovesLock(s.threads[t].pc) {
      LockPays(s, t, side);
    } else {
      WorkPays(s, t, side);
    }
    RunGains(s, t, side);
    RunFollows(s, t);
    StillPaid(s, RunStep(s, t), t, Gain(s.threads[t], side), side);
  }

  lemma NotifyPays(s: State, t: nat, woken: Option<nat>, side: Side)
    requires SignalsPaid(s, side) && Enabled(s, Notify(t, woken))
    ensures SignalsPaid(NotifyStep(s, t, woken), side)
  {
    NotifyMoves(s, t, woken, Owed(side));
  }

  lemma BeginPays(s: State, t: nat, op: Op, nullQueue: bool, side: Side)
    requires SignalsPaid(s, side) && Enabled(s, Invoke(t, op, nullQueue))
    ensures SignalsPaid(Begin(s, t, op, nullQueue), side)
  {
    StillPaid(s, Begin(s, t, op, nullQueue), t, 0, side);
  }

  lemma OtherPays(s: State, l: Label, side: Side)
    requires SignalsPaid(s, side) && Enabled(s, l) && !l.Run?
    ensures SignalsPaid(Step(s, l), side)
  {
    match l
    case Invoke(t, op, nullQueue) => BeginPays(s, t, op, nullQueue, side);
    case Wakeup(t, wake) => StillPaid(s, WakeStep(s, t, wake), t, 0, side);
    case RefuseWait(t) => StillPaid(s, Go(s, t, WaitUnlock(Failed)), t, 0, side);
    case Notify(t, woken) => NotifyPays(s, t, woken, side);
  }

  lemma {:induction false} OwedAtRest(ts: seq<Thread>, side: Side)
    requires forall t :: 0 <= t < |ts| ==> Resting(ts[t].pc)
    ensures Total(ts, Owed(side)) == 0
  {
    if ts != [] {
      OwedAtRest(ts[1..], side);
    }
  }

  lemma {:induction false} PaidAfter(s: State, ls: seq<Label>, side: Side)
    requires Core(s) && SignalsPaid(s, side) && IsRun(s, ls)
    ensures SignalsPaid(After(s, ls), side)
    decreases |ls|
  {
    if ls == [] {
    } else {
      CoreKept(s, ls[0]);
      if ls[0].Run? {
        RunPays(s, ls[0].tid, side);
      } else {
        OtherPays(s, ls[0], side);
      }
      PaidAfter(Step(s, ls[0]), ls[1..], side);
    }
  }

  // The tallies are what has happened.

  function Tallied(s: State, kind: Kind, side: Side): nat {
    match kind
    case Retry => s.retries.At(side)
    case SpuriousWakeup => s.spurious.At(side)
    case SignalSent => s.signals.At(side)
  }

  lemma LockTallies(s: State, t: nat, kind: Kind, side: Side)
    requires Enabled(s, Run(t)) && MovesLock(s.threads[t].pc)
    ensures Tallied(LockStep(s, t), kind, side) == Tallied(s, kind, side)
    ensures t < |LockStep(s, t).threads| && !LockStep(s, t).threads[t].pc.WantWrite?
  {
  }

  lemma WorkTallies(s: State, t: nat, kind: Kind, side: Side)
    requires Enabled(s, Run(t)) && !MovesLock(s.threads[t].pc)
    ensures t < |WorkStep(s, t).threads|
    ensures Tallied(WorkStep(s, t), kind, side) == Tallied(s, kind, side) +
            if kind.Retry? && WorkStep(s, t).threads[t].pc.WantWrite? && WaitSide(s.threads[t].op) == side then 1 else 0
  {
  }

  lemma OtherTallies(s: State, l: Label, kind: Kind, side: Side)
    requires Enabled(s, l) && !l.Run?
    ensures Tallied(Step(s, l), kind, side) == Tallied(s, kind, side) + if Happens(s, l, kind, side) then 1 else 0
  {
  }

  lemma StepTallies(s: State, l: Label, kind: Kind, side: Side)
    requires Enabled(s, l)
    ensures Tallied(Step(s, l), kind, side) == Tallied(s, kind, side) + if Happens(s, l, kind, side) then 1 else 0
  {
    if !l.Run? {
      OtherTallies(s, l, kind, side);
    } else if MovesLock(s.threads[l.tid].pc) {
      LockTallies(s, l.tid, kind, side);
    } else {
      WorkTallies(s, l.tid, kind, side);
    }
  }

  lemma {:induction false} TalliesCount(s: State, ls: seq<Label>, kind: Kind, side: Side)
    requires IsRun(s, ls)
    ensures Tallied(After(s, ls), kind, side) == Tallied(s, kind, side) + HowOften(s, ls, kind, side)
    decreases |ls|
  {
    if ls != [] {
      StepTallies(s, ls[0], kind, side);
      TalliesCount(Step(s, ls[0]), ls[1..], kind, side);
    }
  }

  // Progress.

  predicate HoldsLock(pc: PC) { HoldsWrite(pc) || HoldsRead(pc) || HoldsMutex(pc) }

  /** The thread that can certainly move while thread t cannot: the one holding the lock. */
  lemma SomeoneCanMove(s: State, t: nat) returns (l: Label)
    requires Core(s) && t < |s.threads| && !Resting(s.threads[t].pc)
    ensures !l.Invoke? && Enabled(s, l)
    ensures l.Run? || l.Notify? || (l == Wakeup(t, TimedOut) && s.threads[t].pc.Waiting?)
    ensures l.tid == t || HoldsLock(s.threads[l.tid].pc)
  {
    StableShaped(s);
    if s.writer.Some? {
      assert LockedBy(s, s.writer.value);
      return Run(s.writer.value);
    }
    if s.readers != {} {
      var r :| r in s.readers;
      assert LockedBy(s, r);
      return Run(r);
    }
    if s.mutex.Some? {
      assert LockedBy(s, s.mutex.value);
      l := MutexHolderMoves(s, s.mutex.value);
      return;
    }
    assert LockedBy(s, t);
    l := if s.threads[t].pc.Waiting? then Wakeup(t, TimedOut) else Run(t);
  }

  lemma MutexHolderMoves(s: State, t: nat) returns (l: Label)
    requires t < |s.threads| && Shaped(s.ring) && HoldsMutex(s.threads[t].pc)
    ensures !l.Invoke? && Enabled(s, l) && l.tid == t
    ensures l.Run? || l.Notify?
  {
    var th := s.threads[t];
    if th.pc.Signal? {
      if w :| 0 <= w < |s.threads| && IsWaiter(s.threads[w], SignalSide(th.op)) {
        l := Notify(t, Some(w));
      } else {
        l := Notify(t, None);
      }
    } else {
      l := Run(t);
    }
  }

  /** Once no thread waits, every enabled step of a running call brings its return closer. */
  lemma StepGetsCloser(s: State, l: Label)
    requires Core(s) && Enabled(s, l) && (l.Run? || l.Notify?)
    requires forall t :: 0 <= t < |s.threads| ==> !s.threads[t].pc.Waiting?
    ensures Total(Step(s, l).threads, Distance) < Total(s.threads, Distance)
  {
    var t, s' := l.tid, Step(s, l);
    assert LockedBy(s, t);
    if l.Run? {
      RunFollows(s, t);
      RunGetsCloser(s, t);
    }
    assert s'.threads == s.threads[t := s'.threads[t]];
    TotalUpdate(s.threads, t, s'.threads[t], Distance);
  }

  lemma RunGetsCloser(s: State, t: nat)
    requires Enabled(s, Run(t))
    ensures StepsLeft(RunStep(s, t).threads[t].pc) < StepsLeft(s.threads[t].pc)
  {
    match s.threads[t].pc
    case Test =>
    case Store =>
    case Resize =>
    case UnlockToFail =>
    case Decide(wake) =>
    case WaitUnlock(wake) =>
    case Rewake(wake) =>
    case _ =>
  }

  lemma ExpiryGetsCloser(s: State, t: nat)
    requires Enabled(s, Wakeup(t, TimedOut))
    ensures Total(Step(s, Wakeup(t, TimedOut)).threads, Distance) < Total(s.threads, Distance)
  {
    TotalUpdate(s.threads, t, s.threads[t].(pc := Rewake(TimedOut)), Distance);
  }

  /** From every reachable state some continuation lets every call return. */
  lemma {:induction false} FinishFrom(s: State) returns (ls: seq<Label>)
    requires Core(s)
    ensures IsRun(s, ls)
    ensures forall l :: l in ls ==> !l.Invoke?
    ensures |After(s, ls).threads| == |s.threads|
    ensures forall t :: 0 <= t < |s.threads| ==> Resting(After(s, ls).threads[t].pc)
    ensures |ls| <= Total(s.threads, Distance)
    decreases Total(s.threads, Distance)
  {
    if t :| 0 <= t < |s.threads| && !Resting(s.threads[t].pc) {
      var l: Label;
      StableShaped(s);
      if w :| 0 <= w < |s.threads| && s.threads[w].pc.Waiting? {
        l := Wakeup(w, TimedOut);
        ExpiryGetsCloser(s, w);
      } else {
        l := SomeoneCanMove(s, t);
        StepGetsCloser(s, l);
      }
      CoreKept(s, l);
      var rest := FinishFrom(Step(s, l));
      ls := [l] + rest;
      assert ls[1..] == rest;
    } else {
      ls := [];
    }
  }

  // Every schedule comes to an end.

  /** Steps that put new work into the system: the start of a call and a spurious wakeup. */
  function Grant(l: Label): nat {
    if l.Invoke? then 22 else if l.Wakeup? && l.wake.Zero? then 9 else 0
  }

  function Grants(ls: seq<Label>): nat {
    if ls == [] then 0 else Grant(ls[0]) + Grants(ls[1..])
  }

  lemma LockSpends(s: State, t: nat)
    requires Enabled(s, Run(t)) && MovesLock(s.threads[t].pc)
    ensures EffortLeft(LockStep(s, t).threads[t].pc) < EffortLeft(s.threads[t].pc)
  {
  }

  lemma WorkSpends(s: State, t: nat)
    requires Enabled(s, Run(t)) && !MovesLock(s.threads[t].pc)
    ensures EffortLeft(WorkStep(s, t).threads[t].pc) < EffortLeft(s.threads[t].pc)
  {
  }

  lemma RunSpends(s: State, t: nat)
    requires Enabled(s, Run(t)) && LockedBy(s, t)
    ensures Total(RunStep(s, t).threads, Effort) < Total(s.threads, Effort)
  {
    if MovesLock(s.threads[t].pc) {
      LockSpends(s, t);
    } else {
      WorkSpends(s, t);
    }
    RunFollows(s, t);
    ThreadMoves(s, RunStep(s, t), t, Effort);
  }

  lemma BeginSpends(s: State, t: nat, op: Op, nullQueue: bool)
    requires Enabled(s, Invoke(t, op, nullQueue))
    ensures Total(Begin(s, t, op, nullQueue).threads, Effort) < Total(s.threads, Effort) + 22
  {
    ThreadMoves(s, Begin(s, t, op, nullQueue), t, Effort);
  }

  lemma WakeSpends(s: State, t: nat, wake: Wake)
    requires Enabled(s, Wakeup(t, wake))
    ensures Total(WakeStep(s, t, wake).threads, Effort) < Total(s.threads, Effort) + if wake.Zero? then 9 else 0
  {
    ThreadMoves(s, WakeStep(s, t, wake), t, Effort);
  }

  lemma RefuseSpends(s: State, t: nat)
    requires Enabled(s, RefuseWait(t))
    ensures Total(Go(s, t, WaitUnlock(Failed)).threads, Effort) < Total(s.threads, Effort)
  {
    ThreadMoves(s, Go(s, t, WaitUnlock(Failed)), t, Effort);
  }

  lemma NotifySpends(s: State, t: nat, woken: Option<nat>)
    requires Enabled(s, Notify(t, woken))
    ensures Total(NotifyStep(s, t, woken).threads, Effort) < Total(s.threads, Effort)
  {
    NotifyMoves(s, t, woken, Effort);
  }

  lemma OtherSpends(s: State, l: Label)
    requires Enabled(s, l) && !l.Run?
    ensures Total(Step(s, l).threads, Effort) < Total(s.threads, Effort) + Grant(l)
  {
    match l
    case Invoke(t, op, nullQueue) => BeginSpends(s, t, op, nullQueue);
    case Wakeup(t, wake) => WakeSpends(s, t, wake);
    case RefuseWait(t) => RefuseSpends(s, t);
    case Notify(t, woken) => NotifySpends(s, t, woken);
  }

  /** However the threads are scheduled, a run is no longer than the work put into it. */
  lemma {:induction false} EffortAfter(s: State, ls: seq<Label>)
    requires Core(s) && IsRun(s, ls)
    ensures |ls| + Total(After(s, ls).threads, Effort) <= Total(s.threads, Effort) + Grants(ls)
    decreases |ls|
  {
    if ls == [] {
    } else {
      CoreKept(s, ls[0]);
      if ls[0].Run? {
        RunSpends(s, ls[0].tid) by { assert LockedBy(s, ls[0].tid); }
      } else {
        OtherSpends(s, ls[0]);
      }
      EffortAfter(Step(s, ls[0]), ls[1..]);
    }
  }

  lemma {:induction false} EffortBounded(ts: seq<Thread>)
    ensures Total(ts, Effort) <= 24 * |ts|
    ensures (forall t :: 0 <= t < |ts| ==> Resting(ts[t].pc)) ==> Total(ts, Effort) == 0
  {
    if ts != [] {
      EffortBounded(ts[1..]);
    }
  }
}
