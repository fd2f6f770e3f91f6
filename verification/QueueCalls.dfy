/** What each call did, for every schedule: the events it left in the log between its start
    and now, and how its return value follows from them. */
module QueueCalls {
  import opened Portability
  import opened Ring
  import opened QueueModel
  import opened QueueInvariant

  lemma EventsOfAppend(log: seq<Event>, e: Event, start: nat, t: nat)
    requires start <= |log|
    ensures EventsOf((log + [e])[start..], t) == EventsOf(log[start..], t) + if e.tid == t then [e] else []
  {
    assert (log + [e])[start..] == log[start..] + [e];
    assert (log[start..] + [e])[..|log[start..] + [e]| - 1] == log[start..];
  }

  /** The events of thread t since its current call began. */
  function Mine(s: State, t: nat): seq<Event>
    requires t < |s.threads| && s.threads[t].start <= |s.log|
  {
    EventsOf(s.log[s.threads[t].start..], t)
  }

  predicate OnlyBlocked(mine: seq<Event>, t: nat, op: Op) {
    forall i :: 0 <= i < |mine| ==> mine[i] == Blocked(t, op)
  }

  /** Saw the queue full (or empty) as often as it retried, then took effect once. */
  predicate TookEffect(th: Thread, t: nat, mine: seq<Event>) {
    && mine != []
    && OnlyBlocked(mine[..|mine| - 1], t, th.op)
    && (th.op.Adds() ==> mine[|mine| - 1] == Pushed(t, th.op.item))
    && (th.op.Pops() ==> mine[|mine| - 1] == Popped(t, th.out) && th.out != Null)
    && (!th.op.Blocks() ==> |mine| == 1)
    && !th.op.Asks()
  }

  /** Saw the queue full (or empty) at least once, and had no effect. */
  predicate NeverTookEffect(th: Thread, t: nat, mine: seq<Event>) {
    && mine != []
    && OnlyBlocked(mine, t, th.op)
    && (th.op.Pops() ==> th.out == Null)
    && !th.op.Asks()
  }

  predicate Answered(th: Thread, t: nat, mine: seq<Event>, answer: Outcome, capacity: nat) {
    && th.op.Asks()
    && |mine| == 1
    && mine[0].Observed?
    && mine[0].tid == t
    && answer == Answer(th.op, mine[0].size, capacity)
  }

  /** How a finished call's result and queue_errno follow from its arguments and its events:
      ERR_NULL exactly for a NULL queue or argument. */
  predicate ReturnExplained(th: Thread, t: nat, mine: seq<Event>, outcome: Outcome, capacity: nat) {
    && (th.errno == ErrNull <==> th.Refused())
    && (th.Refused() ==> mine == [])
    && if th.op.Asks() then
         if th.Refused() then outcome == if th.op.AskSize? then Count(0) else Flag(false)
         else th.errno == Success && Answered(th, t, mine, outcome, capacity)
       else
         && outcome.Code?
         && th.errno == outcome.ret
         && match outcome.ret
            case Success => TookEffect(th, t, mine)
            case ErrTimeout => th.op.Blocks() && NeverTookEffect(th, t, mine)
            case ErrThread => th.op.Blocks() && NeverTookEffect(th, t, mine)
            case ErrFull => th.op.TryAdd? && mine == [SawFull(t)]
            case ErrEmpty => th.op.TryPop? && mine == [SawEmpty(t)] && th.out == Null
            case ErrNull => true
            case _ => false
  }

  predicate CallOk(th: Thread, t: nat, mine: seq<Event>, capacity: nat) {
    match th.pc
    case Idle => true
    case Returned(outcome) => ReturnExplained(th, t, mine, outcome, capacity)
    case WantRead => mine == [] && th.errno == Success
    case Reading => mine == [] && th.errno == Success
    case ReadUnlock(answer) => Answered(th, t, mine, answer, capacity) && th.errno == Success
    case UnlockToFail => NeverTookEffect(th, t, mine) && |mine| == 1
    case _ =>
      && th.errno == Success
      && (SignalPath(th.pc) ==> TookEffect(th, t, mine))
      && (WaitPath(th.pc) ==> NeverTookEffect(th, t, mine))
      && (th.pc.WantWrite? || th.pc.Test? || CommitPath(th.pc) ==>
            && OnlyBlocked(mine, t, th.op)
            && (!th.op.Blocks() ==> mine == [])
            && (th.op.Pops() && !th.pc.Advance? && !th.pc.Resize? ==> th.out == Null))
  }

  /** The log explains what thread t's call has done so far. */
  ghost predicate CallMatches(s: State, t: nat) {
    t < |s.threads| && s.threads[t].start <= |s.log| && CallOk(s.threads[t], t, Mine(s, t), s.stable.Capacity())
  }

  ghost predicate CallsMatch(s: State) {
    forall t :: 0 <= t < |s.threads| ==> CallMatches(s, t)
  }

  // A step adds at most one event to the log, and it is the stepping thread's own.

  ghost predicate LogGrowsBy(s: State, s': State, t: nat) {
    s'.log == s.log || (|s'.log| == |s.log| + 1 && s'.log == s.log + [s'.log[|s.log|]] && s'.log[|s.log|].tid == t)
  }

  lemma RunGrowsLog(s: State, t: nat)
    requires Enabled(s, Run(t))
    ensures LogGrowsBy(s, RunStep(s, t), t)
  {
    if !s.threads[t].pc.Test? && !s.threads[t].pc.Resize? && !s.threads[t].pc.Reading? {
      RunLeavesLog(s, t);
    }
  }

  lemma OtherLeavesLog(s: State, l: Label)
    requires Enabled(s, l) && !l.Run?
    ensures Step(s, l).log == s.log
  {
  }

  lemma StepGrowsLog(s: State, l: Label)
    requires Enabled(s, l)
    ensures LogGrowsBy(s, Step(s, l), l.tid)
  {
    if l.Run? {
      RunGrowsLog(s, l.tid);
    } else {
      OtherLeavesLog(s, l);
    }
  }

  lemma OthersUntouched(s: State, s': State, t: nat, u: nat)
    requires LogGrowsBy(s, s', t) && u != t
    requires u < |s.threads| == |s'.threads|
    requires s.threads[u].start <= |s.log| && s'.threads[u].start == s.threads[u].start
    ensures Mine(s', u) == Mine(s, u)
  {
    if s'.log != s.log {
      EventsOfAppend(s.log, s'.log[|s.log|], s.threads[u].start, u);
    }
  }

  lemma OwnEvent(s: State, s': State, t: nat, e: Event)
    requires t < |s.threads| && s.threads[t].start <= |s.log| && e.tid == t
    requires t < |s'.threads| && s'.threads[t].start == s.threads[t].start && s'.log == s.log + [e]
    ensures Mine(s', t) == Mine(s, t) + [e]
  {
    EventsOfAppend(s.log, e, s.threads[t].start, t);
  }

  lemma RunCallOk(s: State, t: nat)
    requires Core(s) && CallMatches(s, t) && Enabled(s, Run(t))
    ensures CallMatches(RunStep(s, t), t)
    ensures RunStep(s, t).threads[t].start == s.threads[t].start
  {
    assert WellPlaced(s.threads[t]) && LockedBy(s, t);
    if s.threads[t].pc.Test? {
      TestCallOk(s, t);
    } else if s.threads[t].pc.Resize? {
      CommitCallOk(s, t);
    } else if s.threads[t].pc.Reading? {
      ReadCallOk(s, t);
    } else {
      QuietCallOk(s, t);
    }
  }

  lemma TestCallOk(s: State, t: nat)
    requires Core(s) && CallMatches(s, t) && s.threads[t].pc.Test?
    ensures CallMatches(TestSize(s, t), t) && TestSize(s, t).threads[t].start == s.threads[t].start
  {
    var th, s', mine := s.threads[t], TestSize(s, t), Mine(s, t);
    assert WellPlaced(th);
    if MustWait(s.ring, th.op) {
      OwnEvent(s, s', t, Blocked(t, th.op));
      assert OnlyBlocked(mine + [Blocked(t, th.op)], t, th.op);
    } else {
      assert Mine(s', t) == mine;
    }
  }

  lemma EffectTaken(th: Thread, t: nat, mine: seq<Event>, e: Event)
    requires !th.op.Asks() && OnlyBlocked(mine, t, th.op) && (!th.op.Blocks() ==> mine == [])
    requires th.op.Adds() ==> e == Pushed(t, th.op.item)
    requires th.op.Pops() ==> e == Popped(t, th.out) && th.out != Null
    ensures TookEffect(th, t, mine + [e])
  {
    assert (mine + [e])[..|mine + [e]| - 1] == mine;
  }

  lemma CommitCallOk(s: State, t: nat)
    requires Core(s) && CallMatches(s, t) && s.threads[t].pc.Resize?
    ensures CallMatches(ChangeSize(s, t), t) && ChangeSize(s, t).threads[t].start == s.threads[t].start
  {
    var s' := ChangeSize(s, t);
    CommitMeaning(s, t);
    if s.threads[t].op.Adds() {
      CommitTakesEffect(s, s', t, Pushed(t, s.threads[t].op.item));
    } else {
      CommitTakesEffect(s, s', t, Popped(t, s.threads[t].out));
    }
  }

  lemma CommitOk(th: Thread, t: nat, mine: seq<Event>, e: Event, capacity: nat, capacity': nat)
    requires CallOk(th, t, mine, capacity) && th.pc.Resize? && !th.op.Asks()
    requires th.op.Adds() ==> e == Pushed(t, th.op.item)
    requires th.op.Pops() ==> e == Popped(t, th.out) && th.out != Null
    ensures CallOk(th.(pc := UnlockToSignal), t, mine + [e], capacity')
  {
    EffectTaken(th.(pc := UnlockToSignal), t, mine, e);
  }

  lemma CommitTakesEffect(s: State, s': State, t: nat, e: Event)
    requires CallMatches(s, t) && s.threads[t].pc.Resize? && !s.threads[t].op.Asks()
    requires t < |s'.threads| && s'.threads[t] == s.threads[t].(pc := UnlockToSignal)
    requires s'.log == s.log + [e]
    requires s.threads[t].op.Adds() ==> e == Pushed(t, s.threads[t].op.item)
    requires s.threads[t].op.Pops() ==> e == Popped(t, s.threads[t].out) && s.threads[t].out != Null
    ensures CallMatches(s', t)
  {
    OwnEvent(s, s', t, e);
    CommitOk(s.threads[t], t, Mine(s, t), e, s.stable.Capacity(), s'.stable.Capacity());
  }

  lemma ReadCallOk(s: State, t: nat)
    requires Core(s) && CallMatches(s, t) && s.threads[t].pc.Reading?
    ensures CallMatches(ReadSize(s, t), t) && ReadSize(s, t).threads[t].start == s.threads[t].start
  {
    assert WellPlaced(s.threads[t]);
    OwnEvent(s, ReadSize(s, t), t, Observed(t, s.ring.size));
  }

  predicate Returns(pc: PC) { pc.UnlockToFail? || pc.SignalUnlock? || pc.ReadUnlock? }

  lemma ReturnCallOk(s: State, t: nat, mine: seq<Event>, capacity: nat)
    requires Enabled(s, Run(t)) && WellPlaced(s.threads[t]) && Returns(s.threads[t].pc)
    requires CallOk(s.threads[t], t, mine, capacity)
    ensures CallOk(LockStep(s, t).threads[t], t, mine, capacity)
    ensures LockStep(s, t).threads[t].start == s.threads[t].start
  {
    if s.threads[t].pc.UnlockToFail? {
      assert mine == [Blocked(t, s.threads[t].op)];
    }
  }

  lemma LockCallOk(s: State, t: nat, mine: seq<Event>, capacity: nat)
    requires Enabled(s, Run(t)) && WellPlaced(s.threads[t])
    requires MovesLock(s.threads[t].pc) && !Returns(s.threads[t].pc)
    requires CallOk(s.threads[t], t, mine, capacity)
    ensures CallOk(LockStep(s, t).threads[t], t, mine, capacity)
    ensures LockStep(s, t).threads[t].start == s.threads[t].start
  {
    var th, th' := s.threads[t], LockStep(s, t).threads[t];
    assert th' == th.(pc := th'.pc);
    assert WaitPath(th.pc) ==> WaitPath(th'.pc);
    assert SignalPath(th.pc) ==> SignalPath(th'.pc);
  }

  lemma UpdateCallOk(s: State, t: nat, mine: seq<Event>, capacity: nat)
    requires Enabled(s, Run(t)) && (s.threads[t].pc.Store? || s.threads[t].pc.Advance?)
    requires CallOk(s.threads[t], t, mine, capacity)
    ensures CallOk(WorkStep(s, t).threads[t], t, mine, capacity)
    ensures WorkStep(s, t).threads[t].start == s.threads[t].start
  {
  }

  lemma DecideCallOk(s: State, t: nat, mine: seq<Event>, capacity: nat)
    requires Enabled(s, Run(t)) && WellPlaced(s.threads[t]) && s.threads[t].pc.Decide?
    requires CallOk(s.threads[t], t, mine, capacity)
    ensures CallOk(AfterWait(s, t, s.threads[t].pc.wake).threads[t], t, mine, capacity)
  {
  }

  /** Steps that neither look at the size nor change it. */
  lemma QuietCallOk(s: State, t: nat)
    requires Enabled(s, Run(t)) && WellPlaced(s.threads[t]) && CallMatches(s, t)
    requires !s.threads[t].pc.Test? && !s.threads[t].pc.Resize? && !s.threads[t].pc.Reading?
    ensures CallMatches(RunStep(s, t), t)
    ensures RunStep(s, t).threads[t].start == s.threads[t].start
  {
    var mine, capacity := Mine(s, t), s.stable.Capacity();
    RunLeavesLog(s, t);
    if Returns(s.threads[t].pc) {
      ReturnCallOk(s, t, mine, capacity);
    } else if MovesLock(s.threads[t].pc) {
      LockCallOk(s, t, mine, capacity);
    } else if s.threads[t].pc.Decide? {
      DecideCallOk(s, t, mine, capacity);
    } else {
      UpdateCallOk(s, t, mine, capacity);
    }
  }

  lemma BeginCallOk(s: State, t: nat, op: Op, nullQueue: bool)
    requires t < |s.threads|
    ensures CallMatches(Begin(s, t, op, nullQueue), t)
  {
    assert s.log[|s.log|..] == [];
  }

  /** Moving along the wait keeps what is known of a call that waits. */
  lemma WaitGoesOn(th: Thread, pc: PC, t: nat, mine: seq<Event>, capacity: nat)
    requires WaitPath(th.pc) && WaitPath(pc) && CallOk(th, t, mine, capacity)
    ensures CallOk(th.(pc := pc), t, mine, capacity)
  {
  }

  lemma SignalSent(th: Thread, t: nat, mine: seq<Event>, capacity: nat)
    requires th.pc.Signal? && CallOk(th, t, mine, capacity)
    ensures CallOk(th.(pc := SignalUnlock), t, mine, capacity)
  {
  }

  lemma OtherCallOk(s: State, l: Label)
    requires CallMatches(s, l.tid) && Enabled(s, l) && !l.Run?
    ensures CallMatches(Step(s, l), l.tid)
  {
    match l
    case Invoke(t, op, nullQueue) => BeginCallOk(s, t, op, nullQueue);
    case Wakeup(t, wake) => WakeCallOk(s, t, wake);
    case RefuseWait(t) => WaitGoesOn(s.threads[t], WaitUnlock(Failed), t, Mine(s, t), s.stable.Capacity());
    case Notify(t, woken) => NotifyCallOk(s, t, woken);
  }

  lemma WakeCallOk(s: State, t: nat, wake: Wake)
    requires CallMatches(s, t) && Enabled(s, Wakeup(t, wake))
    ensures CallMatches(WakeStep(s, t, wake), t)
  {
    WaitGoesOn(s.threads[t], Rewake(wake), t, Mine(s, t), s.stable.Capacity());
  }

  lemma NotifyCallOk(s: State, t: nat, woken: Option<nat>)
    requires CallMatches(s, t) && Enabled(s, Notify(t, woken))
    ensures CallMatches(NotifyStep(s, t, woken), t)
  {
    SignalSent(s.threads[t], t, Mine(s, t), s.stable.Capacity());
  }

  /** A call that is not stepping keeps its events; at most a signal moves it along its wait. */
  lemma BystanderOk(s: State, s': State, t: nat, u: nat)
    requires CallMatches(s, u) && LogGrowsBy(s, s', t) && u != t && |s'.threads| == |s.threads|
    requires s'.stable.Capacity() == s.stable.Capacity()
    requires s'.threads[u] == s.threads[u]
             || (s.threads[u].pc.Waiting? && s'.threads[u] == s.threads[u].(pc := Rewake(Zero)))
    ensures CallMatches(s', u)
  {
    OthersUntouched(s, s', t, u);
    if s'.threads[u] != s.threads[u] {
      WaitGoesOn(s.threads[u], Rewake(Zero), u, Mine(s, u), s.stable.Capacity());
    }
  }

  lemma OthersStand(s: State, l: Label, u: nat)
    requires Core(s) && Enabled(s, l) && u < |s.threads| && u != l.tid
    ensures |Step(s, l).threads| == |s.threads|
    ensures Step(s, l).threads[u] == s.threads[u]
            || (s.threads[u].pc.Waiting? && Step(s, l).threads[u] == s.threads[u].(pc := Rewake(Zero)))
  {
    if l.Run? {
      RunFollows(s, l.tid) by { assert LockedBy(s, l.tid); }
    }
  }

  lemma CallsKept(s: State, l: Label)
    requires Core(s) && CallsMatch(s) && Enabled(s, l)
    ensures CallsMatch(Step(s, l))
  {
    var s' := Step(s, l);
    CoreKept(s, l);
    forall u | 0 <= u < |s'.threads|
      ensures CallMatches(s', u)
    {
      assert CallMatches(s, u);
      if u != l.tid {
        StepGrowsLog(s, l);
        OthersStand(s, l, u);
        BystanderOk(s, s', l.tid, u);
      } else if l.Run? {
        RunCallOk(s, u);
      } else {
        OtherCallOk(s, l);
      }
    }
  }

  lemma {:induction false} CallsAfter(s: State, ls: seq<Label>)
    requires Core(s) && CallsMatch(s) && IsRun(s, ls)
    ensures CallsMatch(After(s, ls))
    decreases |ls|
  {
    if ls == [] {
    } else {
      CoreKept(s, ls[0]);
      CallsKept(s, ls[0]);
      CallsAfter(Step(s, ls[0]), ls[1..]);
    }
  }
}
