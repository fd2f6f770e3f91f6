/** What a signal does for the call it wakes, and how every call comes to report the end of its
    wait. */
module QueueSignals {
  import opened Portability
  import opened Ring
  import opened QueueModel
  import opened QueueInvariant
  import opened QueueCalls
  import opened QueueProgress
  import opened QueueTheorems
  import opened QueueLimits

  // One signal, one waiter.

  /** The number of calls that wait on one side. */
  ghost function Waiters(s: State, side: Side): nat { Total(s.threads, Asleep(side)) }

  lemma {:induction false} SomeoneAsleep(ts: seq<Thread>, side: Side)
    ensures Total(ts, Asleep(side)) > 0 <==> exists w :: 0 <= w < |ts| && IsWaiter(ts[w], side)
  {
    if ts != [] {
      SomeoneAsleep(ts[1..], side);
      if w :| 0 <= w < |ts[1..]| && IsWaiter(ts[1..][w], side) {
        assert IsWaiter(ts[w + 1], side);
      }
      if w :| 0 <= w < |ts| && IsWaiter(ts[w], side) {
        assert w > 0 ==> IsWaiter(ts[1..][w - 1], side);
      }
    }
  }

  /** A signal that is sent while the other side has waiters ends the wait of exactly one of them,
      with result 0; without waiters it is lost. Nobody else moves but the sender. */
  lemma SignalWakesOne(threads: nat, capacity: nat, ls: seq<Label>, t: nat, woken: Option<nat>)
    requires IsRunOf(threads, capacity, ls) && Enabled(Reached(threads, capacity, ls), Notify(t, woken))
    ensures var s := Reached(threads, capacity, ls);
            var s', op := Step(s, Notify(t, woken)), s.threads[t].op;
            var side := if op.Adds() then Consumer else Producer;
            && |s'.threads| == |s.threads|
            && (woken.Some? <==> Waiters(s, side) > 0)
            && Waiters(s', side) == Waiters(s, side) - (if woken.Some? then 1 else 0)
            && (woken.Some? ==>
                  && woken.value < |s.threads| && IsWaiter(s.threads[woken.value], side)
                  && s'.threads[woken.value] == s.threads[woken.value].(pc := Rewake(Zero)))
            && (forall u :: 0 <= u < |s.threads| && u != t && woken != Some(u) ==> s'.threads[u] == s.threads[u])
  {
    var s := Reached(threads, capacity, ls);
    var side := SignalSide(s.threads[t].op);
    NotifyMoves(s, t, woken, Asleep(side));
    SomeoneAsleep(s.threads, side);
  }

  // Under every schedule a woken call tries again, and succeeds if it finds no limit.

  /** Where a call can be that has been woken and has not found the limit since. */
  predicate Going(pc: PC) {
    match pc
    case Rewake(wake) => wake.Zero?
    case WaitUnlock(wake) => wake.Zero?
    case Decide(wake) => wake.Zero?
    case WantWrite => true
    case Test => true
    case Store => true
    case Advance => true
    case Resize => true
    case UnlockToSignal => true
    case WantSignal => true
    case Signal => true
    case SignalUnlock => true
    case Returned(outcome) => outcome == Code(Success)
    case _ => false
  }

  ghost predicate FindsNoLimit(log: seq<Event>, i: nat, t: nat, op: Op) {
    forall k :: i <= k < |log| ==> log[k] != Blocked(t, op)
  }

  lemma GoingLock(s: State, t: nat)
    requires Enabled(s, Run(t)) && MovesLock(s.threads[t].pc) && Going(s.threads[t].pc)
    ensures Going(LockStep(s, t).threads[t].pc) && LockStep(s, t).threads[t].op == s.threads[t].op
  {
  }

  lemma GoingWork(s: State, t: nat)
    requires Enabled(s, Run(t)) && !MovesLock(s.threads[t].pc) && Going(s.threads[t].pc)
    requires s.threads[t].pc.Test? ==> !MustWait(s.ring, s.threads[t].op)
    ensures Going(WorkStep(s, t).threads[t].pc) && WorkStep(s, t).threads[t].op == s.threads[t].op
  {
  }

  lemma GoingStep(s: State, l: Label, t: nat)
    requires Core(s) && Enabled(s, l) && t < |s.threads| && Going(s.threads[t].pc)
    requires !(l.Invoke? && l.tid == t)
    requires FindsNoLimit(Step(s, l).log, |s.log|, t, s.threads[t].op)
    ensures |Step(s, l).threads| == |s.threads|
    ensures Going(Step(s, l).threads[t].pc) && Step(s, l).threads[t].op == s.threads[t].op
  {
    if l.tid != t {
      OthersStand(s, l, t);
    } else if l.Run? {
      RunFollows(s, t) by { assert LockedBy(s, t); }
      if MovesLock(s.threads[t].pc) {
        GoingLock(s, t);
      } else {
        if s.threads[t].pc.Test? && MustWait(s.ring, s.threads[t].op) {
          assert Step(s, l).log[|s.log|] == Blocked(t, s.threads[t].op);
        }
        GoingWork(s, t);
      }
    }
  }

  lemma {:induction false} GoingAfter(s: State, ls: seq<Label>, t: nat)
    requires Core(s) && IsRun(s, ls) && t < |s.threads| && Going(s.threads[t].pc)
    requires forall l :: l in ls ==> !(l.Invoke? && l.tid == t)
    requires FindsNoLimit(After(s, ls).log, |s.log|, t, s.threads[t].op)
    ensures |After(s, ls).threads| == |s.threads|
    ensures Going(After(s, ls).threads[t].pc) && After(s, ls).threads[t].op == s.threads[t].op
    decreases |ls|
  {
    if ls != [] {
      var s1, log := Step(s, ls[0]), After(s, ls).log;
      CoreKept(s, ls[0]);
      StepGrowsLog(s, ls[0]);
      LogExtends(s1, ls[1..]);
      assert FindsNoLimit(s1.log, |s.log|, t, s.threads[t].op) by {
        forall k | |s.log| <= k < |s1.log| ensures s1.log[k] != Blocked(t, s.threads[t].op) {
          assert s1.log[k] == log[k];
        }
      }
      GoingStep(s, ls[0], t);
      GoingAfter(s1, ls[1..], t);
    }
  }

  /** A waiting call that is signalled tests again under every schedule: unless that test finds
      the limit once more, it takes effect once and returns nothing but SUCCESS; and where no
      forced step is left it has returned. */
  lemma SignalledTakesEffect(threads: nat, capacity: nat, ls: seq<Label>, u: nat, t: nat, more: seq<Label>)
    requires IsRunOf(threads, capacity, ls) && Enabled(Reached(threads, capacity, ls), Notify(u, Some(t)))
    requires IsRun(Step(Reached(threads, capacity, ls), Notify(u, Some(t))), more)
    requires forall l :: l in more ==> !(l.Invoke? && l.tid == t)
    ensures var s := Reached(threads, capacity, ls);
            var s' := After(Step(s, Notify(u, Some(t))), more);
            && t < |s.threads| == |s'.threads| && s'.threads[t].start <= |s'.log|
            && var th := s'.threads[t];
               FindsNoLimit(s'.log, |s.log|, t, s.threads[t].op) ==>
                 && th.op == s.threads[t].op && Going(th.pc)
                 && (th.pc.Returned? ==> th.pc == Returned(Code(Success)) && TookEffect(th, t, Mine(s', t)))
                 && ((forall l :: Forced(l) ==> !Enabled(s', l)) ==> th.pc.Returned?)
  {
    var s, l := Reached(threads, capacity, ls), Notify(u, Some(t));
    var s1 := Step(s, l);
    var s' := After(s1, more);
    ReachedCore(threads, capacity, ls);
    ReachedCalls(threads, capacity, ls);
    CoreKept(s, l);
    CallsKept(s, l);
    CoreAfter(s1, more);
    CallsAfter(s1, more);
    assert CallMatches(s', t);
    assert s1.log == s.log && s1.threads[t] == s.threads[t].(pc := Rewake(Zero));
    if FindsNoLimit(s'.log, |s.log|, t, s.threads[t].op) {
      GoingAfter(s1, more, t);
      if !s'.threads[t].pc.Returned? {
        var next := SomeoneCanMove(s', t);
        assert Forced(next);
      }
    }
  }

  // What ended a wait is what the call reports.

  /** How the last wait of thread t ended, if a label ended one. */
  function WaitEnd(l: Label, t: nat, last: Option<Wake>): Option<Wake> {
    match l
    case Wakeup(u, wake) => if u == t then Some(wake) else last
    case RefuseWait(u) => if u == t then Some(Failed) else last
    case Notify(_, woken) => if woken == Some(t) then Some(Zero) else last
    case _ => last
  }

  function LastWaitEnd(ls: seq<Label>, t: nat, last: Option<Wake>): Option<Wake>
    decreases |ls|
  {
    if ls == [] then last else LastWaitEnd(ls[1..], t, WaitEnd(ls[0], t, last))
  }

  predicate WaitReported(pc: PC, last: Option<Wake>) {
    match pc
    case Rewake(wake) => last == Some(wake)
    case WaitUnlock(wake) => last == Some(wake)
    case Decide(wake) => last == Some(wake)
    case Returned(outcome) =>
      && (outcome == Code(ErrTimeout) ==> last == Some(TimedOut))
      && (outcome == Code(ErrThread) ==> last == Some(Failed))
    case _ => true
  }

  lemma LockReports(s: State, t: nat, last: Option<Wake>)
    requires Enabled(s, Run(t)) && MovesLock(s.threads[t].pc) && WaitReported(s.threads[t].pc, last)
    requires s.threads[t].pc.ReadUnlock? ==> !s.threads[t].pc.answer.Code?
    ensures WaitReported(LockStep(s, t).threads[t].pc, last)
  {
  }

  lemma WorkReports(s: State, t: nat, last: Option<Wake>)
    requires Enabled(s, Run(t)) && !MovesLock(s.threads[t].pc) && WaitReported(s.threads[t].pc, last)
    ensures WaitReported(WorkStep(s, t).threads[t].pc, last)
  {
  }

  /** A status query that is about to return has an answer, not a return code. */
  lemma AnswerIsNoCode(s: State, t: nat)
    requires CallMatches(s, t) && s.threads[t].pc.ReadUnlock?
    ensures !s.threads[t].pc.answer.Code?
  {
  }

  lemma RunReports(s: State, t: nat, last: Option<Wake>)
    requires Core(s) && CallMatches(s, t) && Enabled(s, Run(t)) && WaitReported(s.threads[t].pc, last)
    ensures |RunStep(s, t).threads| == |s.threads| && WaitReported(RunStep(s, t).threads[t].pc, last)
  {
    RunFollows(s, t) by { assert LockedBy(s, t); }
    if MovesLock(s.threads[t].pc) {
      if s.threads[t].pc.ReadUnlock? {
        AnswerIsNoCode(s, t);
      }
      LockReports(s, t, last);
    } else {
      WorkReports(s, t, last);
    }
  }

  lemma OwnReports(s: State, l: Label, last: Option<Wake>)
    requires Enabled(s, l) && !l.Run? && WaitReported(s.threads[l.tid].pc, last)
    ensures |Step(s, l).threads| == |s.threads|
    ensures WaitReported(Step(s, l).threads[l.tid].pc, WaitEnd(l, l.tid, last))
  {
  }

  lemma StepReports(s: State, l: Label, t: nat, last: Option<Wake>)
    requires Core(s) && CallsMatch(s) && Enabled(s, l) && t < |s.threads| && WaitReported(s.threads[t].pc, last)
    ensures |Step(s, l).threads| == |s.threads|
    ensures WaitReported(Step(s, l).threads[t].pc, WaitEnd(l, t, last))
  {
    if l.tid != t {
      OtherWaitEnds(s, l, t);
    } else if l.Run? {
      assert CallMatches(s, t);
      RunReports(s, t, last);
    } else {
      OwnReports(s, l, last);
    }
  }

  /** Another thread's step ends the wait of thread t exactly when it is a signal to it. */
  lemma OtherWaitEnds(s: State, l: Label, t: nat)
    requires Core(s) && Enabled(s, l) && t < |s.threads| && l.tid != t
    ensures |Step(s, l).threads| == |s.threads|
    ensures Step(s, l).threads[t] ==
            if l.Notify? && l.woken == Some(t) then s.threads[t].(pc := Rewake(Zero)) else s.threads[t]
  {
    if l.Run? {
      RunFollows(s, l.tid) by { assert LockedBy(s, l.tid); }
    }
  }

  lemma {:induction false} ReportsAfter(s: State, ls: seq<Label>, t: nat, last: Option<Wake>)
    requires Core(s) && CallsMatch(s) && IsRun(s, ls)
    requires t < |s.threads| && WaitReported(s.threads[t].pc, last)
    ensures |After(s, ls).threads| == |s.threads|
    ensures WaitReported(After(s, ls).threads[t].pc, LastWaitEnd(ls, t, last))
    decreases |ls|
  {
    if ls != [] {
      CoreKept(s, ls[0]);
      CallsKept(s, ls[0]);
      StepReports(s, ls[0], t, last);
      ReportsAfter(Step(s, ls[0]), ls[1..], t, WaitEnd(ls[0], t, last));
    }
  }

  /** A call reports TIMEOUT only when its last wait expired, and a thread error only when its
      last wait failed; a wait ended by a signal is reported by neither. */
  lemma CallsReportTheirWait(threads: nat, capacity: nat, ls: seq<Label>, t: nat)
    requires IsRunOf(threads, capacity, ls) && t < threads
    ensures var s := Reached(threads, capacity, ls);
            && |s.threads| == threads
            && (s.threads[t].pc == Returned(Code(ErrTimeout)) ==> LastWaitEnd(ls, t, None) == Some(TimedOut))
            && (s.threads[t].pc == Returned(Code(ErrThread)) ==> LastWaitEnd(ls, t, None) == Some(Failed))
            && (s.threads[t].pc.Decide? ==> LastWaitEnd(ls, t, None) == Some(s.threads[t].pc.wake))
  {
    CoreAtStart(threads, capacity);
    ReportsAfter(Start(threads, capacity), ls, t, None);
  }
}
