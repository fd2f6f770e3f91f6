/** The bounded queue of src/generic_queue.c as a transition system: any number of threads,
    each running any sequence of calls, interleaved at every lock, unlock, wait, wakeup,
    signal and ring assignment of the C code. */
module QueueModel {
  import opened Portability
  import opened Ring

  datatype Ret =
    | Success | ErrTimeout | ErrThread | ErrNull | ErrMemory | ErrFull | ErrEmpty | ErrInvalid | ErrOverflow

  datatype Op =
    | Add(item: Ptr)
    | TryAdd(item: Ptr)
    | Pop(dest: bool)      // dest is false when the caller passes a NULL out-pointer
    | TryPop(dest: bool)
    | AskEmpty
    | AskFull
    | AskSize
  {
    predicate Adds() { Add? || TryAdd? }
    predicate Pops() { Pop? || TryPop? }
    predicate Asks() { AskEmpty? || AskFull? || AskSize? }
    predicate Blocks() { Add? || Pop? }

    /** The NULL checks on the arguments other than the queue itself. */
    predicate BadArgs() {
      if Adds() then item == Null else if Pops() then !dest else false
    }
  }

  /** What a call hands back: a return code, or the value of a status query. */
  datatype Outcome = Code(ret: Ret) | Flag(flag: bool) | Count(count: nat)

  /** The result of pthread_cond_timedwait: 0, ETIMEDOUT or any other error. */
  datatype Wake = Zero | TimedOut | Failed

  /** Where a thread stands. Line numbers are those of sc_generic_queue_add; pop, try_add and
      try_pop have the same points. */
  datatype PC =
    | Idle
    | WantWrite             // about to take the write lock (261, 287)
    | Test                  // holds it, about to compare size (263)
    | Store                 // about to store or load the slot (290)
    | Advance               // about to move tail or head (291)
    | Resize                // about to change size (292)
    | UnlockToSignal        // about to unlock after the update (294)
    | WantSignal            // about to take cond_mutex (297)
    | Signal                // about to signal (298)
    | SignalUnlock          // about to release cond_mutex (299)
    | UnlockToFail          // try_add, try_pop: about to unlock and fail (382)
    | UnlockToWait          // about to unlock because it must wait (265)
    | WantWait              // about to take cond_mutex (268)
    | EnterWait             // holds it, about to wait (273)
    | Waiting               // blocked in timedwait, cond_mutex released
    | Rewake(wake: Wake)    // woken, about to get cond_mutex back
    | WaitUnlock(wake: Wake)  // timedwait returned, about to release cond_mutex (274)
    | Decide(wake: Wake)    // about to look at the result (276-287)
    | WantRead              // status query: about to take the read lock (453)
    | Reading               // holds it, about to read size (454)
    | ReadUnlock(answer: Outcome)  // about to release it (455)
    | Returned(outcome: Outcome)

  datatype Event =
    | Pushed(tid: nat, item: Ptr)
    | Popped(tid: nat, item: Ptr)
    | SawFull(tid: nat)
    | SawEmpty(tid: nat)
    | Observed(tid: nat, size: nat)

  /** One thread: its call (and whether on a NULL queue), the thread-local queue_errno, the
      caller's out variable and the length the event log had when the call began. */
  datatype Thread = Thread(pc: PC, op: Op, nullQueue: bool, errno: Ret, out: Ptr, start: nat) {
    /** The call is refused before it touches the queue. */
    predicate Refused() { nullQueue || op.BadArgs() }
  }

  /** Producers wait for "not full", consumers for "not empty". */
  datatype Side = Producer | Consumer

  datatype Tally = Tally(producer: nat, consumer: nat) {
    function At(side: Side): nat { if side.Producer? then producer else consumer }

    function Bump(side: Side): Tally {
      if side.Producer? then this.(producer := producer + 1) else this.(consumer := consumer + 1)
    }
  }

  /** `ring` is the shared memory; `stable` is a history variable, the ring as it was when
      the last complete put or take finished. `log`, `retries`, `spurious` and
      `signals` are history. */
  datatype State = State(
    ring: Ring,
    stable: Ring,
    writer: Option<nat>,
    readers: set<nat>,
    mutex: Option<nat>,
    threads: seq<Thread>,
    log: seq<Event>,
    retries: Tally,
    spurious: Tally,
    signals: Tally
  )

  datatype Label =
    | Invoke(tid: nat, op: Op, nullQueue: bool)
    | Run(tid: nat)
    | Wakeup(tid: nat, wake: Wake)          // expiry, spurious wakeup or error while waiting
    | RefuseWait(tid: nat)                  // timedwait fails at once
    | Notify(tid: nat, woken: Option<nat>)  // pthread_cond_signal

  function Start(threads: nat, capacity: nat): State
    requires 0 < capacity <= MAX_CAPACITY
  {
    State(Empty(capacity), Empty(capacity), None, {}, None,
          seq(threads, i => Thread(Idle, AskSize, false, Success, Null, 0)),
          [], Tally(0, 0), Tally(0, 0), Tally(0, 0))
  }

  // Sides, and what makes a call wait.

  function WaitSide(op: Op): Side { if op.Adds() then Producer else Consumer }

  function SignalSide(op: Op): Side { if op.Adds() then Consumer else Producer }

  predicate MustWait(r: Ring, op: Op) {
    if op.Adds() then IsFull(r) else IsEmpty(r)
  }

  function ItemOf(op: Op): Ptr { if op.Adds() then op.item else Null }

  function Blocked(t: nat, op: Op): Event {
    if op.Adds() then SawFull(t) else SawEmpty(t)
  }

  /** The events that end what a side waits for: takes for producers, puts for consumers. */
  predicate Relieves(e: Event, side: Side) {
    if side.Producer? then e.Popped? else e.Pushed?
  }

  function Answer(op: Op, size: nat, capacity: nat): Outcome {
    match op
    case AskEmpty => Flag(size == 0)
    case AskFull => Flag(size == capacity)
    case _ => Count(size)
  }

  // Steps.

  predicate Resting(pc: PC) { pc.Idle? || pc.Returned? }

  predicate IsWaiter(th: Thread, side: Side) {
    th.pc.Waiting? && WaitSide(th.op) == side
  }

  predicate CanRun(s: State, t: nat)
    requires t < |s.threads|
  {
    match s.threads[t].pc
    case Idle => false
    case Returned(_) => false
    case Waiting => false
    case Signal => false
    case WantWrite => s.writer.None? && s.readers == {}
    case WantRead => s.writer.None?
    case WantSignal => s.mutex.None?
    case WantWait => s.mutex.None?
    case Rewake(_) => s.mutex.None?
    case _ => true
  }

  /** A step is enabled only if every slot it may touch is inside the buffer. */
  predicate Enabled(s: State, l: Label) {
    && l.tid < |s.threads|
    && Shaped(s.ring)
    && var th := s.threads[l.tid];
       match l
       case Invoke(_, _, _) => Resting(th.pc)
       case Run(t) => CanRun(s, t)
       case Wakeup(_, _) => th.pc.Waiting?
       case RefuseWait(_) => th.pc.EnterWait?
       case Notify(_, Some(w)) =>
         th.pc.Signal? && w < |s.threads| && IsWaiter(s.threads[w], SignalSide(th.op))
       case Notify(_, None) =>
         th.pc.Signal? && forall w :: 0 <= w < |s.threads| ==> !IsWaiter(s.threads[w], SignalSide(th.op))
  }

  function Set(s: State, t: nat, th: Thread): State
    requires t < |s.threads|
  {
    s.(threads := s.threads[t := th])
  }

  function Go(s: State, t: nat, pc: PC): State
    requires t < |s.threads|
  {
    Set(s, t, s.threads[t].(pc := pc))
  }

  function Fail(s: State, t: nat, ret: Ret): State
    requires t < |s.threads|
  {
    Set(s, t, s.threads[t].(pc := Returned(Code(ret)), errno := ret))
  }

  function Append(s: State, e: Event): State { s.(log := s.log + [e]) }

  /** A call begins: queue_errno is cleared, NULL arguments are refused, pops clear `*item`. */
  function Begin(s: State, t: nat, op: Op, nullQueue: bool): State
    requires t < |s.threads|
  {
    var caller := s.threads[t];
    var begun := caller.(op := op, nullQueue := nullQueue, start := |s.log|);
    var th :=
      if op.Asks() then
        if nullQueue then
          begun.(pc := Returned(if op.AskSize? then Count(0) else Flag(false)), errno := ErrNull)
        else
          begun.(pc := WantRead, errno := Success)
      else if begun.Refused() then
        begun.(pc := Returned(Code(ErrNull)), errno := ErrNull)
      else
        begun.(pc := WantWrite, errno := Success, out := if op.Pops() then Null else caller.out);
    Set(s, t, th)
  }

  /** The size comparison at the head of the loop (or the single test of the try_ calls). */
  function TestSize(s: State, t: nat): State
    requires t < |s.threads|
  {
    var th := s.threads[t];
    if MustWait(s.ring, th.op) then
      Go(Append(s, Blocked(t, th.op)), t, if th.op.Blocks() then UnlockToWait else UnlockToFail)
    else
      Go(s, t, Store)
  }

  function TouchSlot(s: State, t: nat): State
    requires t < |s.threads| && Shaped(s.ring)
  {
    var th := s.threads[t];
    if th.op.Adds() then
      Go(s.(ring := StoreSlot(s.ring, ItemOf(th.op))), t, Advance)
    else
      Set(s, t, th.(out := LoadSlot(s.ring), pc := Advance))
  }

  function MoveIndex(s: State, t: nat): State
    requires t < |s.threads| && Shaped(s.ring)
  {
    var adds := s.threads[t].op.Adds();
    Go(s.(ring := if adds then AdvanceTail(s.ring) else AdvanceHead(s.ring)), t, Resize)
  }

  function ChangeSize(s: State, t: nat): State
    requires t < |s.threads|
  {
    var th := s.threads[t];
    var ring := if th.op.Adds() then GrowSize(s.ring) else ShrinkSize(s.ring);
    var event := if th.op.Adds() then Pushed(t, ItemOf(th.op)) else Popped(t, th.out);
    Go(Append(s.(ring := ring, stable := ring), event), t, UnlockToSignal)
  }

  /** The result of the wait decides: give up, or take the write lock and test again. */
  function AfterWait(s: State, t: nat, wake: Wake): State
    requires t < |s.threads|
  {
    match wake
    case TimedOut => Fail(s, t, ErrTimeout)
    case Failed => Fail(s, t, ErrThread)
    case Zero => Go(s.(retries := s.retries.Bump(WaitSide(s.threads[t].op))), t, WantWrite)
  }

  function ReadSize(s: State, t: nat): State
    requires t < |s.threads|
  {
    var answer := Answer(s.threads[t].op, s.ring.size, s.ring.Capacity());
    Go(Append(s, Observed(t, s.ring.size)), t, ReadUnlock(answer))
  }

  predicate MovesLock(pc: PC) {
    !(pc.Test? || pc.Store? || pc.Advance? || pc.Resize? || pc.Decide? || pc.Reading?)
  }

  /** Steps that take or release a lock and do nothing else but report a result. */
  function LockStep(s: State, t: nat): State
    requires t < |s.threads|
  {
    match s.threads[t].pc
    case WantWrite => Go(s.(writer := Some(t)), t, Test)
    case UnlockToSignal => Go(s.(writer := None), t, WantSignal)
    case UnlockToWait => Go(s.(writer := None), t, WantWait)
    case UnlockToFail =>
      Fail(s.(writer := None), t, if s.threads[t].op.Adds() then ErrFull else ErrEmpty)
    case WantSignal => Go(s.(mutex := Some(t)), t, Signal)
    case SignalUnlock => Go(s.(mutex := None), t, Returned(Code(Success)))
    case WantWait => Go(s.(mutex := Some(t)), t, EnterWait)
    case EnterWait => Go(s.(mutex := None), t, Waiting)
    case Rewake(wake) => Go(s.(mutex := Some(t)), t, WaitUnlock(wake))
    case WaitUnlock(wake) => Go(s.(mutex := None), t, Decide(wake))
    case WantRead => Go(s.(readers := s.readers + {t}), t, Reading)
    case ReadUnlock(answer) => Go(s.(readers := s.readers - {t}), t, Returned(answer))
    case _ => s
  }

  /** Steps that leave the locks alone. */
  function WorkStep(s: State, t: nat): State
    requires t < |s.threads| && Shaped(s.ring)
  {
    match s.threads[t].pc
    case Test => TestSize(s, t)
    case Store => TouchSlot(s, t)
    case Advance => MoveIndex(s, t)
    case Resize => ChangeSize(s, t)
    case Decide(wake) => AfterWait(s, t, wake)
    case Reading => ReadSize(s, t)
    case _ => s
  }

  function RunStep(s: State, t: nat): State
    requires t < |s.threads| && Shaped(s.ring)
  {
    if MovesLock(s.threads[t].pc) then LockStep(s, t) else WorkStep(s, t)
  }

  /** A waiter woken other than by a signal; a zero result is a spurious wakeup. */
  function WakeStep(s: State, t: nat, wake: Wake): State
    requires t < |s.threads|
  {
    var s' := if wake.Zero? then s.(spurious := s.spurious.Bump(WaitSide(s.threads[t].op))) else s;
    Go(s', t, Rewake(wake))
  }

  function NotifyStep(s: State, t: nat, woken: Option<nat>): State
    requires t < |s.threads| && (woken.Some? ==> woken.value < |s.threads|)
  {
    var s' := Go(s.(signals := s.signals.Bump(SignalSide(s.threads[t].op))), t, SignalUnlock);
    match woken
    case None => s'
    case Some(w) => Go(s', w, Rewake(Zero))
  }

  function Step(s: State, l: Label): State
    requires Enabled(s, l)
  {
    match l
    case Invoke(t, op, nullQueue) => Begin(s, t, op, nullQueue)
    case Run(t) => RunStep(s, t)
    case Wakeup(t, wake) => WakeStep(s, t, wake)
    case RefuseWait(t) => Go(s, t, WaitUnlock(Failed))
    case Notify(t, woken) => NotifyStep(s, t, woken)
  }

  // Runs.

  predicate IsRun(s: State, ls: seq<Label>)
    decreases |ls|
  {
    ls != [] ==> Enabled(s, ls[0]) && IsRun(Step(s, ls[0]), ls[1..])
  }

  function After(s: State, ls: seq<Label>): State
    requires IsRun(s, ls)
    decreases |ls|
  {
    if ls == [] then s else After(Step(s, ls[0]), ls[1..])
  }

  // What happens how often in a run.

  datatype Kind = Retry | SpuriousWakeup | SignalSent

  /** A call comes back to the write lock; a wait ends with 0 unsignalled; a signal is sent. */
  predicate Happens(s: State, l: Label, kind: Kind, side: Side)
    requires Enabled(s, l)
  {
    match kind
    case Retry =>
      && l.Run? && l.tid < |Step(s, l).threads| && Step(s, l).threads[l.tid].pc.WantWrite?
      && WaitSide(s.threads[l.tid].op) == side
    case SpuriousWakeup => l.Wakeup? && l.wake.Zero? && WaitSide(s.threads[l.tid].op) == side
    case SignalSent => l.Notify? && SignalSide(s.threads[l.tid].op) == side
  }

  function HowOften(s: State, ls: seq<Label>, kind: Kind, side: Side): nat
    requires IsRun(s, ls)
    decreases |ls|
  {
    if ls == [] then 0 else
      (if Happens(s, ls[0], kind, side) then 1 else 0) + HowOften(Step(s, ls[0]), ls[1..], kind, side)
  }

  // The sequential queue that a log of events describes.

  /** One event on an abstract bounded FIFO queue; None when the event does not fit. */
  function Effect(q: seq<Ptr>, e: Event, capacity: nat): Option<seq<Ptr>> {
    match e
    case Pushed(_, item) => if |q| < capacity then Some(q + [item]) else None
    case Popped(_, item) => if q != [] && q[0] == item then Some(q[1..]) else None
    case SawFull(_) => if |q| == capacity then Some(q) else None
    case SawEmpty(_) => if q == [] then Some(q) else None
    case Observed(_, size) => if |q| == size then Some(q) else None
  }

  /** Runs the log from an empty queue: Some(q) exactly when every event fits. */
  function Replay(log: seq<Event>, capacity: nat): Option<seq<Ptr>> {
    if log == [] then Some([]) else
      match Replay(log[..|log| - 1], capacity)
      case None => None
      case Some(q) => Effect(q, log[|log| - 1], capacity)
  }

  function PushedItems(log: seq<Event>): seq<Ptr> {
    if log == [] then [] else
      var e := log[|log| - 1];
      PushedItems(log[..|log| - 1]) + if e.Pushed? then [e.item] else []
  }

  function PoppedItems(log: seq<Event>): seq<Ptr> {
    if log == [] then [] else
      var e := log[|log| - 1];
      PoppedItems(log[..|log| - 1]) + if e.Popped? then [e.item] else []
  }

  /** The events one thread contributed to a stretch of the log. */
  function EventsOf(log: seq<Event>, t: nat): seq<Event> {
    if log == [] then [] else
      var e := log[|log| - 1];
      EventsOf(log[..|log| - 1], t) + if e.tid == t then [e] else []
  }
}
