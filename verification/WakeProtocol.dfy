/**
  How posting threads wake a blocked event loop: the collapsing flag, the wake token (the eventfd counter
  on Linux, the private window message on Windows) and the mutex, interleaved step by step.

  Every call of a thread-safe dispatcher operation is one entry of `calls`; there is no bound on their
  number, and calls made by the loop's own handlers and descriptor callbacks are entries like any other.
 */
module WakeProtocol {
  import opened Basics
  import opened TimerList

  datatype Platform = Linux | Win32

  datatype Kind =
    | PostEvent
    | Interrupt
    | WakeUp
    | RegisterTimer(id: int, intervalMs: int, receiver: ObjectId)
    | UnregisterTimer(id: int)
    | TakeTimers(receiver: ObjectId)
    | ChangeSources

  /** Timer operations call wakeWaiter() with the mutex held. */
  predicate HoldsMutex(k: Kind) { k.RegisterTimer? || k.UnregisterTimer? || k.TakeTimers? }

  /** Called; state changed and exchange ahead; exchange won and write ahead; mutex to release; returned. */
  datatype CallPc = Called | Exchanging | Writing | Releasing | Returned

  datatype Call = Call(kind: Kind, pc: CallPc)

  /**
    The loop: Top is the entry of processEvents(). Entering has released the mutex and will block; Polling
    is blocked; Draining woke with the token seen; Storing has taken the token and not yet cleared the
    flag; Relocking wants the mutex back. On Windows the token is peeked after the queue was drained:
    Peeking, then Storing, then Peeking again.
   */
  datatype LoopPc =
    | Top
    | Locking
    | Entering(sampled: int, timeoutMs: int)
    | Polling(sampled: int, start: int, timeoutMs: int)
    | Draining
    | Storing
    | Relocking
    | Peeking(idle: bool)
    | PeekStoring(idle: bool)

  datatype State = State(
    platform: Platform,
    calls: seq<Call>, holder: int,          // holder: index of the call holding the mutex, or -1
    flag: bool, token: nat,                 // mWakePending and the wake token
    queue: nat,                             // number of queued events
    interrupt: bool, wakeUpRequested: bool, timersChanged: bool, sourcesChanged: bool,
    timers: seq<TimerData>, clock: int,
    loop: LoopPc,
    empty: nat, other: nat, paid: bool)     // passes that dispatched nothing; waits not ended by the token;
                                            // whether this pass's wait is already accounted for

  function Start(platform: Platform, clock: int): State
  {
    State(platform, [], -1, false, 0, 0, false, false, false, false, [], clock, Top, 0, 0, false)
  }

  datatype Step =
    | NewCall(kind: Kind)
    | Change(call: nat)
    | Exchange(call: nat)
    | Write(call: nat)
    | Release(call: nat)
    | Strip(receiver: ObjectId, events: nat) // removeEventsForReceiver(): its timers and queued events go, no wake
    | Elapse(ns: nat)
    | TestInterrupt
    | LockAndCheck
    | Block
    | WakeByToken
    | WakeByTimeout
    | WakeBySource
    | TakeToken
    | ClearFlag
    | RelockAndCheck
    | Peek

  // ---------------------------------------------------------------- the callers' steps

  /** The state change made under the mutex. */
  function Changed(s: State, k: Kind): (r: State)
    ensures SameProtocol(s, r) && r.calls == s.calls && r.loop == s.loop
    ensures k.PostEvent? || k.Interrupt? || k.WakeUp? ==> r.timers == s.timers && r.timersChanged == s.timersChanged
    ensures r.queue >= s.queue && (s.interrupt ==> r.interrupt) && (k.PostEvent? || r.queue == s.queue)
    ensures r.wakeUpRequested == (s.wakeUpRequested || k.WakeUp?)
  {
    match k
    case PostEvent => s.(queue := s.queue + 1)
    case Interrupt => s.(interrupt := true)
    case WakeUp => s.(wakeUpRequested := true)
    case RegisterTimer(id, ms, r) =>
      s.(timers := Registered(s.timers, id, ms, r, s.clock), timersChanged := true)
    case UnregisterTimer(id) => s.(timers := Unregistered(s.timers, id), timersChanged := true)
    case TakeTimers(r) => s.(timers := WithoutReceiver(s.timers, r), timersChanged := true)
    case ChangeSources => s.(sourcesChanged := true)
  }

  /** Nothing the wake protocol itself uses has moved. */
  predicate SameProtocol(s: State, r: State)
  {
    r.platform == s.platform && r.flag == s.flag && r.token == s.token && r.holder == s.holder
    && r.clock == s.clock && r.empty == s.empty && r.other == s.other && r.paid == s.paid
  }

  /** Calls that find nothing to change return without waking. */
  predicate NoEffect(s: State, k: Kind)
  {
    match k
    case RegisterTimer(_, ms, _) => ms < 0
    case UnregisterTimer(id) => |Unregistered(s.timers, id)| == |s.timers|
    case TakeTimers(r) => |WithoutReceiver(s.timers, r)| == |s.timers|
    case _ => false
  }

  function WithPc(s: State, i: nat, pc: CallPc): (r: State)
    requires i < |s.calls|
    ensures |r.calls| == |s.calls| && r.calls == s.calls[i := r.calls[i]] && r.calls[i] == Call(s.calls[i].kind, pc)
  {
    s.(calls := s.calls[i := s.calls[i].(pc := pc)])
  }

  function AfterWake(k: Kind): CallPc { if HoldsMutex(k) then Releasing else Returned }

  predicate At(s: State, i: nat, pc: CallPc) { i < |s.calls| && s.calls[i].pc == pc }

  // ---------------------------------------------------------------- the loop's steps

  /** The end of a pass: an interrupt is consumed and stops it, otherwise the queue is drained and dispatched. */
  function FinishPass(s: State, hadTicks: bool): (r: State)
    ensures r.calls == s.calls && r.platform == s.platform && r.holder == s.holder && r.flag == s.flag
            && r.token == s.token && !r.interrupt && r.wakeUpRequested == s.wakeUpRequested
            && r.timers == s.timers && r.clock == s.clock && (r.loop.Top? || (s.platform.Win32? && r.loop.Peeking?))
  {
    if s.interrupt then s.(interrupt := false, empty := s.empty + 1, loop := Top, paid := false)
    else
      var idle := s.queue == 0 && !hadTicks;
      var s' := s.(queue := 0);
      if s.platform.Win32? then s'.(loop := Peeking(idle))
      else s'.(loop := Top, empty := if idle then s.empty + 1 else s.empty, paid := false)
  }

  /** The first critical section: collect ticks, and either go on at once or compute the deadline and wait. */
  function CheckWork(s: State): (r: State)
    ensures r.calls == s.calls && r.platform == s.platform && r.holder == s.holder && r.flag == s.flag
            && r.token == s.token && r.wakeUpRequested == s.wakeUpRequested && r.clock == s.clock
            && (r.loop.Top? || r.loop.Entering? || (s.platform.Win32? && r.loop.Peeking?))
            && (r.loop.Entering? ==>
                  r.queue == 0 && !r.timersChanged && !r.sourcesChanged && r.interrupt == s.interrupt)
            && (!r.loop.Entering? ==> !r.interrupt)
  {
    var ticks := Expired(s.timers, s.clock);
    var s' := s.(timers := Advanced(s.timers, s.clock));
    if s.queue == 0 && ticks == []
    then s'.(timersChanged := false, sourcesChanged := false,
             loop := Entering(s.clock, TimeoutMs(s'.timers, s.clock)))
    else FinishPass(s', ticks != [])
  }

  function AfterWait(s: State): LoopPc
  {
    if s.platform.Linux? && s.token > 0 then Draining else Relocking
  }

  /** The wait ends by its deadline or by a ready descriptor or message; the token may be there as well. */
  function WakeOtherwise(s: State): State
  {
    if s.token > 0 then s.(loop := AfterWait(s))
    else s.(loop := AfterWait(s), other := s.other + 1, paid := true)
  }

  predicate Enabled(s: State, a: Step)
  {
    match a
    case NewCall(_) => true
    case Change(i) => At(s, i, Called) && s.holder == -1
    case Exchange(i) => At(s, i, Exchanging)
    case Write(i) => At(s, i, Writing)
    case Release(i) => At(s, i, Releasing)
    case Strip(_, events) => s.holder == -1 && events <= s.queue
    case Elapse(_) => true
    case TestInterrupt => s.loop.Top?
    case LockAndCheck => s.loop.Locking? && s.holder == -1
    case Block => s.loop.Entering?
    case WakeByToken => s.loop.Polling? && s.token > 0
    case WakeByTimeout => s.loop.Polling? && s.loop.timeoutMs >= 0
                          && s.clock >= s.loop.start + s.loop.timeoutMs * NS_PER_MS
    case WakeBySource => s.loop.Polling?
    case TakeToken => s.loop.Draining?
    case ClearFlag => s.loop.Storing? || s.loop.PeekStoring?
    case RelockAndCheck => s.loop.Relocking? && s.holder == -1
    case Peek => s.loop.Peeking?
  }

  predicate IsCallStep(a: Step)
  {
    a.NewCall? || a.Change? || a.Exchange? || a.Write? || a.Release?
  }

  function ChangeStep(s: State, i: nat): (r: State)
    requires At(s, i, Called)
    ensures r.loop == s.loop && r.platform == s.platform
    ensures |r.calls| == |s.calls| && r.calls == s.calls[i := r.calls[i]] && r.calls[i].kind == s.calls[i].kind
  {
    var k := s.calls[i].kind;
    if NoEffect(s, k) then WithPc(s, i, Returned)
    else WithPc(Changed(s, k), i, Exchanging).(holder := if HoldsMutex(k) then i else -1)
  }

  function CallStep(s: State, a: Step): (r: State)
    requires Enabled(s, a) && IsCallStep(a)
    ensures r.loop == s.loop && r.platform == s.platform
    ensures a.NewCall? ==> r.calls == s.calls + [Call(a.kind, Called)]
    ensures !a.NewCall? ==> |r.calls| == |s.calls| && r.calls == s.calls[a.call := r.calls[a.call]]
  {
    match a
    case NewCall(k) => s.(calls := s.calls + [Call(k, Called)])
    case Change(i) => ChangeStep(s, i)
    case Exchange(i) =>
      if s.flag then WithPc(s, i, AfterWake(s.calls[i].kind))
      else WithPc(s.(flag := true), i, Writing)
    case Write(i) => WithPc(s.(token := s.token + 1), i, AfterWake(s.calls[i].kind))
    case Release(i) => WithPc(s.(holder := -1), i, Returned)
  }

  function LoopStep(s: State, a: Step): (r: State)
    requires Enabled(s, a) && !IsCallStep(a)
    ensures r.calls == s.calls && r.platform == s.platform && r.holder == s.holder
  {
    match a
    case Strip(r, events) => s.(timers := WithoutReceiver(s.timers, r), queue := s.queue - events)
    case Elapse(ns) => s.(clock := s.clock + ns)
    case TestInterrupt =>
      if s.interrupt then s.(interrupt := false, empty := s.empty + 1) else s.(loop := Locking)
    case LockAndCheck => CheckWork(s)
    case Block => s.(loop := Polling(s.loop.sampled, s.clock, s.loop.timeoutMs))
    case WakeByToken => s.(loop := AfterWait(s))
    case WakeByTimeout => WakeOtherwise(s)
    case WakeBySource => WakeOtherwise(s)
    case TakeToken => s.(token := 0, loop := Storing, paid := true)
    case ClearFlag =>
      s.(flag := false, loop := if s.loop.PeekStoring? then Peeking(s.loop.idle) else Relocking)
    case RelockAndCheck => FinishPass(s.(wakeUpRequested := false), false)
    case Peek =>
      if s.token > 0 then s.(token := s.token - 1, loop := PeekStoring(s.loop.idle), paid := true)
      else s.(loop := Top, empty := if s.loop.idle then s.empty + 1 else s.empty, paid := false)
  }

  function Next(s: State, a: Step): State
    requires Enabled(s, a)
  {
    if IsCallStep(a) then CallStep(s, a) else LoopStep(s, a)
  }

  /** A run: steps that are not enabled when their turn comes do not happen. */
  function Exec(s: State, steps: seq<Step>): State
    decreases |steps|
  {
    if steps == [] then s
    else Exec(if Enabled(s, steps[0]) then Next(s, steps[0]) else s, steps[1..])
  }

  // ---------------------------------------------------------------- lost-wakeup freedom

  /** A wake is certain: the token is there, a write is ahead, or the next exchange will find the flag clear. */
  ghost predicate WakeComing(s: State)
  {
    || s.token > 0
    || (exists i :: At(s, i, Writing))
    || (!s.flag && exists i :: At(s, i, Exchanging))
  }

  ghost predicate Blocked(s: State) { s.loop.Polling? || s.loop.Entering? || s.loop.Draining? }

  /** Between taking the token and clearing the flag, an exchange may collapse onto a wake already spent. */
  ghost predicate InWindow(s: State) { s.loop.Storing? || s.loop.PeekStoring? }

  ghost predicate FlagInv(s: State)
  {
    s.flag ==> s.token > 0 || (exists i :: At(s, i, Writing)) || InWindow(s)
  }

  ghost predicate WorkInv(s: State)
  {
    Blocked(s) && (s.queue > 0 || s.timersChanged || s.sourcesChanged) ==> WakeComing(s)
  }

  /** Where the loop will test the interrupt flag before it can block again. */
  ghost predicate WillTestInterrupt(s: State)
  {
    s.loop.Storing? || s.loop.Relocking? || s.loop.Top? || s.loop.Peeking? || s.loop.PeekStoring?
  }

  ghost predicate InterruptInv(s: State)
  {
    s.interrupt && !WillTestInterrupt(s) ==> WakeComing(s)
  }

  /** On Linux a bare wakeUp() is never lost either; on Windows this fails, see BareWakeUpCanBeLost. */
  ghost predicate WakeUpInv(s: State)
  {
    s.platform.Linux? && s.wakeUpRequested && !s.loop.Storing? && !s.loop.Relocking? ==> WakeComing(s)
  }

  ghost predicate LinuxShape(s: State)
  {
    s.platform.Linux? ==> !s.loop.Peeking? && !s.loop.PeekStoring?
  }

  ghost predicate Win32Shape(s: State)
  {
    s.platform.Win32? ==> !s.loop.Draining? && !s.loop.Storing?
  }

  ghost predicate WakeInv(s: State)
  {
    FlagInv(s) && WorkInv(s) && InterruptInv(s) && WakeUpInv(s) && LinuxShape(s) && Win32Shape(s)
    && (s.loop.Draining? ==> s.token > 0)
  }

  predicate Moves(a: Step, j: nat)
  {
    match a
    case Change(i) => i == j
    case Exchange(i) => i == j
    case Write(i) => i == j
    case Release(i) => i == j
    case _ => false
  }

  /** A step of one call leaves every other call where it was. */
  lemma OthersStay(s: State, a: Step)
    requires Enabled(s, a) && IsCallStep(a)
    ensures |s.calls| <= |CallStep(s, a).calls|
    ensures forall j, pc :: At(s, j, pc) && !Moves(a, j) ==> At(CallStep(s, a), j, pc)
  {
    var calls, calls' := s.calls, CallStep(s, a).calls;
    forall j: nat | j < |calls| && !Moves(a, j) ensures calls'[j] == calls[j] {
    }
  }

  lemma SameCallsSameWake(s: State, r: State)
    requires r.calls == s.calls && r.flag == s.flag && r.token == s.token
    ensures WakeComing(r) == WakeComing(s)
  {
    assert forall i, pc :: At(r, i, pc) == At(s, i, pc);
  }

  lemma FinishKeepsWake(s: State, s': State, hadTicks: bool)
    requires WakeInv(s) && (s.loop.Locking? || s.loop.Relocking?)
    requires s' == s.(wakeUpRequested := false) || s' == s.(timers := s'.timers)
    requires s' == s.(wakeUpRequested := false) || s.loop.Locking?
    ensures WakeInv(FinishPass(s', hadTicks))
  {
    SameCallsSameWake(s, FinishPass(s', hadTicks));
    assert forall i, pc :: At(FinishPass(s', hadTicks), i, pc) == At(s, i, pc);
  }

  lemma CheckKeepsWake(s: State)
    requires WakeInv(s) && s.loop.Locking?
    ensures WakeInv(CheckWork(s))
  {
    var ticks := Expired(s.timers, s.clock);
    if s.queue == 0 && ticks == [] {
      SameCallsSameWake(s, CheckWork(s));
      assert forall i, pc :: At(CheckWork(s), i, pc) == At(s, i, pc);
    } else {
      FinishKeepsWake(s, s.(timers := Advanced(s.timers, s.clock)), ticks != []);
    }
  }

  lemma SmallStepKeepsWake(s: State, a: Step)
    requires WakeInv(s) && Enabled(s, a) && !IsCallStep(a) && !a.LockAndCheck? && !a.RelockAndCheck?
    ensures WakeInv(LoopStep(s, a))
  {
    if a.TakeToken? || a.ClearFlag? || a.Peek? {
      TokenStepKeepsWake(s, a);
    } else {
      SameCallsSameWake(s, LoopStep(s, a));
      PlainStepKeepsWake(s, a);
    }
  }

  lemma TokenStepKeepsWake(s: State, a: Step)
    requires WakeInv(s) && Enabled(s, a) && (a.TakeToken? || a.ClearFlag? || a.Peek?)
    ensures WakeInv(LoopStep(s, a))
  {
    var r := LoopStep(s, a);
    assert forall i, pc :: At(r, i, pc) == At(s, i, pc);
  }

  lemma PlainStepKeepsWake(s: State, a: Step)
    requires WakeInv(s) && Enabled(s, a) && !IsCallStep(a) && !a.LockAndCheck? && !a.RelockAndCheck?
    requires !a.TakeToken? && !a.ClearFlag? && !a.Peek?
    requires WakeComing(LoopStep(s, a)) == WakeComing(s)
    ensures WakeInv(LoopStep(s, a))
  {
    if a.Block? || a.WakeByToken? || a.WakeByTimeout? || a.WakeBySource? {
      WaitStepKeepsWake(s, a);
    } else {
      var r := LoopStep(s, a);
      assert r.flag == s.flag && r.token == s.token;
      assert forall i, pc :: At(r, i, pc) == At(s, i, pc);
    }
  }

  lemma WaitStepKeepsWake(s: State, a: Step)
    requires WakeInv(s) && Enabled(s, a) && (a.Block? || a.WakeByToken? || a.WakeByTimeout? || a.WakeBySource?)
    requires WakeComing(LoopStep(s, a)) == WakeComing(s)
    ensures WakeInv(LoopStep(s, a))
  {
    var r := LoopStep(s, a);
    assert r.flag == s.flag && r.token == s.token;
    assert forall i, pc :: At(r, i, pc) == At(s, i, pc);
  }

  lemma LoopStepKeepsWake(s: State, a: Step)
    requires WakeInv(s) && Enabled(s, a) && !IsCallStep(a)
    ensures WakeInv(LoopStep(s, a))
  {
    if a.LockAndCheck? {
      CheckKeepsWake(s);
    } else if a.RelockAndCheck? {
      FinishKeepsWake(s, s.(wakeUpRequested := false), false);
    } else {
      SmallStepKeepsWake(s, a);
    }
  }

  lemma ChangeKeepsWake(s: State, i: nat)
    requires WakeInv(s) && Enabled(s, Change(i))
    ensures WakeInv(Next(s, Change(i)))
  {
    var r := Next(s, Change(i));
    OthersStay(s, Change(i));
    assert forall j :: At(s, j, Writing) ==> At(r, j, Writing);
    assert forall j :: At(s, j, Exchanging) ==> At(r, j, Exchanging);
    if !NoEffect(s, s.calls[i].kind) {
      assert At(r, i, Exchanging);
      assert !InWindow(r) ==> WakeComing(r);
    }
  }

  lemma ExchangeKeepsWake(s: State, i: nat)
    requires WakeInv(s) && Enabled(s, Exchange(i))
    ensures WakeInv(Next(s, Exchange(i)))
  {
    var r := Next(s, Exchange(i));
    OthersStay(s, Exchange(i));
    assert forall j :: At(s, j, Writing) ==> At(r, j, Writing);
    if s.flag {
      assert !InWindow(r) ==> WakeComing(r);
    } else {
      assert At(r, i, Writing);
    }
  }

  lemma CallStepKeepsWake(s: State, a: Step)
    requires WakeInv(s) && Enabled(s, a) && IsCallStep(a)
    ensures WakeInv(Next(s, a))
  {
    var r := Next(s, a);
    match a {
      case Change(i) => ChangeKeepsWake(s, i);
      case Exchange(i) => ExchangeKeepsWake(s, i);
      case Write(i) => OthersStay(s, a);
      case NewCall(_) =>
        OthersStay(s, a);
        assert forall j, pc :: At(s, j, pc) ==> At(r, j, pc);
        assert WakeComing(s) ==> WakeComing(r);
      case Release(i) =>
        OthersStay(s, a);
        assert forall j :: At(s, j, Writing) ==> At(r, j, Writing);
        assert forall j :: At(s, j, Exchanging) ==> At(r, j, Exchanging);
        assert WakeComing(s) ==> WakeComing(r);
    }
  }

  lemma StepKeepsWake(s: State, a: Step)
    requires WakeInv(s) && Enabled(s, a)
    ensures WakeInv(Next(s, a))
  {
    if IsCallStep(a) { CallStepKeepsWake(s, a); } else { LoopStepKeepsWake(s, a); }
  }

  lemma {:induction false} ExecKeepsWake(s: State, steps: seq<Step>)
    requires WakeInv(s)
    ensures WakeInv(Exec(s, steps))
    decreases |steps|
  {
    if steps != [] {
      if Enabled(s, steps[0]) {
        StepKeepsWake(s, steps[0]);
        ExecKeepsWake(Next(s, steps[0]), steps[1..]);
      } else {
        ExecKeepsWake(s, steps[1..]);
      }
    }
  }

  /**
    No lost wakeup, on either platform, for any number of calls in any interleaving: a loop that is blocked
    although an event is queued, an interrupt is pending, or timers or descriptors changed since it
    released the mutex, has its wake coming. On Linux the same holds for a bare wakeUp().
   */
  lemma NoLostWakeup(platform: Platform, clock: int, steps: seq<Step>)
    ensures var s := Exec(Start(platform, clock), steps);
            s.loop.Polling? && (s.queue > 0 || s.interrupt || s.timersChanged || s.sourcesChanged
                                || (platform.Linux? && s.wakeUpRequested)) ==>
              WakeComing(s)
  {
    PlatformStays(Start(platform, clock), steps);
    ExecKeepsWake(Start(platform, clock), steps);
  }

  lemma PlatformStep(s: State, a: Step)
    ensures Enabled(s, a) ==> Next(s, a).platform == s.platform
  {
  }

  lemma {:induction false} PlatformStays(s: State, steps: seq<Step>)
    ensures Exec(s, steps).platform == s.platform
    decreases |steps|
  {
    if steps != [] {
      var s' := if Enabled(s, steps[0]) then Next(s, steps[0]) else s;
      PlatformStep(s, steps[0]);
      PlatformStays(s', steps[1..]);
    }
  }

  ghost predicate AllReturned(s: State)
  {
    forall i :: 0 <= i < |s.calls| ==> s.calls[i].pc == Returned
  }

  /** Once every call has returned, the token itself is there: the blocked loop can only wake. */
  lemma ReturnedMeansAwake(platform: Platform, clock: int, steps: seq<Step>)
    requires AllReturned(Exec(Start(platform, clock), steps))
    ensures var s := Exec(Start(platform, clock), steps);
            s.loop.Polling? && (s.queue > 0 || s.interrupt || s.timersChanged || s.sourcesChanged) ==>
              Enabled(s, WakeByToken)
  {
    NoLostWakeup(platform, clock, steps);
  }

  // ---------------------------------------------------------------- what a call changes, and that it wakes

  /** The state change a call makes under the mutex, in terms of what the loop will find. */
  ghost predicate Effect(s: State, k: Kind, r: State)
  {
    match k
    case PostEvent => r.queue == s.queue + 1
    case Interrupt => r.interrupt
    case WakeUp => r.wakeUpRequested
    case ChangeSources => r.sourcesChanged
    case RegisterTimer(id, ms, o) =>
      if ms < 0 then r.timers == s.timers
      else
        && r.timersChanged && TimerData(id, ms, o, s.clock + ms * NS_PER_MS) in r.timers
        && (forall t :: t in r.timers && t.timerId == id ==> t == TimerData(id, ms, o, s.clock + ms * NS_PER_MS))
        && (forall t: TimerData :: t.timerId != id ==> (t in r.timers <==> t in s.timers))
    case UnregisterTimer(id) =>
      && (forall t :: t in r.timers <==> t in s.timers && t.timerId != id)
      && ((exists t :: t in s.timers && t.timerId == id) ==> r.timersChanged)
    case TakeTimers(o) =>
      && (forall t :: t in r.timers <==> t in s.timers && t.receiver != o)
      && ((exists t :: t in s.timers && t.receiver == o) ==> r.timersChanged)
  }

  /** The calls that find nothing to change: the only ones that return without waking the loop. */
  ghost predicate ChangesNothing(s: State, k: Kind)
  {
    match k
    case RegisterTimer(_, ms, _) => ms < 0
    case UnregisterTimer(id) => forall t :: t in s.timers ==> t.timerId != id
    case TakeTimers(o) => forall t :: t in s.timers ==> t.receiver != o
    case _ => false
  }

  lemma {:induction false} UnregisteredShrinksIff(timers: seq<TimerData>, id: int)
    ensures |Unregistered(timers, id)| <= |timers|
    ensures |Unregistered(timers, id)| == |timers| <==> forall t :: t in timers ==> t.timerId != id
    ensures |Unregistered(timers, id)| == |timers| ==> Unregistered(timers, id) == timers
  {
    if timers != [] {
      UnregisteredShrinksIff(timers[1..], id);
      assert timers == [timers[0]] + timers[1..];
    }
  }

  lemma {:induction false} StrippedShrinksIff(timers: seq<TimerData>, o: ObjectId)
    ensures |WithoutReceiver(timers, o)| <= |timers|
    ensures |WithoutReceiver(timers, o)| == |timers| <==> forall t :: t in timers ==> t.receiver != o
    ensures |WithoutReceiver(timers, o)| == |timers| ==> WithoutReceiver(timers, o) == timers
  {
    if timers != [] {
      StrippedShrinksIff(timers[1..], o);
      assert timers == [timers[0]] + timers[1..];
    }
  }

  lemma NoEffectIff(s: State, k: Kind)
    ensures NoEffect(s, k) <==> ChangesNothing(s, k)
  {
    match k {
      case UnregisterTimer(id) => UnregisteredShrinksIff(s.timers, id);
      case TakeTimers(o) => StrippedShrinksIff(s.timers, o);
      case _ =>
    }
  }

  lemma ChangedHasEffect(s: State, k: Kind)
    requires DistinctIds(s.timers)
    ensures Effect(s, k, Changed(s, k))
  {
    match k {
      case RegisterTimer(id, ms, o) =>
        RegisteredMembers(s.timers, id, ms, o, s.clock);
        if ms < 0 { assert Registered(s.timers, id, ms, o, s.clock) == s.timers; }
      case UnregisterTimer(id) => UnregisteredMembers(s.timers, id);
      case TakeTimers(o) => WithoutReceiverMembers(s.timers, o);
      case _ =>
    }
  }

  lemma NothingIsEffect(s: State, k: Kind, r: State)
    requires ChangesNothing(s, k) && r.timers == s.timers
    ensures Effect(s, k, r)
  {
  }

  lemma ChangeHasEffect(s: State, i: nat)
    requires DistinctIds(s.timers) && At(s, i, Called)
    ensures Effect(s, s.calls[i].kind, ChangeStep(s, i)) && DistinctIds(ChangeStep(s, i).timers)
    ensures ChangesNothing(s, s.calls[i].kind) <==> At(ChangeStep(s, i), i, Returned)
  {
    var k := s.calls[i].kind;
    var changed := Changed(s, k);
    NoEffectIff(s, k);
    if NoEffect(s, k) {
      assert ChangeStep(s, i) == WithPc(s, i, Returned);
      NothingIsEffect(s, k, ChangeStep(s, i));
    } else {
      assert ChangeStep(s, i) == WithPc(changed, i, Exchanging).(holder := if HoldsMutex(k) then i else -1);
      ChangedHasEffect(s, k);
      ChangedDistinct(s, k);
    }
  }

  lemma ChangedDistinct(s: State, k: Kind)
    requires DistinctIds(s.timers)
    ensures DistinctIds(Changed(s, k).timers)
  {
    match k {
      case RegisterTimer(id, ms, o) => RegisteredMembers(s.timers, id, ms, o, s.clock);
      case UnregisterTimer(id) => UnregisteredMembers(s.timers, id);
      case TakeTimers(o) => WithoutReceiverMembers(s.timers, o);
      case _ =>
    }
  }

  lemma LoopKeepsDistinct(s: State, a: Step)
    requires DistinctIds(s.timers) && Enabled(s, a) && !IsCallStep(a)
    ensures DistinctIds(LoopStep(s, a).timers)
  {
    if a.Strip? {
      WithoutReceiverMembers(s.timers, a.receiver);
    } else if a.LockAndCheck? {
      CheckKeepsDistinct(s);
    } else {
      assert LoopStep(s, a).timers == s.timers;
    }
  }

  lemma CheckKeepsDistinct(s: State)
    requires DistinctIds(s.timers)
    ensures DistinctIds(CheckWork(s).timers)
  {
    assert CheckWork(s).timers == Advanced(s.timers, s.clock);
  }

  lemma StepKeepsDistinct(s: State, a: Step)
    requires DistinctIds(s.timers) && Enabled(s, a)
    ensures DistinctIds(Next(s, a).timers)
  {
    if !IsCallStep(a) { LoopKeepsDistinct(s, a); }
    else if a.Change? { ChangeHasEffect(s, a.call); }
    else { assert CallStep(s, a).timers == s.timers; }
  }

  lemma {:induction false} ExecKeepsDistinct(s: State, steps: seq<Step>)
    requires DistinctIds(s.timers)
    ensures DistinctIds(Exec(s, steps).timers)
    decreases |steps|
  {
    if steps != [] {
      if Enabled(s, steps[0]) {
        StepKeepsDistinct(s, steps[0]);
        ExecKeepsDistinct(Next(s, steps[0]), steps[1..]);
      } else {
        ExecKeepsDistinct(s, steps[1..]);
      }
    }
  }

  /**
    Over every run a call made while the loop is blocked takes effect and, unless it finds nothing to change, has the
    loop's wake coming from that moment on.
   */
  lemma CallTakesEffectAndWakes(platform: Platform, clock: int, steps: seq<Step>, i: nat)
    requires Enabled(Exec(Start(platform, clock), steps), Change(i))
    ensures var s := Exec(Start(platform, clock), steps);
            var r := Next(s, Change(i));
            && Effect(s, s.calls[i].kind, r)
            && (ChangesNothing(s, s.calls[i].kind) <==> At(r, i, Returned))
            && (Blocked(s) && !ChangesNothing(s, s.calls[i].kind) ==> WakeComing(r))
  {
    var s := Exec(Start(platform, clock), steps);
    ExecKeepsWake(Start(platform, clock), steps);
    ExecKeepsDistinct(Start(platform, clock), steps);
    ChangeHasEffect(s, i);
    if Blocked(s) && !ChangesNothing(s, s.calls[i].kind) { ChangeWakes(s, i); }
  }

  lemma ChangeWakes(s: State, i: nat)
    requires WakeInv(s) && Enabled(s, Change(i)) && Blocked(s) && !At(Next(s, Change(i)), i, Returned)
    ensures WakeComing(Next(s, Change(i)))
  {
    var r := Next(s, Change(i));
    ChangeKeepsWake(s, i);
    assert At(r, i, Exchanging);
  }

  /** What the loop collects it rearms in place: due again one interval after the clock it looked at. */
  lemma CheckRearms(s: State, i: nat)
    requires Enabled(s, LockAndCheck) && i < |s.timers|
    ensures var t, r := s.timers[i], Next(s, LockAndCheck).timers;
            && |r| == |s.timers|
            && r[i] == t.(nextFire := if s.clock >= t.nextFire then s.clock + t.intervalMs * NS_PER_MS else t.nextFire)
  {
  }

  // ---------------------------------------------------------------- the third case

  /** A collapsed exchange whose wake is already spent is possible only between the read and the store. */
  lemma CollapseOnlyInWindow(platform: Platform, clock: int, steps: seq<Step>)
    ensures var s := Exec(Start(platform, clock), steps);
            s.flag && s.token == 0 && (forall i :: !At(s, i, Writing)) ==> InWindow(s)
  {
    ExecKeepsWake(Start(platform, clock), steps);
  }

  lemma ExecOne(s: State, a: Step, rest: seq<Step>)
    requires Enabled(s, a)
    ensures Exec(s, [a] + rest) == Exec(Next(s, a), rest)
  {
    assert ([a] + rest)[1..] == rest;
  }

  lemma {:induction false} ExecAppend(s: State, a: seq<Step>, b: seq<Step>)
    ensures Exec(s, a + b) == Exec(Exec(s, a), b)
    decreases |a|
  {
    if a == [] {
      assert a + b == b;
    } else {
      assert (a + b)[1..] == a[1..] + b;
      ExecAppend(if Enabled(s, a[0]) then Next(s, a[0]) else s, a[1..], b);
    }
  }

  function BlockSteps(): seq<Step> { [TestInterrupt, LockAndCheck, Block] }

  /** A call numbered n that wins the exchange and writes. */
  function WakingCall(n: nat, kind: Kind): seq<Step> { [NewCall(kind), Change(n), Exchange(n), Write(n)] }

  /** A call numbered n that finds the flag set. */
  function CollapsedCall(n: nat, kind: Kind): seq<Step> { [NewCall(kind), Change(n), Exchange(n)] }

  lemma BlockRuns(s: State)
    requires s.loop.Top? && !s.interrupt && s.queue == 0 && s.timers == [] && s.holder == -1
    ensures Exec(s, BlockSteps()) ==
              s.(timersChanged := false, sourcesChanged := false, loop := Polling(s.clock, s.clock, -1))
  {
    var s1 := Next(s, TestInterrupt);
    assert Expired([], s.clock) == [] && Advanced([], s.clock) == [];
    var s2 := Next(s1, LockAndCheck);
    ExecOne(s2, Block, []);
    ExecOne(s1, LockAndCheck, [Block]);
    ExecOne(s, TestInterrupt, [LockAndCheck, Block]);
  }

  /** A call of a kind that does not hold the mutex, up to its exchange. */
  lemma CallReachesExchange(s: State, kind: Kind, rest: seq<Step>) returns (r: State)
    requires s.holder == -1 && (kind.PostEvent? || kind.WakeUp? || kind.Interrupt?)
    ensures r == Changed(s.(calls := s.calls + [Call(kind, Exchanging)]), kind)
    ensures Exec(s, [NewCall(kind), Change(|s.calls|)] + rest) == Exec(r, rest)
  {
    var n := |s.calls|;
    var s1 := Next(s, NewCall(kind));
    r := Next(s1, Change(n));
    assert s1.calls[n := Call(kind, Exchanging)] == s.calls + [Call(kind, Exchanging)];
    ExecOne(s1, Change(n), rest);
    ExecOne(s, NewCall(kind), [Change(n)] + rest);
    assert [NewCall(kind), Change(n)] + rest == [NewCall(kind)] + ([Change(n)] + rest);
  }

  /** A post or a wakeUp() does not look at the protocol's own fields. */
  lemma ChangedCommutes(s: State, kind: Kind, calls: seq<Call>, flag: bool, token: nat)
    requires kind.PostEvent? || kind.WakeUp?
    ensures Changed(s, kind).(calls := calls, flag := flag, token := token) ==
            Changed(s.(calls := calls, flag := flag, token := token), kind)
  {
  }

  lemma ChangedCalls(s: State, kind: Kind, a: seq<Call>, b: seq<Call>)
    requires kind.PostEvent? || kind.WakeUp?
    ensures Changed(s.(calls := a), kind).(calls := b) == Changed(s.(calls := b), kind)
    ensures Changed(s.(calls := a), kind).flag == s.flag && Changed(s.(calls := a), kind).calls == a
  {
  }

  lemma LastCallMoves(s: State, calls: seq<Call>, kind: Kind, from: CallPc, to: CallPc)
    requires s.calls == calls + [Call(kind, from)]
    ensures WithPc(s, |calls|, to) == s.(calls := calls + [Call(kind, to)])
  {
    assert s.calls[|calls| := Call(kind, to)] == calls + [Call(kind, to)];
  }

  /** From the exchange on: the flag was set already. */
  lemma LosingCallRuns(s: State, calls: seq<Call>, kind: Kind)
    requires s.flag && s.calls == calls + [Call(kind, Exchanging)] && !HoldsMutex(kind)
    ensures Exec(s, [Exchange(|calls|)]) == s.(calls := calls + [Call(kind, Returned)])
  {
    var n := |calls|;
    LastCallMoves(s, calls, kind, Exchanging, Returned);
    assert Next(s, Exchange(n)) == WithPc(s, n, Returned);
    assert [Exchange(n)] + [] == [Exchange(n)];
    ExecOne(s, Exchange(n), []);
  }

  lemma CollapsedCallReaches(s: State, kind: Kind) returns (r: State)
    requires s.holder == -1 && (kind.PostEvent? || kind.WakeUp?)
    ensures r == Changed(s.(calls := s.calls + [Call(kind, Exchanging)]), kind)
    ensures Exec(s, CollapsedCall(|s.calls|, kind)) == Exec(r, [Exchange(|s.calls|)])
  {
    var n := |s.calls|;
    r := CallReachesExchange(s, kind, [Exchange(n)]);
    assert CollapsedCall(n, kind) == [NewCall(kind), Change(n)] + [Exchange(n)];
  }

  lemma CollapsedCallEnds(s: State, kind: Kind, r: State)
    requires s.flag && (kind.PostEvent? || kind.WakeUp?)
    requires r == Changed(s.(calls := s.calls + [Call(kind, Exchanging)]), kind)
    ensures Exec(r, [Exchange(|s.calls|)]) == Changed(s.(calls := s.calls + [Call(kind, Returned)]), kind)
  {
    ChangedCalls(s, kind, s.calls + [Call(kind, Exchanging)], s.calls + [Call(kind, Returned)]);
    LosingCallRuns(r, s.calls, kind);
  }

  lemma CollapsedCallRuns(s: State, kind: Kind)
    requires s.holder == -1 && s.flag && (kind.PostEvent? || kind.WakeUp?)
    ensures Exec(s, CollapsedCall(|s.calls|, kind)) == Changed(s.(calls := s.calls + [Call(kind, Returned)]), kind)
  {
    var r := CollapsedCallReaches(s, kind);
    CollapsedCallEnds(s, kind, r);
  }

  lemma WonExchange(s: State, calls: seq<Call>, kind: Kind)
    requires !s.flag && s.calls == calls + [Call(kind, Exchanging)]
    ensures Next(s, Exchange(|calls|)) == s.(flag := true, calls := calls + [Call(kind, Writing)])
  {
    LastCallMoves(s.(flag := true), calls, kind, Exchanging, Writing);
  }

  lemma Written(s: State, calls: seq<Call>, kind: Kind)
    requires s.calls == calls + [Call(kind, Writing)] && !HoldsMutex(kind)
    ensures Next(s, Write(|calls|)) == s.(token := s.token + 1, calls := calls + [Call(kind, Returned)])
  {
    LastCallMoves(s.(token := s.token + 1), calls, kind, Writing, Returned);
  }

  /** From the exchange on: the flag is won, the token written. */
  lemma WinningCallRuns(s: State, calls: seq<Call>, kind: Kind)
    requires !s.flag && s.calls == calls + [Call(kind, Exchanging)] && !HoldsMutex(kind)
    ensures Exec(s, [Exchange(|calls|), Write(|calls|)]) ==
              s.(calls := calls + [Call(kind, Returned)], flag := true, token := s.token + 1)
  {
    var n := |calls|;
    assert [Exchange(n), Write(n)] == [Exchange(n)] + [Write(n)] && [Write(n)] + [] == [Write(n)];
    var r := s.(flag := true, calls := calls + [Call(kind, Writing)]);
    WonExchange(s, calls, kind);
    ExecOne(s, Exchange(n), [Write(n)]);
    Written(r, calls, kind);
    ExecOne(r, Write(n), []);
  }

  lemma WakingCallReaches(s: State, kind: Kind) returns (r: State)
    requires s.holder == -1 && (kind.PostEvent? || kind.WakeUp?)
    ensures r == Changed(s.(calls := s.calls + [Call(kind, Exchanging)]), kind)
    ensures Exec(s, WakingCall(|s.calls|, kind)) == Exec(r, [Exchange(|s.calls|), Write(|s.calls|)])
  {
    var n := |s.calls|;
    r := CallReachesExchange(s, kind, [Exchange(n), Write(n)]);
    assert WakingCall(n, kind) == [NewCall(kind), Change(n)] + [Exchange(n), Write(n)];
  }

  lemma WakingCallEnds(s: State, kind: Kind, r: State)
    requires !s.flag && (kind.PostEvent? || kind.WakeUp?)
    requires r == Changed(s.(calls := s.calls + [Call(kind, Exchanging)]), kind)
    ensures Exec(r, [Exchange(|s.calls|), Write(|s.calls|)]) ==
              Changed(s.(calls := s.calls + [Call(kind, Returned)], flag := true, token := s.token + 1), kind)
  {
    var exchanging := s.(calls := s.calls + [Call(kind, Exchanging)]);
    ChangedCalls(s, kind, exchanging.calls, s.calls + [Call(kind, Returned)]);
    WinningCallRuns(r, s.calls, kind);
    ChangedCommutes(exchanging, kind, s.calls + [Call(kind, Returned)], true, s.token + 1);
  }

  lemma WakingCallRuns(s: State, kind: Kind)
    requires s.holder == -1 && !s.flag && (kind.PostEvent? || kind.WakeUp?)
    ensures Exec(s, WakingCall(|s.calls|, kind)) ==
              Changed(s.(calls := s.calls + [Call(kind, Returned)], flag := true, token := s.token + 1), kind)
  {
    var r := WakingCallReaches(s, kind);
    WakingCallEnds(s, kind, r);
  }

  /** The loop blocks, and one call wakes it. */
  lemma BlockedThenCalled(platform: Platform, kind: Kind) returns (steps: seq<Step>, s: State)
    requires kind.PostEvent? || kind.WakeUp?
    ensures s == Exec(Start(platform, 0), steps)
    ensures s == Changed(Start(platform, 0).(calls := [Call(kind, Returned)], flag := true, token := 1,
                                             loop := Polling(0, 0, -1)), kind)
  {
    var s0 := Start(platform, 0);
    BlockRuns(s0);
    var s1 := Exec(s0, BlockSteps());
    WakingCallRuns(s1, kind);
    steps := BlockSteps() + WakingCall(0, kind);
    ExecAppend(s0, BlockSteps(), WakingCall(0, kind));
    s := Exec(s1, WakingCall(0, kind));
    assert [] + [Call(kind, Returned)] == [Call(kind, Returned)];
  }

  /**
    The case the comment in the program leaves out: a poster that neither wrote before the read nor finds
    the flag clear. Its event is queued, it has returned, and no wake is coming.
   */
  lemma ThirdCase() returns (steps: seq<Step>)
    ensures var s := Exec(Start(Linux, 0), steps);
            s.loop.Storing? && s.queue == 2 && |s.calls| == 2 && AllReturned(s) && !WakeComing(s)
  {
    var before, s := BlockedThenCalled(Linux, PostEvent);
    var mid := [WakeByToken, TakeToken];
    var s2 := TokenTaken(s);
    CollapsedCallRuns(s2, PostEvent);
    steps := before + mid + CollapsedCall(1, PostEvent);
    ExecAppend(Start(Linux, 0), before, mid);
    ExecAppend(Start(Linux, 0), before + mid, CollapsedCall(1, PostEvent));
  }

  lemma TokenTaken(s: State) returns (r: State)
    requires s.platform.Linux? && s.loop.Polling? && s.token > 0
    ensures r == s.(token := 0, loop := Storing, paid := true) && r == Exec(s, [WakeByToken, TakeToken])
  {
    var s1 := Next(s, WakeByToken);
    r := Next(s1, TakeToken);
    ExecOne(s1, TakeToken, []);
    ExecOne(s, WakeByToken, [TakeToken]);
    assert [WakeByToken, TakeToken] == [WakeByToken] + ([TakeToken] + []);
  }

  /** On Windows the same window swallows a bare wakeUp(): the loop blocks with the request pending. */
  lemma BareWakeUpCanBeLost() returns (steps: seq<Step>)
    ensures var s := Exec(Start(Win32, 0), steps);
            s.loop.Polling? && s.wakeUpRequested && AllReturned(s) && !WakeComing(s)
  {
    var before, s := BlockedThenCalled(Win32, WakeUp);
    var mid := [WakeByToken, RelockAndCheck, Peek];
    var s1 := PeekedByLoop(s);
    ExecAppend(Start(Win32, 0), before, mid);
    var call := CollapsedCall(1, WakeUp);
    CollapsedCallRuns(s1, WakeUp);
    var tail := call + [ClearFlag, Peek] + BlockSteps();
    var r := SwallowedByLoop(s1, call, Changed(s1.(calls := s1.calls + [Call(WakeUp, Returned)]), WakeUp));
    ExecAppend(Start(Win32, 0), before + mid, tail);
    steps := before + mid + tail;
  }

  /** Whatever was asked while the flag stood and the token was gone, the loop clears the flag and blocks. */
  lemma SwallowedByLoop(s: State, asked: seq<Step>, s': State) returns (r: State)
    requires s' == Exec(s, asked)
    requires s'.loop == PeekStoring(true) && s'.token == 0 && s'.holder == -1 && !s'.interrupt
             && s'.queue == 0 && s'.timers == []
    ensures r == Exec(s, asked + [ClearFlag, Peek] + BlockSteps())
    ensures r.loop.Polling? && r.wakeUpRequested == s'.wakeUpRequested && r.token == 0 && r.calls == s'.calls
  {
    r := LeavesAndBlocks(s');
    ExecThree(s, asked, [ClearFlag, Peek], BlockSteps());
  }

  lemma LeavesAndBlocks(s: State) returns (r: State)
    requires s.loop == PeekStoring(true) && s.token == 0 && s.holder == -1 && !s.interrupt
             && s.queue == 0 && s.timers == []
    ensures r == Exec(Exec(s, [ClearFlag, Peek]), BlockSteps())
    ensures r.loop.Polling? && r.wakeUpRequested == s.wakeUpRequested && r.token == 0 && r.calls == s.calls
  {
    var s' := ClearsAndLeaves(s);
    BlockRuns(s');
    r := Exec(s', BlockSteps());
  }

  lemma ExecThree(s: State, a: seq<Step>, b: seq<Step>, c: seq<Step>)
    ensures Exec(s, a + b + c) == Exec(Exec(Exec(s, a), b), c)
  {
    ExecAppend(s, a, b);
    ExecAppend(s, a + b, c);
  }

  lemma ClearsAndLeaves(s: State) returns (r: State)
    requires s.loop == PeekStoring(true) && s.token == 0
    ensures r == s.(flag := false, loop := Top, empty := s.empty + 1, paid := false) && r == Exec(s, [ClearFlag, Peek])
  {
    var s1 := Next(s, ClearFlag);
    r := Next(s1, Peek);
    ExecOne(s1, Peek, []);
    ExecOne(s, ClearFlag, [Peek]);
    assert [ClearFlag, Peek] == [ClearFlag] + ([Peek] + []);
  }

  lemma PeekedByLoop(s: State) returns (r: State)
    requires s.platform.Win32? && s.loop.Polling? && s.token == 1 && s.holder == -1 && !s.interrupt && s.queue == 0
    ensures r == Exec(s, [WakeByToken, RelockAndCheck, Peek])
    ensures r == s.(loop := PeekStoring(true), token := 0, wakeUpRequested := false, paid := true)
  {
    var s1 := Next(s, WakeByToken);
    var s2 := Next(s1, RelockAndCheck);
    r := Next(s2, Peek);
    ExecOne(s2, Peek, []);
    ExecOne(s1, RelockAndCheck, [Peek]);
    ExecOne(s, WakeByToken, [RelockAndCheck, Peek]);
  }

  // ---------------------------------------------------------------- no idle spin

  function Weight(c: Call): nat
  {
    if c.pc.Called? then 2 else if c.pc.Exchanging? || c.pc.Writing? then 1 else 0
  }

  function Total(calls: seq<Call>): nat
  {
    if calls == [] then 0 else Weight(calls[0]) + Total(calls[1..])
  }

  lemma {:induction false} TotalUpdate(calls: seq<Call>, i: nat, c: Call)
    requires i < |calls|
    ensures Total(calls[i := c]) == Total(calls) - Weight(calls[i]) + Weight(c)
  {
    if i == 0 {
      assert calls[0 := c][1..] == calls[1..];
    } else {
      TotalUpdate(calls[1..], i - 1, c);
      assert calls[i := c][1..] == calls[1..][i - 1 := c];
    }
  }

  lemma {:induction false} TotalAppend(calls: seq<Call>, c: Call)
    ensures Total(calls + [c]) == Total(calls) + Weight(c)
  {
    if calls == [] {
      assert [] + [c] == [c];
    } else {
      TotalAppend(calls[1..], c);
      assert (calls + [c])[1..] == calls[1..] + [c];
    }
  }

  function One(b: bool): nat { if b then 1 else 0 }

  /** What the calls made so far can still cause: a wake ahead, an interrupt, a token, a wake in progress. */
  function Potential(s: State): nat
  {
    Total(s.calls) + One(s.interrupt) + s.token + One(s.paid)
  }

  /** A pass that will dispatch nothing is accounted for by the time it can end. */
  ghost predicate PaidInv(s: State)
  {
    && (s.loop.Draining? ==> s.token > 0)
    && (s.loop.Storing? ==> s.paid)
    && (s.loop.Relocking? ==> s.paid || (s.platform.Win32? && s.token > 0))
    && ((s.loop.Peeking? || s.loop.PeekStoring?) && s.loop.idle ==> s.paid || s.token > 0)
    && (s.platform.Linux? ==> !s.loop.Peeking? && !s.loop.PeekStoring?)
  }

  ghost predicate SpinInv(s: State)
  {
    PaidInv(s) && s.empty + Potential(s) <= 2 * |s.calls| + s.other
  }

  lemma FinishKeepsSpin(s: State, hadTicks: bool)
    requires s.empty + Potential(s) <= 2 * |s.calls| + s.other
    requires s.queue == 0 && !hadTicks ==> s.paid || (s.platform.Win32? && s.token > 0)
    ensures SpinInv(FinishPass(s, hadTicks))
  {
  }

  lemma LoopStepKeepsSpin(s: State, a: Step)
    requires SpinInv(s) && Enabled(s, a) && !IsCallStep(a)
    ensures SpinInv(LoopStep(s, a))
  {
    if a.RelockAndCheck? {
      FinishKeepsSpin(s.(wakeUpRequested := false), false);
    } else if a.LockAndCheck? {
      CheckKeepsSpin(s);
    } else {
      SmallStepKeepsSpin(s, a);
    }
  }

  lemma CheckKeepsSpin(s: State)
    requires SpinInv(s) && s.loop.Locking?
    ensures SpinInv(CheckWork(s))
  {
    var ticks := Expired(s.timers, s.clock);
    if !(s.queue == 0 && ticks == []) {
      FinishKeepsSpin(s.(timers := Advanced(s.timers, s.clock)), ticks != []);
    }
  }

  lemma SmallStepKeepsSpin(s: State, a: Step)
    requires SpinInv(s) && Enabled(s, a) && !IsCallStep(a) && !a.RelockAndCheck? && !a.LockAndCheck?
    ensures SpinInv(LoopStep(s, a))
  {
    match a {
      case TakeToken => TakeTokenKeepsSpin(s);
      case Peek => PeekKeepsSpin(s);
      case WakeByToken => WakeKeepsSpin(s);
      case WakeByTimeout => WakeKeepsSpin(s);
      case WakeBySource => WakeKeepsSpin(s);
      case _ => QuietStepKeepsSpin(s, a);
    }
  }

  lemma WakeKeepsSpin(s: State)
    requires SpinInv(s) && s.loop.Polling?
    ensures SpinInv(WakeOtherwise(s))
    ensures s.token > 0 ==> SpinInv(s.(loop := AfterWait(s)))
  {
  }

  lemma QuietStepKeepsSpin(s: State, a: Step)
    requires SpinInv(s) && Enabled(s, a)
    requires a.TestInterrupt? || a.ClearFlag? || a.Block? || a.Elapse? || a.Strip?
    ensures SpinInv(LoopStep(s, a))
  {
  }

  lemma TakeTokenKeepsSpin(s: State)
    requires SpinInv(s) && s.loop.Draining?
    ensures SpinInv(LoopStep(s, TakeToken))
  {
  }

  lemma PeekKeepsSpin(s: State)
    requires SpinInv(s) && s.loop.Peeking?
    ensures SpinInv(LoopStep(s, Peek))
  {
    if s.token > 0 {
      PeekTakes(s);
    } else {
      PeekEnds(s);
    }
  }

  lemma PeekTakes(s: State)
    requires SpinInv(s) && s.loop.Peeking? && s.token > 0
    ensures SpinInv(s.(token := s.token - 1, loop := PeekStoring(s.loop.idle), paid := true))
  {
  }

  lemma PeekEnds(s: State)
    requires SpinInv(s) && s.loop.Peeking? && s.token == 0
    ensures SpinInv(s.(loop := Top, empty := if s.loop.idle then s.empty + 1 else s.empty, paid := false))
  {
  }

  lemma ChangeKeepsSpin(s: State, i: nat)
    requires SpinInv(s) && At(s, i, Called)
    ensures SpinInv(ChangeStep(s, i))
  {
    TotalUpdate(s.calls, i, ChangeStep(s, i).calls[i]);
  }

  lemma CallStepKeepsSpin(s: State, a: Step)
    requires SpinInv(s) && Enabled(s, a) && IsCallStep(a)
    ensures SpinInv(CallStep(s, a))
  {
    var r := CallStep(s, a);
    if a.NewCall? {
      TotalAppend(s.calls, Call(a.kind, Called));
    } else if a.Change? {
      ChangeKeepsSpin(s, a.call);
    } else {
      TotalUpdate(s.calls, a.call, r.calls[a.call]);
    }
  }

  lemma {:induction false} ExecKeepsSpin(s: State, steps: seq<Step>)
    requires SpinInv(s)
    ensures SpinInv(Exec(s, steps))
    decreases |steps|
  {
    if steps != [] {
      var a := steps[0];
      if Enabled(s, a) {
        if IsCallStep(a) { CallStepKeepsSpin(s, a); } else { LoopStepKeepsSpin(s, a); }
        ExecKeepsSpin(Next(s, a), steps[1..]);
      } else {
        ExecKeepsSpin(s, steps[1..]);
      }
    }
  }

  /** Passes that dispatch nothing are paid for: at most two per call, plus waits ended by a deadline or a source. */
  lemma IdlePassesAreBounded(platform: Platform, clock: int, steps: seq<Step>)
    ensures var s := Exec(Start(platform, clock), steps); s.empty <= 2 * |s.calls| + s.other
  {
    ExecKeepsSpin(Start(platform, clock), steps);
  }

  ghost predicate NoTimerStep(a: Step)
  {
    !a.WakeBySource? && !(a.NewCall? && a.kind.RegisterTimer?)
  }

  ghost predicate NoTimers(s: State)
  {
    && s.timers == [] && s.other == 0
    && (forall i :: 0 <= i < |s.calls| ==> !s.calls[i].kind.RegisterTimer?)
    && (s.loop.Entering? ==> s.loop.timeoutMs == -1)
    && (s.loop.Polling? ==> s.loop.timeoutMs == -1)
  }

  lemma ChangeKeepsNoTimers(s: State, i: nat)
    requires NoTimers(s) && At(s, i, Called)
    ensures NoTimers(ChangeStep(s, i))
  {
    ChangeAddsNoTimer(s, i);
    ChangeKeepsKinds(s, i);
  }

  lemma ChangeAddsNoTimer(s: State, i: nat)
    requires s.timers == [] && At(s, i, Called) && !s.calls[i].kind.RegisterTimer?
    ensures ChangeStep(s, i).timers == [] && ChangeStep(s, i).other == s.other
  {
    var k := s.calls[i].kind;
    NoTimersChanged(s, k);
    var changed := Changed(s, k);
    if NoEffect(s, k) {
      assert ChangeStep(s, i) == WithPc(s, i, Returned);
    } else {
      assert ChangeStep(s, i) == WithPc(changed, i, Exchanging).(holder := if HoldsMutex(k) then i else -1);
    }
  }

  lemma NoTimersChanged(s: State, k: Kind)
    requires s.timers == [] && !k.RegisterTimer?
    ensures Changed(s, k).timers == []
  {
    assert Unregistered([], 0) == [];
  }

  lemma ChangeKeepsKinds(s: State, i: nat)
    requires At(s, i, Called)
    ensures |ChangeStep(s, i).calls| == |s.calls|
    ensures forall j :: 0 <= j < |s.calls| ==> ChangeStep(s, i).calls[j].kind == s.calls[j].kind
  {
    var r := ChangeStep(s, i);
    assert r.calls == s.calls[i := r.calls[i]];
  }

  lemma CallStepKeepsNoTimers(s: State, a: Step)
    requires NoTimers(s) && Enabled(s, a) && IsCallStep(a) && NoTimerStep(a)
    ensures NoTimers(CallStep(s, a))
  {
    if a.Change? {
      ChangeKeepsNoTimers(s, a.call);
    }
  }

  lemma StepKeepsNoTimers(s: State, a: Step)
    requires NoTimers(s) && Enabled(s, a) && NoTimerStep(a)
    ensures NoTimers(Next(s, a))
  {
    if IsCallStep(a) {
      CallStepKeepsNoTimers(s, a);
    } else if a.LockAndCheck? {
      assert Expired([], s.clock) == [] && Advanced([], s.clock) == [];
    } else if a.RelockAndCheck? {
    } else {
      SmallStepKeepsNoTimers(s, a);
    }
  }

  lemma SmallStepKeepsNoTimers(s: State, a: Step)
    requires NoTimers(s) && Enabled(s, a) && NoTimerStep(a)
    requires !IsCallStep(a) && !a.RelockAndCheck? && !a.LockAndCheck?
    ensures NoTimers(LoopStep(s, a))
  {
  }

  lemma {:induction false} ExecKeepsNoTimers(s: State, steps: seq<Step>)
    requires NoTimers(s) && forall i :: 0 <= i < |steps| ==> NoTimerStep(steps[i])
    ensures NoTimers(Exec(s, steps))
    decreases |steps|
  {
    if steps != [] {
      var a := steps[0];
      assert NoTimerStep(a);
      assert forall i :: 0 <= i < |steps[1..]| ==> steps[1..][i] == steps[i + 1];
      if Enabled(s, a) {
        StepKeepsNoTimers(s, a);
        ExecKeepsNoTimers(Next(s, a), steps[1..]);
      } else {
        ExecKeepsNoTimers(s, steps[1..]);
      }
    }
  }

  /** Without timers and ready descriptors an idle loop does not spin: at most two empty passes per call. */
  lemma NoIdleSpin(platform: Platform, clock: int, steps: seq<Step>)
    requires forall i :: 0 <= i < |steps| ==> NoTimerStep(steps[i])
    ensures var s := Exec(Start(platform, clock), steps); s.empty <= 2 * |s.calls|
  {
    ExecKeepsNoTimers(Start(platform, clock), steps);
    IdlePassesAreBounded(platform, clock, steps);
  }

  // ---------------------------------------------------------------- no oversleep

  lemma TimeoutNotLate(timers: seq<TimerData>, now: int, t: TimerData)
    requires t in timers && Expired(timers, now) == []
    ensures TimeoutMs(timers, now) >= 0 && now + TimeoutMs(timers, now) * NS_PER_MS <= t.nextFire
  {
    NoneExpired(timers, now);
  }

  lemma {:induction false} NothingToAdvance(timers: seq<TimerData>, now: int)
    requires Expired(timers, now) == []
    ensures Advanced(timers, now) == timers
  {
    if timers != [] { NothingToAdvance(timers[1..], now); }
  }

  /** With the deadline computed at `sampled`, no registered timer is due earlier, unless the list changed since. */
  ghost predicate DeadlineOk(s: State, sampled: int, timeoutMs: int)
  {
    forall t :: t in s.timers ==>
      s.timersChanged || (timeoutMs >= 0 && sampled + timeoutMs * NS_PER_MS <= t.nextFire)
  }

  ghost predicate SleepInv(s: State)
  {
    && (s.loop.Entering? ==> DeadlineOk(s, s.loop.sampled, s.loop.timeoutMs) && s.loop.sampled <= s.clock)
    && (s.loop.Polling? ==> DeadlineOk(s, s.loop.sampled, s.loop.timeoutMs) && s.loop.sampled <= s.loop.start)
  }

  lemma CheckKeepsSleep(s: State)
    requires Enabled(s, LockAndCheck)
    ensures SleepInv(CheckWork(s))
  {
    var r := CheckWork(s);
    if r.loop.Entering? {
      NothingToAdvance(s.timers, s.clock);
      forall t | t in s.timers
        ensures r.loop.timeoutMs >= 0 && r.loop.sampled + r.loop.timeoutMs * NS_PER_MS <= t.nextFire
      {
        TimeoutNotLate(s.timers, s.clock, t);
      }
    }
  }

  lemma ChangedKeepsDeadline(s: State, k: Kind, sampled: int, timeoutMs: int)
    requires DeadlineOk(s, sampled, timeoutMs)
    ensures DeadlineOk(Changed(s, k), sampled, timeoutMs)
  {
  }

  lemma StepKeepsSleep(s: State, a: Step)
    requires SleepInv(s) && Enabled(s, a)
    ensures SleepInv(Next(s, a))
  {
    if IsCallStep(a) {
      CallStepKeepsSleep(s, a);
    } else if a.LockAndCheck? {
      CheckKeepsSleep(s);
    } else if a.Strip? {
      WithoutReceiverMembers(s.timers, a.receiver);
    } else {
      OtherStepKeepsSleep(s, a);
    }
  }

  lemma CallStepKeepsSleep(s: State, a: Step)
    requires SleepInv(s) && Enabled(s, a) && IsCallStep(a)
    ensures SleepInv(CallStep(s, a))
  {
    if a.Change? {
      ChangeKeepsSleep(s, a.call);
    }
  }

  lemma ChangeKeepsSleep(s: State, i: nat)
    requires SleepInv(s) && At(s, i, Called)
    ensures SleepInv(ChangeStep(s, i))
  {
    if s.loop.Entering? || s.loop.Polling? {
      ChangeKeepsDeadline(s, i, s.loop.sampled, s.loop.timeoutMs);
    }
  }

  lemma ChangeKeepsDeadline(s: State, i: nat, sampled: int, timeoutMs: int)
    requires DeadlineOk(s, sampled, timeoutMs) && At(s, i, Called)
    ensures DeadlineOk(ChangeStep(s, i), sampled, timeoutMs) && ChangeStep(s, i).clock == s.clock
  {
    var k := s.calls[i].kind;
    var changed := Changed(s, k);
    ChangedKeepsDeadline(s, k, sampled, timeoutMs);
    if NoEffect(s, k) {
      assert ChangeStep(s, i) == WithPc(s, i, Returned);
    } else {
      assert ChangeStep(s, i) == WithPc(changed, i, Exchanging).(holder := if HoldsMutex(k) then i else -1);
    }
  }

  lemma OtherStepKeepsSleep(s: State, a: Step)
    requires SleepInv(s) && Enabled(s, a) && !IsCallStep(a) && !a.LockAndCheck? && !a.Strip?
    ensures SleepInv(LoopStep(s, a))
  {
  }

  // ---------------------------------------------------------------- no wait that is too short

  /** Intervals are ints in the program. */
  ghost predicate IntStep(a: Step) { a.NewCall? && a.kind.RegisterTimer? ==> a.kind.intervalMs <= INT_MAX }

  ghost predicate IntCalls(s: State)
  {
    && (forall i: nat :: i < |s.calls| && s.calls[i].kind.RegisterTimer? ==> s.calls[i].kind.intervalMs <= INT_MAX)
    && (forall t :: t in s.timers ==> Scheduled(t, s.clock))
  }

  lemma AdvancedScheduled(timers: seq<TimerData>, now: int)
    requires forall t :: t in timers ==> Scheduled(t, now)
    ensures forall t :: t in Advanced(timers, now) ==> Scheduled(t, now)
  {
    var r := Advanced(timers, now);
    forall t | t in r ensures Scheduled(t, now) {
      var i :| 0 <= i < |r| && r[i] == t;
      assert timers[i] in timers;
    }
  }

  lemma ChangedScheduled(s: State, k: Kind)
    requires (forall t :: t in s.timers ==> Scheduled(t, s.clock)) && (k.RegisterTimer? ==> k.intervalMs <= INT_MAX)
    ensures forall t :: t in Changed(s, k).timers ==> Scheduled(t, s.clock)
  {
    match k {
      case UnregisterTimer(id) => UnregisteredMembers(s.timers, id);
      case TakeTimers(r) => WithoutReceiverMembers(s.timers, r);
      case _ =>
    }
  }

  lemma ChangeKeepsInts(s: State, i: nat)
    requires IntCalls(s) && At(s, i, Called)
    ensures IntCalls(ChangeStep(s, i))
  {
    var k := s.calls[i].kind;
    var changed := Changed(s, k);
    ChangeKeepsKinds(s, i);
    ChangedScheduled(s, k);
    if NoEffect(s, k) {
      assert ChangeStep(s, i) == WithPc(s, i, Returned);
    } else {
      assert ChangeStep(s, i) == WithPc(changed, i, Exchanging).(holder := if HoldsMutex(k) then i else -1);
    }
  }

  lemma CallStepKeepsInts(s: State, a: Step)
    requires IntCalls(s) && Enabled(s, a) && IsCallStep(a) && IntStep(a)
    ensures IntCalls(CallStep(s, a))
  {
    if a.Change? { ChangeKeepsInts(s, a.call); }
  }

  lemma StepKeepsInts(s: State, a: Step)
    requires IntCalls(s) && Enabled(s, a) && IntStep(a)
    ensures IntCalls(Next(s, a))
  {
    if IsCallStep(a) {
      CallStepKeepsInts(s, a);
    } else if a.LockAndCheck? {
      AdvancedScheduled(s.timers, s.clock);
    } else if a.Strip? {
      WithoutReceiverMembers(s.timers, a.receiver);
    }
  }

  lemma {:induction false} ExecKeepsInts(s: State, steps: seq<Step>)
    requires IntCalls(s) && forall i :: 0 <= i < |steps| ==> IntStep(steps[i])
    ensures IntCalls(Exec(s, steps))
    decreases |steps|
  {
    if steps != [] {
      assert IntStep(steps[0]);
      assert forall i :: 0 <= i < |steps[1..]| ==> steps[1..][i] == steps[i + 1];
      if Enabled(s, steps[0]) {
        StepKeepsInts(s, steps[0]);
        ExecKeepsInts(Next(s, steps[0]), steps[1..]);
      } else {
        ExecKeepsInts(s, steps[1..]);
      }
    }
  }

  /** The steps of everyone but the loop, and the loop's own step into the wait. */
  predicate LeavesWait(a: Step) { !IsCallStep(a) && !a.Strip? && !a.Elapse? && !a.Block? }

  /** A loop in the wait it entered at `sampled` with `timeoutMs`. */
  predicate InWait(s: State, sampled: int, timeoutMs: int)
  {
    || (s.loop == Entering(sampled, timeoutMs) && sampled <= s.clock)
    || (s.loop.Polling? && s.loop.sampled == sampled && s.loop.timeoutMs == timeoutMs && sampled <= s.loop.start)
  }

  lemma StepStaysInWait(s: State, a: Step, sampled: int, timeoutMs: int)
    requires InWait(s, sampled, timeoutMs) && !LeavesWait(a) && Enabled(s, a)
    ensures InWait(Next(s, a), sampled, timeoutMs)
  {
    if IsCallStep(a) { assert CallStep(s, a).clock == s.clock; }
  }

  lemma {:induction false} StaysInWait(s: State, steps: seq<Step>, sampled: int, timeoutMs: int)
    requires InWait(s, sampled, timeoutMs) && forall i :: 0 <= i < |steps| ==> !LeavesWait(steps[i])
    ensures InWait(Exec(s, steps), sampled, timeoutMs)
    decreases |steps|
  {
    if steps != [] {
      assert !LeavesWait(steps[0]);
      assert forall i :: 0 <= i < |steps[1..]| ==> steps[1..][i] == steps[i + 1];
      if Enabled(s, steps[0]) {
        StepStaysInWait(s, steps[0], sampled, timeoutMs);
        StaysInWait(Next(s, steps[0]), steps[1..], sampled, timeoutMs);
      } else {
        StaysInWait(s, steps[1..], sampled, timeoutMs);
      }
    }
  }

  lemma {:induction false} StaysBlocked(s: State, steps: seq<Step>)
    requires s.loop.Polling? && forall i :: 0 <= i < |steps| ==> !LeavesWait(steps[i])
    ensures Exec(s, steps).loop == s.loop
    decreases |steps|
  {
    if steps != [] {
      assert !LeavesWait(steps[0]);
      assert forall i :: 0 <= i < |steps[1..]| ==> steps[1..][i] == steps[i + 1];
      if Enabled(s, steps[0]) {
        assert IsCallStep(steps[0]) ==> CallStep(s, steps[0]).loop == s.loop;
        StaysBlocked(Next(s, steps[0]), steps[1..]);
      } else {
        StaysBlocked(s, steps[1..]);
      }
    }
  }

  /** Whatever others do meanwhile, the clock ends a wait exactly when its time is up, counted from where it blocked. */
  lemma TimeoutEndsTheWaitIff(s: State, waiting: seq<Step>)
    requires Enabled(s, Block) && forall i :: 0 <= i < |waiting| ==> !LeavesWait(waiting[i])
    ensures var u := Exec(Next(s, Block), waiting);
            Enabled(u, WakeByTimeout) <==>
              s.loop.timeoutMs >= 0 && u.clock - s.clock >= s.loop.timeoutMs * NS_PER_MS
  {
    StaysBlocked(Next(s, Block), waiting);
  }

  /**
    Queued events leave the queue with their receiver or, all of them, in a pass that gets past its second interrupt
    test; an interrupted pass takes none.
   */
  lemma QueueIsTakenIff(s: State, a: Step)
    requires Enabled(s, a) && s.queue > 0 && !a.Strip?
    ensures Next(s, a).queue < s.queue <==> (a.LockAndCheck? || a.RelockAndCheck?) && !s.interrupt
    ensures Next(s, a).queue == 0 || Next(s, a).queue >= s.queue
  {
    if IsCallStep(a) {
      if a.Change? { ChangeAddsEvents(s, a.call); }
    } else {
      assert LoopStep(s, a).queue == 0 || LoopStep(s, a).queue == s.queue;
    }
  }

  lemma ChangeAddsEvents(s: State, i: nat)
    requires At(s, i, Called)
    ensures ChangeStep(s, i).queue >= s.queue
  {
    var k := s.calls[i].kind;
    if NoEffect(s, k) {
      assert ChangeStep(s, i) == WithPc(s, i, Returned);
    } else {
      assert ChangeStep(s, i) == WithPc(Changed(s, k), i, Exchanging).(holder := if HoldsMutex(k) then i else -1);
    }
  }

  /** A destroyed receiver takes its timers and its events along and wakes nobody. */
  lemma StripTakes(s: State, o: ObjectId, events: nat)
    requires Enabled(s, Step.Strip(o, events))
    ensures var r := Next(s, Step.Strip(o, events));
            && (forall t :: t in r.timers <==> t in s.timers && t.receiver != o)
            && r.queue + events == s.queue
            && r == s.(timers := r.timers, queue := r.queue)
  {
    WithoutReceiverMembers(s.timers, o);
  }

  /**
    A wait that is entered is as long as it may be: without a deadline exactly when no timer is registered, and
    otherwise less than one millisecond short of the earliest deadline.
   */
  lemma EnteredWaitIsTight(platform: Platform, clock: int, steps: seq<Step>)
    requires forall i :: 0 <= i < |steps| ==> IntStep(steps[i])
    requires Enabled(Exec(Start(platform, clock), steps), LockAndCheck)
    requires Next(Exec(Start(platform, clock), steps), LockAndCheck).loop.Entering?
    ensures var s := Exec(Start(platform, clock), steps);
            var wait := Next(s, LockAndCheck).loop;
            && wait.sampled == s.clock && s.queue == 0 && (forall t :: t in s.timers ==> s.clock < t.nextFire)
            && (wait.timeoutMs == -1 <==> s.timers == [])
            && (s.timers != [] ==>
                  && 0 <= wait.timeoutMs <= INT_MAX
                  && (forall t :: t in s.timers ==> wait.sampled + wait.timeoutMs * NS_PER_MS <= t.nextFire)
                  && exists t :: t in s.timers && t.nextFire < wait.sampled + (wait.timeoutMs + 1) * NS_PER_MS)
  {
    var s := Exec(Start(platform, clock), steps);
    ExecKeepsInts(Start(platform, clock), steps);
    CheckWaits(s);
    NothingToAdvance(s.timers, s.clock);
    TimeoutIsTight(s.timers, s.clock);
    NoneExpired(s.timers, s.clock);
    if s.timers != [] {
      var t :| t in s.timers && MinFire(s.timers) == t.nextFire;
      assert t.nextFire < s.clock + (TimeoutMs(s.timers, s.clock) + 1) * NS_PER_MS;
    }
  }

  /** The loop waits exactly when nothing is queued and no timer is due. */
  lemma WaitsIff(s: State)
    requires Enabled(s, LockAndCheck)
    ensures Next(s, LockAndCheck).loop.Entering? <==> s.queue == 0 && forall t :: t in s.timers ==> s.clock < t.nextFire
  {
    if Expired(s.timers, s.clock) == [] {
      NoneExpired(s.timers, s.clock);
    } else {
      ExpiredAreDue(s.timers, s.clock);
      assert Expired(s.timers, s.clock)[0] in Expired(s.timers, s.clock);
    }
  }

  lemma {:induction false} ExpiredAreDue(timers: seq<TimerData>, now: int)
    ensures forall t :: t in Expired(timers, now) ==> t in timers && now >= t.nextFire
  {
    if timers != [] { ExpiredAreDue(timers[1..], now); }
  }

  lemma CheckWaits(s: State)
    requires s.loop.Locking? && CheckWork(s).loop.Entering?
    ensures s.queue == 0 && Expired(s.timers, s.clock) == []
    ensures CheckWork(s).loop == Entering(s.clock, TimeoutMs(Advanced(s.timers, s.clock), s.clock))
  {
  }

  /**
    So a wait that its deadline ends, and nothing else did, ends less than one millisecond before the earliest deadline
    of the timers registered when it was entered.
   */
  lemma NoEarlyWake(platform: Platform, clock: int, steps: seq<Step>, waiting: seq<Step>)
    requires forall i :: 0 <= i < |steps| ==> IntStep(steps[i])
    requires forall i :: 0 <= i < |waiting| ==> !LeavesWait(waiting[i])
    requires Enabled(Exec(Start(platform, clock), steps), LockAndCheck)
    requires Next(Exec(Start(platform, clock), steps), LockAndCheck).loop.Entering?
    requires Enabled(Exec(Next(Exec(Start(platform, clock), steps), LockAndCheck), waiting), WakeByTimeout)
    ensures var s := Exec(Start(platform, clock), steps);
            var u := Exec(Next(s, LockAndCheck), waiting);
            exists t :: t in s.timers && t.nextFire < u.clock + NS_PER_MS
  {
    var s := Exec(Start(platform, clock), steps);
    var r := Next(s, LockAndCheck);
    EnteredWaitIsTight(platform, clock, steps);
    StaysInWait(r, waiting, r.loop.sampled, r.loop.timeoutMs);
    assert s.timers != [];
    var t :| t in s.timers && t.nextFire < r.loop.sampled + (r.loop.timeoutMs + 1) * NS_PER_MS;
  }

  lemma {:induction false} ExecKeepsSleep(s: State, steps: seq<Step>)
    requires SleepInv(s)
    ensures SleepInv(Exec(s, steps))
    decreases |steps|
  {
    if steps != [] {
      if Enabled(s, steps[0]) {
        StepKeepsSleep(s, steps[0]);
        ExecKeepsSleep(Next(s, steps[0]), steps[1..]);
      } else {
        ExecKeepsSleep(s, steps[1..]);
      }
    }
  }

  /**
    No oversleep: a blocked loop wakes no later than any registered timer's next fire -- up to the time
    that passed between sampling the clock and starting to block -- unless the list changed since, and
    then its wake is coming.
   */
  lemma NoOversleep(platform: Platform, clock: int, steps: seq<Step>, t: TimerData)
    requires var s := Exec(Start(platform, clock), steps); s.loop.Polling? && t in s.timers
    ensures var s := Exec(Start(platform, clock), steps);
            || (s.timersChanged && WakeComing(s))
            || (s.loop.timeoutMs >= 0
                && s.loop.start + s.loop.timeoutMs * NS_PER_MS <= t.nextFire + (s.loop.start - s.loop.sampled))
  {
    ExecKeepsSleep(Start(platform, clock), steps);
    NoLostWakeup(platform, clock, steps);
  }
}
