/**
  exit() and the wake protocol together. The thread of QuitProtocol and the loop of WakeProtocol are one and the
  same: each loop step is taken by both machines, and the interrupt() and wakeUp() an exit() makes are calls of the
  wake protocol. An exit() may go on before its interrupt() has written the token, which is more than the program does.
 */
module QuitWake {
  import Q = QuitProtocol
  import W = WakeProtocol

  datatype State = State(q: Q.State, w: W.State)

  datatype Step =
    | Exit(exit: Q.Step)     // an exit() call, up to reading the dispatcher
    | Poke(call: nat)        // its interrupt() sets the flag
    | Finish(call: nat)      // its wakeUp(), if it saw a dispatcher
    | Outside(other: W.Step) // other callers, the rest of the two calls above, time
    | Loop(inside: W.Step)
    | Thread(around: Q.Step) // the thread outside processEvents()

  function Start(staleCode: int, platform: W.Platform, clock: int): State
  {
    State(Q.Start(staleCode), W.Start(platform, clock))
  }

  predicate IsLoopStep(a: W.Step) { !W.IsCallStep(a) && !a.Strip? && !a.Elapse? }

  predicate InterruptStored(w: W.State, a: W.Step)
    requires W.Enabled(w, a)
  {
    a.Change? && w.calls[a.call].kind.Interrupt?
  }

  predicate Enabled(s: State, a: Step)
  {
    match a
    case Exit(e) => Q.Enabled(s.q, e) && (e.CallExit? || e.StoreCode? || e.StoreFlag? || e.ReadDispatcher?)
    case Poke(i) => Q.Enabled(s.q, Q.Interrupt(i)) && s.w.holder == -1
    case Finish(i) => Q.Enabled(s.q, Q.WakeUp(i)) && s.w.holder == -1
    case Outside(o) => W.Enabled(s.w, o) && !IsLoopStep(o) && (InterruptStored(s.w, o) ==> s.q.dispatcher)
    case Loop(l) => W.Enabled(s.w, l) && IsLoopStep(l) && (l.TestInterrupt? ==> s.q.thread.Entry?)
    case Thread(t) =>
      Q.Enabled(s.q, t) && (t.InstallDispatcher? || t.EmitStarted? || t.TestFlag? || t.LoadCode?
                            || (t.EndDispatch? && s.w.loop.Top?))
  }

  /** What a step means to the quit protocol. */
  function QuitSteps(s: State, a: Step): seq<Q.Step>
    requires Enabled(s, a)
  {
    match a
    case Exit(e) => [e]
    case Poke(i) => [Q.Interrupt(i)]
    case Finish(i) => [Q.WakeUp(i)]
    case Outside(o) => if InterruptStored(s.w, o) then [Q.OtherInterrupt] else []
    case Thread(t) => [t]
    case Loop(l) => LoopQuitSteps(s.w, l)
  }

  function LoopQuitSteps(w: W.State, l: W.Step): seq<Q.Step>
    requires W.Enabled(w, l) && IsLoopStep(l)
  {
    match l
    case TestInterrupt => [Q.EnterPass]
    case LockAndCheck => CheckSteps(W.Next(w, l).loop.Entering?)
    case WakeByToken => [Q.WakeFromWait]
    case WakeByTimeout => [Q.WakeFromWait]
    case WakeBySource => [Q.WakeFromWait]
    case RelockAndCheck => [Q.Relock]
    case _ => []
  }

  /** Without work the thread blocks; with work it goes on to the second interrupt test at once. */
  function CheckSteps(blocks: bool): seq<Q.Step>
  {
    if blocks then [Q.CheckQueue(false)] else [Q.CheckQueue(true), Q.Relock]
  }

  /** What a step means to the wake protocol. */
  function WakeSteps(s: State, a: Step): seq<W.Step>
    requires Enabled(s, a)
  {
    match a
    case Exit(_) => []
    case Poke(_) => CallSteps(s.w, W.Kind.Interrupt)
    case Finish(i) => if Q.At(s.q, i, Q.Interrupted) then CallSteps(s.w, W.Kind.WakeUp) else []
    case Outside(o) => [o]
    case Thread(_) => []
    case Loop(l) => [l]
  }

  function CallSteps(w: W.State, kind: W.Kind): seq<W.Step> { [W.NewCall(kind), W.Change(|w.calls|)] }

  ghost function Next(s: State, a: Step): State
    requires Enabled(s, a)
  {
    State(Q.Exec(s.q, QuitSteps(s, a)), W.Exec(s.w, WakeSteps(s, a)))
  }

  ghost function Exec(s: State, steps: seq<Step>): State
    decreases |steps|
  {
    if steps == [] then s
    else Exec(if Enabled(s, steps[0]) then Next(s, steps[0]) else s, steps[1..])
  }

  // ---------------------------------------------------------------- the two stay in step

  predicate Matching(l: W.LoopPc, t: Q.ThreadPc)
  {
    match l
    case Top => !t.Locking? && !t.Waiting? && !t.Relocking?
    case Locking => t.Locking?
    case Entering(_, _) => t.Waiting?
    case Polling(_, _, _) => t.Waiting?
    case Draining => t.Relocking?
    case Storing => t.Relocking?
    case Relocking => t.Relocking?
    case Peeking(_) => t.Dispatching?
    case PeekStoring(_) => t.Dispatching?
  }

  ghost predicate Coupled(s: State)
  {
    s.q.interrupt == s.w.interrupt && Matching(s.w.loop, s.q.thread)
  }

  lemma OneQuitStep(q: Q.State, a: Q.Step)
    requires Q.Enabled(q, a)
    ensures Q.Exec(q, [a]) == Q.Next(q, a)
  {
    assert [a][1..] == [];
  }

  lemma OneWakeStep(w: W.State, a: W.Step)
    requires W.Enabled(w, a)
    ensures W.Exec(w, [a]) == W.Next(w, a)
  {
    assert [a][1..] == [];
  }

  lemma CallCoupled(w: W.State, kind: W.Kind)
    requires w.holder == -1 && (kind.WakeUp? || kind.Interrupt?)
    ensures var r := W.Exec(w, CallSteps(w, kind));
            && r.loop == w.loop && r.interrupt == (w.interrupt || kind.Interrupt?)
            && r.wakeUpRequested == (w.wakeUpRequested || kind.WakeUp?) && |r.calls| == |w.calls| + 1
  {
    var r := W.CallReachesExchange(w, kind, []);
    assert CallSteps(w, kind) + [] == CallSteps(w, kind);
  }

  lemma ExitKeepsCoupled(s: State, a: Step)
    requires Coupled(s) && Enabled(s, a) && (a.Exit? || a.Poke? || a.Finish?)
    ensures Coupled(Next(s, a))
  {
    var e := QuitSteps(s, a)[0];
    OneQuitStep(s.q, e);
    Q.ExitStepFrame(s.q, e);
    if a.Poke? || (a.Finish? && Q.At(s.q, a.call, Q.Interrupted)) {
      CallCoupled(s.w, if a.Poke? then W.Kind.Interrupt else W.Kind.WakeUp);
    }
  }

  lemma ThreadKeepsCoupled(s: State, a: Step)
    requires Coupled(s) && Enabled(s, a) && a.Thread?
    ensures Coupled(Next(s, a))
  {
    OneQuitStep(s.q, a.around);
  }

  lemma ChangedInterrupt(w: W.State, k: W.Kind)
    ensures W.Changed(w, k).interrupt == (w.interrupt || k.Interrupt?)
  {
  }

  lemma OutsideInterrupt(w: W.State, o: W.Step)
    requires W.Enabled(w, o) && !IsLoopStep(o)
    ensures W.Next(w, o).loop == w.loop && W.Next(w, o).interrupt == (w.interrupt || InterruptStored(w, o))
  {
    if o.Change? { ChangeInterrupt(w, o.call); }
  }

  lemma ChangeInterrupt(w: W.State, i: nat)
    requires W.Enabled(w, W.Change(i))
    ensures W.ChangeStep(w, i).interrupt == (w.interrupt || w.calls[i].kind.Interrupt?)
  {
    var k := w.calls[i].kind;
    var changed := W.Changed(w, k);
    ChangedInterrupt(w, k);
    if W.NoEffect(w, k) {
      assert W.ChangeStep(w, i) == W.WithPc(w, i, W.Returned);
    } else {
      assert W.ChangeStep(w, i) == W.WithPc(changed, i, W.Exchanging).(holder := if W.HoldsMutex(k) then i else -1);
    }
  }

  lemma OutsideKeepsCoupled(s: State, a: Step)
    requires Coupled(s) && Enabled(s, a) && a.Outside?
    ensures Coupled(Next(s, a))
  {
    OutsideInterrupt(s.w, a.other);
    OneWakeStep(s.w, a.other);
    if InterruptStored(s.w, a.other) { OneQuitStep(s.q, Q.OtherInterrupt); }
  }

  lemma CheckThread(q: Q.State, blocks: bool)
    requires q.thread.Locking?
    ensures var r := Q.Exec(q, CheckSteps(blocks));
            && r.exits == q.exits && Q.Distance(r.thread) < Q.Distance(q.thread)
            && (if blocks then r.thread.Waiting? && r.interrupt == q.interrupt
                else !r.interrupt && r.thread == if q.interrupt then Q.Testing else Q.Dispatching)
  {
    if blocks {
      OneQuitStep(q, Q.CheckQueue(false));
    } else {
      OneQuitStep(Q.Next(q, Q.CheckQueue(true)), Q.Relock);
      assert [Q.CheckQueue(true), Q.Relock][1..] == [Q.Relock];
    }
  }

  lemma CheckLoop(w: W.State)
    requires w.loop.Locking?
    ensures var r := W.CheckWork(w); !r.loop.Entering? && w.interrupt ==> r.loop.Top?
  {
  }

  lemma CheckKeepsCoupled(s: State)
    requires Coupled(s) && Enabled(s, Loop(W.LockAndCheck))
    ensures Coupled(Next(s, Loop(W.LockAndCheck)))
  {
    OneWakeStep(s.w, W.LockAndCheck);
    CheckThread(s.q, W.Next(s.w, W.LockAndCheck).loop.Entering?);
    CheckLoop(s.w);
  }

  lemma LoopKeepsCoupled(s: State, a: Step)
    requires Coupled(s) && Enabled(s, a) && a.Loop?
    ensures Coupled(Next(s, a))
  {
    if a.inside.LockAndCheck? {
      CheckKeepsCoupled(s);
    } else {
      OneWakeStep(s.w, a.inside);
      if QuitSteps(s, a) != [] { OneQuitStep(s.q, QuitSteps(s, a)[0]); }
    }
  }

  /** Only a call that has set its state and not yet returned holds the mutex. */
  ghost predicate MutexInv(w: W.State)
  {
    && (w.holder != -1 ==> 0 <= w.holder < |w.calls| && InMutex(w.calls[w.holder]))
    && (forall i: nat :: i < |w.calls| && InMutex(w.calls[i]) ==> w.holder == i)
    && (forall i: nat :: W.At(w, i, W.Releasing) ==> W.HoldsMutex(w.calls[i].kind))
  }

  predicate InMutex(c: W.Call) { W.HoldsMutex(c.kind) && !c.pc.Called? && !c.pc.Returned? }

  lemma StepKeepsMutex(w: W.State, a: W.Step)
    requires MutexInv(w) && W.Enabled(w, a)
    ensures MutexInv(W.Next(w, a))
  {
    if W.IsCallStep(a) {
      CallStepKeepsMutex(w, a);
    } else {
      assert forall i: nat, pc :: W.At(W.Next(w, a), i, pc) == W.At(w, i, pc);
    }
  }

  lemma CallStepKeepsMutex(w: W.State, a: W.Step)
    requires MutexInv(w) && W.Enabled(w, a) && W.IsCallStep(a)
    ensures MutexInv(W.CallStep(w, a))
  {
    var r := W.CallStep(w, a);
    if a.NewCall? {
      assert forall i: nat :: i < |w.calls| ==> r.calls[i] == w.calls[i];
    } else {
      CallMoves(w, a);
      OneCallMoved(w, r, a.call);
    }
  }

  lemma CallMoves(w: W.State, a: W.Step)
    requires MutexInv(w) && W.Enabled(w, a) && W.IsCallStep(a) && !a.NewCall?
    ensures Moved(w, W.CallStep(w, a), a.call)
  {
    if a.Change? { ChangeMoves(w, a.call); }
  }

  lemma ChangeMoves(w: W.State, i: nat)
    requires W.Enabled(w, W.Change(i))
    ensures Moved(w, W.ChangeStep(w, i), i)
  {
    var k := w.calls[i].kind;
    var changed := W.Changed(w, k);
    if W.NoEffect(w, k) {
      assert W.ChangeStep(w, i) == W.WithPc(w, i, W.Returned);
    } else {
      assert W.ChangeStep(w, i) == W.WithPc(changed, i, W.Exchanging).(holder := if W.HoldsMutex(k) then i else -1);
    }
  }

  /** Call i has taken one step, and the mutex with it if it got or gave it. */
  ghost predicate Moved(w: W.State, r: W.State, i: nat)
  {
    && i < |w.calls| == |r.calls|
    && (forall j: nat :: j < |w.calls| && j != i ==> r.calls[j] == w.calls[j])
    && r.calls[i].kind == w.calls[i].kind
    && (r.calls[i].pc.Releasing? ==> W.HoldsMutex(r.calls[i].kind))
    && (if InMutex(r.calls[i]) then r.holder == i && (w.holder == -1 || w.holder == i)
        else r.holder == if w.holder == i then -1 else w.holder)
  }

  lemma OneCallMoved(w: W.State, r: W.State, i: nat)
    requires MutexInv(w) && Moved(w, r, i)
    ensures MutexInv(r)
  {
    forall j: nat | W.At(r, j, W.Releasing) ensures W.HoldsMutex(r.calls[j].kind) {
      if j != i { assert W.At(w, j, W.Releasing); }
    }
  }

  lemma {:induction false} ExecKeepsMutex(w: W.State, steps: seq<W.Step>)
    requires MutexInv(w)
    ensures MutexInv(W.Exec(w, steps))
    decreases |steps|
  {
    if steps != [] {
      if W.Enabled(w, steps[0]) {
        StepKeepsMutex(w, steps[0]);
        ExecKeepsMutex(W.Next(w, steps[0]), steps[1..]);
      } else {
        ExecKeepsMutex(w, steps[1..]);
      }
    }
  }

  ghost predicate Inv(s: State)
  {
    Q.QuitInv(s.q) && W.WakeInv(s.w) && MutexInv(s.w) && Coupled(s)
  }

  lemma StepKeeps(s: State, a: Step)
    requires Inv(s) && Enabled(s, a)
    ensures Inv(Next(s, a))
  {
    Q.ExecKeeps(s.q, QuitSteps(s, a));
    W.ExecKeepsWake(s.w, WakeSteps(s, a));
    ExecKeepsMutex(s.w, WakeSteps(s, a));
    match a {
      case Loop(_) => LoopKeepsCoupled(s, a);
      case Thread(_) => ThreadKeepsCoupled(s, a);
      case Outside(_) => OutsideKeepsCoupled(s, a);
      case _ => ExitKeepsCoupled(s, a);
    }
  }

  lemma {:induction false} ExecKeeps(s: State, steps: seq<Step>)
    requires Inv(s)
    ensures Inv(Exec(s, steps))
    decreases |steps|
  {
    if steps != [] {
      if Enabled(s, steps[0]) {
        StepKeeps(s, steps[0]);
        ExecKeeps(Next(s, steps[0]), steps[1..]);
      } else {
        ExecKeeps(s, steps[1..]);
      }
    }
  }

  /** An exit() that saw a dispatcher interrupts it and records a wakeUp(), one call of the wake protocol each. */
  lemma ExitPokesAndWakes(s: State, i: nat)
    ensures Enabled(s, Poke(i)) ==>
              Next(s, Poke(i)).w.interrupt && |Next(s, Poke(i)).w.calls| == |s.w.calls| + 1
    ensures Enabled(s, Finish(i)) && Q.At(s.q, i, Q.Interrupted) ==>
              Next(s, Finish(i)).w.wakeUpRequested && |Next(s, Finish(i)).w.calls| == |s.w.calls| + 1
    ensures Enabled(s, Finish(i)) && !Q.At(s.q, i, Q.Interrupted) ==> Next(s, Finish(i)).w == s.w
  {
    if Enabled(s, Poke(i)) { CallCoupled(s.w, W.Kind.Interrupt); }
    if Enabled(s, Finish(i)) { CallCoupled(s.w, W.Kind.WakeUp); }
  }

  // ---------------------------------------------------------------- a blocked loop learns of exit()

  /**
    Over every interleaving: when an exit() has returned while the loop is blocked, the wake that ends the wait is
    coming, and once all calls are through, the token is there.
   */
  lemma ExitEndsTheWait(staleCode: int, platform: W.Platform, clock: int, steps: seq<Step>)
    requires Q.SomeReturned(Exec(Start(staleCode, platform, clock), steps).q.exits)
    ensures var s := Exec(Start(staleCode, platform, clock), steps);
            && s.q.passesAfter <= 1
            && (s.w.loop.Polling? ==> s.w.interrupt && W.WakeComing(s.w))
            && (s.w.loop.Polling? && W.AllReturned(s.w) ==> Enabled(s, Loop(W.WakeByToken)))
  {
    ExecKeeps(Start(staleCode, platform, clock), steps);
    Q.ReturnedFlagged(Exec(Start(staleCode, platform, clock), steps).q);
  }

  /** How far the loop is from the next step that QuitProtocol sees. */
  function Stage(w: W.State): nat
  {
    match w.loop
    case Entering(_, _) => 1
    case Draining => 2
    case Storing => 1
    case Peeking(_) => 2 * w.token + 1
    case PeekStoring(_) => 2 * w.token + 2
    case _ => 0
  }

  ghost predicate Nearer(s: State, r: State)
  {
    var before, after := Q.Distance(s.q.thread), Q.Distance(r.q.thread);
    after < before || (after == before && Stage(r.w) < Stage(s.w))
  }

  lemma LoopLeadsOut(s: State, a: Step)
    requires Inv(s) && Q.SomeReturned(s.q.exits) && Enabled(s, a) && a.Loop? && !a.inside.LockAndCheck?
    ensures Nearer(s, Next(s, a)) && Next(s, a).q.exits == s.q.exits && Next(s, a).w.calls == s.w.calls
  {
    OneWakeStep(s.w, a.inside);
    if QuitSteps(s, a) != [] {
      var t := QuitSteps(s, a)[0];
      OneQuitStep(s.q, t);
      Q.StepLeadsOut(s.q, t);
    }
  }

  /** After an exit() has returned, every step of the thread, inside processEvents() or out, brings the end nearer. */
  lemma EveryStepLeadsOut(s: State, a: Step)
    requires Inv(s) && Q.SomeReturned(s.q.exits) && Enabled(s, a) && (a.Loop? || a.Thread?)
    ensures Nearer(s, Next(s, a)) && Next(s, a).q.exits == s.q.exits && Next(s, a).w.calls == s.w.calls
  {
    if a.Thread? {
      OneQuitStep(s.q, a.around);
      Q.StepLeadsOut(s.q, a.around);
    } else if a.inside.LockAndCheck? {
      CheckThread(s.q, W.Next(s.w, W.LockAndCheck).loop.Entering?);
      OneWakeStep(s.w, W.LockAndCheck);
    } else {
      LoopLeadsOut(s, a);
    }
  }

  function WayOut(s: State): Step
  {
    match s.w.loop
    case Locking => Loop(W.LockAndCheck)
    case Entering(_, _) => Loop(W.Block)
    case Polling(_, _, _) => Loop(W.WakeByToken)
    case Draining => Loop(W.TakeToken)
    case Storing => Loop(W.ClearFlag)
    case Relocking => Loop(W.RelockAndCheck)
    case Peeking(_) => Loop(W.Peek)
    case PeekStoring(_) => Loop(W.ClearFlag)
    case Top =>
      match s.q.thread
      case Starting => Thread(Q.InstallDispatcher)
      case Installed => Thread(Q.EmitStarted)
      case Testing => Thread(Q.TestFlag)
      case Entry => Loop(W.TestInterrupt)
      case Dispatching => Thread(Q.EndDispatch)
      case _ => Thread(Q.LoadCode)
  }

  /** With the mutex free and no wait without a token, the thread goes on. */
  lemma Unhindered(s: State)
    requires Inv(s) && Q.SomeReturned(s.q.exits) && !s.q.thread.Finished?
    requires s.w.holder == -1 && (s.w.loop.Polling? ==> s.w.token > 0)
    ensures Enabled(s, WayOut(s)) && (WayOut(s).Loop? || WayOut(s).Thread?)
  {
    Q.ReturnedFlagged(s.q);
  }

  /** The thread is never stuck: it is not asleep without a token, and nobody keeps the mutex from it. */
  lemma NeverStuck(s: State)
    requires Inv(s) && Q.SomeReturned(s.q.exits) && W.AllReturned(s.w) && !s.q.thread.Finished?
    ensures Enabled(s, WayOut(s)) && (WayOut(s).Loop? || WayOut(s).Thread?)
  {
    Q.ReturnedFlagged(s.q);
    assert s.w.holder == -1;
    if s.w.loop.Polling? {
      assert W.WakeComing(s.w) && s.w.token > 0;
    }
    Unhindered(s);
  }

  /** Once an exit() and every other call have returned, the thread's own steps alone bring exec() to its return. */
  lemma {:induction false} ThreadReturns(s: State) returns (steps: seq<Step>)
    requires Inv(s) && Q.SomeReturned(s.q.exits) && W.AllReturned(s.w)
    ensures Exec(s, steps).q.thread.Finished?
    ensures forall i :: 0 <= i < |steps| ==> steps[i].Loop? || steps[i].Thread?
    decreases Q.Distance(s.q.thread), Stage(s.w)
  {
    if s.q.thread.Finished? {
      steps := [];
    } else {
      var a := WayOut(s);
      NeverStuck(s);
      EveryStepLeadsOut(s, a);
      StepKeeps(s, a);
      var rest := ThreadReturns(Next(s, a));
      steps := [a] + rest;
      assert steps[1..] == rest;
    }
  }

  lemma ExecReturns(staleCode: int, platform: W.Platform, clock: int, steps: seq<Step>) returns (more: seq<Step>)
    requires var s := Exec(Start(staleCode, platform, clock), steps); Q.SomeReturned(s.q.exits) && W.AllReturned(s.w)
    ensures Exec(Exec(Start(staleCode, platform, clock), steps), more).q.thread.Finished?
    ensures forall i :: 0 <= i < |more| ==> more[i].Loop? || more[i].Thread?
  {
    ExecKeeps(Start(staleCode, platform, clock), steps);
    more := ThreadReturns(Exec(Start(staleCode, platform, clock), steps));
  }

  // ---------------------------------------------------------------- from any state, one exit() is enough

  function CallWork(pc: W.CallPc): nat
  {
    match pc
    case Called => 4
    case Exchanging => 3
    case Writing => 2
    case Releasing => 1
    case Returned => 0
  }

  function Work(calls: seq<W.Call>): nat
  {
    if calls == [] then 0 else CallWork(calls[0].pc) + Work(calls[1..])
  }

  lemma {:induction false} WorkUpdate(calls: seq<W.Call>, i: nat, x: W.Call)
    requires i < |calls|
    ensures Work(calls[i := x]) == Work(calls) - CallWork(calls[i].pc) + CallWork(x.pc)
  {
    if i == 0 {
      assert calls[0 := x][1..] == calls[1..];
    } else {
      WorkUpdate(calls[1..], i - 1, x);
      assert calls[i := x][1..] == calls[1..][i - 1 := x];
    }
  }

  /** The next step of a call that has made its change. */
  predicate GoesOn(a: W.Step) { a.Exchange? || a.Write? || a.Release? }

  lemma GoingOnLowers(w: W.State, a: W.Step)
    requires W.Enabled(w, a) && GoesOn(a)
    ensures a.call < |W.CallStep(w, a).calls|
    ensures CallWork(W.CallStep(w, a).calls[a.call].pc) < CallWork(w.calls[a.call].pc)
  {
  }

  lemma GoingOnWorks(w: W.State, a: W.Step)
    requires W.Enabled(w, a) && GoesOn(a)
    ensures W.Next(w, a).loop == w.loop && Work(W.Next(w, a).calls) < Work(w.calls)
  {
    GoingOnLowers(w, a);
    WorkUpdate(w.calls, a.call, W.CallStep(w, a).calls[a.call]);
  }

  function HolderStep(w: W.State): W.Step
    requires 0 <= w.holder < |w.calls|
  {
    match w.calls[w.holder].pc
    case Exchanging => W.Exchange(w.holder)
    case Writing => W.Write(w.holder)
    case _ => W.Release(w.holder)
  }

  /** The call that brings the token to a blocked loop. */
  lemma WakersStep(w: W.State) returns (a: W.Step)
    requires W.WakeComing(w) && w.token == 0
    ensures W.Enabled(w, a) && GoesOn(a)
  {
    if i :| W.At(w, i, W.Writing) {
      a := W.Write(i);
    } else {
      var j :| W.At(w, j, W.Exchanging);
      a := W.Exchange(j);
    }
  }

  lemma CallGoesOn(s: State, o: W.Step)
    requires Inv(s) && W.Enabled(s.w, o) && GoesOn(o)
    ensures Enabled(s, Outside(o)) && Inv(Next(s, Outside(o)))
    ensures Next(s, Outside(o)) == State(s.q, W.Next(s.w, o)) && Work(Next(s, Outside(o)).w.calls) < Work(s.w.calls)
  {
    StepKeeps(s, Outside(o));
    OneWakeStep(s.w, o);
    GoingOnWorks(s.w, o);
  }

  /** The thread's own step, or one of the call it waits for. */
  lemma NextOut(s: State) returns (a: Step)
    requires Inv(s) && Q.SomeReturned(s.q.exits) && !s.q.thread.Finished?
    ensures Enabled(s, a) && Continues(a) && Inv(Next(s, a))
    ensures var r := Next(s, a);
            && r.q.exits == s.q.exits
            && ((Nearer(s, r) && r.w.calls == s.w.calls)
                || (r.q == s.q && Work(r.w.calls) < Work(s.w.calls)))
  {
    Q.ReturnedFlagged(s.q);
    if s.w.holder != -1 {
      a := Outside(HolderStep(s.w));
      CallGoesOn(s, a.other);
    } else if s.w.loop.Polling? && s.w.token == 0 {
      var o := WakersStep(s.w);
      a := Outside(o);
      CallGoesOn(s, o);
    } else {
      a := WayOut(s);
      Unhindered(s);
      EveryStepLeadsOut(s, a);
      StepKeeps(s, a);
    }
  }

  /** Nothing new begins: no exit() call, and no call of the wake protocol but those of exit(). */
  predicate Continues(a: Step)
  {
    && (a.Exit? ==> !a.exit.CallExit?)
    && (a.Outside? ==> GoesOn(a.other))
  }

  predicate AllContinue(steps: seq<Step>) { forall i :: 0 <= i < |steps| ==> Continues(steps[i]) }

  lemma {:induction false} LeadsOut(s: State) returns (steps: seq<Step>)
    requires Inv(s) && Q.SomeReturned(s.q.exits)
    ensures Exec(s, steps).q.thread.Finished? && Exec(s, steps).q.exits == s.q.exits && AllContinue(steps)
    decreases Q.Distance(s.q.thread), Work(s.w.calls), Stage(s.w)
  {
    if s.q.thread.Finished? {
      steps := [];
    } else {
      var a := NextOut(s);
      var rest := LeadsOut(Next(s, a));
      steps := [a] + rest;
      assert steps[1..] == rest;
    }
  }

  /** The next step of exit() call i. */
  function ExitStep(s: State, i: nat): Step
    requires i < |s.q.exits|
  {
    match s.q.exits[i].pc
    case Called => Exit(Q.StoreCode(i))
    case CodeStored => Exit(Q.StoreFlag(i))
    case FlagStored => Exit(Q.ReadDispatcher(i))
    case Poking => Poke(i)
    case _ => Finish(i)
  }

  function ExitRank(pc: Q.ExitPc): nat
  {
    match pc
    case Called => 5
    case CodeStored => 4
    case FlagStored => 3
    case Poking => 2
    case Interrupted => 1
    case SawNoDispatcher => 1
    case Returned => 0
  }

  lemma ExitGoesOn(s: State, i: nat)
    requires i < |s.q.exits| && !s.q.exits[i].pc.Returned? && s.w.holder == -1
    ensures Enabled(s, ExitStep(s, i)) && Continues(ExitStep(s, i))
    ensures var r := Next(s, ExitStep(s, i));
            && |r.q.exits| == |s.q.exits| && r.q.exits == s.q.exits[i := r.q.exits[i]]
            && ExitRank(r.q.exits[i].pc) < ExitRank(s.q.exits[i].pc)
  {
    OneQuitStep(s.q, QuitSteps(s, ExitStep(s, i))[0]);
  }

  lemma {:induction false} ExitReturns(s: State, i: nat) returns (steps: seq<Step>)
    requires Inv(s) && i < |s.q.exits|
    ensures Inv(Exec(s, steps)) && AllContinue(steps)
    ensures Q.At(Exec(s, steps).q, i, Q.Returned)
    decreases ExitRank(s.q.exits[i].pc), Work(s.w.calls)
  {
    if s.q.exits[i].pc.Returned? {
      steps := [];
    } else {
      var a := ExitStep(s, i);
      if s.w.holder != -1 {
        a := Outside(HolderStep(s.w));
        CallGoesOn(s, a.other);
      } else {
        ExitGoesOn(s, i);
        StepKeeps(s, a);
      }
      var rest := ExitReturns(Next(s, a), i);
      steps := [a] + rest;
      assert steps[1..] == rest;
    }
  }

  lemma {:induction false} ExecAppend(s: State, a: seq<Step>, b: seq<Step>)
    ensures Exec(s, a + b) == Exec(Exec(s, a), b)
    decreases |a|
  {
    if a == [] {
      assert [] + b == b;
    } else {
      assert (a + b)[1..] == a[1..] + b;
      ExecAppend(if Enabled(s, a[0]) then Next(s, a[0]) else s, a[1..], b);
    }
  }

  /**
    However a run stands, an exit() that was called can return and exec() after it, by steps of calls already made and
    of the thread: no call waits for ever, and none but this exit() is needed.
   */
  lemma OneExitIsEnough(staleCode: int, platform: W.Platform, clock: int, steps: seq<Step>, i: nat)
      returns (more: seq<Step>)
    requires i < |Exec(Start(staleCode, platform, clock), steps).q.exits|
    ensures var t := Exec(Exec(Start(staleCode, platform, clock), steps), more);
            Q.At(t.q, i, Q.Returned) && t.q.thread.Finished?
    ensures AllContinue(more)
  {
    var s := Exec(Start(staleCode, platform, clock), steps);
    ExecKeeps(Start(staleCode, platform, clock), steps);
    var first := ExitReturns(s, i);
    var rest := LeadsOut(Exec(s, first));
    ExecAppend(s, first, rest);
    more := first + rest;
  }
}
