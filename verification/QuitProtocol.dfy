/**
  Stopping a thread: exit() against threadBody() and exec(), interleaved store by store, for any number of
  concurrent exit() calls, from the moment start() has reset the exiting flag.
 */
module QuitProtocol {

  /** exit(): stores the code, stores the flag, reads the dispatcher, and pokes it if there is one. */
  datatype ExitPc = Called | CodeStored | FlagStored | Poking | Interrupted | SawNoDispatcher | Returned

  datatype ExitCall = ExitCall(code: int, pc: ExitPc)

  /**
    The thread: installing its dispatcher, testing the flag, one pass of processEvents(), and out.
    Entry is the interrupt test at the top of the pass; Waiting is blocked in waitForEvents().
   */
  datatype ThreadPc =
    | Starting
    | Installed
    | Testing
    | Entry
    | Locking
    | Waiting
    | Relocking
    | Dispatching
    | Leaving
    | Finished(result: int)

  datatype State = State(
    exits: seq<ExitCall>,
    exitCode: int, exiting: bool,
    dispatcher: bool, interrupt: bool,
    thread: ThreadPc,
    passesAfter: nat)                       // passes completed since some exit() returned

  function Start(staleCode: int): State
  {
    State([], staleCode, false, false, false, Starting, 0)
  }

  datatype Step =
    | CallExit(code: int)
    | StoreCode(call: nat)
    | StoreFlag(call: nat)
    | ReadDispatcher(call: nat)
    | Interrupt(call: nat)
    | WakeUp(call: nat)
    | OtherInterrupt
    | InstallDispatcher
    | EmitStarted
    | TestFlag
    | EnterPass
    | CheckQueue(hasWork: bool)
    | WakeFromWait
    | Relock
    | EndDispatch
    | LoadCode

  predicate At(s: State, i: nat, pc: ExitPc) { i < |s.exits| && s.exits[i].pc == pc }

  function WithPc(s: State, i: nat, pc: ExitPc): State
    requires i < |s.exits|
  {
    s.(exits := s.exits[i := s.exits[i].(pc := pc)])
  }

  ghost predicate SomeReturned(exits: seq<ExitCall>) { exists i :: 0 <= i < |exits| && exits[i].pc == Returned }

  predicate InPass(t: ThreadPc) { t.Entry? || t.Locking? || t.Waiting? || t.Relocking? || t.Dispatching? }

  ghost function EndPass(s: State): State
  {
    s.(thread := Testing, passesAfter := if SomeReturned(s.exits) then s.passesAfter + 1 else s.passesAfter)
  }

  predicate Enabled(s: State, a: Step)
  {
    match a
    case CallExit(_) => true
    case StoreCode(i) => At(s, i, Called)
    case StoreFlag(i) => At(s, i, CodeStored)
    case ReadDispatcher(i) => At(s, i, FlagStored)
    case Interrupt(i) => At(s, i, Poking)
    case WakeUp(i) => At(s, i, Interrupted) || At(s, i, SawNoDispatcher)
    case OtherInterrupt => s.dispatcher
    case InstallDispatcher => s.thread.Starting?
    case EmitStarted => s.thread.Installed?
    case TestFlag => s.thread.Testing?
    case EnterPass => s.thread.Entry?
    case CheckQueue(_) => s.thread.Locking?
    case WakeFromWait => s.thread.Waiting?
    case Relock => s.thread.Relocking?
    case EndDispatch => s.thread.Dispatching?
    case LoadCode => s.thread.Leaving?
  }

  ghost function Next(s: State, a: Step): State
    requires Enabled(s, a)
  {
    match a
    case CallExit(code) => s.(exits := s.exits + [ExitCall(code, Called)])
    case StoreCode(i) => WithPc(s.(exitCode := s.exits[i].code), i, CodeStored)
    case StoreFlag(i) => WithPc(s.(exiting := true), i, FlagStored)
    case ReadDispatcher(i) => WithPc(s, i, if s.dispatcher then Poking else SawNoDispatcher)
    case Interrupt(i) => WithPc(s.(interrupt := true), i, Interrupted)
    case WakeUp(i) => WithPc(s, i, Returned)
    case OtherInterrupt => s.(interrupt := true)
    case InstallDispatcher => s.(dispatcher := true, thread := Installed)
    case EmitStarted => s.(thread := Testing)
    case TestFlag => s.(thread := if !s.exiting && s.dispatcher then Entry else Leaving)
    case EnterPass => if s.interrupt then EndPass(s.(interrupt := false)) else s.(thread := Locking)
    case CheckQueue(hasWork) => s.(thread := if hasWork then Relocking else Waiting)
    case WakeFromWait => s.(thread := Relocking)
    case Relock => if s.interrupt then EndPass(s.(interrupt := false)) else s.(thread := Dispatching)
    case EndDispatch => EndPass(s)
    case LoadCode => s.(thread := Finished(s.exitCode), dispatcher := false)
  }

  ghost function Exec(s: State, steps: seq<Step>): State
    decreases |steps|
  {
    if steps == [] then s
    else Exec(if Enabled(s, steps[0]) then Next(s, steps[0]) else s, steps[1..])
  }

  // ---------------------------------------------------------------- the invariant

  predicate Stored(pc: ExitPc) { !pc.Called? }

  predicate Flagged(pc: ExitPc) { !pc.Called? && !pc.CodeStored? }

  ghost predicate FlagInv(s: State)
  {
    && (forall i :: 0 <= i < |s.exits| && Flagged(s.exits[i].pc) ==> s.exiting)
    && (s.exiting ==> exists i :: 0 <= i < |s.exits| && Flagged(s.exits[i].pc))
  }

  ghost predicate CodeInv(s: State)
  {
    (exists i :: 0 <= i < |s.exits| && Stored(s.exits[i].pc)) ==>
      exists i :: 0 <= i < |s.exits| && Stored(s.exits[i].pc) && s.exits[i].code == s.exitCode
  }

  /** A call that has poked the dispatcher while a pass is under way has left its interrupt for that pass. */
  ghost predicate PokeInv(s: State)
  {
    && (forall i :: At(s, i, Interrupted) && InPass(s.thread) && !s.thread.Dispatching? ==> s.interrupt)
    && (forall i :: At(s, i, Returned) && InPass(s.thread) && !s.thread.Dispatching? ==> s.interrupt)
    && (forall i :: At(s, i, SawNoDispatcher) ==> !InPass(s.thread))
    && (s.dispatcher <==> !s.thread.Starting? && !s.thread.Finished?)
  }

  ghost predicate PassInv(s: State)
  {
    && (!SomeReturned(s.exits) ==> s.passesAfter == 0)
    && (InPass(s.thread) ==> s.passesAfter == 0)
    && s.passesAfter <= 1
    && (s.thread.Leaving? || s.thread.Finished? ==> s.exiting)
    && (s.thread.Finished? ==> exists i :: 0 <= i < |s.exits| && Stored(s.exits[i].pc)
                                           && s.exits[i].code == s.thread.result)
  }

  ghost predicate QuitInv(s: State)
  {
    FlagInv(s) && CodeInv(s) && PokeInv(s) && PassInv(s)
  }

  predicate IsThreadStep(a: Step)
  {
    !a.CallExit? && !a.StoreCode? && !a.StoreFlag? && !a.ReadDispatcher? && !a.Interrupt? && !a.WakeUp?
  }

  /** A step of the thread leaves every exit() call where it was. */
  lemma ThreadStepFrame(s: State, a: Step)
    requires Enabled(s, a) && IsThreadStep(a)
    ensures var r := Next(s, a); r.exits == s.exits && r.exiting == s.exiting && r.exitCode == s.exitCode
  {
  }

  lemma ThreadStepPoke(s: State, a: Step)
    requires FlagInv(s) && PokeInv(s) && PassInv(s) && Enabled(s, a) && IsThreadStep(a)
    ensures PokeInv(Next(s, a))
  {
    var r := Next(s, a);
    ThreadStepFrame(s, a);
    assert forall i: nat, pc :: At(r, i, pc) == At(s, i, pc);
    if a.TestFlag? && r.thread.Entry? {
      assert forall i :: 0 <= i < |s.exits| ==> !Flagged(s.exits[i].pc);
    }
  }

  lemma ThreadStepPass(s: State, a: Step)
    requires FlagInv(s) && CodeInv(s) && PokeInv(s) && PassInv(s) && Enabled(s, a) && IsThreadStep(a)
    ensures PassInv(Next(s, a))
  {
    if SomeReturned(s.exits) {
      var i :| 0 <= i < |s.exits| && s.exits[i].pc == Returned;
      assert At(s, i, Returned) && Flagged(s.exits[i].pc);
    }
    if a.LoadCode? {
      var j :| 0 <= j < |s.exits| && Flagged(s.exits[j].pc);
      assert Stored(s.exits[j].pc);
    }
  }

  lemma ThreadStepKeeps(s: State, a: Step)
    requires QuitInv(s) && Enabled(s, a) && IsThreadStep(a)
    ensures QuitInv(Next(s, a))
  {
    ThreadStepFrame(s, a);
    ThreadStepPoke(s, a);
    ThreadStepPass(s, a);
  }

  /** A step of one exit() call leaves the thread and every other call where they were. */
  lemma ExitStepFrame(s: State, a: Step)
    requires Enabled(s, a) && !IsThreadStep(a)
    ensures var r := Next(s, a);
            && r.thread == s.thread && r.passesAfter == s.passesAfter && r.dispatcher == s.dispatcher
            && (s.interrupt ==> r.interrupt) && (s.exiting ==> r.exiting)
            && |s.exits| <= |r.exits|
            && (forall i: nat :: i < |s.exits| && (a.CallExit? || i != a.call) ==> r.exits[i] == s.exits[i])
            && (!a.CallExit? ==> |r.exits| == |s.exits| && r.exits[a.call].code == s.exits[a.call].code
                                 && Stored(r.exits[a.call].pc))
            && (a.CallExit? ==> r.exits == s.exits + [ExitCall(a.code, Called)])
  {
  }

  lemma ExitStepCode(s: State, a: Step)
    requires CodeInv(s) && Enabled(s, a) && !IsThreadStep(a)
    ensures CodeInv(Next(s, a))
  {
    var r := Next(s, a);
    ExitStepFrame(s, a);
    if a.StoreCode? {
      assert r.exits[a.call].code == r.exitCode;
    } else if exists i :: 0 <= i < |r.exits| && Stored(r.exits[i].pc) {
      var i :| 0 <= i < |r.exits| && Stored(r.exits[i].pc);
      assert Stored(s.exits[i].pc);
      var j :| 0 <= j < |s.exits| && Stored(s.exits[j].pc) && s.exits[j].code == s.exitCode;
      assert Stored(r.exits[j].pc) && r.exits[j].code == r.exitCode;
    }
  }

  lemma ExitStepPass(s: State, a: Step)
    requires FlagInv(s) && PassInv(s) && Enabled(s, a) && !IsThreadStep(a)
    ensures PassInv(Next(s, a))
  {
    var r := Next(s, a);
    ExitStepFrame(s, a);
    if SomeReturned(s.exits) {
      var i :| 0 <= i < |s.exits| && s.exits[i].pc == Returned;
      assert r.exits[i].pc == Returned;
    }
    if s.thread.Finished? {
      var j :| 0 <= j < |s.exits| && Stored(s.exits[j].pc) && s.exits[j].code == s.thread.result;
      assert Stored(r.exits[j].pc) && r.exits[j].code == r.thread.result;
    }
  }

  lemma ExitStepPoke(s: State, a: Step)
    requires FlagInv(s) && PokeInv(s) && Enabled(s, a) && !IsThreadStep(a)
    ensures PokeInv(Next(s, a))
  {
    var r := Next(s, a);
    ExitStepFrame(s, a);
    forall i: nat, pc | At(r, i, pc) && (pc.Interrupted? || pc.Returned? || pc.SawNoDispatcher?)
      ensures InPass(r.thread) && !r.thread.Dispatching? && !pc.SawNoDispatcher? ==> r.interrupt
      ensures pc.SawNoDispatcher? ==> !InPass(r.thread)
    {
      if a.CallExit? || i != a.call {
        assert i < |s.exits|;
        assert At(s, i, pc);
      } else if a.WakeUp? {
        assert At(s, i, Interrupted) || At(s, i, SawNoDispatcher);
      }
    }
  }

  lemma ExitStepKeeps(s: State, a: Step)
    requires QuitInv(s) && Enabled(s, a) && !IsThreadStep(a)
    ensures QuitInv(Next(s, a))
  {
    ExitStepCode(s, a);
    ExitStepPass(s, a);
    ExitStepPoke(s, a);
    ExitStepFlag(s, a);
  }

  lemma ExitStepFlag(s: State, a: Step)
    requires FlagInv(s) && Enabled(s, a) && !IsThreadStep(a)
    ensures FlagInv(Next(s, a))
  {
    var r := Next(s, a);
    ExitStepFrame(s, a);
    if s.exiting {
      var j :| 0 <= j < |s.exits| && Flagged(s.exits[j].pc);
      assert Flagged(r.exits[j].pc);
    }
    if a.StoreFlag? { assert Flagged(r.exits[a.call].pc); }
  }

  lemma StepKeeps(s: State, a: Step)
    requires QuitInv(s) && Enabled(s, a)
    ensures QuitInv(Next(s, a))
  {
    if IsThreadStep(a) { ThreadStepKeeps(s, a); } else { ExitStepKeeps(s, a); }
  }

  lemma {:induction false} ExecKeeps(s: State, steps: seq<Step>)
    requires QuitInv(s)
    ensures QuitInv(Exec(s, steps))
    decreases |steps|
  {
    if steps != [] {
      if Enabled(s, steps[0]) {
        StepKeeps(s, steps[0]);
        ExecKeeps(Next(s, steps[0]), steps[1..]);
      } else {
        ExecKeeps(s, steps[1..]);
      }
    }
  }

  // ---------------------------------------------------------------- what exit() promises

  /**
    Once an exit() call has returned: a blocked loop has an interrupt pending, which ends its wait; at most
    one pass completes after it, and no pass starts; and the loop leaves.
   */
  lemma QuitIsNeverLost(staleCode: int, steps: seq<Step>)
    requires SomeReturned(Exec(Start(staleCode), steps).exits)
    ensures var s := Exec(Start(staleCode), steps);
            && s.passesAfter <= 1
            && (s.thread.Waiting? ==> s.interrupt)
            && (s.thread.Testing? ==> Next(s, TestFlag).thread.Leaving?)
  {
    ExecKeeps(Start(staleCode), steps);
    ReturnedFlagged(Exec(Start(staleCode), steps));
  }

  /** exec() returns only after an exit(), and then a code some exit() of this run stored, never a stale one. */
  lemma ExecReturnsAnExitCode(staleCode: int, steps: seq<Step>)
    requires Exec(Start(staleCode), steps).thread.Finished?
    ensures var s := Exec(Start(staleCode), steps);
            exists i :: 0 <= i < |s.exits| && Stored(s.exits[i].pc) && s.exits[i].code == s.thread.result
  {
    ExecKeeps(Start(staleCode), steps);
  }

  /** The code of the last exit() of the run to have stored one, or `code` if none has. */
  ghost function LastStored(s: State, steps: seq<Step>, code: int): int
    decreases |steps|
  {
    if steps == [] then code
    else if !Enabled(s, steps[0]) then LastStored(s, steps[1..], code)
    else LastStored(Next(s, steps[0]), steps[1..],
                    if steps[0].StoreCode? then s.exits[steps[0].call].code else code)
  }

  /** Of several exit() calls the last store wins; nothing else touches the code. */
  lemma {:induction false} LastStoreWins(s: State, steps: seq<Step>)
    ensures Exec(s, steps).exitCode == LastStored(s, steps, s.exitCode)
    decreases |steps|
  {
    if steps != [] {
      var s' := if Enabled(s, steps[0]) then Next(s, steps[0]) else s;
      LastStoreWins(s', steps[1..]);
    }
  }

  lemma {:induction false} ExecAppend(s: State, a: seq<Step>, b: seq<Step>)
    ensures Exec(s, a + b) == Exec(Exec(s, a), b)
    decreases |a|
  {
    if a == [] {
      assert a + b == b;
    } else {
      assert (a + b)[1..] == a[1..] + b;
      ExecAppend(if Enabled(s, a[0]) then Next(s, a[0]) else s, a[1..], b);
    }
  }

  lemma {:induction false} FinishedStays(s: State, steps: seq<Step>)
    requires s.thread.Finished?
    ensures Exec(s, steps).thread == s.thread
    decreases |steps|
  {
    if steps != [] {
      FinishedStays(if Enabled(s, steps[0]) then Next(s, steps[0]) else s, steps[1..]);
    }
  }

  /** exec() returns the code stored last before it leaves, whatever exit() calls come after. */
  lemma ResultIsLastStored(staleCode: int, before: seq<Step>, after: seq<Step>)
    requires Enabled(Exec(Start(staleCode), before), LoadCode)
    ensures Exec(Start(staleCode), before + [LoadCode] + after).thread ==
              Finished(LastStored(Start(staleCode), before, staleCode))
  {
    var s := Exec(Start(staleCode), before);
    LastStoreWins(Start(staleCode), before);
    ExecAppend(Start(staleCode), before + [LoadCode], after);
    ExecAppend(Start(staleCode), before, [LoadCode]);
    assert [LoadCode][1..] == [];
    assert Exec(s, [LoadCode]) == Next(s, LoadCode);
    FinishedStays(Next(s, LoadCode), after);
  }

  // ---------------------------------------------------------------- the way out

  /** How many thread steps are left until exec() returns, if nobody calls anything any more. */
  function Distance(t: ThreadPc): nat
  {
    match t
    case Finished(_) => 0
    case Leaving => 1
    case Testing => 2
    case Installed => 3
    case Starting => 4
    case Dispatching => 3
    case Relocking => 4
    case Waiting => 5
    case Locking => 6
    case Entry => 7
  }

  lemma StepLeadsOut(s: State, a: Step)
    requires QuitInv(s) && SomeReturned(s.exits) && Enabled(s, a) && IsThreadStep(a) && !a.OtherInterrupt?
    ensures Distance(Next(s, a).thread) < Distance(s.thread)
  {
    ReturnedFlagged(s);
  }

  lemma ReturnedFlagged(s: State)
    requires QuitInv(s) && SomeReturned(s.exits)
    ensures s.exiting && (InPass(s.thread) && !s.thread.Dispatching? ==> s.interrupt)
  {
    var i :| 0 <= i < |s.exits| && s.exits[i].pc == Returned;
    assert At(s, i, Returned) && Flagged(s.exits[i].pc);
  }

  /** After an exit() returned, every step of the thread brings exec() closer to returning. */
  lemma EveryStepLeadsOut(staleCode: int, steps: seq<Step>, a: Step)
    requires var s := Exec(Start(staleCode), steps);
             SomeReturned(s.exits) && Enabled(s, a) && IsThreadStep(a) && !a.OtherInterrupt?
    ensures var s := Exec(Start(staleCode), steps); Distance(Next(s, a).thread) < Distance(s.thread)
  {
    ExecKeeps(Start(staleCode), steps);
    StepLeadsOut(Exec(Start(staleCode), steps), a);
  }
}
