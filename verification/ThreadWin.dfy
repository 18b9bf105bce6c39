/**
  The Windows lifecycle of a Thread: the thread handle, the waiter count, and restarts that may overlap
  waits of earlier runs. Handles are numbered by run, from 1; 0 is the null handle.
 */
module ThreadWin {

  /** The OS thread of the newest run. Ended means its handle is signalled. */
  datatype BodyPc = Born | Body | Tail | Cleared | Ended

  datatype WaitPc =
    | Called
    | Blocked(handle: nat)                        // counted, inside WaitForSingleObject()
    | Woke(on: nat, completed: bool)              // counted, wants mPriorityMutex
    | Returned(result: bool)

  datatype Wait = Wait(timed: bool, pc: WaitPc)

  datatype StarterPc = Idle | Reaping(own: nat) | Holding

  datatype State = State(
    running: bool, handle: nat, waiters: int,
    body: BodyPc, starter: StarterPc,
    waits: seq<Wait>,
    created: nat, closed: seq<nat>)

  function Start(): State
  {
    State(false, 0, 0, Ended, Idle, [], 0, [])
  }

  datatype Step =
    | CallStart
    | LockStart
    | Create(ok: bool)
    | PassGate
    | RunBody
    | ClearRunning
    | EndThread
    | CallWait(timed: bool)
    | Register(w: nat)
    | Wake(w: nat)
    | TimeOut(w: nat)
    | Deregister(w: nat)

  predicate Counted(pc: WaitPc) { pc.Blocked? || pc.Woke? }

  function On(pc: WaitPc): nat { match pc case Blocked(h) => h case Woke(h, _) => h case _ => 0 }

  predicate In(s: State, w: nat) { w < |s.waits| }

  /** mPriorityMutex is held across statements only by start(). */
  predicate MutexFree(s: State) { !s.starter.Holding? }

  predicate Signalled(s: State, h: nat) { h < s.created || (h == s.created && s.body.Ended?) }

  function WithPc(s: State, w: nat, pc: WaitPc): State
    requires In(s, w)
  {
    s.(waits := s.waits[w := s.waits[w].(pc := pc)])
  }

  predicate Enabled(s: State, a: Step)
  {
    match a
    case CallStart => s.starter.Idle?
    case LockStart => s.starter.Reaping? && In(s, s.starter.own) && s.waits[s.starter.own].pc.Returned?
    case Create(_) => s.starter.Holding?
    case PassGate => s.body.Born? && MutexFree(s)
    case RunBody => s.body.Body?
    case ClearRunning => s.body.Tail? && MutexFree(s)
    case EndThread => s.body.Cleared?
    case CallWait(_) => true
    case Register(w) => In(s, w) && s.waits[w].pc.Called? && MutexFree(s)
    case Wake(w) => In(s, w) && s.waits[w].pc.Blocked? && Signalled(s, s.waits[w].pc.handle)
    case TimeOut(w) => In(s, w) && s.waits[w].pc.Blocked? && s.waits[w].timed
    case Deregister(w) => In(s, w) && s.waits[w].pc.Woke? && MutexFree(s)
  }

  function Deregistered(s: State, w: nat): State
    requires In(s, w) && s.waits[w].pc.Woke?
  {
    var h, completed := s.waits[w].pc.on, s.waits[w].pc.completed;
    var s' := WithPc(s.(waiters := s.waiters - 1), w, Returned(completed));
    if completed && s'.waiters == 0
    then s'.(closed := s.closed + [h], handle := if s.handle == h then 0 else s.handle)
    else s'
  }

  function Next(s: State, a: Step): State
    requires Enabled(s, a)
  {
    match a
    case CallStart =>
      if s.running then s
      else s.(starter := Reaping(|s.waits|), waits := s.waits + [Wait(false, Called)])
    case LockStart => s.(starter := Holding, running := true)
    case Create(ok) =>
      if ok then s.(starter := Idle, created := s.created + 1, handle := s.created + 1, body := Born)
      else s.(starter := Idle, running := false)
    case PassGate => s.(body := Body)
    case RunBody => s.(body := Tail)
    case ClearRunning => s.(body := Cleared, running := false)
    case EndThread => s.(body := Ended)
    case CallWait(timed) => s.(waits := s.waits + [Wait(timed, Called)])
    case Register(w) =>
      if s.handle == 0 then WithPc(s, w, Returned(true))
      else WithPc(s.(waiters := s.waiters + 1), w, Blocked(s.handle))
    case Wake(w) => WithPc(s, w, Woke(s.waits[w].pc.handle, true))
    case TimeOut(w) => WithPc(s, w, Woke(s.waits[w].pc.handle, false))
    case Deregister(w) => Deregistered(s, w)
  }

  function Exec(s: State, steps: seq<Step>): State
    decreases |steps|
  {
    if steps == [] then s
    else Exec(if Enabled(s, steps[0]) then Next(s, steps[0]) else s, steps[1..])
  }

  // ---------------------------------------------------------------- the waiter count is a count

  function Count(waits: seq<Wait>): nat
  {
    if waits == [] then 0 else (if Counted(waits[0].pc) then 1 else 0) + Count(waits[1..])
  }

  lemma {:induction false} CountUpdate(waits: seq<Wait>, w: nat, x: Wait)
    requires w < |waits|
    ensures Count(waits[w := x]) ==
              Count(waits) - (if Counted(waits[w].pc) then 1 else 0) + (if Counted(x.pc) then 1 else 0)
  {
    if w == 0 {
      assert waits[0 := x][1..] == waits[1..];
    } else {
      CountUpdate(waits[1..], w - 1, x);
      assert waits[w := x][1..] == waits[1..][w - 1 := x];
    }
  }

  lemma {:induction false} CountAppend(waits: seq<Wait>, x: Wait)
    ensures Count(waits + [x]) == Count(waits) + if Counted(x.pc) then 1 else 0
  {
    if waits == [] {
      assert [] + [x] == [x];
    } else {
      CountAppend(waits[1..], x);
      assert (waits + [x])[1..] == waits[1..] + [x];
    }
  }

  lemma {:induction false} CountZero(waits: seq<Wait>)
    ensures Count(waits) == 0 <==> forall w :: 0 <= w < |waits| ==> !Counted(waits[w].pc)
  {
    if waits != [] {
      CountZero(waits[1..]);
      if Count(waits) == 0 {
        forall w | 0 <= w < |waits| ensures !Counted(waits[w].pc) {
          if w > 0 { assert waits[w] == waits[1..][w - 1]; }
        }
      } else if !Counted(waits[0].pc) {
        var w :| 0 <= w < |waits[1..]| && Counted(waits[1..][w].pc);
        assert Counted(waits[w + 1].pc);
      }
    }
  }

  // ---------------------------------------------------------------- the invariant

  predicate Alive(b: BodyPc) { b.Born? || b.Body? || b.Tail? }

  ghost predicate NoDuplicates(q: seq<nat>)
  {
    forall i, j :: 0 <= i < j < |q| ==> q[i] != q[j]
  }

  ghost predicate WaitInv(s: State, x: Wait)
  {
    && (Counted(x.pc) ==> 1 <= On(x.pc) <= s.created && On(x.pc) !in s.closed)
    && (x.pc.Woke? && x.pc.completed ==> Signalled(s, x.pc.on))
    && (!x.timed && x.pc.Woke? ==> x.pc.completed)
  }

  ghost predicate HandleInv(s: State)
  {
    && (s.handle == s.created || (s.handle == 0 && s.created in s.closed))
    && (s.handle != 0 ==> s.handle !in s.closed)
    && (forall h :: h in s.closed ==> 1 <= h <= s.created && Signalled(s, h))
    && NoDuplicates(s.closed)
    && s.waiters == Count(s.waits)
  }

  /** What start() has established about the previous run when it takes the mutex. */
  ghost predicate RunInv(s: State)
  {
    && (s.running && !s.starter.Holding? ==> Alive(s.body))
    && (Alive(s.body) ==> s.running && !s.starter.Reaping? && s.created > 0)
    && (s.starter.Holding? ==> s.body.Ended? && s.running)
    && (s.created == 0 ==> s.body.Ended?)
    && (s.starter.Reaping? ==>
          && !s.running && In(s, s.starter.own) && !s.waits[s.starter.own].timed
          && (s.waits[s.starter.own].pc.Returned? ==> s.body.Ended?)
          && (Counted(s.waits[s.starter.own].pc) ==> On(s.waits[s.starter.own].pc) == s.created))
  }

  ghost predicate Inv(s: State)
  {
    HandleInv(s) && RunInv(s) && forall w :: 0 <= w < |s.waits| ==> WaitInv(s, s.waits[w])
  }

  lemma StartInv()
    ensures Inv(Start())
  {
  }

  lemma DeregisterKeepsHandles(s: State, w: nat)
    requires Inv(s) && Enabled(s, Deregister(w))
    ensures HandleInv(Next(s, Deregister(w)))
    ensures forall v :: 0 <= v < |s.waits| ==> WaitInv(Next(s, Deregister(w)), Next(s, Deregister(w)).waits[v])
  {
    var r := Next(s, Deregister(w));
    assert WaitInv(s, s.waits[w]);
    CountUpdate(s.waits, w, r.waits[w]);
    CountZero(r.waits);
    forall v | 0 <= v < |s.waits| ensures WaitInv(r, r.waits[v]) {
      assert WaitInv(s, s.waits[v]);
      if v != w { assert r.waits[v] == s.waits[v]; }
    }
  }

  lemma StepKeepsHandles(s: State, a: Step)
    requires Inv(s) && Enabled(s, a)
    ensures HandleInv(Next(s, a))
  {
    var r := Next(s, a);
    match a {
      case Deregister(w) => DeregisterKeepsHandles(s, w);
      case CallStart => CountAppend(s.waits, Wait(false, Called));
      case CallWait(timed) => CountAppend(s.waits, Wait(timed, Called));
      case Register(w) => CountUpdate(s.waits, w, r.waits[w]);
      case Wake(w) => CountUpdate(s.waits, w, r.waits[w]);
      case TimeOut(w) => CountUpdate(s.waits, w, r.waits[w]);
      case _ =>
    }
  }

  lemma StepKeepsRun(s: State, a: Step)
    requires Inv(s) && Enabled(s, a)
    ensures RunInv(Next(s, a))
  {
    if s.starter.Reaping? { assert WaitInv(s, s.waits[s.starter.own]); }
  }

  lemma StepKeepsWait(s: State, a: Step, v: nat)
    requires Inv(s) && Enabled(s, a) && v < |Next(s, a).waits|
    ensures WaitInv(Next(s, a), Next(s, a).waits[v])
  {
    if a.Deregister? { DeregisterKeepsHandles(s, a.w); }
    if v < |s.waits| { assert WaitInv(s, s.waits[v]); }
  }

  lemma StepKeeps(s: State, a: Step)
    requires Inv(s) && Enabled(s, a)
    ensures Inv(Next(s, a))
  {
    StepKeepsHandles(s, a);
    StepKeepsRun(s, a);
    forall v | 0 <= v < |Next(s, a).waits| ensures WaitInv(Next(s, a), Next(s, a).waits[v]) {
      StepKeepsWait(s, a, v);
    }
  }

  lemma {:induction false} ExecKeeps(s: State, steps: seq<Step>)
    requires Inv(s)
    ensures Inv(Exec(s, steps))
    decreases |steps|
  {
    if steps != [] {
      if Enabled(s, steps[0]) {
        StepKeeps(s, steps[0]);
        ExecKeeps(Next(s, steps[0]), steps[1..]);
      } else {
        ExecKeeps(s, steps[1..]);
      }
    }
  }

  // ---------------------------------------------------------------- the handle protocol

  /** A handle is never closed under a waiter, and never twice, however many waits and restarts overlap. */
  lemma HandlesAreSafe(steps: seq<Step>)
    ensures var s := Exec(Start(), steps);
            && NoDuplicates(s.closed)
            && (forall w :: 0 <= w < |s.waits| && Counted(s.waits[w].pc) ==> On(s.waits[w].pc) !in s.closed)
  {
    StartInv();
    ExecKeeps(Start(), steps);
    var s := Exec(Start(), steps);
    assert forall w :: 0 <= w < |s.waits| ==> WaitInv(s, s.waits[w]);
  }

  /** The newest run's handle stays in place until it is itself closed: no waiter of an old run forgets it. */
  lemma NewHandleIsNotForgotten(steps: seq<Step>)
    ensures var s := Exec(Start(), steps);
            s.created > 0 ==> (s.handle == s.created <==> s.created !in s.closed)
  {
    StartInv();
    ExecKeeps(Start(), steps);
  }

  /** Step a is a wait() leaving that saw its thread end, on handle h, with no other wait() inside. */
  predicate LastOut(s: State, a: Step, h: nat)
  {
    && a.Deregister? && Enabled(s, a) && s.waits[a.w].pc == Woke(h, true)
    && forall v :: 0 <= v < |s.waits| && v != a.w ==> !Counted(s.waits[v].pc)
  }

  ghost predicate SomeLastOut(s: State, steps: seq<Step>, h: nat)
    decreases |steps|
  {
    steps != [] &&
    (LastOut(s, steps[0], h) || SomeLastOut(if Enabled(s, steps[0]) then Next(s, steps[0]) else s, steps[1..], h))
  }

  lemma NobodyLeft(s: State, w: nat)
    requires Inv(s) && Enabled(s, Deregister(w))
    ensures s.waiters == 1 <==> forall v :: 0 <= v < |s.waits| && v != w ==> !Counted(s.waits[v].pc)
  {
    var left := s.waits[w := Wait(s.waits[w].timed, Returned(true))];
    CountUpdate(s.waits, w, left[w]);
    CountZero(left);
    forall v | 0 <= v < |s.waits| && v != w ensures left[v] == s.waits[v] { }
  }

  lemma StepClosesIff(s: State, a: Step, h: nat)
    requires Inv(s) && Enabled(s, a)
    ensures h in Next(s, a).closed <==> h in s.closed || LastOut(s, a, h)
  {
    if a.Deregister? { NobodyLeft(s, a.w); }
  }

  lemma {:induction false} ClosedFromIff(s: State, steps: seq<Step>, h: nat)
    requires Inv(s)
    ensures h in Exec(s, steps).closed <==> h in s.closed || SomeLastOut(s, steps, h)
    decreases |steps|
  {
    if steps != [] {
      if Enabled(s, steps[0]) {
        StepKeeps(s, steps[0]);
        StepClosesIff(s, steps[0], h);
        ClosedFromIff(Next(s, steps[0]), steps[1..], h);
      } else {
        ClosedFromIff(s, steps[1..], h);
      }
    }
  }

  /**
    Over every run, overlapping restarts and timed waits included: a handle is closed if and only if some wait() on it
    that saw its thread end was the last one out.
   */
  lemma ClosedIff(steps: seq<Step>, h: nat)
    ensures h in Exec(Start(), steps).closed <==> SomeLastOut(Start(), steps, h)
  {
    StartInv();
    ClosedFromIff(Start(), steps, h);
  }

  /** A wait() that saw the thread end closes its handle exactly when no other wait() is inside. */
  lemma LastOneOutCloses(steps: seq<Step>, w: nat)
    requires Enabled(Exec(Start(), steps), Deregister(w))
    ensures var s := Exec(Start(), steps);
            var r := Next(s, Deregister(w));
            s.waits[w].pc.on in r.closed <==>
              s.waits[w].pc.completed && forall v :: 0 <= v < |s.waits| && v != w ==> !Counted(s.waits[v].pc)
  {
    StartInv();
    ExecKeeps(Start(), steps);
    var s := Exec(Start(), steps);
    var r := Next(s, Deregister(w));
    assert WaitInv(s, s.waits[w]);
    CountUpdate(s.waits, w, r.waits[w]);
    CountZero(r.waits);
    forall v | 0 <= v < |s.waits| && v != w ensures r.waits[v] == s.waits[v] { }
    assert r.waits[w].pc.Returned?;
  }

  /**
    setPriority() under mPriorityMutex: running together with a present handle means the handle is the
    current run's, not closed, and the thread has not reached the end of its body.
   */
  lemma PriorityHandleIsSafe(steps: seq<Step>)
    requires var s := Exec(Start(), steps); MutexFree(s) && s.running && s.handle != 0
    ensures var s := Exec(Start(), steps);
            s.handle == s.created && s.handle !in s.closed && Alive(s.body)
  {
    StartInv();
    ExecKeeps(Start(), steps);
  }

  // ---------------------------------------------------------------- what wait() and start() answer

  predicate At(s: State, w: nat, pc: WaitPc) { In(s, w) && s.waits[w].pc == pc }

  predicate TimesOut(s: State, a: Step, w: nat) { a == TimeOut(w) && Enabled(s, a) }

  ghost predicate SomeTimesOut(s: State, steps: seq<Step>, w: nat)
    decreases |steps|
  {
    steps != [] &&
    (TimesOut(s, steps[0], w) || SomeTimesOut(if Enabled(s, steps[0]) then Next(s, steps[0]) else s, steps[1..], w))
  }

  predicate GaveUp(s: State, w: nat)
  {
    In(s, w) && (At(s, w, Returned(false)) || (s.waits[w].pc.Woke? && !s.waits[w].pc.completed))
  }

  lemma StepGivesUpIff(s: State, a: Step, w: nat)
    requires Enabled(s, a)
    ensures GaveUp(Next(s, a), w) <==> GaveUp(s, w) || TimesOut(s, a, w)
  {
  }

  lemma {:induction false} GaveUpIff(s: State, steps: seq<Step>, w: nat)
    ensures GaveUp(Exec(s, steps), w) <==> GaveUp(s, w) || SomeTimesOut(s, steps, w)
    decreases |steps|
  {
    if steps != [] {
      if Enabled(s, steps[0]) {
        StepGivesUpIff(s, steps[0], w);
        GaveUpIff(Next(s, steps[0]), steps[1..], w);
      } else {
        GaveUpIff(s, steps[1..], w);
      }
    }
  }

  /** Over every run, a wait() that has returned says false if and only if its time ran out as it was blocked. */
  lemma FalseMeansTimedOut(steps: seq<Step>, w: nat)
    requires In(Exec(Start(), steps), w) && Exec(Start(), steps).waits[w].pc.Returned?
    ensures Exec(Start(), steps).waits[w].pc == Returned(!SomeTimesOut(Start(), steps, w))
  {
    GaveUpIff(Start(), steps, w);
  }

  /** Wait w looked at the handle when h was the newest run, and says true only once that run has ended. */
  ghost predicate WaitsFor(s: State, w: nat, h: nat)
  {
    && In(s, w)
    && match s.waits[w].pc
       case Called => false
       case Blocked(on) => on == h
       case Woke(on, completed) => on == h
       case Returned(result) => result ==> h == 0 || Signalled(s, h)
  }

  lemma StepKeepsWaitsFor(s: State, a: Step, w: nat, h: nat)
    requires Inv(s) && WaitsFor(s, w, h) && h <= s.created && Enabled(s, a)
    ensures WaitsFor(Next(s, a), w, h) && h <= Next(s, a).created
  {
    assert WaitInv(s, s.waits[w]);
  }

  lemma {:induction false} ExecKeepsWaitsFor(s: State, steps: seq<Step>, w: nat, h: nat)
    requires Inv(s) && WaitsFor(s, w, h) && h <= s.created
    ensures WaitsFor(Exec(s, steps), w, h)
    decreases |steps|
  {
    if steps != [] {
      if Enabled(s, steps[0]) {
        StepKeeps(s, steps[0]);
        StepKeepsWaitsFor(s, steps[0], w, h);
        ExecKeepsWaitsFor(Next(s, steps[0]), steps[1..], w, h);
      } else {
        ExecKeepsWaitsFor(s, steps[1..], w, h);
      }
    }
  }

  /** A wait() that returns true has outlasted every run created before it looked at the handle. */
  lemma TrueMeansEnded(steps: seq<Step>, w: nat, more: seq<Step>, h: nat)
    requires Enabled(Exec(Start(), steps), Register(w)) && 1 <= h <= Exec(Start(), steps).created
    ensures var t := Exec(Next(Exec(Start(), steps), Register(w)), more);
            At(t, w, Returned(true)) ==> Signalled(t, h)
  {
    var s := Exec(Start(), steps);
    StartInv();
    ExecKeeps(Start(), steps);
    StepKeeps(s, Register(w));
    ExecKeepsWaitsFor(Next(s, Register(w)), more, w, s.created);
    CreatedGrows(Next(s, Register(w)), more);
  }

  lemma RunNext(s: State, a: Step, rest: seq<Step>)
    requires Enabled(s, a)
    ensures Exec(s, [a] + rest) == Exec(Next(s, a), rest)
  {
    assert ([a] + rest)[1..] == rest;
  }

  /** start() of a thread that is neither running nor unreaped creates a run; of a running one it does nothing. */
  lemma StartCreates(steps: seq<Step>)
    requires Enabled(Exec(Start(), steps), CallStart)
    ensures var s := Exec(Start(), steps);
            && (s.running ==> Next(s, CallStart) == s)
            && (!s.running && s.handle == 0 ==>
                  var n := |s.waits|;
                  var t := Exec(s, [CallStart] + ([Register(n)] + ([LockStart] + ([Create(true)] + []))));
                  t.running && t.body.Born? && t.created == s.created + 1 && t.handle == t.created
                  && Enabled(t, PassGate))
  {
    var s := Exec(Start(), steps);
    var n := |s.waits|;
    if !s.running && s.handle == 0 {
      var s1 := Next(s, CallStart);
      RunNext(s, CallStart, [Register(n)] + ([LockStart] + ([Create(true)] + [])));
      var s2 := Next(s1, Register(n));
      RunNext(s1, Register(n), [LockStart] + ([Create(true)] + []));
      assert s2.waits[n].pc.Returned?;
      RunNext(s2, LockStart, [Create(true)] + []);
      RunNext(Next(s2, LockStart), Create(true), []);
    }
  }

  // ---------------------------------------------------------------- no wait() is stuck

  /** The step that brings wait w nearer to its return: its own, or one of those it waits for. */
  function Help(s: State, w: nat): Step
    requires In(s, w)
  {
    if s.starter.Holding? then Create(true)
    else
      match s.waits[w].pc
      case Called => Register(w)
      case Blocked(h) => if Signalled(s, h) then Wake(w) else BodyStep(s.body)
      case _ => Deregister(w)
  }

  function BodyStep(b: BodyPc): Step
  {
    match b
    case Born => PassGate
    case Body => RunBody
    case Tail => ClearRunning
    case _ => EndThread
  }

  function BodyRank(b: BodyPc): nat
  {
    match b
    case Born => 4
    case Body => 3
    case Tail => 2
    case Cleared => 1
    case Ended => 0
  }

  function WaitRank(pc: WaitPc): nat
  {
    match pc
    case Called => 3
    case Blocked(_) => 2
    case Woke(_, _) => 1
    case Returned(_) => 0
  }

  function StartRank(b: StarterPc): nat { if b.Holding? then 1 else 0 }

  lemma HelpHelps(s: State, w: nat)
    requires Inv(s) && In(s, w) && !s.waits[w].pc.Returned?
    ensures Enabled(s, Help(s, w))
    ensures var r := Next(s, Help(s, w));
            && In(r, w)
            && (StartRank(r.starter) < StartRank(s.starter)
                || (r.starter == s.starter
                    && (BodyRank(r.body) < BodyRank(s.body)
                        || (r.body == s.body && WaitRank(r.waits[w].pc) < WaitRank(s.waits[w].pc)))))
  {
    assert WaitInv(s, s.waits[w]);
  }

  /** By steps of the thread, of a start() that holds the mutex and of wait w itself, without a timeout, w returns. */
  lemma {:induction false} ReturnsFrom(s: State, w: nat) returns (steps: seq<Step>)
    requires Inv(s) && In(s, w)
    ensures In(Exec(s, steps), w) && Exec(s, steps).waits[w].pc.Returned?
    ensures forall i :: 0 <= i < |steps| ==> !steps[i].TimeOut? && !steps[i].CallStart?
    decreases StartRank(s.starter), BodyRank(s.body), WaitRank(s.waits[w].pc)
  {
    if s.waits[w].pc.Returned? {
      steps := [];
    } else {
      var a := Help(s, w);
      HelpHelps(s, w);
      StepKeeps(s, a);
      var rest := ReturnsFrom(Next(s, a), w);
      RunNext(s, a, rest);
      steps := [a] + rest;
    }
  }

  /** Whatever has happened, no wait() is stuck for good: as long as the thread goes on, it returns. */
  lemma EveryWaitCanReturn(steps: seq<Step>, w: nat) returns (more: seq<Step>)
    requires In(Exec(Start(), steps), w)
    ensures var t := Exec(Exec(Start(), steps), more); In(t, w) && t.waits[w].pc.Returned?
    ensures forall i :: 0 <= i < |more| ==> !more[i].TimeOut? && !more[i].CallStart?
  {
    StartInv();
    ExecKeeps(Start(), steps);
    more := ReturnsFrom(Exec(Start(), steps), w);
  }

  // ---------------------------------------------------------------- restarts that do not overlap waits

  predicate Quiet(s: State)
  {
    forall w :: 0 <= w < |s.waits| ==> !Counted(s.waits[w].pc)
  }

  /** Untimed waits only, and start() replaces the handle only when no wait() is inside. */
  predicate Calm(s: State, a: Step)
  {
    (a.LockStart? ==> Quiet(s)) && (a.CallWait? ==> !a.timed)
  }

  function ExecCalm(s: State, steps: seq<Step>): State
    decreases |steps|
  {
    if steps == [] then s
    else ExecCalm(if Enabled(s, steps[0]) && Calm(s, steps[0]) then Next(s, steps[0]) else s, steps[1..])
  }

  ghost predicate CalmInv(s: State)
  {
    && Inv(s)
    && (forall h :: 1 <= h < s.created ==> h in s.closed)
    && (forall w :: 0 <= w < |s.waits| ==> !s.waits[w].timed)
    && (forall w :: 0 <= w < |s.waits| && Counted(s.waits[w].pc) ==> On(s.waits[w].pc) == s.created)
    && (s.starter.Holding? ==> Quiet(s) && s.handle == 0)
    && (s.starter.Reaping? && s.waits[s.starter.own].pc.Returned? && s.handle != 0 ==> !Quiet(s))
  }

  lemma CalmDeregister(s: State, w: nat)
    requires CalmInv(s) && Enabled(s, Deregister(w))
    ensures CalmInv(Next(s, Deregister(w)))
  {
    var r := Next(s, Deregister(w));
    StepKeeps(s, Deregister(w));
    assert WaitInv(s, s.waits[w]);
    CountUpdate(s.waits, w, r.waits[w]);
    CountZero(r.waits);
    assert On(s.waits[w].pc) == s.created;
    forall v | 0 <= v < |s.waits| && v != w ensures r.waits[v] == s.waits[v] { }
  }

  lemma CalmStep(s: State, a: Step)
    requires CalmInv(s) && Enabled(s, a) && Calm(s, a)
    ensures CalmInv(Next(s, a))
  {
    StepKeeps(s, a);
    if a.Deregister? {
      CalmDeregister(s, a.w);
    } else {
      var r := Next(s, a);
      CalmFrame(s, a);
    }
  }

  lemma CalmFrame(s: State, a: Step)
    requires CalmInv(s) && Enabled(s, a) && Calm(s, a) && !a.Deregister? && Inv(Next(s, a))
    ensures CalmInv(Next(s, a))
  {
    var r := Next(s, a);
    if !Quiet(s) {
      var v :| 0 <= v < |s.waits| && Counted(s.waits[v].pc);
      assert Counted(r.waits[v].pc);
    }
  }

  lemma {:induction false} CalmExec(s: State, steps: seq<Step>)
    requires CalmInv(s)
    ensures CalmInv(ExecCalm(s, steps))
    decreases |steps|
  {
    if steps != [] {
      if Enabled(s, steps[0]) && Calm(s, steps[0]) {
        CalmStep(s, steps[0]);
        CalmExec(Next(s, steps[0]), steps[1..]);
      } else {
        CalmExec(s, steps[1..]);
      }
    }
  }

  /** Without overlapping restarts and timed waits, every earlier run's handle is closed, exactly once. */
  lemma ClosedExactlyOnce(steps: seq<Step>)
    ensures var s := ExecCalm(Start(), steps);
            && NoDuplicates(s.closed)
            && (forall h :: 1 <= h < s.created ==> h in s.closed)
            && (s.starter.Holding? && s.created > 0 ==> s.created in s.closed)
  {
    StartInv();
    CalmExec(Start(), steps);
  }

  // ---------------------------------------------------------------- restarts that do overlap

  /** Once no wait() is inside on an old run's open handle, nothing will ever close it. */
  lemma {:induction false} OldHandleLeaks(s: State, steps: seq<Step>, h: nat)
    requires Inv(s) && 1 <= h < s.created && h !in s.closed
    requires forall w :: 0 <= w < |s.waits| && Counted(s.waits[w].pc) ==> On(s.waits[w].pc) != h
    ensures h !in Exec(s, steps).closed
    decreases |steps|
  {
    if steps != [] {
      if Enabled(s, steps[0]) {
        StepKeeps(s, steps[0]);
        LeakStep(s, steps[0], h);
        OldHandleLeaks(Next(s, steps[0]), steps[1..], h);
      } else {
        OldHandleLeaks(s, steps[1..], h);
      }
    }
  }

  lemma LeakStep(s: State, a: Step, h: nat)
    requires Inv(s) && Enabled(s, a) && 1 <= h < s.created && h !in s.closed
    requires forall w :: 0 <= w < |s.waits| && Counted(s.waits[w].pc) ==> On(s.waits[w].pc) != h
    ensures var r := Next(s, a);
            && h < r.created && h !in r.closed
            && forall w :: 0 <= w < |r.waits| && Counted(r.waits[w].pc) ==> On(r.waits[w].pc) != h
  {
    var r := Next(s, a);
    if a.Wake? || a.TimeOut? || a.Deregister? { assert Counted(s.waits[a.w].pc); }
    forall w | 0 <= w < |r.waits| && Counted(r.waits[w].pc) ensures On(r.waits[w].pc) != h {
      if w < |s.waits| && Counted(s.waits[w].pc) { assert On(s.waits[w].pc) != h; }
    }
  }

  /** Every start() of the run that replaces the handle does so with no wait() inside. */
  ghost predicate QuietRestarts(s: State, steps: seq<Step>)
    decreases |steps|
  {
    steps != [] ==>
      && (Replaces(s, steps[0]) ==> Quiet(s))
      && QuietRestarts(if Enabled(s, steps[0]) then Next(s, steps[0]) else s, steps[1..])
  }

  /** Every start() of the run that replaces the handle finds it closed and null. */
  ghost predicate FindsNull(s: State, steps: seq<Step>)
    decreases |steps|
  {
    steps != [] ==>
      && (Replaces(s, steps[0]) ==> s.handle == 0)
      && FindsNull(if Enabled(s, steps[0]) then Next(s, steps[0]) else s, steps[1..])
  }

  predicate Replaces(s: State, a: Step) { a == Create(true) && Enabled(s, a) && s.created > 0 }

  ghost predicate EarlierClosed(s: State) { forall h :: 1 <= h < s.created ==> h in s.closed }

  lemma ReplacedNull(s: State, a: Step)
    requires Inv(s) && EarlierClosed(s) && Enabled(s, a)
    requires Replaces(s, a) ==> s.handle == 0
    ensures EarlierClosed(Next(s, a))
  {
    var r := Next(s, a);
    forall h | 1 <= h < r.created ensures h in r.closed {
      if h < s.created { assert h in s.closed; }
    }
  }

  lemma ReplacedOpen(s: State, rest: seq<Step>)
    requires Inv(s) && Replaces(s, Create(true)) && Quiet(s) && s.handle != 0
    ensures s.created !in Exec(Next(s, Create(true)), rest).closed
    ensures s.created < Exec(Next(s, Create(true)), rest).created
  {
    StepKeeps(s, Create(true));
    OldHandleLeaks(Next(s, Create(true)), rest, s.created);
    CreatedGrows(Next(s, Create(true)), rest);
  }

  lemma {:induction false} CreatedGrows(s: State, steps: seq<Step>)
    ensures s.created <= Exec(s, steps).created
    decreases |steps|
  {
    if steps != [] { CreatedGrows(if Enabled(s, steps[0]) then Next(s, steps[0]) else s, steps[1..]); }
  }

  lemma {:induction false} ClosedIffFrom(s: State, steps: seq<Step>)
    requires Inv(s) && EarlierClosed(s) && QuietRestarts(s, steps)
    ensures EarlierClosed(Exec(s, steps)) <==> FindsNull(s, steps)
    decreases |steps|
  {
    if steps != [] {
      var a := steps[0];
      if Replaces(s, a) && s.handle != 0 {
        ReplacedOpen(s, steps[1..]);
      } else if Enabled(s, a) {
        StepKeeps(s, a);
        ReplacedNull(s, a);
        ClosedIffFrom(Next(s, a), steps[1..]);
      } else {
        ClosedIffFrom(s, steps[1..]);
      }
    }
  }

  /**
    Timed waits and all: as long as no restart overlaps a wait, the handles of all earlier runs are closed if and only
    if each restart found the handle null. A timed-out waiter that leaves last leaves it behind: TimedOutLeaverLeaks.
   */
  lemma EarlierHandlesClosedIff(steps: seq<Step>)
    requires QuietRestarts(Start(), steps)
    ensures EarlierClosed(Exec(Start(), steps)) <==> FindsNull(Start(), steps)
  {
    StartInv();
    ClosedIffFrom(Start(), steps);
  }

  lemma {:induction false} ExecSnoc(s: State, steps: seq<Step>, a: Step)
    requires Enabled(Exec(s, steps), a)
    ensures Exec(s, steps + [a]) == Next(Exec(s, steps), a)
    decreases |steps|
  {
    if steps == [] {
      assert [] + [a] == [a];
      assert Exec(s, [a]) == Exec(Next(s, a), [a][1..]);
    } else {
      assert (steps + [a])[1..] == steps[1..] + [a];
      ExecSnoc(if Enabled(s, steps[0]) then Next(s, steps[0]) else s, steps[1..], a);
    }
  }

  lemma Go(steps: seq<Step>, s: State, a: Step) returns (steps': seq<Step>, r: State)
    requires s == Exec(Start(), steps) && Enabled(s, a)
    ensures r == Next(s, a) && r == Exec(Start(), steps')
  {
    ExecSnoc(Start(), steps, a);
    steps', r := steps + [a], Next(s, a);
  }

  /** The first run has ended, unreaped. */
  lemma FirstRunEnds() returns (steps: seq<Step>, s: State)
    ensures s == Exec(Start(), steps)
    ensures s == State(false, 1, 0, Ended, Idle, [Wait(false, Returned(true))], 1, [])
  {
    steps, s := [], Start();
    steps, s := Go(steps, s, CallStart);
    steps, s := Go(steps, s, Register(0));
    steps, s := Go(steps, s, LockStart);
    steps, s := Go(steps, s, Create(true));
    steps, s := Go(steps, s, PassGate);
    steps, s := Go(steps, s, RunBody);
    steps, s := Go(steps, s, ClearRunning);
    steps, s := Go(steps, s, EndThread);
    assert s.waits == [Wait(false, Returned(true))];
  }

  /** A waiter of the first run has woken but not yet left when the second run starts. */
  lemma SecondRunOverlaps() returns (steps: seq<Step>, s: State)
    ensures s == Exec(Start(), steps)
    ensures s == State(true, 2, 1, Born, Idle,
                       [Wait(false, Returned(true)), Wait(false, Woke(1, true)), Wait(false, Returned(true))], 2, [])
  {
    steps, s := FirstRunEnds();
    steps, s := Go(steps, s, CallWait(false));
    steps, s := Go(steps, s, Register(1));
    steps, s := Go(steps, s, Wake(1));
    steps, s := Go(steps, s, CallStart);
    steps, s := Go(steps, s, Register(2));
    steps, s := Go(steps, s, Wake(2));
    steps, s := Go(steps, s, Deregister(2));
    steps, s := Go(steps, s, LockStart);
    steps, s := Go(steps, s, Create(true));
    assert s.waits == [Wait(false, Returned(true)), Wait(false, Woke(1, true)), Wait(false, Returned(true))];
  }

  /**
    With a restart that overlaps a wait, the exactly-once claim fails: a waiter of the old run leaves while
    a waiter of the new run is inside, so the old handle is never closed, whatever happens next.
   */
  lemma OverlappingRestartLeaks() returns (steps: seq<Step>)
    ensures forall more: seq<Step> :: Exec(Start(), steps).created == 2 && 1 !in Exec(Exec(Start(), steps), more).closed
  {
    var s;
    steps, s := SecondRunOverlaps();
    steps, s := Go(steps, s, CallWait(false));
    steps, s := Go(steps, s, Register(3));
    steps, s := Go(steps, s, Deregister(1));
    assert s.waits == [Wait(false, Returned(true)), Wait(false, Returned(true)), Wait(false, Returned(true)),
                       Wait(false, Blocked(2))];
    StartInv();
    ExecKeeps(Start(), steps);
    forall more: seq<Step> ensures 1 !in Exec(s, more).closed {
      OldHandleLeaks(s, more, 1);
    }
  }

  /** A timed wait() has given up, still inside, when start() reaps the first run. */
  lemma TimedOutInside() returns (steps: seq<Step>, s: State)
    ensures s == Exec(Start(), steps)
    ensures s == State(false, 1, 1, Ended, Reaping(2),
                       [Wait(false, Returned(true)), Wait(true, Woke(1, false)), Wait(false, Returned(true))], 1, [])
  {
    steps, s := FirstRunEnds();
    steps, s := Go(steps, s, CallWait(true));
    steps, s := Go(steps, s, Register(1));
    steps, s := Go(steps, s, TimeOut(1));
    steps, s := Go(steps, s, CallStart);
    steps, s := Go(steps, s, Register(2));
    steps, s := Go(steps, s, Wake(2));
    steps, s := Go(steps, s, Deregister(2));
    assert s.waits == [Wait(false, Returned(true)), Wait(true, Woke(1, false)), Wait(false, Returned(true))];
  }

  /** The one that gave up is the last to leave and closes nothing, and the restart forgets the handle. */
  lemma TimedOutLeaverLeaks() returns (steps: seq<Step>)
    ensures forall more: seq<Step> :: Exec(Start(), steps).created == 2 && 1 !in Exec(Exec(Start(), steps), more).closed
    ensures Quiet(Exec(Start(), steps))
  {
    var s;
    steps, s := TimedOutInside();
    steps, s := Go(steps, s, Deregister(1));
    steps, s := Go(steps, s, LockStart);
    steps, s := Go(steps, s, Create(true));
    assert s.waits == [Wait(false, Returned(true)), Wait(true, Returned(false)), Wait(false, Returned(true))];
    StartInv();
    ExecKeeps(Start(), steps);
    forall more: seq<Step> ensures 1 !in Exec(s, more).closed {
      OldHandleLeaks(s, more, 1);
    }
  }
}
