/**
  The POSIX lifecycle of a Thread: start(), the body's tail, and any number of concurrent wait() calls,
  interleaved at the granularity of the two mutexes, the finished flag and the condition variable.

  One controller calls start(), and no start() overlaps another thread's wait().
 */
module ThreadPosix {

  /**
    The OS thread of the current run. Born waits for start() to release mPriorityMutex; Tail is about to
    clear the running flag under that mutex; from Cleared on it never takes mPriorityMutex again.
   */
  datatype BodyPc = NoThread | Born | Body | Tail | Cleared | FlagStored | Notified | Exited

  datatype WaitPc =
    | Called
    | Checked                 // the thread is joinable; wants mWaitMutex
    | Testing                 // holds mWaitMutex, about to evaluate the predicate
    | Asleep                  // blocked in the condition variable
    | TimedOut                // the timed wait gave up and wants mWaitMutex back
    | ToJoin                  // saw the flag; wants mPriorityMutex
    | Joining                 // holds mPriorityMutex, inside pthread_join()
    | Returned(result: bool)

  /** `saw` is the run that was joinable when the call looked, counted from 1, or 0. */
  datatype Wait = Wait(timed: bool, pc: WaitPc, saw: nat)

  datatype StarterPc = Idle | Reaping | Holding

  datatype Holder = Nobody | Starter | Waiter(index: nat)

  datatype State = State(
    running: bool, finished: bool, joinable: bool,
    body: BodyPc,
    starter: StarterPc,
    waits: seq<Wait>,
    priorityHolder: Holder, waitHolder: Holder,
    created: nat, joined: seq<int>)         // runs created so far, and the runs joined, in order

  function Start(): State
  {
    State(false, false, false, NoThread, Idle, [], Nobody, Nobody, 0, [])
  }

  datatype Step =
    // start()
    | CallStart
    | LockStart
    | Create(ok: bool)
    // the body
    | PassGate
    | RunBody
    | ClearRunning
    | StoreFinished
    | NotifyAll
    | ExitThread
    // wait()
    | CallWait(timed: bool)
    | CheckJoinable(w: nat)
    | LockWait(w: nat)
    | TestFinished(w: nat)
    | WakeSpuriously(w: nat)
    | TimeOut(w: nat)
    | LockJoin(w: nat)
    | FinishJoin(w: nat)

  predicate At(s: State, w: nat, pc: WaitPc) { w < |s.waits| && s.waits[w].pc == pc }

  predicate AllReturned(s: State)
  {
    forall w :: 0 <= w < |s.waits| ==> s.waits[w].pc.Returned?
  }

  function WithPc(s: State, w: nat, pc: WaitPc): State
    requires w < |s.waits|
  {
    s.(waits := s.waits[w := s.waits[w].(pc := pc)])
  }

  /** notify_all(): every sleeper wants the mutex again. */
  function Awaken(waits: seq<Wait>): (r: seq<Wait>)
    ensures |r| == |waits|
    ensures forall w :: 0 <= w < |r| ==>
              r[w] == if waits[w].pc.Asleep? then waits[w].(pc := Checked) else waits[w]
  {
    if waits == [] then []
    else [if waits[0].pc.Asleep? then waits[0].(pc := Checked) else waits[0]] + Awaken(waits[1..])
  }

  predicate Enabled(s: State, a: Step)
  {
    match a
    case CallStart => s.starter.Idle? && AllReturned(s)
    case LockStart => s.starter.Reaping? && AllReturned(s) && s.priorityHolder.Nobody?
    case Create(_) => s.starter.Holding?
    case PassGate => s.body.Born? && s.priorityHolder.Nobody?
    case RunBody => s.body.Body?
    case ClearRunning => s.body.Tail? && s.priorityHolder.Nobody?
    case StoreFinished => s.body.Cleared?
    case NotifyAll => s.body.FlagStored? && s.waitHolder.Nobody?
    case ExitThread => s.body.Notified?
    case CallWait(_) => s.starter.Idle?
    case CheckJoinable(w) => At(s, w, Called) && s.priorityHolder.Nobody?
    case LockWait(w) => (At(s, w, Checked) || At(s, w, TimedOut)) && s.waitHolder.Nobody?
    case TestFinished(w) => At(s, w, Testing)
    case WakeSpuriously(w) => At(s, w, Asleep)
    case TimeOut(w) => At(s, w, Asleep) && s.waits[w].timed
    case LockJoin(w) => At(s, w, ToJoin) && s.priorityHolder.Nobody?
    case FinishJoin(w) => At(s, w, Joining) && s.body.Exited?
  }

  function Next(s: State, a: Step): State
    requires Enabled(s, a)
  {
    match a
    case CallStart =>
      if s.running then s
      else s.(starter := Reaping, waits := s.waits + [Wait(false, Called, 0)])
    case LockStart => s.(priorityHolder := Starter, starter := Holding, running := true, finished := false)
    case Create(ok) =>
      var s' := s.(priorityHolder := Nobody, starter := Idle);
      if ok then s'.(body := Born, joinable := true, created := s.created + 1)
      else s'.(running := false)
    case PassGate => s.(body := Body)
    case RunBody => s.(body := Tail)
    case ClearRunning => s.(body := Cleared, running := false)
    case StoreFinished => s.(body := FlagStored, finished := true)
    case NotifyAll => s.(body := Notified, waits := Awaken(s.waits))
    case ExitThread => s.(body := Exited)
    case CallWait(timed) => s.(waits := s.waits + [Wait(timed, Called, 0)])
    case CheckJoinable(w) =>
      if !s.joinable then WithPc(s, w, Returned(true))
      else s.(waits := s.waits[w := s.waits[w].(pc := Checked, saw := s.created)])
    case LockWait(w) =>
      if At(s, w, TimedOut) then WithPc(s, w, if s.finished then ToJoin else Returned(false))
      else WithPc(s.(waitHolder := Waiter(w)), w, Testing)
    case TestFinished(w) =>
      WithPc(s.(waitHolder := Nobody), w, if s.finished then ToJoin else Asleep)
    case WakeSpuriously(w) => WithPc(s, w, Checked)
    case TimeOut(w) => WithPc(s, w, TimedOut)
    case LockJoin(w) =>
      if s.joinable then WithPc(s.(priorityHolder := Waiter(w)), w, Joining) else WithPc(s, w, Returned(true))
    case FinishJoin(w) =>
      WithPc(s.(joinable := false, priorityHolder := Nobody, joined := s.joined + [s.created - 1]), w, Returned(true))
  }

  function Exec(s: State, steps: seq<Step>): State
    decreases |steps|
  {
    if steps == [] then s
    else Exec(if Enabled(s, steps[0]) then Next(s, steps[0]) else s, steps[1..])
  }

  // ---------------------------------------------------------------- the invariant

  predicate PastMutex(b: BodyPc) { b.FlagStored? || b.Notified? || b.Exited? }

  predicate Alive(b: BodyPc) { b.Born? || b.Body? || b.Tail? }

  /** Runs are joined in order, each once; the current one is outstanding exactly while it is joinable. */
  ghost predicate JoinInv(s: State)
  {
    && |s.joined| + (if s.joinable then 1 else 0) == s.created
    && (forall k :: 0 <= k < |s.joined| ==> s.joined[k] == k)
    && (!s.joinable ==> s.body.NoThread? || s.body.Exited?)
    && (s.created == 0 <==> s.body.NoThread?)
  }

  ghost predicate FlagInv(s: State)
  {
    && (s.running && !s.starter.Holding? ==> s.joinable && Alive(s.body))
    && (Alive(s.body) ==> s.running && !s.finished)
    && (s.finished && s.joinable ==> PastMutex(s.body))
    && (s.joinable && PastMutex(s.body) ==> s.finished)
    && (s.starter.Holding? <==> s.priorityHolder.Starter?)
    && (s.starter.Holding? ==> AllReturned(s) && !s.joinable && s.running && !s.finished)
    && (s.starter.Reaping? ==>
          !s.running && s.waits != []
          && var own := s.waits[|s.waits| - 1];
             !own.timed && !own.pc.TimedOut? && (own.pc.Returned? ==> !s.joinable))
  }

  predicate Active(pc: WaitPc) { !pc.Called? && !pc.Returned? }

  ghost predicate WaitInv(s: State, w: nat)
    requires w < |s.waits|
  {
    var pc := s.waits[w].pc;
    && s.waits[w].saw <= s.created
    && (Active(pc) ==> s.created > 0 && s.waits[w].saw == s.created && !s.starter.Holding?)
    && (pc.Asleep? && s.finished ==> s.body.FlagStored?)
    && (pc.ToJoin? || pc.Joining? ==> PastMutex(s.body))
    && (pc.Joining? <==> s.priorityHolder == Waiter(w))
    && (pc.Joining? ==> s.joinable)
    && (pc.Testing? <==> s.waitHolder == Waiter(w))
    && (pc == Returned(true) && s.waits[w].saw > 0 && s.waits[w].saw == s.created ==> !s.joinable)
  }

  ghost predicate Inv(s: State)
  {
    && JoinInv(s) && FlagInv(s)
    && (s.priorityHolder.Waiter? ==> s.priorityHolder.index < |s.waits|)
    && (s.waitHolder.Waiter? ==> s.waitHolder.index < |s.waits|)
    && !s.waitHolder.Starter?
    && (forall w :: 0 <= w < |s.waits| ==> WaitInv(s, w))
  }

  predicate IsWaiterStep(a: Step)
  {
    || a.CheckJoinable? || a.LockWait? || a.TestFinished? || a.WakeSpuriously? || a.TimeOut?
    || a.LockJoin? || a.FinishJoin?
  }

  lemma OwnStepKeeps(s: State, a: Step)
    requires Inv(s) && Enabled(s, a) && IsWaiterStep(a)
    ensures WaitInv(Next(s, a), a.w)
  {
    assert WaitInv(s, a.w);
  }

  lemma OtherWaitKeeps(s: State, a: Step, w: nat)
    requires Inv(s) && Enabled(s, a) && IsWaiterStep(a) && w < |s.waits| && w != a.w
    ensures WaitInv(Next(s, a), w)
  {
    assert WaitInv(s, w) && WaitInv(s, a.w);
    assert Next(s, a).waits[w] == s.waits[w];
  }

  lemma ThreadStepKeepsWait(s: State, a: Step, w: nat)
    requires Inv(s) && Enabled(s, a) && !IsWaiterStep(a) && w < |Next(s, a).waits|
    ensures WaitInv(Next(s, a), w)
  {
    if w < |s.waits| { assert WaitInv(s, w); }
  }

  lemma StepKeepsWaits(s: State, a: Step, w: nat)
    requires Inv(s) && Enabled(s, a) && w < |Next(s, a).waits|
    ensures WaitInv(Next(s, a), w)
  {
    if !IsWaiterStep(a) { ThreadStepKeepsWait(s, a, w); }
    else if w == a.w { OwnStepKeeps(s, a); }
    else { OtherWaitKeeps(s, a, w); }
  }

  lemma WaiterStepKeepsJoin(s: State, a: Step)
    requires Inv(s) && Enabled(s, a) && IsWaiterStep(a)
    ensures JoinInv(Next(s, a))
  {
    assert WaitInv(s, a.w);
  }

  lemma ThreadStepKeepsJoin(s: State, a: Step)
    requires JoinInv(s) && FlagInv(s) && Enabled(s, a) && !IsWaiterStep(a)
    ensures JoinInv(Next(s, a))
  {
  }

  lemma WaiterStepKeepsFlags(s: State, a: Step)
    requires JoinInv(s) && FlagInv(s) && IsWaiterStep(a) && a.w < |s.waits| && WaitInv(s, a.w) && Enabled(s, a)
    ensures FlagInv(Next(s, a))
  {
  }

  lemma ThreadStepKeepsFlags(s: State, a: Step)
    requires JoinInv(s) && FlagInv(s) && Enabled(s, a) && !IsWaiterStep(a)
    ensures FlagInv(Next(s, a))
  {
  }

  lemma StepKeepsHolders(s: State, a: Step)
    requires Inv(s) && Enabled(s, a)
    ensures var r := Next(s, a);
            && (r.priorityHolder.Waiter? ==> r.priorityHolder.index < |r.waits|)
            && (r.waitHolder.Waiter? ==> r.waitHolder.index < |r.waits|) && !r.waitHolder.Starter?
  {
  }

  lemma StepKeeps(s: State, a: Step)
    requires Inv(s) && Enabled(s, a)
    ensures Inv(Next(s, a))
  {
    if IsWaiterStep(a) {
      assert WaitInv(s, a.w);
      WaiterStepKeepsJoin(s, a);
      WaiterStepKeepsFlags(s, a);
    } else {
      ThreadStepKeepsJoin(s, a);
      ThreadStepKeepsFlags(s, a);
    }
    StepKeepsHolders(s, a);
    forall w | 0 <= w < |Next(s, a).waits| ensures WaitInv(Next(s, a), w) {
      StepKeepsWaits(s, a, w);
    }
  }

  lemma {:induction false} ExecKeeps(s: State, steps: seq<Step>)
    requires Inv(s)
    ensures Inv(Exec(s, steps))
    decreases |steps|
  {
    if steps != [] {
      if Enabled(s, steps[0]) {
        StepKeeps(s, steps[0]);
        ExecKeeps(Next(s, steps[0]), steps[1..]);
      } else {
        ExecKeeps(s, steps[1..]);
      }
    }
  }

  // ---------------------------------------------------------------- what wait() and start() promise

  lemma StartInv()
    ensures Inv(Start())
  {
  }

  /**
    With any number of concurrent waiters: runs are joined in order, each exactly once except the current
    one until it is reaped; a new run is created only when no thread is left unjoined.
   */
  lemma JoinedExactlyOnce(steps: seq<Step>)
    ensures var s := Exec(Start(), steps);
            && (forall k :: 0 <= k < |s.joined| ==> s.joined[k] == k)
            && |s.joined| == (if s.joinable then s.created - 1 else s.created)
            && (s.starter.Holding? ==> |s.joined| == s.created)
  {
    StartInv();
    ExecKeeps(Start(), steps);
  }

  /** pthread_join() is entered under mPriorityMutex only for a thread that will never ask for that mutex again. */
  lemma JoinNeverWaitsForItsOwnMutex(steps: seq<Step>, w: nat)
    requires At(Exec(Start(), steps), w, Joining)
    ensures var s := Exec(Start(), steps);
            && s.priorityHolder == Waiter(w) && s.finished && PastMutex(s.body) && !s.running
            && (forall v :: 0 <= v < |s.waits| && v != w ==> s.waits[v].pc != Joining)
  {
    StartInv();
    ExecKeeps(Start(), steps);
    var s := Exec(Start(), steps);
    assert WaitInv(s, w);
    forall v | 0 <= v < |s.waits| && v != w ensures s.waits[v].pc != Joining {
      assert WaitInv(s, v);
    }
  }

  /** While someone joins, the thread's own next step is enabled, or only waits for a waiter testing the flag. */
  lemma JoinMakesProgress(steps: seq<Step>, w: nat)
    requires At(Exec(Start(), steps), w, Joining)
    ensures var s := Exec(Start(), steps);
            || (s.body.FlagStored? && (Enabled(s, NotifyAll)
                                       || (s.waitHolder.Waiter? && Enabled(s, TestFinished(s.waitHolder.index)))))
            || (s.body.Notified? && Enabled(s, ExitThread))
            || (s.body.Exited? && Enabled(s, FinishJoin(w)))
  {
    StartInv();
    ExecKeeps(Start(), steps);
    var s := Exec(Start(), steps);
    assert WaitInv(s, w);
    if s.waitHolder.Waiter? { assert WaitInv(s, s.waitHolder.index); }
  }

  /** No waiter is lost: one asleep although the flag is stored still has the notification ahead of it. */
  lemma NoLostWaiter(steps: seq<Step>, w: nat)
    requires At(Exec(Start(), steps), w, Asleep) && Exec(Start(), steps).finished
    ensures Exec(Start(), steps).body.FlagStored?
  {
    StartInv();
    ExecKeeps(Start(), steps);
    assert WaitInv(Exec(Start(), steps), w);
  }

  /** A wait() that found a thread and returned true leaves it joined. */
  lemma TrueMeansJoined(steps: seq<Step>, w: nat)
    requires At(Exec(Start(), steps), w, Returned(true)) && Exec(Start(), steps).waits[w].saw > 0
    ensures var s := Exec(Start(), steps); s.waits[w].saw - 1 in s.joined
  {
    StartInv();
    ExecKeeps(Start(), steps);
    ReturnedIsJoined(Exec(Start(), steps), w);
  }

  lemma RunNext(s: State, a: Step, rest: seq<Step>)
    requires Enabled(s, a)
    ensures Exec(s, [a] + rest) == Exec(Next(s, a), rest)
  {
    assert ([a] + rest)[1..] == rest;
  }

  /** start() of a thread that is neither running nor unreaped creates a run; of a running one it does nothing. */
  lemma StartCreates(steps: seq<Step>)
    requires Enabled(Exec(Start(), steps), CallStart)
    ensures var s := Exec(Start(), steps);
            && (s.running ==> Next(s, CallStart) == s)
            && (!s.running && !s.joinable && s.priorityHolder.Nobody? ==>
                  var n := |s.waits|;
                  var t := Exec(s, [CallStart] + ([CheckJoinable(n)] + ([LockStart] + ([Create(true)] + []))));
                  t.running && t.joinable && !t.finished && t.body.Born? && t.created == s.created + 1
                  && Enabled(t, PassGate))
  {
    var s := Exec(Start(), steps);
    var n := |s.waits|;
    if !s.running && !s.joinable && s.priorityHolder.Nobody? {
      var s1 := Next(s, CallStart);
      RunNext(s, CallStart, [CheckJoinable(n)] + ([LockStart] + ([Create(true)] + [])));
      var s2 := Next(s1, CheckJoinable(n));
      RunNext(s1, CheckJoinable(n), [LockStart] + ([Create(true)] + []));
      assert s2.waits[n].pc.Returned?;
      RunNext(s2, LockStart, [Create(true)] + []);
      RunNext(Next(s2, LockStart), Create(true), []);
    }
  }

  // ---------------------------------------------------------------- when wait() gives up

  /** Step a is the timed wait w finding, with its time up and mWaitMutex back, that the flag is not stored. */
  predicate GivesUp(s: State, a: Step, w: nat)
  {
    a == LockWait(w) && Enabled(s, a) && At(s, w, TimedOut) && s.waits[w].timed && !s.finished
  }

  ghost predicate SomeGivesUp(s: State, steps: seq<Step>, w: nat)
    decreases |steps|
  {
    steps != [] &&
    (GivesUp(s, steps[0], w) || SomeGivesUp(if Enabled(s, steps[0]) then Next(s, steps[0]) else s, steps[1..], w))
  }

  ghost predicate TimedOutIsTimed(s: State)
  {
    forall w: nat :: At(s, w, TimedOut) || At(s, w, Returned(false)) ==> s.waits[w].timed
  }

  lemma StepKeepsTimed(s: State, a: Step)
    requires TimedOutIsTimed(s) && Enabled(s, a)
    ensures TimedOutIsTimed(Next(s, a))
  {
    var r := Next(s, a);
    forall w: nat | At(r, w, TimedOut) || At(r, w, Returned(false)) ensures r.waits[w].timed {
      if w < |s.waits| { assert r.waits[w].timed == s.waits[w].timed; }
    }
  }

  lemma StepFalseIff(s: State, a: Step, w: nat)
    requires TimedOutIsTimed(s) && Enabled(s, a)
    ensures At(Next(s, a), w, Returned(false)) <==> At(s, w, Returned(false)) || GivesUp(s, a, w)
  {
  }

  lemma {:induction false} FalseFromIff(s: State, steps: seq<Step>, w: nat)
    requires TimedOutIsTimed(s)
    ensures At(Exec(s, steps), w, Returned(false)) <==> At(s, w, Returned(false)) || SomeGivesUp(s, steps, w)
    decreases |steps|
  {
    if steps != [] {
      if Enabled(s, steps[0]) {
        StepKeepsTimed(s, steps[0]);
        StepFalseIff(s, steps[0], w);
        FalseFromIff(Next(s, steps[0]), steps[1..], w);
      } else {
        FalseFromIff(s, steps[1..], w);
      }
    }
  }

  /** Over every run a wait() has returned false if and only if it was timed and, its time up, found the flag unset. */
  lemma FalseMeansGaveUp(steps: seq<Step>, w: nat)
    ensures At(Exec(Start(), steps), w, Returned(false)) <==> SomeGivesUp(Start(), steps, w)
  {
    FalseFromIff(Start(), steps, w);
  }

  predicate SawFlag(s: State, w: nat) { At(s, w, ToJoin) || At(s, w, Joining) || At(s, w, Returned(true)) }

  lemma StepKeepsSaw(s: State, a: Step, w: nat)
    requires Enabled(s, a) && SawFlag(s, w)
    ensures SawFlag(Next(s, a), w) && Next(s, a).waits[w].saw == s.waits[w].saw
  {
  }

  lemma {:induction false} SawStays(s: State, steps: seq<Step>, w: nat)
    requires SawFlag(s, w)
    ensures SawFlag(Exec(s, steps), w) && Exec(s, steps).waits[w].saw == s.waits[w].saw
    decreases |steps|
  {
    if steps != [] {
      if Enabled(s, steps[0]) {
        StepKeepsSaw(s, steps[0], w);
        SawStays(Next(s, steps[0]), steps[1..], w);
      } else {
        SawStays(s, steps[1..], w);
      }
    }
  }

  /**
    A wait() that looks for the flag once it is stored, asleep, timed out or not, sees it; from then on it can only
    return true, and when it has, the run it looked for is joined.
   */
  lemma FinishedMeansTrue(steps: seq<Step>, w: nat, a: Step, more: seq<Step>)
    requires var s := Exec(Start(), steps);
             && s.finished && Enabled(s, a)
             && (a == TestFinished(w) || (a == LockWait(w) && At(s, w, TimedOut)))
    ensures var t := Exec(Next(Exec(Start(), steps), a), more);
            SawFlag(t, w) && (t.waits[w].pc.Returned? ==> t.waits[w].saw - 1 in t.joined)
  {
    var s := Exec(Start(), steps);
    StartInv();
    ExecKeeps(Start(), steps);
    assert WaitInv(s, w);
    SawStays(Next(s, a), more, w);
    StepKeeps(s, a);
    ExecKeeps(Next(s, a), more);
    if At(Exec(Next(s, a), more), w, Returned(true)) { ReturnedIsJoined(Exec(Next(s, a), more), w); }
  }

  lemma ReturnedIsJoined(s: State, w: nat)
    requires Inv(s) && At(s, w, Returned(true)) && s.waits[w].saw > 0
    ensures s.waits[w].saw - 1 in s.joined
  {
    assert WaitInv(s, w);
    var k := s.waits[w].saw - 1;
    assert k < |s.joined|;
    assert s.joined[k] == k;
  }

  /**
    setPriority() under mPriorityMutex: running together with a joinable handle means the handle is the
    current run's, not joined, and the thread has not reached the end of its body.
   */
  lemma PriorityHandleIsSafe(steps: seq<Step>)
    requires var s := Exec(Start(), steps); s.priorityHolder.Nobody? && s.running && s.joinable
    ensures var s := Exec(Start(), steps); Alive(s.body) && s.created - 1 !in s.joined
  {
    StartInv();
    ExecKeeps(Start(), steps);
    var s := Exec(Start(), steps);
    forall k | 0 <= k < |s.joined| ensures s.joined[k] != s.created - 1 { }
  }

  // ---------------------------------------------------------------- no wait() is stuck

  /** A wait() past its first look has a thread to wait for, or one that has finished. */
  ghost predicate ActiveInv(s: State)
  {
    forall w: nat :: w < |s.waits| && Active(s.waits[w].pc) ==> s.joinable || s.finished
  }

  lemma StepKeepsActive(s: State, a: Step)
    requires Inv(s) && ActiveInv(s) && Enabled(s, a)
    ensures ActiveInv(Next(s, a))
  {
    var r := Next(s, a);
    forall w: nat | w < |r.waits| && Active(r.waits[w].pc) ensures r.joinable || r.finished {
      if w < |s.waits| { assert WaitInv(s, w); }
      if IsWaiterStep(a) { assert WaitInv(s, a.w); }
    }
  }

  lemma {:induction false} ExecKeepsActive(s: State, steps: seq<Step>)
    requires Inv(s) && ActiveInv(s)
    ensures Inv(Exec(s, steps)) && ActiveInv(Exec(s, steps))
    decreases |steps|
  {
    if steps != [] {
      if Enabled(s, steps[0]) {
        StepKeeps(s, steps[0]);
        StepKeepsActive(s, steps[0]);
        ExecKeepsActive(Next(s, steps[0]), steps[1..]);
      } else {
        ExecKeepsActive(s, steps[1..]);
      }
    }
  }

  /** The thread's next step, while it has not ended. */
  function BodyStep(s: State): Step
  {
    match s.body
    case Born => PassGate
    case Body => RunBody
    case Tail => ClearRunning
    case Cleared => StoreFinished
    case FlagStored => if s.waitHolder.Waiter? then TestFinished(s.waitHolder.index) else NotifyAll
    case _ => ExitThread
  }

  /** Whoever joins holds mPriorityMutex; it gives it back once the thread has ended. */
  function JoinerStep(s: State): Step
  {
    if s.body.Exited? && s.priorityHolder.Waiter? then FinishJoin(s.priorityHolder.index) else BodyStep(s)
  }

  /** The step that brings wait w nearer to its return: its own, or one of those it waits for. */
  function Help(s: State, w: nat): Step
    requires w < |s.waits|
  {
    if !s.priorityHolder.Nobody? then JoinerStep(s)
    else
      match s.waits[w].pc
      case Called => CheckJoinable(w)
      case Checked => if s.waitHolder.Waiter? then TestFinished(s.waitHolder.index) else LockWait(w)
      case TimedOut => if s.waitHolder.Waiter? then TestFinished(s.waitHolder.index) else LockWait(w)
      case Testing => TestFinished(w)
      case Asleep => BodyStep(s)
      case _ => LockJoin(w)
  }

  function BodyRank(b: BodyPc): nat
  {
    match b
    case NoThread => 0
    case Born => 7
    case Body => 6
    case Tail => 5
    case Cleared => 4
    case FlagStored => 3
    case Notified => 2
    case Exited => 1
  }

  function WaitRank(pc: WaitPc): nat
  {
    match pc
    case Called => 6
    case Checked => 5
    case TimedOut => 5
    case Testing => 4
    case Asleep => 3
    case ToJoin => 2
    case Joining => 1
    case Returned(_) => 0
  }

  function Held(s: State): nat
  {
    (if s.waitHolder.Nobody? then 0 else 1) + (if s.priorityHolder.Nobody? then 0 else 1)
  }

  lemma HelpEnabled(s: State, w: nat)
    requires Inv(s) && ActiveInv(s) && w < |s.waits| && !s.waits[w].pc.Returned?
    ensures Enabled(s, Help(s, w))
  {
    assert WaitInv(s, w);
    if s.priorityHolder.Waiter? { assert WaitInv(s, s.priorityHolder.index); }
    if s.waitHolder.Waiter? { assert WaitInv(s, s.waitHolder.index); }
  }

  lemma HelpHelps(s: State, w: nat)
    requires Inv(s) && ActiveInv(s) && w < |s.waits| && !s.waits[w].pc.Returned? && Enabled(s, Help(s, w))
    ensures var r := Next(s, Help(s, w));
            && w < |r.waits|
            && (BodyRank(r.body) < BodyRank(s.body)
                || (r.body == s.body
                    && (WaitRank(r.waits[w].pc) < WaitRank(s.waits[w].pc)
                        || (r.waits[w].pc == s.waits[w].pc && Held(r) < Held(s)))))
  {
    assert WaitInv(s, w);
    if s.priorityHolder.Waiter? { assert WaitInv(s, s.priorityHolder.index); }
    if s.waitHolder.Waiter? { assert WaitInv(s, s.waitHolder.index); }
  }

  /** By steps of the thread and of the waiters alone, without a timeout or a spurious wake, wait w returns. */
  lemma {:induction false} ReturnsFrom(s: State, w: nat) returns (steps: seq<Step>)
    requires Inv(s) && ActiveInv(s) && w < |s.waits|
    ensures w < |Exec(s, steps).waits| && Exec(s, steps).waits[w].pc.Returned?
    ensures forall i :: 0 <= i < |steps| ==> !steps[i].TimeOut? && !steps[i].WakeSpuriously? && !steps[i].CallStart?
    decreases BodyRank(s.body), WaitRank(s.waits[w].pc), Held(s)
  {
    if s.waits[w].pc.Returned? {
      steps := [];
    } else {
      var a := Help(s, w);
      HelpEnabled(s, w);
      HelpHelps(s, w);
      StepKeeps(s, a);
      StepKeepsActive(s, a);
      var rest := ReturnsFrom(Next(s, a), w);
      RunNext(s, a, rest);
      steps := [a] + rest;
    }
  }

  /** Whatever has happened, no wait() is stuck for good: as long as the thread goes on, it returns. */
  lemma EveryWaitCanReturn(steps: seq<Step>, w: nat) returns (more: seq<Step>)
    requires w < |Exec(Start(), steps).waits|
    ensures var t := Exec(Exec(Start(), steps), more); w < |t.waits| && t.waits[w].pc.Returned?
    ensures forall i :: 0 <= i < |more| ==> !more[i].TimeOut? && !more[i].WakeSpuriously? && !more[i].CallStart?
  {
    StartInv();
    ExecKeepsActive(Start(), steps);
    more := ReturnsFrom(Exec(Start(), steps), w);
  }
}
