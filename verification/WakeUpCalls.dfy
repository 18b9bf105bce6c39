/**
  Which wakeUp() calls the loop sleeps through. Each call is followed with marks: when its request was recorded,
  whether the loop has consumed requests since, and whether the collapsing flag has been cleared since its exchange.

  On Windows the flag is cleared while the loop peeks, after the queue was drained, and a request recorded before that
  is not looked at again before the next wait. On Linux it is.
 */
module WakeUpCalls {
  import opened TimerList
  import opened WakeProtocol

  /**
    changed: the request is recorded; served: the loop has consumed requests since; exchanged: the exchange is done;
    spent: the flag has been cleared since that; asleep: the loop was blocked when the request was recorded.
   */
  datatype Mark = Mark(changed: bool, served: bool, exchanged: bool, spent: bool, asleep: bool)

  function Cleared(m: seq<Mark>): (r: seq<Mark>)
    ensures |r| == |m| && forall i :: 0 <= i < |m| ==> r[i] == m[i].(spent := m[i].spent || m[i].exchanged)
  {
    seq(|m|, i requires 0 <= i < |m| => m[i].(spent := m[i].spent || m[i].exchanged))
  }

  function Consumed(m: seq<Mark>): (r: seq<Mark>)
    ensures |r| == |m| && forall i :: 0 <= i < |m| ==> r[i] == m[i].(served := m[i].served || m[i].changed)
  {
    seq(|m|, i requires 0 <= i < |m| => m[i].(served := m[i].served || m[i].changed))
  }

  function Record(s: State, m: seq<Mark>, a: Step): (r: seq<Mark>)
    requires Enabled(s, a) && |m| == |s.calls|
    ensures |r| == |Next(s, a).calls|
  {
    match a
    case NewCall(_) => m + [Mark(false, false, false, false, false)]
    case Change(i) =>
      if NoEffect(s, s.calls[i].kind) then m
      else m[i := Mark(true, false, false, false, s.loop.Entering? || s.loop.Polling?)]
    case Exchange(i) => m[i := m[i].(exchanged := true, spent := false)]
    case ClearFlag => Cleared(m)
    case RelockAndCheck => Consumed(m)
    case _ => m
  }

  /** The marks after a run of steps. */
  function Marks(s: State, m: seq<Mark>, steps: seq<Step>): (r: seq<Mark>)
    requires |m| == |s.calls|
    ensures |r| == |Exec(s, steps).calls|
    decreases |steps|
  {
    if steps == [] then m
    else if Enabled(s, steps[0]) then Marks(Next(s, steps[0]), Record(s, m, steps[0]), steps[1..])
    else Marks(s, m, steps[1..])
  }

  // ---------------------------------------------------------------- one wake at a time

  /** The token, a write ahead and the window after taking the token exclude each other; each means the flag is set. */
  ghost predicate OneWake(s: State)
  {
    && s.token <= 1
    && (s.token > 0 ==> s.flag && !InWindow(s))
    && (InWindow(s) ==> s.flag)
    && (forall i :: At(s, i, Writing) ==> s.flag && s.token == 0 && !InWindow(s))
    && (forall i, j :: At(s, i, Writing) && At(s, j, Writing) ==> i == j)
  }

  lemma OneWakeLoop(s: State, a: Step)
    requires OneWake(s) && Enabled(s, a) && !IsCallStep(a) && (s.loop.Draining? ==> s.token > 0)
    ensures OneWake(LoopStep(s, a))
  {
    var r := LoopStep(s, a);
    assert forall i, pc :: At(r, i, pc) == At(s, i, pc);
  }

  lemma ChangeMoves(s: State, i: nat, j: nat, pc: CallPc)
    requires At(s, i, CallPc.Called)
    ensures j != i ==> At(ChangeStep(s, i), j, pc) == At(s, j, pc)
    ensures At(ChangeStep(s, i), i, if NoEffect(s, s.calls[i].kind) then Returned else Exchanging)
    ensures ChangeStep(s, i).flag == s.flag && ChangeStep(s, i).token == s.token && ChangeStep(s, i).loop == s.loop
  {
  }

  lemma OneWakeCall(s: State, a: Step)
    requires OneWake(s) && FlagInv(s) && Enabled(s, a) && IsCallStep(a)
    ensures OneWake(CallStep(s, a))
  {
    var r := CallStep(s, a);
    match a
    case NewCall(_) => assert forall i :: At(r, i, Writing) ==> At(s, i, Writing);
    case Change(i) =>
      forall j | At(r, j, Writing) ensures At(s, j, Writing) { ChangeMoves(s, i, j, Writing); }
      ChangeMoves(s, i, i, Called);
    case Exchange(i) =>
      assert forall j :: At(r, j, Writing) && j != i ==> At(s, j, Writing);
    case Write(i) =>
      assert At(s, i, Writing);
      assert forall j :: At(r, j, Writing) ==> At(s, j, Writing) && j != i;
    case Release(i) => assert forall j :: At(r, j, Writing) ==> At(s, j, Writing);
  }

  // ---------------------------------------------------------------- what the marks mean

  ghost predicate Unspent(m: seq<Mark>, i: nat) { i < |m| && m[i].exchanged && !m[i].spent }

  ghost predicate Unserved(s: State, m: seq<Mark>, i: nat)
  {
    i < |m| && |m| == |s.calls| && s.calls[i].kind.WakeUp? && m[i].changed && !m[i].served
  }

  ghost predicate PcFits(pc: CallPc, m: Mark)
  {
    match pc
    case Called => !m.changed && !m.exchanged
    case Exchanging => m.changed && !m.exchanged && !m.spent
    case Writing => m.changed && m.exchanged
    case Releasing => m.changed && m.exchanged
    case Returned => m.changed == m.exchanged
  }

  ghost predicate PcsFit(s: State, m: seq<Mark>)
  {
    |m| == |s.calls| && forall i :: 0 <= i < |m| ==> PcFits(s.calls[i].pc, m[i])
  }

  /** A request recorded while the loop was blocked and not consumed yet: the loop has not moved past its wait. */
  ghost predicate StillBlocked(s: State, m: Mark)
  {
    s.platform.Win32? && m.asleep && !m.served ==>
      (s.loop.Entering? || s.loop.Polling? || s.loop.Relocking?) && !m.spent && m.changed
  }

  ghost predicate AllStillBlocked(s: State, m: seq<Mark>)
  {
    forall i :: 0 <= i < |m| ==> StillBlocked(s, m[i])
  }

  ghost predicate Meant(s: State, m: seq<Mark>)
  {
    && PcsFit(s, m) && AllStillBlocked(s, m)
    && (s.flag <==> exists i :: Unspent(m, i))
    && (s.wakeUpRequested <==> exists i :: Unserved(s, m, i))
  }

  lemma FlagMeant(s: State, m: seq<Mark>, a: Step)
    requires PcsFit(s, m) && Enabled(s, a) && (s.flag <==> exists i :: Unspent(m, i))
    ensures Next(s, a).flag <==> exists i :: Unspent(Record(s, m, a), i)
  {
    var r := Record(s, m, a);
    match a
    case NewCall(_) =>
      assert forall i :: Unspent(r, i) <==> Unspent(m, i);
    case Change(i) =>
      ChangeMoves(s, i, i, Called);
      assert forall j :: Unspent(r, j) <==> Unspent(m, j);
    case Exchange(i) =>
      assert Unspent(r, i);
    case ClearFlag =>
      assert forall i :: !Unspent(r, i);
    case RelockAndCheck =>
      assert forall i :: Unspent(r, i) <==> Unspent(m, i);
    case _ =>
  }

  lemma RequestMeant(s: State, m: seq<Mark>, a: Step)
    requires PcsFit(s, m) && Enabled(s, a) && (s.wakeUpRequested <==> exists i :: Unserved(s, m, i))
    ensures Next(s, a).wakeUpRequested <==> exists i :: Unserved(Next(s, a), Record(s, m, a), i)
  {
    var r, t := Record(s, m, a), Next(s, a);
    if a.Change? {
      ChangeMeant(s, m, a.call);
    } else if a.RelockAndCheck? {
      assert forall i :: !Unserved(t, r, i);
    } else if IsCallStep(a) {
      CallRequestMeant(s, m, a);
    } else {
      assert forall i :: Unserved(t, r, i) <==> Unserved(s, m, i);
    }
  }

  lemma CallRequestMeant(s: State, m: seq<Mark>, a: Step)
    requires PcsFit(s, m) && Enabled(s, a) && IsCallStep(a) && !a.Change?
    ensures CallStep(s, a).wakeUpRequested == s.wakeUpRequested
    ensures forall i :: Unserved(CallStep(s, a), Record(s, m, a), i) <==> Unserved(s, m, i)
  {
    var t, r := CallStep(s, a), Record(s, m, a);
    forall i: nat ensures Unserved(t, r, i) <==> Unserved(s, m, i) {
      if i < |m| {
        assert t.calls[i].kind == s.calls[i].kind;
        assert r[i].changed == m[i].changed && r[i].served == m[i].served;
      }
    }
  }

  lemma ChangeRequests(s: State, i: nat)
    requires At(s, i, CallPc.Called)
    ensures ChangeStep(s, i).wakeUpRequested == (s.wakeUpRequested || s.calls[i].kind.WakeUp?)
  {
  }

  lemma ChangeMeant(s: State, m: seq<Mark>, i: nat)
    requires PcsFit(s, m) && At(s, i, CallPc.Called) && (s.wakeUpRequested <==> exists j :: Unserved(s, m, j))
    requires Enabled(s, Change(i))
    ensures ChangeStep(s, i).wakeUpRequested <==> exists j :: Unserved(ChangeStep(s, i), Record(s, m, Change(i)), j)
  {
    var t, r := ChangeStep(s, i), Record(s, m, Change(i));
    ChangeKeepsKinds(s, i);
    ChangeRequests(s, i);
    assert PcFits(s.calls[i].pc, m[i]);
    if s.calls[i].kind.WakeUp? {
      assert Unserved(t, r, i);
    } else {
      assert forall j :: Unserved(t, r, j) <==> Unserved(s, m, j);
    }
  }

  lemma PcsMeant(s: State, m: seq<Mark>, a: Step)
    requires PcsFit(s, m) && Enabled(s, a)
    ensures PcsFit(Next(s, a), Record(s, m, a))
  {
    var r, t := Record(s, m, a), Next(s, a);
    if IsCallStep(a) && !a.NewCall? {
      forall i | 0 <= i < |r| ensures PcFits(t.calls[i].pc, r[i]) {
        if i != a.call { assert t.calls[i] == s.calls[i]; }
      }
    }
  }

  lemma BlockedMeant(s: State, m: seq<Mark>, a: Step)
    requires PcsFit(s, m) && AllStillBlocked(s, m) && Win32Shape(s) && Enabled(s, a)
    ensures AllStillBlocked(Next(s, a), Record(s, m, a))
  {
    var r, t := Record(s, m, a), Next(s, a);
    forall i | 0 <= i < |r| ensures StillBlocked(t, r[i]) {
      if i < |m| { assert StillBlocked(s, m[i]); }
    }
  }

  ghost predicate Sound(s: State, m: seq<Mark>)
  {
    WakeInv(s) && OneWake(s) && Meant(s, m)
  }

  lemma StepSound(s: State, m: seq<Mark>, a: Step)
    requires Sound(s, m) && Enabled(s, a)
    ensures Sound(Next(s, a), Record(s, m, a))
  {
    StepKeepsWake(s, a);
    if IsCallStep(a) { OneWakeCall(s, a); } else { OneWakeLoop(s, a); }
    PcsMeant(s, m, a);
    BlockedMeant(s, m, a);
    FlagMeant(s, m, a);
    RequestMeant(s, m, a);
  }

  lemma {:induction false} RunSound(s: State, m: seq<Mark>, steps: seq<Step>)
    requires Sound(s, m)
    ensures Sound(Exec(s, steps), Marks(s, m, steps))
    decreases |steps|
  {
    if steps != [] {
      if Enabled(s, steps[0]) {
        StepSound(s, m, steps[0]);
        RunSound(Next(s, steps[0]), Record(s, m, steps[0]), steps[1..]);
      } else {
        RunSound(s, m, steps[1..]);
      }
    }
  }

  // ---------------------------------------------------------------- the calls the loop sleeps through

  lemma StartSound(platform: Platform, clock: int)
    ensures Sound(Start(platform, clock), [])
  {
  }

  /** While the loop is blocked its wake is coming exactly when some recorded call has a flag not cleared since. */
  lemma WakeComingIff(s: State, m: seq<Mark>)
    requires Sound(s, m) && s.loop.Polling?
    ensures WakeComing(s) <==> exists i :: 0 <= i < |m| && m[i].changed && !m[i].spent
  {
    if s.flag {
      var i: nat :| Unspent(m, i);
      assert PcFits(s.calls[i].pc, m[i]);
    } else {
      if i: nat :| At(s, i, Exchanging) {
        assert PcFits(s.calls[i].pc, m[i]);
      }
      forall i | 0 <= i < |m| && m[i].changed && !m[i].spent ensures At(s, i, Exchanging) {
        assert !Unspent(m, i) && PcFits(s.calls[i].pc, m[i]);
      }
    }
  }

  /**
    On either platform, after any run, a blocked loop sleeps through a wakeUp() if and only if some wakeUp() has been
    recorded since the loop last consumed requests and the flag has been cleared since the exchange of every call
    recorded so far. An exchange the flag survives wakes the loop, wherever the loop was when it was made.
   */
  lemma SleepsThroughIff(platform: Platform, clock: int, steps: seq<Step>)
    requires Exec(Start(platform, clock), steps).loop.Polling?
    ensures var s, m := Exec(Start(platform, clock), steps), Marks(Start(platform, clock), [], steps);
            s.wakeUpRequested && !WakeComing(s) <==>
              (exists w :: Unserved(s, m, w)) && forall i :: 0 <= i < |m| && m[i].changed ==> m[i].spent
  {
    StartSound(platform, clock);
    RunSound(Start(platform, clock), [], steps);
    WakeComingIff(Exec(Start(platform, clock), steps), Marks(Start(platform, clock), [], steps));
  }

  /** On Linux no wakeUp() is ever in that case. */
  lemma NeverOnLinux(clock: int, steps: seq<Step>)
    requires Exec(Start(Linux, clock), steps).loop.Polling?
    ensures var s, m := Exec(Start(Linux, clock), steps), Marks(Start(Linux, clock), [], steps);
            (exists w :: Unserved(s, m, w)) ==> exists i :: 0 <= i < |m| && m[i].changed && !m[i].spent
  {
    NoLostWakeup(Linux, clock, steps);
    SleepsThroughIff(Linux, clock, steps);
    StartSound(Linux, clock);
    RunSound(Start(Linux, clock), [], steps);
  }

  /** On Windows too a wakeUp() that is recorded while the loop is blocked has its wake coming until it is served. */
  lemma WakeUpWhileBlockedIsNotLost(clock: int, steps: seq<Step>, w: nat)
    requires var s, m := Exec(Start(Win32, clock), steps), Marks(Start(Win32, clock), [], steps);
             s.loop.Polling? && Unserved(s, m, w) && m[w].asleep
    ensures WakeComing(Exec(Start(Win32, clock), steps))
  {
    StartSound(Win32, clock);
    RunSound(Start(Win32, clock), [], steps);
    PlatformStays(Start(Win32, clock), steps);
    var s, m := Exec(Start(Win32, clock), steps), Marks(Start(Win32, clock), [], steps);
    assert StillBlocked(s, m[w]);
    WakeComingIff(s, m);
  }

  /** On Windows the flag is cleared only between the drain of the queue and the last peek. */
  lemma SpentOnlyWhilePeeking(clock: int, steps: seq<Step>)
    ensures var s := Exec(Start(Win32, clock), steps); Enabled(s, ClearFlag) ==> s.loop.PeekStoring?
  {
    ExecKeepsWake(Start(Win32, clock), steps);
    PlatformStays(Start(Win32, clock), steps);
  }

  // ---------------------------------------------------------------- runs that sleep through one

  function PeekAndBlock(): seq<Step> { [Peek, ClearFlag, Peek] + BlockSteps() }

  /** The loop peeks a token away and blocks with the request still recorded. */
  lemma PeeksAndBlocks(s: State)
    requires s.platform.Win32? && s.loop.Peeking? && s.token == 1 && s.flag && s.holder == -1 && !s.interrupt
    requires s.queue == 0 && s.timers == []
    ensures var r := Exec(s, PeekAndBlock());
            r.loop.Polling? && r.wakeUpRequested == s.wakeUpRequested && r.token == 0 && !r.flag && r.calls == s.calls
  {
    var s1 := Next(s, Peek);
    var s2 := Next(s1, ClearFlag);
    var s3 := Next(s2, Peek);
    ExecOne(s2, Peek, []);
    ExecOne(s1, ClearFlag, [Peek]);
    ExecOne(s, Peek, [ClearFlag, Peek]);
    assert [Peek, ClearFlag, Peek] == [Peek] + ([ClearFlag] + ([Peek] + []));
    BlockRuns(s3);
    ExecAppend(s, [Peek, ClearFlag, Peek], BlockSteps());
  }

  /**
    A call with an exchange and a write of its own: the loop is past the drain of its queue, the flag is clear, the
    wakeUp() wins the exchange and posts, and the same pass takes the message away.
   */
  lemma LostThoughItPosted(s: State)
    requires s.platform.Win32? && s.loop.Peeking? && s.token == 0 && !s.flag && s.holder == -1 && !s.interrupt
    requires s.queue == 0 && s.timers == [] && AllReturned(s)
    ensures var r := Exec(s, WakingCall(|s.calls|, WakeUp) + PeekAndBlock());
            r.loop.Polling? && r.wakeUpRequested && AllReturned(r) && !WakeComing(r)
  {
    WakingCallRuns(s, WakeUp);
    var s1 := Exec(s, WakingCall(|s.calls|, WakeUp));
    PeeksAndBlocks(s1);
    ExecAppend(s, WakingCall(|s.calls|, WakeUp), PeekAndBlock());
  }

  /** A pass that finds an event does not wait, so it does not consume the request. */
  lemma BusyPassPeeks(s: State)
    requires s.platform.Win32? && s.loop.Top? && s.holder == -1 && !s.interrupt && s.queue > 0 && s.timers == []
    ensures Exec(s, [TestInterrupt, LockAndCheck]) == s.(queue := 0, loop := Peeking(false))
  {
    var s1 := Next(s, TestInterrupt);
    assert Expired([], s.clock) == [] && Advanced([], s.clock) == [];
    ExecOne(s1, LockAndCheck, []);
    ExecOne(s, TestInterrupt, [LockAndCheck]);
    assert [TestInterrupt, LockAndCheck] == [TestInterrupt] + ([LockAndCheck] + []);
  }

  /**
    A call made before the drain: the loop is at the top of a pass, an event is queued, and the wakeUp() returns.
    That pass does not consume the request, but it takes the message away.
   */
  lemma LostBeforeTheDrain(s: State)
    requires s.platform.Win32? && s.loop.Top? && s.token == 1 && s.flag && s.holder == -1 && !s.interrupt
    requires s.queue > 0 && s.timers == [] && AllReturned(s)
    ensures var r := Exec(s, CollapsedCall(|s.calls|, WakeUp) + ([TestInterrupt, LockAndCheck] + PeekAndBlock()));
            r.loop.Polling? && r.wakeUpRequested && AllReturned(r) && !WakeComing(r)
  {
    CollapsedCallRuns(s, WakeUp);
    var s1 := Exec(s, CollapsedCall(|s.calls|, WakeUp));
    BusyPassPeeks(s1);
    PeeksAndBlocks(Exec(s1, [TestInterrupt, LockAndCheck]));
    ExecAppend(s1, [TestInterrupt, LockAndCheck], PeekAndBlock());
    ExecAppend(s, CollapsedCall(|s.calls|, WakeUp), [TestInterrupt, LockAndCheck] + PeekAndBlock());
  }

  /** Both are reached from the start, after one posted event. */
  lemma LostBeforeTheDrainRuns() returns (steps: seq<Step>)
    ensures var r := Exec(Start(Win32, 0), steps);
            r.loop.Polling? && r.wakeUpRequested && AllReturned(r) && !WakeComing(r)
  {
    WakingCallRuns(Start(Win32, 0), PostEvent);
    LostBeforeTheDrain(Exec(Start(Win32, 0), WakingCall(0, PostEvent)));
    var tail := CollapsedCall(1, WakeUp) + ([TestInterrupt, LockAndCheck] + PeekAndBlock());
    steps := WakingCall(0, PostEvent) + tail;
    ExecAppend(Start(Win32, 0), WakingCall(0, PostEvent), tail);
  }

  lemma PeeksOne(s: State)
    requires s.platform.Win32? && s.loop.Peeking? && s.token == 1
    ensures Exec(s, [Peek, ClearFlag]) == s.(token := 0, flag := false, paid := true)
  {
    var s1 := Next(s, Peek);
    ExecOne(s1, ClearFlag, []);
    ExecOne(s, Peek, [ClearFlag]);
    assert [Peek, ClearFlag] == [Peek] + ([ClearFlag] + []);
  }

  lemma LostThoughItPostedRuns() returns (steps: seq<Step>)
    ensures var r := Exec(Start(Win32, 0), steps);
            r.loop.Polling? && r.wakeUpRequested && AllReturned(r) && !WakeComing(r)
  {
    var s0, post, pass := Start(Win32, 0), WakingCall(0, PostEvent), [TestInterrupt, LockAndCheck];
    WakingCallRuns(s0, PostEvent);
    BusyPassPeeks(Exec(s0, post));
    var s1 := Exec(Exec(s0, post), pass);
    PeeksOne(s1);
    LostThoughItPosted(Exec(s1, [Peek, ClearFlag]));
    var tail := WakingCall(1, WakeUp) + PeekAndBlock();
    steps := post + pass + [Peek, ClearFlag] + tail;
    ExecAppend(s0, post, pass);
    ExecAppend(s0, post + pass, [Peek, ClearFlag]);
    ExecAppend(s0, post + pass + [Peek, ClearFlag], tail);
  }
}
