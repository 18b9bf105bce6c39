/**
  When a pass touches a dead object. There are two ways: an event that landed after its receiver's destructor is in
  the batch from the start, which is LateLandings; or a handler or cleanup callback destroys an object directly, not
  through deleteLater(), while the running batch still holds entries for it. This file says when the second happens,
  in terms of the guard `Named(batch + ticks, o)` evaluated at the destruction, that there is no third way, and which
  programs cannot do it.
 */
module DirectDeletion {
  import opened Basics
  import opened TimerList
  import opened EventLoop
  import opened EventLoopSafety
  import opened DeferredDeletion
  import opened LateLandings

  // ---------------------------------------------------------------- the guard, evaluated where it matters

  /** Performing acts, cleanup callbacks included, destroys some object the rest of the batch still names. */
  ghost predicate Strikes(p: Program, s: World, acts: seq<Action>)
    requires SetsOk(s.objects)
    decreases Pending(s.objects), |acts|
  {
    acts != [] &&
    if acts[0].Destroy? && acts[0].receiver in s.objects.live then
      var o := acts[0].receiver;
      var s1 := BeginDestroy(s, o, false);
      assert o in Pending(s.objects) && o !in Pending(s1.objects);
      || Named(s.pass.batch + s.pass.ticks, o)
      || Strikes(p, s1, p.cleanup(o))
      || Strikes(p, DestroyObject(p, s, o, false), acts[1..])
    else
      Strikes(p, PerformOne(p, s, acts[0]), acts[1..])
  }

  ghost predicate TurnStrikes(p: Program, s: World)
    requires SetsOk(s.objects) && s.pass.batch + s.pass.ticks != []
  {
    var e := Next(s);
    e.receiver !in s.pass.guard && e.receiver in s.objects.live &&
    if e.event.DeferredDelete? then Strikes(p, BeginDestroy(Enter(s), e.receiver, true), p.cleanup(e.receiver))
    else Strikes(p, Enter(s), p.handler(e.event.id))
  }

  ghost predicate DispatchStrikes(p: Program, s: World)
    requires SetsOk(s.objects)
    decreases if s.pass.fault then 0 else |s.pass.batch| + |s.pass.ticks|
  {
    !s.pass.fault && s.pass.batch + s.pass.ticks != [] && (TurnStrikes(p, s) || DispatchStrikes(p, DispatchNext(p, s)))
  }

  ghost predicate PassStrikes(p: Program, s: World, before: seq<Action>, during: seq<Action>)
    requires SetsOk(s.objects)
  {
    !s.interrupt && !AtDrain(p, s, before, during).interrupt
    && DispatchStrikes(p, TakeBatch(AtDrain(p, s, before, during)))
  }

  ghost predicate DrainStrikes(p: Program, s: World)
    requires Settled(s) && Idle(s) && s.pass.draining
    decreases s.objects.universe - s.objects.dead
  {
    DeferredDeletes(s.queue) != [] &&
    (TurnShrinks(p, s);
     var r := Dispatch(p, Extract(s));
     DispatchStrikes(p, Extract(s)) || (!r.pass.fault && DrainStrikes(p, r)))
  }

  ghost predicate KilledGone(b: Objects) { b.killed <= b.dying + b.dead }

  lemma {:induction false} StrikesKill(p: Program, s: World, acts: seq<Action>)
    requires SetsOk(s.objects) && KilledGone(s.objects)
    ensures KilledGone(Perform(p, s, acts).objects)
    ensures Strikes(p, s, acts) <==> Perform(p, s, acts).objects.killed != s.objects.killed
    decreases Pending(s.objects), |acts|
  {
    if acts != [] {
      var a := acts[0];
      PerformSplit(p, s, acts);
      if a.Destroy? && a.receiver in s.objects.live {
        var o := a.receiver;
        var s1 := BeginDestroy(s, o, false);
        assert o in Pending(s.objects) && o !in Pending(s1.objects);
        StrikesKill(p, s1, p.cleanup(o));
        StrikesKill(p, DestroyObject(p, s, o, false), acts[1..]);
        assert Named(s.pass.batch + s.pass.ticks, o) <==> s1.objects.killed != s.objects.killed;
      } else {
        SimpleKills(s, a);
        StrikesKill(p, PerformOne(p, s, a), acts[1..]);
      }
    }
  }

  lemma SimpleKills(s: World, a: Action)
    requires SetsOk(s.objects)
    ensures Simple(s, a).objects.killed == s.objects.killed
    ensures KilledGone(s.objects) ==> KilledGone(Simple(s, a).objects)
  {
  }

  lemma TurnStrikesKill(p: Program, s: World)
    requires Settled(s) && s.pass.batch + s.pass.ticks != []
    ensures TurnStrikes(p, s) <==> DispatchNext(p, s).objects.killed != s.objects.killed
  {
    var e := Next(s);
    if e.receiver !in s.pass.guard && e.receiver in s.objects.live {
      if e.event.DeferredDelete? {
        StrikesKill(p, BeginDestroy(Enter(s), e.receiver, true), p.cleanup(e.receiver));
      } else {
        StrikesKill(p, Enter(s), p.handler(e.event.id));
      }
    }
  }

  lemma {:induction false} DispatchStrikesKill(p: Program, s: World)
    requires Settled(s)
    ensures DispatchStrikes(p, s) <==> Dispatch(p, s).objects.killed != s.objects.killed
    decreases |s.pass.batch| + |s.pass.ticks|
  {
    if s.pass.batch + s.pass.ticks != [] {
      var s' := DispatchNext(p, s);
      TurnStrikesKill(p, s);
      DispatchNextKeeps(p, s);
      if !s'.pass.fault {
        DispatchStrikesKill(p, s');
      } else {
        assert Dispatch(p, s') == s' && !DispatchStrikes(p, s');
      }
    }
  }

  /**
    The dispatch loops fault if and only if the batch named a dead object when it was taken or some turn destroys
    directly what the rest of the batch still names.
   */
  lemma DispatchFaultsIff(p: Program, s: World)
    requires Settled(s)
    ensures Dispatch(p, s).pass.fault <==> s.objects.killed != {} || DispatchStrikes(p, s)
  {
    DispatchKeeps(p, s);
    DispatchStrikesKill(p, s);
  }

  lemma StraysIff(s: World)
    ensures Strays(s.queue, s.objects.dead) != {} <==> HasStray(s)
  {
    if HasStray(s) {
      var e :| e in s.queue && e.receiver in s.objects.dead;
      assert e.receiver in Strays(s.queue, s.objects.dead);
    }
    if Strays(s.queue, s.objects.dead) != {} {
      var o :| o in Strays(s.queue, s.objects.dead);
    }
  }

  /** A whole pass: other threads can make it fault only by landing an event after its receiver's destructor. */
  lemma PassFaultsIff(p: Program, s: World, before: seq<Action>, during: seq<Action>)
    requires Settled(s) && Idle(s)
    ensures ProcessEvents(p, s, before, during).pass.fault <==>
              PassMeetsStray(p, s, before, during) || PassStrikes(p, s, before, during)
  {
    ProcessEventsSafe(p, s, before, during);
    if !s.interrupt {
      AtDrainKeeps(p, s, before, during);
      var q := AtDrain(p, s, before, during);
      if !q.interrupt {
        TakeKeeps(q);
        StraysIff(q);
        DispatchFaultsIff(p, TakeBatch(q));
      }
    }
  }

  /** A stray is never forgiven: the first pass that drains the queue touches the dead object, whatever the program. */
  lemma StrayFaults(p: Program, s: World, before: seq<Action>, during: seq<Action>)
    requires Settled(s) && Idle(s) && HasStray(s) && !s.interrupt && !AtDrain(p, s, before, during).interrupt
    ensures ProcessEvents(p, s, before, during).pass.fault
  {
    PassFaultsIff(p, s, before, during);
    AtDrainStrayIff(p, s, before, during);
  }

  lemma {:induction false} DrainLoopFaultsIff(p: Program, s: World)
    requires Settled(s) && Idle(s) && s.pass.draining
    ensures DrainLoop(p, s).pass.fault <==> DrainStrikes(p, s)
    decreases s.objects.universe - s.objects.dead
  {
    if DeferredDeletes(s.queue) != [] {
      TurnShrinks(p, s);
      IdleKillsNobody(s);
      var r := Dispatch(p, Extract(s));
      DispatchFaultsIff(p, Extract(s));
      if !r.pass.fault {
        DrainLoopFaultsIff(p, r);
      }
    }
  }

  // ---------------------------------------------------------------- programs that cannot strike

  /** Nothing is sent to the quiet objects. */
  predicate Aims(a: Action, quiet: set<ObjectId>)
  {
    a.Post? || a.Land? || a.DeleteLater? || a.StartTimer? ==> a.receiver !in quiet
  }

  predicate AllAim(acts: seq<Action>, quiet: set<ObjectId>) { forall a :: a in acts ==> Aims(a, quiet) }

  predicate DestroyOnly(acts: seq<Action>, quiet: set<ObjectId>)
  {
    forall a :: a in acts && a.Destroy? ==> a.receiver in quiet
  }

  /**
    What the program text can promise: its handlers and cleanup callbacks destroy directly none but the quiet
    objects, and send those nothing. With no quiet objects at all: they never destroy anything directly.
   */
  ghost predicate Careful(p: Program, quiet: set<ObjectId>)
  {
    && (forall id :: AllAim(p.handler(id), quiet) && DestroyOnly(p.handler(id), quiet))
    && (forall o :: AllAim(p.cleanup(o), quiet) && DestroyOnly(p.cleanup(o), quiet))
  }

  ghost predicate Unnamed(q: seq<Entry>, quiet: set<ObjectId>) { forall e :: e in q ==> e.receiver !in quiet }

  ghost predicate Untimed(timers: seq<TimerData>, quiet: set<ObjectId>)
  {
    forall t :: t in timers ==> t.receiver !in quiet
  }

  /** No event and no timer is meant for a quiet object. */
  ghost predicate Quiet(s: World, quiet: set<ObjectId>)
  {
    Unnamed(s.queue, quiet) && Untimed(s.timers, quiet) && Unnamed(s.pass.batch + s.pass.ticks, quiet)
  }

  lemma SimpleQuiet(s: World, a: Action, quiet: set<ObjectId>)
    requires Unnamed(s.queue, quiet) && Untimed(s.timers, quiet) && Aims(a, quiet)
    ensures Unnamed(Simple(s, a).queue, quiet) && Untimed(Simple(s, a).timers, quiet)
  {
    if a.StartTimer? {
      RegisteredReceivers(s.timers, s.nextTimer, a.intervalMs, a.receiver, s.clock);
    } else if a.KillTimer? {
      UnregisteredMembers(s.timers, a.timerId);
    }
  }

  lemma EndDestroyQuiet(s: World, o: ObjectId, quiet: set<ObjectId>)
    requires Unnamed(s.queue, quiet) && Untimed(s.timers, quiet)
    ensures Unnamed(EndDestroy(s, o).queue, quiet) && Untimed(EndDestroy(s, o).timers, quiet)
  {
    WithoutMembers(s.queue, {o});
    WithoutReceiverMembers(s.timers, o);
  }

  lemma {:induction false} PerformQuiet(p: Program, s: World, acts: seq<Action>, quiet: set<ObjectId>)
    requires SetsOk(s.objects) && Careful(p, quiet) && AllAim(acts, quiet)
    requires Unnamed(s.queue, quiet) && Untimed(s.timers, quiet)
    ensures Unnamed(Perform(p, s, acts).queue, quiet) && Untimed(Perform(p, s, acts).timers, quiet)
    decreases Pending(s.objects), |acts|
  {
    if acts != [] {
      var a, rest := acts[0], acts[1..];
      assert a in acts && forall b :: b in rest ==> b in acts;
      PerformSplit(p, s, acts);
      if a.Destroy? && a.receiver in s.objects.live {
        var o := a.receiver;
        var s1 := BeginDestroy(s, o, false);
        assert o in Pending(s.objects) && o !in Pending(s1.objects);
        PerformQuiet(p, s1, p.cleanup(o), quiet);
        EndDestroyQuiet(Perform(p, s1, p.cleanup(o)), o, quiet);
      } else {
        SimpleQuiet(s, a, quiet);
      }
      PerformQuiet(p, PerformOne(p, s, a), rest, quiet);
    }
  }

  /** Destroying only what the batch does not name strikes nothing. */
  lemma {:induction false} CarefulNeverStrikes(p: Program, s: World, acts: seq<Action>, quiet: set<ObjectId>)
    requires SetsOk(s.objects) && Careful(p, quiet) && DestroyOnly(acts, quiet)
    requires Unnamed(s.pass.batch + s.pass.ticks, quiet)
    ensures !Strikes(p, s, acts)
    decreases Pending(s.objects), |acts|
  {
    if acts != [] {
      var a, rest := acts[0], acts[1..];
      assert a in acts && forall b :: b in rest ==> b in acts;
      if a.Destroy? && a.receiver in s.objects.live {
        var o := a.receiver;
        var s1 := BeginDestroy(s, o, false);
        assert o in Pending(s.objects) && o !in Pending(s1.objects);
        CarefulNeverStrikes(p, s1, p.cleanup(o), quiet);
        CarefulNeverStrikes(p, DestroyObject(p, s, o, false), rest, quiet);
      } else {
        CarefulNeverStrikes(p, PerformOne(p, s, a), rest, quiet);
      }
    }
  }

  lemma DestroyQuiet(p: Program, s: World, o: ObjectId, quiet: set<ObjectId>)
    requires SetsOk(s.objects) && o in s.objects.live && Careful(p, quiet) && Quiet(s, quiet)
    ensures !Strikes(p, BeginDestroy(s, o, true), p.cleanup(o)) && Quiet(DestroyObject(p, s, o, true), quiet)
  {
    var s1 := BeginDestroy(s, o, true);
    CarefulNeverStrikes(p, s1, p.cleanup(o), quiet);
    PerformQuiet(p, s1, p.cleanup(o), quiet);
    EndDestroyQuiet(Perform(p, s1, p.cleanup(o)), o, quiet);
  }

  lemma HandlerQuiet(p: Program, s: World, acts: seq<Action>, quiet: set<ObjectId>)
    requires SetsOk(s.objects) && Careful(p, quiet) && Quiet(s, quiet)
    requires AllAim(acts, quiet) && DestroyOnly(acts, quiet)
    ensures !Strikes(p, s, acts) && Quiet(Perform(p, s, acts), quiet)
  {
    CarefulNeverStrikes(p, s, acts, quiet);
    PerformQuiet(p, s, acts, quiet);
  }

  lemma PopQuiet(s: World, quiet: set<ObjectId>)
    requires Quiet(s, quiet) && s.pass.batch + s.pass.ticks != []
    ensures Quiet(s.(pass := Pop(s)), quiet) && Quiet(Enter(s), quiet)
  {
    PopFacts(s);
  }

  lemma TurnQuiet(p: Program, s: World, quiet: set<ObjectId>)
    requires SetsOk(s.objects) && Careful(p, quiet) && Quiet(s, quiet) && s.pass.batch + s.pass.ticks != []
    ensures !TurnStrikes(p, s) && Quiet(DispatchNext(p, s), quiet)
  {
    var e := Next(s);
    PopQuiet(s, quiet);
    if e.receiver !in s.pass.guard && e.receiver in s.objects.live {
      if e.event.DeferredDelete? {
        DestroyQuiet(p, Enter(s), e.receiver, quiet);
      } else {
        HandlerQuiet(p, Enter(s), p.handler(e.event.id), quiet);
      }
    }
  }

  lemma {:induction false} DispatchQuiet(p: Program, s: World, quiet: set<ObjectId>)
    requires SetsOk(s.objects) && Careful(p, quiet) && Quiet(s, quiet)
    ensures !DispatchStrikes(p, s) && Quiet(Dispatch(p, s), quiet)
    decreases if s.pass.fault then 0 else |s.pass.batch| + |s.pass.ticks|
  {
    if !s.pass.fault && s.pass.batch + s.pass.ticks != [] {
      TurnQuiet(p, s, quiet);
      DispatchQuiet(p, DispatchNext(p, s), quiet);
    }
  }

  lemma CollectQuiet(s: World, quiet: set<ObjectId>)
    requires Quiet(s, quiet) && s.pass.batch == []
    ensures Quiet(CollectTicks(s), quiet)
  {
    var expired := Expired(s.timers, s.clock);
    var ticks := TickEntries(expired, |s.log|);
    TickEntryFacts(expired, |s.log|);
    ExpiredMembers(s.timers, s.clock);
    forall e | e in ticks ensures e.receiver !in quiet {
      var i :| 0 <= i < |ticks| && ticks[i] == e;
      assert expired[i] in expired;
    }
    AdvancedQuiet(s.timers, s.clock, quiet);
  }

  lemma AdvancedQuiet(timers: seq<TimerData>, now: int, quiet: set<ObjectId>)
    requires Untimed(timers, quiet)
    ensures Untimed(Advanced(timers, now), quiet)
  {
    var r := Advanced(timers, now);
    forall t | t in r ensures t.receiver !in quiet {
      var i :| 0 <= i < |r| && r[i] == t;
      assert timers[i] in timers;
    }
  }

  lemma AtDrainQuiet(p: Program, s: World, before: seq<Action>, during: seq<Action>, quiet: set<ObjectId>)
    requires SetsOk(s.objects) && Careful(p, quiet) && Quiet(s, quiet) && s.pass.batch == []
    requires AllAim(before, quiet) && AllAim(during, quiet)
    ensures Quiet(AtDrain(p, s, before, during), quiet)
  {
    PerformQuiet(p, s, before, quiet);
    var s0 := Perform(p, s, before);
    CollectQuiet(s0, quiet);
    var s1 := CollectTicks(s0);
    if s1.queue == [] && s1.pass.ticks == [] {
      PerformQuiet(p, s1.(timersChanged := false), during, quiet);
    }
  }

  lemma PassQuiet(p: Program, s: World, before: seq<Action>, during: seq<Action>, quiet: set<ObjectId>)
    requires Settled(s) && Idle(s) && Careful(p, quiet) && Quiet(s, quiet)
    requires AllAim(before, quiet) && AllAim(during, quiet)
    ensures !PassStrikes(p, s, before, during) && Quiet(ProcessEvents(p, s, before, during), quiet)
  {
    if !s.interrupt {
      AtDrainQuiet(p, s, before, during, quiet);
      var q := AtDrain(p, s, before, during);
      if !q.interrupt {
        DispatchQuiet(p, TakeBatch(q), quiet);
      }
    }
  }

  lemma {:induction false} DrainLoopQuiet(p: Program, s: World, quiet: set<ObjectId>)
    requires Settled(s) && Idle(s) && s.pass.draining && Careful(p, quiet) && Quiet(s, quiet)
    ensures !DrainStrikes(p, s) && !DrainLoop(p, s).pass.fault && Quiet(DrainLoop(p, s), quiet)
    decreases s.objects.universe - s.objects.dead
  {
    DrainLoopFaultsIff(p, s);
    if DeferredDeletes(s.queue) != [] {
      TurnShrinks(p, s);
      IdleKillsNobody(s);
      ExtractMembers(s.queue);
      DispatchQuiet(p, Extract(s), quiet);
      DispatchFaultsIff(p, Extract(s));
      DrainLoopQuiet(p, Dispatch(p, Extract(s)), quiet);
    }
  }

  lemma DrainQuiet(p: Program, s: World, quiet: set<ObjectId>)
    requires Settled(s) && Idle(s) && Careful(p, quiet) && Quiet(s, quiet)
    ensures (StartKeeps(s); !DrainStrikes(p, StartDrain(s)))
    ensures !ProcessDeferredDeletes(p, s).pass.fault && Quiet(ProcessDeferredDeletes(p, s), quiet)
  {
    StartKeeps(s);
    DrainLoopQuiet(p, StartDrain(s), quiet);
  }
}
