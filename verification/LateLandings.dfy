/**
  Emits that lose the race with a destructor. The wrapper made by connect() tests the life token and posts afterwards;
  between the two the receiver can be destroyed and forgotten by the dispatcher, and the post then leaves an event for
  a dead object in the queue. This file says exactly when the queue holds such a stray, and which programs cannot race.
 */
module LateLandings {
  import opened Basics
  import opened TimerList
  import opened EventLoop
  import opened EventLoopSafety
  import opened DeferredDeletion

  /** An event is queued for an object that is dead. */
  ghost predicate HasStray(s: World) { exists e :: e in s.queue && e.receiver in s.objects.dead }

  // ---------------------------------------------------------------- landings after the destructor

  /** Performing acts, cleanup callbacks included, lands an event on an object whose destructor has ended. */
  ghost predicate LandsLate(p: Program, s: World, acts: seq<Action>)
    requires SetsOk(s.objects)
    decreases Pending(s.objects), |acts|
  {
    acts != [] &&
    if acts[0].Destroy? && acts[0].receiver in s.objects.live then
      var o := acts[0].receiver;
      var s1 := BeginDestroy(s, o, false);
      assert o in Pending(s.objects) && o !in Pending(s1.objects);
      LandsLate(p, s1, p.cleanup(o)) || LandsLate(p, DestroyObject(p, s, o, false), acts[1..])
    else
      || (acts[0].Land? && acts[0].receiver in s.objects.dead)
      || LandsLate(p, PerformOne(p, s, acts[0]), acts[1..])
  }

  ghost predicate TurnLandsLate(p: Program, s: World)
    requires SetsOk(s.objects) && s.pass.batch + s.pass.ticks != []
  {
    var e := Next(s);
    e.receiver !in s.pass.guard && e.receiver in s.objects.live &&
    if e.event.DeferredDelete? then LandsLate(p, BeginDestroy(Enter(s), e.receiver, true), p.cleanup(e.receiver))
    else LandsLate(p, Enter(s), p.handler(e.event.id))
  }

  ghost predicate DispatchLandsLate(p: Program, s: World)
    requires SetsOk(s.objects)
    decreases if s.pass.fault then 0 else |s.pass.batch| + |s.pass.ticks|
  {
    !s.pass.fault && s.pass.batch + s.pass.ticks != []
    && (TurnLandsLate(p, s) || DispatchLandsLate(p, DispatchNext(p, s)))
  }

  ghost predicate AtDrainLandsLate(p: Program, s: World, before: seq<Action>, during: seq<Action>)
    requires SetsOk(s.objects)
  {
    var s1 := CollectTicks(Perform(p, s, before));
    || LandsLate(p, s, before)
    || (s1.queue == [] && s1.pass.ticks == [] && LandsLate(p, s1.(timersChanged := false), during))
  }

  ghost predicate PassLandsLate(p: Program, s: World, before: seq<Action>, during: seq<Action>)
    requires SetsOk(s.objects)
  {
    var q := AtDrain(p, s, before, during);
    !s.interrupt && (AtDrainLandsLate(p, s, before, during) || (!q.interrupt && DispatchLandsLate(p, TakeBatch(q))))
  }

  /** The pass drains a queue that holds a stray: the batch it dispatches names a dead object from the start. */
  ghost predicate PassMeetsStray(p: Program, s: World, before: seq<Action>, during: seq<Action>)
    requires SetsOk(s.objects)
  {
    var q := AtDrain(p, s, before, during);
    !s.interrupt && !q.interrupt && HasStray(q)
  }

  ghost predicate DrainLandsLate(p: Program, s: World)
    requires Settled(s) && Idle(s) && s.pass.draining
    decreases s.objects.universe - s.objects.dead
  {
    DeferredDeletes(s.queue) != [] &&
    (TurnShrinks(p, s);
     var r := Dispatch(p, Extract(s));
     DispatchLandsLate(p, Extract(s)) || (!r.pass.fault && DrainLandsLate(p, r)))
  }

  // ---------------------------------------------------------------- strays are what landed late

  lemma SimpleStrayIff(s: World, a: Action)
    requires SetsOk(s.objects)
    ensures HasStray(Simple(s, a)) <==> HasStray(s) || (a.Land? && a.receiver in s.objects.dead)
  {
    var r := Simple(s, a);
    assert r.objects.dead == s.objects.dead;
    if r.queue != s.queue {
      var e := r.queue[|s.queue|];
      assert r.queue == s.queue + [e] && e in r.queue;
    }
  }

  /** Destroying an object takes its own events out of the queue, so it makes no stray and removes none. */
  lemma EndDestroyStrayIff(s: World, o: ObjectId)
    requires SetsOk(s.objects) && o in s.objects.dying
    ensures HasStray(EndDestroy(s, o)) <==> HasStray(s)
  {
    WithoutMembers(s.queue, {o});
    var r := EndDestroy(s, o);
    if HasStray(s) {
      var e :| e in s.queue && e.receiver in s.objects.dead;
      assert e in r.queue && e.receiver in r.objects.dead;
    }
  }

  lemma {:induction false} PerformStrayIff(p: Program, s: World, acts: seq<Action>)
    requires SetsOk(s.objects)
    ensures HasStray(Perform(p, s, acts)) <==> HasStray(s) || LandsLate(p, s, acts)
    decreases Pending(s.objects), |acts|
  {
    if acts != [] {
      var a := acts[0];
      PerformSplit(p, s, acts);
      if a.Destroy? && a.receiver in s.objects.live {
        var o := a.receiver;
        var s1 := BeginDestroy(s, o, false);
        assert o in Pending(s.objects) && o !in Pending(s1.objects);
        PerformStrayIff(p, s1, p.cleanup(o));
        EndDestroyStrayIff(Perform(p, s1, p.cleanup(o)), o);
      } else if !a.Destroy? {
        SimpleStrayIff(s, a);
      }
      PerformStrayIff(p, PerformOne(p, s, a), acts[1..]);
    }
  }

  lemma TurnStrayIff(p: Program, s: World)
    requires SetsOk(s.objects) && s.pass.batch + s.pass.ticks != []
    ensures HasStray(DispatchNext(p, s)) <==> HasStray(s) || TurnLandsLate(p, s)
  {
    var e := Next(s);
    if e.receiver !in s.pass.guard && e.receiver in s.objects.live {
      var h := Handle(p, Enter(s), e);
      if e.event.DeferredDelete? {
        var s1 := BeginDestroy(Enter(s), e.receiver, true);
        PerformStrayIff(p, s1, p.cleanup(e.receiver));
        EndDestroyStrayIff(Perform(p, s1, p.cleanup(e.receiver)), e.receiver);
      } else {
        PerformStrayIff(p, Enter(s), p.handler(e.event.id));
      }
      assert HasStray(Retire(h, e)) <==> HasStray(h);
    }
  }

  lemma {:induction false} DispatchStrayIff(p: Program, s: World)
    requires SetsOk(s.objects)
    ensures HasStray(Dispatch(p, s)) <==> HasStray(s) || DispatchLandsLate(p, s)
    decreases if s.pass.fault then 0 else |s.pass.batch| + |s.pass.ticks|
  {
    if !s.pass.fault && s.pass.batch + s.pass.ticks != [] {
      TurnStrayIff(p, s);
      DispatchStrayIff(p, DispatchNext(p, s));
    }
  }

  lemma AtDrainStrayIff(p: Program, s: World, before: seq<Action>, during: seq<Action>)
    requires SetsOk(s.objects)
    ensures HasStray(AtDrain(p, s, before, during)) <==> HasStray(s) || AtDrainLandsLate(p, s, before, during)
  {
    PerformStrayIff(p, s, before);
    var s1 := CollectTicks(Perform(p, s, before));
    if s1.queue == [] && s1.pass.ticks == [] {
      PerformStrayIff(p, s1.(timersChanged := false), during);
    }
  }

  /** After a pass that has drained the queue the only strays are those that landed during its dispatch. */
  lemma PassStrayIff(p: Program, s: World, before: seq<Action>, during: seq<Action>)
    requires SetsOk(s.objects) && !PassMeetsStray(p, s, before, during)
    ensures HasStray(ProcessEvents(p, s, before, during)) <==> HasStray(s) || PassLandsLate(p, s, before, during)
  {
    if !s.interrupt {
      AtDrainStrayIff(p, s, before, during);
      var q := AtDrain(p, s, before, during);
      if !q.interrupt {
        assert !HasStray(TakeBatch(q));
        DispatchStrayIff(p, TakeBatch(q));
      }
    }
  }

  /** A drain takes deferred deletes only, and leaves strays where they are. */
  lemma ExtractStrayIff(s: World)
    requires Inv(s)
    ensures HasStray(Extract(s)) <==> HasStray(s)
  {
    ExtractMembers(s.queue);
    if HasStray(s) {
      var e :| e in s.queue && e.receiver in s.objects.dead;
      assert Addressed(s.objects, e);
      assert e in Extract(s).queue;
    }
  }

  lemma {:induction false} DrainLoopStrayIff(p: Program, s: World)
    requires Settled(s) && Idle(s) && s.pass.draining
    ensures HasStray(DrainLoop(p, s)) <==> HasStray(s) || DrainLandsLate(p, s)
    decreases s.objects.universe - s.objects.dead
  {
    if DeferredDeletes(s.queue) != [] {
      TurnShrinks(p, s);
      ExtractStrayIff(s);
      DispatchStrayIff(p, Extract(s));
      var r := Dispatch(p, Extract(s));
      if !r.pass.fault {
        DrainLoopStrayIff(p, r);
      }
    }
  }

  lemma DrainStrayIff(p: Program, s: World)
    requires Settled(s) && Idle(s)
    ensures (StartKeeps(s);
             HasStray(ProcessDeferredDeletes(p, s)) <==> HasStray(s) || DrainLandsLate(p, StartDrain(s)))
  {
    StartKeeps(s);
    DrainLoopStrayIff(p, StartDrain(s));
  }

  // ---------------------------------------------------------------- programs that cannot race

  /** Deletions hit mortal objects only, and emits that may race with a destructor are aimed at the others. */
  ghost predicate Spares(acts: seq<Action>, mortal: iset<ObjectId>)
  {
    forall a :: a in acts ==>
      && (a.Destroy? || a.DeleteLater? ==> a.receiver in mortal)
      && (a.Land? ==> a.receiver !in mortal)
  }

  ghost predicate Separate(p: Program, mortal: iset<ObjectId>)
  {
    (forall id :: Spares(p.handler(id), mortal)) && (forall o :: Spares(p.cleanup(o), mortal))
  }

  ghost predicate DeletesMortals(q: seq<Entry>, mortal: iset<ObjectId>)
  {
    forall e :: e in q && e.event.DeferredDelete? ==> e.receiver in mortal
  }

  ghost predicate OnlyMortalsDie(s: World, mortal: iset<ObjectId>)
  {
    && (forall o :: o in s.objects.dead || o in s.objects.dying ==> o in mortal)
    && DeletesMortals(s.queue, mortal)
  }

  lemma EndDestroyMortals(s: World, o: ObjectId, mortal: iset<ObjectId>)
    requires OnlyMortalsDie(s, mortal) && o in s.objects.dying
    ensures OnlyMortalsDie(EndDestroy(s, o), mortal)
  {
    WithoutMembers(s.queue, {o});
  }

  lemma SimpleMortals(s: World, a: Action, mortal: iset<ObjectId>)
    requires OnlyMortalsDie(s, mortal) && Spares([a], mortal) && !a.Destroy?
    ensures OnlyMortalsDie(Simple(s, a), mortal)
  {
    assert a in [a];
  }

  lemma {:induction false} SeparateNeverLandsLate(p: Program, s: World, acts: seq<Action>, mortal: iset<ObjectId>)
    requires SetsOk(s.objects) && OnlyMortalsDie(s, mortal) && Separate(p, mortal) && Spares(acts, mortal)
    ensures !LandsLate(p, s, acts) && OnlyMortalsDie(Perform(p, s, acts), mortal)
    decreases Pending(s.objects), |acts|
  {
    if acts != [] {
      var a, rest := acts[0], acts[1..];
      assert a in acts && forall b :: b in rest ==> b in acts;
      PerformSplit(p, s, acts);
      if a.Destroy? && a.receiver in s.objects.live {
        var o := a.receiver;
        var s1 := BeginDestroy(s, o, false);
        assert o in Pending(s.objects) && o !in Pending(s1.objects);
        SeparateNeverLandsLate(p, s1, p.cleanup(o), mortal);
        EndDestroyMortals(Perform(p, s1, p.cleanup(o)), o, mortal);
      } else if !a.Destroy? {
        SimpleMortals(s, a, mortal);
      }
      SeparateNeverLandsLate(p, PerformOne(p, s, a), rest, mortal);
    }
  }

  lemma HandleMortals(p: Program, s: World, e: Entry, mortal: iset<ObjectId>)
    requires SetsOk(s.objects) && OnlyMortalsDie(s, mortal) && Separate(p, mortal)
    requires e.receiver in s.objects.live && (e.event.DeferredDelete? ==> e.receiver in mortal)
    ensures OnlyMortalsDie(Handle(p, s, e), mortal)
    ensures if e.event.DeferredDelete? then !LandsLate(p, BeginDestroy(s, e.receiver, true), p.cleanup(e.receiver))
            else !LandsLate(p, s, p.handler(e.event.id))
  {
    if e.event.DeferredDelete? {
      var s1 := BeginDestroy(s, e.receiver, true);
      SeparateNeverLandsLate(p, s1, p.cleanup(e.receiver), mortal);
      EndDestroyMortals(Perform(p, s1, p.cleanup(e.receiver)), e.receiver, mortal);
    } else {
      SeparateNeverLandsLate(p, s, p.handler(e.event.id), mortal);
    }
  }

  lemma TurnMortals(p: Program, s: World, mortal: iset<ObjectId>)
    requires SetsOk(s.objects) && OnlyMortalsDie(s, mortal) && Separate(p, mortal)
    requires s.pass.batch + s.pass.ticks != [] && DeletesMortals(s.pass.batch + s.pass.ticks, mortal)
    ensures !TurnLandsLate(p, s) && OnlyMortalsDie(DispatchNext(p, s), mortal)
  {
    var e := Next(s);
    PopFacts(s);
    assert e in s.pass.batch + s.pass.ticks;
    if e.receiver !in s.pass.guard && e.receiver in s.objects.live {
      HandleMortals(p, Enter(s), e, mortal);
    }
  }

  lemma TurnBatchMortals(p: Program, s: World, mortal: iset<ObjectId>)
    requires SetsOk(s.objects) && s.pass.batch + s.pass.ticks != []
    requires DeletesMortals(s.pass.batch + s.pass.ticks, mortal)
    ensures var q := DispatchNext(p, s).pass; DeletesMortals(q.batch + q.ticks, mortal)
  {
    PopFacts(s);
    TurnBatch(p, s);
  }

  lemma {:induction false} DispatchMortals(p: Program, s: World, mortal: iset<ObjectId>)
    requires SetsOk(s.objects) && OnlyMortalsDie(s, mortal) && Separate(p, mortal)
    requires DeletesMortals(s.pass.batch + s.pass.ticks, mortal)
    ensures !DispatchLandsLate(p, s) && OnlyMortalsDie(Dispatch(p, s), mortal)
    decreases if s.pass.fault then 0 else |s.pass.batch| + |s.pass.ticks|
  {
    if !s.pass.fault && s.pass.batch + s.pass.ticks != [] {
      TurnMortals(p, s, mortal);
      TurnBatchMortals(p, s, mortal);
      DispatchMortals(p, DispatchNext(p, s), mortal);
    }
  }

  lemma TicksDeleteNothing(s: World, mortal: iset<ObjectId>)
    ensures DeletesMortals(CollectTicks(s).pass.ticks, mortal)
  {
    var expired := Expired(s.timers, s.clock);
    var ticks := TickEntries(expired, |s.log|);
    TickEntryFacts(expired, |s.log|);
    forall e | e in ticks ensures e.event.Tick? {
      var i :| 0 <= i < |ticks| && ticks[i] == e;
    }
  }

  lemma AtDrainMortals(p: Program, s: World, before: seq<Action>, during: seq<Action>, mortal: iset<ObjectId>)
    requires SetsOk(s.objects) && OnlyMortalsDie(s, mortal) && Separate(p, mortal)
    requires Spares(before, mortal) && Spares(during, mortal)
    ensures !AtDrainLandsLate(p, s, before, during)
    ensures var q := AtDrain(p, s, before, during);
            OnlyMortalsDie(q, mortal) && DeletesMortals(q.pass.ticks, mortal)
  {
    SeparateNeverLandsLate(p, s, before, mortal);
    TicksDeleteNothing(Perform(p, s, before), mortal);
    var s1 := CollectTicks(Perform(p, s, before));
    if s1.queue == [] && s1.pass.ticks == [] {
      SeparateNeverLandsLate(p, s1.(timersChanged := false), during, mortal);
    }
  }

  lemma PassMortals(p: Program, s: World, before: seq<Action>, during: seq<Action>, mortal: iset<ObjectId>)
    requires SetsOk(s.objects) && OnlyMortalsDie(s, mortal) && Separate(p, mortal)
    requires Spares(before, mortal) && Spares(during, mortal)
    ensures !PassLandsLate(p, s, before, during) && OnlyMortalsDie(ProcessEvents(p, s, before, during), mortal)
  {
    if !s.interrupt {
      AtDrainMortals(p, s, before, during, mortal);
      var q := AtDrain(p, s, before, during);
      if !q.interrupt {
        DispatchMortals(p, TakeBatch(q), mortal);
      }
    }
  }

  lemma {:induction false} DrainLoopMortals(p: Program, s: World, mortal: iset<ObjectId>)
    requires Settled(s) && Idle(s) && s.pass.draining && OnlyMortalsDie(s, mortal) && Separate(p, mortal)
    ensures !DrainLandsLate(p, s) && OnlyMortalsDie(DrainLoop(p, s), mortal)
    decreases s.objects.universe - s.objects.dead
  {
    if DeferredDeletes(s.queue) != [] {
      TurnShrinks(p, s);
      ExtractMembers(s.queue);
      DispatchMortals(p, Extract(s), mortal);
      var r := Dispatch(p, Extract(s));
      if !r.pass.fault {
        DrainLoopMortals(p, r, mortal);
      }
    }
  }

  lemma DrainMortals(p: Program, s: World, mortal: iset<ObjectId>)
    requires Settled(s) && Idle(s) && OnlyMortalsDie(s, mortal) && Separate(p, mortal)
    ensures (StartKeeps(s); !DrainLandsLate(p, StartDrain(s)))
    ensures OnlyMortalsDie(ProcessDeferredDeletes(p, s), mortal)
  {
    StartKeeps(s);
    DrainLoopMortals(p, StartDrain(s), mortal);
  }
}
