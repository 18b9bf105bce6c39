/**
  Where an event can end: which kinds of event each way of freeing takes, and that no destructor runs twice.
 */
module EventFates {
  import opened Basics
  import opened TimerList
  import opened EventLoop
  import opened EventLoopSafety
  import opened DeferredDeletion

  ghost predicate NoTicks(q: seq<Entry>) { forall e :: e in q ==> !e.event.Tick? }

  ghost predicate OnlyTicks(q: seq<Entry>) { forall e :: e in q ==> e.event.Tick? }

  ghost predicate OnlyDeletes(q: seq<Entry>) { forall e :: e in q ==> e.event.DeferredDelete? }

  /** Every destructor that ended is listed once, and those objects are the dead ones. */
  ghost predicate Once(b: Objects)
  {
    && (forall i, j :: 0 <= i < j < |b.destroyed| ==> b.destroyed[i] != b.destroyed[j])
    && (forall o :: o in b.destroyed <==> o in b.dead)
  }

  ghost predicate Sorted(d: Done)
  {
    NoTicks(d.delivered) && OnlyTicks(d.ticked) && OnlyTicks(d.dropped) && OnlyDeletes(d.drained) && d.abandoned == []
  }

  ghost predicate PassSorted(q: Pass)
  {
    NoTicks(q.batch) && OnlyTicks(q.ticks) && (q.draining ==> OnlyDeletes(q.batch) && q.ticks == [])
  }

  ghost predicate Fates(s: World)
  {
    NoTicks(s.queue) && Once(s.objects) && Sorted(s.done) && PassSorted(s.pass)
  }

  // ---------------------------------------------------------------- user code

  lemma SimpleFates(s: World, a: Action)
    requires NoTicks(s.queue) && Once(s.objects)
    ensures NoTicks(Simple(s, a).queue) && Once(Simple(s, a).objects)
  {
  }

  lemma EndDestroyFates(s: World, o: ObjectId)
    requires SetsOk(s.objects) && o in s.objects.dying && NoTicks(s.queue) && Once(s.objects)
    ensures NoTicks(EndDestroy(s, o).queue) && Once(EndDestroy(s, o).objects)
  {
    WithoutMembers(s.queue, {o});
    assert o !in s.objects.dead;
  }

  lemma {:induction false} PerformFates(p: Program, s: World, acts: seq<Action>)
    requires SetsOk(s.objects) && NoTicks(s.queue) && Once(s.objects)
    ensures NoTicks(Perform(p, s, acts).queue) && Once(Perform(p, s, acts).objects)
    decreases Pending(s.objects), |acts|, 0
  {
    if acts != [] {
      var a := acts[0];
      PerformSplit(p, s, acts);
      if a.Destroy? && a.receiver in s.objects.live {
        DestroyFates(p, s, a.receiver, false);
      } else if !a.Destroy? {
        SimpleFates(s, a);
      }
      PerformFates(p, PerformOne(p, s, a), acts[1..]);
    }
  }

  lemma {:induction false} DestroyFates(p: Program, s: World, o: ObjectId, byEvent: bool)
    requires SetsOk(s.objects) && o in s.objects.live && NoTicks(s.queue) && Once(s.objects)
    ensures NoTicks(DestroyObject(p, s, o, byEvent).queue) && Once(DestroyObject(p, s, o, byEvent).objects)
    decreases Pending(s.objects), 0, 0
  {
    var s1 := BeginDestroy(s, o, byEvent);
    assert o in Pending(s.objects) && o !in Pending(s1.objects);
    PerformFates(p, s1, p.cleanup(o));
    EndDestroyFates(Perform(p, s1, p.cleanup(o)), o);
  }

  // ---------------------------------------------------------------- passes and drains

  lemma NextSorted(s: World)
    requires PassSorted(s.pass) && s.pass.batch + s.pass.ticks != []
    ensures PassSorted(Pop(s)) && Pop(s).draining == s.pass.draining
    ensures s.pass.draining ==> Next(s).event.DeferredDelete?
  {
    PopFacts(s);
    if s.pass.batch != [] {
      assert Next(s) in s.pass.batch;
    }
  }

  lemma RetireFates(s: World, e: Entry)
    requires Fates(s) && (s.pass.draining ==> e.event.DeferredDelete?)
    ensures Fates(Retire(s, e))
  {
  }

  lemma DispatchNextFates(p: Program, s: World)
    requires SetsOk(s.objects) && Fates(s) && s.pass.batch + s.pass.ticks != []
    ensures Fates(DispatchNext(p, s))
  {
    var e := Next(s);
    NextSorted(s);
    if e.receiver !in s.pass.guard && e.receiver in s.objects.live {
      if e.event.DeferredDelete? {
        DestroyFates(p, Enter(s), e.receiver, true);
      } else {
        PerformFates(p, Enter(s), p.handler(e.event.id));
      }
      RetireFates(Handle(p, Enter(s), e), e);
    }
  }

  lemma {:induction false} DispatchFates(p: Program, s: World)
    requires SetsOk(s.objects) && Fates(s)
    ensures Fates(Dispatch(p, s))
    decreases if s.pass.fault then 0 else |s.pass.batch| + |s.pass.ticks|
  {
    if !s.pass.fault && s.pass.batch + s.pass.ticks != [] {
      DispatchNextFates(p, s);
      DispatchFates(p, DispatchNext(p, s));
    }
  }

  lemma CollectFates(s: World)
    requires Fates(s) && s.pass.batch == [] && !s.pass.draining
    ensures Fates(CollectTicks(s))
  {
    var expired := Expired(s.timers, s.clock);
    TickEntryFacts(expired, |s.log|);
    forall e | e in TickEntries(expired, |s.log|) ensures e.event.Tick? {
      var i :| 0 <= i < |TickEntries(expired, |s.log|)| && TickEntries(expired, |s.log|)[i] == e;
    }
  }

  lemma AtDrainFates(p: Program, s: World, before: seq<Action>, during: seq<Action>)
    requires SetsOk(s.objects) && Fates(s) && s.pass.batch == [] && !s.pass.draining
    ensures Fates(AtDrain(p, s, before, during)) && AtDrain(p, s, before, during).pass.batch == []
  {
    PerformFates(p, s, before);
    var s0 := Perform(p, s, before);
    CollectFates(s0);
    var s1 := CollectTicks(s0);
    if s1.queue == [] && s1.pass.ticks == [] {
      PerformFates(p, s1.(timersChanged := false), during);
    }
  }

  lemma ProcessEventsFates(p: Program, s: World, before: seq<Action>, during: seq<Action>)
    requires SetsOk(s.objects) && Fates(s) && Idle(s) && !s.pass.draining
    ensures Fates(ProcessEvents(p, s, before, during))
  {
    if !s.interrupt {
      AtDrainFates(p, s, before, during);
      var s2 := AtDrain(p, s, before, during);
      if !s2.interrupt {
        DispatchFates(p, TakeBatch(s2));
      }
    }
  }

  lemma {:induction false} DrainLoopFates(p: Program, s: World)
    requires Settled(s) && Idle(s) && s.pass.draining && Fates(s)
    ensures Fates(DrainLoop(p, s))
    decreases s.objects.universe - s.objects.dead
  {
    if DeferredDeletes(s.queue) != [] {
      TurnShrinks(p, s);
      ExtractMembers(s.queue);
      DispatchFates(p, Extract(s));
      var r := Dispatch(p, Extract(s));
      if !r.pass.fault {
        DrainLoopFates(p, r);
      }
    }
  }

  lemma DrainFates(p: Program, s: World)
    requires Settled(s) && Idle(s) && Fates(s)
    ensures Fates(ProcessDeferredDeletes(p, s))
  {
    StartKeeps(s);
    DrainLoopFates(p, StartDrain(s));
  }
}
