/**
  What a program gets from the event loop: a queued event is through after at most two passes, a timer ticks in the
  first pass at or after its deadline and in none before, and an interrupt costs one pass.
 */
module EventLoopService {
  import opened Basics
  import opened TimerList
  import opened EventLoop
  import opened EventLoopSafety
  import opened DeferredDeletion
  import opened EventLoopRuns

  // ---------------------------------------------------------------- nothing queued is forgotten

  lemma {:induction false} OfMembers(q: seq<Entry>, o: ObjectId)
    ensures forall e :: e in Of(q, o) <==> e in q && e.receiver == o
  {
    if q != [] {
      OfMembers(q[1..], o);
      assert q == [q[0]] + q[1..];
    }
  }

  lemma EndDestroyStays(s: World, o: ObjectId, e: Entry)
    requires e in s.queue
    ensures var r := EndDestroy(s, o); e in r.queue || e in r.discarded
  {
    WithoutMembers(s.queue, {o});
    OfMembers(s.queue, o);
  }

  /** Whatever user code does, a queued event stays queued or is freed with its receiver. */
  lemma {:induction false} PerformStays(p: Program, s: World, acts: seq<Action>, e: Entry)
    requires SetsOk(s.objects) && (e in s.queue || e in s.discarded)
    ensures var r := Perform(p, s, acts); e in r.queue || e in r.discarded
    decreases Pending(s.objects), |acts|
  {
    if acts != [] {
      var a := acts[0];
      PerformSplit(p, s, acts);
      if a.Destroy? && a.receiver in s.objects.live {
        var o := a.receiver;
        var s1 := BeginDestroy(s, o, false);
        assert o in Pending(s.objects) && o !in Pending(s1.objects);
        PerformStays(p, s1, p.cleanup(o), e);
        var s2 := Perform(p, s1, p.cleanup(o));
        if e in s2.queue { EndDestroyStays(s2, o, e); }
      }
      PerformStays(p, PerformOne(p, s, a), acts[1..], e);
    }
  }

  lemma AtDrainStays(p: Program, s: World, before: seq<Action>, during: seq<Action>, e: Entry)
    requires SetsOk(s.objects) && (e in s.queue || e in s.discarded)
    ensures var q := AtDrain(p, s, before, during); e in q.queue || e in q.discarded
  {
    PerformStays(p, s, before, e);
    var s1 := CollectTicks(Perform(p, s, before));
    if s1.queue == [] && s1.pass.ticks == [] {
      PerformStays(p, s1.(timersChanged := false), during, e);
    }
  }

  /** The event has been delivered, or was freed with its receiver, which is dead. */
  ghost predicate Through(r: World, e: Entry)
  {
    e in r.done.delivered || (e in r.discarded && e.receiver in r.objects.dead)
  }

  lemma AtDrainFrees(p: Program, s: World, before: seq<Action>, during: seq<Action>)
    requires SetsOk(s.objects)
    ensures var q := AtDrain(p, s, before, during); q.done == s.done && s.discarded <= q.discarded
  {
    PerformDiscards(p, s, before);
    var s1 := CollectTicks(Perform(p, s, before));
    if s1.queue == [] && s1.pass.ticks == [] { PerformDiscards(p, s1.(timersChanged := false), during); }
  }

  lemma DrainedPassFrees(p: Program, q: World)
    requires Settled(q) && q.pass.batch == [] && q.objects.killed == {} && TicksLive(q)
    requires !Dispatch(p, TakeBatch(q)).pass.fault
    ensures var r := Dispatch(p, TakeBatch(q));
            && (forall e :: e in q.done.delivered ==> e in r.done.delivered)
            && (forall e :: e in q.discarded ==> e in r.discarded)
  {
    TakeKeeps(q);
    DispatchDelivers(p, TakeBatch(q));
  }

  /** What has been delivered or freed with its receiver stays so. */
  lemma PassFrees(p: Program, s: World, before: seq<Action>, during: seq<Action>)
    requires Settled(s) && Idle(s) && !ProcessEvents(p, s, before, during).pass.fault
    ensures var r := ProcessEvents(p, s, before, during);
            && (forall e :: e in s.done.delivered ==> e in r.done.delivered)
            && (forall e :: e in s.discarded ==> e in r.discarded)
  {
    if !s.interrupt {
      AtDrainFrees(p, s, before, during);
      AtDrainKeeps(p, s, before, during);
      if !AtDrain(p, s, before, during).interrupt { DrainedPassFrees(p, AtDrain(p, s, before, during)); }
    }
  }

  /** An event that is through stays so. */
  lemma PassKeepsThrough(p: Program, s: World, before: seq<Action>, during: seq<Action>, e: Entry)
    requires Settled(s) && Idle(s) && Through(s, e) && !ProcessEvents(p, s, before, during).pass.fault
    ensures Through(ProcessEvents(p, s, before, during), e)
  {
    PassFrees(p, s, before, during);
    ProcessEventsSafe(p, s, before, during);
    DiscardedIsDead(ProcessEvents(p, s, before, during), e);
  }

  lemma DiscardedIsDead(s: World, e: Entry)
    requires Inv(s)
    ensures e in s.discarded ==> e.receiver in s.objects.dead
  {
  }

  /** A pass that no interrupt ends takes care of everything that was queued when it began. */
  lemma PassGetsThrough(p: Program, s: World, before: seq<Action>, during: seq<Action>, e: Entry)
    requires Settled(s) && Idle(s) && e in s.queue && !e.event.Tick?
    requires !s.interrupt && !AtDrain(p, s, before, during).interrupt
    requires !ProcessEvents(p, s, before, during).pass.fault
    ensures Through(ProcessEvents(p, s, before, during), e)
  {
    AtDrainStays(p, s, before, during, e);
    PassDelivers(p, s, before, during);
    ProcessEventsSafe(p, s, before, during);
    AtDrainKeeps(p, s, before, during);
    DrainedPassFrees(p, AtDrain(p, s, before, during));
    DiscardedIsDead(ProcessEvents(p, s, before, during), e);
  }

  // ---------------------------------------------------------------- an interrupt costs one pass

  /** A pass that finds the interrupt at its top consumes it and does nothing else. */
  lemma TopTestEndsPass(p: Program, s: World, before: seq<Action>, during: seq<Action>)
    requires SetsOk(s.objects) && s.interrupt
    ensures var r := ProcessEvents(p, s, before, during);
            !r.interrupt && r == s.(interrupt := false)
  {
  }

  /** A pass that finds it at the second test consumes it, leaves the queue as it is, and frees the collected ticks. */
  lemma SecondTestEndsPass(p: Program, s: World, before: seq<Action>, during: seq<Action>)
    requires SetsOk(s.objects) && !s.interrupt && AtDrain(p, s, before, during).interrupt
    ensures var q, r := AtDrain(p, s, before, during), ProcessEvents(p, s, before, during);
            && !r.interrupt && r.queue == q.queue && r.timers == q.timers && r.objects == q.objects
            && r.done == q.done.(dropped := q.done.dropped + q.pass.ticks) && r.pass.ticks == []
  {
  }

  lemma QuietPassIsNotInterrupted(p: Program, s: World)
    requires SetsOk(s.objects) && !s.interrupt
    ensures !AtDrain(p, s, [], []).interrupt
  {
  }

  /**
    Whether or not an interrupt is pending, or arrives during the first pass, everything queued is through after two
    passes that do not fault: at most one of them was ended by the interrupt.
   */
  lemma InterruptCostsOnePass(p: Program, s: World, before: seq<Action>, during: seq<Action>, e: Entry)
    requires Settled(s) && Idle(s) && e in s.queue && !e.event.Tick?
    requires !Run(p, s, [OnePass(before, during), OnePass([], [])]).pass.fault
    ensures Through(Run(p, s, [OnePass(before, during), OnePass([], [])]), e)
  {
    FirstDidNotFault(p, s, OnePass(before, during), OnePass([], []));
    var m, r := TwoSteps(p, s, OnePass(before, during), OnePass([], []));
    if !s.interrupt && !AtDrain(p, s, before, during).interrupt {
      PassGetsThrough(p, s, before, during, e);
      PassKeepsThrough(p, m, [], [], e);
    } else {
      Postponed(p, s, before, during, e);
      if e in m.queue {
        QuietPassIsNotInterrupted(p, m);
        PassGetsThrough(p, m, [], [], e);
      } else {
        PassKeepsThrough(p, m, [], [], e);
      }
    }
  }

  lemma FirstDidNotFault(p: Program, s: World, first: EventLoopRuns.Op, second: EventLoopRuns.Op)
    requires Settled(s) && Idle(s) && !Run(p, s, [first, second]).pass.fault
    ensures !Step(p, s, first).pass.fault
  {
    StepSafe(p, s, first);
  }

  lemma RunOne(p: Program, s: World, op: EventLoopRuns.Op) returns (r: World)
    requires Settled(s) && Idle(s)
    ensures r == Step(p, s, op) && r == Run(p, s, [op])
  {
    StepSafe(p, s, op);
    r := Step(p, s, op);
    assert [op][1..] == [];
  }

  /** A pass ended by an interrupt leaves the flag clear, and what was queued still queued or freed with its owner. */
  lemma Postponed(p: Program, s: World, before: seq<Action>, during: seq<Action>, e: Entry)
    requires Settled(s) && Idle(s) && e in s.queue && (s.interrupt || AtDrain(p, s, before, during).interrupt)
    ensures var r := ProcessEvents(p, s, before, during);
            !r.interrupt && !r.pass.fault && (e in r.queue || Through(r, e))
  {
    ProcessEventsSafe(p, s, before, during);
    if s.interrupt {
      TopTestEndsPass(p, s, before, during);
    } else {
      AtDrainStays(p, s, before, during, e);
      AtDrainKeeps(p, s, before, during);
      SecondTestEndsPass(p, s, before, during);
    }
  }

  /** An interrupt asked for anywhere in user code is pending afterwards. */
  lemma {:induction false} InterruptSticks(p: Program, s: World, acts: seq<Action>)
    requires SetsOk(s.objects) && (s.interrupt || Interrupt in acts)
    ensures Perform(p, s, acts).interrupt
    decreases Pending(s.objects), |acts|
  {
    if acts != [] {
      var a := acts[0];
      PerformSplit(p, s, acts);
      if a.Destroy? && a.receiver in s.objects.live {
        var o := a.receiver;
        var s1 := BeginDestroy(s, o, false);
        assert o in Pending(s.objects) && o !in Pending(s1.objects);
        if s.interrupt { InterruptSticks(p, s1, p.cleanup(o)); }
      }
      assert acts == [a] + acts[1..];
      InterruptSticks(p, PerformOne(p, s, a), acts[1..]);
    }
  }

  // ---------------------------------------------------------------- posting

  lemma PerformTwo(p: Program, s: World, a: Action, b: Action)
    requires SetsOk(s.objects)
    ensures Perform(p, s, [a, b]) == PerformOne(p, PerformOne(p, s, a), b)
  {
    PerformSplit(p, s, [a, b]);
    assert [a, b][1..] == [b];
    PerformSplit(p, PerformOne(p, s, a), [b]);
    assert [b][1..] == [];
  }

  lemma CreatedAndPosted(p: Program, s: World, o: ObjectId)
    requires Inv(s) && s.objects.dying == {} && o in s.objects.universe && o !in s.objects.dead
    ensures var r := Perform(p, s, [Create(o), Post(o)]);
            && o in r.objects.live && r.queue == s.queue + [Entry(o, MetaCall(|s.log|))]
            && r.interrupt == s.interrupt && r.pass == s.pass
  {
    PerformTwo(p, s, Create(o), Post(o));
  }

  lemma TwoSteps(p: Program, s: World, first: EventLoopRuns.Op, second: EventLoopRuns.Op) returns (m: World, r: World)
    requires Settled(s) && Idle(s) && !Step(p, s, first).pass.fault
    ensures m == Step(p, s, first) && Settled(m) && Idle(m)
    ensures r == Step(p, m, second) && r == Run(p, s, [first, second])
  {
    StepSafe(p, s, first);
    m := Step(p, s, first);
    assert [first, second][1..] == [second];
    r := RunOne(p, m, second);
  }

  /** An object that is created and sent an event gets it in the next pass, unless something destroys it first. */
  lemma CreatedReceives(p: Program, s: World, o: ObjectId)
    requires Settled(s) && Idle(s) && !s.interrupt && o in s.objects.universe && o !in s.objects.dead
    requires !Run(p, s, [Between([Create(o), Post(o)]), OnePass([], [])]).pass.fault
    ensures Through(Run(p, s, [Between([Create(o), Post(o)]), OnePass([], [])]), Entry(o, MetaCall(|s.log|)))
  {
    CreatedAndPosted(p, s, o);
    var m, r := TwoSteps(p, s, Between([Create(o), Post(o)]), OnePass([], []));
    QuietPassIsNotInterrupted(p, m);
    PassGetsThrough(p, m, [], [], Entry(o, MetaCall(|s.log|)));
  }

  /** A loop with nothing to do waits, and what another thread posts meanwhile is through in the same pass. */
  lemma PostEndsTheWait(p: Program, s: World, o: ObjectId)
    requires Settled(s) && Idle(s) && !s.interrupt && s.queue == [] && o in s.objects.live
    requires forall t :: t in s.timers ==> s.clock < t.nextFire
    requires !ProcessEvents(p, s, [], [Post(o)]).pass.fault
    ensures Through(ProcessEvents(p, s, [], [Post(o)]), Entry(o, MetaCall(|s.log|)))
  {
    NoneDue(s);
    var s1 := CollectTicks(s);
    assert Perform(p, s, []) == s;
    assert s1.queue == [] && s1.pass.ticks == [] && s1.log == s.log + [];
    var s2 := s1.(timersChanged := false);
    PerformSplit(p, s2, [Post(o)]);
    assert [Post(o)][1..] == [];
    assert Perform(p, s2, [Post(o)]) == PostTo(s2, o);
    var q := AtDrain(p, s, [], [Post(o)]);
    assert q.queue == [Entry(o, MetaCall(|s.log|))] && !q.interrupt;
    PassDelivers(p, s, [], [Post(o)]);
  }

  lemma NoneDue(s: World)
    requires forall t :: t in s.timers ==> s.clock < t.nextFire
    ensures Expired(s.timers, s.clock) == []
  {
    ExpiredMembers(s.timers, s.clock);
    if Expired(s.timers, s.clock) != [] {
      var t := Expired(s.timers, s.clock)[0];
      assert t in Expired(s.timers, s.clock);
      ExpiredIsDue(s.timers, s.clock);
    }
  }

  lemma {:induction false} ExpiredIsDue(timers: seq<TimerData>, now: int)
    ensures forall t :: t in Expired(timers, now) <==> t in timers && now >= t.nextFire
  {
    if timers != [] {
      ExpiredIsDue(timers[1..], now);
      assert timers == [timers[0]] + timers[1..];
    }
  }

  /** With something queued or due the loop does not wait: what would happen during a wait makes no difference. */
  lemma WorkIsNotKeptWaiting(p: Program, s: World, before: seq<Action>, during: seq<Action>, other: seq<Action>)
    requires SetsOk(s.objects)
    requires var m := Perform(p, s, before); m.queue != [] || exists t :: t in m.timers && m.clock >= t.nextFire
    ensures ProcessEvents(p, s, before, during) == ProcessEvents(p, s, before, other)
  {
    var m := Perform(p, s, before);
    ExpiredIsDue(m.timers, m.clock);
    TickEntryFacts(Expired(m.timers, m.clock), |m.log|);
    if m.queue == [] {
      var t :| t in m.timers && m.clock >= t.nextFire;
      assert t in Expired(m.timers, m.clock);
    }
  }

  // ---------------------------------------------------------------- timers

  /** Timers have ids of their own, all issued by now. */
  ghost predicate TimersNumbered(s: World)
  {
    DistinctIds(s.timers) && forall t :: t in s.timers ==> t.timerId < s.nextTimer
  }

  lemma SimpleNumbered(s: World, a: Action)
    requires TimersNumbered(s)
    ensures TimersNumbered(Simple(s, a))
  {
    match a {
      case StartTimer(o, ms) => RegisteredMembers(s.timers, s.nextTimer, ms, o, s.clock);
      case KillTimer(id) => UnregisteredMembers(s.timers, id);
      case _ =>
    }
  }

  lemma {:induction false} PerformNumbered(p: Program, s: World, acts: seq<Action>)
    requires SetsOk(s.objects) && TimersNumbered(s)
    ensures TimersNumbered(Perform(p, s, acts))
    decreases Pending(s.objects), |acts|
  {
    if acts != [] {
      var a := acts[0];
      PerformSplit(p, s, acts);
      if a.Destroy? && a.receiver in s.objects.live {
        var o := a.receiver;
        var s1 := BeginDestroy(s, o, false);
        assert o in Pending(s.objects) && o !in Pending(s1.objects);
        PerformNumbered(p, s1, p.cleanup(o));
        WithoutReceiverMembers(Perform(p, s1, p.cleanup(o)).timers, o);
      } else if !a.Destroy? {
        SimpleNumbered(s, a);
      }
      PerformNumbered(p, PerformOne(p, s, a), acts[1..]);
    }
  }

  /** Every tick of the pass is now handed over or freed with its receiver. */
  ghost predicate Ticked(s: World, r: World)
  {
    && (forall e :: e in r.done.ticked ==> e in s.done.ticked || e in s.pass.batch + s.pass.ticks)
    && (forall e :: e in s.done.ticked ==> e in r.done.ticked)
    && (forall e :: e in s.discarded ==> e in r.discarded)
    && (forall e :: e in r.pass.batch + r.pass.ticks ==> e in s.pass.batch + s.pass.ticks)
    && (forall e :: e in s.pass.batch + s.pass.ticks && e.event.Tick? ==>
          e in r.pass.batch + r.pass.ticks || e in r.done.ticked || e in r.discarded)
  }

  lemma TickOne(p: Program, s: World)
    requires Settled(s) && s.pass.batch + s.pass.ticks != [] && !s.pass.draining && !DispatchNext(p, s).pass.fault
    ensures Ticked(s, DispatchNext(p, s))
  {
    PopFacts(s);
    TurnBatch(p, s);
    var e := Next(s);
    if e.receiver !in s.pass.guard {
      DiscardedGrows(p, Enter(s), e);
      assert Handle(p, Enter(s), e).done == s.done;
    }
  }

  lemma {:induction false} DispatchTicks(p: Program, s: World)
    requires Settled(s) && !s.pass.draining && !Dispatch(p, s).pass.fault
    ensures Ticked(s, Dispatch(p, s))
    decreases |s.pass.batch| + |s.pass.ticks|
  {
    if s.pass.batch + s.pass.ticks != [] {
      DispatchNextKeeps(p, s);
      TickOne(p, s);
      DispatchTicks(p, DispatchNext(p, s));
    }
  }

  predicate IsTickOf(e: Entry, id: int, o: ObjectId, n: nat)
  {
    e.event.Tick? && e.event.timerId == id && e.receiver == o && e.event.id >= n
  }

  /** A new tick of timer id has reached o, or was freed with o, which a handler of the same batch destroyed. */
  ghost predicate TicksFor(s: World, r: World, id: int, o: ObjectId)
  {
    exists e :: IsTickOf(e, id, o, |s.log|) && (e in r.done.ticked || (e in r.discarded && o in r.objects.dead))
  }

  ghost predicate IsDue(s: World, id: int, o: ObjectId)
  {
    exists t :: t in s.timers && t.timerId == id && t.receiver == o && s.clock >= t.nextFire
  }

  /** Only the collection allocates tick events. */
  ghost predicate NoNewTicks(log: seq<Entry>, log': seq<Entry>)
  {
    log <= log' && forall i :: |log| <= i < |log'| ==> !log'[i].event.Tick?
  }

  lemma {:induction false} PerformAddsNoTicks(p: Program, s: World, acts: seq<Action>)
    requires SetsOk(s.objects)
    ensures NoNewTicks(s.log, Perform(p, s, acts).log)
    decreases Pending(s.objects), |acts|
  {
    if acts != [] {
      var a := acts[0];
      PerformSplit(p, s, acts);
      if a.Destroy? && a.receiver in s.objects.live {
        var o := a.receiver;
        var s1 := BeginDestroy(s, o, false);
        assert o in Pending(s.objects) && o !in Pending(s1.objects);
        PerformAddsNoTicks(p, s1, p.cleanup(o));
      }
      PerformAddsNoTicks(p, PerformOne(p, s, a), acts[1..]);
    }
  }

  lemma TurnAddsNoTicks(p: Program, s: World)
    requires SetsOk(s.objects) && s.pass.batch + s.pass.ticks != []
    ensures NoNewTicks(s.log, DispatchNext(p, s).log)
  {
    var e := Next(s);
    if e.receiver !in s.pass.guard && e.receiver in s.objects.live {
      if e.event.DeferredDelete? {
        PerformAddsNoTicks(p, BeginDestroy(Enter(s), e.receiver, true), p.cleanup(e.receiver));
      } else {
        PerformAddsNoTicks(p, Enter(s), p.handler(e.event.id));
      }
    }
  }

  lemma {:induction false} DispatchAddsNoTicks(p: Program, s: World)
    requires SetsOk(s.objects)
    ensures NoNewTicks(s.log, Dispatch(p, s).log)
    decreases if s.pass.fault then 0 else |s.pass.batch| + |s.pass.ticks|
  {
    if !s.pass.fault && s.pass.batch + s.pass.ticks != [] {
      TurnAddsNoTicks(p, s);
      DispatchAddsNoTicks(p, DispatchNext(p, s));
    }
  }

  lemma TicksAreWhereTheyCame(before: seq<Entry>, ticks: seq<Entry>, after: seq<Entry>, n: nat, e: Entry)
    requires n <= |before| && before + ticks <= after && Numbered(after)
    requires forall i :: n <= i < |before| ==> !before[i].event.Tick?
    requires forall i :: |before + ticks| <= i < |after| ==> !after[i].event.Tick?
    requires e in after && e.event.Tick? && e.event.id >= n
    ensures e in ticks
  {
    var i :| 0 <= i < |after| && after[i] == e;
    assert i >= n && i < |before + ticks|;
    assert after[i] == (before + ticks)[i];
    assert i >= |before|;
    assert (before + ticks)[i] == ticks[i - |before|];
  }

  lemma NoNewTicksTwice(a: seq<Entry>, b: seq<Entry>, c: seq<Entry>)
    requires NoNewTicks(a, b) && NoNewTicks(b, c)
    ensures NoNewTicks(a, c)
  {
  }

  lemma PassAddsNoTicks(p: Program, s: World, before: seq<Action>, during: seq<Action>)
    requires SetsOk(s.objects) && !s.interrupt && !AtDrain(p, s, before, during).interrupt
    ensures NoNewTicks(CollectTicks(Perform(p, s, before)).log, ProcessEvents(p, s, before, during).log)
  {
    var q := AtDrain(p, s, before, during);
    var s1 := CollectTicks(Perform(p, s, before));
    if s1.queue == [] && s1.pass.ticks == [] { PerformAddsNoTicks(p, s1.(timersChanged := false), during); }
    DispatchAddsNoTicks(p, TakeBatch(q));
    NoNewTicksTwice(s1.log, q.log, ProcessEvents(p, s, before, during).log);
  }

  /** The ticks in the log after a pass are the old ones and those it has collected. */
  lemma LoggedTicks(p: Program, s: World, before: seq<Action>, during: seq<Action>, e: Entry)
    requires SetsOk(s.objects) && !s.interrupt && !AtDrain(p, s, before, during).interrupt
    requires e in ProcessEvents(p, s, before, during).log && e.event.Tick? && e.event.id >= |s.log|
    requires Numbered(ProcessEvents(p, s, before, during).log)
    ensures e in CollectTicks(Perform(p, s, before)).pass.ticks
  {
    PerformAddsNoTicks(p, s, before);
    PassAddsNoTicks(p, s, before, during);
    TicksAreWhereTheyCame(Perform(p, s, before).log, CollectTicks(Perform(p, s, before)).pass.ticks,
                          ProcessEvents(p, s, before, during).log, |s.log|, e);
  }

  /** The ticks collected from m are numbered upwards from its log: one for each due timer and no other. */
  lemma CollectedTicksAre(m: World, id: int, o: ObjectId)
    ensures (exists e :: e in CollectTicks(m).pass.ticks && IsTickOf(e, id, o, |m.log|)) <==> IsDue(m, id, o)
  {
    var expired := Expired(m.timers, m.clock);
    var ticks := TickEntries(expired, |m.log|);
    TickEntryFacts(expired, |m.log|);
    ExpiredIsDue(m.timers, m.clock);
    if IsDue(m, id, o) {
      var t :| t in m.timers && t.timerId == id && t.receiver == o && m.clock >= t.nextFire;
      var i :| 0 <= i < |expired| && expired[i] == t;
      assert ticks[i] in ticks && IsTickOf(ticks[i], id, o, |m.log|);
    }
    if e :| e in ticks && IsTickOf(e, id, o, |m.log|) {
      var i :| 0 <= i < |ticks| && ticks[i] == e;
      assert expired[i] in expired;
    }
  }

  /** The ticks of a pass that no interrupt ends are those of the timers due when it looked at the clock. */
  lemma PassTicksIff(p: Program, s: World, before: seq<Action>, during: seq<Action>, id: int, o: ObjectId)
    requires Settled(s) && Idle(s) && !s.interrupt && !AtDrain(p, s, before, during).interrupt
    requires !ProcessEvents(p, s, before, during).pass.fault
    ensures TicksFor(s, ProcessEvents(p, s, before, during), id, o) <==> IsDue(Perform(p, s, before), id, o)
  {
    var m, r := Perform(p, s, before), ProcessEvents(p, s, before, during);
    ProcessEventsSafe(p, s, before, during);
    CollectedTicksAre(m, id, o);
    if IsDue(m, id, o) {
      DueTicks(p, s, before, during, id, o);
    } else if TicksFor(s, r, id, o) {
      var e :| IsTickOf(e, id, o, |s.log|) && (e in r.done.ticked || (e in r.discarded && o in r.objects.dead));
      assert e in Freed(r) && e in Held(r) + Freed(r);
      assert e in r.log;
      LoggedTicks(p, s, before, during, e);
      PerformAddsNoTicks(p, s, before);
      NumberedFrom(p, s, before, during, e);
    }
  }

  lemma NumberedFrom(p: Program, s: World, before: seq<Action>, during: seq<Action>, e: Entry)
    requires SetsOk(s.objects) && e in CollectTicks(Perform(p, s, before)).pass.ticks
    ensures e.event.Tick? && e.event.id >= |Perform(p, s, before).log|
  {
    var m := Perform(p, s, before);
    TickEntryFacts(Expired(m.timers, m.clock), |m.log|);
    var ticks := TickEntries(Expired(m.timers, m.clock), |m.log|);
    var i :| 0 <= i < |ticks| && ticks[i] == e;
  }

  lemma DueTicks(p: Program, s: World, before: seq<Action>, during: seq<Action>, id: int, o: ObjectId)
    requires Settled(s) && Idle(s) && !s.interrupt && !AtDrain(p, s, before, during).interrupt
    requires !ProcessEvents(p, s, before, during).pass.fault
    requires IsDue(Perform(p, s, before), id, o)
    ensures TicksFor(s, ProcessEvents(p, s, before, during), id, o)
  {
    var m, q, r := Perform(p, s, before), AtDrain(p, s, before, during), ProcessEvents(p, s, before, during);
    CollectedTicksAre(m, id, o);
    AtDrainKeeps(p, s, before, during);
    TakeKeeps(q);
    ProcessEventsSafe(p, s, before, during);
    DispatchTicks(p, TakeBatch(q));
    AtDrainTicks(p, s, before, during);
    var e :| e in CollectTicks(m).pass.ticks && IsTickOf(e, id, o, |m.log|);
    assert e in TakeBatch(q).pass.batch + TakeBatch(q).pass.ticks;
    assert e in r.done.ticked || e in r.discarded;
    DiscardedIsDead(r, e);
  }

  lemma AtDrainTicks(p: Program, s: World, before: seq<Action>, during: seq<Action>)
    requires SetsOk(s.objects) && s.pass.batch == []
    ensures AtDrain(p, s, before, during).pass.ticks == CollectTicks(Perform(p, s, before)).pass.ticks
  {
  }

  /** What others do between passes, and then a pass. */
  lemma PassAfter(p: Program, s: World, acts: seq<Action>, m: World, id: int, o: ObjectId)
    requires Settled(s) && Idle(s) && m == Perform(p, s, acts) && !m.interrupt && |m.log| == |s.log|
    requires !Run(p, s, [Between(acts), OnePass([], [])]).pass.fault
    ensures TicksFor(s, Run(p, s, [Between(acts), OnePass([], [])]), id, o) <==> IsDue(m, id, o)
  {
    FirstDidNotFault(p, s, Between(acts), OnePass([], []));
    var m', r := TwoSteps(p, s, Between(acts), OnePass([], []));
    QuietPassTicksIff(p, m, id, o);
    SameTicks(s, m, r, id, o);
  }

  lemma SameTicks(s: World, m: World, r: World, id: int, o: ObjectId)
    requires |m.log| == |s.log|
    ensures TicksFor(s, r, id, o) == TicksFor(m, r, id, o)
  {
  }

  lemma QuietPassTicksIff(p: Program, m: World, id: int, o: ObjectId)
    requires Settled(m) && Idle(m) && !m.interrupt && !ProcessEvents(p, m, [], []).pass.fault
    ensures TicksFor(m, ProcessEvents(p, m, [], []), id, o) <==> IsDue(m, id, o)
  {
    QuietPassIsNotInterrupted(p, m);
    PassTicksIff(p, m, [], [], id, o);
    assert Perform(p, m, []) == m;
  }

  lemma StartedTimers(s: World, o: ObjectId, ms: int, ns: nat) returns (m: World)
    requires TimersNumbered(s) && o in s.objects.live
    ensures m == Simple(Simple(s, StartTimer(o, ms)), Action.Advance(ns))
    ensures m.log == s.log && m.interrupt == s.interrupt && forall u :: u in s.timers ==> u in m.timers
    ensures IsDue(m, s.nextTimer, o) <==> ms >= 0 && ns >= ms * NS_PER_MS
  {
    m := Simple(Simple(s, StartTimer(o, ms)), Action.Advance(ns));
    RegisteredMembers(s.timers, s.nextTimer, ms, o, s.clock);
    if ms >= 0 {
      var t := TimerData(s.nextTimer, ms, o, s.clock + ms * NS_PER_MS);
      assert t in m.timers;
    }
  }

  function StartThenWait(o: ObjectId, ms: int, ns: nat): seq<Action> { [StartTimer(o, ms), Action.Advance(ns)] }

  /**
    A timer started with interval ms ticks in a pass ns nanoseconds later if and only if the interval is over.
    With a negative interval it never ticks.
   */
  lemma StartedTimerTicksIff(p: Program, s: World, o: ObjectId, ms: int, ns: nat, acts: seq<Action>)
    requires Settled(s) && Idle(s) && TimersNumbered(s) && !s.interrupt && o in s.objects.live
    requires acts == StartThenWait(o, ms, ns) && !Run(p, s, [Between(acts), OnePass([], [])]).pass.fault
    ensures TicksFor(s, Run(p, s, [Between(acts), OnePass([], [])]), s.nextTimer, o) <==>
              ms >= 0 && ns >= ms * NS_PER_MS
  {
    PerformTwo(p, s, StartTimer(o, ms), Action.Advance(ns));
    var m := StartedTimers(s, o, ms, ns);
    PassAfter(p, s, acts, m, s.nextTimer, o);
  }

  lemma PerformJust(p: Program, s: World, a: Action)
    requires SetsOk(s.objects)
    ensures Perform(p, s, [a]) == PerformOne(p, s, a)
  {
    PerformSplit(p, s, [a]);
    assert [a][1..] == [];
  }

  lemma KilledIsNotDue(s: World, id: int, other: int, o: ObjectId)
    ensures IsDue(Simple(s, KillTimer(id)), other, o) <==> other != id && IsDue(s, other, o)
  {
    UnregisteredMembers(s.timers, id);
  }

  /** A killed timer does not tick in the next pass although it may be due; every other timer that is due does. */
  lemma KilledTimerIsSilent(p: Program, s: World, id: int, other: int, o: ObjectId, acts: seq<Action>)
    requires Settled(s) && Idle(s) && !s.interrupt && acts == [KillTimer(id)]
    requires !Run(p, s, [Between(acts), OnePass([], [])]).pass.fault
    ensures TicksFor(s, Run(p, s, [Between(acts), OnePass([], [])]), other, o) <==> other != id && IsDue(s, other, o)
  {
    PerformJust(p, s, KillTimer(id));
    KilledIsNotDue(s, id, other, o);
    PassAfter(p, s, acts, Simple(s, KillTimer(id)), other, o);
  }

  /** A pass rearms what it collects: a timer that has ticked is due again one interval after the clock it ticked by. */
  lemma TickedTimerIsRearmed(p: Program, s: World, before: seq<Action>, t: TimerData, later: int)
    requires SetsOk(s.objects) && TimersNumbered(s) && t in Perform(p, s, before).timers
    ensures var m := Perform(p, s, before);
            var q := CollectTicks(m);
            var deadline := if m.clock >= t.nextFire then m.clock + t.intervalMs * NS_PER_MS else t.nextFire;
            && q.clock == m.clock
            && (later >= deadline <==> exists u :: u in q.timers && u.timerId == t.timerId && later >= u.nextFire)
  {
    var m := Perform(p, s, before);
    PerformNumbered(p, s, before);
    DueAgainIff(m.timers, m.clock, later, t);
    ExpiredIsDue(Advanced(m.timers, m.clock), later);
  }

  // ---------------------------------------------------------------- ids stay distinct over whole runs

  lemma CollectNumbered(s: World)
    requires TimersNumbered(s)
    ensures TimersNumbered(CollectTicks(s))
  {
    var r := Advanced(s.timers, s.clock);
    forall t | t in r ensures t.timerId < s.nextTimer {
      var i :| 0 <= i < |r| && r[i] == t;
      assert s.timers[i] in s.timers;
    }
  }

  lemma AtDrainNumbered(p: Program, s: World, before: seq<Action>, during: seq<Action>)
    requires SetsOk(s.objects) && TimersNumbered(s)
    ensures TimersNumbered(AtDrain(p, s, before, during))
  {
    PerformNumbered(p, s, before);
    CollectNumbered(Perform(p, s, before));
    var s1 := CollectTicks(Perform(p, s, before));
    if s1.queue == [] && s1.pass.ticks == [] { PerformNumbered(p, s1.(timersChanged := false), during); }
  }

  lemma HandleNumbered(p: Program, s: World, e: Entry)
    requires SetsOk(s.objects) && TimersNumbered(s) && e.receiver in s.objects.live
    ensures TimersNumbered(Handle(p, s, e))
  {
    if e.event.DeferredDelete? {
      var s1 := BeginDestroy(s, e.receiver, true);
      PerformNumbered(p, s1, p.cleanup(e.receiver));
      WithoutReceiverMembers(Perform(p, s1, p.cleanup(e.receiver)).timers, e.receiver);
    } else {
      PerformNumbered(p, s, p.handler(e.event.id));
    }
  }

  lemma {:induction false} DispatchNumbered(p: Program, s: World)
    requires SetsOk(s.objects) && TimersNumbered(s)
    ensures TimersNumbered(Dispatch(p, s))
    decreases if s.pass.fault then 0 else |s.pass.batch| + |s.pass.ticks|
  {
    if !s.pass.fault && s.pass.batch + s.pass.ticks != [] {
      var e := Next(s);
      if e.receiver !in s.pass.guard && e.receiver in s.objects.live { HandleNumbered(p, Enter(s), e); }
      assert TimersNumbered(DispatchNext(p, s));
      DispatchNumbered(p, DispatchNext(p, s));
    }
  }

  lemma {:induction false} DrainNumbered(p: Program, s: World)
    requires Settled(s) && Idle(s) && s.pass.draining && TimersNumbered(s)
    ensures TimersNumbered(DrainLoop(p, s))
    decreases s.objects.universe - s.objects.dead
  {
    if DeferredDeletes(s.queue) != [] {
      TurnShrinks(p, s);
      DispatchNumbered(p, Extract(s));
      var r := Dispatch(p, Extract(s));
      if !r.pass.fault { DrainNumbered(p, r); }
    }
  }

  lemma PassNumbered(p: Program, s: World, before: seq<Action>, during: seq<Action>)
    requires Settled(s) && Idle(s) && TimersNumbered(s)
    ensures TimersNumbered(ProcessEvents(p, s, before, during))
  {
    if !s.interrupt {
      AtDrainNumbered(p, s, before, during);
      var b := AtDrain(p, s, before, during);
      if !b.interrupt {
        assert SetsOk(TakeBatch(b).objects) && TimersNumbered(TakeBatch(b));
        DispatchNumbered(p, TakeBatch(b));
      }
    }
  }

  lemma StepNumbered(p: Program, s: World, op: EventLoopRuns.Op)
    requires Settled(s) && Idle(s) && TimersNumbered(s)
    ensures TimersNumbered(Step(p, s, op))
  {
    match op {
      case Between(acts) => PerformNumbered(p, s, acts);
      case OnePass(before, during) => PassNumbered(p, s, before, during);
      case Drain =>
        StartKeeps(s);
        DrainNumbered(p, StartDrain(s));
    }
  }

  /** Over every run no two timers have the same id, and no id is issued twice. */
  lemma {:induction false} RunNumbered(p: Program, s: World, ops: seq<EventLoopRuns.Op>)
    requires Settled(s) && Idle(s) && TimersNumbered(s)
    ensures TimersNumbered(Run(p, s, ops))
    decreases |ops|
  {
    if ops != [] {
      StepSafe(p, s, ops[0]);
      StepNumbered(p, s, ops[0]);
      if !Step(p, s, ops[0]).pass.fault { RunNumbered(p, Step(p, s, ops[0]), ops[1..]); }
    }
  }

  // ---------------------------------------------------------------- what ends a wait

  lemma SimpleChangeIsFlagged(s: World, a: Action)
    ensures var r := Simple(s, a); r.timers != s.timers || s.timersChanged ==> r.timersChanged
  {
    if a.KillTimer? && |Unregistered(s.timers, a.timerId)| >= |s.timers| {
      UnregisteredLength(s.timers, a.timerId);
      NoneUnregistered(s.timers, a.timerId);
    }
  }

  /** Starting or killing a timer, as long as no destructor is involved, is flagged for a thread that waits. */
  lemma {:induction false} TimerChangesAreFlagged(p: Program, s: World, acts: seq<Action>)
    requires SetsOk(s.objects) && forall a :: a in acts ==> !a.Destroy?
    ensures var r := Perform(p, s, acts); r.timers != s.timers || s.timersChanged ==> r.timersChanged
    decreases |acts|
  {
    if acts != [] {
      var a := acts[0];
      assert a in acts && forall b :: b in acts[1..] ==> b in acts;
      PerformSplit(p, s, acts);
      SimpleChangeIsFlagged(s, a);
      TimerChangesAreFlagged(p, PerformOne(p, s, a), acts[1..]);
    }
  }

  lemma {:induction false} NoneUnregistered(timers: seq<TimerData>, id: int)
    requires |Unregistered(timers, id)| >= |timers|
    ensures Unregistered(timers, id) == timers
  {
    if timers != [] {
      UnregisteredLength(timers[1..], id);
      NoneUnregistered(timers[1..], id);
    }
  }

  /** A wait begins with the change flag cleared, and one in which nothing changes leaves it so. */
  lemma ChangeFlagIsOneShot(p: Program, s: World, before: seq<Action>)
    requires SetsOk(s.objects)
    ensures var m, q := Perform(p, s, before), AtDrain(p, s, before, []);
            q.timersChanged <==>
              m.timersChanged && (m.queue != [] || exists t :: t in m.timers && m.clock >= t.nextFire)
  {
    var m := Perform(p, s, before);
    ExpiredIsDue(m.timers, m.clock);
    TickEntryFacts(Expired(m.timers, m.clock), |m.log|);
    if Expired(m.timers, m.clock) != [] { assert Expired(m.timers, m.clock)[0] in Expired(m.timers, m.clock); }
  }

  /** A wakeUp() is remembered until the end of a wait, and each wait consumes all there were. */
  lemma WakeUpIsOneShot(p: Program, s: World, before: seq<Action>, during: seq<Action>)
    requires SetsOk(s.objects) && WakeUp in before
    ensures var m, q := Perform(p, s, before), AtDrain(p, s, before, during);
            && m.wakeUpRequested
            && (q.wakeUpRequested <==> m.queue != [] || exists t :: t in m.timers && m.clock >= t.nextFire)
  {
    var m := Perform(p, s, before);
    WakeUpSticks(p, s, before);
    ExpiredIsDue(m.timers, m.clock);
    TickEntryFacts(Expired(m.timers, m.clock), |m.log|);
    if Expired(m.timers, m.clock) != [] { assert Expired(m.timers, m.clock)[0] in Expired(m.timers, m.clock); }
  }

  lemma {:induction false} WakeUpSticks(p: Program, s: World, acts: seq<Action>)
    requires SetsOk(s.objects) && (s.wakeUpRequested || WakeUp in acts)
    ensures Perform(p, s, acts).wakeUpRequested
    decreases Pending(s.objects), |acts|
  {
    if acts != [] {
      var a := acts[0];
      PerformSplit(p, s, acts);
      if a.Destroy? && a.receiver in s.objects.live {
        var o := a.receiver;
        var s1 := BeginDestroy(s, o, false);
        assert o in Pending(s.objects) && o !in Pending(s1.objects);
        if s.wakeUpRequested { WakeUpSticks(p, s1, p.cleanup(o)); }
      }
      assert acts == [a] + acts[1..];
      WakeUpSticks(p, PerformOne(p, s, a), acts[1..]);
    }
  }
}
