/**
  What one pass of the event loop keeps: which objects exist, who owns every event, and in what order events are
  delivered, for arbitrary user code and down to the exact condition under which a pass touches a dead object.
 */
module EventLoopSafety {
  import opened Basics
  import opened TimerList
  import opened EventLoop

  // ---------------------------------------------------------------- invariants

  /** A queued event's receiver exists, unless the event landed after the end of its destructor. */
  predicate Addressed(b: Objects, e: Entry)
  {
    Exists(b, e.receiver) || (e.receiver in b.dead && e.event.MetaCall?)
  }

  /** Timers name only objects that exist, the queue too but for strays; what was discarded lost its receiver. */
  ghost predicate Placed(queue: seq<Entry>, timers: seq<TimerData>, discarded: seq<Entry>, b: Objects)
  {
    && (forall e :: e in queue ==> Addressed(b, e))
    && (forall t :: t in timers ==> Exists(b, t.receiver))
    && (forall e :: e in discarded ==> e.receiver in b.dead)
  }

  /** The receiver of the DeferredDelete in dispatch. */
  ghost predicate Leaving(q: Pass, o: ObjectId)
  {
    q.current != [] && q.current[0].event.DeferredDelete? && q.current[0].receiver == o
  }

  ghost predicate Covered(q: Pass, b: Objects, o: ObjectId)
  {
    o in b.live || o in q.guard || o in b.killed || Leaving(q, o)
  }

  /** A batch entry is safe, skippable, or its receiver was killed behind the loop's back. */
  ghost predicate Guarded(q: Pass, b: Objects)
  {
    && |q.current| <= 1
    && q.guard <= b.dead && b.killed <= b.dying + b.dead && q.guard !! b.killed
    && (forall o :: o in b.killed ==> Named(q.batch + q.ticks, o))
    && (forall o :: Leaving(q, o) ==> o in b.dying + b.dead && o !in b.killed)
    && (forall e :: e in q.batch + q.ticks ==> Covered(q, b, e.receiver))
    && (forall e :: e in q.ticks ==> e.event.Tick?)
  }

  /** Every allocated event is in exactly one place: multiplicities are exact, so none is freed twice. */
  function Held(s: World): multiset<Entry>
  {
    multiset(s.queue) + multiset(s.pass.batch) + multiset(s.pass.ticks) + multiset(s.pass.current)
  }

  function Freed(s: World): multiset<Entry>
  {
    multiset(s.discarded) + multiset(s.done.delivered) + multiset(s.done.ticked) + multiset(s.done.drained)
    + multiset(s.done.dropped) + multiset(s.done.abandoned)
  }

  ghost predicate Numbered(log: seq<Entry>)
  {
    forall i :: 0 <= i < |log| ==> log[i].event.id == i
  }

  ghost predicate Ascending(q: seq<Entry>)
  {
    forall i, j :: 0 <= i < j < |q| ==> q[i].event.id < q[j].event.id
  }

  ghost predicate Precedes(a: seq<Entry>, b: seq<Entry>)
  {
    forall x, y :: x in a && y in b ==> x.event.id < y.event.id
  }

  /** Posted entries the pass has taken off the queue and not yet delivered. */
  function InFlight(q: Pass): seq<Entry>
  {
    if q.draining then []
    else (if q.current != [] && !q.current[0].event.Tick? then q.current else []) + q.batch
  }

  ghost predicate InOrder(delivered: seq<Entry>, inFlight: seq<Entry>, queue: seq<Entry>)
  {
    && Ascending(delivered) && Ascending(inFlight) && Ascending(queue)
    && Precedes(delivered, inFlight) && Precedes(delivered, queue) && Precedes(inFlight, queue)
  }

  /** At most one DeferredDelete is ever allocated for an object. */
  ghost predicate Debounced(log: seq<Entry>, posted: set<ObjectId>)
  {
    && (forall i :: 0 <= i < |log| && log[i].event.DeferredDelete? ==> log[i].receiver in posted)
    && (forall i, j :: 0 <= i < j < |log| && log[i].event.DeferredDelete? && log[j].event.DeferredDelete? ==>
          log[i].receiver != log[j].receiver)
  }

  ghost predicate Inv(s: World)
  {
    && SetsOk(s.objects)
    && Placed(s.queue, s.timers, s.discarded, s.objects)
    && Guarded(s.pass, s.objects)
    && Numbered(s.log) && Held(s) + Freed(s) == multiset(s.log)
    && InOrder(s.done.delivered, InFlight(s.pass), s.queue)
    && Debounced(s.log, s.objects.deletePosted)
  }

  // ---------------------------------------------------------------- lemmas about scans

  lemma {:induction false} WithoutSplits(q: seq<Entry>, o: ObjectId)
    ensures multiset(q) == multiset(Without(q, {o})) + multiset(Of(q, o))
    ensures forall e :: e in Of(q, o) ==> e.receiver == o
  {
    if q != [] {
      WithoutSplits(q[1..], o);
      assert q == [q[0]] + q[1..];
    }
  }

  lemma {:induction false} WithoutMembers(q: seq<Entry>, gone: set<ObjectId>)
    ensures forall e :: e in Without(q, gone) <==> e in q && e.receiver !in gone
    ensures Ascending(q) ==> Ascending(Without(q, gone))
  {
    if q != [] {
      WithoutMembers(q[1..], gone);
      assert q == [q[0]] + q[1..];
      var r := Without(q[1..], gone);
      if Ascending(q) {
        forall j | 0 <= j < |r| ensures q[0].event.id < r[j].event.id { assert r[j] in r; }
      }
    }
  }

  /** Every event in use carries a number below the next one to be allocated. */
  lemma Bounded(s: World)
    requires Inv(s)
    ensures forall x :: x in s.queue || x in s.done.delivered || x in InFlight(s.pass) ==> x.event.id < |s.log|
  {
    forall x | x in s.queue || x in s.done.delivered || x in InFlight(s.pass) ensures x.event.id < |s.log| {
      assert x in Held(s) + Freed(s);
      assert x in multiset(s.log);
      assert x in s.log;
    }
  }

  lemma AppendInOrder(d: seq<Entry>, f: seq<Entry>, q: seq<Entry>, e: Entry)
    requires InOrder(d, f, q)
    requires forall x :: x in q || x in d || x in f ==> x.event.id < e.event.id
    ensures InOrder(d, f, q + [e])
  {
    assert forall i :: 0 <= i < |q| ==> q[i] in q;
  }

  // ---------------------------------------------------------------- single operations keep the invariant

  lemma EnqueueKeeps(s: World, e: Entry, posted: set<ObjectId>)
    requires Inv(s) && Addressed(s.objects, e) && e.event.id == |s.log|
    requires s.objects.deletePosted <= posted
    requires e.event.DeferredDelete? ==> e.receiver in posted && e.receiver !in s.objects.deletePosted
    ensures Inv(Enqueue(s.(objects := s.objects.(deletePosted := posted)), e))
  {
    var r := Enqueue(s.(objects := s.objects.(deletePosted := posted)), e);
    Bounded(s);
    AppendInOrder(s.done.delivered, InFlight(s.pass), s.queue, e);
    GuardedFrame(s.pass, s.objects, r.objects);
    AppendDebounced(s.log, s.objects.deletePosted, e, posted);
    EnqueueHeld(s, r, e);
    assert Placed(r.queue, r.timers, r.discarded, r.objects);
  }

  lemma EnqueueHeld(s: World, r: World, e: Entry)
    requires r == s.(queue := s.queue + [e], log := s.log + [e], objects := r.objects)
    requires Held(s) + Freed(s) == multiset(s.log)
    ensures Held(r) + Freed(r) == multiset(r.log)
  {
    assert Held(r) == Held(s) + multiset{e} && Freed(r) == Freed(s);
    assert multiset(r.log) == multiset(s.log) + multiset{e};
  }

  lemma AppendDebounced(log: seq<Entry>, posted: set<ObjectId>, e: Entry, posted': set<ObjectId>)
    requires Debounced(log, posted) && posted <= posted'
    requires e.event.DeferredDelete? ==> e.receiver in posted' && e.receiver !in posted
    ensures Debounced(log + [e], posted')
  {
  }

  lemma GuardedFrame(q: Pass, b: Objects, b': Objects)
    requires Guarded(q, b)
    requires b.live <= b'.live && b.dying == b'.dying && b.dead == b'.dead && b.killed == b'.killed
    ensures Guarded(q, b')
  {
    forall e | e in q.batch + q.ticks ensures Covered(q, b', e.receiver) {
      assert Covered(q, b, e.receiver);
    }
  }

  lemma TimersKeep(s: World, timers: seq<TimerData>, changed: bool, nextTimer: int)
    requires Inv(s) && forall t :: t in timers ==> Exists(s.objects, t.receiver)
    ensures Inv(s.(timers := timers, timersChanged := changed, nextTimer := nextTimer))
  {
    var r := s.(timers := timers, timersChanged := changed, nextTimer := nextTimer);
    assert Held(r) == Held(s) && Freed(r) == Freed(s);
  }

  lemma CreateKeeps(s: World, o: ObjectId)
    requires Inv(s)
    ensures Inv(Simple(s, Create(o)))
  {
    var r := Simple(s, Create(o));
    if r != s {
      var b := s.objects.(live := s.objects.live + {o});
      GuardedFrame(s.pass, s.objects, b);
      PlacedFrame(s, b);
      ObjectsKeep(s, b);
    }
  }

  lemma ObjectsKeep(s: World, b: Objects)
    requires Inv(s) && SetsOk(b) && b.deletePosted == s.objects.deletePosted
    requires Placed(s.queue, s.timers, s.discarded, b) && Guarded(s.pass, b)
    ensures Inv(s.(objects := b))
  {
    assert Held(s.(objects := b)) == Held(s) && Freed(s.(objects := b)) == Freed(s);
  }

  lemma PlacedFrame(s: World, b: Objects)
    requires Placed(s.queue, s.timers, s.discarded, s.objects)
    requires s.objects.live <= b.live && s.objects.dying <= b.dying && s.objects.dead <= b.dead
    ensures Placed(s.queue, s.timers, s.discarded, b)
  {
  }

  lemma FlagsKeep(s: World, interrupt: bool, changed: bool, wake: bool, clock: int)
    requires Inv(s)
    ensures Inv(s.(interrupt := interrupt, timersChanged := changed, wakeUpRequested := wake, clock := clock))
  {
    var r := s.(interrupt := interrupt, timersChanged := changed, wakeUpRequested := wake, clock := clock);
    assert Held(r) == Held(s) && Freed(r) == Freed(s);
  }

  lemma PostToKeeps(s: World, o: ObjectId)
    requires Inv(s) && (Exists(s.objects, o) || o in s.objects.dead)
    ensures Inv(PostTo(s, o))
  {
    EnqueueKeeps(s, Entry(o, MetaCall(|s.log|)), s.objects.deletePosted);
    SameObjects(s);
  }

  lemma SameObjects(s: World)
    ensures s.(objects := s.objects.(deletePosted := s.objects.deletePosted)) == s
  {
  }

  lemma DeleteLaterKeeps(s: World, o: ObjectId)
    requires Inv(s)
    ensures Inv(Simple(s, DeleteLater(o)))
  {
    if Exists(s.objects, o) && o !in s.objects.deletePosted {
      var posted := s.objects.deletePosted + {o};
      var e := Entry(o, DeferredDelete(|s.log|));
      assert Simple(s, DeleteLater(o)) == Enqueue(s.(objects := s.objects.(deletePosted := posted)), e);
      EnqueueKeeps(s, e, posted);
    }
  }

  lemma StartTimerKeeps(s: World, o: ObjectId, ms: int)
    requires Inv(s)
    ensures Inv(Simple(s, StartTimer(o, ms)))
  {
    if Exists(s.objects, o) {
      var r := Simple(s, StartTimer(o, ms));
      RegisteredReceivers(s.timers, s.nextTimer, ms, o, s.clock);
      TimersKeep(s, r.timers, r.timersChanged, r.nextTimer);
    }
  }

  lemma KillTimerKeeps(s: World, id: int)
    requires Inv(s)
    ensures Inv(Simple(s, KillTimer(id)))
  {
    var k := Simple(s, KillTimer(id));
    UnregisteredMembers(s.timers, id);
    TimersKeep(s, k.timers, k.timersChanged, k.nextTimer);
  }

  lemma SimpleKeeps(s: World, a: Action)
    requires Inv(s)
    ensures Inv(Simple(s, a))
  {
    match a {
      case Post(o) => if Exists(s.objects, o) { PostToKeeps(s, o); }
      case Land(o) => if Exists(s.objects, o) || o in s.objects.dead { PostToKeeps(s, o); }
      case DeleteLater(o) => DeleteLaterKeeps(s, o);
      case Destroy(_) =>
      case Create(o) => CreateKeeps(s, o);
      case StartTimer(o, ms) => StartTimerKeeps(s, o, ms);
      case KillTimer(id) => KillTimerKeeps(s, id);
      case WakeUp => FlagsKeep(s, s.interrupt, s.timersChanged, true, s.clock);
      case Interrupt => FlagsKeep(s, true, s.timersChanged, s.wakeUpRequested, s.clock);
      case Advance(ns) => FlagsKeep(s, s.interrupt, s.timersChanged, s.wakeUpRequested, s.clock + ns);
    }
  }

  lemma RegisteredReceivers(timers: seq<TimerData>, id: int, ms: int, o: ObjectId, now: int)
    ensures forall t :: t in Registered(timers, id, ms, o, now) ==> t.receiver == o || t in timers
  {
  }

  /** Entering a destructor keeps the batch guarded: an object with entries left is recorded as killed. */
  lemma BeginDestroyGuarded(s: World, o: ObjectId)
    requires SetsOk(s.objects) && Guarded(s.pass, s.objects) && o in s.objects.live
    ensures Guarded(s.pass, BeginDestroy(s, o, false).objects)
  {
    var q, b, b' := s.pass, s.objects, BeginDestroy(s, o, false).objects;
    forall e | e in q.batch + q.ticks ensures Covered(q, b', e.receiver) {
      assert Covered(q, b, e.receiver);
      if e.receiver == o { assert Named(q.batch + q.ticks, o); }
    }
  }

  lemma BeginDestroyKeeps(s: World, o: ObjectId, byEvent: bool)
    requires SetsOk(s.objects) && o in s.objects.live
    requires Placed(s.queue, s.timers, s.discarded, s.objects)
    requires Guarded(s.pass, BeginDestroy(s, o, byEvent).objects)
    requires Numbered(s.log) && Held(s) + Freed(s) == multiset(s.log)
    requires InOrder(s.done.delivered, InFlight(s.pass), s.queue)
    requires Debounced(s.log, s.objects.deletePosted)
    ensures Inv(BeginDestroy(s, o, byEvent))
  {
    var r := BeginDestroy(s, o, byEvent);
    assert Held(r) == Held(s) && Freed(r) == Freed(s);
  }

  lemma EndDestroyGuarded(q: Pass, b: Objects, o: ObjectId)
    requires SetsOk(b) && Guarded(q, b) && o in b.dying
    ensures Guarded(q, b.(dying := b.dying - {o}, dead := b.dead + {o}, destroyed := b.destroyed + [o]))
  {
    var b' := b.(dying := b.dying - {o}, dead := b.dead + {o}, destroyed := b.destroyed + [o]);
    forall e | e in q.batch + q.ticks ensures Covered(q, b', e.receiver) {
      assert Covered(q, b, e.receiver);
    }
  }

  lemma WithoutInOrder(d: seq<Entry>, f: seq<Entry>, q: seq<Entry>, gone: set<ObjectId>)
    requires InOrder(d, f, q)
    ensures InOrder(d, f, Without(q, gone))
  {
    WithoutMembers(q, gone);
  }

  lemma EndDestroyKeeps(s: World, o: ObjectId)
    requires Inv(s) && o in s.objects.dying
    ensures Inv(EndDestroy(s, o))
  {
    EndDestroyPlaced(s, o);
    EndDestroyGuarded(s.pass, s.objects, o);
    WithoutInOrder(s.done.delivered, InFlight(s.pass), s.queue, {o});
    EndDestroyHeld(s, o);
  }

  lemma EndDestroyPlaced(s: World, o: ObjectId)
    requires Placed(s.queue, s.timers, s.discarded, s.objects) && o in s.objects.dying
    ensures var r := EndDestroy(s, o); Placed(r.queue, r.timers, r.discarded, r.objects)
  {
    var r := EndDestroy(s, o);
    WithoutSplits(s.queue, o);
    WithoutMembers(s.queue, {o});
    WithoutReceiverMembers(s.timers, o);
    forall e | e in r.queue ensures Addressed(r.objects, e) {
      assert Addressed(s.objects, e);
    }
  }

  lemma EndDestroyHeld(s: World, o: ObjectId)
    ensures Held(EndDestroy(s, o)) + Freed(EndDestroy(s, o)) == Held(s) + Freed(s)
  {
    WithoutSplits(s.queue, o);
    var r := EndDestroy(s, o);
    assert multiset(r.discarded) == multiset(s.discarded) + multiset(Of(s.queue, o));
  }

  // ---------------------------------------------------------------- arbitrary user code keeps the invariant

  lemma PerformSplit(p: Program, s: World, acts: seq<Action>)
    requires SetsOk(s.objects) && acts != []
    ensures Perform(p, s, acts) == Perform(p, PerformOne(p, s, acts[0]), acts[1..])
  {
  }

  lemma {:induction false} PerformKeeps(p: Program, s: World, acts: seq<Action>)
    requires Inv(s)
    ensures Inv(Perform(p, s, acts))
    decreases Pending(s.objects), |acts|, 0
  {
    if acts != [] {
      PerformSplit(p, s, acts);
      PerformOneKeeps(p, s, acts[0]);
      PerformKeeps(p, PerformOne(p, s, acts[0]), acts[1..]);
    }
  }

  lemma {:induction false} PerformOneKeeps(p: Program, s: World, a: Action)
    requires Inv(s)
    ensures Inv(PerformOne(p, s, a))
    decreases Pending(s.objects), 0, 1
  {
    if a.Destroy? {
      if a.receiver in s.objects.live {
        BeginDestroyGuarded(s, a.receiver);
        BeginDestroyKeeps(s, a.receiver, false);
        DestroyKeeps(p, s, a.receiver, false);
      }
    } else {
      SimpleKeeps(s, a);
    }
  }

  lemma {:induction false} DestroyKeeps(p: Program, s: World, o: ObjectId, byEvent: bool)
    requires SetsOk(s.objects) && o in s.objects.live
    requires Inv(BeginDestroy(s, o, byEvent))
    ensures Inv(DestroyObject(p, s, o, byEvent))
    decreases Pending(s.objects), 0, 0
  {
    var s1 := BeginDestroy(s, o, byEvent);
    assert o in Pending(s.objects) && o !in Pending(s1.objects);
    PerformKeeps(p, s1, p.cleanup(o));
    EndDestroyKeeps(Perform(p, s1, p.cleanup(o)), o);
  }

  // ---------------------------------------------------------------- dispatching keeps the invariant

  /** Between handlers: no destructor is running and nothing is in dispatch. */
  ghost predicate Settled(s: World)
  {
    Inv(s) && s.objects.dying == {} && s.pass.current == [] && !s.pass.fault
  }

  lemma PopFacts(s: World)
    requires s.pass.batch + s.pass.ticks != []
    ensures s.pass.batch + s.pass.ticks == [Next(s)] + (Pop(s).batch + Pop(s).ticks)
    ensures forall e :: e in Pop(s).ticks ==> e in s.pass.ticks
    ensures s.pass.batch == [] ==> Next(s) in s.pass.ticks
  {
    if s.pass.batch != [] {
      assert s.pass.batch == [s.pass.batch[0]] + s.pass.batch[1..];
    } else {
      assert s.pass.ticks == [s.pass.ticks[0]] + s.pass.ticks[1..];
    }
  }

  lemma HeadOut(q: seq<Entry>)
    requires q != []
    ensures multiset(q) == multiset(q[1..]) + multiset{q[0]}
  {
    assert q == [q[0]] + q[1..];
  }

  /** Taking one entry out of one of four piles takes it out of their sum. */
  lemma OneLess(a: multiset<Entry>, b: multiset<Entry>, c: multiset<Entry>, d: multiset<Entry>, e: Entry)
    ensures a + (b + multiset{e}) + c + d == (a + b + c + d) + multiset{e}
    ensures a + b + (c + multiset{e}) + d == (a + b + c + d) + multiset{e}
  {
  }

  lemma PopHeld(s: World)
    requires s.pass.batch + s.pass.ticks != []
    ensures Held(s) == Held(s.(pass := Pop(s))) + multiset{Next(s)}
  {
    var q := Pop(s);
    OneLess(multiset(s.queue), multiset(q.batch), multiset(q.ticks), multiset(q.current), Next(s));
    if s.pass.batch != [] {
      HeadOut(s.pass.batch);
    } else {
      HeadOut(s.pass.ticks);
    }
  }

  /** A turn takes its entry out of the batch, whatever user code does; a faulting one leaves the batch as it is. */
  lemma TurnBatch(p: Program, s: World)
    requires SetsOk(s.objects) && s.pass.batch + s.pass.ticks != []
    ensures var q := DispatchNext(p, s).pass;
            && (!q.fault ==> q.batch == Pop(s).batch && q.ticks == Pop(s).ticks)
            && q.batch + q.ticks in {s.pass.batch + s.pass.ticks, Pop(s).batch + Pop(s).ticks}
  {
    var e := Next(s);
    if e.receiver !in s.pass.guard && e.receiver in s.objects.live {
      assert DispatchNext(p, s) == Retire(Handle(p, Enter(s), e), e);
      assert Handle(p, Enter(s), e).pass == Enter(s).pass;
    }
  }

  lemma TailAscending(f: seq<Entry>)
    requires f != [] && Ascending(f)
    ensures Ascending(f[1..])
    ensures forall x :: x in f[1..] ==> x in f && f[0].event.id < x.event.id
  {
    var t := f[1..];
    assert forall k :: 0 <= k < |t| ==> t[k] == f[k + 1];
  }

  lemma TailInOrder(d: seq<Entry>, f: seq<Entry>, q: seq<Entry>)
    requires f != [] && InOrder(d, f, q)
    ensures InOrder(d, f[1..], q) && InOrder(d + [f[0]], f[1..], q)
  {
    TailAscending(f);
    AppendAscending(d, f[0]) by { assert f[0] in f; }
    var d' := d + [f[0]];
    assert f[0] in f;
    assert Precedes(d', f[1..]);
    assert Precedes(d', q);
  }

  lemma AppendAscending(d: seq<Entry>, e: Entry)
    requires Ascending(d) && forall x :: x in d ==> x.event.id < e.event.id
    ensures Ascending(d + [e])
  {
    assert forall k :: 0 <= k < |d| ==> d[k] in d;
  }

  /** What the passes around the taking of an entry have in flight. */
  lemma EnteredInFlight(s: World)
    requires s.pass.current == [] && s.pass.batch + s.pass.ticks != []
    ensures InFlight(s.pass) == if s.pass.draining then [] else s.pass.batch
    ensures InFlight(Pop(s)) == if s.pass.draining then [] else Pop(s).batch
    ensures InFlight(Pop(s).(current := [Next(s)])) ==
            if s.pass.draining then [] else if Next(s).event.Tick? then Pop(s).batch else [Next(s)] + Pop(s).batch
  {
  }

  lemma NextIsTick(s: World)
    requires Guarded(s.pass, s.objects) && s.pass.batch == [] && s.pass.ticks != []
    ensures Next(s).event.Tick?
  {
    assert Next(s) in s.pass.ticks;
  }

  predicate SameOrTail(g: seq<Entry>, f: seq<Entry>) { g == f || (f != [] && g == f[1..]) }

  lemma SameOrTailInOrder(d: seq<Entry>, f: seq<Entry>, g: seq<Entry>, q: seq<Entry>)
    requires InOrder(d, f, q) && SameOrTail(g, f)
    ensures InOrder(d, g, q)
  {
    if g != f {
      TailInOrder(d, f, q);
    }
  }

  lemma EnteredIsSameOrTail(s: World)
    requires s.pass.current == [] && s.pass.batch + s.pass.ticks != []
    requires s.pass.batch == [] ==> Next(s).event.Tick?
    ensures SameOrTail(InFlight(Pop(s)), InFlight(s.pass))
    ensures SameOrTail(InFlight(Pop(s).(current := [Next(s)])), InFlight(s.pass))
  {
    EnteredInFlight(s);
    var f := s.pass.batch;
    assert f != [] ==> f == [f[0]] + f[1..];
  }

  /** Taking the next entry into dispatch leaves the order of what is in flight unchanged. */
  lemma TakeInFlight(s: World)
    requires Settled(s) && s.pass.batch + s.pass.ticks != []
    ensures var e, q := Next(s), Pop(s).(current := [Next(s)]);
            InOrder(s.done.delivered, InFlight(q), s.queue)
            && (!s.pass.draining && !e.event.Tick? ==> InFlight(q) == [e] + Pop(s).batch)
    ensures InOrder(s.done.delivered, InFlight(Pop(s)), s.queue)
  {
    if s.pass.batch == [] {
      NextIsTick(s);
    }
    EnteredInFlight(s);
    EnteredIsSameOrTail(s);
    var d, f, q := s.done.delivered, InFlight(s.pass), s.queue;
    SameOrTailInOrder(d, f, InFlight(Pop(s)), q);
    SameOrTailInOrder(d, f, InFlight(Pop(s).(current := [Next(s)])), q);
  }

  lemma SkipKeeps(s: World)
    requires Settled(s) && s.pass.batch + s.pass.ticks != []
    requires Next(s).receiver in s.pass.guard
    ensures Settled(s.(pass := Pop(s), discarded := s.discarded + [Next(s)]))
  {
    var r := s.(pass := Pop(s), discarded := s.discarded + [Next(s)]);
    TakeInFlight(s);
    PopGuarded(s);
    SkipHeld(s);
    SkipPlaced(s.queue, s.timers, s.discarded, s.objects, Next(s));
    assert Guarded(r.pass, r.objects);
    assert InOrder(r.done.delivered, InFlight(r.pass), r.queue);
    assert Inv(r);
  }

  lemma SkipPlaced(queue: seq<Entry>, timers: seq<TimerData>, discarded: seq<Entry>, b: Objects, e: Entry)
    requires Placed(queue, timers, discarded, b) && e.receiver in b.dead
    ensures Placed(queue, timers, discarded + [e], b)
  {
  }

  lemma SkipHeld(s: World)
    requires s.pass.batch + s.pass.ticks != []
    ensures var r := s.(pass := Pop(s), discarded := s.discarded + [Next(s)]);
            Held(r) + Freed(r) == Held(s) + Freed(s)
  {
    PopHeld(s);
    assert multiset(s.discarded + [Next(s)]) == multiset(s.discarded) + multiset{Next(s)};
  }

  /** Dropping the head keeps the batch guarded as long as its receiver is not one of the killed. */
  lemma PopGuarded(s: World)
    requires SetsOk(s.objects) && Guarded(s.pass, s.objects) && s.pass.batch + s.pass.ticks != []
    requires Next(s).receiver !in s.objects.killed
    ensures Guarded(Pop(s), s.objects)
  {
    PopFacts(s);
    var q, q1, b := s.pass, Pop(s), s.objects;
    forall o | o in b.killed ensures Named(q1.batch + q1.ticks, o) {
      assert Named(q.batch + q.ticks, o);
      var e :| e in q.batch + q.ticks && e.receiver == o;
      assert e in q1.batch + q1.ticks;
    }
    forall e | e in q1.batch + q1.ticks ensures Covered(q1, b, e.receiver) {
      assert e in q.batch + q.ticks;
      assert Covered(q, b, e.receiver);
    }
  }

  lemma EnterHeld(s: World)
    requires s.pass.batch + s.pass.ticks != [] && s.pass.current == []
    ensures Held(Enter(s)) + Freed(Enter(s)) == Held(s) + Freed(s)
  {
    PopHeld(s);
  }

  lemma EnterKeeps(s: World)
    requires Settled(s) && s.pass.batch + s.pass.ticks != []
    requires Next(s).receiver in s.objects.live && !Next(s).event.DeferredDelete?
    ensures Inv(Enter(s))
  {
    var r, q0 := Enter(s), Pop(s);
    TakeInFlight(s);
    PopGuarded(s);
    EnterHeld(s);
    forall x | x in r.pass.batch + r.pass.ticks ensures Covered(r.pass, s.objects, x.receiver) {
      assert Covered(q0, s.objects, x.receiver);
    }
  }

  /** For a DeferredDelete the receiver's destructor is entered with it. */
  lemma EnterDeleteKeeps(s: World)
    requires Settled(s) && s.pass.batch + s.pass.ticks != []
    requires Next(s).receiver in s.objects.live && Next(s).event.DeferredDelete?
    ensures Inv(BeginDestroy(Enter(s), Next(s).receiver, true))
  {
    TakeInFlight(s);
    PopGuarded(s);
    EnterHeld(s);
    EnterGuarded(Pop(s), s.objects, Next(s));
    BeginDestroyKeeps(Enter(s), Next(s).receiver, true);
  }

  lemma EnterGuarded(q: Pass, b: Objects, e: Entry)
    requires SetsOk(b) && Guarded(q, b) && q.current == [] && e.event.DeferredDelete? && e.receiver in b.live
    ensures Guarded(q.(current := [e]), b.(live := b.live - {e.receiver}, dying := b.dying + {e.receiver}))
  {
    var q', b' := q.(current := [e]), b.(live := b.live - {e.receiver}, dying := b.dying + {e.receiver});
    forall x | x in q'.batch + q'.ticks ensures Covered(q', b', x.receiver) {
      assert Covered(q, b, x.receiver);
    }
  }

  lemma RetireGuarded(q: Pass, b: Objects, e: Entry)
    requires Guarded(q, b) && q.current == [e] && (e.event.DeferredDelete? ==> e.receiver in b.dead)
    ensures Guarded(q.(current := [], guard := if e.event.DeferredDelete? then q.guard + {e.receiver} else q.guard), b)
  {
    var q' := q.(current := [], guard := if e.event.DeferredDelete? then q.guard + {e.receiver} else q.guard);
    assert e.event.DeferredDelete? ==> Leaving(q, e.receiver);
    forall x | x in q'.batch + q'.ticks ensures Covered(q', b, x.receiver) {
      assert Covered(q, b, x.receiver);
    }
  }

  lemma RetireInOrder(s: World, e: Entry)
    requires InOrder(s.done.delivered, InFlight(s.pass), s.queue) && s.pass.current == [e]
    requires !s.pass.draining && !e.event.Tick? ==> InFlight(s.pass) == [e] + s.pass.batch
    ensures InOrder(Retire(s, e).done.delivered, InFlight(Retire(s, e).pass), Retire(s, e).queue)
  {
    var f, f' := InFlight(s.pass), InFlight(Retire(s, e).pass);
    if !s.pass.draining && !e.event.Tick? {
      TailInOrder(s.done.delivered, f, s.queue);
      assert f[1..] == s.pass.batch == f';
    } else {
      assert f' == f;
    }
  }

  lemma RetireKeeps(s: World, e: Entry)
    requires Inv(s) && s.objects.dying == {} && s.pass.current == [e] && !s.pass.fault
    requires e.event.DeferredDelete? ==> e.receiver in s.objects.dead
    requires !s.pass.draining && !e.event.Tick? ==> InFlight(s.pass) == [e] + s.pass.batch
    ensures Settled(Retire(s, e))
  {
    var r := Retire(s, e);
    RetireGuarded(s.pass, s.objects, e);
    RetireHeld(s, e);
    RetireInOrder(s, e);
    assert Inv(r);
  }

  lemma RetireHeld(s: World, e: Entry)
    requires s.pass.current == [e]
    ensures Held(Retire(s, e)) + Freed(Retire(s, e)) == Held(s) + Freed(s)
  {
    var d, d' := s.done, Retire(s, e).done;
    if s.pass.draining { assert multiset(d'.drained) == multiset(d.drained) + multiset{e}; }
    else if e.event.Tick? { assert multiset(d'.ticked) == multiset(d.ticked) + multiset{e}; }
    else { assert multiset(d'.delivered) == multiset(d.delivered) + multiset{e}; }
  }

  /**
    One turn: unless it is the faulty one, everything is settled again; and it is faulty exactly for a receiver that
    was dead when the batch was taken, or was destroyed directly while it still had entries in the batch.
   */
  lemma DispatchNextKeeps(p: Program, s: World)
    requires Settled(s) && s.pass.batch + s.pass.ticks != []
    ensures var r := DispatchNext(p, s);
            if r.pass.fault then Next(s).receiver in r.objects.killed else Settled(r)
    ensures DispatchNext(p, s).pass.fault <==> Next(s).receiver in s.objects.killed
  {
    var e := Next(s);
    PopFacts(s);
    assert Covered(s.pass, s.objects, e.receiver);
    if e.receiver in s.pass.guard {
      SkipKeeps(s);
    } else if e.receiver in s.objects.live {
      HandleKeeps(p, s);
    }
  }

  lemma HandleInv(p: Program, s: World)
    requires Settled(s) && s.pass.batch + s.pass.ticks != []
    requires Next(s).receiver in s.objects.live
    ensures Inv(Handle(p, Enter(s), Next(s)))
  {
    if Next(s).event.DeferredDelete? {
      EnterDeleteKeeps(s);
      DestroyKeeps(p, Enter(s), Next(s).receiver, true);
    } else {
      EnterKeeps(s);
      PerformKeeps(p, Enter(s), p.handler(Next(s).event.id));
    }
  }

  lemma HandleKeeps(p: Program, s: World)
    requires Settled(s) && s.pass.batch + s.pass.ticks != []
    requires Next(s).receiver in s.objects.live
    ensures Settled(Retire(Handle(p, Enter(s), Next(s)), Next(s)))
  {
    HandleInv(p, s);
    TakeInFlight(s);
    RetireKeeps(Handle(p, Enter(s), Next(s)), Next(s));
  }

  /** The dispatch loops fault exactly when someone was killed, and otherwise end settled and empty. */
  lemma {:induction false} DispatchKeeps(p: Program, s: World)
    requires Settled(s)
    ensures var r := Dispatch(p, s);
            && (r.pass.fault <==> r.objects.killed != {})
            && (!r.pass.fault ==> Settled(r) && Idle(r))
    decreases |s.pass.batch| + |s.pass.ticks|
  {
    if s.pass.batch + s.pass.ticks != [] {
      DispatchNextKeeps(p, s);
      var s' := DispatchNext(p, s);
      if s'.pass.fault {
        assert Dispatch(p, s') == s';
      } else {
        DispatchKeeps(p, s');
      }
    } else {
      assert forall o :: o in s.objects.killed ==> Named(s.pass.batch + s.pass.ticks, o);
    }
  }

  // ---------------------------------------------------------------- one pass

  lemma {:induction false} TickEntryFacts(expired: seq<TimerData>, firstId: nat)
    ensures var ticks := TickEntries(expired, firstId);
            && |ticks| == |expired|
            && forall i :: 0 <= i < |ticks| ==>
                 ticks[i] == Entry(expired[i].receiver, Tick(firstId + i, expired[i].timerId))
  {
    if expired != [] {
      TickEntryFacts(expired[1..], firstId + 1);
    }
  }

  lemma {:induction false} ExpiredMembers(timers: seq<TimerData>, now: int)
    ensures forall t :: t in Expired(timers, now) ==> t in timers
  {
    if timers != [] {
      ExpiredMembers(timers[1..], now);
    }
  }

  ghost predicate TicksFrom(ticks: seq<Entry>, n: nat)
  {
    forall i :: 0 <= i < |ticks| ==> ticks[i].event.Tick? && ticks[i].event.id == n + i
  }

  lemma IdleKillsNobody(s: World)
    requires Settled(s) && Idle(s)
    ensures s.objects.killed == {}
  {
    assert forall o :: o in s.objects.killed ==> Named(s.pass.batch + s.pass.ticks, o);
  }

  ghost predicate TicksLive(s: World)
  {
    forall e :: e in s.pass.ticks ==> e.receiver in s.objects.live
  }

  lemma CollectKeeps(s: World)
    requires Settled(s) && Idle(s)
    ensures Settled(CollectTicks(s)) && TicksLive(CollectTicks(s))
  {
    IdleKillsNobody(s);
    CollectedTicks(s);
    CollectKeepsInv(s);
  }

  lemma CollectKeepsInv(s: World)
    requires Settled(s) && Idle(s) && s.objects.killed == {}
    ensures Inv(CollectTicks(s))
  {
    var ticks := TickEntries(Expired(s.timers, s.clock), |s.log|);
    CollectedTicks(s);
    CollectedTimers(s);
    CollectGuarded(s, ticks);
    CollectLog(s.log, s.objects.deletePosted, ticks);
    CollectHeld(s, ticks);
    var r, q := CollectTicks(s), s.pass.(ticks := ticks);
    assert r == s.(timers := Advanced(s.timers, s.clock), log := s.log + ticks, pass := q);
    assert Placed(r.queue, r.timers, r.discarded, r.objects);
    assert Guarded(r.pass, r.objects);
    assert Held(r) + Freed(r) == multiset(r.log);
    assert InOrder(r.done.delivered, InFlight(r.pass), r.queue);
  }

  lemma CollectedTicks(s: World)
    requires Settled(s)
    ensures var ticks := TickEntries(Expired(s.timers, s.clock), |s.log|);
            && (forall e :: e in ticks ==> e.event.Tick? && e.receiver in s.objects.live)
            && TicksFrom(ticks, |s.log|)
  {
    var expired := Expired(s.timers, s.clock);
    ExpiredMembers(s.timers, s.clock);
    forall t | t in expired ensures t.receiver in s.objects.live {
      assert Exists(s.objects, t.receiver);
    }
    TicksOfLive(expired, |s.log|, s.objects.live);
  }

  lemma TicksOfLive(expired: seq<TimerData>, n: nat, live: set<ObjectId>)
    requires forall t :: t in expired ==> t.receiver in live
    ensures var ticks := TickEntries(expired, n);
            && (forall e :: e in ticks ==> e.event.Tick? && e.receiver in live)
            && TicksFrom(ticks, n)
  {
    var ticks := TickEntries(expired, n);
    TickEntryFacts(expired, n);
    forall e | e in ticks ensures e.event.Tick? && e.receiver in live {
      var i :| 0 <= i < |ticks| && ticks[i] == e;
      assert expired[i] in expired;
    }
  }

  lemma CollectedTimers(s: World)
    requires Placed(s.queue, s.timers, s.discarded, s.objects)
    ensures Placed(s.queue, Advanced(s.timers, s.clock), s.discarded, s.objects)
  {
    var r := Advanced(s.timers, s.clock);
    forall t | t in r ensures Exists(s.objects, t.receiver) {
      var i :| 0 <= i < |r| && r[i] == t;
      assert s.timers[i] in s.timers;
    }
  }

  lemma CollectGuarded(s: World, ticks: seq<Entry>)
    requires Settled(s) && Idle(s) && s.objects.killed == {}
    requires forall e :: e in ticks ==> e.event.Tick? && e.receiver in s.objects.live
    ensures Guarded(s.pass.(ticks := ticks), s.objects)
    ensures InFlight(s.pass.(ticks := ticks)) == InFlight(s.pass)
  {
  }

  lemma CollectLog(log: seq<Entry>, posted: set<ObjectId>, ticks: seq<Entry>)
    requires Numbered(log) && Debounced(log, posted)
    requires TicksFrom(ticks, |log|)
    ensures Numbered(log + ticks) && Debounced(log + ticks, posted)
  {
    var l := log + ticks;
    forall i | 0 <= i < |l| ensures l[i].event.id == i && (l[i].event.DeferredDelete? ==> i < |log| && l[i] == log[i]) {
      if i >= |log| { assert l[i] == ticks[i - |log|]; }
    }
  }

  lemma CollectHeld(s: World, ticks: seq<Entry>)
    requires Settled(s) && Idle(s)
    ensures var r := s.(log := s.log + ticks, pass := s.pass.(ticks := ticks));
            Held(r) + Freed(r) == multiset(r.log)
  {
    var r := s.(log := s.log + ticks, pass := s.pass.(ticks := ticks));
    assert Held(r) == Held(s) + multiset(ticks) && Freed(r) == Freed(s);
    assert multiset(r.log) == multiset(s.log) + multiset(ticks);
  }

  lemma TakeKeeps(s: World)
    requires Settled(s) && s.pass.batch == [] && s.objects.killed == {} && TicksLive(s)
    ensures Settled(TakeBatch(s))
  {
    var r := TakeBatch(s);
    TakeGuarded(s);
    assert InFlight(r.pass) == s.queue;
    TakeHeld(s);
    assert Inv(r);
  }

  lemma TakeGuarded(s: World)
    requires Settled(s) && TicksLive(s)
    ensures Guarded(TakeBatch(s).pass, TakeBatch(s).objects)
  {
    var q, b := TakeBatch(s).pass, TakeBatch(s).objects;
    forall o | o in b.killed ensures Named(q.batch + q.ticks, o) {
      var e :| e in s.queue && e.receiver in s.objects.dead && e.receiver == o;
      assert e in q.batch + q.ticks;
    }
    forall e | e in q.batch + q.ticks ensures Covered(q, b, e.receiver) {
      if e in s.queue { assert Addressed(s.objects, e); }
    }
  }

  lemma TakeHeld(s: World)
    requires s.pass.batch == [] && s.pass.current == []
    ensures Held(TakeBatch(s)) == Held(s) && Freed(TakeBatch(s)) == Freed(s)
  {
  }

  lemma DropKeeps(s: World)
    requires Settled(s) && s.pass.batch == [] && s.objects.killed == {}
    ensures Settled(DropTicks(s)) && Idle(DropTicks(s))
  {
    var r := DropTicks(s);
    assert multiset(r.done.dropped) == multiset(s.done.dropped) + multiset(s.pass.ticks);
    assert Held(r) + Freed(r) == Held(s) + Freed(s);
    assert InFlight(r.pass) == InFlight(s.pass);
  }

  lemma WaitKeeps(p: Program, s: World, during: seq<Action>)
    requires Settled(s)
    ensures Settled(Wait(p, s, during)) && Wait(p, s, during).pass == s.pass
  {
    FlagsKeep(s, s.interrupt, false, s.wakeUpRequested, s.clock);
    var s1 := s.(timersChanged := false);
    PerformKeeps(p, s1, during);
    var s2 := Perform(p, s1, during);
    FlagsKeep(s2, s2.interrupt, s2.timersChanged, false, s2.clock);
  }

  lemma AtDrainKeeps(p: Program, s: World, before: seq<Action>, during: seq<Action>)
    requires Settled(s) && Idle(s)
    ensures var r := AtDrain(p, s, before, during);
            Settled(r) && r.pass.batch == [] && r.objects.killed == {} && TicksLive(r)
  {
    PerformKeeps(p, s, before);
    var s0 := Perform(p, s, before);
    CollectKeeps(s0);
    IdleKillsNobody(s0);
    var s1 := CollectTicks(s0);
    if s1.queue == [] && s1.pass.ticks == [] {
      WaitKeeps(p, s1, during);
      IdleKillsNobody(Wait(p, s1, during));
    }
  }

  /**
    A pass dispatches to freed memory exactly when it has recorded some object as killed: one the batch named
    although it was dead, or one a handler destroyed directly while it still had entries in the batch. Otherwise it
    ends with every invariant in place: every entry dispatched had a live receiver, and every event is accounted for.
   */
  lemma ProcessEventsSafe(p: Program, s: World, before: seq<Action>, during: seq<Action>)
    requires Settled(s) && Idle(s)
    ensures var r := ProcessEvents(p, s, before, during);
            && (r.pass.fault <==> r.objects.killed != {})
            && (!r.pass.fault ==> Settled(r) && Idle(r))
  {
    IdleKillsNobody(s);
    if s.interrupt {
      FlagsKeep(s, false, s.timersChanged, s.wakeUpRequested, s.clock);
    } else {
      AtDrainKeeps(p, s, before, during);
      var s2 := AtDrain(p, s, before, during);
      if s2.interrupt {
        FlagsKeep(s2, false, s2.timersChanged, s2.wakeUpRequested, s2.clock);
        DropKeeps(s2.(interrupt := false));
      } else {
        TakeKeeps(s2);
        DispatchKeeps(p, TakeBatch(s2));
      }
    }
  }

  // ---------------------------------------------------------------- what a dispatch does to its batch

  /** What turning s into r did with the events of the batch. */
  ghost predicate Delivers(s: World, r: World)
  {
    && (forall e :: e in r.done.delivered ==> e in s.done.delivered || e in s.pass.batch)
    && (forall e :: e in s.done.delivered ==> e in r.done.delivered)
    && (forall e :: e in s.discarded ==> e in r.discarded)
    && (forall e :: e in r.pass.batch ==> e in s.pass.batch)
    && (forall e :: e in s.pass.batch && !e.event.Tick? ==>
          e in r.pass.batch || e in r.done.delivered || e in r.discarded)
  }

  lemma DeliversTransitive(s: World, m: World, r: World)
    requires Delivers(s, m) && Delivers(m, r)
    ensures Delivers(s, r)
  {
  }

  /** Nothing but the batch is delivered, and every batch entry is delivered or discarded. */
  lemma {:induction false} DispatchDelivers(p: Program, s: World)
    requires Settled(s) && !s.pass.draining && !Dispatch(p, s).pass.fault
    ensures Delivers(s, Dispatch(p, s))
    decreases |s.pass.batch| + |s.pass.ticks|
  {
    if s.pass.batch + s.pass.ticks != [] {
      DispatchNextKeeps(p, s);
      var s' := DispatchNext(p, s);
      DeliverOne(p, s);
      DispatchDelivers(p, s');
      DeliversTransitive(s, s', Dispatch(p, s'));
    }
  }

  lemma DeliverOne(p: Program, s: World)
    requires Settled(s) && s.pass.batch + s.pass.ticks != [] && !s.pass.draining
    requires !DispatchNext(p, s).pass.fault
    ensures Delivers(s, DispatchNext(p, s)) && !DispatchNext(p, s).pass.draining
  {
    PopFacts(s);
    var e := Next(s);
    if s.pass.batch != [] { assert s.pass.batch == [e] + s.pass.batch[1..]; }
    if e.receiver !in s.pass.guard {
      DiscardedGrows(p, Enter(s), e);
    }
  }

  lemma {:induction false} PerformDiscards(p: Program, s: World, acts: seq<Action>)
    requires SetsOk(s.objects)
    ensures s.discarded <= Perform(p, s, acts).discarded
    decreases Pending(s.objects), |acts|, 0
  {
    if acts != [] {
      var a := acts[0];
      PerformSplit(p, s, acts);
      if a.Destroy? && a.receiver in s.objects.live { DestroyDiscards(p, s, a.receiver, false); }
      PerformDiscards(p, PerformOne(p, s, a), acts[1..]);
    }
  }

  lemma {:induction false} DestroyDiscards(p: Program, s: World, o: ObjectId, byEvent: bool)
    requires SetsOk(s.objects) && o in s.objects.live
    ensures s.discarded <= DestroyObject(p, s, o, byEvent).discarded
    decreases Pending(s.objects), 0, 0
  {
    var s1 := BeginDestroy(s, o, byEvent);
    assert o in Pending(s.objects) && o !in Pending(s1.objects);
    PerformDiscards(p, s1, p.cleanup(o));
  }

  lemma DiscardedGrows(p: Program, s: World, e: Entry)
    requires SetsOk(s.objects) && e.receiver in s.objects.live
    ensures s.discarded <= Handle(p, s, e).discarded
  {
    if e.event.DeferredDelete? { DestroyDiscards(p, s, e.receiver, true); }
    else { PerformDiscards(p, s, p.handler(e.event.id)); }
  }

  /**
    What one pass delivers was queued when the pass drained the queue -- events posted by its handlers
    wait for a later pass -- and everything then queued is delivered now unless its receiver died first.
   */
  lemma PassDelivers(p: Program, s: World, before: seq<Action>, during: seq<Action>)
    requires Settled(s) && Idle(s)
    requires !s.interrupt && !AtDrain(p, s, before, during).interrupt
    requires !ProcessEvents(p, s, before, during).pass.fault
    ensures var q, r := AtDrain(p, s, before, during), ProcessEvents(p, s, before, during);
            && (forall e :: e in r.done.delivered && e !in q.done.delivered ==> e in q.queue && e.event.id < |q.log|)
            && (forall e :: e in q.queue && !e.event.Tick? ==>
                  e in r.done.delivered || (e in r.discarded && e.receiver in r.objects.dead))
  {
    AtDrainKeeps(p, s, before, during);
    var q := AtDrain(p, s, before, during);
    TakeKeeps(q);
    DispatchDelivers(p, TakeBatch(q));
    ProcessEventsSafe(p, s, before, during);
    Bounded(q);
  }
}
