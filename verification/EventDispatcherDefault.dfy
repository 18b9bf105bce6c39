/**
  The dispatcher object itself. Its methods work in place on the queue and the timer list, with the
  program's loops; each is proved to do what EventLoop says.

  The fields after the flags are the surroundings: the clock, the timer id counter, and what exists and
  what has been freed on the heap. `pass` mirrors the local variables of the running pass.
 */
module EventDispatcher {
  import opened Basics
  import opened TimerList
  import opened EventLoop
  import opened EventLoopSafety
  import opened DeferredDeletion

  // ---------------------------------------------------------------- remove_if over the two containers

  lemma UnregisteredFrom(timers: seq<TimerData>, i: nat, id: int)
    requires i < |timers|
    ensures Unregistered(timers[i..], id) ==
            if timers[i].timerId == id then Unregistered(timers[i + 1..], id)
            else [timers[i]] + Unregistered(timers[i + 1..], id)
  {
    assert timers[i..][1..] == timers[i + 1..];
  }

  method RemoveTimersById(timers: seq<TimerData>, id: int) returns (kept: seq<TimerData>)
    ensures kept == Unregistered(timers, id)
  {
    kept := [];
    var i := 0;
    while i < |timers|
      invariant 0 <= i <= |timers|
      invariant Unregistered(timers, id) == kept + Unregistered(timers[i..], id)
    {
      UnregisteredFrom(timers, i, id);
      Regroup(kept, timers[i], Unregistered(timers[i + 1..], id));
      if timers[i].timerId != id { kept := kept + [timers[i]]; }
      i := i + 1;
    }
  }

  method RemoveTimersByReceiver(timers: seq<TimerData>, receiver: ObjectId)
    returns (kept: seq<TimerData>, taken: seq<TimerRegistration>)
    ensures kept == WithoutReceiver(timers, receiver) && taken == TakenFor(timers, receiver)
  {
    kept, taken := [], [];
    var i := 0;
    while i < |timers|
      invariant 0 <= i <= |timers|
      invariant WithoutReceiver(timers, receiver) == kept + WithoutReceiver(timers[i..], receiver)
      invariant TakenFor(timers, receiver) == taken + TakenFor(timers[i..], receiver)
    {
      assert timers[i..][1..] == timers[i + 1..];
      if timers[i].receiver != receiver { kept := kept + [timers[i]]; }
      else { taken := taken + [TimerRegistration(timers[i].timerId, timers[i].intervalMs)]; }
      i := i + 1;
    }
  }

  method RemoveEventsByReceiver(queue: seq<Entry>, receiver: ObjectId) returns (kept: seq<Entry>, freed: seq<Entry>)
    ensures kept == Without(queue, {receiver}) && freed == Of(queue, receiver)
  {
    kept, freed := [], [];
    var i := 0;
    while i < |queue|
      invariant 0 <= i <= |queue|
      invariant Without(queue, {receiver}) == kept + Without(queue[i..], {receiver})
      invariant Of(queue, receiver) == freed + Of(queue[i..], receiver)
    {
      assert queue[i..][1..] == queue[i + 1..];
      if queue[i].receiver == receiver { freed := freed + [queue[i]]; } else { kept := kept + [queue[i]]; }
      i := i + 1;
    }
  }

  /** The erase loop of the drain: the queue shrinks in place while the scan goes on. */
  method EraseDeferredDeletes(all: seq<Entry>) returns (queue: seq<Entry>, deferredDeletes: seq<Entry>)
    ensures queue == Others(all) && deferredDeletes == DeferredDeletes(all)
  {
    queue, deferredDeletes := all, [];
    var it := 0;
    ghost var k := 0;
    while it < |queue|
      invariant 0 <= it <= |queue| && 0 <= k <= |all| && queue[it..] == all[k..]
      invariant Others(all) == queue[..it] + Others(all[k..])
      invariant DeferredDeletes(all) == deferredDeletes + DeferredDeletes(all[k..])
      decreases |all| - k
    {
      var rest := all[k..];
      assert rest[0] == queue[it] && rest[1..] == all[k + 1..];
      if queue[it].event.DeferredDelete? {
        deferredDeletes := deferredDeletes + [queue[it]];
        queue := queue[..it] + queue[it + 1..];
      } else {
        it := it + 1;
      }
      k := k + 1;
    }
  }

  lemma CollectTail(all: seq<TimerData>, i: nat, now: int, n: nat)
    requires i < |all|
    ensures TickEntries(Expired(all[i..], now), n) ==
              if now >= all[i].nextFire
              then [Entry(all[i].receiver, Tick(n, all[i].timerId))] + TickEntries(Expired(all[i + 1..], now), n + 1)
              else TickEntries(Expired(all[i + 1..], now), n)
  {
    var rest := Expired(all[i + 1..], now);
    assert all[i..][1..] == all[i + 1..];
    if now >= all[i].nextFire {
      assert Expired(all[i..], now) == [all[i]] + rest;
      assert ([all[i]] + rest)[1..] == rest;
    } else {
      assert Expired(all[i..], now) == rest;
    }
  }

  /** The first i timers have been looked at: those due are rearmed in place, and each has its tick. */
  ghost predicate Collected(all: seq<TimerData>, now: int, firstId: nat, i: nat, timers: seq<TimerData>,
                            ticks: seq<Entry>)
  {
    i <= |all| && RearmedUpTo(all, now, i, timers) && TickedUpTo(all, now, firstId, i, ticks)
  }

  ghost predicate RearmedUpTo(all: seq<TimerData>, now: int, i: nat, timers: seq<TimerData>)
  {
    |timers| == |all| && forall j :: 0 <= j < |all| ==> timers[j] == if j < i then Rearm(all[j], now) else all[j]
  }

  ghost predicate TickedUpTo(all: seq<TimerData>, now: int, firstId: nat, i: nat, ticks: seq<Entry>)
    requires i <= |all|
  {
    TickEntries(Expired(all, now), firstId) == ticks + TickEntries(Expired(all[i..], now), firstId + |ticks|)
  }

  lemma RearmedNext(all: seq<TimerData>, now: int, i: nat, timers: seq<TimerData>)
    requires i < |all| && RearmedUpTo(all, now, i, timers)
    ensures timers[i] == all[i] && RearmedUpTo(all, now, i + 1, timers[i := Rearm(all[i], now)])
  {
  }

  lemma CollectedNotDue(all: seq<TimerData>, now: int, firstId: nat, i: nat, timers: seq<TimerData>, ticks: seq<Entry>)
    requires i < |all| && Collected(all, now, firstId, i, timers, ticks) && now < timers[i].nextFire
    ensures Collected(all, now, firstId, i + 1, timers, ticks)
  {
    RearmedNext(all, now, i, timers);
    assert timers[i := timers[i]] == timers;
    CollectTail(all, i, now, firstId + |ticks|);
  }

  lemma TicksGrow(all: seq<TimerData>, now: int, firstId: nat, i: nat, ticks: seq<Entry>)
    requires i < |all| && now >= all[i].nextFire && TickedUpTo(all, now, firstId, i, ticks)
    ensures TickedUpTo(all, now, firstId, i + 1,
                       ticks + [Entry(all[i].receiver, Tick(firstId + |ticks|, all[i].timerId))])
  {
    var n := firstId + |ticks|;
    var e := Entry(all[i].receiver, Tick(n, all[i].timerId));
    CollectTail(all, i, now, n);
    Regroup(ticks, e, TickEntries(Expired(all[i + 1..], now), n + 1));
    assert firstId + |ticks + [e]| == n + 1;
  }

  lemma CollectedDue(all: seq<TimerData>, now: int, firstId: nat, i: nat, timers: seq<TimerData>, ticks: seq<Entry>)
    requires i < |all| && Collected(all, now, firstId, i, timers, ticks) && now >= timers[i].nextFire
    ensures Collected(all, now, firstId, i + 1, timers[i := Rearm(all[i], now)],
                      ticks + [Entry(all[i].receiver, Tick(firstId + |ticks|, all[i].timerId))])
  {
    RearmedNext(all, now, i, timers);
    TicksGrow(all, now, firstId, i, ticks);
  }

  lemma CollectedAll(all: seq<TimerData>, now: int, firstId: nat, timers: seq<TimerData>, ticks: seq<Entry>)
    requires Collected(all, now, firstId, |all|, timers, ticks)
    ensures timers == Advanced(all, now) && ticks == TickEntries(Expired(all, now), firstId)
  {
    assert all[|all|..] == [];
  }

  /** Collects the expired timers, allocating one TimerEvent each, and advances their deadlines in place. */
  method CollectExpiredTimers(all: seq<TimerData>, now: int, firstId: nat)
    returns (timers: seq<TimerData>, ticks: seq<Entry>)
    ensures timers == Advanced(all, now) && ticks == TickEntries(Expired(all, now), firstId)
  {
    timers, ticks := all, [];
    var i := 0;
    assert all[0..] == all;
    while i < |timers|
      invariant 0 <= i <= |timers| && Collected(all, now, firstId, i, timers, ticks)
    {
      var t := timers[i];
      if now >= t.nextFire {
        CollectedDue(all, now, firstId, i, timers, ticks);
        ticks := ticks + [Entry(t.receiver, Tick(firstId + |ticks|, t.timerId))];
        timers := timers[i := t.(nextFire := now + t.intervalMs * NS_PER_MS)];
      } else {
        CollectedNotDue(all, now, firstId, i, timers, ticks);
      }
      i := i + 1;
    }
    CollectedAll(all, now, firstId, timers, ticks);
  }

  /** The loop over a vector meets its entries as the pass holds them. */
  lemma PopsEntry(s: World, entries: seq<Entry>, i: nat, isBatch: bool)
    requires i < |entries|
    requires if isBatch then s.pass.batch == entries[i..] else s.pass.batch == [] && s.pass.ticks == entries[i..]
    ensures s.pass.batch + s.pass.ticks != [] && EventLoop.Next(s) == entries[i]
    ensures if isBatch then Pop(s).batch == entries[i + 1..] && Pop(s).ticks == s.pass.ticks
            else Pop(s).batch == [] && Pop(s).ticks == entries[i + 1..]
  {
    assert entries[i..][1..] == entries[i + 1..];
    if !isBatch { assert [] + s.pass.ticks == s.pass.ticks; }
  }

  /** What user code cannot touch of a turn: the rest of the batch and the number of events handed out. */
  lemma RetirePops(p: Program, s: World)
    requires SetsOk(s.objects) && s.pass.batch + s.pass.ticks != [] && EventLoop.Next(s).receiver in s.objects.live
    ensures var r := Retire(Handle(p, Enter(s), EventLoop.Next(s)), EventLoop.Next(s));
            && r.pass.batch == Pop(s).batch && r.pass.ticks == Pop(s).ticks
            && HandedOut(r.done) == HandedOut(s.done) + 1
  {
    assert Handle(p, Enter(s), EventLoop.Next(s)).done == s.done;
  }

  function HandedOut(d: Done): nat { |d.delivered| + |d.ticked| + |d.drained| }

  /** The first i entries have left the batch, or the ticks, and nothing else has. */
  ghost predicate Scanned(q: Pass, entries: seq<Entry>, i: nat, isBatch: bool, ticks: seq<Entry>)
  {
    && i <= |entries|
    && (!q.fault ==> if isBatch then q.batch == entries[i..] && q.ticks == ticks
                     else q.batch == [] && q.ticks == entries[i..])
  }

  lemma ScanNext(s: World, q: Pass, entries: seq<Entry>, i: nat, isBatch: bool, ticks: seq<Entry>)
    requires Scanned(s.pass, entries, i, isBatch, ticks) && i < |entries| && !s.pass.fault
    ensures s.pass.batch + s.pass.ticks != [] && EventLoop.Next(s) == entries[i]
    ensures (!q.fault ==> q.batch == Pop(s).batch && q.ticks == Pop(s).ticks) ==>
              Scanned(q, entries, i + 1, isBatch, ticks)
  {
    PopsEntry(s, entries, i, isBatch);
  }

  lemma DispatchUnfolds(p: Program, s: World)
    requires SetsOk(s.objects) && !s.pass.fault && s.pass.batch + s.pass.ticks != []
    ensures Dispatch(p, s) == Dispatch(p, DispatchNext(p, s))
  {
  }

  /** Between turns of the loop that ends in `whole`. */
  ghost predicate Underway(p: Program, s: World, whole: World)
  {
    if s.pass.fault then s == whole
    else Settled(s) && Idle(s) && s.pass.draining && DrainLoop(p, s) == whole
  }

  ghost function OneTurn(p: Program, s: World): (r: World)
    requires SetsOk(s.objects)
    ensures SetsOk(r.objects)
  {
    if s.pass.fault || DeferredDeletes(s.queue) == [] then s else Dispatch(p, Extract(s))
  }

  lemma OneTurnUnderway(p: Program, s: World, whole: World)
    requires SetsOk(s.objects) && Underway(p, s, whole)
    ensures Underway(p, OneTurn(p, s), whole)
    ensures !s.pass.fault && DeferredDeletes(s.queue) == [] ==> s == whole
    ensures !s.pass.fault && DeferredDeletes(s.queue) != [] && !OneTurn(p, s).pass.fault ==>
              OneTurn(p, s).objects.universe - OneTurn(p, s).objects.dead < s.objects.universe - s.objects.dead
  {
    if !s.pass.fault && DeferredDeletes(s.queue) != [] { TurnShrinks(p, s); }
  }

  /** The state after n turns of the drain loop; a turn that finds nothing to extract, or a fault, changes nothing. */
  ghost function AfterTurns(p: Program, s: World, n: nat): (r: World)
    requires SetsOk(s.objects)
    ensures SetsOk(r.objects)
  {
    if n == 0 then s else OneTurn(p, AfterTurns(p, s, n - 1))
  }

  /** What every turn keeps holds after n turns. */
  lemma {:induction false} AfterTurnsKeep(p: Program, s: World, n: nat, keep: World -> bool)
    requires SetsOk(s.objects) && keep(s)
    requires forall m :: keep(m) ==> SetsOk(m.objects) && keep(OneTurn(p, m))
    ensures keep(AfterTurns(p, s, n))
  {
    if n > 0 {
      AfterTurnsKeep(p, s, n - 1, keep);
    }
  }

  lemma AfterTurnsUnderway(p: Program, s: World, n: nat, whole: World)
    requires SetsOk(s.objects) && Underway(p, s, whole)
    ensures Underway(p, AfterTurns(p, s, n), whole)
  {
    var keep := (m: World) => SetsOk(m.objects) && Underway(p, m, whole);
    forall m | keep(m) ensures keep(OneTurn(p, m)) {
      OneTurnUnderway(p, m, whole);
    }
    AfterTurnsKeep(p, s, n, keep);
  }

  /** What the loop needs to know of the state it has reached: where it ends, and that it comes nearer. */
  lemma TurnFacts(p: Program, s: World, n: nat, whole: World)
    requires SetsOk(s.objects) && Underway(p, s, whole) && !AfterTurns(p, s, n).pass.fault
    ensures var m, r := AfterTurns(p, s, n), AfterTurns(p, s, n + 1);
            && Idle(m)
            && (DeferredDeletes(m.queue) == [] ==> m == whole)
            && (r.pass.fault ==> r == whole)
            && (DeferredDeletes(m.queue) != [] && !r.pass.fault ==>
                  r.objects.universe - r.objects.dead < m.objects.universe - m.objects.dead)
  {
    AfterTurnsUnderway(p, s, n, whole);
    OneTurnUnderway(p, AfterTurns(p, s, n), whole);
  }

  lemma DrainBegins(p: Program, s: World) returns (started: World, whole: World)
    requires Settled(s) && Idle(s)
    ensures started == StartDrain(s) && SetsOk(started.objects) && Underway(p, started, whole)
    ensures ProcessDeferredDeletes(p, s) == whole.(pass := whole.pass.(draining := false))
  {
    StartKeeps(s);
    started := StartDrain(s);
    whole := DrainLoop(p, started);
  }

  // ---------------------------------------------------------------- the dispatcher

  class EventDispatcherDefault {
    var mEventQueue: seq<Entry>
    var mTimers: seq<TimerData>
    var mInterrupt: bool
    var mTimersChanged: bool
    var mWakeUpRequested: bool

    var clock: int
    var nextTimer: int
    var log: seq<Entry>
    var discarded: seq<Entry>
    var pass: Pass
    var objects: Objects
    var done: Done

    function Abs(): World
      reads this
    {
      World(mEventQueue, mTimers, mInterrupt, mTimersChanged, mWakeUpRequested,
            clock, nextTimer, log, discarded, pass, objects, done)
    }

    constructor (objects: Objects, clock: int)
      ensures Abs() == World([], [], false, false, false, clock, 1, [], [],
                             Pass([], [], [], {}, false, false), objects, Done([], [], [], [], []))
    {
      mEventQueue, mTimers := [], [];
      mInterrupt, mTimersChanged, mWakeUpRequested := false, false, false;
      this.clock, nextTimer, log, discarded := clock, 1, [], [];
      pass := Pass([], [], [], {}, false, false);
      this.objects := objects;
      done := Done([], [], [], [], []);
    }

    /** ~EventDispatcherDefault(): pops and frees one event at a time. */
    method Clear()
      modifies this
      ensures Abs() == Teardown(old(Abs()))
    {
      ghost var q := mEventQueue;
      while mEventQueue != []
        invariant Abs() == old(Abs()).(queue := mEventQueue, done := done)
        invariant done == old(done).(abandoned := done.abandoned)
        invariant old(done).abandoned + q == done.abandoned + mEventQueue
      {
        assert mEventQueue == [mEventQueue[0]] + mEventQueue[1..];
        done := done.(abandoned := done.abandoned + [mEventQueue[0]]);
        mEventQueue := mEventQueue[1..];
      }
    }

    // -------------------------------------------------------------- timers

    method RegisterTimer(aTimerId: int, aInterval: int, aObject: Option<ObjectId>)
      modifies this
      ensures Abs() == if aObject.Some? then RegisterTimerAt(old(Abs()), aTimerId, aInterval, aObject.value)
                       else old(Abs())
    {
      if aObject.None? || aInterval < 0 {
        return;
      }
      var td := TimerData(aTimerId, aInterval, aObject.value, clock + aInterval * NS_PER_MS);
      var i := 0;
      while i < |mTimers|
        invariant 0 <= i <= |mTimers| && Abs() == old(Abs())
        invariant IndexOf(mTimers, aTimerId) >= i
      {
        if mTimers[i].timerId == aTimerId {
          mTimers := mTimers[i := td];
          mTimersChanged := true;
          return;
        }
        i := i + 1;
      }
      mTimers := mTimers + [td];
      mTimersChanged := true;
    }

    method UnregisterTimer(aTimerId: int) returns (found: bool)
      modifies this
      ensures Abs() == UnregisterTimerOf(old(Abs()), aTimerId)
      ensures found <==> exists t :: t in old(mTimers) && t.timerId == aTimerId
    {
      var kept := RemoveTimersById(mTimers, aTimerId);
      UnregisteredLength(mTimers, aTimerId);
      found := |kept| != |mTimers|;
      if found {
        mTimers := kept;
        mTimersChanged := true;
      } else {
        SameLengthSame(mTimers, aTimerId);
      }
    }

    method TakeTimersForReceiver(aReceiver: Option<ObjectId>) returns (taken: seq<TimerRegistration>)
      modifies this
      ensures aReceiver.None? ==> taken == [] && Abs() == old(Abs())
      ensures aReceiver.Some? ==>
                && taken == TakenFor(old(mTimers), aReceiver.value)
                && Abs() == old(Abs()).(timers := WithoutReceiver(old(mTimers), aReceiver.value),
                                        timersChanged := old(mTimersChanged) || taken != [])
    {
      taken := [];
      if aReceiver.None? {
        return;
      }
      var kept;
      kept, taken := RemoveTimersByReceiver(mTimers, aReceiver.value);
      TakeSplits(mTimers, aReceiver.value);
      if |kept| != |mTimers| {
        mTimers := kept;
        mTimersChanged := true;
      } else {
        NoneTakenSame(mTimers, aReceiver.value);
      }
    }

    // -------------------------------------------------------------- events

    /** A refused event is freed at once and never enters the log. */
    method PostEvent(aReceiver: Option<ObjectId>, aEvent: Option<Event>) returns (queued: bool)
      requires aEvent.Some? ==> aEvent.value.id == |log|
      modifies this
      ensures queued <==> aReceiver.Some? && aEvent.Some?
      ensures Abs() == if queued then Enqueue(old(Abs()), Entry(aReceiver.value, aEvent.value)) else old(Abs())
    {
      if aReceiver.None? || aEvent.None? {
        return false;
      }
      var ep := Entry(aReceiver.value, aEvent.value);
      mEventQueue := mEventQueue + [ep];
      log := log + [ep];
      return true;
    }

    method RemoveEventsForReceiver(aReceiver: Option<ObjectId>)
      modifies this
      ensures Abs() == if aReceiver.Some? then StripReceiver(old(Abs()), aReceiver.value) else old(Abs())
    {
      if aReceiver.None? {
        return;
      }
      var kept, freed := RemoveEventsByReceiver(mEventQueue, aReceiver.value);
      mEventQueue, discarded := kept, discarded + freed;
      var keptTimers, _ := RemoveTimersByReceiver(mTimers, aReceiver.value);
      mTimers := keptTimers;
    }

    method RequestWakeUp()
      modifies this
      ensures Abs() == old(Abs()).(wakeUpRequested := true)
    {
      mWakeUpRequested := true;
    }

    method RequestInterrupt()
      modifies this
      ensures Abs() == old(Abs()).(interrupt := true)
    {
      mInterrupt := true;
    }

    // -------------------------------------------------------------- user code and other threads

    /** Arbitrary code: handlers, cleanup callbacks, other threads. It acts through the public operations. */
    method Run(p: Program, acts: seq<Action>)
      requires SetsOk(objects)
      modifies this
      ensures Abs() == Perform(p, old(Abs()), acts)
      decreases Pending(objects), |acts|, 0
    {
      if acts != [] {
        RunOne(p, acts[0]);
        Run(p, acts[1..]);
      }
    }

    method RunOne(p: Program, a: Action)
      requires SetsOk(objects)
      modifies this
      ensures Abs() == PerformOne(p, old(Abs()), a)
      decreases Pending(objects), 0, 1
    {
      match a {
        case Destroy(o) =>
          if o in objects.live { Destruct(p, o, false); }
        case Post(o) =>
          if Exists(objects, o) { var _ := PostEvent(Some(o), Some(MetaCall(|log|))); }
        case Land(o) =>
          if Exists(objects, o) || o in objects.dead { var _ := PostEvent(Some(o), Some(MetaCall(|log|))); }
        case DeleteLater(o) =>
          if Exists(objects, o) { RequestDelete(o); }
        case Create(o) =>
          if o in objects.universe && o !in objects.live && o !in objects.dying && o !in objects.dead {
            objects := objects.(live := objects.live + {o});
          }
        case StartTimer(o, ms) =>
          if Exists(objects, o) {
            nextTimer := nextTimer + 1;
            RegisterTimer(nextTimer - 1, ms, Some(o));
          }
        case KillTimer(id) =>
          var _ := UnregisterTimer(id);
        case WakeUp => RequestWakeUp();
        case Interrupt => RequestInterrupt();
        case Advance(ns) => clock := clock + ns;
      }
    }

    /** Object::deleteLater(): exchange the flag, post only for the first caller. */
    method RequestDelete(o: ObjectId)
      modifies this
      ensures Abs() == DeleteLaterOf(old(Abs()), o)
    {
      if o in objects.deletePosted {
        return;
      }
      objects := objects.(deletePosted := objects.deletePosted + {o});
      var _ := PostEvent(Some(o), Some(DeferredDelete(|log|)));
    }

    /** ~Object(), in its order: life token, cleanup callbacks, dispatcher. */
    method Destruct(p: Program, o: ObjectId, byEvent: bool)
      requires SetsOk(objects) && o in objects.live
      modifies this
      ensures Abs() == DestroyObject(p, old(Abs()), o, byEvent)
      decreases Pending(objects), 0, 0
    {
      ghost var s := Abs();
      var killed := if !byEvent && Named(pass.batch + pass.ticks, o) then objects.killed + {o} else objects.killed;
      objects := objects.(live := objects.live - {o}, dying := objects.dying + {o}, killed := killed);
      assert o in Pending(old(objects)) && o !in Pending(objects);
      Run(p, p.cleanup(o));
      objects := objects.(dying := objects.dying - {o}, dead := objects.dead + {o},
                          destroyed := objects.destroyed + [o]);
      RemoveEventsForReceiver(Some(o));
    }

    /** Object::event() */
    method HandleEvent(p: Program, ep: Entry)
      requires SetsOk(objects) && ep.receiver in objects.live
      modifies this
      ensures Abs() == Handle(p, old(Abs()), ep)
    {
      match ep.event {
        case DeferredDelete(_) => Destruct(p, ep.receiver, true);
        case Tick(id, _) => Run(p, p.handler(id));
        case MetaCall(id) => Run(p, p.handler(id));
      }
    }

    // -------------------------------------------------------------- one pass

    method CollectExpired() returns (ticks: seq<Entry>)
      modifies this
      ensures ticks == pass.ticks && Abs() == CollectTicks(old(Abs()))
    {
      mTimers, ticks := CollectExpiredTimers(mTimers, clock, |log|);
      log := log + ticks;
      pass := pass.(ticks := ticks);
    }

    /** The deadline scan. */
    method WaitTimeout() returns (timeoutMs: int)
      ensures timeoutMs == TimeoutMs(mTimers, clock)
    {
      if mTimers == [] {
        return -1;
      }
      var minFire := mTimers[0].nextFire;
      var i := 0;
      while i < |mTimers|
        invariant 0 <= i <= |mTimers|
        invariant forall j :: 0 <= j < i ==> minFire <= mTimers[j].nextFire
        invariant exists j :: 0 <= j < |mTimers| && minFire == mTimers[j].nextFire
      {
        if mTimers[i].nextFire < minFire { minFire := mTimers[i].nextFire; }
        i := i + 1;
      }
      assert minFire == MinFire(mTimers);
      if minFire > clock {
        return (minFire - clock) / NS_PER_MS;
      }
      return 0;
    }

    /** One entry of the dispatch loops, with deletedReceivers as a local set. */
    method DispatchEntry(p: Program, ep: Entry, deletedReceivers: set<ObjectId>)
      returns (deletedReceivers': set<ObjectId>, dispatched: bool)
      requires SetsOk(objects) && !pass.fault && pass.batch + pass.ticks != [] && ep == Next(Abs())
      requires deletedReceivers == pass.guard
      modifies this
      ensures Abs() == DispatchNext(p, old(Abs()))
      ensures deletedReceivers' == pass.guard
      ensures Handled() == old(Handled()) + if dispatched then 1 else 0
      ensures !pass.fault ==> pass.batch == old(Pop(Abs())).batch && pass.ticks == old(Pop(Abs())).ticks
      ensures SetsOk(objects) && pass.draining == old(pass.draining)
    {
      deletedReceivers' := deletedReceivers;
      if ep.receiver in deletedReceivers {
        pass := Pop(Abs());
        discarded := discarded + [ep];
        return deletedReceivers, false;
      }
      if ep.receiver !in objects.live {
        pass := pass.(fault := true);
        return deletedReceivers, false;
      }
      RetirePops(p, Abs());
      deletedReceivers' := DeliverEntry(p, ep, deletedReceivers);
      dispatched := true;
    }

    /** The part of a dispatch loop's body past its guard: the receiver's event(), and the bookkeeping after it. */
    method DeliverEntry(p: Program, ep: Entry, deletedReceivers: set<ObjectId>)
      returns (deletedReceivers': set<ObjectId>)
      requires SetsOk(objects) && !pass.fault && pass.batch + pass.ticks != [] && ep == Next(Abs())
      requires deletedReceivers == pass.guard && ep.receiver in objects.live
      modifies this
      ensures Abs() == Retire(Handle(p, Enter(old(Abs())), ep), ep)
      ensures deletedReceivers' == pass.guard && Handled() == old(Handled()) + 1
      ensures pass.batch == old(Pop(Abs())).batch && pass.ticks == old(Pop(Abs())).ticks
    {
      RetirePops(p, Abs());
      deletedReceivers' := deletedReceivers;
      pass := Pop(Abs()).(current := [ep]);
      HandleEvent(p, ep);
      if ep.event.DeferredDelete? {
        deletedReceivers' := deletedReceivers + {ep.receiver};
      }
      pass := pass.(current := [], guard := deletedReceivers');
      if pass.draining { done := done.(drained := done.drained + [ep]); }
      else if ep.event.Tick? { done := done.(ticked := done.ticked + [ep]); }
      else { done := done.(delivered := done.delivered + [ep]); }
    }

    /** The number of events the loop has handed to receivers so far. */
    function Handled(): nat
      reads this
    {
      HandedOut(done)
    }

    method DrainQueue() returns (eventsToProcess: seq<Entry>)
      modifies this
      ensures eventsToProcess == old(mEventQueue) && Abs() == old(Abs()).(queue := [])
    {
      eventsToProcess := [];
      while mEventQueue != []
        invariant Abs() == old(Abs()).(queue := mEventQueue)
        invariant eventsToProcess + mEventQueue == old(mEventQueue)
      {
        eventsToProcess := eventsToProcess + [mEventQueue[0]];
        mEventQueue := mEventQueue[1..];
      }
    }

    /** A dispatch loop over the entries of one vector: the events first, the timer events after them. */
    method DispatchEntries(p: Program, entries: seq<Entry>, ghost isBatch: bool, deletedReceivers: set<ObjectId>)
      returns (deletedReceivers': set<ObjectId>, processedAny: bool)
      requires SetsOk(objects) && !pass.fault && deletedReceivers == pass.guard
      requires if isBatch then pass.batch == entries else pass.batch == [] && pass.ticks == entries
      modifies this
      ensures SetsOk(objects) && pass.draining == old(pass.draining) && deletedReceivers' == pass.guard
      ensures Dispatch(p, Abs()) == Dispatch(p, old(Abs()))
      ensures !pass.fault ==> pass.batch == [] && pass.ticks == if isBatch then old(pass.ticks) else []
      ensures Handled() >= old(Handled()) && (processedAny <==> Handled() > old(Handled()))
    {
      deletedReceivers', processedAny := deletedReceivers, false;
      ghost var ticks, whole := pass.ticks, Dispatch(p, Abs());
      var i := 0;
      while i < |entries| && !pass.fault
        invariant 0 <= i <= |entries| && SetsOk(objects) && Scanned(pass, entries, i, isBatch, ticks)
        invariant deletedReceivers' == pass.guard && pass.draining == old(pass.draining)
        invariant Dispatch(p, Abs()) == whole
        invariant Handled() >= old(Handled()) && (processedAny <==> Handled() > old(Handled()))
      {
        ghost var s := Abs();
        PopsEntry(s, entries, i, isBatch);
        DispatchUnfolds(p, s);
        var dispatched;
        deletedReceivers', dispatched := DispatchEntry(p, entries[i], deletedReceivers');
        ScanNext(s, pass, entries, i, isBatch, ticks);
        processedAny := processedAny || dispatched;
        i := i + 1;
      }
    }

    /** Collection, wait and the second interrupt test: everything up to draining the queue. */
    method Prepare(p: Program, before: seq<Action>, during: seq<Action>) returns (timerEventsToProcess: seq<Entry>)
      requires SetsOk(objects)
      modifies this
      ensures Abs() == AtDrain(p, old(Abs()), before, during) && timerEventsToProcess == pass.ticks
      ensures Handled() == old(Handled()) && SetsOk(objects)
    {
      Run(p, before);
      timerEventsToProcess := CollectExpired();
      if mEventQueue == [] && timerEventsToProcess == [] {
        var timeoutMs := WaitTimeout();
        mTimersChanged := false;
        Run(p, during);
        mWakeUpRequested := false;
      }
    }

    method ProcessEvents(p: Program, before: seq<Action>, during: seq<Action>) returns (processedAny: bool)
      requires SetsOk(objects)
      modifies this
      ensures Abs() == EventLoop.ProcessEvents(p, old(Abs()), before, during)
      ensures processedAny <==> Handled() > old(Handled())
    {
      if mInterrupt {
        mInterrupt := false;
        return false;
      }
      var timerEventsToProcess := Prepare(p, before, during);
      if mInterrupt {
        mInterrupt := false;
        done := done.(dropped := done.dropped + timerEventsToProcess);
        pass := pass.(ticks := []);
        return false;
      }
      ghost var atDrain := Abs();
      var eventsToProcess := DrainQueue();
      pass := Pass(eventsToProcess, timerEventsToProcess, [], {}, false, false);
      objects := objects.(killed := Strays(eventsToProcess, objects.dead));
      assert Abs() == TakeBatch(atDrain);
      var deletedReceivers, timersProcessed;
      deletedReceivers, processedAny := DispatchEntries(p, eventsToProcess, true, {});
      if !pass.fault {
        deletedReceivers, timersProcessed := DispatchEntries(p, timerEventsToProcess, false, deletedReceivers);
        processedAny := processedAny || timersProcessed;
      }
    }

    // -------------------------------------------------------------- the shutdown drain

    /** One turn of the drain loop. */
    method DrainTurn(p: Program, deletedReceivers: set<ObjectId>)
      returns (deletedReceivers': set<ObjectId>, more: bool)
      requires SetsOk(objects) && Idle(Abs()) && deletedReceivers == pass.guard
      modifies this
      ensures deletedReceivers' == pass.guard
      ensures more <==> DeferredDeletes(old(mEventQueue)) != []
      ensures Abs() == if more then Dispatch(p, Extract(old(Abs()))) else old(Abs())
    {
      ghost var s := Abs();
      var rest, deferredDeletes := EraseDeferredDeletes(mEventQueue);
      if deferredDeletes == [] {
        ExtractMembers(s.queue);
        OthersNone(s.queue);
        mEventQueue := rest;
        return deletedReceivers, false;
      }
      mEventQueue := rest;
      pass := pass.(batch := deferredDeletes);
      assert Abs() == Extract(s);
      var dispatched;
      deletedReceivers', dispatched := DispatchEntries(p, deferredDeletes, true, deletedReceivers);
      more := true;
    }

    method DrainDeferredDeletes(p: Program)
      requires Settled(Abs()) && Idle(Abs())
      modifies this
      ensures Abs() == ProcessDeferredDeletes(p, old(Abs()))
    {
      var deletedReceivers: set<ObjectId> := {};
      ghost var s, whole := DrainBegins(p, Abs());
      ghost var n := 0;
      pass := Pass([], [], [], {}, true, false);
      var more := true;
      while more && !pass.fault
        invariant Abs() == AfterTurns(p, s, n) && deletedReceivers == pass.guard
        invariant pass.fault || !more ==> Abs() == whole
        decreases more && !pass.fault, objects.universe - objects.dead
      {
        TurnFacts(p, s, n, whole);
        deletedReceivers, more := DrainTurn(p, deletedReceivers);
        n := n + 1;
      }
      pass := pass.(draining := false);
    }
  }

  // ---------------------------------------------------------------- remove_if that removes nothing

  lemma {:induction false} SameLengthSame(timers: seq<TimerData>, id: int)
    requires |Unregistered(timers, id)| == |timers|
    ensures Unregistered(timers, id) == timers
  {
    if timers != [] {
      UnregisteredLength(timers[1..], id);
      SameLengthSame(timers[1..], id);
    }
  }

  lemma {:induction false} NoneTakenSame(timers: seq<TimerData>, receiver: ObjectId)
    requires |WithoutReceiver(timers, receiver)| == |timers|
    ensures WithoutReceiver(timers, receiver) == timers
  {
    if timers != [] {
      TakeSplits(timers[1..], receiver);
      NoneTakenSame(timers[1..], receiver);
    }
  }
}
