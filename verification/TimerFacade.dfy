/**
  The Timer object: activations, stale ticks and single-shot order.

  A tick is whatever timer event reaches timerEvent(), in any number and order: the dispatcher may have collected
  ticks of an activation that has ended since. Slots run last in timerEvent(), so what a slot does to its own timer
  is the next step of a run.
 */
module TimerFacade {

  const NO_TIMER := -1

  /** Whether a call is made on the timer's own thread, and whether that thread has a dispatcher. */
  datatype Place = Place(ownThread: bool, hasDispatcher: bool)

  datatype State = State(
    timerId: int,
    active: bool,
    interval: int,
    singleShot: bool,
    nextId: int,            // the counter shared by all objects
    registered: map<int, int>, // the ids of this timer that a dispatcher holds, with their intervals
    emitted: seq<int>       // the tick behind each emission of timeout
  )

  datatype Op =
    | Start(at: Place)
    | Stop(at: Place)
    | SetInterval(ms: int)
    | SetSingleShot(on: bool)
    | Tick(id: int)
    | OthersTakeIds(count: nat)

  function StopOf(s: State, at: Place): State
  {
    if s.active && s.timerId != NO_TIMER then
      s.(timerId := NO_TIMER, active := false,
         registered := if at.ownThread && at.hasDispatcher then s.registered - {s.timerId} else s.registered)
    else s
  }

  function StartOf(s: State, at: Place): State
  {
    var t := StopOf(s, at);
    if at.ownThread && at.hasDispatcher then
      t.(timerId := t.nextId, active := t.nextId != NO_TIMER, nextId := t.nextId + 1,
         registered := if t.interval >= 0 then t.registered[t.nextId := t.interval] else t.registered)
    else t.(timerId := NO_TIMER, active := false)
  }

  /** timerEvent() runs on the timer's own thread, for a dispatcher's tick. */
  const HERE := Place(true, true)

  function TickOf(s: State, id: int): State
  {
    if id != s.timerId then s
    else
      var t := if s.singleShot then StopOf(s, HERE) else s;
      t.(emitted := t.emitted + [id])
  }

  function Next(s: State, op: Op): State
  {
    match op
    case Start(at) => StartOf(s, at)
    case Stop(at) => StopOf(s, at)
    case SetInterval(ms) => s.(interval := ms)
    case SetSingleShot(on) => s.(singleShot := on)
    case Tick(id) => TickOf(s, id)
    case OthersTakeIds(count) => s.(nextId := s.nextId + count)
  }

  function Run(s: State, ops: seq<Op>): State
    decreases |ops|
  {
    if ops == [] then s else Run(Next(s, ops[0]), ops[1..])
  }

  function Emissions(s: State, id: int): nat { multiset(s.emitted)[id] }

  predicate Valid(s: State)
  {
    && s.nextId >= 1
    && (s.active <==> s.timerId != NO_TIMER)
    && (s.active ==> 1 <= s.timerId < s.nextId)
    && (forall id :: id in s.registered ==> 1 <= id < s.nextId)
  }

  lemma NextKeepsValid(s: State, op: Op)
    requires Valid(s)
    ensures Valid(Next(s, op)) && Next(s, op).nextId >= s.nextId
  {
  }

  lemma {:induction false} RunKeepsValid(s: State, ops: seq<Op>)
    requires Valid(s)
    ensures Valid(Run(s, ops))
    decreases |ops|
  {
    if ops != [] {
      NextKeepsValid(s, ops[0]);
      RunKeepsValid(Next(s, ops[0]), ops[1..]);
    }
  }

  /** timeout is emitted exactly for a tick of the current activation, of a timer that is active. */
  lemma EmitsIffCurrent(s: State, op: Op)
    requires Valid(s) && (op.Tick? ==> op.id >= 1)
    ensures Next(s, op).emitted == s.emitted || Next(s, op).emitted == s.emitted + [s.timerId]
    ensures Next(s, op).emitted != s.emitted <==> op == Tick(s.timerId) && s.active
  {
    if op.Tick? && op.id == s.timerId {
      assert |Next(s, op).emitted| == |s.emitted| + 1;
    }
  }

  lemma StaleStep(s: State, op: Op, id: int)
    requires Valid(s) && 1 <= id < s.nextId && s.timerId != id
    ensures Next(s, op).timerId != id && Emissions(Next(s, op), id) == Emissions(s, id)
  {
  }

  /**
    start() on the timer's own thread begins an activation: the timer is active under an id never issued before,
    registered unless the interval is negative, and the next tick of that id is emitted.
   */
  lemma StartActivates(s: State)
    requires Valid(s)
    ensures var t := Next(s, Start(HERE));
            && t.active && t.timerId >= s.nextId && t.nextId > t.timerId && t.interval == s.interval
            && (t.timerId in t.registered <==> s.interval >= 0)
            && (s.interval >= 0 ==> t.registered[t.timerId] == s.interval)
            && t.registered - {t.timerId} == (if s.active then s.registered - {s.timerId} else s.registered)
            && t.emitted == s.emitted && Next(t, Tick(t.timerId)).emitted == s.emitted + [t.timerId]
  {
  }

  /** Elsewhere, or before there is a dispatcher, it leaves the timer inactive, issues no id and registers nothing. */
  lemma StartElsewhere(s: State, at: Place)
    requires Valid(s) && at != HERE
    ensures var t := Next(s, Start(at));
            !t.active && t.timerId == NO_TIMER && t.nextId == s.nextId && t.registered == s.registered
            && t.emitted == s.emitted
  {
  }

  /** Left running, an activation emits once for every tick of its own that arrives, and for no other. */
  lemma {:induction false} RepeatsForEveryTick(s: State, ticks: seq<int>)
    requires Valid(s) && s.active && !s.singleShot
    ensures var t := Run(s, Ticks(ticks));
            && t == s.(emitted := t.emitted) && |t.emitted| == |s.emitted| + multiset(ticks)[s.timerId]
            && Emissions(t, s.timerId) == Emissions(s, s.timerId) + multiset(ticks)[s.timerId]
    decreases |ticks|
  {
    if ticks != [] {
      assert ticks == [ticks[0]] + ticks[1..];
      assert Ticks(ticks)[1..] == Ticks(ticks[1..]);
      RepeatsForEveryTick(Next(s, Tick(ticks[0])), ticks[1..]);
    }
  }

  /** An interval set now is that of the next start(); the registration there is keeps its own. */
  lemma IntervalCountsFromStart(s: State, ms: int)
    requires Valid(s)
    ensures var t := Next(s, SetInterval(ms));
            t.registered == s.registered && t.timerId == s.timerId && t.active == s.active
            && var u := Next(t, Start(HERE));
               if ms >= 0 then u.timerId in u.registered && u.registered[u.timerId] == ms
               else u.timerId !in u.registered
  {
    StartActivates(Next(s, SetInterval(ms)));
  }

  /** The mode in force when a tick arrives decides whether it is the last of its activation. */
  lemma ModeDecides(s: State, single: bool)
    requires Valid(s) && s.active
    ensures var t := Next(Next(s, SetSingleShot(single)), Tick(s.timerId));
            && t.emitted == s.emitted + [s.timerId] && (t.active <==> !single)
            && Next(t, Tick(s.timerId)).emitted == if single then t.emitted else t.emitted + [s.timerId]
  {
  }

  function Ticks(ids: seq<int>): seq<Op> { seq(|ids|, i requires 0 <= i < |ids| => Tick(ids[i])) }

  /** An activation that has ended never emits again, whatever ticks of it are still to come. */
  lemma {:induction false} StaleTicksAreIgnored(s: State, ops: seq<Op>, id: int)
    requires Valid(s) && 1 <= id < s.nextId && s.timerId != id
    ensures Emissions(Run(s, ops), id) == Emissions(s, id) && Run(s, ops).timerId != id
    decreases |ops|
  {
    if ops != [] {
      StaleStep(s, ops[0], id);
      NextKeepsValid(s, ops[0]);
      StaleTicksAreIgnored(Next(s, ops[0]), ops[1..], id);
    }
  }

  /** Starting again or stopping ends the present activation. */
  lemma RestartEndsActivation(s: State, op: Op, ops: seq<Op>)
    requires Valid(s) && s.active && (op.Start? || op.Stop?)
    ensures Emissions(Run(Next(s, op), ops), s.timerId) == Emissions(s, s.timerId)
  {
    NextKeepsValid(s, op);
    StaleTicksAreIgnored(Next(s, op), ops, s.timerId);
  }

  /**
    A single-shot emission finds its timer already inactive, unregistered, and is the last of its activation, even
    if the slot changes the mode or more ticks of it are in the batch.
   */
  lemma SingleShotEmitsLast(s: State, ops: seq<Op>)
    requires Valid(s) && s.active && s.singleShot
    ensures var t := Next(s, Tick(s.timerId));
            && !t.active && s.timerId !in t.registered
            && Emissions(t, s.timerId) == Emissions(s, s.timerId) + 1
            && Emissions(Run(t, ops), s.timerId) == Emissions(t, s.timerId)
  {
    NextKeepsValid(s, Tick(s.timerId));
    StaleTicksAreIgnored(Next(s, Tick(s.timerId)), ops, s.timerId);
  }

  /** A single-shot activation emits at most once over any run that leaves it single-shot. */
  lemma {:induction false} SingleShotEmitsOnce(s: State, ops: seq<Op>)
    requires Valid(s) && s.active && s.singleShot && SetSingleShot(false) !in ops
    ensures Emissions(Run(s, ops), s.timerId) <= Emissions(s, s.timerId) + 1
    decreases |ops|
  {
    if ops != [] {
      var t, rest := Next(s, ops[0]), ops[1..];
      assert ops[0] in ops && forall op :: op in rest ==> op in ops;
      NextKeepsValid(s, ops[0]);
      if t.timerId == s.timerId {
        assert Emissions(t, s.timerId) == Emissions(s, s.timerId);
        SingleShotEmitsOnce(t, rest);
      } else {
        StaleTicksAreIgnored(t, rest, s.timerId);
      }
    }
  }

  predicate AtHome(op: Op)
  {
    (op.Start? || op.Stop? ==> op.at.ownThread && op.at.hasDispatcher) && (op.SetInterval? ==> op.ms >= 0)
  }

  /**
    Used on its own thread with intervals that are not negative, a timer holds one registration while active and none
    after.
   */
  lemma {:induction false} NoRegistrationIsLeftBehind(s: State, ops: seq<Op>)
    requires Valid(s) && s.interval >= 0 && s.registered.Keys == (if s.active then {s.timerId} else {})
    requires forall op :: op in ops ==> AtHome(op)
    ensures var t := Run(s, ops); t.registered.Keys == if t.active then {t.timerId} else {}
    decreases |ops|
  {
    if ops != [] {
      assert AtHome(ops[0]) by { assert ops[0] in ops; }
      assert forall op :: op in ops[1..] ==> op in ops;
      NextKeepsValid(s, ops[0]);
      HomeStep(s, ops[0]);
      NoRegistrationIsLeftBehind(Next(s, ops[0]), ops[1..]);
    }
  }

  lemma HomeStep(s: State, op: Op)
    requires Valid(s) && s.interval >= 0 && s.registered.Keys == (if s.active then {s.timerId} else {}) && AtHome(op)
    ensures var t := Next(s, op); t.interval >= 0 && t.registered.Keys == if t.active then {t.timerId} else {}
  {
  }

  /** stop() off the timer's thread leaves the dispatcher's timer running, if and only if there was one to stop. */
  lemma StopElsewhereIff(s: State, hasDispatcher: bool)
    requires Valid(s) && s.registered.Keys == if s.active then {s.timerId} else {}
    ensures var t := Next(s, Stop(Place(false, hasDispatcher)));
            !t.active && (t.registered == map[] <==> !s.active)
  {
  }

  // ---------------------------------------------------------------- the object itself

  class Timer {
    var mTimerId: int
    var mActive: bool
    var mInterval: int
    var mSingleShot: bool
    var nextId: int
    var registered: map<int, int>
    var emitted: seq<int>

    ghost function Abs(): State
      reads this
    {
      State(mTimerId, mActive, mInterval, mSingleShot, nextId, registered, emitted)
    }

    constructor (firstId: int)
      requires firstId >= 1
      ensures Abs() == State(NO_TIMER, false, 0, false, firstId, map[], []) && Valid(Abs())
    {
      mTimerId, mActive, mInterval, mSingleShot := NO_TIMER, false, 0, false;
      nextId, registered, emitted := firstId, map[], [];
    }

    /** Object::startTimer() for this object. */
    method StartTimer(aInterval: int, at: Place) returns (id: int)
      modifies `nextId, `registered
      ensures if at.ownThread && at.hasDispatcher
              then id == old(nextId) && nextId == id + 1
                   && registered == (if aInterval >= 0 then old(registered)[id := aInterval] else old(registered))
              else id == NO_TIMER && nextId == old(nextId) && registered == old(registered)
    {
      if !at.ownThread || !at.hasDispatcher {
        return NO_TIMER;
      }
      id := nextId;
      nextId := nextId + 1;
      if aInterval >= 0 {
        registered := registered[id := aInterval];
      }
    }

    /** Object::killTimer() for this object. */
    method KillTimer(id: int, at: Place)
      modifies `registered
      ensures registered == if at.ownThread && at.hasDispatcher then old(registered) - {id} else old(registered)
    {
      if at.ownThread && at.hasDispatcher {
        registered := registered - {id};
      }
    }

    method SetInterval(aMsec: int)
      modifies `mInterval
      ensures Abs() == Next(old(Abs()), Op.SetInterval(aMsec))
    {
      mInterval := aMsec;
    }

    method SetSingleShot(aSingleShot: bool)
      modifies `mSingleShot
      ensures Abs() == Next(old(Abs()), Op.SetSingleShot(aSingleShot))
    {
      mSingleShot := aSingleShot;
    }

    method Stop(at: Place)
      modifies this
      ensures Abs() == Next(old(Abs()), Op.Stop(at))
    {
      if mActive && mTimerId != NO_TIMER {
        KillTimer(mTimerId, at);
        mTimerId := NO_TIMER;
        mActive := false;
      }
    }

    method Start(at: Place)
      modifies this
      ensures Abs() == Next(old(Abs()), Op.Start(at))
    {
      Stop(at);
      mTimerId := StartTimer(mInterval, at);
      mActive := mTimerId != NO_TIMER;
    }

    method StartWith(aMsec: int, at: Place)
      modifies this
      ensures Abs() == Next(Next(old(Abs()), Op.SetInterval(aMsec)), Op.Start(at))
    {
      mInterval := aMsec;
      Start(at);
    }

    method TimerEvent(id: int)
      modifies this
      ensures Abs() == Next(old(Abs()), Tick(id))
    {
      if id != mTimerId {
        return;
      }
      if mSingleShot {
        Stop(HERE);
      }
      emitted := emitted + [id];
    }
  }
}
