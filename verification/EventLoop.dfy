/**
  The meaning of one thread's event loop: what every dispatcher operation, every handler and every
  destructor does to the queue, the timers, the running batch, the objects and the events.

  Handlers are arbitrary: a Program says which actions the handler of each event performs and which
  actions the cleanup callbacks of each object perform. Actions of other threads that land while the
  loop runs a handler are part of that handler's actions.
 */
module EventLoop {
  import opened Basics
  import opened TimerList

  datatype Event =
    | MetaCall(id: nat)
    | DeferredDelete(id: nat)
    | Tick(id: nat, timerId: int)

  datatype Entry = Entry(receiver: ObjectId, event: Event)

  /**
    Post is an emit whose test of the life token and whose post have nothing in between. Land is the post of an emit
    that passed its test earlier, when the receiver existed: postEvent() asks nothing about the receiver any more.
   */
  datatype Action =
    | Post(receiver: ObjectId)
    | Land(receiver: ObjectId)
    | DeleteLater(receiver: ObjectId)
    | Destroy(receiver: ObjectId)
    | Create(receiver: ObjectId)
    | StartTimer(receiver: ObjectId, intervalMs: int)
    | KillTimer(timerId: int)
    | WakeUp
    | Interrupt
    | Advance(ns: nat)

  datatype Program = Program(handler: nat -> seq<Action>, cleanup: ObjectId -> seq<Action>)

  /** What the running pass still holds: undispatched entries, the entry in dispatch, who died by it. */
  datatype Pass = Pass(
    batch: seq<Entry>, ticks: seq<Entry>, current: seq<Entry>,
    guard: set<ObjectId>, draining: bool, fault: bool)

  datatype Objects = Objects(
    universe: set<ObjectId>, live: set<ObjectId>, dying: set<ObjectId>, dead: set<ObjectId>,
    deletePosted: set<ObjectId>, killed: set<ObjectId>,
    destroyed: seq<ObjectId>)               // every destructor that has run to its end, in order

  /** Events freed by the loop itself, by the path that freed them. */
  datatype Done = Done(
    delivered: seq<Entry>, ticked: seq<Entry>, drained: seq<Entry>, dropped: seq<Entry>, abandoned: seq<Entry>)

  /** `log` lists every event ever allocated, in allocation order; `discarded` those freed with their receiver. */
  datatype World = World(
    queue: seq<Entry>, timers: seq<TimerData>,
    interrupt: bool, timersChanged: bool, wakeUpRequested: bool,
    clock: int, nextTimer: int,
    log: seq<Entry>, discarded: seq<Entry>,
    pass: Pass, objects: Objects, done: Done)

  // ---------------------------------------------------------------- queue scans

  function Of(q: seq<Entry>, receiver: ObjectId): seq<Entry>
  {
    if q == [] then []
    else (if q[0].receiver == receiver then [q[0]] else []) + Of(q[1..], receiver)
  }

  /** The entries whose receiver is not in the given set, in order. */
  function Without(q: seq<Entry>, gone: set<ObjectId>): seq<Entry>
  {
    if q == [] then []
    else (if q[0].receiver in gone then [] else [q[0]]) + Without(q[1..], gone)
  }

  function DeferredDeletes(q: seq<Entry>): seq<Entry>
  {
    if q == [] then []
    else (if q[0].event.DeferredDelete? then [q[0]] else []) + DeferredDeletes(q[1..])
  }

  function Others(q: seq<Entry>): seq<Entry>
  {
    if q == [] then []
    else (if q[0].event.DeferredDelete? then [] else [q[0]]) + Others(q[1..])
  }

  predicate Named(q: seq<Entry>, o: ObjectId)
  {
    exists e :: e in q && e.receiver == o
  }

  // ---------------------------------------------------------------- single operations

  function Enqueue(s: World, e: Entry): World
  {
    s.(queue := s.queue + [e], log := s.log + [e])
  }

  function PostTo(s: World, o: ObjectId): World
  {
    Enqueue(s, Entry(o, MetaCall(|s.log|)))
  }

  /** deleteLater(): only the first call posts. */
  function DeleteLaterOf(s: World, o: ObjectId): World
  {
    if o in s.objects.deletePosted then s
    else Enqueue(s.(objects := s.objects.(deletePosted := s.objects.deletePosted + {o})),
                 Entry(o, DeferredDelete(|s.log|)))
  }

  function RegisterTimerAt(s: World, id: int, ms: int, o: ObjectId): World
  {
    if ms < 0 then s
    else s.(timers := Registered(s.timers, id, ms, o, s.clock), timersChanged := true)
  }

  function UnregisterTimerOf(s: World, id: int): World
  {
    s.(timers := Unregistered(s.timers, id),
       timersChanged := s.timersChanged || |Unregistered(s.timers, id)| < |s.timers|)
  }

  function StripReceiver(s: World, o: ObjectId): World
  {
    s.(queue := Without(s.queue, {o}), discarded := s.discarded + Of(s.queue, o),
       timers := WithoutReceiver(s.timers, o))
  }

  /**
    ~Object() is entered: the life token is gone. Destroying an object some other way than through its
    own DeferredDelete, while the running batch still holds entries for it, is what `killed` records, together with
    those the batch named although they were dead when it was taken.
   */
  function BeginDestroy(s: World, o: ObjectId, byEvent: bool): World
  {
    var b := s.objects;
    s.(objects := b.(live := b.live - {o}, dying := b.dying + {o},
                     killed := if !byEvent && Named(s.pass.batch + s.pass.ticks, o) then b.killed + {o} else b.killed))
  }

  /** The last thing ~Object() does: strip what its cleanup callbacks may have queued. */
  function EndDestroy(s: World, o: ObjectId): World
  {
    var b := s.objects;
    StripReceiver(s.(objects := b.(dying := b.dying - {o}, dead := b.dead + {o}, destroyed := b.destroyed + [o])), o)
  }

  // ---------------------------------------------------------------- handlers and destructors

  ghost predicate SetsOk(b: Objects)
  {
    && b.live <= b.universe
    && b.live !! b.dying && b.live !! b.dead && b.dying !! b.dead
  }

  ghost predicate Grows(b: Objects, b': Objects)
  {
    b'.universe == b.universe && b'.dying == b.dying && b.dead <= b'.dead && b.killed <= b'.killed
  }

  /** What user code can and cannot change: in particular not the running pass. */
  ghost predicate Frame(s: World, r: World)
  {
    r.pass == s.pass && r.done == s.done && s.log <= r.log && Grows(s.objects, r.objects)
  }

  /** Alive, or inside its own destructor. */
  predicate Exists(b: Objects, o: ObjectId) { o in b.live || o in b.dying }

  /**
    One action other than a destruction. Actions aimed at objects that do not exist are not performed, except that a
    landing finds the dispatcher's queue whether or not its receiver is still there.
   */
  function Simple(s: World, a: Action): World
  {
    match a
    case Post(o) => if Exists(s.objects, o) then PostTo(s, o) else s
    case Land(o) => if Exists(s.objects, o) || o in s.objects.dead then PostTo(s, o) else s
    case DeleteLater(o) => if Exists(s.objects, o) then DeleteLaterOf(s, o) else s
    case Destroy(_) => s
    case Create(o) =>
      var b := s.objects;
      if o in b.universe && o !in b.live && o !in b.dying && o !in b.dead
      then s.(objects := b.(live := b.live + {o})) else s
    case StartTimer(o, ms) =>
      if Exists(s.objects, o) then RegisterTimerAt(s.(nextTimer := s.nextTimer + 1), s.nextTimer, ms, o) else s
    case KillTimer(id) => UnregisterTimerOf(s, id)
    case WakeUp => s.(wakeUpRequested := true)
    case Interrupt => s.(interrupt := true)
    case Advance(ns) => s.(clock := s.clock + ns)
  }

  lemma SimpleFrame(s: World, a: Action)
    requires SetsOk(s.objects)
    ensures SetsOk(Simple(s, a).objects) && Frame(s, Simple(s, a))
  {
  }

  ghost function Pending(b: Objects): set<ObjectId> { b.universe - b.dying - b.dead }

  function Perform(p: Program, s: World, acts: seq<Action>): (r: World)
    requires SetsOk(s.objects)
    ensures SetsOk(r.objects) && Frame(s, r)
    decreases Pending(s.objects), |acts|
  {
    if acts == [] then s
    else if acts[0].Destroy? then
      var o := acts[0].receiver;
      if o !in s.objects.live then Perform(p, s, acts[1..])
      else
        var s1 := BeginDestroy(s, o, false);
        assert o in Pending(s.objects) && o !in Pending(s1.objects);
        Perform(p, EndDestroy(Perform(p, s1, p.cleanup(o)), o), acts[1..])
    else
      SimpleFrame(s, acts[0]);
      Perform(p, Simple(s, acts[0]), acts[1..])
  }

  /** ~Object(): life token, cleanup callbacks, then the dispatcher forgets the object. */
  function DestroyObject(p: Program, s: World, o: ObjectId, byEvent: bool): (r: World)
    requires SetsOk(s.objects) && o in s.objects.live
    ensures SetsOk(r.objects) && Frame(s, r) && o in r.objects.dead
  {
    EndDestroy(Perform(p, BeginDestroy(s, o, byEvent), p.cleanup(o)), o)
  }

  function PerformOne(p: Program, s: World, a: Action): (r: World)
    requires SetsOk(s.objects)
    ensures SetsOk(r.objects) && Frame(s, r)
  {
    if a.Destroy? then (if a.receiver in s.objects.live then DestroyObject(p, s, a.receiver, false) else s)
    else SimpleFrame(s, a); Simple(s, a)
  }

  // ---------------------------------------------------------------- dispatching a batch

  predicate Idle(s: World) { s.pass.batch == [] && s.pass.ticks == [] && s.pass.current == [] && !s.pass.fault }

  function Next(s: World): Entry
    requires s.pass.batch + s.pass.ticks != []
  {
    if s.pass.batch != [] then s.pass.batch[0] else s.pass.ticks[0]
  }

  /** The pass without its next entry. */
  function Pop(s: World): Pass
    requires s.pass.batch + s.pass.ticks != []
  {
    if s.pass.batch != [] then s.pass.(batch := s.pass.batch[1..]) else s.pass.(ticks := s.pass.ticks[1..])
  }

  /** The next entry, taken into dispatch. */
  function Enter(s: World): World
    requires s.pass.batch + s.pass.ticks != []
  {
    s.(pass := Pop(s).(current := [Next(s)]))
  }

  /** The event has been handled: it is freed, and a deferred delete joins deletedReceivers. */
  function Retire(s: World, e: Entry): World
  {
    s.(pass := s.pass.(current := [],
                       guard := if e.event.DeferredDelete? then s.pass.guard + {e.receiver} else s.pass.guard),
       done := if s.pass.draining then s.done.(drained := s.done.drained + [e])
               else if e.event.Tick? then s.done.(ticked := s.done.ticked + [e])
               else s.done.(delivered := s.done.delivered + [e]))
  }

  /** Object::event() for the entry in dispatch. */
  function Handle(p: Program, s: World, e: Entry): (r: World)
    requires SetsOk(s.objects) && e.receiver in s.objects.live
    ensures SetsOk(r.objects) && Frame(s, r)
  {
    if e.event.DeferredDelete? then DestroyObject(p, s, e.receiver, true) else Perform(p, s, p.handler(e.event.id))
  }

  /**
    One turn of the dispatch loop. An entry whose receiver is gone without being in deletedReceivers
    would be dispatched to freed memory: the run is then marked faulty and stops.
   */
  function DispatchNext(p: Program, s: World): (r: World)
    requires SetsOk(s.objects) && s.pass.batch + s.pass.ticks != []
    ensures SetsOk(r.objects) && Grows(s.objects, r.objects)
    ensures r.pass.fault || (|r.pass.batch| + |r.pass.ticks| == |s.pass.batch| + |s.pass.ticks| - 1
                             && r.pass.fault == s.pass.fault)
    ensures r.pass.draining == s.pass.draining
  {
    var e := Next(s);
    if e.receiver in s.pass.guard then s.(pass := Pop(s), discarded := s.discarded + [e])
    else if e.receiver !in s.objects.live then s.(pass := s.pass.(fault := true))
    else Retire(Handle(p, Enter(s), e), e)
  }

  function Dispatch(p: Program, s: World): (r: World)
    requires SetsOk(s.objects)
    ensures SetsOk(r.objects) && Grows(s.objects, r.objects)
    ensures r.pass.fault || r.pass.batch + r.pass.ticks == []
    ensures r.pass.draining == s.pass.draining
    decreases if s.pass.fault then 0 else |s.pass.batch| + |s.pass.ticks|
  {
    if s.pass.fault || s.pass.batch + s.pass.ticks == [] then s
    else Dispatch(p, DispatchNext(p, s))
  }

  // ---------------------------------------------------------------- processEvents

  function TickEntries(expired: seq<TimerData>, firstId: nat): seq<Entry>
  {
    if expired == [] then []
    else [Entry(expired[0].receiver, Tick(firstId, expired[0].timerId))] + TickEntries(expired[1..], firstId + 1)
  }

  function CollectTicks(s: World): World
  {
    var ticks := TickEntries(Expired(s.timers, s.clock), |s.log|);
    s.(timers := Advanced(s.timers, s.clock), log := s.log + ticks, pass := s.pass.(ticks := ticks))
  }

  /** The dead receivers a queue names. */
  function Strays(q: seq<Entry>, dead: set<ObjectId>): set<ObjectId>
  {
    set e | e in q && e.receiver in dead :: e.receiver
  }

  /** The queue is drained. What it names that died before, this pass knows as little of as what it kills itself. */
  function TakeBatch(s: World): World
  {
    s.(queue := [], pass := Pass(s.queue, s.pass.ticks, [], {}, false, false),
       objects := s.objects.(killed := Strays(s.queue, s.objects.dead)))
  }

  function DropTicks(s: World): World
  {
    s.(done := s.done.(dropped := s.done.dropped + s.pass.ticks), pass := s.pass.(ticks := []))
  }

  /** The wait: whatever other threads do while the loop is blocked. */
  function Wait(p: Program, s: World, during: seq<Action>): World
    requires SetsOk(s.objects)
  {
    Perform(p, s.(timersChanged := false), during).(wakeUpRequested := false)
  }

  /** The state right before the queue is drained, or the ticks dropped. */
  function AtDrain(p: Program, s: World, before: seq<Action>, during: seq<Action>): (r: World)
    requires SetsOk(s.objects)
    ensures SetsOk(r.objects)
  {
    var s1 := CollectTicks(Perform(p, s, before));
    if s1.queue == [] && s1.pass.ticks == [] then Wait(p, s1, during) else s1
  }

  /**
    One pass. `before` is what other threads do between the first interrupt test and taking the mutex,
    `during` what they do while the loop waits.
   */
  function ProcessEvents(p: Program, s: World, before: seq<Action>, during: seq<Action>): (r: World)
    requires SetsOk(s.objects)
    ensures SetsOk(r.objects)
  {
    if s.interrupt then s.(interrupt := false)
    else
      var q := AtDrain(p, s, before, during);
      if q.interrupt then DropTicks(q.(interrupt := false))
      else Dispatch(p, TakeBatch(q))
  }

  /** ~EventDispatcherDefault(): whatever is still queued is freed undelivered. */
  function Teardown(s: World): World
  {
    s.(done := s.done.(abandoned := s.done.abandoned + s.queue), queue := [])
  }
}
