/**
  Whole runs of one thread's event loop: any sequence of passes, shutdown drains and actions of other
  threads in between, for any program.
 */
module EventLoopRuns {
  import opened Basics
  import opened TimerList
  import opened EventLoop
  import opened EventLoopSafety
  import opened DeferredDeletion
  import opened EventFates
  import opened LateLandings
  import opened DirectDeletion

  datatype Op =
    | Between(acts: seq<Action>)
    | OnePass(before: seq<Action>, during: seq<Action>)
    | Drain

  ghost function Step(p: Program, s: World, op: Op): World
    requires Settled(s) && Idle(s)
  {
    match op
    case Between(acts) => Perform(p, s, acts)
    case OnePass(before, during) => ProcessEvents(p, s, before, during)
    case Drain => ProcessDeferredDeletes(p, s)
  }

  /** The state a fresh dispatcher starts from, for objects that may already exist. */
  function Initial(universe: set<ObjectId>, live: set<ObjectId>, clock: int): World
  {
    World([], [], false, false, false, clock, 1, [], [],
          Pass([], [], [], {}, false, false),
          Objects(universe, live, {}, {}, {}, {}, []), Done([], [], [], [], []))
  }

  lemma StepSafe(p: Program, s: World, op: Op)
    requires Settled(s) && Idle(s)
    ensures var r := Step(p, s, op);
            && (r.pass.fault <==> r.objects.killed != {})
            && (!r.pass.fault ==> Settled(r) && Idle(r))
  {
    match op {
      case Between(acts) =>
        PerformKeeps(p, s, acts);
        IdleKillsNobody(Perform(p, s, acts));
      case OnePass(before, during) => ProcessEventsSafe(p, s, before, during);
      case Drain => DrainCompletes(p, s);
    }
  }

  /** A run stops at its first fault. */
  ghost function Run(p: Program, s: World, ops: seq<Op>): World
    requires Settled(s) && Idle(s)
    decreases |ops|
  {
    if ops == [] then s
    else
      StepSafe(p, s, ops[0]);
      var s' := Step(p, s, ops[0]);
      if s'.pass.fault then s' else Run(p, s', ops[1..])
  }

  lemma InitialSettled(universe: set<ObjectId>, live: set<ObjectId>, clock: int)
    requires live <= universe
    ensures Settled(Initial(universe, live, clock)) && Idle(Initial(universe, live, clock))
  {
    var s := Initial(universe, live, clock);
    assert InFlight(s.pass) == [];
    assert Held(s) == multiset{} && Freed(s) == multiset{};
  }

  ghost function RunFromStart(p: Program, universe: set<ObjectId>, live: set<ObjectId>, clock: int, ops: seq<Op>): World
    requires live <= universe
  {
    InitialSettled(universe, live, clock);
    Run(p, Initial(universe, live, clock), ops)
  }

  /** A run faults exactly when it has recorded some object as killed. Every other run keeps every invariant. */
  lemma {:induction false} RunSafe(p: Program, s: World, ops: seq<Op>)
    requires Settled(s) && Idle(s)
    ensures var r := Run(p, s, ops);
            && (r.pass.fault <==> r.objects.killed != {})
            && (!r.pass.fault ==> Settled(r) && Idle(r))
    decreases |ops|
  {
    if ops == [] {
      IdleKillsNobody(s);
    } else {
      StepSafe(p, s, ops[0]);
      var s' := Step(p, s, ops[0]);
      if !s'.pass.fault { RunSafe(p, s', ops[1..]); }
    }
  }

  // ---------------------------------------------------------------- when a run is safe

  ghost predicate StepStrikes(p: Program, s: World, op: Op)
    requires Settled(s) && Idle(s)
  {
    match op
    case Between(_) => false
    case OnePass(before, during) => PassStrikes(p, s, before, during)
    case Drain => (StartKeeps(s); DrainStrikes(p, StartDrain(s)))
  }

  ghost predicate RunStrikes(p: Program, s: World, ops: seq<Op>)
    requires Settled(s) && Idle(s)
    decreases |ops|
  {
    ops != [] &&
    (StepSafe(p, s, ops[0]);
     var s' := Step(p, s, ops[0]);
     StepStrikes(p, s, ops[0]) || (!s'.pass.fault && RunStrikes(p, s', ops[1..])))
  }

  ghost predicate StepMeetsStray(p: Program, s: World, op: Op)
    requires Settled(s) && Idle(s)
  {
    op.OnePass? && PassMeetsStray(p, s, op.before, op.during)
  }

  /** Some pass of the run drains a queue that names a dead object. */
  ghost predicate RunMeetsStray(p: Program, s: World, ops: seq<Op>)
    requires Settled(s) && Idle(s)
    decreases |ops|
  {
    ops != [] &&
    (StepSafe(p, s, ops[0]);
     var s' := Step(p, s, ops[0]);
     StepMeetsStray(p, s, ops[0]) || (!s'.pass.fault && RunMeetsStray(p, s', ops[1..])))
  }

  lemma StepFaultsIff(p: Program, s: World, op: Op)
    requires Settled(s) && Idle(s)
    ensures Step(p, s, op).pass.fault <==> StepStrikes(p, s, op) || StepMeetsStray(p, s, op)
  {
    match op {
      case Between(acts) =>
      case OnePass(before, during) => PassFaultsIff(p, s, before, during);
      case Drain => DrainFaultsIff(p, s);
    }
  }

  lemma DrainFaultsIff(p: Program, s: World)
    requires Settled(s) && Idle(s)
    ensures Step(p, s, Op.Drain).pass.fault <==> StepStrikes(p, s, Op.Drain)
  {
    StartKeeps(s);
    DrainLoopFaultsIff(p, StartDrain(s));
  }

  /**
    A run touches a dead object if and only if some turn of some pass or drain destroys directly an object that the
    entries after it still name, or some pass drains an event that landed after its receiver's destructor.
   */
  lemma {:induction false} RunFaultsIff(p: Program, s: World, ops: seq<Op>)
    requires Settled(s) && Idle(s)
    ensures Run(p, s, ops).pass.fault <==> RunStrikes(p, s, ops) || RunMeetsStray(p, s, ops)
    decreases |ops|
  {
    if ops != [] {
      StepSafe(p, s, ops[0]);
      StepFaultsIff(p, s, ops[0]);
      var s' := Step(p, s, ops[0]);
      if !s'.pass.fault {
        RunFaultsIff(p, s', ops[1..]);
      }
    }
  }

  // ---------------------------------------------------------------- emits that land late

  ghost predicate StepLandsLate(p: Program, s: World, op: Op)
    requires Settled(s) && Idle(s)
  {
    match op
    case Between(acts) => LandsLate(p, s, acts)
    case OnePass(before, during) => PassLandsLate(p, s, before, during)
    case Drain => (StartKeeps(s); DrainLandsLate(p, StartDrain(s)))
  }

  /** Some emit of the run posts after the destructor of its receiver has ended. */
  ghost predicate RunLandsLate(p: Program, s: World, ops: seq<Op>)
    requires Settled(s) && Idle(s)
    decreases |ops|
  {
    ops != [] &&
    (StepSafe(p, s, ops[0]);
     var s' := Step(p, s, ops[0]);
     StepLandsLate(p, s, ops[0]) || (!s'.pass.fault && RunLandsLate(p, s', ops[1..])))
  }

  lemma StepStrayIff(p: Program, s: World, op: Op)
    requires Settled(s) && Idle(s) && !StepMeetsStray(p, s, op)
    ensures HasStray(Step(p, s, op)) <==> HasStray(s) || StepLandsLate(p, s, op)
  {
    match op {
      case Between(acts) => PerformStrayIff(p, s, acts);
      case OnePass(before, during) => PassStrayIff(p, s, before, during);
      case Drain => DrainStrayIff(p, s);
    }
  }

  lemma MetStrayLandedLate(p: Program, s: World, op: Op)
    requires Settled(s) && Idle(s) && !HasStray(s) && StepMeetsStray(p, s, op)
    ensures StepLandsLate(p, s, op)
  {
    AtDrainStrayIff(p, s, op.before, op.during);
  }

  /** A run that does not fault ends with a stray queued exactly if it began with one or something landed late. */
  lemma {:induction false} RunStrayIff(p: Program, s: World, ops: seq<Op>)
    requires Settled(s) && Idle(s)
    ensures !Run(p, s, ops).pass.fault ==> (HasStray(Run(p, s, ops)) <==> HasStray(s) || RunLandsLate(p, s, ops))
    decreases |ops|
  {
    if ops != [] {
      StepSafe(p, s, ops[0]);
      StepFaultsIff(p, s, ops[0]);
      var s' := Step(p, s, ops[0]);
      if !s'.pass.fault {
        StepStrayIff(p, s, ops[0]);
        RunStrayIff(p, s', ops[1..]);
      }
    }
  }

  /** A pass meets a stray only if something landed late in this run. */
  lemma {:induction false} StraysLandedLate(p: Program, s: World, ops: seq<Op>)
    requires Settled(s) && Idle(s) && !HasStray(s) && RunMeetsStray(p, s, ops)
    ensures RunLandsLate(p, s, ops)
    decreases |ops|
  {
    StepSafe(p, s, ops[0]);
    if StepMeetsStray(p, s, ops[0]) {
      MetStrayLandedLate(p, s, ops[0]);
    } else {
      StepStrayIff(p, s, ops[0]);
      if !StepLandsLate(p, s, ops[0]) { StraysLandedLate(p, Step(p, s, ops[0]), ops[1..]); }
    }
  }

  ghost predicate OpSpares(op: Op, mortal: iset<ObjectId>)
  {
    match op
    case Between(acts) => Spares(acts, mortal)
    case OnePass(before, during) => Spares(before, mortal) && Spares(during, mortal)
    case Drain => true
  }

  lemma StepMortals(p: Program, s: World, op: Op, mortal: iset<ObjectId>)
    requires Settled(s) && Idle(s) && OnlyMortalsDie(s, mortal) && Separate(p, mortal) && OpSpares(op, mortal)
    ensures !StepLandsLate(p, s, op) && OnlyMortalsDie(Step(p, s, op), mortal)
  {
    match op {
      case Between(acts) => SeparateNeverLandsLate(p, s, acts, mortal);
      case OnePass(before, during) => PassMortals(p, s, before, during, mortal);
      case Drain => DrainMortals(p, s, mortal);
    }
  }

  /** A run in which racing emits and deletions have different targets has no late landing. */
  lemma {:induction false} SeparateRunsLandInTime(p: Program, s: World, ops: seq<Op>, mortal: iset<ObjectId>)
    requires Settled(s) && Idle(s) && OnlyMortalsDie(s, mortal) && Separate(p, mortal)
    requires forall i :: 0 <= i < |ops| ==> OpSpares(ops[i], mortal)
    ensures !RunLandsLate(p, s, ops)
    decreases |ops|
  {
    if ops != [] {
      StepSafe(p, s, ops[0]);
      StepMortals(p, s, ops[0], mortal);
      var s' := Step(p, s, ops[0]);
      assert forall i :: 0 <= i < |ops[1..]| ==> ops[1..][i] == ops[i + 1];
      if !s'.pass.fault { SeparateRunsLandInTime(p, s', ops[1..], mortal); }
    }
  }

  // ---------------------------------------------------------------- programs that cannot strike

  predicate OpAims(op: Op, quiet: set<ObjectId>)
  {
    match op
    case Between(acts) => AllAim(acts, quiet)
    case OnePass(before, during) => AllAim(before, quiet) && AllAim(during, quiet)
    case Drain => true
  }

  lemma StepQuiet(p: Program, s: World, op: Op, quiet: set<ObjectId>)
    requires Settled(s) && Idle(s) && Careful(p, quiet) && Quiet(s, quiet) && OpAims(op, quiet)
    ensures !StepStrikes(p, s, op) && Quiet(Step(p, s, op), quiet)
  {
    match op {
      case Between(acts) => PerformQuiet(p, s, acts, quiet);
      case OnePass(before, during) => PassQuiet(p, s, before, during, quiet);
      case Drain => DrainQuiet(p, s, quiet);
    }
  }

  /** Over any run a careful program faults, if at all, by an emit that landed late. */
  lemma {:induction false} CarefulRunNeverStrikes(p: Program, s: World, ops: seq<Op>, quiet: set<ObjectId>)
    requires Settled(s) && Idle(s) && Careful(p, quiet) && Quiet(s, quiet)
    requires forall i :: 0 <= i < |ops| ==> OpAims(ops[i], quiet)
    ensures !RunStrikes(p, s, ops)
    decreases |ops|
  {
    if ops != [] {
      StepSafe(p, s, ops[0]);
      StepQuiet(p, s, ops[0], quiet);
      var s' := Step(p, s, ops[0]);
      assert forall i :: 0 <= i < |ops[1..]| ==> ops[1..][i] == ops[i + 1];
      if !s'.pass.fault { CarefulRunNeverStrikes(p, s', ops[1..], quiet); }
    }
  }

  /** No handler and no cleanup callback destroys an object directly; deleteLater() is what they use. */
  ghost predicate NeverDestroysDirectly(p: Program)
  {
    && (forall id, a :: a in p.handler(id) ==> !a.Destroy?)
    && (forall o, a :: a in p.cleanup(o) ==> !a.Destroy?)
  }

  // ---------------------------------------------------------------- what a run promises

  lemma StepFates(p: Program, s: World, op: Op)
    requires Settled(s) && Idle(s) && Fates(s) && !s.pass.draining
    ensures Fates(Step(p, s, op)) && !Step(p, s, op).pass.draining
  {
    match op {
      case Between(acts) => PerformFates(p, s, acts);
      case OnePass(before, during) => ProcessEventsFates(p, s, before, during);
      case Drain => DrainFates(p, s);
    }
  }

  lemma {:induction false} RunFates(p: Program, s: World, ops: seq<Op>)
    requires Settled(s) && Idle(s) && Fates(s) && !s.pass.draining
    ensures Fates(Run(p, s, ops))
    decreases |ops|
  {
    if ops != [] {
      StepSafe(p, s, ops[0]);
      StepFates(p, s, ops[0]);
      var s' := Step(p, s, ops[0]);
      if !s'.pass.fault {
        RunFates(p, s', ops[1..]);
      }
    }
  }

  /**
    The ends of a posted event, exactly one of which it has met: still queued, delivered, discarded with its
    receiver, or extracted by a drain, which takes only deferred deletes.
   */
  ghost predicate MetOneEnd(r: World, e: Entry)
  {
    && multiset(r.queue)[e] + multiset(r.done.delivered)[e] + multiset(r.discarded)[e]
       + multiset(r.done.drained)[e] == 1
    && (e in r.discarded ==> e.receiver in r.objects.dead)
    && (e in r.done.drained ==> e.event.DeferredDelete?)
  }

  /** What holds between passes, in the words of the program. */
  ghost predicate Promises(r: World)
  {
    // the timer list names no object that is gone, and the queue none but by a stray
    && (forall e :: e in r.queue ==>
          e.receiver in r.objects.live || (e.receiver in r.objects.dead && e.event.MetaCall?))
    && (forall t :: t in r.timers ==> t.receiver in r.objects.live)
    // posted events are delivered in the order they were posted
    && Ascending(r.done.delivered)
    // every posted event has met exactly one end
    && (forall e :: e in r.log && !e.event.Tick? ==> MetOneEnd(r, e))
    // a tick is freed, once, in the pass that collected it
    && (forall e :: e in r.log && e.event.Tick? ==> e !in r.queue && Freed(r)[e] == 1)
    // no destructor ran twice, and the dead are those whose destructor ran
    && Once(r.objects) && r.objects.live !! r.objects.dead
  }

  lemma EndOfEvent(r: World, e: Entry)
    requires Settled(r) && Idle(r) && Fates(r) && e in r.log
    ensures e.event.Tick? ==> e !in r.queue && Freed(r)[e] == 1
    ensures !e.event.Tick? ==> MetOneEnd(r, e)
  {
    OnePlace(r, e);
    assert Held(r) == multiset(r.queue);
  }

  lemma KeepsPromises(r: World)
    requires Settled(r) && Idle(r) && Fates(r)
    ensures Promises(r)
  {
    forall e | e in r.log
      ensures e.event.Tick? ==> e !in r.queue && Freed(r)[e] == 1
      ensures !e.event.Tick? ==> MetOneEnd(r, e)
    {
      EndOfEvent(r, e);
    }
  }

  lemma InitialFates(universe: set<ObjectId>, live: set<ObjectId>, clock: int)
    ensures Fates(Initial(universe, live, clock)) && Quiet(Initial(universe, live, clock), universe)
  {
  }

  /** The run from a fresh dispatcher, and what it does and does not meet. */
  ghost predicate StrikesFromStart(p: Program, universe: set<ObjectId>, live: set<ObjectId>, clock: int,
                                   ops: seq<Op>)
    requires live <= universe
  {
    InitialSettled(universe, live, clock);
    RunStrikes(p, Initial(universe, live, clock), ops)
  }

  ghost predicate MeetsStrayFromStart(p: Program, universe: set<ObjectId>, live: set<ObjectId>, clock: int,
                                      ops: seq<Op>)
    requires live <= universe
  {
    InitialSettled(universe, live, clock);
    RunMeetsStray(p, Initial(universe, live, clock), ops)
  }

  ghost predicate LandsLateFromStart(p: Program, universe: set<ObjectId>, live: set<ObjectId>, clock: int,
                                     ops: seq<Op>)
    requires live <= universe
  {
    InitialSettled(universe, live, clock);
    RunLandsLate(p, Initial(universe, live, clock), ops)
  }

  lemma RunFromStartFacts(p: Program, universe: set<ObjectId>, live: set<ObjectId>, clock: int, ops: seq<Op>)
    requires live <= universe
    ensures var r := RunFromStart(p, universe, live, clock, ops);
            && (r.pass.fault <==>
                  || StrikesFromStart(p, universe, live, clock, ops)
                  || MeetsStrayFromStart(p, universe, live, clock, ops))
            && (!r.pass.fault ==> Settled(r) && Idle(r) && Fates(r))
  {
    InitialSettled(universe, live, clock);
    InitialFates(universe, live, clock);
    var s := Initial(universe, live, clock);
    RunFaultsIff(p, s, ops);
    RunSafe(p, s, ops);
    RunFates(p, s, ops);
  }

  /**
    Every run that does not fault keeps every promise, and its queue names only live objects if and only if no emit
    has landed late. A run in which none lands late faults if and only if it strikes the batch.
   */
  lemma RunPromises(p: Program, universe: set<ObjectId>, live: set<ObjectId>, clock: int, ops: seq<Op>)
    requires live <= universe
    ensures var r := RunFromStart(p, universe, live, clock, ops);
            && (r.pass.fault <==>
                  || StrikesFromStart(p, universe, live, clock, ops)
                  || MeetsStrayFromStart(p, universe, live, clock, ops))
            && (MeetsStrayFromStart(p, universe, live, clock, ops) ==>
                  LandsLateFromStart(p, universe, live, clock, ops))
            && (!r.pass.fault ==>
                  Promises(r) && (HasStray(r) <==> LandsLateFromStart(p, universe, live, clock, ops)))
  {
    InitialSettled(universe, live, clock);
    RunFromStartFacts(p, universe, live, clock, ops);
    var s := Initial(universe, live, clock);
    assert !HasStray(s);
    if RunMeetsStray(p, s, ops) { StraysLandedLate(p, s, ops); }
    RunStrayIff(p, s, ops);
    if !Run(p, s, ops).pass.fault {
      KeepsPromises(Run(p, s, ops));
    }
  }

  /**
    A program that destroys directly, from its handlers and cleanup callbacks, only objects that are never sent an
    event or given a timer keeps every promise over every run in which no emit lands late, whatever is destroyed
    between passes.
   */
  lemma CarefulProgramsKeepPromises(p: Program, quiet: set<ObjectId>, universe: set<ObjectId>, live: set<ObjectId>,
                                    clock: int, ops: seq<Op>)
    requires live <= universe && Careful(p, quiet) && forall i :: 0 <= i < |ops| ==> OpAims(ops[i], quiet)
    requires !LandsLateFromStart(p, universe, live, clock, ops)
    ensures var r := RunFromStart(p, universe, live, clock, ops); !r.pass.fault && Promises(r) && !HasStray(r)
  {
    InitialSettled(universe, live, clock);
    CarefulRunNeverStrikes(p, Initial(universe, live, clock), ops, quiet);
    RunPromises(p, universe, live, clock, ops);
  }

  /** In particular a program that deletes by deleteLater() only, as long as no emit loses against a destructor. */
  lemma DeleteLaterIsEnough(p: Program, universe: set<ObjectId>, live: set<ObjectId>, clock: int, ops: seq<Op>)
    requires live <= universe && NeverDestroysDirectly(p)
    requires !LandsLateFromStart(p, universe, live, clock, ops)
    ensures var r := RunFromStart(p, universe, live, clock, ops); !r.pass.fault && Promises(r) && !HasStray(r)
  {
    CarefulProgramsKeepPromises(p, {}, universe, live, clock, ops);
  }

  /** None does where the objects that emits may race for are not the ones that are deleted: no condition on the run. */
  lemma SeparateTargetsAreEnough(p: Program, mortal: iset<ObjectId>, universe: set<ObjectId>, live: set<ObjectId>,
                                 clock: int, ops: seq<Op>)
    requires live <= universe && NeverDestroysDirectly(p)
    requires Separate(p, mortal) && forall i :: 0 <= i < |ops| ==> OpSpares(ops[i], mortal)
    ensures var r := RunFromStart(p, universe, live, clock, ops); !r.pass.fault && Promises(r) && !HasStray(r)
  {
    InitialSettled(universe, live, clock);
    SeparateRunsLandInTime(p, Initial(universe, live, clock), ops, mortal);
    DeleteLaterIsEnough(p, universe, live, clock, ops);
  }

  lemma {:induction false} OnceInLog(log: seq<Entry>, e: Entry)
    requires Numbered(log) && e in log
    ensures multiset(log)[e] == 1
  {
    var n := |log| - 1;
    assert log == log[..n] + [log[n]];
    if e == log[n] {
      assert forall i :: 0 <= i < n ==> log[i].event.id != e.event.id;
      assert e !in log[..n];
    } else {
      OnceInLog(log[..n], e);
    }
  }

  /** At every step, also inside a pass, an allocated event is in exactly one place. */
  lemma OnePlace(s: World, e: Entry)
    requires Inv(s) && e in s.log
    ensures Held(s)[e] + Freed(s)[e] == 1
  {
    OnceInLog(s.log, e);
    assert (Held(s) + Freed(s))[e] == multiset(s.log)[e];
  }

  /** Destroying the dispatcher after any run leaks nothing: every event ever allocated has been freed. */
  lemma TeardownFreesEverything(s: World)
    requires Settled(s) && Idle(s)
    ensures Held(Teardown(s)) == multiset{} && Freed(Teardown(s)) == multiset(s.log)
  {
    var r := Teardown(s);
    assert multiset(r.done.abandoned) == multiset(s.done.abandoned) + multiset(s.queue);
    assert Held(s) == multiset(s.queue);
    assert Freed(r) == Freed(s) + multiset(s.queue);
  }

  // ---------------------------------------------------------------- the hypothesis is needed

  /** A handler that begins by destroying a live object with entries left in the batch makes the pass fault. */
  lemma DestroyInBatchFaults(p: Program, s: World, o: ObjectId)
    requires Settled(s) && s.pass.batch + s.pass.ticks != []
    requires Next(s).receiver in s.objects.live && !Next(s).event.DeferredDelete?
    requires p.handler(Next(s).event.id) != [] && p.handler(Next(s).event.id)[0] == Destroy(o)
    requires o in s.objects.live && Named(Pop(s).batch + Pop(s).ticks, o)
    ensures Dispatch(p, s).pass.fault
  {
    HandlerKills(p, s, o);
    var h := Handle(p, Enter(s), Next(s));
    DispatchKeeps(p, s);
    PickedUp(p, s);
    assert DispatchNext(p, s).objects == h.objects;
    assert Dispatch(p, s) == Dispatch(p, DispatchNext(p, s));
  }

  lemma HandlerKills(p: Program, s: World, o: ObjectId)
    requires Settled(s) && s.pass.batch + s.pass.ticks != []
    requires Next(s).receiver in s.objects.live && !Next(s).event.DeferredDelete?
    requires p.handler(Next(s).event.id) != [] && p.handler(Next(s).event.id)[0] == Destroy(o)
    requires o in s.objects.live && Named(Pop(s).batch + Pop(s).ticks, o)
    ensures o in Handle(p, Enter(s), Next(s)).objects.killed
  {
    var acts := p.handler(Next(s).event.id);
    var s2 := PerformOne(p, Enter(s), acts[0]);
    DestroyKills(p, Enter(s), o);
    assert Handle(p, Enter(s), Next(s)) == Perform(p, s2, acts[1..]);
  }

  lemma DestroyKills(p: Program, s: World, o: ObjectId)
    requires SetsOk(s.objects) && o in s.objects.live && Named(s.pass.batch + s.pass.ticks, o)
    ensures o in PerformOne(p, s, Destroy(o)).objects.killed
  {
    var s1 := BeginDestroy(s, o, false);
    var r := EndDestroy(Perform(p, s1, p.cleanup(o)), o);
    assert DestroyObject(p, s, o, false) == r;
    assert o in s1.objects.killed && Grows(s1.objects, Perform(p, s1, p.cleanup(o)).objects);
  }

  lemma PickedUp(p: Program, s: World)
    requires Settled(s) && s.pass.batch + s.pass.ticks != [] && Next(s).receiver in s.objects.live
    ensures DispatchNext(p, s) == Retire(Handle(p, Enter(s), Next(s)), Next(s))
  {
  }

  lemma RunTwo(p: Program, s: World, first: Op, second: Op)
    requires Settled(s) && Idle(s) && !Step(p, s, first).pass.fault
    requires StepSettled(p, s, first) && Step(p, Step(p, s, first), second).pass.fault
    ensures Run(p, s, [first, second]).pass.fault
  {
    var ops := [first, second];
    assert ops[1..] == [second];
    assert Run(p, Step(p, s, first), [second]) == Step(p, Step(p, s, first), second);
  }

  ghost predicate StepSettled(p: Program, s: World, op: Op)
    requires Settled(s) && Idle(s)
  {
    Settled(Step(p, s, op)) && Idle(Step(p, s, op))
  }

  /** Two events are queued; the handler of the first deletes the receiver of the second. */
  lemma DirectDeleteFaults(p: Program)
    requires p.handler(0) == [Destroy(1)]
    ensures RunFromStart(p, {0, 1}, {0, 1}, 0, [Between([Post(0), Post(1)]), OnePass([], [])]).pass.fault
  {
    var s := Initial({0, 1}, {0, 1}, 0);
    InitialSettled({0, 1}, {0, 1}, 0);
    var s1 := TwoPosted(p, s);
    var first, second := Between([Post(0), Post(1)]), OnePass([], []);
    StepSafe(p, s, first);
    OnePassFaults(p, s1);
    RunTwo(p, s, first, second);
  }

  lemma TwoPosted(p: Program, s: World) returns (r: World)
    requires s == Initial({0, 1}, {0, 1}, 0)
    ensures r == Perform(p, s, [Post(0), Post(1)])
    ensures r.queue == [Entry(0, MetaCall(0)), Entry(1, MetaCall(1))] && r.timers == [] && !r.interrupt
    ensures r.objects == s.objects && r.pass == s.pass
  {
    var s1 := PostTo(s, 0);
    r := PostTo(s1, 1);
    assert [Post(0), Post(1)][1..] == [Post(1)];
    assert [Post(1)][1..] == [];
    assert Perform(p, s1, [Post(1)]) == Perform(p, r, []);
    assert Perform(p, s, [Post(0), Post(1)]) == Perform(p, s1, [Post(1)]);
  }

  lemma OnePassFaults(p: Program, s: World)
    requires Settled(s) && Idle(s) && s.timers == [] && !s.interrupt
    requires s.queue == [Entry(0, MetaCall(0)), Entry(1, MetaCall(1))] && {0, 1} <= s.objects.live
    requires p.handler(0) == [Destroy(1)]
    ensures ProcessEvents(p, s, [], []).pass.fault
  {
    assert TickEntries(Expired(s.timers, s.clock), |s.log|) == [];
    assert s.log + [] == s.log;
    assert Perform(p, s, []) == s;
    assert CollectTicks(s) == s;
    var b := TakeBatch(s);
    IdleKillsNobody(s);
    TakeKeeps(s);
    assert Next(b) == Entry(0, MetaCall(0));
    assert Entry(1, MetaCall(1)) in Pop(b).batch + Pop(b).ticks;
    DestroyInBatchFaults(p, b, 1);
  }

  // ---------------------------------------------------------------- an emit that loses the race

  /** A pass that carries out the one deferred delete in the queue. */
  lemma DeletedByPass(p: Program, s: World, o: ObjectId, id: nat) returns (r: World)
    requires Settled(s) && Idle(s) && s.timers == [] && !s.interrupt && o in s.objects.live && p.cleanup(o) == []
    requires s.queue == [Entry(o, DeferredDelete(id))]
    ensures r == ProcessEvents(p, s, [], [])
    ensures r.queue == [] && r.timers == [] && !r.interrupt && o in r.objects.dead && !r.pass.fault
  {
    NothingToCollect(p, s);
    var b, e := TakeBatch(s), s.queue[0];
    assert EventLoop.Next(b) == e && Pop(b).batch == [] && Pop(b).ticks == [];
    var begun := BeginDestroy(Enter(b), o, true);
    assert Perform(p, begun, p.cleanup(o)) == begun;
    r := Retire(EndDestroy(begun, o), e);
    assert DispatchNext(p, b) == r;
    assert Dispatch(p, r) == r;
    assert Dispatch(p, b) == r;
  }

  lemma NothingToCollect(p: Program, s: World)
    requires SetsOk(s.objects) && s.timers == [] && s.pass.ticks == []
    ensures Perform(p, s, []) == s && CollectTicks(s) == s
  {
    assert TickEntries(Expired(s.timers, s.clock), |s.log|) == [];
    assert s.log + [] == s.log;
  }

  /** The loop waits with nothing queued when the emit lands. */
  lemma LandsDuringWait(p: Program, s: World, o: ObjectId)
    requires Settled(s) && Idle(s) && s.queue == [] && s.timers == [] && !s.interrupt && o in s.objects.dead
    ensures PassMeetsStray(p, s, [], [Land(o)])
  {
    NothingToCollect(p, s);
    var s1 := s.(timersChanged := false);
    var landed := PostTo(s1, o);
    assert [Land(o)][1..] == [];
    assert Simple(s1, Land(o)) == landed && Perform(p, landed, []) == landed;
    assert Perform(p, s1, [Land(o)]) == landed;
    var q := AtDrain(p, s, [], [Land(o)]);
    assert q == landed.(wakeUpRequested := false);
    assert q.queue[|q.queue| - 1].receiver == o;
  }

  /** An emit tests the life token; the loop destroys the receiver by its deferred delete; the emit posts; a pass. */
  function Race(o: ObjectId): seq<Op> { [Between([DeleteLater(o)]), OnePass([], []), OnePass([], [Land(o)])] }

  lemma RaceBegins(p: Program, s: World, o: ObjectId)
    requires SetsOk(s.objects) && o in s.objects.live && o !in s.objects.deletePosted && s.queue == []
    ensures var r := Perform(p, s, [DeleteLater(o)]);
            && r == DeleteLaterOf(s, o) && r.queue == [Entry(o, DeferredDelete(|s.log|))]
            && r.objects.live == s.objects.live && r.timers == s.timers && r.interrupt == s.interrupt
  {
    assert [DeleteLater(o)][1..] == [];
    assert Simple(s, DeleteLater(o)) == DeleteLaterOf(s, o);
  }

  /** From any state with nothing queued and no timers the race ends with a stray in a batch. */
  lemma RaceMeetsStray(p: Program, s: World, o: ObjectId, ops: seq<Op>)
    requires Settled(s) && Idle(s) && s.queue == [] && s.timers == [] && !s.interrupt
    requires o in s.objects.live && o !in s.objects.deletePosted && p.cleanup(o) == [] && ops == Race(o)
    ensures RunMeetsStray(p, s, ops)
  {
    StepSafe(p, s, ops[0]);
    RaceBegins(p, s, o);
    var s1 := Step(p, s, ops[0]);
    StepSafe(p, s1, ops[1]);
    var s2 := DeletedByPass(p, s1, o, |s.log|);
    LandsDuringWait(p, s2, o);
    MeetsAtThird(p, s, ops);
  }

  /** deleteLater() is used throughout, nothing is destroyed directly, and the run faults. */
  lemma EmitRaceFaults(p: Program, o: ObjectId, universe: set<ObjectId>, live: set<ObjectId>, clock: int, ops: seq<Op>)
    requires o in live && live <= universe && NeverDestroysDirectly(p) && p.cleanup(o) == [] && ops == Race(o)
    ensures RunFromStart(p, universe, live, clock, ops).pass.fault
    ensures LandsLateFromStart(p, universe, live, clock, ops) && !StrikesFromStart(p, universe, live, clock, ops)
  {
    InitialSettled(universe, live, clock);
    RaceMeetsStray(p, Initial(universe, live, clock), o, ops);
    RunPromises(p, universe, live, clock, ops);
    NeverStrikes(p, Initial(universe, live, clock), ops);
  }

  lemma NeverStrikes(p: Program, s: World, ops: seq<Op>)
    requires Settled(s) && Idle(s) && NeverDestroysDirectly(p)
    ensures !RunStrikes(p, s, ops)
  {
    CarefulRunNeverStrikes(p, s, ops, {});
  }

  lemma MeetsAtThird(p: Program, s: World, ops: seq<Op>)
    requires Settled(s) && Idle(s) && |ops| == 3 && !Step(p, s, ops[0]).pass.fault
    requires StepSettled(p, s, ops[0]) && !Step(p, Step(p, s, ops[0]), ops[1]).pass.fault
    requires StepSettled(p, Step(p, s, ops[0]), ops[1])
    requires StepMeetsStray(p, Step(p, Step(p, s, ops[0]), ops[1]), ops[2])
    ensures RunMeetsStray(p, s, ops)
  {
    assert ops[1..][1..] == ops[2..];
    assert RunMeetsStray(p, Step(p, Step(p, s, ops[0]), ops[1]), ops[2..]);
    assert RunMeetsStray(p, Step(p, s, ops[0]), ops[1..]);
  }
}
