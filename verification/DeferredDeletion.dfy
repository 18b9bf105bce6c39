/**
  The shutdown drain: processDeferredDeletes() keeps extracting and dispatching deferred deletes until
  none is queued. Destructors run user callbacks that may request further deletions.
 */
module DeferredDeletion {
  import opened Basics
  import opened TimerList
  import opened EventLoop
  import opened EventLoopSafety

  // ---------------------------------------------------------------- the drain

  function StartDrain(s: World): World
  {
    s.(pass := Pass([], [], [], {}, true, false))
  }

  /** Under the mutex: the deferred deletes leave the queue, everything else stays in order. */
  function Extract(s: World): World
  {
    s.(queue := Others(s.queue), pass := s.pass.(batch := DeferredDeletes(s.queue)))
  }

  /** The loop. Its measure is the set of objects not yet destroyed: every turn destroys one. */
  ghost function DrainLoop(p: Program, s: World): (r: World)
    requires Settled(s) && Idle(s) && s.pass.draining
    decreases s.objects.universe - s.objects.dead
  {
    if DeferredDeletes(s.queue) == [] then s
    else
      TurnShrinks(p, s);
      var r := Dispatch(p, Extract(s));
      if r.pass.fault then r else DrainLoop(p, r)
  }

  ghost function ProcessDeferredDeletes(p: Program, s: World): (r: World)
    requires Settled(s) && Idle(s)
  {
    StartKeeps(s);
    var r := DrainLoop(p, StartDrain(s));
    r.(pass := r.pass.(draining := false))
  }

  // ---------------------------------------------------------------- the two halves of the queue

  lemma {:induction false} ExtractSplits(q: seq<Entry>)
    ensures multiset(q) == multiset(Others(q)) + multiset(DeferredDeletes(q))
  {
    if q != [] {
      ExtractSplits(q[1..]);
      assert q == [q[0]] + q[1..];
    }
  }

  lemma {:induction false} ExtractMembers(q: seq<Entry>)
    ensures forall e :: e in Others(q) <==> e in q && !e.event.DeferredDelete?
    ensures forall e :: e in DeferredDeletes(q) <==> e in q && e.event.DeferredDelete?
  {
    if q != [] {
      ExtractMembers(q[1..]);
      assert q == [q[0]] + q[1..];
    }
  }

  lemma {:induction false} OthersAscending(q: seq<Entry>)
    requires Ascending(q)
    ensures Ascending(Others(q))
  {
    if q != [] {
      TailAscending(q);
      OthersAscending(q[1..]);
      ExtractMembers(q[1..]);
      var r := Others(q[1..]);
      forall j | 0 <= j < |r| ensures q[0].event.id < r[j].event.id { assert r[j] in r; }
    }
  }

  lemma StartKeeps(s: World)
    requires Settled(s) && Idle(s)
    ensures Settled(StartDrain(s)) && Idle(StartDrain(s)) && StartDrain(s).pass.draining
  {
    IdleKillsNobody(s);
    var r := StartDrain(s);
    assert Held(r) == Held(s) && Freed(r) == Freed(s);
    assert Guarded(r.pass, r.objects);
    assert InFlight(r.pass) == [];
  }

  lemma EndKeeps(s: World)
    requires Settled(s) && Idle(s)
    ensures Settled(s.(pass := s.pass.(draining := false))) && Idle(s.(pass := s.pass.(draining := false)))
  {
    var r := s.(pass := s.pass.(draining := false));
    assert Held(r) == Held(s) && Freed(r) == Freed(s);
    assert InFlight(r.pass) == [];
    assert forall o :: Leaving(r.pass, o) == Leaving(s.pass, o);
  }

  lemma ExtractKeeps(s: World)
    requires Settled(s) && Idle(s) && s.pass.draining
    ensures Settled(Extract(s)) && Extract(s).pass.draining
  {
    var r := Extract(s);
    ExtractMembers(s.queue);
    OthersAscending(s.queue);
    IdleKillsNobody(s);
    ExtractHeld(s);
    ExtractGuarded(s);
    assert InFlight(r.pass) == InFlight(s.pass) == [];
    assert Placed(r.queue, r.timers, r.discarded, r.objects);
    assert Inv(r);
  }

  lemma ExtractGuarded(s: World)
    requires Settled(s) && Idle(s) && s.objects.killed == {}
    ensures Guarded(Extract(s).pass, s.objects)
  {
    var q := Extract(s).pass;
    ExtractMembers(s.queue);
    forall e | e in q.batch + q.ticks ensures Covered(q, s.objects, e.receiver) {
      assert e in s.queue;
      assert Addressed(s.objects, e);
    }
  }

  lemma ExtractHeld(s: World)
    requires Idle(s)
    ensures Held(Extract(s)) + Freed(Extract(s)) == Held(s) + Freed(s)
  {
    ExtractSplits(s.queue);
  }

  // ---------------------------------------------------------------- progress

  /** A turn that does not fault leaves the receiver of a DeferredDelete destroyed. */
  lemma TurnDestroys(p: Program, s: World)
    requires Settled(s) && s.pass.batch != [] && !DispatchNext(p, s).pass.fault
    ensures s.pass.batch[0].event.DeferredDelete? ==> s.pass.batch[0].receiver in DispatchNext(p, s).objects.dead
    ensures DispatchNext(p, s).pass.batch == s.pass.batch[1..]
  {
  }

  lemma DispatchStep(p: Program, s: World)
    requires Settled(s) && s.pass.batch + s.pass.ticks != [] && !Dispatch(p, s).pass.fault
    ensures Dispatch(p, s) == Dispatch(p, DispatchNext(p, s))
    ensures Settled(DispatchNext(p, s))
  {
    DispatchNextKeeps(p, s);
  }

  /** A dispatch that does not fault destroys the receiver of every DeferredDelete in its batch. */
  lemma {:induction false} DispatchDestroys(p: Program, s: World)
    requires Settled(s) && !Dispatch(p, s).pass.fault
    ensures forall e :: e in s.pass.batch && e.event.DeferredDelete? ==> e.receiver in Dispatch(p, s).objects.dead
    decreases |s.pass.batch| + |s.pass.ticks|
  {
    if s.pass.batch != [] {
      var s' := DispatchNext(p, s);
      DispatchStep(p, s);
      DispatchDestroys(p, s');
      TurnDestroys(p, s);
      forall e | e in s.pass.batch && e.event.DeferredDelete? ensures e.receiver in Dispatch(p, s).objects.dead {
        if e != s.pass.batch[0] { assert e in s'.pass.batch; }
      }
    }
  }

  /** Each turn of the drain that does not fault is progress: at least one more object is destroyed. */
  lemma TurnShrinks(p: Program, s: World)
    requires Settled(s) && Idle(s) && s.pass.draining && DeferredDeletes(s.queue) != []
    ensures Settled(Extract(s))
    ensures var r := Dispatch(p, Extract(s));
            && (r.pass.fault <==> r.objects.killed != {})
            && (!r.pass.fault ==>
                  && Settled(r) && Idle(r) && r.pass.draining
                  && (forall e :: e in s.queue && e.event.DeferredDelete? ==> e.receiver in r.objects.dead)
                  && r.objects.universe - r.objects.dead < s.objects.universe - s.objects.dead)
  {
    ExtractKeeps(s);
    var s1 := Extract(s);
    DispatchKeeps(p, s1);
    var r := Dispatch(p, s1);
    if !r.pass.fault {
      DispatchDestroys(p, s1);
      ExtractMembers(s.queue);
      OneMoreDead(s, r.objects);
    }
  }

  lemma OneMoreDead(s: World, b: Objects)
    requires SetsOk(s.objects) && s.objects.dying == {} && DeferredDeletes(s.queue) != []
    requires forall e :: e in s.queue ==> Addressed(s.objects, e)
    requires b.universe == s.objects.universe && s.objects.dead <= b.dead
    requires forall e :: e in s.queue && e.event.DeferredDelete? ==> e.receiver in b.dead
    ensures b.universe - b.dead < s.objects.universe - s.objects.dead
  {
    ExtractMembers(s.queue);
    var e := DeferredDeletes(s.queue)[0];
    assert e in DeferredDeletes(s.queue);
    assert Addressed(s.objects, e);
    assert e.receiver in s.objects.universe - s.objects.dead && e.receiver !in b.universe - b.dead;
  }

  // ---------------------------------------------------------------- what survives, and in what order

  /**
    Between q and q' only entries of the given receivers disappeared, all of them, nothing was reordered, and what
    was added came last with numbers of at least n.
   */
  ghost predicate Extends(q: seq<Entry>, n: nat, gone: set<ObjectId>, q': seq<Entry>)
  {
    Without(q, gone) <= q' && forall e :: e in q'[|Without(q, gone)|..] ==> e.event.id >= n
  }

  lemma WithoutCons(e: Entry, q: seq<Entry>, gone: set<ObjectId>)
    ensures Without([e] + q, gone) == (if e.receiver in gone then [] else [e]) + Without(q, gone)
  {
    assert ([e] + q)[1..] == q;
  }

  lemma {:induction false} WithoutAppend(a: seq<Entry>, b: seq<Entry>, gone: set<ObjectId>)
    ensures Without(a + b, gone) == Without(a, gone) + Without(b, gone)
  {
    if a == [] {
      assert a + b == b;
    } else {
      var e, tail := a[0], a[1..];
      assert a == [e] + tail && a + b == [e] + (tail + b);
      WithoutCons(e, tail, gone);
      WithoutCons(e, tail + b, gone);
      WithoutAppend(tail, b, gone);
    }
  }

  lemma {:induction false} WithoutTwice(q: seq<Entry>, g1: set<ObjectId>, g2: set<ObjectId>)
    ensures Without(Without(q, g1), g2) == Without(q, g1 + g2)
  {
    if q != [] {
      WithoutTwice(q[1..], g1, g2);
      if q[0].receiver !in g1 {
        assert Without(q, g1) == [q[0]] + Without(q[1..], g1);
        WithoutCons(q[0], Without(q[1..], g1), g2);
      } else {
        assert Without(q, g1) == Without(q[1..], g1);
      }
    }
  }

  lemma {:induction false} WithoutNobody(q: seq<Entry>)
    ensures Without(q, {}) == q
  {
    if q != [] {
      WithoutNobody(q[1..]);
    }
  }

  lemma ExtendsTransitive(q: seq<Entry>, n: nat, d1: set<ObjectId>, q1: seq<Entry>, n1: nat, d2: set<ObjectId>,
                          q2: seq<Entry>)
    requires Extends(q, n, d1, q1) && Extends(q1, n1, d2, q2) && n <= n1
    ensures Extends(q, n, d1 + d2, q2)
  {
    var a := Without(q, d1);
    var f := q1[|a|..];
    assert q1 == a + f;
    WithoutAppend(a, f, d2);
    WithoutTwice(q, d1, d2);
    WithoutMembers(f, d2);
    TwoTails(Without(q, d1 + d2), Without(f, d2), q2);
    var k, k1 := |Without(q, d1 + d2)|, |Without(q1, d2)|;
    forall e | e in q2[k..] ensures e.event.id >= n {
      assert e in Without(f, d2) || e in q2[k1..];
    }
  }

  /** What follows w in a list that begins with w + g is g and then the rest. */
  lemma TwoTails(w: seq<Entry>, g: seq<Entry>, l: seq<Entry>)
    requires w + g <= l
    ensures w <= l && l[|w|..] == g + l[|w + g|..]
  {
    var h := l[|w + g|..];
    assert l == (w + g) + h;
    assert l == w + (g + h);
  }

  /** The objects whose destructors ended between s and r. */
  ghost function Died(s: World, r: World): set<ObjectId> { r.objects.dead - s.objects.dead }

  ghost predicate Keeps(s: World, r: World)
  {
    Extends(s.queue, |s.log|, Died(s, r), r.queue) && s.log <= r.log && s.objects.dead <= r.objects.dead
  }

  lemma DiedMeanwhile(s: World, m: World, r: World)
    requires s.objects.dead <= m.objects.dead <= r.objects.dead
    ensures Died(s, m) + Died(m, r) == Died(s, r)
  {
  }

  lemma KeepsTransitive(s: World, m: World, r: World)
    requires Keeps(s, m) && Keeps(m, r)
    ensures Keeps(s, r)
  {
    DiedMeanwhile(s, m, r);
    ExtendsTransitive(s.queue, |s.log|, Died(s, m), m.queue, |m.log|, Died(m, r), r.queue);
  }

  lemma SameQueueKeeps(s: World, r: World)
    requires r.queue == s.queue && s.log <= r.log && r.objects.dead == s.objects.dead
    ensures Keeps(s, r)
  {
    assert Died(s, r) == {};
    WithoutNobody(s.queue);
  }

  lemma EnqueueKeepsQueue(s: World, r: World, e: Entry)
    requires r.queue == s.queue + [e] && s.log <= r.log && r.objects.dead == s.objects.dead
    requires e.event.id >= |s.log|
    ensures Keeps(s, r)
  {
    assert Died(s, r) == {};
    WithoutNobody(s.queue);
  }

  lemma SimpleKeepsQueue(s: World, a: Action)
    requires Inv(s)
    ensures Keeps(s, Simple(s, a))
  {
    var r := Simple(s, a);
    if r.queue == s.queue {
      SameQueueKeeps(s, r);
    } else {
      EnqueueKeepsQueue(s, r, r.queue[|s.queue|]);
    }
  }

  lemma {:induction false} PerformKeepsQueue(p: Program, s: World, acts: seq<Action>)
    requires Inv(s)
    ensures Keeps(s, Perform(p, s, acts))
    decreases Pending(s.objects), |acts|, 0
  {
    if acts == [] {
      SameQueueKeeps(s, s);
    } else {
      var s' := PerformOne(p, s, acts[0]);
      PerformSplit(p, s, acts);
      PerformOneKeeps(p, s, acts[0]);
      PerformOneKeepsQueue(p, s, acts[0]);
      PerformKeepsQueue(p, s', acts[1..]);
      KeepsTransitive(s, s', Perform(p, s', acts[1..]));
    }
  }

  lemma {:induction false} PerformOneKeepsQueue(p: Program, s: World, a: Action)
    requires Inv(s)
    ensures Keeps(s, PerformOne(p, s, a))
    decreases Pending(s.objects), 0, 1
  {
    if !a.Destroy? {
      SimpleKeepsQueue(s, a);
    } else if a.receiver in s.objects.live {
      BeginDestroyGuarded(s, a.receiver);
      BeginDestroyKeeps(s, a.receiver, false);
      DestroyKeepsQueue(p, s, a.receiver, false);
    } else {
      SameQueueKeeps(s, s);
    }
  }

  lemma {:induction false} DestroyKeepsQueue(p: Program, s: World, o: ObjectId, byEvent: bool)
    requires SetsOk(s.objects) && o in s.objects.live && Inv(BeginDestroy(s, o, byEvent))
    ensures Keeps(s, DestroyObject(p, s, o, byEvent))
    decreases Pending(s.objects), 0, 0
  {
    var s1 := BeginDestroy(s, o, byEvent);
    assert o in Pending(s.objects) && o !in Pending(s1.objects);
    PerformKeepsQueue(p, s1, p.cleanup(o));
    PerformKeeps(p, s1, p.cleanup(o));
    var s2 := Perform(p, s1, p.cleanup(o));
    EndKeepsQueue(s2, o);
    KeepsTransitive(s1, s2, EndDestroy(s2, o));
  }

  lemma EndKeepsQueue(s: World, o: ObjectId)
    requires Inv(s) && o in s.objects.dying
    ensures Keeps(s, EndDestroy(s, o))
  {
    assert Died(s, EndDestroy(s, o)) == {o};
  }

  lemma HandleKeepsQueue(p: Program, s: World)
    requires Settled(s) && s.pass.batch + s.pass.ticks != [] && Next(s).receiver in s.objects.live
    ensures Keeps(Enter(s), Handle(p, Enter(s), Next(s)))
  {
    if Next(s).event.DeferredDelete? {
      EnterDeleteKeeps(s);
      DestroyKeepsQueue(p, Enter(s), Next(s).receiver, true);
    } else {
      EnterKeeps(s);
      PerformKeepsQueue(p, Enter(s), p.handler(Next(s).event.id));
    }
  }

  /** Dispatching reorders nothing that is queued and removes only what names a destroyed receiver. */
  lemma {:induction false} DispatchKeepsQueue(p: Program, s: World)
    requires Settled(s) && !Dispatch(p, s).pass.fault
    ensures Keeps(s, Dispatch(p, s))
    decreases |s.pass.batch| + |s.pass.ticks|
  {
    if s.pass.batch + s.pass.ticks == [] {
      SameQueueKeeps(s, s);
    } else {
      DispatchNextKeeps(p, s);
      var s' := DispatchNext(p, s);
      if Next(s).receiver in s.pass.guard {
        SameQueueKeeps(s, s');
      } else {
        HandleKeepsQueue(p, s);
        assert Keeps(s, s');
      }
      DispatchKeepsQueue(p, s');
      KeepsTransitive(s, s', Dispatch(p, s'));
    }
  }

  // ---------------------------------------------------------------- the result of the drain

  lemma OthersCons(e: Entry, q: seq<Entry>)
    ensures Others([e] + q) == (if e.event.DeferredDelete? then [] else [e]) + Others(q)
  {
    assert ([e] + q)[1..] == q;
  }

  lemma {:induction false} OthersAppend(a: seq<Entry>, b: seq<Entry>)
    ensures Others(a + b) == Others(a) + Others(b)
  {
    if a == [] {
      assert a + b == b;
    } else {
      var e, tail := a[0], a[1..];
      assert a == [e] + tail && a + b == [e] + (tail + b);
      OthersCons(e, tail);
      OthersCons(e, tail + b);
      OthersAppend(tail, b);
    }
  }

  lemma {:induction false} OthersNone(q: seq<Entry>)
    requires forall e :: e in q ==> !e.event.DeferredDelete?
    ensures Others(q) == q
  {
    if q != [] {
      assert q[0] in q;
      OthersNone(q[1..]);
    }
  }

  /** Extracting later deferred deletes touches none of the survivors. */
  lemma ExtendsExtract(q: seq<Entry>, n: nat, dead: set<ObjectId>, q1: seq<Entry>)
    requires Extends(Others(q), n, dead, q1)
    ensures Extends(Others(q), n, dead, Others(q1))
  {
    var a := Without(Others(q), dead);
    var f := q1[|a|..];
    assert q1 == a + f;
    ExtractMembers(q);
    WithoutMembers(Others(q), dead);
    OthersAppend(a, f);
    OthersNone(a);
    ExtractMembers(f);
    assert Others(q1)[|a|..] == Others(f);
  }

  ghost predicate Drained(s: World, r: World)
  {
    && DeferredDeletes(r.queue) == []
    && (forall e :: e in s.queue && e.event.DeferredDelete? ==> e.receiver in r.objects.dead)
    && s.log <= r.log && s.objects.dead <= r.objects.dead
    && Extends(Others(s.queue), |s.log|, Died(s, r), r.queue)
  }

  lemma {:induction false} DrainLoopResult(p: Program, s: World)
    requires Settled(s) && Idle(s) && s.pass.draining
    ensures var r := DrainLoop(p, s);
            && (r.pass.fault <==> r.objects.killed != {})
            && (!r.pass.fault ==> Settled(r) && Idle(r) && Drained(s, r))
    decreases s.objects.universe - s.objects.dead
  {
    ExtractMembers(s.queue);
    if DeferredDeletes(s.queue) == [] {
      IdleKillsNobody(s);
      assert forall e :: e in s.queue ==> e !in DeferredDeletes(s.queue);
      OthersNone(s.queue);
      SameQueueKeeps(s, s);
    } else {
      TurnShrinks(p, s);
      var r := Dispatch(p, Extract(s));
      if !r.pass.fault {
        DispatchKeepsQueue(p, Extract(s));
        DrainLoopResult(p, r);
        var t := DrainLoop(p, r);
        if !t.pass.fault {
          ExtendsExtract(s.queue, |s.log|, Died(s, r), r.queue);
          DiedMeanwhile(s, r, t);
          ExtendsTransitive(Others(s.queue), |s.log|, Died(s, r), Others(r.queue), |r.log|, Died(r, t), t.queue);
        }
      }
    }
  }

  /**
    The drain terminates for every program over finitely many objects. It faults exactly when a cleanup
    callback destroyed an object whose own deferred delete was already extracted; otherwise no
    DeferredDelete is left, every receiver that had one is destroyed, and the other events of surviving
    receivers are still queued in their old order, ahead of anything posted meanwhile.
   */
  lemma DrainCompletes(p: Program, s: World)
    requires Settled(s) && Idle(s)
    ensures var r := ProcessDeferredDeletes(p, s);
            && (r.pass.fault <==> r.objects.killed != {})
            && (!r.pass.fault ==> Settled(r) && Idle(r) && Drained(s, r))
  {
    StartKeeps(s);
    DrainLoopResult(p, StartDrain(s));
    var r := DrainLoop(p, StartDrain(s));
    if !r.pass.fault {
      EndKeeps(r);
      DrainedFrame(StartDrain(s), r, s, r.(pass := r.pass.(draining := false)));
    }
  }

  /** The pass plays no part in what a drain did. */
  lemma DrainedFrame(s: World, r: World, s': World, r': World)
    requires Drained(s, r)
    requires s'.queue == s.queue && s'.log == s.log && s'.objects == s.objects
    requires r'.queue == r.queue && r'.log == r.log && r'.objects == r.objects
    ensures Drained(s', r')
  {
    assert Died(s', r') == Died(s, r);
  }
}
