/**
  Timers across moveToThread(): which dispatcher holds them, which queued call carries them, and what is lost.

  The queues of all dispatchers are one list of calls, each tagged with its thread, a thread running the first of
  its own. Only the re-registration calls made by moveToThread() are kept; other events do not touch timers.
 */
module TimerMigration {
  import opened Basics
  import opened TimerList
  import EventDispatcher

  type ThreadId = nat

  /** What stays the same about a timer wherever it is. */
  datatype Timer = Timer(id: int, intervalMs: int, owner: ObjectId)

  /** A queued re-registration. */
  datatype Call = Call(thread: ThreadId, serial: nat, owner: ObjectId, timers: seq<TimerRegistration>)

  /** lists has a key for every thread that has a dispatcher. */
  datatype Sys = Sys(affinity: map<ObjectId, Option<ThreadId>>, lists: map<ThreadId, seq<TimerData>>, calls: seq<Call>,
                     nextId: int, nextSerial: nat, clock: int)

  // ---------------------------------------------------------------- the operations

  /** The thread whose dispatcher serves o, if there is one. */
  function HomeOf(s: Sys, o: ObjectId): (r: Option<ThreadId>)
    ensures r.Some? ==> r.value in s.lists && o in s.affinity && s.affinity[o] == r
  {
    if o in s.affinity && s.affinity[o].Some? && s.affinity[o].value in s.lists then s.affinity[o] else None
  }

  predicate OnOwnThread(s: Sys, caller: Option<ThreadId>, o: ObjectId)
  {
    o in s.affinity && s.affinity[o] == caller
  }

  /** startTimer(): -1 off the object's thread or without a dispatcher, otherwise a fresh id. */
  function Started(s: Sys, caller: Option<ThreadId>, o: ObjectId, intervalMs: int): (Sys, int)
  {
    if OnOwnThread(s, caller, o) && HomeOf(s, o).Some? then
      var t := HomeOf(s, o).value;
      (s.(nextId := s.nextId + 1,
          lists := s.lists[t := Registered(s.lists[t], s.nextId, intervalMs, o, s.clock)]), s.nextId)
    else (s, -1)
  }

  function Killed(s: Sys, caller: Option<ThreadId>, o: ObjectId, id: int): Sys
  {
    if OnOwnThread(s, caller, o) && HomeOf(s, o).Some? then
      var t := HomeOf(s, o).value;
      s.(lists := s.lists[t := Unregistered(s.lists[t], id)])
    else s
  }

  /** Only the owning thread may move an object, but whoever calls may adopt one that has no thread. */
  predicate MayMove(s: Sys, caller: Option<ThreadId>, o: ObjectId, target: Option<ThreadId>)
  {
    o in s.affinity && s.affinity[o] != target &&
    (s.affinity[o] == caller || (s.affinity[o] == None && target == caller))
  }

  function TakenOf(s: Sys, o: ObjectId): seq<TimerRegistration>
  {
    if HomeOf(s, o).Some? then TakenFor(s.lists[HomeOf(s, o).value], o) else []
  }

  /** The timers off the old dispatcher and the new affinity set. */
  function Detached(s: Sys, o: ObjectId, target: Option<ThreadId>): Sys
  {
    var home := HomeOf(s, o);
    s.(lists := if home.Some? then s.lists[home.value := WithoutReceiver(s.lists[home.value], o)] else s.lists,
       affinity := s.affinity[o := target])
  }

  function Moved(s: Sys, o: ObjectId, target: Option<ThreadId>): Sys
  {
    var taken, after := TakenOf(s, o), Detached(s, o, target);
    if taken != [] && HomeOf(after, o).Some? then
      after.(calls := after.calls + [Call(HomeOf(after, o).value, s.nextSerial, o, taken)],
             nextSerial := s.nextSerial + 1)
    else after
  }

  function RegisteredAll(list: seq<TimerData>, regs: seq<TimerRegistration>, o: ObjectId, now: int): seq<TimerData>
    decreases |regs|
  {
    if regs == [] then list
    else RegisteredAll(Registered(list, regs[0].timerId, regs[0].intervalMs, o, now), regs[1..], o, now)
  }

  /** The call runs on the thread it was queued on, but registers wherever its object lives by then. */
  function Ran(s: Sys, i: nat): Sys
    requires i < |s.calls|
  {
    var c := s.calls[i];
    var home := HomeOf(s, c.owner);
    s.(calls := s.calls[..i] + s.calls[i + 1..],
       lists := if home.Some? then
                  s.lists[home.value := RegisteredAll(s.lists[home.value], c.timers, c.owner, s.clock)]
                else s.lists)
  }

  function FirstFor(calls: seq<Call>, t: ThreadId): (i: nat)
    ensures i <= |calls|
    ensures i < |calls| ==> calls[i].thread == t
    ensures forall j :: 0 <= j < i ==> calls[j].thread != t
  {
    if calls == [] || calls[0].thread == t then 0 else 1 + FirstFor(calls[1..], t)
  }

  datatype Op =
    | Create(o: ObjectId, thread: Option<ThreadId>)
    | Install(t: ThreadId)
    | Start(caller: Option<ThreadId>, o: ObjectId, intervalMs: int)
    | Kill(caller: Option<ThreadId>, o: ObjectId, id: int)
    | Move(caller: Option<ThreadId>, o: ObjectId, target: Option<ThreadId>)
    | RunCall(t: ThreadId)
    | Collect(t: ThreadId)
    | Tick(ns: nat)

  function Next(s: Sys, op: Op): Sys
  {
    match op
    case Create(o, thread) => if o in s.affinity then s else s.(affinity := s.affinity[o := thread])
    case Install(t) => if t in s.lists then s else s.(lists := s.lists[t := []])
    case Start(caller, o, intervalMs) => Started(s, caller, o, intervalMs).0
    case Kill(caller, o, id) => Killed(s, caller, o, id)
    case Move(caller, o, target) => if MayMove(s, caller, o, target) then Moved(s, o, target) else s
    case RunCall(t) => if FirstFor(s.calls, t) < |s.calls| then Ran(s, FirstFor(s.calls, t)) else s
    case Collect(t) => if t in s.lists then s.(lists := s.lists[t := Advanced(s.lists[t], s.clock)]) else s
    case Tick(ns) => s.(clock := s.clock + ns)
  }

  function Run(s: Sys, ops: seq<Op>): Sys
  {
    if ops == [] then s else Next(Run(s, ops[..|ops| - 1]), ops[|ops| - 1])
  }

  const EMPTY := Sys(map[], map[], [], 1, 0, 0)

  // ---------------------------------------------------------------- the ledger of timers

  datatype Spot = Listed(thread: ThreadId) | Carried(serial: nat)

  /** Where every timer that was started, not killed and not lost should be. */
  type Ledger = map<Timer, Spot>

  function Names(list: seq<TimerData>): set<Timer>
  {
    set x | x in list :: Timer(x.timerId, x.intervalMs, x.receiver)
  }

  function Carries(c: Call): set<Timer>
  {
    set r | r in c.timers :: Timer(r.timerId, r.intervalMs, c.owner)
  }

  function At(l: Ledger, spot: Spot): set<Timer>
  {
    set k | k in l && l[k] == spot
  }

  function LedgerNext(s: Sys, l: Ledger, op: Op): Ledger
  {
    match op
    case Start(caller, o, intervalMs) =>
      if OnOwnThread(s, caller, o) && HomeOf(s, o).Some? && intervalMs >= 0
      then l[Timer(s.nextId, intervalMs, o) := Listed(HomeOf(s, o).value)] else l
    case Kill(caller, o, id) =>
      if OnOwnThread(s, caller, o) && HomeOf(s, o).Some?
      then map k | k in l && !(k.id == id && l[k] == Listed(HomeOf(s, o).value)) :: l[k] else l
    case Move(caller, o, target) =>
      if !MayMove(s, caller, o, target) then l
      else if HomeOf(Detached(s, o, target), o).Some? then
        map k | k in l :: if k.owner == o && l[k].Listed? then Carried(s.nextSerial) else l[k]
      else map k | k in l && !(k.owner == o && l[k].Listed?) :: l[k]
    case RunCall(t) =>
      if FirstFor(s.calls, t) == |s.calls| then l
      else
        var c := s.calls[FirstFor(s.calls, t)];
        if HomeOf(s, c.owner).Some? then
          map k | k in l :: if l[k] == Carried(c.serial) then Listed(HomeOf(s, c.owner).value) else l[k]
        else map k | k in l && l[k] != Carried(c.serial) :: l[k]
    case _ => l
  }

  function LedgerRun(s: Sys, ops: seq<Op>): Ledger
  {
    if ops == [] then map[]
    else LedgerNext(Run(s, ops[..|ops| - 1]), LedgerRun(s, ops[..|ops| - 1]), ops[|ops| - 1])
  }

  ghost predicate ListsAgree(lists: map<ThreadId, seq<TimerData>>, l: Ledger)
  {
    forall t :: t in lists ==> DistinctIds(lists[t]) && Names(lists[t]) == At(l, Listed(t))
  }

  ghost predicate DistinctRegs(regs: seq<TimerRegistration>)
  {
    forall i, j :: 0 <= i < j < |regs| ==> regs[i].timerId != regs[j].timerId
  }

  ghost predicate CallAgrees(c: Call, l: Ledger)
  {
    c.timers != [] && DistinctRegs(c.timers) && Carries(c) == At(l, Carried(c.serial))
  }

  ghost predicate CallsAgree(calls: seq<Call>, l: Ledger)
  {
    forall i :: 0 <= i < |calls| ==> CallAgrees(calls[i], l)
  }

  ghost predicate Numbered(calls: seq<Call>, next: nat)
  {
    && (forall i, j :: 0 <= i < j < |calls| ==> calls[i].serial < calls[j].serial)
    && (forall i :: 0 <= i < |calls| ==> calls[i].serial < next)
  }

  /** A listed timer is on the dispatcher of its object's own thread; a carried one is in a queued call. */
  ghost predicate Placed(s: Sys, k: Timer, spot: Spot)
  {
    match spot
    case Listed(t) => t in s.lists && k.owner in s.affinity && s.affinity[k.owner] == Some(t)
    case Carried(n) => k.owner in s.affinity && exists i :: 0 <= i < |s.calls| && s.calls[i].serial == n
  }

  ghost predicate AllPlaced(s: Sys, l: Ledger)
  {
    forall k :: k in l ==> Placed(s, k, l[k])
  }

  ghost predicate Issued(l: Ledger, nextId: int)
  {
    && (forall k :: k in l ==> k.id < nextId && k.intervalMs >= 0)
    && (forall j, k :: j in l && k in l && j.id == k.id ==> j == k)
  }

  ghost predicate Agrees(s: Sys, l: Ledger)
  {
    && ListsAgree(s.lists, l) && CallsAgree(s.calls, l) && Numbered(s.calls, s.nextSerial)
    && AllPlaced(s, l) && Issued(l, s.nextId)
  }

  // ---------------------------------------------------------------- what each operation is for

  /**
    The permission rule: an object ends up in the thread asked for if and only if it lives there already, the caller is
    its own thread, or it has no thread and the caller asks for itself. A refused move changes nothing.
   */
  lemma MoveIff(s: Sys, caller: Option<ThreadId>, o: ObjectId, target: Option<ThreadId>)
    requires o in s.affinity
    ensures var r := Next(s, Move(caller, o, target));
            && (r.affinity[o] == target <==>
                  s.affinity[o] == target || s.affinity[o] == caller || (s.affinity[o] == None && caller == target))
            && (r.affinity[o] != target || s.affinity[o] == target ==> r == s)
            && (forall u :: u in s.affinity && u != o ==> r.affinity[u] == s.affinity[u])
  {
  }

  /** No thread pulls an object out of another: only the object's own thread, or adoption, changes where it lives. */
  lemma OnlyTheOwnerMoves(s: Sys, op: Op, o: ObjectId)
    requires o in s.affinity && Next(s, op).affinity[o] != s.affinity[o]
    ensures op.Move? && op.o == o && (op.caller == s.affinity[o] || (s.affinity[o] == None && op.target == op.caller))
  {
  }

  /** startTimer() answers with a new, registered id exactly on the object's own thread with a dispatcher there. */
  lemma StartIff(s: Sys, caller: Option<ThreadId>, o: ObjectId, ms: int)
    requires s.nextId >= 1
    ensures var (r, id) := Started(s, caller, o, ms);
            && r == Next(s, Start(caller, o, ms))
            && (id != -1 <==> o in s.affinity && s.affinity[o] == caller && caller.Some? && caller.value in s.lists)
            && (id == -1 ==> r == s)
            && (id != -1 ==>
                  && id == s.nextId && r.nextId == id + 1 && r.affinity == s.affinity && r.calls == s.calls
                  && (ms >= 0 ==> TimerData(id, ms, o, s.clock + ms * NS_PER_MS) in r.lists[caller.value])
                  && (ms < 0 ==> r.lists == s.lists)
                  && (forall t :: t in s.lists && t != caller.value ==> r.lists[t] == s.lists[t]))
  {
    var (r, id) := Started(s, caller, o, ms);
    if id != -1 {
      var list := s.lists[caller.value];
      var k := IndexOf(list, id);
      assert ms >= 0 ==> Registered(list, id, ms, o, s.clock)[if k < |list| then k else |list|].timerId == id;
    }
  }

  /** The timers taken along wait in one call, on the thread the object now lives in, with their ids and intervals. */
  lemma MoveQueuesAtTarget(s: Sys, caller: Option<ThreadId>, o: ObjectId, t: ThreadId)
    requires o in s.affinity && s.affinity[o] == caller && caller != Some(t) && t in s.lists
    requires caller.Some? && caller.value in s.lists
    ensures var r, before := Next(s, Move(caller, o, Some(t))), s.lists[caller.value];
            && (forall x :: x in r.lists[caller.value] <==> x in before && x.receiver != o)
            && (forall u :: u in s.lists && u != caller.value ==> r.lists[u] == s.lists[u])
            && (if exists x :: x in before && x.receiver == o then
                  && |r.calls| == |s.calls| + 1 && r.calls[..|s.calls|] == s.calls
                  && var c := r.calls[|s.calls|];
                     c.thread == t && c.owner == o
                     && forall g :: g in c.timers <==>
                          exists x :: x in before && x.receiver == o && g == TimerRegistration(x.timerId, x.intervalMs)
                else r.calls == s.calls)
  {
    WithoutReceiverMembers(s.lists[caller.value], o);
    TakenIff(s.lists[caller.value], o);
    TakenMembers(s.lists[caller.value], o);
    MoveParts(s, caller, o, t);
  }

  lemma MoveParts(s: Sys, caller: Option<ThreadId>, o: ObjectId, t: ThreadId)
    requires o in s.affinity && s.affinity[o] == caller && caller != Some(t) && t in s.lists
    requires caller.Some? && caller.value in s.lists
    ensures var r, taken := Next(s, Move(caller, o, Some(t))), TakenFor(s.lists[caller.value], o);
            && r.lists == s.lists[caller.value := WithoutReceiver(s.lists[caller.value], o)]
            && r.calls == s.calls + if taken == [] then [] else [Call(t, s.nextSerial, o, taken)]
  {
  }

  lemma TakenIff(list: seq<TimerData>, o: ObjectId)
    ensures TakenFor(list, o) != [] <==> exists x :: x in list && x.receiver == o
  {
    TakenMembers(list, o);
    if exists x :: x in list && x.receiver == o {
      var x :| x in list && x.receiver == o;
      assert TimerRegistration(x.timerId, x.intervalMs) in TakenFor(list, o);
    } else {
      TakenNothing(list, o);
    }
  }

  lemma {:induction false} TakenNothing(list: seq<TimerData>, o: ObjectId)
    requires forall x :: x in list ==> x.receiver != o
    ensures TakenFor(list, o) == []
  {
    if list != [] { TakenNothing(list[1..], o); }
  }

  lemma {:induction false} RegisteredAllHas(list: seq<TimerData>, regs: seq<TimerRegistration>, o: ObjectId, now: int,
                                            g: TimerRegistration)
    requires DistinctIds(list) && DistinctRegs(regs) && g in regs && g.intervalMs >= 0
    ensures TimerData(g.timerId, g.intervalMs, o, now + g.intervalMs * NS_PER_MS) in RegisteredAll(list, regs, o, now)
    decreases |regs|
  {
    var first, rest := regs[0], regs[1..];
    var list1 := Registered(list, first.timerId, first.intervalMs, o, now);
    RegisteredMembers(list, first.timerId, first.intervalMs, o, now);
    assert regs == [first] + rest;
    RegsTail(first, rest);
    if g == first {
      RegisteredAllKeeps(list1, rest, o, now, TimerData(g.timerId, g.intervalMs, o, now + g.intervalMs * NS_PER_MS));
    } else {
      RegisteredAllHas(list1, rest, o, now, g);
    }
  }

  lemma {:induction false} RegisteredAllKeeps(list: seq<TimerData>, regs: seq<TimerRegistration>, o: ObjectId, now: int,
                                              t: TimerData)
    requires DistinctIds(list) && t in list && forall g :: g in regs ==> g.timerId != t.timerId
    ensures t in RegisteredAll(list, regs, o, now)
    decreases |regs|
  {
    if regs != [] {
      var first, rest := regs[0], regs[1..];
      assert first in regs && forall g :: g in rest ==> g in regs;
      RegisteredMembers(list, first.timerId, first.intervalMs, o, now);
      RegisteredStill(list, first.timerId, first.intervalMs, o, now, t);
      RegisteredAllKeeps(Registered(list, first.timerId, first.intervalMs, o, now), rest, o, now, t);
    }
  }

  lemma RegisteredStill(list: seq<TimerData>, id: int, ms: int, o: ObjectId, now: int, t: TimerData)
    requires DistinctIds(list) && t in list && t.timerId != id
    ensures t in Registered(list, id, ms, o, now)
  {
    RegisteredMembers(list, id, ms, o, now);
    if ms < 0 { assert Registered(list, id, ms, o, now) == list; }
  }

  /** The queued call restarts every timer it carries, its interval counted from now, where its object lives now. */
  lemma RunRestarts(s: Sys, l: Ledger, t: ThreadId, g: TimerRegistration)
    requires Agrees(s, l) && FirstFor(s.calls, t) < |s.calls|
    requires var c := s.calls[FirstFor(s.calls, t)]; g in c.timers && HomeOf(s, c.owner).Some?
    ensures var c := s.calls[FirstFor(s.calls, t)];
            var home := s.affinity[c.owner].value;
            TimerData(g.timerId, g.intervalMs, c.owner, s.clock + g.intervalMs * NS_PER_MS)
            in Next(s, RunCall(t)).lists[home]
  {
    var i := FirstFor(s.calls, t);
    var c := s.calls[i];
    assert CallAgrees(c, l);
    var k := Timer(g.timerId, g.intervalMs, c.owner);
    assert k in Carries(c);
    assert k in At(l, Carried(c.serial));
    RegisteredAllHas(s.lists[HomeOf(s, c.owner).value], c.timers, c.owner, s.clock, g);
  }

  /** From nothing: an object of a thread that gets a dispatcher can have a timer there, due when its time is up. */
  lemma FirstTimer(s: Sys, o: ObjectId, t: ThreadId, ms: nat, ns: nat)
    requires o !in s.affinity && t !in s.lists && s.nextId >= 1
    ensures var ready := Next(Next(s, Create(o, Some(t))), Install(t));
            var r := Next(Next(ready, Start(Some(t), o, ms)), Op.Tick(ns));
            && r.lists[t] == [TimerData(s.nextId, ms, o, s.clock + ms * NS_PER_MS)]
            && (Expired(r.lists[t], r.clock) != [] <==> ns >= ms * NS_PER_MS)
            && (forall u :: u in s.lists ==> r.lists[u] == s.lists[u])
  {
  }

  /** A pass of one thread rearms its own timers and no others. */
  lemma CollectRearms(s: Sys, t: ThreadId, i: nat)
    requires t in s.lists && i < |s.lists[t]|
    ensures var x, r := s.lists[t][i], Next(s, Op.Collect(t));
            && |r.lists[t]| == |s.lists[t]|
            && r.lists[t][i] == x.(nextFire := if s.clock >= x.nextFire then s.clock + x.intervalMs * NS_PER_MS
                                               else x.nextFire)
            && (forall u :: u in s.lists && u != t ==> r.lists[u] == s.lists[u]) && r.calls == s.calls
  {
  }

  // ---------------------------------------------------------------- what the list operations do to names

  lemma NameOf(list: seq<TimerData>, x: TimerData)
    requires x in list
    ensures Timer(x.timerId, x.intervalMs, x.receiver) in Names(list)
  {
  }

  lemma RegisteredNames(list: seq<TimerData>, k: Timer, now: int)
    requires DistinctIds(list) && k.intervalMs >= 0
    requires forall j :: j in Names(list) ==> j.id != k.id
    ensures DistinctIds(Registered(list, k.id, k.intervalMs, k.owner, now))
    ensures Names(Registered(list, k.id, k.intervalMs, k.owner, now)) == Names(list) + {k}
  {
    RegisteredMembers(list, k.id, k.intervalMs, k.owner, now);
    var r := Registered(list, k.id, k.intervalMs, k.owner, now);
    forall x | x in list ensures x.timerId != k.id && x in r {
      NameOf(list, x);
    }
    forall j | j in Names(list) ensures j in Names(r) {
      var x :| x in list && j == Timer(x.timerId, x.intervalMs, x.receiver);
      NameOf(r, x);
    }
    NameOf(r, TimerData(k.id, k.intervalMs, k.owner, now + k.intervalMs * NS_PER_MS));
    forall j | j in Names(r) ensures j in Names(list) + {k} {
      var x :| x in r && j == Timer(x.timerId, x.intervalMs, x.receiver);
    }
  }

  lemma UnregisteredNames(list: seq<TimerData>, id: int)
    requires DistinctIds(list)
    ensures DistinctIds(Unregistered(list, id))
    ensures Names(Unregistered(list, id)) == set k | k in Names(list) && k.id != id
  {
    UnregisteredMembers(list, id);
    forall k | k in Names(list) && k.id != id ensures k in Names(Unregistered(list, id)) {
      var x :| x in list && k == Timer(x.timerId, x.intervalMs, x.receiver);
      NameOf(Unregistered(list, id), x);
    }
  }

  lemma TakenNames(list: seq<TimerData>, o: ObjectId, c: Call)
    requires DistinctIds(list) && c.owner == o && c.timers == TakenFor(list, o)
    ensures DistinctIds(WithoutReceiver(list, o)) && DistinctRegs(c.timers)
    ensures Names(WithoutReceiver(list, o)) == set k | k in Names(list) && k.owner != o
    ensures Carries(c) == set k | k in Names(list) && k.owner == o
  {
    WithoutReceiverMembers(list, o);
    TakeSplits(list, o);
    TakenDistinct(list, o);
    forall k | k in Names(list) ensures if k.owner == o then k in Carries(c) else k in Names(WithoutReceiver(list, o)) {
      var x :| x in list && k == Timer(x.timerId, x.intervalMs, x.receiver);
      if k.owner == o {
        assert TimerRegistration(x.timerId, x.intervalMs) in c.timers;
      } else {
        NameOf(WithoutReceiver(list, o), x);
      }
    }
    forall k | k in Carries(c) ensures k in Names(list) && k.owner == o {
      var r :| r in c.timers && k == Timer(r.timerId, r.intervalMs, c.owner);
      var x :| x in list && x.receiver == o && r == TimerRegistration(x.timerId, x.intervalMs);
      NameOf(list, x);
    }
  }

  lemma {:induction false} TakenDistinct(list: seq<TimerData>, o: ObjectId)
    requires DistinctIds(list)
    ensures DistinctRegs(TakenFor(list, o))
  {
    if list != [] {
      var rest := list[1..];
      DistinctTail(list);
      TakenDistinct(rest, o);
      TakeSplits(rest, o);
      var r := TakenFor(rest, o);
      forall j | 0 <= j < |r| ensures r[j].timerId != list[0].timerId {
        assert r[j] in r;
        var x :| x in rest && x.receiver == o && r[j] == TimerRegistration(x.timerId, x.intervalMs);
      }
    }
  }

  /** None of these registrations names a timer already in the list. */
  ghost predicate NewTo(list: seq<TimerData>, regs: seq<TimerRegistration>)
  {
    forall r, k :: r in regs && k in Names(list) ==> k.id != r.timerId
  }

  lemma CarriesCons(c: Call, r: TimerRegistration, rest: seq<TimerRegistration>)
    ensures Carries(c.(timers := [r] + rest)) == {Timer(r.timerId, r.intervalMs, c.owner)} + Carries(c.(timers := rest))
  {
    assert r in [r] + rest;
    forall q | q in rest ensures q in [r] + rest { }
  }

  lemma RegsTail(r: TimerRegistration, rest: seq<TimerRegistration>)
    requires DistinctRegs([r] + rest)
    ensures DistinctRegs(rest)
    ensures forall q :: q in rest ==> q.timerId != r.timerId
  {
    var regs := [r] + rest;
    assert forall i :: 0 <= i < |rest| ==> rest[i] == regs[i + 1];
    forall q | q in rest ensures q.timerId != r.timerId {
      var i :| 0 <= i < |rest| && rest[i] == q;
      assert regs[0].timerId != regs[i + 1].timerId;
    }
  }

  lemma {:induction false} RegisteredAllNames(list: seq<TimerData>, c: Call, regs: seq<TimerRegistration>, now: int)
    requires DistinctIds(list) && DistinctRegs(regs)
    requires forall r :: r in regs ==> r.intervalMs >= 0
    requires NewTo(list, regs)
    ensures DistinctIds(RegisteredAll(list, regs, c.owner, now))
    ensures Names(RegisteredAll(list, regs, c.owner, now)) == Names(list) + Carries(c.(timers := regs))
    decreases |regs|
  {
    if regs == [] {
      assert Carries(c.(timers := regs)) == {};
    } else {
      var r, rest := regs[0], regs[1..];
      assert regs == [r] + rest;
      RegsTail(r, rest);
      CarriesCons(c, r, rest);
      RegisteredNames(list, Timer(r.timerId, r.intervalMs, c.owner), now);
      RegisteredAllNames(Registered(list, r.timerId, r.intervalMs, c.owner, now), c, rest, now);
    }
  }

  lemma {:induction false} AdvancedNames(list: seq<TimerData>, now: int)
    ensures Names(Advanced(list, now)) == Names(list)
    ensures DistinctIds(list) ==> DistinctIds(Advanced(list, now))
  {
    var r := Advanced(list, now);
    forall k | k in Names(list) ensures k in Names(r) {
      var x :| x in list && k == Timer(x.timerId, x.intervalMs, x.receiver);
      var i :| 0 <= i < |list| && list[i] == x;
      NameOf(r, r[i]);
    }
    forall k | k in Names(r) ensures k in Names(list) {
      var x :| x in r && k == Timer(x.timerId, x.intervalMs, x.receiver);
      var i :| 0 <= i < |r| && r[i] == x;
      NameOf(list, list[i]);
    }
  }

  // ---------------------------------------------------------------- every operation keeps the ledger right

  lemma StartLists(s: Sys, l: Ledger, k: Timer, t: ThreadId)
    requires Agrees(s, l) && t in s.lists && k.id == s.nextId && k.intervalMs >= 0
    ensures ListsAgree(s.lists[t := Registered(s.lists[t], k.id, k.intervalMs, k.owner, s.clock)], l[k := Listed(t)])
  {
    assert k !in l;
    assert forall j :: j in Names(s.lists[t]) ==> j in At(l, Listed(t));
    RegisteredNames(s.lists[t], k, s.clock);
    forall u | u in s.lists
      ensures At(l[k := Listed(t)], Listed(u)) == At(l, Listed(u)) + if u == t then {k} else {}
    {
    }
  }

  lemma StartCalls(s: Sys, l: Ledger, k: Timer, t: ThreadId)
    requires Agrees(s, l) && k !in l
    ensures CallsAgree(s.calls, l[k := Listed(t)])
  {
    forall i | 0 <= i < |s.calls| ensures CallAgrees(s.calls[i], l[k := Listed(t)]) {
      assert CallAgrees(s.calls[i], l);
      assert At(l[k := Listed(t)], Carried(s.calls[i].serial)) == At(l, Carried(s.calls[i].serial));
    }
  }

  lemma StartAgrees(s: Sys, l: Ledger, caller: Option<ThreadId>, o: ObjectId, intervalMs: int)
    requires Agrees(s, l) && OnOwnThread(s, caller, o) && HomeOf(s, o).Some? && intervalMs >= 0
    ensures Agrees(Next(s, Start(caller, o, intervalMs)), LedgerNext(s, l, Start(caller, o, intervalMs)))
  {
    var k, t := Timer(s.nextId, intervalMs, o), HomeOf(s, o).value;
    var s', l' := Next(s, Start(caller, o, intervalMs)), l[k := Listed(t)];
    assert k !in l;
    StartLists(s, l, k, t);
    StartCalls(s, l, k, t);
    forall j | j in l' ensures Placed(s', j, l'[j]) {
      if j != k { assert Placed(s, j, l[j]); }
    }
  }

  lemma KillAgrees(s: Sys, l: Ledger, caller: Option<ThreadId>, o: ObjectId, id: int)
    requires Agrees(s, l) && OnOwnThread(s, caller, o) && HomeOf(s, o).Some?
    ensures Agrees(Next(s, Kill(caller, o, id)), LedgerNext(s, l, Kill(caller, o, id)))
  {
    var op, t := Kill(caller, o, id), HomeOf(s, o).value;
    var s', l' := Next(s, op), LedgerNext(s, l, op);
    UnregisteredNames(s.lists[t], id);
    forall u | u in s'.lists ensures DistinctIds(s'.lists[u]) && Names(s'.lists[u]) == At(l', Listed(u)) {
      assert Names(s.lists[u]) == At(l, Listed(u));
      if u != t { assert At(l', Listed(u)) == At(l, Listed(u)); }
    }
    forall i | 0 <= i < |s.calls| ensures CallAgrees(s.calls[i], l') {
      assert CallAgrees(s.calls[i], l);
      assert At(l', Carried(s.calls[i].serial)) == At(l, Carried(s.calls[i].serial));
    }
    forall j | j in l' ensures Placed(s', j, l'[j]) {
      assert Placed(s, j, l[j]);
    }
  }

  /** The timers an object leaves behind are all on its own thread's list. */
  lemma ListedAtHome(s: Sys, l: Ledger, o: ObjectId, k: Timer)
    requires Agrees(s, l) && k in l && k.owner == o && l[k].Listed?
    ensures HomeOf(s, o).Some? && l[k] == Listed(HomeOf(s, o).value) && k in Names(s.lists[HomeOf(s, o).value])
  {
    assert Placed(s, k, l[k]);
    assert k in At(l, l[k]);
  }

  /** The call a move posts carries exactly the timers it detached. */
  lemma TakenAgrees(s: Sys, l: Ledger, o: ObjectId)
    requires Agrees(s, l) && o in s.affinity
    ensures var taken := Call(0, s.nextSerial, o, TakenOf(s, o));
            DistinctRegs(taken.timers) && Carries(taken) == set k | k in l && k.owner == o && l[k].Listed?
    ensures TakenOf(s, o) == [] <==> forall k :: k in l && k.owner == o ==> !l[k].Listed?
  {
    var c := Call(0, s.nextSerial, o, TakenOf(s, o));
    var home := HomeOf(s, o);
    forall k | k in l && k.owner == o && l[k].Listed? ensures home.Some? && k in Names(s.lists[home.value]) {
      ListedAtHome(s, l, o, k);
    }
    if home.Some? {
      assert Names(s.lists[home.value]) == At(l, Listed(home.value));
      TakenNames(s.lists[home.value], o, c);
    }
    assert Carries(c) == set k | k in l && k.owner == o && l[k].Listed?;
    if c.timers == [] {
      assert Carries(c) == {};
      forall k | k in l && k.owner == o ensures !l[k].Listed? {
        assert k !in Carries(c);
      }
    } else {
      var r := c.timers[0];
      assert Timer(r.timerId, r.intervalMs, o) in Carries(c);
    }
  }

  lemma DetachedLists(s: Sys, l: Ledger, o: ObjectId, target: Option<ThreadId>, u: ThreadId)
    requires Agrees(s, l) && o in s.affinity && u in s.lists
    ensures DistinctIds(Detached(s, o, target).lists[u])
    ensures Names(Detached(s, o, target).lists[u]) == set k | k in l && k.owner != o && l[k] == Listed(u)
  {
    assert Names(s.lists[u]) == At(l, Listed(u));
    var home := HomeOf(s, o);
    if home == Some(u) {
      TakenNames(s.lists[u], o, Call(u, 0, o, TakenFor(s.lists[u], o)));
    } else {
      forall k | k in At(l, Listed(u)) ensures k.owner != o {
        if k.owner == o { ListedAtHome(s, l, o, k); }
      }
    }
  }

  lemma MoveLists(s: Sys, l: Ledger, caller: Option<ThreadId>, o: ObjectId, target: Option<ThreadId>)
    requires Agrees(s, l) && MayMove(s, caller, o, target)
    ensures ListsAgree(Moved(s, o, target).lists, LedgerNext(s, l, Move(caller, o, target)))
  {
    var s', l' := Moved(s, o, target), LedgerNext(s, l, Move(caller, o, target));
    forall u | u in s'.lists ensures DistinctIds(s'.lists[u]) && Names(s'.lists[u]) == At(l', Listed(u)) {
      DetachedLists(s, l, o, target, u);
      assert At(l', Listed(u)) == set k | k in l && k.owner != o && l[k] == Listed(u);
    }
  }

  /** A serial not yet given out carries nothing. */
  lemma FreshSerial(s: Sys, l: Ledger)
    requires AllPlaced(s, l) && Numbered(s.calls, s.nextSerial)
    ensures At(l, Carried(s.nextSerial)) == {}
  {
    forall k | k in l ensures l[k] != Carried(s.nextSerial) {
      assert Placed(s, k, l[k]);
    }
  }

  lemma MoveCalls(s: Sys, l: Ledger, caller: Option<ThreadId>, o: ObjectId, target: Option<ThreadId>)
    requires Agrees(s, l) && MayMove(s, caller, o, target)
    ensures CallsAgree(Moved(s, o, target).calls, LedgerNext(s, l, Move(caller, o, target)))
    ensures Numbered(Moved(s, o, target).calls, Moved(s, o, target).nextSerial)
  {
    var s', l' := Moved(s, o, target), LedgerNext(s, l, Move(caller, o, target));
    TakenAgrees(s, l, o);
    FreshSerial(s, l);
    forall i | 0 <= i < |s'.calls| ensures CallAgrees(s'.calls[i], l') {
      var c := s'.calls[i];
      if i < |s.calls| {
        assert CallAgrees(s.calls[i], l);
        assert At(l', Carried(c.serial)) == At(l, Carried(c.serial));
      } else {
        assert Carries(c) == Carries(Call(0, s.nextSerial, o, TakenOf(s, o)));
        assert At(l', Carried(s.nextSerial)) == set k | k in l && k.owner == o && l[k].Listed?;
      }
    }
  }

  lemma MovePlaced(s: Sys, l: Ledger, caller: Option<ThreadId>, o: ObjectId, target: Option<ThreadId>)
    requires Agrees(s, l) && MayMove(s, caller, o, target)
    ensures AllPlaced(Moved(s, o, target), LedgerNext(s, l, Move(caller, o, target)))
  {
    var s', l' := Moved(s, o, target), LedgerNext(s, l, Move(caller, o, target));
    TakenAgrees(s, l, o);
    forall k | k in l' ensures Placed(s', k, l'[k]) {
      assert Placed(s, k, l[k]);
      if k.owner == o && l[k].Listed? {
        assert s'.calls[|s.calls|].serial == s.nextSerial;
      } else if l[k].Carried? {
        var i :| 0 <= i < |s.calls| && s.calls[i].serial == l[k].serial;
        assert s'.calls[i] == s.calls[i];
      }
    }
  }

  lemma MoveAgrees(s: Sys, l: Ledger, caller: Option<ThreadId>, o: ObjectId, target: Option<ThreadId>)
    requires Agrees(s, l) && MayMove(s, caller, o, target)
    ensures Agrees(Next(s, Move(caller, o, target)), LedgerNext(s, l, Move(caller, o, target)))
  {
    MoveLists(s, l, caller, o, target);
    MoveCalls(s, l, caller, o, target);
    MovePlaced(s, l, caller, o, target);
  }

  lemma CarriedTimers(s: Sys, l: Ledger, i: nat)
    requires Agrees(s, l) && i < |s.calls|
    ensures var c := s.calls[i];
            && (forall r :: r in c.timers ==> r.intervalMs >= 0)
            && (forall r, k :: r in c.timers && k in l && l[k].Listed? ==> k.id != r.timerId)
  {
    var c := s.calls[i];
    assert CallAgrees(c, l);
    forall r | r in c.timers ensures Timer(r.timerId, r.intervalMs, c.owner) in At(l, Carried(c.serial)) {
      assert Timer(r.timerId, r.intervalMs, c.owner) in Carries(c);
    }
  }

  lemma RunLists(s: Sys, l: Ledger, t: ThreadId)
    requires Agrees(s, l) && FirstFor(s.calls, t) < |s.calls|
    ensures ListsAgree(Next(s, RunCall(t)).lists, LedgerNext(s, l, RunCall(t)))
  {
    var i := FirstFor(s.calls, t);
    var c := s.calls[i];
    var s', l', home := Ran(s, i), LedgerNext(s, l, RunCall(t)), HomeOf(s, c.owner);
    assert CallAgrees(c, l);
    forall u | u in s'.lists ensures DistinctIds(s'.lists[u]) && Names(s'.lists[u]) == At(l', Listed(u)) {
      assert Names(s.lists[u]) == At(l, Listed(u));
      if home == Some(u) {
        CarriedTimers(s, l, i);
        RegisteredAllNames(s.lists[u], c, c.timers, s.clock);
        assert c.(timers := c.timers) == c;
        assert At(l', Listed(u)) == At(l, Listed(u)) + At(l, Carried(c.serial));
      } else {
        assert At(l', Listed(u)) == At(l, Listed(u));
      }
    }
  }

  lemma RunCalls(s: Sys, l: Ledger, t: ThreadId)
    requires Agrees(s, l) && FirstFor(s.calls, t) < |s.calls|
    ensures CallsAgree(Next(s, RunCall(t)).calls, LedgerNext(s, l, RunCall(t)))
  {
    var i := FirstFor(s.calls, t);
    var s', l' := Ran(s, i), LedgerNext(s, l, RunCall(t));
    forall j | 0 <= j < |s'.calls| ensures CallAgrees(s'.calls[j], l') {
      var d := if j < i then j else j + 1;
      assert s'.calls[j] == s.calls[d];
      assert CallAgrees(s.calls[d], l);
      assert s.calls[d].serial != s.calls[i].serial;
      assert At(l', Carried(s.calls[d].serial)) == At(l, Carried(s.calls[d].serial));
    }
  }

  lemma RunNumbered(s: Sys, i: nat)
    requires i < |s.calls| && Numbered(s.calls, s.nextSerial)
    ensures Numbered(Ran(s, i).calls, s.nextSerial)
  {
    var r := Ran(s, i).calls;
    assert forall j :: 0 <= j < |r| ==> r[j] == s.calls[if j < i then j else j + 1];
  }

  lemma RunPlacedOne(s: Sys, i: nat, k: Timer, spot: Spot)
    requires i < |s.calls| && Placed(s, k, spot) && Numbered(s.calls, s.nextSerial)
    requires spot != Carried(s.calls[i].serial)
    ensures Placed(Ran(s, i), k, spot)
  {
    if spot.Carried? {
      var j :| 0 <= j < |s.calls| && s.calls[j].serial == spot.serial;
      assert Ran(s, i).calls[if j < i then j else j - 1] == s.calls[j];
    }
  }

  lemma RunPlaced(s: Sys, l: Ledger, t: ThreadId)
    requires Agrees(s, l) && FirstFor(s.calls, t) < |s.calls|
    ensures AllPlaced(Next(s, RunCall(t)), LedgerNext(s, l, RunCall(t)))
  {
    var i := FirstFor(s.calls, t);
    var c := s.calls[i];
    var s', l' := Ran(s, i), LedgerNext(s, l, RunCall(t));
    assert CallAgrees(c, l);
    forall k | k in l' ensures Placed(s', k, l'[k]) {
      assert Placed(s, k, l[k]);
      if l[k] == Carried(c.serial) {
        assert k in At(l, Carried(c.serial));
        assert k.owner == c.owner;
      } else {
        RunPlacedOne(s, i, k, l[k]);
      }
    }
  }

  lemma RunAgrees(s: Sys, l: Ledger, t: ThreadId)
    requires Agrees(s, l) && FirstFor(s.calls, t) < |s.calls|
    ensures Agrees(Next(s, RunCall(t)), LedgerNext(s, l, RunCall(t)))
  {
    RunLists(s, l, t);
    RunCalls(s, l, t);
    RunNumbered(s, FirstFor(s.calls, t));
    RunPlaced(s, l, t);
  }

  lemma SameNamesAgree(s: Sys, s': Sys, l: Ledger)
    requires Agrees(s, l) && s'.calls == s.calls && s'.nextSerial == s.nextSerial && s'.nextId >= s.nextId
    requires s.lists.Keys <= s'.lists.Keys && ListsAgree(s'.lists, l)
    requires forall o :: o in s.affinity ==> o in s'.affinity && s'.affinity[o] == s.affinity[o]
    ensures Agrees(s', l)
  {
    forall k | k in l ensures Placed(s', k, l[k]) {
      assert Placed(s, k, l[k]);
    }
  }

  lemma InstallAgrees(s: Sys, l: Ledger, t: ThreadId)
    requires Agrees(s, l) && t !in s.lists
    ensures ListsAgree(s.lists[t := []], l)
  {
    forall k | k in l ensures l[k] != Listed(t) {
      assert Placed(s, k, l[k]);
    }
    assert Names([]) == {} == At(l, Listed(t));
  }

  lemma NextAgrees(s: Sys, l: Ledger, op: Op)
    requires Agrees(s, l)
    ensures Agrees(Next(s, op), LedgerNext(s, l, op))
  {
    match op
    case Create(o, thread) => SameNamesAgree(s, Next(s, op), l);
    case Install(t) =>
      if t !in s.lists {
        InstallAgrees(s, l, t);
      }
      SameNamesAgree(s, Next(s, op), l);
    case Start(caller, o, intervalMs) =>
      if OnOwnThread(s, caller, o) && HomeOf(s, o).Some? && intervalMs >= 0 {
        StartAgrees(s, l, caller, o, intervalMs);
      } else {
        SameNamesAgree(s, Next(s, op), l);
      }
    case Kill(caller, o, id) =>
      if OnOwnThread(s, caller, o) && HomeOf(s, o).Some? { KillAgrees(s, l, caller, o, id); }
    case Move(caller, o, target) =>
      if MayMove(s, caller, o, target) { MoveAgrees(s, l, caller, o, target); }
    case RunCall(t) =>
      if FirstFor(s.calls, t) < |s.calls| { RunAgrees(s, l, t); }
    case Collect(t) =>
      if t in s.lists {
        AdvancedNames(s.lists[t], s.clock);
      }
      SameNamesAgree(s, Next(s, op), l);
    case Tick(ns) => SameNamesAgree(s, Next(s, op), l);
  }

  lemma {:induction false} LedgerIsRight(ops: seq<Op>)
    ensures Agrees(Run(EMPTY, ops), LedgerRun(EMPTY, ops))
  {
    if ops != [] {
      LedgerIsRight(ops[..|ops| - 1]);
      NextAgrees(Run(EMPTY, ops[..|ops| - 1]), LedgerRun(EMPTY, ops[..|ops| - 1]), ops[|ops| - 1]);
    }
  }

  // ---------------------------------------------------------------- where timers are, and when they are lost

  function ListsHolding(s: Sys, k: Timer): set<ThreadId>
  {
    set t | t in s.lists && k in Names(s.lists[t])
  }

  function CallsHolding(s: Sys, k: Timer): set<nat>
  {
    set i: nat | i < |s.calls| && k in Carries(s.calls[i])
  }

  lemma ListedPlaces(s: Sys, l: Ledger, k: Timer)
    requires Agrees(s, l)
    ensures ListsHolding(s, k) == if k in l && l[k].Listed? then {l[k].thread} else {}
  {
    forall t | t in s.lists ensures k in Names(s.lists[t]) <==> k in l && l[k] == Listed(t) {
      assert Names(s.lists[t]) == At(l, Listed(t));
    }
    if k in l {
      assert Placed(s, k, l[k]);
    }
  }

  lemma CarriedPlaces(s: Sys, l: Ledger, k: Timer)
    requires Agrees(s, l)
    ensures if k in l && l[k].Carried? then exists i :: CallsHolding(s, k) == {i} else CallsHolding(s, k) == {}
  {
    forall i: nat | i < |s.calls| ensures k in Carries(s.calls[i]) <==> k in l && l[k] == Carried(s.calls[i].serial) {
      assert CallAgrees(s.calls[i], l);
    }
    if k in l && l[k].Carried? {
      assert Placed(s, k, l[k]);
      var i: nat :| i < |s.calls| && s.calls[i].serial == l[k].serial;
      assert CallsHolding(s, k) == {i};
    }
  }

  /** Nowhere, or in one place only: one dispatcher, that of its object's present thread, or one queued call. */
  ghost predicate InOnePlace(s: Sys, known: bool, k: Timer)
  {
    if !known then ListsHolding(s, k) == {} && CallsHolding(s, k) == {}
    else
      || (CallsHolding(s, k) == {} && HomeOf(s, k.owner).Some? && ListsHolding(s, k) == {HomeOf(s, k.owner).value})
      || (ListsHolding(s, k) == {} && exists i :: CallsHolding(s, k) == {i})
  }

  /** After any run a timer the ledger knows is in exactly one place, once, and any other is nowhere. */
  lemma ExactlyOnePlace(ops: seq<Op>, k: Timer)
    ensures InOnePlace(Run(EMPTY, ops), k in LedgerRun(EMPTY, ops), k)
    ensures forall t :: t in Run(EMPTY, ops).lists ==> DistinctIds(Run(EMPTY, ops).lists[t])
  {
    var s, l := Run(EMPTY, ops), LedgerRun(EMPTY, ops);
    LedgerIsRight(ops);
    ListedPlaces(s, l, k);
    CarriedPlaces(s, l, k);
    if k in l {
      assert Placed(s, k, l[k]);
    }
  }

  /** Once no re-registration is queued, every known timer is on its object's present thread. */
  lemma DrainedTimersAreHome(ops: seq<Op>, k: Timer)
    requires Run(EMPTY, ops).calls == [] && k in LedgerRun(EMPTY, ops)
    ensures var s := Run(EMPTY, ops);
            k.owner in s.affinity && s.affinity[k.owner].Some? && ListsHolding(s, k) == {s.affinity[k.owner].value}
  {
    LedgerIsRight(ops);
    ListedPlaces(Run(EMPTY, ops), LedgerRun(EMPTY, ops), k);
    assert Placed(Run(EMPTY, ops), k, LedgerRun(EMPTY, ops)[k]);
  }

  /** A move keeps every timer if and only if there was none to carry or the target thread has a dispatcher. */
  lemma MoveConservesIff(s: Sys, l: Ledger, caller: Option<ThreadId>, o: ObjectId, target: Option<ThreadId>)
    requires Agrees(s, l) && MayMove(s, caller, o, target)
    ensures LedgerNext(s, l, Move(caller, o, target)).Keys == l.Keys <==>
            TakenOf(s, o) == [] || (target.Some? && target.value in s.lists)
  {
    var l' := LedgerNext(s, l, Move(caller, o, target));
    TakenAgrees(s, l, o);
    if TakenOf(s, o) != [] {
      var k :| k in l && k.owner == o && l[k].Listed?;
      assert k in l'.Keys <==> HomeOf(Detached(s, o, target), o).Some?;
    }
    if HomeOf(Detached(s, o, target), o).Some? || TakenOf(s, o) == [] {
      assert l'.Keys == l.Keys;
    }
  }

  /** A queued call delivers its timers if and only if its object then has a thread with a dispatcher. */
  lemma RunConservesIff(s: Sys, l: Ledger, t: ThreadId)
    requires Agrees(s, l) && FirstFor(s.calls, t) < |s.calls|
    ensures LedgerNext(s, l, RunCall(t)).Keys == l.Keys <==> HomeOf(s, s.calls[FirstFor(s.calls, t)].owner).Some?
  {
    var c := s.calls[FirstFor(s.calls, t)];
    var l' := LedgerNext(s, l, RunCall(t));
    assert CallAgrees(c, l);
    var k := Timer(c.timers[0].timerId, c.timers[0].intervalMs, c.owner);
    assert k in Carries(c);
    assert k in At(l, Carried(c.serial));
    if HomeOf(s, c.owner).Some? {
      assert l'.Keys == l.Keys;
    } else {
      assert k !in l'.Keys;
    }
  }

  /** Killing a timer that is between two threads finds nothing: the system does not change at all. */
  lemma KillInFlightFindsNothing(s: Sys, l: Ledger, caller: Option<ThreadId>, k: Timer)
    requires Agrees(s, l) && k in l && l[k].Carried?
    ensures Next(s, Kill(caller, k.owner, k.id)) == s
  {
    if OnOwnThread(s, caller, k.owner) && HomeOf(s, k.owner).Some? {
      var t := HomeOf(s, k.owner).value;
      forall x | x in s.lists[t] ensures x.timerId != k.id {
        NameOf(s.lists[t], x);
        assert Timer(x.timerId, x.intervalMs, x.receiver) in At(l, Listed(t));
      }
      UnregisteredNothing(s.lists[t], k.id);
      assert s.lists[t := s.lists[t]] == s.lists;
    }
  }

  /**
    killTimer() for a timer the ledger knows leaves no trace of it if and only if the call is made on the object's
    own thread and the timer is not between two threads.
   */
  lemma KillFindsIff(s: Sys, l: Ledger, caller: Option<ThreadId>, k: Timer)
    requires Agrees(s, l) && k in l
    ensures var s' := Next(s, Kill(caller, k.owner, k.id));
            (ListsHolding(s', k) == {} && CallsHolding(s', k) == {}) <==>
              OnOwnThread(s, caller, k.owner) && l[k].Listed?
  {
    var op := Kill(caller, k.owner, k.id);
    var s', l' := Next(s, op), LedgerNext(s, l, op);
    NextAgrees(s, l, op);
    ListedPlaces(s', l', k);
    CarriedPlaces(s', l', k);
    if l[k].Listed? {
      ListedAtHome(s, l, k.owner, k);
    }
    assert k !in l' <==> OnOwnThread(s, caller, k.owner) && l[k].Listed?;
  }

  lemma {:induction false} UnregisteredNothing(list: seq<TimerData>, id: int)
    requires forall x :: x in list ==> x.timerId != id
    ensures Unregistered(list, id) == list
  {
    if list != [] {
      assert list[0] in list && forall x :: x in list[1..] ==> x in list;
      UnregisteredNothing(list[1..], id);
    }
  }

  // ---------------------------------------------------------------- chains of moves to threads with dispatchers

  /** The timers started and not killed: what a program is entitled to expect. */
  function Expected(s: Sys, ops: seq<Op>): set<Timer>
  {
    if ops == [] then {}
    else
      var before, op, rest := Run(s, ops[..|ops| - 1]), ops[|ops| - 1], Expected(s, ops[..|ops| - 1]);
      match op
      case Start(caller, o, intervalMs) =>
        if Started(before, caller, o, intervalMs).1 != -1 && intervalMs >= 0
        then rest + {Timer(Started(before, caller, o, intervalMs).1, intervalMs, o)} else rest
      case Kill(caller, o, id) =>
        if OnOwnThread(before, caller, o) && HomeOf(before, o).Some?
        then set k | k in rest && !(k.id == id && k in Names(before.lists[HomeOf(before, o).value])) else rest
      case _ => rest
  }

  /** Every move that took effect went to a thread with a dispatcher. */
  predicate MovesHaveDispatchers(s: Sys, ops: seq<Op>)
  {
    ops == [] ||
    var before, op := Run(s, ops[..|ops| - 1]), ops[|ops| - 1];
    MovesHaveDispatchers(s, ops[..|ops| - 1]) &&
    (op.Move? && MayMove(before, op.caller, op.o, op.target) ==> op.target.Some? && op.target.value in before.lists)
  }

  /** Objects with a call on its way have a dispatcher to receive it. */
  ghost predicate CallsHaveHomes(s: Sys)
  {
    forall i :: 0 <= i < |s.calls| ==> HomeOf(s, s.calls[i].owner).Some?
  }

  lemma NextKeepsHomes(s: Sys, op: Op)
    requires CallsHaveHomes(s)
    requires op.Move? && MayMove(s, op.caller, op.o, op.target) ==> op.target.Some? && op.target.value in s.lists
    ensures CallsHaveHomes(Next(s, op))
  {
    var s' := Next(s, op);
    if op.RunCall? {
      RunCallKeepsHomes(s, op);
    } else {
      forall i | 0 <= i < |s'.calls| ensures HomeOf(s', s'.calls[i].owner).Some? {
        if i < |s.calls| {
          assert s'.calls[i] == s.calls[i];
        }
      }
    }
  }

  lemma RunCallKeepsHomes(s: Sys, op: Op)
    requires CallsHaveHomes(s) && op.RunCall?
    ensures CallsHaveHomes(Next(s, op))
  {
    var s' := Next(s, op);
    forall i | 0 <= i < |s'.calls| ensures HomeOf(s', s'.calls[i].owner).Some? {
      if FirstFor(s.calls, op.t) < |s.calls| {
        var d := if i < FirstFor(s.calls, op.t) then i else i + 1;
        assert s'.calls[i] == s.calls[d];
      }
    }
  }

  lemma IssuedPositive(s: Sys, op: Op)
    requires s.nextId >= 1
    ensures Next(s, op).nextId >= 1
  {
  }

  lemma {:induction false} RunFacts(ops: seq<Op>)
    ensures Run(EMPTY, ops).nextId >= 1
    ensures MovesHaveDispatchers(EMPTY, ops) ==> CallsHaveHomes(Run(EMPTY, ops))
  {
    if ops != [] {
      var front := ops[..|ops| - 1];
      RunFacts(front);
      IssuedPositive(Run(EMPTY, front), ops[|ops| - 1]);
      if MovesHaveDispatchers(EMPTY, ops) {
        NextKeepsHomes(Run(EMPTY, front), ops[|ops| - 1]);
      }
    }
  }

  /**
    Through any chain of moves to threads that have dispatchers nothing is lost and nothing comes back: the
    ledger holds exactly the timers started and not killed, each with the interval and object it was started with.
   */
  lemma {:induction false} ChainsOfMovesConserve(ops: seq<Op>)
    requires MovesHaveDispatchers(EMPTY, ops)
    ensures LedgerRun(EMPTY, ops).Keys == Expected(EMPTY, ops)
  {
    if ops != [] {
      var front, op := ops[..|ops| - 1], ops[|ops| - 1];
      var s, l := Run(EMPTY, front), LedgerRun(EMPTY, front);
      ChainsOfMovesConserve(front);
      LedgerIsRight(front);
      RunFacts(front);
      match op
      case Kill(caller, o, id) =>
        if OnOwnThread(s, caller, o) && HomeOf(s, o).Some? {
          assert Names(s.lists[HomeOf(s, o).value]) == At(l, Listed(HomeOf(s, o).value));
        }
      case Move(caller, o, target) =>
        if MayMove(s, caller, o, target) {
          MoveConservesIff(s, l, caller, o, target);
        }
      case RunCall(t) =>
        if FirstFor(s.calls, t) < |s.calls| {
          RunConservesIff(s, l, t);
        }
      case _ =>
    }
  }

  /**
    The same without the ledger: a timer started and not killed is in exactly one place after any such run, and
    on its object's present thread once no re-registration is queued; a timer killed or never started is nowhere.
   */
  lemma EveryTimerInOnePlace(ops: seq<Op>, k: Timer)
    requires MovesHaveDispatchers(EMPTY, ops)
    ensures InOnePlace(Run(EMPTY, ops), k in Expected(EMPTY, ops), k)
    ensures Run(EMPTY, ops).calls == [] && k in Expected(EMPTY, ops) ==>
              HomeOf(Run(EMPTY, ops), k.owner).Some?
              && ListsHolding(Run(EMPTY, ops), k) == {HomeOf(Run(EMPTY, ops), k.owner).value}
  {
    ChainsOfMovesConserve(ops);
    ExactlyOnePlace(ops, k);
    if Run(EMPTY, ops).calls == [] && k in Expected(EMPTY, ops) {
      DrainedTimersAreHome(ops, k);
    }
  }

  // ---------------------------------------------------------------- destruction after a move

  function CallsLeft(calls: seq<Call>, t: Option<ThreadId>, o: ObjectId): seq<Call>
  {
    if calls == [] then []
    else (if t == Some(calls[0].thread) && calls[0].owner == o then [] else [calls[0]]) + CallsLeft(calls[1..], t, o)
  }

  lemma {:induction false} CallsLeftMembers(calls: seq<Call>, t: Option<ThreadId>, o: ObjectId)
    ensures forall c :: c in CallsLeft(calls, t, o) <==> c in calls && !(t == Some(c.thread) && c.owner == o)
  {
    if calls != [] {
      CallsLeftMembers(calls[1..], t, o);
      assert calls == [calls[0]] + calls[1..];
    }
  }

  /** ~Object() cleans the dispatcher of the thread the object lives in, and no other. */
  function Destroyed(s: Sys, o: ObjectId): Sys
    requires o in s.affinity
  {
    var home := HomeOf(s, o);
    s.(lists := if home.Some? then s.lists[home.value := WithoutReceiver(s.lists[home.value], o)] else s.lists,
       calls := CallsLeft(s.calls, home, o), affinity := s.affinity - {o})
  }

  predicate Mentions(s: Sys, o: ObjectId)
  {
    (exists c :: c in s.calls && c.owner == o) || (exists t, x :: t in s.lists && x in s.lists[t] && x.receiver == o)
  }

  /** Nothing names a destroyed object if and only if every call it was sent was queued where it lived at the end. */
  lemma DestroyedIsForgottenIff(s: Sys, l: Ledger, o: ObjectId)
    requires Agrees(s, l) && o in s.affinity
    ensures !Mentions(Destroyed(s, o), o) <==>
              forall c :: c in s.calls && c.owner == o ==> HomeOf(s, o) == Some(c.thread)
  {
    var home, s' := HomeOf(s, o), Destroyed(s, o);
    CallsLeftMembers(s.calls, home, o);
    forall t, x | t in s'.lists && x in s'.lists[t] ensures x.receiver != o {
      if home == Some(t) {
        WithoutReceiverMembers(s.lists[t], o);
      } else {
        NameOf(s.lists[t], x);
        var k := Timer(x.timerId, x.intervalMs, x.receiver);
        assert k in At(l, Listed(t));
        if x.receiver == o {
          ListedAtHome(s, l, o, k);
        }
      }
    }
    forall c | c in s.calls && c.owner == o ensures c in s'.calls <==> home != Some(c.thread) { }
  }

  // ---------------------------------------------------------------- the objects and dispatchers themselves

  class TimerThreads {
    var mAffinity: map<ObjectId, Option<ThreadId>>
    var dispatchers: map<ThreadId, seq<TimerData>>
    var queued: seq<Call>
    var sNextTimerId: int
    var nextSerial: nat
    var clock: int

    ghost function Abs(): Sys
      reads this
    {
      Sys(mAffinity, dispatchers, queued, sNextTimerId, nextSerial, clock)
    }

    constructor ()
      ensures Abs() == EMPTY
    {
      mAffinity, dispatchers, queued, sNextTimerId, nextSerial, clock := map[], map[], [], 1, 0, 0;
    }

    /** The dispatcher of the thread o lives in. */
    method Dispatcher(o: ObjectId) returns (t: Option<ThreadId>)
      ensures t == HomeOf(Abs(), o)
    {
      if o in mAffinity && mAffinity[o].Some? && mAffinity[o].value in dispatchers {
        return mAffinity[o];
      }
      return None;
    }

    method StartTimer(caller: Option<ThreadId>, o: ObjectId, aInterval: int) returns (id: int)
      requires o in mAffinity
      modifies this
      ensures Abs() == Next(old(Abs()), Start(caller, o, aInterval))
      ensures id == Started(old(Abs()), caller, o, aInterval).1
    {
      if mAffinity[o] != caller {
        return -1;
      }
      var disp := Dispatcher(o);
      if disp.Some? {
        var timerId := sNextTimerId;
        sNextTimerId := sNextTimerId + 1;
        dispatchers := dispatchers[disp.value := Registered(dispatchers[disp.value], timerId, aInterval, o, clock)];
        return timerId;
      }
      return -1;
    }

    method KillTimer(caller: Option<ThreadId>, o: ObjectId, aId: int)
      requires o in mAffinity
      modifies this
      ensures Abs() == Next(old(Abs()), Kill(caller, o, aId))
    {
      if mAffinity[o] != caller {
        return;
      }
      var disp := Dispatcher(o);
      if disp.Some? {
        var kept := EventDispatcher.RemoveTimersById(dispatchers[disp.value], aId);
        dispatchers := dispatchers[disp.value := kept];
      }
    }

    method MoveToThread(callerThread: Option<ThreadId>, o: ObjectId, aThread: Option<ThreadId>) returns (ok: bool)
      requires o in mAffinity
      modifies this
      ensures Abs() == Next(old(Abs()), Move(callerThread, o, aThread))
      ensures ok <==> mAffinity[o] == aThread
    {
      var currentAffinity := mAffinity[o];
      if currentAffinity == aThread {
        return true;
      }
      var adoptingUnownedObject := currentAffinity == None && aThread == callerThread;
      if !adoptingUnownedObject && currentAffinity != callerThread {
        return false;
      }
      var timersToMove := [];
      var oldDispatcher := Dispatcher(o);
      if oldDispatcher.Some? {
        var kept, taken := EventDispatcher.RemoveTimersByReceiver(dispatchers[oldDispatcher.value], o);
        dispatchers := dispatchers[oldDispatcher.value := kept];
        timersToMove := taken;
      }
      mAffinity := mAffinity[o := aThread];
      assert Abs() == Detached(old(Abs()), o, aThread);
      if timersToMove != [] {
        var disp := Dispatcher(o);
        if disp.Some? {
          queued := queued + [Call(disp.value, nextSerial, o, timersToMove)];
          nextSerial := nextSerial + 1;
        }
      }
      return true;
    }

    /** A thread runs its next queued re-registration. */
    method RunNextCall(t: ThreadId)
      modifies this
      ensures Abs() == Next(old(Abs()), RunCall(t))
    {
      var i := 0;
      while i < |queued| && queued[i].thread != t
        invariant 0 <= i <= |queued|
        invariant forall j :: 0 <= j < i ==> queued[j].thread != t
      {
        i := i + 1;
      }
      if i == |queued| {
        return;
      }
      assert i == FirstFor(queued, t);
      var c := queued[i];
      queued := queued[..i] + queued[i + 1..];
      var disp := Dispatcher(c.owner);
      if disp.Some? {
        var list := dispatchers[disp.value];
        for k := 0 to |c.timers|
          invariant RegisteredAll(list, c.timers[k..], c.owner, clock) ==
                    RegisteredAll(dispatchers[disp.value], c.timers, c.owner, clock)
        {
          assert c.timers[k..][1..] == c.timers[k + 1..];
          list := Registered(list, c.timers[k].timerId, c.timers[k].intervalMs, c.owner, clock);
        }
        dispatchers := dispatchers[disp.value := list];
      }
    }

    method CreateObject(o: ObjectId, thread: Option<ThreadId>)
      requires o !in mAffinity
      modifies this
      ensures Abs() == Next(old(Abs()), Create(o, thread))
    {
      mAffinity := mAffinity[o := thread];
    }

    method InstallDispatcher(t: ThreadId)
      modifies this
      ensures Abs() == Next(old(Abs()), Install(t))
    {
      if t !in dispatchers {
        dispatchers := dispatchers[t := []];
      }
    }
  }
}
