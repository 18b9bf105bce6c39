/**
  The dispatcher's timer list: registration, expiry, the wait deadline, and how often a timer can fire.

  Time is the steady clock in nanoseconds. Intervals are milliseconds, as in the program.
 */
module TimerList {
  import opened Basics

  const NS_PER_MS := 1_000_000
  const INT_MAX := 0x7fff_ffff

  datatype TimerData = TimerData(timerId: int, intervalMs: int, receiver: ObjectId, nextFire: int)

  datatype TimerRegistration = TimerRegistration(timerId: int, intervalMs: int)

  // ---------------------------------------------------------------- operations on the list

  /** The index of the first timer with the given id, or the length of the list. */
  function IndexOf(timers: seq<TimerData>, id: int): (k: nat)
    ensures k <= |timers|
    ensures k < |timers| ==> timers[k].timerId == id
    ensures forall j :: 0 <= j < k ==> timers[j].timerId != id
  {
    if timers == [] || timers[0].timerId == id then 0 else 1 + IndexOf(timers[1..], id)
  }

  /** What registerTimer leaves: declined when the interval is negative, replaced in place when the id is known. */
  function Registered(timers: seq<TimerData>, id: int, intervalMs: int, receiver: ObjectId, now: int): seq<TimerData>
  {
    var data := TimerData(id, intervalMs, receiver, now + intervalMs * NS_PER_MS);
    if intervalMs < 0 then timers
    else if IndexOf(timers, id) < |timers| then timers[IndexOf(timers, id) := data]
    else timers + [data]
  }

  function Unregistered(timers: seq<TimerData>, id: int): seq<TimerData>
  {
    if timers == [] then []
    else (if timers[0].timerId == id then [] else [timers[0]]) + Unregistered(timers[1..], id)
  }

  function WithoutReceiver(timers: seq<TimerData>, receiver: ObjectId): seq<TimerData>
  {
    if timers == [] then []
    else (if timers[0].receiver == receiver then [] else [timers[0]]) + WithoutReceiver(timers[1..], receiver)
  }

  function TakenFor(timers: seq<TimerData>, receiver: ObjectId): seq<TimerRegistration>
  {
    if timers == [] then []
    else (if timers[0].receiver == receiver
          then [TimerRegistration(timers[0].timerId, timers[0].intervalMs)] else [])
         + TakenFor(timers[1..], receiver)
  }

  /** The timers whose deadline has passed, in list order. */
  function Expired(timers: seq<TimerData>, now: int): seq<TimerData>
  {
    if timers == [] then []
    else (if now >= timers[0].nextFire then [timers[0]] else []) + Expired(timers[1..], now)
  }

  function Rearm(t: TimerData, now: int): TimerData
  {
    if now >= t.nextFire then t.(nextFire := now + t.intervalMs * NS_PER_MS) else t
  }

  /** The list after a collection: every expired timer is due one interval after now. */
  function Advanced(timers: seq<TimerData>, now: int): (r: seq<TimerData>)
    ensures |r| == |timers|
    ensures forall i :: 0 <= i < |r| ==> r[i] == Rearm(timers[i], now)
  {
    if timers == [] then [] else [Rearm(timers[0], now)] + Advanced(timers[1..], now)
  }

  function MinFire(timers: seq<TimerData>): (m: int)
    requires timers != []
    ensures forall t :: t in timers ==> m <= t.nextFire
    ensures exists t :: t in timers && m == t.nextFire
  {
    if |timers| == 1 then timers[0].nextFire
    else
      var m := MinFire(timers[1..]);
      assert forall t :: t in timers ==> t == timers[0] || t in timers[1..];
      assert timers[0] in timers;
      assert forall t :: t in timers[1..] ==> t in timers;
      if timers[0].nextFire < m then timers[0].nextFire else m
  }

  /** The argument handed to waitForEvents(): -1 when no timer is registered. */
  function TimeoutMs(timers: seq<TimerData>, now: int): int
  {
    if timers == [] then -1
    else if MinFire(timers) > now then (MinFire(timers) - now) / NS_PER_MS
    else 0
  }

  // ---------------------------------------------------------------- what a collection takes

  /** A collection takes exactly the timers that are due: never early, none missed, no timer twice. */
  lemma {:induction false} ExpiredIsExact(timers: seq<TimerData>, now: int)
    requires DistinctIds(timers)
    ensures forall t :: t in Expired(timers, now) <==> t in timers && t.nextFire <= now
    ensures DistinctIds(Expired(timers, now))
  {
    if timers != [] {
      var rest := timers[1..];
      ExpiredIsExact(rest, now);
      assert timers == [timers[0]] + rest;
      var e := Expired(rest, now);
      forall j | 0 <= j < |e| ensures e[j].timerId != timers[0].timerId {
        assert e[j] in e;
      }
    }
  }

  /**
    A collection at `now` sets a due timer's deadline one interval after `now` and leaves the others': at any later
    time exactly the timers whose deadline that is have come due.
   */
  lemma DueAgainIff(timers: seq<TimerData>, now: int, later: int, t: TimerData)
    requires DistinctIds(timers) && t in timers
    ensures var deadline := if now >= t.nextFire then now + t.intervalMs * NS_PER_MS else t.nextFire;
            && (later >= deadline <==> exists u :: u in Expired(Advanced(timers, now), later) && u.timerId == t.timerId)
            && (forall u :: u in Advanced(timers, now) && u.timerId == t.timerId ==>
                  u.intervalMs == t.intervalMs && u.receiver == t.receiver)
  {
    var r := Advanced(timers, now);
    var i :| 0 <= i < |timers| && timers[i] == t;
    assert forall j :: 0 <= j < |r| ==> r[j].timerId == timers[j].timerId;
    ExpiredIsExact(r, later);
    assert r[i] in r;
    forall u | u in r && u.timerId == t.timerId ensures u == r[i] {
      var j :| 0 <= j < |r| && r[j] == u;
    }
  }

  ghost predicate DistinctIds(timers: seq<TimerData>)
  {
    forall i, j :: 0 <= i < j < |timers| ==> timers[i].timerId != timers[j].timerId
  }

  lemma DistinctTail(timers: seq<TimerData>)
    requires timers != [] && DistinctIds(timers)
    ensures DistinctIds(timers[1..])
    ensures forall t :: t in timers[1..] ==> t.timerId != timers[0].timerId
  {
  }

  // ---------------------------------------------------------------- the wait deadline

  ghost predicate Scheduled(t: TimerData, now: int)
  {
    0 <= t.intervalMs <= INT_MAX && t.nextFire <= now + t.intervalMs * NS_PER_MS
  }

  /**
    The timeout handed to the wait fits an int, never reaches past the earliest deadline, and
    falls short of it by less than one millisecond. Without timers there is no deadline at all.
   */
  lemma TimeoutIsTight(timers: seq<TimerData>, now: int)
    requires Expired(timers, now) == []
    requires forall t :: t in timers ==> Scheduled(t, now)
    ensures TimeoutMs(timers, now) == -1 <==> timers == []
    ensures timers != [] ==>
              var w := TimeoutMs(timers, now);
              0 <= w <= INT_MAX && now + w * NS_PER_MS <= MinFire(timers) < now + (w + 1) * NS_PER_MS
  {
    if timers != [] {
      NoneExpired(timers, now);
      var t :| t in timers && MinFire(timers) == t.nextFire;
      assert Scheduled(t, now);
      assert MinFire(timers) - now <= INT_MAX * NS_PER_MS;
    }
  }

  lemma {:induction false} NoneExpired(timers: seq<TimerData>, now: int)
    requires Expired(timers, now) == []
    ensures forall t :: t in timers ==> now < t.nextFire
  {
    if timers != [] {
      NoneExpired(timers[1..], now);
      assert forall t :: t in timers ==> t == timers[0] || t in timers[1..];
    }
  }

  // ---------------------------------------------------------------- membership after each operation

  lemma {:induction false} RegisteredMembers(timers: seq<TimerData>, id: int, intervalMs: int, receiver: ObjectId,
                                             now: int)
    requires DistinctIds(timers)
    ensures DistinctIds(Registered(timers, id, intervalMs, receiver, now))
    ensures forall t :: t in Registered(timers, id, intervalMs, receiver, now) ==>
                          (t in timers && (intervalMs >= 0 ==> t.timerId != id))
                          || (intervalMs >= 0 && t == TimerData(id, intervalMs, receiver, now + intervalMs * NS_PER_MS))
    ensures intervalMs >= 0 ==>
              TimerData(id, intervalMs, receiver, now + intervalMs * NS_PER_MS)
              in Registered(timers, id, intervalMs, receiver, now)
    ensures intervalMs >= 0 ==>
              forall t :: t in timers && t.timerId != id ==> t in Registered(timers, id, intervalMs, receiver, now)
  {
    var r := Registered(timers, id, intervalMs, receiver, now);
    var k := IndexOf(timers, id);
    if intervalMs >= 0 {
      forall t | t in timers && t.timerId != id ensures t in r {
        var i :| 0 <= i < |timers| && timers[i] == t;
        assert r[i] == t;
      }
      if k < |timers| {
        assert r[k].timerId == id;
        forall j | 0 <= j < |r| && j != k ensures r[j] == timers[j] && r[j].timerId != id {
          if j < k { assert timers[j].timerId != timers[k].timerId; }
          else { assert timers[k].timerId != timers[j].timerId; }
        }
      } else {
        assert r[|timers|].timerId == id;
      }
    }
  }

  lemma {:induction false} UnregisteredMembers(timers: seq<TimerData>, id: int)
    ensures forall t :: t in Unregistered(timers, id) <==> t in timers && t.timerId != id
    ensures DistinctIds(timers) ==> DistinctIds(Unregistered(timers, id))
  {
    if timers != [] {
      var rest := timers[1..];
      UnregisteredMembers(rest, id);
      assert timers == [timers[0]] + rest;
      var r := Unregistered(rest, id);
      if DistinctIds(timers) {
        DistinctTail(timers);
        forall j | 0 <= j < |r| ensures r[j].timerId != timers[0].timerId { assert r[j] in r; }
      }
    }
  }

  /** unregisterTimer's answer -- did remove_if find anything -- is whether the id was registered. */
  lemma {:induction false} UnregisteredLength(timers: seq<TimerData>, id: int)
    ensures |Unregistered(timers, id)| <= |timers|
    ensures |Unregistered(timers, id)| < |timers| <==> exists t :: t in timers && t.timerId == id
  {
    if timers != [] {
      UnregisteredLength(timers[1..], id);
      assert timers == [timers[0]] + timers[1..];
      if timers[0].timerId == id {
        assert timers[0] in timers;
      } else if exists t :: t in timers[1..] && t.timerId == id {
        var t :| t in timers[1..] && t.timerId == id;
        assert t in timers;
      }
    }
  }

  lemma {:induction false} WithoutReceiverMembers(timers: seq<TimerData>, receiver: ObjectId)
    ensures forall t :: t in WithoutReceiver(timers, receiver) <==> t in timers && t.receiver != receiver
    ensures DistinctIds(timers) ==> DistinctIds(WithoutReceiver(timers, receiver))
  {
    if timers != [] {
      var rest := timers[1..];
      WithoutReceiverMembers(rest, receiver);
      assert timers == [timers[0]] + rest;
      var r := WithoutReceiver(rest, receiver);
      if DistinctIds(timers) {
        DistinctTail(timers);
        forall j | 0 <= j < |r| ensures r[j].timerId != timers[0].timerId { assert r[j] in r; }
      }
    }
  }

  lemma {:induction false} TakenMembers(timers: seq<TimerData>, receiver: ObjectId)
    ensures |TakenFor(timers, receiver)| + |WithoutReceiver(timers, receiver)| == |timers|
    ensures forall reg :: reg in TakenFor(timers, receiver) <==>
                            exists t :: t in timers && t.receiver == receiver
                                        && reg == TimerRegistration(t.timerId, t.intervalMs)
  {
    if timers != [] {
      var rest := timers[1..];
      TakenMembers(rest, receiver);
      assert timers == [timers[0]] + rest;
      forall reg | reg in TakenFor(timers, receiver)
        ensures exists t :: t in timers && t.receiver == receiver
                            && reg == TimerRegistration(t.timerId, t.intervalMs)
      {
        if reg in TakenFor(rest, receiver) {
          var t :| t in rest && t.receiver == receiver && reg == TimerRegistration(t.timerId, t.intervalMs);
          assert t in timers;
        } else {
          assert timers[0] in timers;
        }
      }
    }
  }

  /** takeTimersForReceiver splits the list: what it returns and what it leaves make up what was there. */
  lemma TakeSplits(timers: seq<TimerData>, receiver: ObjectId)
    ensures |TakenFor(timers, receiver)| + |WithoutReceiver(timers, receiver)| == |timers|
    ensures forall reg :: reg in TakenFor(timers, receiver) <==>
                            exists t :: t in timers && t.receiver == receiver
                                        && reg == TimerRegistration(t.timerId, t.intervalMs)
    ensures forall t :: t in WithoutReceiver(timers, receiver) <==> t in timers && t.receiver != receiver
  {
    TakenMembers(timers, receiver);
    WithoutReceiverMembers(timers, receiver);
  }

  // ---------------------------------------------------------------- timer rate over whole runs

  /** Everything the dispatcher ever does to its timer list, plus the passage of time. */
  datatype Op =
    | Register(id: int, intervalMs: int, receiver: ObjectId)
    | Unregister(id: int)
    | Strip(receiver: ObjectId)
    | Collect
    | Advance(ns: nat)

  /** The list with its history: when each id was last registered and how often it was collected since. */
  datatype History = History(timers: seq<TimerData>, clock: int, since: map<int, int>, ticks: map<int, nat>)

  /** Ids collected by one pass gain one tick each. */
  function Bump(ticks: map<int, nat>, expired: seq<TimerData>): map<int, nat>
  {
    map id | id in ticks :: ticks[id] + Occurrences(expired, id)
  }

  function Occurrences(expired: seq<TimerData>, id: int): nat
  {
    if expired == [] then 0 else (if expired[0].timerId == id then 1 else 0) + Occurrences(expired[1..], id)
  }

  function Apply(h: History, op: Op): History
  {
    match op
    case Register(id, ms, r) =>
      if ms < 0 then h
      else History(Registered(h.timers, id, ms, r, h.clock), h.clock, h.since[id := h.clock], h.ticks[id := 0])
    case Unregister(id) => h.(timers := Unregistered(h.timers, id))
    case Strip(r) => h.(timers := WithoutReceiver(h.timers, r))
    case Collect => h.(timers := Advanced(h.timers, h.clock), ticks := Bump(h.ticks, Expired(h.timers, h.clock)))
    case Advance(ns) => h.(clock := h.clock + ns)
  }

  function ApplyAll(h: History, ops: seq<Op>): History
    decreases |ops|
  {
    if ops == [] then h else ApplyAll(Apply(h, ops[0]), ops[1..])
  }

  /** The intervals handed to registerTimer are ints. */
  ghost predicate IntIntervals(ops: seq<Op>)
  {
    forall i :: 0 <= i < |ops| && ops[i].Register? ==> ops[i].intervalMs <= INT_MAX
  }

  ghost predicate TimerInv(h: History, t: TimerData)
  {
    && Scheduled(t, h.clock)
    && t.timerId in h.since && t.timerId in h.ticks
    && h.since[t.timerId] + (h.ticks[t.timerId] + 1) * (t.intervalMs * NS_PER_MS) <= t.nextFire
  }

  ghost predicate RateInv(h: History)
  {
    DistinctIds(h.timers) && forall t :: t in h.timers ==> TimerInv(h, t)
  }

  lemma {:induction false} OccurrencesDistinct(es: seq<TimerData>, id: int)
    requires DistinctIds(es)
    ensures Occurrences(es, id) == if exists t :: t in es && t.timerId == id then 1 else 0
  {
    if es != [] {
      var rest := es[1..];
      DistinctTail(es);
      OccurrencesDistinct(rest, id);
      assert es == [es[0]] + rest;
      if es[0].timerId == id {
        assert es[0] in es;
        assert forall i :: 0 <= i < |rest| ==> rest[i] == es[i + 1];
      } else if exists t :: t in rest && t.timerId == id {
        var t :| t in rest && t.timerId == id;
        assert t in es;
      }
    }
  }

  lemma RearmKeepsRate(since: int, ticks: nat, interval: nat, fire: int, now: int)
    requires since + (ticks + 1) * interval <= fire <= now
    ensures since + (ticks + 2) * interval <= now + interval
  {
  }

  lemma CollectKeepsTimer(h: History, i: nat)
    requires RateInv(h) && i < |h.timers|
    ensures TimerInv(Apply(h, Collect), Apply(h, Collect).timers[i])
  {
    var t := h.timers[i];
    assert t in h.timers;
    assert TimerInv(h, t);
    var n := CollectedNow(h, i);
    var interval := t.intervalMs * NS_PER_MS;
    if h.clock >= t.nextFire {
      RearmKeepsRate(h.since[t.timerId], h.ticks[t.timerId], interval, t.nextFire, h.clock);
    }
  }

  /** A pass collects the i-th timer once when it is due and not at all otherwise. */
  lemma CollectedNow(h: History, i: nat) returns (n: nat)
    requires DistinctIds(h.timers) && i < |h.timers|
    ensures n == Occurrences(Expired(h.timers, h.clock), h.timers[i].timerId)
    ensures n == if h.clock >= h.timers[i].nextFire then 1 else 0
  {
    var t := h.timers[i];
    var e := Expired(h.timers, h.clock);
    ExpiredIsExact(h.timers, h.clock);
    OccurrencesDistinct(e, t.timerId);
    assert t in h.timers;
    n := Occurrences(e, t.timerId);
    if exists u :: u in e && u.timerId == t.timerId {
      var u :| u in e && u.timerId == t.timerId;
      assert u in h.timers;
      var j :| 0 <= j < |h.timers| && h.timers[j] == u;
      assert j == i;
    }
  }

  lemma CollectKeepsRate(h: History)
    requires RateInv(h)
    ensures RateInv(Apply(h, Collect))
  {
    var h' := Apply(h, Collect);
    forall t' | t' in h'.timers ensures TimerInv(h', t') {
      var i :| 0 <= i < |h'.timers| && h'.timers[i] == t';
      CollectKeepsTimer(h, i);
    }
  }

  lemma ApplyKeepsRate(h: History, op: Op)
    requires RateInv(h)
    requires op.Register? ==> op.intervalMs <= INT_MAX
    ensures RateInv(Apply(h, op))
  {
    var h' := Apply(h, op);
    match op {
      case Register(id, ms, r) =>
        RegisteredMembers(h.timers, id, ms, r, h.clock);
        forall t | t in h'.timers ensures TimerInv(h', t) {
          if t in h.timers { assert TimerInv(h, t); }
        }
      case Unregister(id) =>
        UnregisteredMembers(h.timers, id);
        forall t | t in h'.timers ensures TimerInv(h', t) { assert TimerInv(h, t); }
      case Strip(r) =>
        WithoutReceiverMembers(h.timers, r);
        forall t | t in h'.timers ensures TimerInv(h', t) { assert TimerInv(h, t); }
      case Collect => CollectKeepsRate(h);
      case Advance(ns) =>
        forall t | t in h'.timers ensures TimerInv(h', t) { assert TimerInv(h, t); }
    }
  }

  lemma {:induction false} RunKeepsRate(h: History, ops: seq<Op>)
    requires RateInv(h) && IntIntervals(ops)
    ensures RateInv(ApplyAll(h, ops))
    decreases |ops|
  {
    if ops != [] {
      ApplyKeepsRate(h, ops[0]);
      assert forall i :: 0 <= i < |ops[1..]| ==> ops[1..][i] == ops[i + 1];
      RunKeepsRate(Apply(h, ops[0]), ops[1..]);
    }
  }

  /**
    Over any run from an empty list: ids stay distinct, and a timer of interval I > 0 has been collected
    at most (now - registration) / I times.
   */
  lemma TimerRate(ops: seq<Op>, start: int, t: TimerData)
    requires IntIntervals(ops)
    requires t in ApplyAll(History([], start, map[], map[]), ops).timers
    ensures var h := ApplyAll(History([], start, map[], map[]), ops);
            && DistinctIds(h.timers)
            && t.timerId in h.ticks && t.timerId in h.since
            && (t.intervalMs > 0 ==>
                  h.ticks[t.timerId] <= (h.clock - h.since[t.timerId]) / (t.intervalMs * NS_PER_MS))
  {
    var h0 := History([], start, map[], map[]);
    RunKeepsRate(h0, ops);
    var h := ApplyAll(h0, ops);
    assert TimerInv(h, t);
    if t.intervalMs > 0 {
      var i := t.intervalMs * NS_PER_MS;
      var n := h.ticks[t.timerId];
      var d := h.clock - h.since[t.timerId];
      assert (n + 1) * i == n * i + i;
      assert n * i <= d;
      DivideBound(n, i, d);
    }
  }

  /**
    Over any run from an empty list, whenever no timer is due -- the only time a deadline is computed -- the timeout
    fits an int, never reaches past the earliest deadline and falls short of it by less than one millisecond.
   */
  lemma TimeoutOverRuns(ops: seq<Op>, start: int)
    requires IntIntervals(ops)
    requires var h := ApplyAll(History([], start, map[], map[]), ops); Expired(h.timers, h.clock) == []
    ensures var h := ApplyAll(History([], start, map[], map[]), ops);
            var w := TimeoutMs(h.timers, h.clock);
            && (w == -1 <==> h.timers == [])
            && (h.timers != [] ==>
                  0 <= w <= INT_MAX
                  && h.clock + w * NS_PER_MS <= MinFire(h.timers) < h.clock + (w + 1) * NS_PER_MS)
  {
    var h := ApplyAll(History([], start, map[], map[]), ops);
    RunKeepsRate(History([], start, map[], map[]), ops);
    forall t | t in h.timers ensures Scheduled(t, h.clock) { assert TimerInv(h, t); }
    TimeoutIsTight(h.timers, h.clock);
  }

  lemma MulMonotone(a: int, b: int, i: int)
    requires a <= b && i > 0
    ensures a * i <= b * i
  {
  }

  lemma DivideBound(n: nat, i: int, d: int)
    requires i > 0 && n * i <= d
    ensures n <= d / i
  {
    var q := d / i;
    assert d < (q + 1) * i;
    if n >= q + 1 {
      MulMonotone(q + 1, n, i);
      assert false;
    }
  }
}
