/**
  callLater(): the process-wide registry, the nodes it shares with queued metacalls, and the queue,
  proved to behave as one insertion-ordered map from keys to arguments.

  scheduleCallLater() is one step here: the window between its registry lock and its node lock is not modelled.
 */
module CallLater {
  import opened Basics

  type NodeId = nat
  type Args = int

  /**
    A registry key: the context, and a number for the type and bytes of the target. Keys are compared with ==,
    which CallLaterKeys.KeyEquality justifies.
   */
  datatype Key = Key(context: ObjectId, target: nat)

  // ---------------------------------------------------------------- the insertion-ordered map

  datatype Call = Call(key: Key, args: Args)

  function Find(m: seq<Call>, k: Key): (i: nat)
    ensures i <= |m|
    ensures i < |m| ==> m[i].key == k
    ensures forall j :: 0 <= j < i ==> m[j].key != k
  {
    if m == [] || m[0].key == k then 0 else 1 + Find(m[1..], k)
  }

  /** The first call of a key takes the last place; a later one only replaces the arguments. */
  function Put(m: seq<Call>, c: Call): seq<Call>
  {
    if Find(m, c.key) < |m| then m[Find(m, c.key) := c] else m + [c]
  }

  function PutAll(m: seq<Call>, calls: seq<Call>): seq<Call>
    decreases |calls|
  {
    if calls == [] then m else PutAll(Put(m, calls[0]), calls[1..])
  }

  ghost predicate Distinct(m: seq<Call>)
  {
    forall i, j :: 0 <= i < j < |m| ==> m[i].key != m[j].key
  }

  /** The arguments of the last call of k, if any. */
  function Last(calls: seq<Call>, k: Key): Option<Args>
  {
    if calls == [] then None
    else if calls[|calls| - 1].key == k then Some(calls[|calls| - 1].args)
    else Last(calls[..|calls| - 1], k)
  }

  lemma {:induction false} PutAllSnoc(m: seq<Call>, calls: seq<Call>, c: Call)
    ensures PutAll(m, calls + [c]) == Put(PutAll(m, calls), c)
    decreases |calls|
  {
    if calls == [] {
      assert [] + [c] == [c];
      assert PutAll(m, [c]) == PutAll(Put(m, c), [c][1..]);
    } else {
      assert (calls + [c])[1..] == calls[1..] + [c];
      PutAllSnoc(Put(m, calls[0]), calls[1..], c);
    }
  }

  lemma {:induction false} FindSnoc(calls: seq<Call>, c: Call, k: Key)
    ensures Find(calls + [c], k) ==
              if Find(calls, k) < |calls| then Find(calls, k)
              else if c.key == k then |calls| else |calls| + 1
  {
    if calls == [] {
      assert [] + [c] == [c];
      assert Find([c], k) == if c.key == k then 0 else 1 + Find([c][1..], k);
    } else {
      assert (calls + [c])[1..] == calls[1..] + [c];
      FindSnoc(calls[1..], c, k);
    }
  }

  /** Entry i of m stands for the burst's calls of that key: it holds the arguments of the last one. */
  ghost predicate Summarizes(m: seq<Call>, calls: seq<Call>, i: nat)
    requires i < |m|
  {
    Find(calls, m[i].key) < |calls| && Last(calls, m[i].key) == Some(m[i].args)
  }

  ghost predicate IsSummary(m: seq<Call>, calls: seq<Call>)
  {
    && Distinct(m)
    && (forall i: nat :: i < |m| ==> Summarizes(m, calls, i))
    && (forall i, j :: 0 <= i < j < |m| ==> Find(calls, m[i].key) < Find(calls, m[j].key))
    && (forall k :: Find(calls, k) < |calls| ==> Find(m, k) < |m|)
  }

  /**
    What a burst of calls leaves pending, whatever their order: one entry per key, the keys in the order
    of their first calls, each with the arguments of its last call.
   */
  lemma {:induction false} BurstMeansFirstPlaceLastArgs(calls: seq<Call>)
    ensures IsSummary(PutAll([], calls), calls)
    decreases |calls|
  {
    if calls != [] {
      var n := |calls| - 1;
      var front, c := calls[..n], calls[n];
      assert calls == front + [c];
      BurstMeansFirstPlaceLastArgs(front);
      PutAllSnoc([], front, c);
      BurstStep(PutAll([], front), front, c);
    }
  }

  lemma BurstEntry(m: seq<Call>, front: seq<Call>, c: Call, i: nat)
    requires IsSummary(m, front) && i < |Put(m, c)|
    ensures Summarizes(Put(m, c), front + [c], i)
    ensures Find(front + [c], Put(m, c)[i].key) == if i < |m| then Find(front, m[i].key) else |front|
  {
    var r := Put(m, c);
    FindSnoc(front, c, r[i].key);
    LastSnoc(front, c, r[i].key);
    if i < |m| {
      assert Summarizes(m, front, i);
    }
  }

  lemma BurstComplete(m: seq<Call>, front: seq<Call>, c: Call, k: Key)
    requires IsSummary(m, front) && Find(front + [c], k) <= |front|
    ensures Find(Put(m, c), k) < |Put(m, c)|
  {
    FindSnoc(front, c, k);
    PutFind(m, c, k);
  }

  lemma BurstStep(m: seq<Call>, front: seq<Call>, c: Call)
    requires IsSummary(m, front)
    ensures IsSummary(Put(m, c), front + [c])
  {
    var r, calls := Put(m, c), front + [c];
    PutFind(m, c, c.key);
    forall i: nat | i < |r|
      ensures Summarizes(r, calls, i)
      ensures Find(calls, r[i].key) == if i < |m| then Find(front, m[i].key) else |front|
    {
      BurstEntry(m, front, c, i);
    }
    forall i, j | 0 <= i < j < |r| ensures Find(calls, r[i].key) < Find(calls, r[j].key) {
      assert Summarizes(m, front, i);
    }
    forall k | Find(calls, k) < |calls| ensures Find(r, k) < |r| {
      BurstComplete(m, front, c, k);
    }
  }

  // ---------------------------------------------------------------- whole runs of the map

  /**
    What callLater() promises: the calls pending, in order, and the calls already run.
    live holds the objects that exist; expired those of them whose destructor has begun, so that their life token
    has expired. A destructor is two steps with its cleanup callbacks, arbitrary further steps, between them.
   */
  datatype State = State(pending: seq<Call>, ran: seq<Call>, live: set<ObjectId>, expired: set<ObjectId>,
                         hasDispatcher: bool)

  datatype Step = Schedule(call: Call) | RunHead | Expire(o: ObjectId) | Destroy(o: ObjectId) | InstallDispatcher

  predicate IsPending(m: seq<Call>, k: Key) { Find(m, k) < |m| }

  predicate Accepts(s: State, c: Call)
  {
    c.key.context in s.live && (IsPending(s.pending, c.key) || s.hasDispatcher)
  }

  function WithoutContext(m: seq<Call>, o: ObjectId): seq<Call>
  {
    if m == [] then []
    else (if m[0].key.context == o then [] else [m[0]]) + WithoutContext(m[1..], o)
  }

  function Next(s: State, step: Step): State
  {
    match step
    case Schedule(c) => if Accepts(s, c) then s.(pending := Put(s.pending, c)) else s
    case RunHead =>
      if s.pending == [] then s
      else s.(pending := s.pending[1..],
              ran := if s.pending[0].key.context in s.expired then s.ran else s.ran + [s.pending[0]])
    case Expire(o) => s.(expired := s.expired + {o})
    case Destroy(o) => s.(pending := WithoutContext(s.pending, o), live := s.live - {o})
    case InstallDispatcher => s.(hasDispatcher := true)
  }

  function Run(s: State, steps: seq<Step>): State
  {
    if steps == [] then s else Next(Run(s, steps[..|steps| - 1]), steps[|steps| - 1])
  }

  function Logged(s: State, log: seq<Call>, step: Step): seq<Call>
  {
    if step.Schedule? && Accepts(s, step.call) then log + [step.call] else log
  }

  /** The calls the run accepted, in the order they were made. */
  function Accepted(s: State, steps: seq<Step>): seq<Call>
  {
    if steps == [] then []
    else
      var front := steps[..|steps| - 1];
      Logged(Run(s, front), Accepted(s, front), steps[|steps| - 1])
  }

  function Times(calls: seq<Call>, k: Key): nat
  {
    if calls == [] then 0
    else Times(calls[..|calls| - 1], k) + if calls[|calls| - 1].key == k then 1 else 0
  }

  /** The last accepted call of a live key is pending or is the last of that key to have run. */
  predicate Kept(s: State, log: seq<Call>, k: Key)
  {
    && (IsPending(s.pending, k) ==> Last(log, k) == Some(s.pending[Find(s.pending, k)].args))
    && (!IsPending(s.pending, k) && k.context in s.live - s.expired ==> Last(s.ran, k) == Last(log, k))
  }

  ghost predicate Sound(s: State)
  {
    Distinct(s.pending) && forall c :: c in s.pending ==> c.key.context in s.live
  }

  lemma FindCons(c: Call, m: seq<Call>, k: Key)
    ensures Find([c] + m, k) == if c.key == k then 0 else 1 + Find(m, k)
  {
    assert ([c] + m)[1..] == m;
  }

  lemma WithoutContextCons(c: Call, m: seq<Call>, o: ObjectId)
    ensures WithoutContext([c] + m, o) ==
            if c.key.context == o then WithoutContext(m, o) else [c] + WithoutContext(m, o)
  {
    assert ([c] + m)[1..] == m;
  }

  /** What m holds for k, if anything. */
  function Entry(m: seq<Call>, k: Key): Option<Call>
  {
    if IsPending(m, k) then Some(m[Find(m, k)]) else None
  }

  lemma EntryCons(c: Call, m: seq<Call>, k: Key)
    ensures Entry([c] + m, k) == if c.key == k then Some(c) else Entry(m, k)
  {
    FindCons(c, m, k);
    if c.key != k && IsPending(m, k) {
      assert ([c] + m)[1 + Find(m, k)] == m[Find(m, k)];
    }
  }

  lemma {:induction false} WithoutContextFind(m: seq<Call>, o: ObjectId, k: Key)
    requires k.context != o
    ensures Entry(WithoutContext(m, o), k) == Entry(m, k)
  {
    if m != [] {
      var c, tail := m[0], m[1..];
      assert m == [c] + tail;
      WithoutContextFind(tail, o, k);
      WithoutContextCons(c, tail, o);
      EntryCons(c, tail, k);
      EntryCons(c, WithoutContext(tail, o), k);
    }
  }

  lemma {:induction false} WithoutContextMembers(m: seq<Call>, o: ObjectId)
    ensures forall c :: c in WithoutContext(m, o) <==> c in m && c.key.context != o
  {
    if m != [] {
      WithoutContextMembers(m[1..], o);
      assert m == [m[0]] + m[1..];
    }
  }

  lemma {:induction false} WithoutContextDistinct(m: seq<Call>, o: ObjectId)
    requires Distinct(m)
    ensures Distinct(WithoutContext(m, o))
  {
    if m != [] {
      assert forall i :: 0 <= i < |m[1..]| ==> m[1..][i] == m[i + 1];
      WithoutContextDistinct(m[1..], o);
      WithoutContextMembers(m[1..], o);
      var rest := WithoutContext(m[1..], o);
      forall c | c in rest ensures c.key != m[0].key {
        assert c in m[1..];
      }
    }
  }

  lemma FindIs(m: seq<Call>, k: Key, i: nat)
    requires Distinct(m) && i < |m| && m[i].key == k
    ensures Find(m, k) == i
  {
  }

  lemma LastSnoc(calls: seq<Call>, c: Call, k: Key)
    ensures Last(calls + [c], k) == if c.key == k then Some(c.args) else Last(calls, k)
    ensures Times(calls + [c], k) == Times(calls, k) + if c.key == k then 1 else 0
  {
    assert (calls + [c])[..|calls|] == calls;
  }

  lemma PutFind(m: seq<Call>, c: Call, k: Key)
    requires Distinct(m)
    ensures var r := Put(m, c);
            && Distinct(r)
            && (IsPending(r, k) <==> IsPending(m, k) || k == c.key)
            && (IsPending(r, k) ==> r[Find(r, k)].args == if k == c.key then c.args else m[Find(m, k)].args)
  {
    var r := Put(m, c);
    if Find(m, c.key) == |m| {
      FindSnoc(m, c, k);
    } else {
      forall i | 0 <= i < |m| ensures r[i].key == m[i].key { }
      if IsPending(m, k) {
        FindIs(r, k, Find(m, k));
      }
    }
  }

  /** A call made while its own invoker runs finds the key free again and takes the last place. */
  lemma ReentrantCallRearms(s: State, args: Args)
    requires Sound(s) && s.pending != [] && s.hasDispatcher
    ensures var k := s.pending[0].key;
            var during := Next(s, RunHead);
            && !IsPending(during.pending, k)
            && Next(during, Schedule(Call(k, args))).pending == s.pending[1..] + [Call(k, args)]
  {
    assert s.pending[0] in s.pending;
    var rest := s.pending[1..];
    assert forall i :: 0 <= i < |rest| ==> rest[i] == s.pending[i + 1];
  }

  /** A call that finds no dispatcher changes nothing, and the same call is accepted once there is one. */
  lemma FailedCallCanBeRetried(s: State, c: Call)
    requires c.key.context in s.live && !s.hasDispatcher && !IsPending(s.pending, c.key)
    ensures Next(s, Schedule(c)) == s
    ensures Run(s, [Schedule(c), InstallDispatcher, Schedule(c)]).pending == s.pending + [c]
  {
    var steps := [Schedule(c), InstallDispatcher, Schedule(c)];
    assert steps[..2] == [Schedule(c), InstallDispatcher] && steps[..2][..1] == [Schedule(c)];
    assert Run(s, [Schedule(c)]) == Next(Run(s, []), Schedule(c)) == s;
    assert Run(s, steps[..2]) == s.(hasDispatcher := true);
  }

  function Schedules(calls: seq<Call>): seq<Step>
  {
    if calls == [] then [] else Schedules(calls[..|calls| - 1]) + [Schedule(calls[|calls| - 1])]
  }

  function RunHeads(n: nat): seq<Step> { if n == 0 then [] else RunHeads(n - 1) + [RunHead] }

  /** A call whose context exists, with a dispatcher or for a key already pending, is pending with its arguments. */
  lemma ScheduledIsPending(s: State, c: Call)
    requires Sound(s) && c.key.context in s.live && (s.hasDispatcher || exists d :: d in s.pending && d.key == c.key)
    ensures var r := Next(s, Schedule(c));
            && Entry(r.pending, c.key) == Some(c)
            && (forall k :: k != c.key ==> Entry(r.pending, k) == Entry(s.pending, k))
            && r == s.(pending := r.pending)
  {
    PutFind(s.pending, c, c.key);
    forall k | k != c.key ensures Entry(Put(s.pending, c), k) == Entry(s.pending, k) {
      PutFind(s.pending, c, k);
    }
  }

  /** Any other call changes nothing at all. */
  lemma NotScheduledIsNothing(s: State, c: Call)
    requires c.key.context !in s.live || (!s.hasDispatcher && forall d :: d in s.pending ==> d.key != c.key)
    ensures Next(s, Schedule(c)) == s
  {
  }

  lemma {:induction false} BurstIsPutAll(s: State, calls: seq<Call>)
    requires s.hasDispatcher && forall c :: c in calls ==> c.key.context in s.live
    ensures Run(s, Schedules(calls)) == s.(pending := PutAll(s.pending, calls))
  {
    if calls != [] {
      var n := |calls| - 1;
      assert forall c :: c in calls[..n] ==> c in calls;
      BurstIsPutAll(s, calls[..n]);
      RunSnoc(s, Schedules(calls[..n]), Schedule(calls[n]));
      PutAllSnoc(s.pending, calls[..n], calls[n]);
      assert calls == calls[..n] + [calls[n]];
    }
  }

  /** From s to m, the first n pending calls have run, in order, and nothing else has changed. */
  predicate HeadsRan(s: State, n: nat, m: State)
  {
    n <= |s.pending| && m == s.(pending := s.pending[n..], ran := s.ran + s.pending[..n])
  }

  lemma OneMoreHead(s: State, n: nat, m: State)
    requires HeadsRan(s, n, m) && n < |s.pending| && s.pending[n].key.context !in s.expired
    ensures HeadsRan(s, n + 1, Next(m, RunHead))
  {
    assert m.pending[0] == s.pending[n] && m.pending[1..] == s.pending[n + 1..];
    assert m.ran + [s.pending[n]] == s.ran + s.pending[..n + 1];
  }

  lemma {:induction false} HeadsRunInOrder(s: State, n: nat)
    requires n <= |s.pending| && forall c :: c in s.pending ==> c.key.context !in s.expired
    ensures HeadsRan(s, n, Run(s, RunHeads(n)))
  {
    if n == 0 {
      assert s.pending[0..] == s.pending && s.ran + s.pending[..0] == s.ran;
    } else {
      var before := RunHeads(n - 1);
      HeadsRunInOrder(s, n - 1);
      RunSnoc(s, before, RunHead);
      assert s.pending[n - 1] in s.pending;
      OneMoreHead(s, n - 1, Run(s, before));
    }
  }

  /**
    A burst of calls of any keys, from a state with nothing pending: what is pending then has the keys in the order of
    their first calls, each with the arguments of its last, and that is what the loop runs.
   */
  lemma BurstRuns(s: State, calls: seq<Call>)
    requires s.pending == [] && s.hasDispatcher
    requires forall c :: c in calls ==> c.key.context in s.live && c.key.context !in s.expired
    ensures var t := Run(s, Schedules(calls));
            && IsSummary(t.pending, calls) && t.ran == s.ran
            && var r := Run(t, RunHeads(|t.pending|));
               r.pending == [] && r.ran == s.ran + t.pending
  {
    BurstIsPutAll(s, calls);
    BurstMeansFirstPlaceLastArgs(calls);
    var t := Run(s, Schedules(calls));
    forall c | c in t.pending ensures c.key.context !in s.expired {
      var i :| 0 <= i < |t.pending| && t.pending[i] == c;
      assert Summarizes(t.pending, calls, i);
      assert calls[Find(calls, c.key)].key == c.key;
    }
    HeadsRunInOrder(t, |t.pending|);
  }

  /** What a run has kept of key k: its last call, and no more executions than calls. */
  predicate Tracked(s: State, log: seq<Call>, k: Key)
  {
    && Kept(s, log, k)
    && Times(s.ran, k) + (if IsPending(s.pending, k) then 1 else 0) <= Times(log, k)
  }

  lemma ScheduleKeeps(s: State, log: seq<Call>, k: Key, c: Call)
    requires Sound(s) && Tracked(s, log, k) && Accepts(s, c)
    ensures Sound(Next(s, Schedule(c))) && Tracked(Next(s, Schedule(c)), log + [c], k)
  {
    PutFind(s.pending, c, k);
    LastSnoc(log, c, k);
  }

  lemma RunHeadKeeps(s: State, log: seq<Call>, k: Key)
    requires Sound(s) && Tracked(s, log, k) && s.pending != []
    ensures Sound(Next(s, RunHead)) && Tracked(Next(s, RunHead), log, k)
  {
    var head, rest := s.pending[0], s.pending[1..];
    assert forall i :: 0 <= i < |rest| ==> rest[i] == s.pending[i + 1];
    LastSnoc(s.ran, head, k);
  }

  lemma DestroyKeepsSound(s: State, o: ObjectId)
    requires Sound(s)
    ensures Sound(Next(s, Destroy(o)))
  {
    WithoutContextDistinct(s.pending, o);
    WithoutContextMembers(s.pending, o);
  }

  lemma DestroyKeeps(s: State, log: seq<Call>, k: Key, o: ObjectId)
    requires Sound(s) && Tracked(s, log, k)
    ensures Tracked(Next(s, Destroy(o)), log, k)
  {
    if k.context != o {
      WithoutContextFind(s.pending, o, k);
    } else {
      WithoutContextMembers(s.pending, o);
      NotPending(WithoutContext(s.pending, o), k);
    }
  }

  lemma NotPending(m: seq<Call>, k: Key)
    requires forall c :: c in m ==> c.key != k
    ensures !IsPending(m, k)
  {
    forall i | 0 <= i < |m| ensures m[i].key != k {
      assert m[i] in m;
    }
  }

  lemma NextKeeps(s: State, log: seq<Call>, step: Step, k: Key)
    requires Sound(s) && Tracked(s, log, k)
    ensures Sound(Next(s, step)) && Tracked(Next(s, step), Logged(s, log, step), k)
  {
    match step
    case Schedule(c) => if Accepts(s, c) { ScheduleKeeps(s, log, k, c); }
    case RunHead => if s.pending != [] { RunHeadKeeps(s, log, k); }
    case Destroy(o) =>
      DestroyKeepsSound(s, o);
      DestroyKeeps(s, log, k, o);
    case Expire(_) =>
    case InstallDispatcher =>
  }

  /**
    Over every run of calls, executions, destructors and a dispatcher appearing late: a live key's last
    accepted call is never lost (it is pending with those arguments, or was the last to run), a key is
    pending at most once, never for a dead context, and runs no more often than it was called.
   */
  lemma {:induction false} LastCallIsNeverLost(s: State, steps: seq<Step>, k: Key)
    requires s.pending == [] && s.ran == []
    ensures Sound(Run(s, steps))
    ensures Tracked(Run(s, steps), Accepted(s, steps), k)
  {
    if steps != [] {
      var front := steps[..|steps| - 1];
      LastCallIsNeverLost(s, front, k);
      NextKeeps(Run(s, front), Accepted(s, front), steps[|steps| - 1], k);
    }
  }

  lemma NextKeepsSound(s: State, step: Step)
    requires Sound(s)
    ensures Sound(Next(s, step))
  {
    match step
    case Schedule(c) => if Accepts(s, c) { PutFind(s.pending, c, c.key); }
    case Destroy(o) => DestroyKeepsSound(s, o);
    case RunHead =>
      assert s.pending != [] ==> forall i :: 0 <= i < |s.pending[1..]| ==> s.pending[1..][i] == s.pending[i + 1];
    case _ =>
  }

  lemma RunHeadOfExpired(s: State, step: Step, k: Key)
    requires k.context in s.expired
    ensures k.context in Next(s, step).expired && Times(Next(s, step).ran, k) == Times(s.ran, k)
  {
    if step.RunHead? && s.pending != [] {
      LastSnoc(s.ran, s.pending[0], k);
    }
  }

  /** Once its destructor has begun no call of a context runs; once it has ended none is pending either. */
  lemma {:induction false} ExpiredContextNeverRuns(s: State, steps: seq<Step>, k: Key)
    requires Sound(s) && k.context in s.expired
    ensures Sound(Run(s, steps)) && k.context in Run(s, steps).expired
    ensures Times(Run(s, steps).ran, k) == Times(s.ran, k)
    ensures k.context !in s.live ==> k.context !in Run(s, steps).live && !IsPending(Run(s, steps).pending, k)
  {
    if steps != [] {
      var front := steps[..|steps| - 1];
      ExpiredContextNeverRuns(s, front, k);
      NextKeepsSound(Run(s, front), steps[|steps| - 1]);
      RunHeadOfExpired(Run(s, front), steps[|steps| - 1], k);
    }
    if k.context !in Run(s, steps).live {
      NotPending(Run(s, steps).pending, k);
    }
  }

  lemma RunSnoc(s: State, steps: seq<Step>, step: Step)
    ensures Run(s, steps + [step]) == Next(Run(s, steps), step)
  {
    assert (steps + [step])[..|steps|] == steps;
  }

  lemma {:induction false} RunAppend(s: State, a: seq<Step>, b: seq<Step>)
    ensures Run(s, a + b) == Run(Run(s, a), b)
  {
    if b == [] {
      assert a + b == a;
    } else {
      assert (a + b)[..|a + b| - 1] == a + b[..|b| - 1];
      RunAppend(s, a, b[..|b| - 1]);
    }
  }

  /**
    A destructor with cleanup callbacks that may themselves call callLater() for the dying context: since the
    registry and the queue are cleaned after the callbacks, nothing of it remains, whatever happens next.
   */
  lemma DestructorLeavesNothing(s: State, o: ObjectId, callbacks: seq<Step>, after: seq<Step>, k: Key)
    requires Sound(s) && k.context == o
    ensures var t := Run(s, [Expire(o)] + callbacks + [Destroy(o)] + after);
            !IsPending(t.pending, k) && Times(t.ran, k) == Times(s.ran, k)
  {
    RunSnoc(s, [], Expire(o));
    assert [] + [Expire(o)] == [Expire(o)];
    var s1 := Next(s, Expire(o));
    ExpiredContextNeverRuns(s1, callbacks, k);
    RunAppend(s, [Expire(o)], callbacks);
    var s2 := Run(s1, callbacks);
    RunSnoc(s, [Expire(o)] + callbacks, Destroy(o));
    NextKeepsSound(s2, Destroy(o));
    ExpiredContextNeverRuns(Next(s2, Destroy(o)), after, k);
    RunAppend(s, [Expire(o)] + callbacks + [Destroy(o)], after);
  }

  // ---------------------------------------------------------------- registry, nodes and queue

  /** A queued callLater metacall: it holds its key and shares the node with the registry. */
  datatype Meta = Meta(key: Key, node: NodeId)

  function Alive(q: seq<Meta>, live: set<ObjectId>): seq<Meta>
  {
    if q == [] then []
    else
      (if q[0].key.context in live then [q[0]] else []) + Alive(q[1..], live)
  }

  ghost predicate Filled(q: seq<Meta>, nodes: map<NodeId, Option<Args>>)
  {
    forall i :: 0 <= i < |q| ==> q[i].node in nodes && nodes[q[i].node].Some?
  }

  ghost function Render(q: seq<Meta>, nodes: map<NodeId, Option<Args>>): (r: seq<Call>)
    requires Filled(q, nodes)
    ensures |r| == |q|
    ensures forall i :: 0 <= i < |q| ==> r[i] == Call(q[i].key, nodes[q[i].node].value)
  {
    seq(|q|, i requires 0 <= i < |q| && Filled(q, nodes) => Call(q[i].key, nodes[q[i].node].value))
  }

  ghost predicate Separate(q: seq<Meta>)
  {
    forall i, j :: 0 <= i < j < |q| ==> q[i].key != q[j].key && q[i].node != q[j].node
  }

  /** Registry keys and pending metacalls correspond one to one. */
  ghost predicate OneToOne(pending: map<Key, NodeId>, q: seq<Meta>)
  {
    && (forall i :: 0 <= i < |q| ==> q[i].key in pending && pending[q[i].key] == q[i].node)
    && (forall k :: k in pending ==> exists i :: 0 <= i < |q| && q[i].key == k)
  }

  ghost predicate Linked(pending: map<Key, NodeId>, q: seq<Meta>, nodes: map<NodeId, Option<Args>>)
  {
    Filled(q, nodes) && Separate(q) && OneToOne(pending, q)
  }

  ghost predicate AllLive(q: seq<Meta>, live: set<ObjectId>)
  {
    forall i :: 0 <= i < |q| ==> q[i].key.context in live
  }

  ghost predicate Issued(nodes: map<NodeId, Option<Args>>, next: NodeId)
  {
    forall n :: n in nodes ==> n < next
  }

  lemma RewriteLinked(pending: map<Key, NodeId>, q: seq<Meta>, nodes: map<NodeId, Option<Args>>, n: NodeId, a: Args)
    requires Linked(pending, q, nodes)
    ensures Linked(pending, q, nodes[n := Some(a)])
  {
  }

  /** A later call of a pending key rewrites its node, which the queued metacall shares. */
  lemma RewriteNode(pending: map<Key, NodeId>, q: seq<Meta>, nodes: map<NodeId, Option<Args>>, c: Call)
    requires Linked(pending, q, nodes) && c.key in pending
    ensures var after := nodes[pending[c.key] := Some(c.args)];
            && Linked(pending, q, after) && IsPending(Render(q, nodes), c.key)
            && Render(q, after) == Put(Render(q, nodes), c)
  {
    RewriteLinked(pending, q, nodes, pending[c.key], c.args);
    var i :| 0 <= i < |q| && q[i].key == c.key;
    RewriteRender(q, nodes, pending[c.key], c, i);
  }

  lemma RewriteRender(q: seq<Meta>, nodes: map<NodeId, Option<Args>>, n: NodeId, c: Call, i: nat)
    requires Filled(q, nodes) && Separate(q) && i < |q| && q[i] == Meta(c.key, n)
    ensures var after := nodes[n := Some(c.args)];
            Filled(q, after) && IsPending(Render(q, nodes), c.key) && Render(q, after) == Put(Render(q, nodes), c)
  {
    var m := Render(q, nodes);
    assert m[i].key == c.key;
    assert Find(m, c.key) == i;
  }

  lemma AppendKeys(pending: map<Key, NodeId>, q: seq<Meta>, k: Key, n: NodeId)
    requires OneToOne(pending, q) && k !in pending
    ensures OneToOne(pending[k := n], q + [Meta(k, n)])
  {
    var r := q + [Meta(k, n)];
    forall x | x == k || x in pending ensures exists i :: 0 <= i < |r| && r[i].key == x {
      if x == k {
        assert r[|q|].key == x;
      } else {
        var i :| 0 <= i < |q| && q[i].key == x;
        assert r[i].key == x;
      }
    }
  }

  lemma AppendLinked(pending: map<Key, NodeId>, q: seq<Meta>, nodes: map<NodeId, Option<Args>>, c: Call, n: NodeId)
    requires Linked(pending, q, nodes) && c.key !in pending && n !in nodes
    ensures Linked(pending[c.key := n], q + [Meta(c.key, n)], nodes[n := Some(c.args)])
  {
    AppendKeys(pending, q, c.key, n);
    assert Filled(q + [Meta(c.key, n)], nodes[n := Some(c.args)]);
  }

  /** The first call of a key makes a fresh node and queues a metacall behind all the others. */
  lemma AppendNode(pending: map<Key, NodeId>, q: seq<Meta>, nodes: map<NodeId, Option<Args>>, c: Call, n: NodeId)
    requires Linked(pending, q, nodes) && c.key !in pending && n !in nodes
    ensures var r, after := q + [Meta(c.key, n)], nodes[n := Some(c.args)];
            && Linked(pending[c.key := n], r, after)
            && Render(r, after) == Put(Render(q, nodes), c)
  {
    AppendLinked(pending, q, nodes, c, n);
    assert !IsPending(Render(q, nodes), c.key);
  }

  /** Without a dispatcher the entry is taken back; a node nobody queued changes nothing. */
  lemma StrayNode(pending: map<Key, NodeId>, q: seq<Meta>, nodes: map<NodeId, Option<Args>>, k: Key, n: NodeId, a: Args)
    requires Linked(pending, q, nodes) && k !in pending && n !in nodes
    ensures pending[k := n] - {k} == pending
    ensures Linked(pending, q, nodes[n := Some(a)]) && Render(q, nodes[n := Some(a)]) == Render(q, nodes)
    ensures !IsPending(Render(q, nodes), k)
  {
  }

  /** The heap of the registry, its nodes and the queue, as values. */
  datatype Heap = Heap(pending: map<Key, NodeId>, nodes: map<NodeId, Option<Args>>, next: NodeId,
                       batch: seq<Meta>, queue: seq<Meta>, live: set<ObjectId>)

  /** The metacalls still to be honoured: those of the taken batch whose context lives, then the queue. */
  ghost function Entries(h: Heap): seq<Meta> { Alive(h.batch, h.live) + h.queue }

  ghost predicate Consistent(h: Heap)
  {
    Linked(h.pending, Entries(h), h.nodes) && AllLive(h.queue, h.live) && Issued(h.nodes, h.next)
  }

  ghost function View(h: Heap): seq<Call>
    requires Consistent(h)
  {
    Render(Entries(h), h.nodes)
  }

  lemma ScheduledAgain(h: Heap, after: Heap, c: Call)
    requires Consistent(h) && c.key in h.pending
    requires after == h.(nodes := h.nodes[h.pending[c.key] := Some(c.args)])
    ensures Consistent(after) && IsPending(View(h), c.key) && View(after) == Put(View(h), c)
  {
    RewriteNode(h.pending, Entries(h), h.nodes, c);
    assert Entries(after) == Entries(h);
    var i :| 0 <= i < |Entries(h)| && Entries(h)[i].key == c.key;
    assert h.pending[c.key] in h.nodes;
  }

  lemma ScheduledFirst(h: Heap, after: Heap, c: Call)
    requires Consistent(h) && c.key !in h.pending && c.key.context in h.live
    requires after == Heap(h.pending[c.key := h.next], h.nodes[h.next := Some(c.args)], h.next + 1, h.batch,
                           h.queue + [Meta(c.key, h.next)], h.live)
    ensures Consistent(after) && View(after) == Put(View(h), c)
  {
    AppendNode(h.pending, Entries(h), h.nodes, c, h.next);
    assert Entries(after) == Entries(h) + [Meta(c.key, h.next)];
  }

  lemma NotScheduled(h: Heap, after: Heap, c: Call)
    requires Consistent(h) && c.key !in h.pending
    requires after == h.(pending := h.pending[c.key := h.next] - {c.key},
                         nodes := h.nodes[h.next := Some(c.args)], next := h.next + 1)
    ensures Consistent(after) && !IsPending(View(h), c.key) && View(after) == View(h)
  {
    StrayNode(h.pending, Entries(h), h.nodes, c.key, h.next, c.args);
    assert Entries(after) == Entries(h);
  }

  ghost function Meaning(h: Heap, ran: seq<Call>, expired: set<ObjectId>, hasDispatcher: bool): State
    requires Consistent(h)
  {
    State(View(h), ran, h.live, expired, hasDispatcher)
  }

  ghost function Scheduled(h: Heap, c: Call, hasDispatcher: bool): Heap
  {
    if c.key in h.pending then h.(nodes := h.nodes[h.pending[c.key] := Some(c.args)])
    else if hasDispatcher then
      Heap(h.pending[c.key := h.next], h.nodes[h.next := Some(c.args)], h.next + 1, h.batch,
           h.queue + [Meta(c.key, h.next)], h.live)
    else
      h.(pending := h.pending[c.key := h.next] - {c.key}, nodes := h.nodes[h.next := Some(c.args)], next := h.next + 1)
  }

  lemma ScheduledIsPut(h: Heap, c: Call, ran: seq<Call>, expired: set<ObjectId>, hasDispatcher: bool)
    requires Consistent(h) && c.key.context in h.live
    ensures Consistent(Scheduled(h, c, hasDispatcher))
    ensures Meaning(Scheduled(h, c, hasDispatcher), ran, expired, hasDispatcher) ==
            Next(Meaning(h, ran, expired, hasDispatcher), Schedule(c))
  {
    var after := Scheduled(h, c, hasDispatcher);
    if c.key in h.pending {
      ScheduledAgain(h, after, c);
    } else if hasDispatcher {
      ScheduledFirst(h, after, c);
    } else {
      NotScheduled(h, after, c);
    }
  }

  // ---------------------------------------------------------------- the other steps, on values

  /** removeEventsForReceiver(), as far as callLater metacalls go. */
  function Stripped(q: seq<Meta>, o: ObjectId): seq<Meta>
  {
    if q == [] then []
    else (if q[0].key.context == o then [] else [q[0]]) + Stripped(q[1..], o)
  }

  lemma {:induction false} StrippedMembers(q: seq<Meta>, o: ObjectId)
    ensures forall e :: e in Stripped(q, o) <==> e in q && e.key.context != o
  {
    if q != [] {
      StrippedMembers(q[1..], o);
      assert q == [q[0]] + q[1..];
    }
  }

  lemma {:induction false} StrippedConcat(p: seq<Meta>, q: seq<Meta>, o: ObjectId)
    ensures Stripped(p + q, o) == Stripped(p, o) + Stripped(q, o)
  {
    if p == [] {
      assert p + q == q;
    } else {
      assert (p + q)[1..] == p[1..] + q;
      StrippedConcat(p[1..], q, o);
    }
  }

  lemma {:induction false} AliveStripped(q: seq<Meta>, live: set<ObjectId>, o: ObjectId)
    ensures Alive(q, live - {o}) == Stripped(Alive(q, live), o)
  {
    if q != [] {
      AliveStripped(q[1..], live, o);
      var rest := Alive(q[1..], live);
      assert ([q[0]] + rest)[1..] == rest;
      assert [] + rest == rest;
    }
  }

  lemma {:induction false} AliveAll(q: seq<Meta>, live: set<ObjectId>)
    requires AllLive(q, live)
    ensures Alive(q, live) == q
  {
    if q != [] {
      assert forall i :: 0 <= i < |q[1..]| ==> q[1..][i] == q[i + 1];
      AliveAll(q[1..], live);
    }
  }

  lemma StrippedFilled(q: seq<Meta>, nodes: map<NodeId, Option<Args>>, o: ObjectId)
    requires Filled(q, nodes)
    ensures Filled(Stripped(q, o), nodes)
  {
    StrippedMembers(q, o);
    var r := Stripped(q, o);
    forall i | 0 <= i < |r| ensures r[i].node in nodes && nodes[r[i].node].Some? {
      assert r[i] in q;
    }
  }

  lemma {:induction false} StrippedSeparate(q: seq<Meta>, o: ObjectId)
    requires Separate(q)
    ensures Separate(Stripped(q, o))
  {
    if q != [] {
      var tail := q[1..];
      assert forall i :: 0 <= i < |tail| ==> tail[i] == q[i + 1];
      StrippedSeparate(tail, o);
      StrippedMembers(tail, o);
      var rest := Stripped(tail, o);
      forall j | 0 <= j < |rest| ensures rest[j].key != q[0].key && rest[j].node != q[0].node {
        assert rest[j] in tail;
      }
    }
  }

  lemma FilledParts(q: seq<Meta>, nodes: map<NodeId, Option<Args>>)
    requires Filled(q, nodes) && q != []
    ensures q[0].node in nodes && nodes[q[0].node].Some? && Filled(q[1..], nodes)
  {
    assert forall i :: 0 <= i < |q[1..]| ==> q[1..][i] == q[i + 1];
  }

  lemma RenderCons(e: Meta, q: seq<Meta>, nodes: map<NodeId, Option<Args>>)
    requires Filled([e] + q, nodes) && Filled(q, nodes) && e.node in nodes && nodes[e.node].Some?
    ensures Render([e] + q, nodes) == [Call(e.key, nodes[e.node].value)] + Render(q, nodes)
  {
    var l, r := Render([e] + q, nodes), [Call(e.key, nodes[e.node].value)] + Render(q, nodes);
    forall i | 0 <= i < |q| + 1 ensures l[i] == r[i] {
      if i > 0 { assert ([e] + q)[i] == q[i - 1]; }
    }
  }

  lemma {:induction false} StrippedRender(q: seq<Meta>, nodes: map<NodeId, Option<Args>>, o: ObjectId)
    requires Filled(q, nodes)
    ensures Filled(Stripped(q, o), nodes)
    ensures Render(Stripped(q, o), nodes) == WithoutContext(Render(q, nodes), o)
  {
    StrippedFilled(q, nodes, o);
    if q != [] {
      var e, tail := q[0], q[1..];
      assert q == [e] + tail;
      FilledParts(q, nodes);
      RenderCons(e, tail, nodes);
      WithoutContextCons(Call(e.key, nodes[e.node].value), Render(tail, nodes), o);
      StrippedRender(tail, nodes, o);
      if e.key.context != o {
        RenderCons(e, Stripped(tail, o), nodes);
      }
    }
  }

  ghost function ErasedContext(pending: map<Key, NodeId>, o: ObjectId): map<Key, NodeId>
  {
    map k | k in pending && k.context != o :: pending[k]
  }

  lemma StrippedOneToOne(pending: map<Key, NodeId>, q: seq<Meta>, o: ObjectId)
    requires OneToOne(pending, q)
    ensures OneToOne(ErasedContext(pending, o), Stripped(q, o))
  {
    StrippedMembers(q, o);
    var r := Stripped(q, o);
    forall i | 0 <= i < |r|
      ensures r[i].key in ErasedContext(pending, o) && ErasedContext(pending, o)[r[i].key] == r[i].node
    {
      assert r[i] in r;
    }
    forall k | k in pending && k.context != o ensures exists i :: 0 <= i < |r| && r[i].key == k {
      var i :| 0 <= i < |q| && q[i].key == k;
      assert q[i] in r;
    }
  }

  ghost function Destroyed(h: Heap, o: ObjectId): Heap
  {
    h.(pending := ErasedContext(h.pending, o), queue := Stripped(h.queue, o), live := h.live - {o})
  }

  lemma DestroyedEntries(h: Heap, o: ObjectId)
    ensures Entries(Destroyed(h, o)) == Stripped(Entries(h), o)
  {
    AliveStripped(h.batch, h.live, o);
    StrippedConcat(Alive(h.batch, h.live), h.queue, o);
  }

  lemma StrippedAllLive(q: seq<Meta>, live: set<ObjectId>, o: ObjectId)
    requires AllLive(q, live)
    ensures AllLive(Stripped(q, o), live - {o})
  {
    StrippedMembers(q, o);
    var r := Stripped(q, o);
    forall i | 0 <= i < |r| ensures r[i].key.context in live - {o} {
      assert r[i] in r;
    }
  }

  lemma DestroyedIsDestroy(h: Heap, o: ObjectId, ran: seq<Call>, expired: set<ObjectId>, hasDispatcher: bool)
    requires Consistent(h)
    ensures Consistent(Destroyed(h, o))
    ensures Meaning(Destroyed(h, o), ran, expired, hasDispatcher) ==
            Next(Meaning(h, ran, expired, hasDispatcher), Destroy(o))
  {
    DestroyedEntries(h, o);
    StrippedSeparate(Entries(h), o);
    StrippedRender(Entries(h), h.nodes, o);
    StrippedOneToOne(h.pending, Entries(h), o);
    StrippedAllLive(h.queue, h.live, o);
  }

  ghost function Taken(h: Heap): Heap { h.(batch := h.queue, queue := []) }

  lemma TakenEntries(h: Heap)
    requires AllLive(h.queue, h.live) && h.batch == []
    ensures Entries(Taken(h)) == Entries(h)
  {
    AliveAll(h.queue, h.live);
    assert Alive([], h.live) + h.queue == h.queue;
    assert Alive(h.queue, h.live) + [] == h.queue;
  }

  /** Taking the queue as the next batch is invisible. */
  lemma TakenIsNothing(h: Heap, ran: seq<Call>, expired: set<ObjectId>, hasDispatcher: bool)
    requires Consistent(h) && h.batch == []
    ensures Consistent(Taken(h))
    ensures Meaning(Taken(h), ran, expired, hasDispatcher) == Meaning(h, ran, expired, hasDispatcher)
  {
    TakenEntries(h);
    assert Linked(h.pending, Entries(Taken(h)), h.nodes);
  }

  ghost function Skipped(h: Heap): Heap
    requires h.batch != []
  {
    h.(batch := h.batch[1..])
  }

  /** A metacall whose context has died meanwhile is passed over, and was not pending any more. */
  lemma SkippedIsNothing(h: Heap, ran: seq<Call>, expired: set<ObjectId>, hasDispatcher: bool)
    requires Consistent(h) && h.batch != [] && h.batch[0].key.context !in h.live
    ensures Consistent(Skipped(h))
    ensures Meaning(Skipped(h), ran, expired, hasDispatcher) == Meaning(h, ran, expired, hasDispatcher)
  {
    assert Entries(Skipped(h)) == Entries(h);
  }

  ghost function Ran(h: Heap): Heap
    requires h.batch != []
  {
    var m := h.batch[0];
    h.(pending := h.pending - {m.key}, nodes := h.nodes[m.node := None], batch := h.batch[1..])
  }

  lemma DropFirstKey(pending: map<Key, NodeId>, q: seq<Meta>)
    requires Separate(q) && OneToOne(pending, q) && q != []
    ensures Separate(q[1..]) && OneToOne(pending - {q[0].key}, q[1..])
  {
    var r := q[1..];
    assert forall i :: 0 <= i < |r| ==> r[i] == q[i + 1];
    forall k | k in pending && k != q[0].key ensures exists i :: 0 <= i < |r| && r[i].key == k {
      var i :| 0 <= i < |q| && q[i].key == k;
      assert r[i - 1].key == k;
    }
  }

  lemma DropFirst(pending: map<Key, NodeId>, q: seq<Meta>, nodes: map<NodeId, Option<Args>>)
    requires Linked(pending, q, nodes) && q != []
    ensures Linked(pending - {q[0].key}, q[1..], nodes[q[0].node := None])
    ensures Render(q[1..], nodes[q[0].node := None]) == Render(q, nodes)[1..]
  {
    DropFirstKey(pending, q);
    var r := q[1..];
    assert forall i :: 0 <= i < |r| ==> r[i] == q[i + 1];
  }

  lemma RanHead(h: Heap)
    requires Consistent(h) && h.batch != [] && h.batch[0].key.context in h.live
    ensures Entries(h) != [] && Entries(h)[0] == h.batch[0] && Entries(Ran(h)) == Entries(h)[1..]
  {
    assert Alive(h.batch, h.live) == [h.batch[0]] + Alive(h.batch[1..], h.live);
  }

  lemma HeadFilled(q: seq<Meta>, nodes: map<NodeId, Option<Args>>)
    requires Filled(q, nodes) && q != []
    ensures q[0].node in nodes && nodes[q[0].node].Some?
    ensures Render(q, nodes)[0] == Call(q[0].key, nodes[q[0].node].value)
  {
  }

  lemma RanConsistent(h: Heap)
    requires Consistent(h) && h.batch != [] && h.batch[0].key.context in h.live
    ensures Consistent(Ran(h)) && View(Ran(h)) == View(h)[1..]
  {
    RanHead(h);
    DropFirst(h.pending, Entries(h), h.nodes);
    assert Linked(Ran(h).pending, Entries(Ran(h)), Ran(h).nodes);
    assert AllLive(Ran(h).queue, Ran(h).live) && Issued(Ran(h).nodes, Ran(h).next);
  }

  /** A metacall of an existing context always finds an invoker in its node, and running it frees its key first. */
  lemma RanIsRunHead(h: Heap, ran: seq<Call>, expired: set<ObjectId>, hasDispatcher: bool)
    requires Consistent(h) && h.batch != [] && h.batch[0].key.context in h.live
    ensures h.batch[0].node in h.nodes && h.nodes[h.batch[0].node].Some?
    ensures Consistent(Ran(h))
    ensures var m := h.batch[0];
            var after := if m.key.context in expired then ran else ran + [Call(m.key, h.nodes[m.node].value)];
            Meaning(Ran(h), after, expired, hasDispatcher) == Next(Meaning(h, ran, expired, hasDispatcher), RunHead)
  {
    RanHead(h);
    HeadFilled(Entries(h), h.nodes);
    RanConsistent(h);
  }

  class CallLaterRegistry {
    var sPending: map<Key, NodeId>
    var nodes: map<NodeId, Option<Args>>      // each node's invoker; None once moved out
    var nextNode: NodeId
    var batch: seq<Meta>                      // taken by the running pass
    var queue: seq<Meta>
    var live: set<ObjectId>                   // the objects that exist
    var mExpired: set<ObjectId>               // those whose life token has expired
    var hasDispatcher: bool
    var ran: seq<Call>                        // the calls that were run, in order

    ghost function Parts(): Heap
      reads this
    {
      Heap(sPending, nodes, nextNode, batch, queue, live)
    }

    ghost predicate Valid()
      reads this
    {
      Consistent(Parts())
    }

    ghost function Abs(): State
      reads this
      requires Valid()
    {
      Meaning(Parts(), ran, mExpired, hasDispatcher)
    }

    constructor (objects: set<ObjectId>)
      ensures Valid() && Abs() == State([], [], objects, {}, false)
    {
      sPending, nodes, nextNode := map[], map[], 0;
      batch, queue, ran := [], [], [];
      live, mExpired := objects, {};
      hasDispatcher := false;
    }

    method ScheduleCallLater(aContext: Option<ObjectId>, aKey: Key, aInvoker: Args)
      requires Valid()
      requires aContext.Some? ==> aKey.context == aContext.value && aContext.value in live
      modifies `sPending, `nodes, `nextNode, `queue
      ensures Valid()
      ensures Abs() == if aContext.Some? then Next(old(Abs()), Schedule(Call(aKey, aInvoker))) else old(Abs())
    {
      if aContext.None? {
        return;
      }
      ghost var before := Parts();
      ghost var after := Scheduled(before, Call(aKey, aInvoker), hasDispatcher);
      ScheduledIsPut(before, Call(aKey, aInvoker), ran, mExpired, hasDispatcher);
      if aKey in sPending {
        var node := sPending[aKey];
        nodes := nodes[node := Some(aInvoker)];
        assert Parts() == after;
      } else {
        var node := nextNode;
        nextNode := nextNode + 1;
        nodes := nodes[node := Some(aInvoker)];
        sPending := sPending[aKey := node];
        if hasDispatcher {
          queue := queue + [Meta(aKey, node)];
          assert Parts() == after;
        } else {
          sPending := sPending - {aKey};
          assert Parts() == after;
        }
      }
    }

    /** A pass takes the queue; what arrives from now on waits for a later pass. */
    method TakeBatch()
      requires Valid() && batch == []
      modifies `batch, `queue
      ensures Valid() && Abs() == old(Abs())
    {
      TakenIsNothing(Parts(), ran, mExpired, hasDispatcher);
      batch, queue := queue, [];
      assert Parts() == Taken(old(Parts()));
    }

    /**
      The next metacall of the batch. What its invoker does comes after: the calls it makes and the objects
      it destroys are further steps, taken once the key is free.
     */
    method RunNext()
      requires Valid() && batch != []
      modifies `sPending, `nodes, `batch, `ran
      ensures Valid()
      ensures Abs() == if old(batch)[0].key.context in live then Next(old(Abs()), RunHead) else old(Abs())
    {
      ghost var before := Parts();
      var m := batch[0];
      if m.key.context !in live {
        SkippedIsNothing(before, ran, mExpired, hasDispatcher);
        batch := batch[1..];
        assert Parts() == Skipped(before);
        return;
      }
      RanIsRunHead(before, ran, mExpired, hasDispatcher);
      batch := batch[1..];
      sPending := sPending - {m.key};
      var fnToRun := nodes[m.node];
      nodes := nodes[m.node := None];
      if fnToRun.Some? && m.key.context !in mExpired {
        ran := ran + [Call(m.key, fnToRun.value)];
      }
      assert Parts() == Ran(before);
    }

    /** ~Object() begins: the life token goes, and the cleanup callbacks run next. */
    method ExpireLife(o: ObjectId)
      requires Valid()
      modifies `mExpired
      ensures Valid() && Abs() == Next(old(Abs()), Expire(o))
    {
      mExpired := mExpired + {o};
    }

    /** ~Object() ends: after the cleanup callbacks, the registry entries go, then the queued events. */
    method DestroyContext(o: ObjectId)
      requires Valid()
      modifies `sPending, `queue, `live
      ensures Valid()
      ensures Abs() == Next(old(Abs()), Destroy(o))
    {
      DestroyedIsDestroy(Parts(), o, ran, mExpired, hasDispatcher);
      live := live - {o};
      sPending := EraseContext(sPending, o);
      queue := RemoveForReceiver(queue, o);
      assert Parts() == Destroyed(old(Parts()), o);
    }

    method Install()
      requires Valid()
      modifies `hasDispatcher
      ensures Valid() && Abs() == Next(old(Abs()), InstallDispatcher)
    {
      hasDispatcher := true;
    }
  }

  /** The erase loop over the registry. */
  method EraseContext(pending: map<Key, NodeId>, o: ObjectId) returns (r: map<Key, NodeId>)
    ensures r == ErasedContext(pending, o)
  {
    r := pending;
    var todo := pending.Keys;
    while todo != {}
      invariant todo <= pending.Keys
      invariant forall k :: k in r <==> k in pending && (k in todo || k.context != o)
      invariant forall k :: k in r ==> r[k] == pending[k]
      decreases |todo|
    {
      var k :| k in todo;
      todo := todo - {k};
      if k.context == o {
        r := r - {k};
      }
    }
  }

  lemma StrippedFrom(q: seq<Meta>, i: nat, o: ObjectId)
    requires i < |q|
    ensures Stripped(q[i..], o) == (if q[i].key.context == o then [] else [q[i]]) + Stripped(q[i + 1..], o)
  {
    assert q[i..][1..] == q[i + 1..];
  }

  method RemoveForReceiver(q: seq<Meta>, o: ObjectId) returns (r: seq<Meta>)
    ensures r == Stripped(q, o)
  {
    r := [];
    for i := 0 to |q|
      invariant r + Stripped(q[i..], o) == Stripped(q, o)
    {
      StrippedFrom(q, i, o);
      if q[i].key.context != o {
        r := r + [q[i]];
      }
    }
  }
}
