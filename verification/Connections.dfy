/**
  Connections between signals and receivers: every receiver keeps the handles of the slots that lead to it
  (mIncoming), and every slot carries a Cleanup that takes its handle out again. The two sides are proved to be
  exact inverses between calls, whichever side ends a connection.

  A signal is a list of slots in connection order; a slot is destroyed the moment it leaves the list.
 */
module Connections {
  import opened Basics

  type SignalId = nat

  /** A handle names its connection for ever; serials are never reused. */
  datatype Handle = Handle(signal: SignalId, serial: nat)

  /** A slot with its Cleanup's owner; a plain Signal::connect() has none. */
  datatype Slot = Slot(handle: Handle, owner: Option<ObjectId>)

  // ---------------------------------------------------------------- filters

  function Filter<T>(keep: T -> bool, s: seq<T>): seq<T>
  {
    if s == [] then [] else (if keep(s[0]) then [s[0]] else []) + Filter(keep, s[1..])
  }

  lemma {:induction false} FilterMembers<T>(keep: T -> bool, s: seq<T>)
    ensures forall x :: x in Filter(keep, s) <==> x in s && keep(x)
  {
    if s != [] {
      FilterMembers(keep, s[1..]);
      assert s == [s[0]] + s[1..];
    }
  }

  lemma {:induction false} FilterSame<T>(f: T -> bool, g: T -> bool, s: seq<T>)
    requires forall x :: x in s ==> f(x) == g(x)
    ensures Filter(f, s) == Filter(g, s)
  {
    if s != [] {
      assert s[0] in s && forall x :: x in s[1..] ==> x in s;
      FilterSame(f, g, s[1..]);
    }
  }

  lemma {:induction false} FilterAll<T>(keep: T -> bool, s: seq<T>)
    requires forall x :: x in s ==> keep(x)
    ensures Filter(keep, s) == s
  {
    if s != [] {
      assert s[0] in s && forall x :: x in s[1..] ==> x in s;
      FilterAll(keep, s[1..]);
    }
  }

  lemma {:induction false} FilterConcat<T>(keep: T -> bool, s: seq<T>, t: seq<T>)
    ensures Filter(keep, s + t) == Filter(keep, s) + Filter(keep, t)
  {
    if s == [] {
      assert s + t == t;
    } else {
      var head := if keep(s[0]) then [s[0]] else [];
      var a, b := Filter(keep, s[1..]), Filter(keep, t);
      assert (s + t)[0] == s[0] && (s + t)[1..] == s[1..] + t;
      FilterConcat(keep, s[1..], t);
      assert head + (a + b) == (head + a) + b;
    }
  }

  lemma {:induction false} FilterTwice<T>(f: T -> bool, g: T -> bool, both: T -> bool, s: seq<T>)
    requires forall x :: x in s ==> both(x) == (f(x) && g(x))
    ensures Filter(g, Filter(f, s)) == Filter(both, s)
  {
    if s != [] {
      assert s[0] in s && forall x :: x in s[1..] ==> x in s;
      FilterTwice(f, g, both, s[1..]);
      FilterConcat(g, if f(s[0]) then [s[0]] else [], Filter(f, s[1..]));
      assert Filter(g, [s[0]]) == if g(s[0]) then [s[0]] else [];
    }
  }

  /** Taking out the one element that fails the test. */
  lemma {:induction false} FilterCut<T>(keep: T -> bool, s: seq<T>, i: nat)
    requires i < |s| && !keep(s[i])
    requires forall j :: 0 <= j < |s| && j != i ==> keep(s[j])
    ensures Filter(keep, s) == s[..i] + s[i + 1..]
  {
    var tail := s[1..];
    assert forall j :: 0 <= j < |tail| ==> tail[j] == s[j + 1];
    if i == 0 {
      FilterAll(keep, tail);
    } else {
      FilterCut(keep, tail, i - 1);
      assert s[..i] == [s[0]] + tail[..i - 1];
      assert tail[i..] == s[i + 1..];
    }
  }

  // ---------------------------------------------------------------- sorted lists of handles

  predicate Ascending(s: seq<Handle>)
  {
    forall i, j :: 0 <= i < j < |s| ==> s[i].serial < s[j].serial
  }

  function Handles(slots: seq<Slot>): (r: seq<Handle>)
    ensures |r| == |slots|
    ensures forall i :: 0 <= i < |r| ==> r[i] == slots[i].handle
  {
    seq(|slots|, i requires 0 <= i < |slots| => slots[i].handle)
  }

  lemma {:induction false} AscendingFilter(keep: Handle -> bool, s: seq<Handle>)
    requires Ascending(s)
    ensures Ascending(Filter(keep, s))
  {
    if s != [] {
      var tail := s[1..];
      assert forall i :: 0 <= i < |tail| ==> tail[i] == s[i + 1];
      AscendingFilter(keep, tail);
      FilterMembers(keep, tail);
      var rest := Filter(keep, tail);
      forall j | 0 <= j < |rest| ensures s[0].serial < rest[j].serial {
        assert rest[j] in tail;
      }
    }
  }

  lemma AscendingCons(slot: Slot, rest: seq<Slot>)
    requires Ascending(Handles(rest)) && forall x :: x in rest ==> slot.handle.serial < x.handle.serial
    ensures Ascending(Handles([slot] + rest))
  {
    var r := [slot] + rest;
    forall i, j | 0 <= i < j < |r| ensures Handles(r)[i].serial < Handles(r)[j].serial {
      assert r[j] == rest[j - 1] && rest[j - 1] in rest;
      if i > 0 {
        assert Handles(rest)[i - 1].serial < Handles(rest)[j - 1].serial;
      }
    }
  }

  lemma AscendingTail(s: seq<Slot>)
    requires s != [] && Ascending(Handles(s))
    ensures Ascending(Handles(s[1..]))
    ensures forall x :: x in s[1..] ==> s[0].handle.serial < x.handle.serial
  {
    var tail := s[1..];
    assert forall i :: 0 <= i < |tail| ==> Handles(tail)[i] == Handles(s)[i + 1];
    forall x | x in tail ensures s[0].handle.serial < x.handle.serial {
      var i :| 0 <= i < |tail| && tail[i] == x;
      assert Handles(s)[0].serial < Handles(s)[i + 1].serial;
    }
  }

  lemma {:induction false} AscendingFilterSlots(keep: Slot -> bool, s: seq<Slot>)
    requires Ascending(Handles(s))
    ensures Ascending(Handles(Filter(keep, s)))
  {
    if s != [] {
      AscendingTail(s);
      AscendingFilterSlots(keep, s[1..]);
      FilterMembers(keep, s[1..]);
      if keep(s[0]) {
        AscendingCons(s[0], Filter(keep, s[1..]));
      } else {
        assert Filter(keep, s) == Filter(keep, s[1..]);
      }
    }
  }

  lemma SameEmptiness(s: seq<Handle>, t: seq<Handle>)
    requires forall h :: h in s <==> h in t
    ensures s == [] ==> t == []
  {
    if t != [] {
      assert t[0] in t;
    }
  }

  lemma SameFirst(s: seq<Handle>, t: seq<Handle>)
    requires Ascending(s) && Ascending(t) && s != [] && t != []
    requires s[0] in t && t[0] in s
    ensures s[0] == t[0]
  {
    var i :| 0 <= i < |t| && t[i] == s[0];
    var j :| 0 <= j < |s| && s[j] == t[0];
  }

  /** Ascending lists with the same members are the same list, so an index is determined by what it holds. */
  lemma {:induction false} AscendingUnique(s: seq<Handle>, t: seq<Handle>)
    requires Ascending(s) && Ascending(t)
    requires forall h :: h in s <==> h in t
    ensures s == t
  {
    SameEmptiness(s, t);
    SameEmptiness(t, s);
    if s != [] {
      assert s[0] in t && t[0] in s;
      SameFirst(s, t);
      forall h ensures h in s[1..] <==> h in t[1..] {
        TailMember(s, h);
        TailMember(t, h);
      }
      TailMember(s, s[0]);
      TailMember(t, t[0]);
      AscendingUnique(s[1..], t[1..]);
      assert s == [s[0]] + s[1..] && t == [t[0]] + t[1..];
    }
  }

  lemma TailMember(s: seq<Handle>, h: Handle)
    requires Ascending(s) && s != []
    ensures h in s[1..] <==> h in s && h != s[0]
    ensures Ascending(s[1..])
  {
    var t := s[1..];
    assert s == [s[0]] + t;
    assert forall i :: 0 <= i < |t| ==> t[i] == s[i + 1];
  }

  // ---------------------------------------------------------------- the two sides, and what each operation means

  /**
    incoming holds mIncoming of the objects whose life token has not expired, dying that of the objects inside their
    destructor, from the swap on; the dead are gone, and an identity is never used twice.
   */
  datatype Net = Net(signals: map<SignalId, seq<Slot>>, incoming: map<ObjectId, seq<Handle>>,
                     dying: map<ObjectId, seq<Handle>>, dead: set<ObjectId>, next: nat)

  predicate Leads(signals: map<SignalId, seq<Slot>>, h: Handle, o: ObjectId)
  {
    h.signal in signals && Slot(h, Some(o)) in signals[h.signal]
  }

  predicate Shaped(s: SignalId, slots: seq<Slot>, next: nat)
  {
    && Ascending(Handles(slots))
    && forall i :: 0 <= i < |slots| ==> slots[i].handle.signal == s && slots[i].handle.serial < next
  }

  predicate AllShaped(signals: map<SignalId, seq<Slot>>, next: nat)
  {
    forall s :: s in signals ==> Shaped(s, signals[s], next)
  }

  /** list holds, in connection order and once each, the handles of the slots that lead to o. */
  ghost predicate IsIndex(list: seq<Handle>, signals: map<SignalId, seq<Slot>>, o: ObjectId)
  {
    Ascending(list) && forall h :: h in list <==> Leads(signals, h, o)
  }

  /** The signals' slots alone determine what mIncoming must be. */
  lemma IndexIsDetermined(a: seq<Handle>, b: seq<Handle>, signals: map<SignalId, seq<Slot>>, o: ObjectId)
    requires IsIndex(a, signals, o) && IsIndex(b, signals, o)
    ensures a == b
  {
    AscendingUnique(a, b);
  }

  ghost predicate AllIndexed(n: Net)
  {
    forall o :: o in n.incoming ==> IsIndex(n.incoming[o], n.signals, o)
  }

  predicate Exists(n: Net, o: ObjectId) { o in n.incoming || o in n.dying }

  predicate Used(n: Net, o: ObjectId) { Exists(n, o) || o in n.dead }

  /** Slots lead to objects that exist or existed; what leads to a dying one was connected after the swap. */
  ghost predicate Owned(n: Net)
  {
    && (forall h, o :: Leads(n.signals, h, o) ==> Used(n, o))
    && (forall h, o :: Leads(n.signals, h, o) && o in n.dying ==> h in n.dying[o])
    && n.incoming.Keys !! n.dying.Keys && n.incoming.Keys !! n.dead && n.dying.Keys !! n.dead
  }

  ghost predicate Exact(n: Net)
  {
    AllShaped(n.signals, n.next) && AllIndexed(n) && Owned(n)
  }

  function NotHandle(h: Handle): Slot -> bool { (slot: Slot) => slot.handle != h }
  function NotOwner(o: ObjectId): Slot -> bool { (slot: Slot) => slot.owner != Some(o) }
  function NotAmong(gone: seq<Handle>): Slot -> bool { (slot: Slot) => slot.handle !in gone }
  function Other(h: Handle): Handle -> bool { (x: Handle) => x != h }
  function NotOf(s: SignalId): Handle -> bool { (x: Handle) => x.signal != s }

  function KeepSlots(signals: map<SignalId, seq<Slot>>, keep: Slot -> bool): map<SignalId, seq<Slot>>
  {
    map s | s in signals :: Filter(keep, signals[s])
  }

  function KeepHandles(incoming: map<ObjectId, seq<Handle>>, keep: Handle -> bool): map<ObjectId, seq<Handle>>
  {
    map o | o in incoming :: Filter(keep, incoming[o])
  }

  datatype Op =
    | NewObject(o: ObjectId)
    | NewSignal(s: SignalId)
    | ConnectTo(s: SignalId, o: ObjectId)
    | ConnectPlain(s: SignalId)
    | Disconnect(h: Handle)
    | DestroySignal(s: SignalId)
    | BeginDestroy(o: ObjectId)
    | EndDestroy(o: ObjectId)

  function AddSlot(n: Net, s: SignalId, owner: Option<ObjectId>): Net
    requires s in n.signals
  {
    var h := Handle(s, n.next);
    n.(signals := n.signals[s := n.signals[s] + [Slot(h, owner)]],
       incoming := if owner.Some? && owner.value in n.incoming
                   then n.incoming[owner.value := n.incoming[owner.value] + [h]] else n.incoming,
       dying := if owner.Some? && owner.value in n.dying
                then n.dying[owner.value := n.dying[owner.value] + [h]] else n.dying,
       next := n.next + 1)
  }

  /**
    connect() does not ask whether the receiver is inside its destructor. The destructor itself is two operations:
    up to the end of its disconnect loop, and the end of it; its cleanup callbacks are whatever comes between.
   */
  function Next(n: Net, op: Op): Net
  {
    match op
    case NewObject(o) => if Used(n, o) then n else n.(incoming := n.incoming[o := []])
    case NewSignal(s) => if s in n.signals then n else n.(signals := n.signals[s := []])
    case ConnectTo(s, o) => if s in n.signals && Exists(n, o) then AddSlot(n, s, Some(o)) else n
    case ConnectPlain(s) => if s in n.signals then AddSlot(n, s, None) else n
    case Disconnect(h) =>
      n.(signals := KeepSlots(n.signals, NotHandle(h)), incoming := KeepHandles(n.incoming, Other(h)))
    case DestroySignal(s) => n.(signals := n.signals - {s}, incoming := KeepHandles(n.incoming, NotOf(s)))
    case BeginDestroy(o) =>
      if o !in n.incoming then n
      else n.(signals := KeepSlots(n.signals, NotOwner(o)), incoming := n.incoming - {o}, dying := n.dying[o := []])
    case EndDestroy(o) =>
      if o !in n.dying then n else n.(dying := n.dying - {o}, dead := n.dead + {o})
  }

  function Run(n: Net, ops: seq<Op>): Net
  {
    if ops == [] then n else Next(Run(n, ops[..|ops| - 1]), ops[|ops| - 1])
  }

  const EMPTY := Net(map[], map[], map[], {}, 0)

  // ---------------------------------------------------------------- every operation keeps the index exact

  lemma KeepSlotsShaped(signals: map<SignalId, seq<Slot>>, keep: Slot -> bool, next: nat)
    requires AllShaped(signals, next)
    ensures AllShaped(KeepSlots(signals, keep), next)
  {
    forall s | s in signals ensures Shaped(s, Filter(keep, signals[s]), next) {
      assert Shaped(s, signals[s], next);
      AscendingFilterSlots(keep, signals[s]);
      FilterMembers(keep, signals[s]);
      var r := Filter(keep, signals[s]);
      forall i | 0 <= i < |r| ensures r[i].handle.signal == s && r[i].handle.serial < next {
        assert r[i] in signals[s];
      }
    }
  }

  lemma KeepSlotsLeads(signals: map<SignalId, seq<Slot>>, keep: Slot -> bool, h: Handle, o: ObjectId)
    ensures Leads(KeepSlots(signals, keep), h, o) <==> Leads(signals, h, o) && keep(Slot(h, Some(o)))
  {
    if h.signal in signals {
      FilterMembers(keep, signals[h.signal]);
    }
  }

  /** A handle leads to one object only. */
  lemma OneOwner(signals: map<SignalId, seq<Slot>>, next: nat, a: Slot, b: Slot, s: SignalId)
    requires AllShaped(signals, next) && s in signals && a in signals[s] && b in signals[s]
    requires a.handle == b.handle
    ensures a == b
  {
    var slots := signals[s];
    assert Shaped(s, slots, next);
    var i :| 0 <= i < |slots| && slots[i] == a;
    var j :| 0 <= j < |slots| && slots[j] == b;
    assert Handles(slots)[i] == a.handle && Handles(slots)[j] == b.handle;
  }

  lemma FilteredIndex(n: Net, keepSlot: Slot -> bool, keep: Handle -> bool, o: ObjectId)
    requires o in n.incoming && IsIndex(n.incoming[o], n.signals, o)
    requires forall h :: Leads(n.signals, h, o) ==> keepSlot(Slot(h, Some(o))) == keep(h)
    ensures IsIndex(Filter(keep, n.incoming[o]), KeepSlots(n.signals, keepSlot), o)
  {
    var list := n.incoming[o];
    AscendingFilter(keep, list);
    FilterMembers(keep, list);
    forall h ensures h in Filter(keep, list) <==> Leads(KeepSlots(n.signals, keepSlot), h, o) {
      KeepSlotsLeads(n.signals, keepSlot, h, o);
    }
  }

  lemma DisconnectKeepsExact(n: Net, h: Handle)
    requires Exact(n)
    ensures Exact(Next(n, Disconnect(h)))
  {
    var m := Next(n, Disconnect(h));
    KeepSlotsShaped(n.signals, NotHandle(h), n.next);
    forall o | o in n.incoming ensures IsIndex(m.incoming[o], m.signals, o) {
      FilteredIndex(n, NotHandle(h), Other(h), o);
    }
    forall x, o | Leads(m.signals, x, o) ensures Leads(n.signals, x, o) {
      KeepSlotsLeads(n.signals, NotHandle(h), x, o);
    }
  }

  lemma DestroySignalKeepsExact(n: Net, s: SignalId)
    requires Exact(n)
    ensures Exact(Next(n, DestroySignal(s)))
  {
    var m := Next(n, DestroySignal(s));
    forall t | t in m.signals ensures Shaped(t, m.signals[t], m.next) {
      assert Shaped(t, n.signals[t], n.next);
    }
    forall o | o in n.incoming ensures IsIndex(m.incoming[o], m.signals, o) {
      assert IsIndex(n.incoming[o], n.signals, o);
      AscendingFilter(NotOf(s), n.incoming[o]);
      FilterMembers(NotOf(s), n.incoming[o]);
      forall h ensures h in m.incoming[o] <==> Leads(m.signals, h, o) {
        assert h in n.incoming[o] <==> Leads(n.signals, h, o);
      }
    }
    forall x, o | Leads(m.signals, x, o) ensures Leads(n.signals, x, o) { }
  }

  lemma BeginDestroyKeepsExact(n: Net, o: ObjectId)
    requires Exact(n) && o in n.incoming
    ensures Exact(Next(n, BeginDestroy(o)))
    ensures forall h :: !Leads(Next(n, BeginDestroy(o)).signals, h, o)
  {
    var m := Next(n, BeginDestroy(o));
    var all := (h: Handle) => true;
    KeepSlotsShaped(n.signals, NotOwner(o), n.next);
    forall p | p in m.incoming ensures IsIndex(m.incoming[p], m.signals, p) {
      FilteredIndex(n, NotOwner(o), all, p);
      FilterAll(all, n.incoming[p]);
    }
    forall x, p | Leads(m.signals, x, p) ensures Leads(n.signals, x, p) && p != o {
      KeepSlotsLeads(n.signals, NotOwner(o), x, p);
    }
  }

  lemma EndDestroyKeepsExact(n: Net, o: ObjectId)
    requires Exact(n)
    ensures Exact(Next(n, EndDestroy(o)))
  {
    forall p | p in n.incoming ensures IsIndex(n.incoming[p], Next(n, EndDestroy(o)).signals, p) { }
  }

  lemma AddSlotLeads(n: Net, s: SignalId, owner: Option<ObjectId>, h: Handle, o: ObjectId)
    requires s in n.signals
    ensures Leads(AddSlot(n, s, owner).signals, h, o) <==>
            Leads(n.signals, h, o) || (h == Handle(s, n.next) && owner == Some(o))
  {
  }

  lemma AddSlotKeepsExact(n: Net, s: SignalId, owner: Option<ObjectId>)
    requires Exact(n) && s in n.signals && (owner.Some? ==> Exists(n, owner.value))
    ensures Exact(AddSlot(n, s, owner))
  {
    var m, h := AddSlot(n, s, owner), Handle(s, n.next);
    forall t | t in m.signals ensures Shaped(t, m.signals[t], m.next) {
      assert Shaped(t, n.signals[t], n.next);
    }
    forall o | o in m.incoming ensures IsIndex(m.incoming[o], m.signals, o) {
      AddedIndex(n, s, owner, o);
    }
    forall x, o | Leads(m.signals, x, o) ensures Used(m, o) && (o in m.dying ==> x in m.dying[o]) {
      AddSlotLeads(n, s, owner, x, o);
    }
  }

  lemma SerialIssued(n: Net, h: Handle, o: ObjectId)
    requires AllShaped(n.signals, n.next) && Leads(n.signals, h, o)
    ensures h.serial < n.next
  {
    assert Shaped(h.signal, n.signals[h.signal], n.next);
  }

  lemma AddedIndex(n: Net, s: SignalId, owner: Option<ObjectId>, o: ObjectId)
    requires Exact(n) && s in n.signals && o in n.incoming
    ensures IsIndex(AddSlot(n, s, owner).incoming[o], AddSlot(n, s, owner).signals, o)
  {
    var m, h, list := AddSlot(n, s, owner), Handle(s, n.next), n.incoming[o];
    assert IsIndex(list, n.signals, o);
    forall i | 0 <= i < |list| ensures list[i].serial < n.next {
      assert list[i] in list;
      SerialIssued(n, list[i], o);
    }
    assert Ascending(list + [h]);
    forall x ensures x in m.incoming[o] <==> Leads(m.signals, x, o) {
      AddSlotLeads(n, s, owner, x, o);
      assert x in list <==> Leads(n.signals, x, o);
    }
  }

  lemma NewObjectKeepsExact(n: Net, o: ObjectId)
    requires Exact(n) && !Used(n, o)
    ensures Exact(Next(n, NewObject(o)))
  {
    var m := Next(n, NewObject(o));
    forall p | p in m.incoming ensures IsIndex(m.incoming[p], m.signals, p) {
      if p != o {
        assert IsIndex(n.incoming[p], n.signals, p);
      }
    }
  }

  lemma NewSignalKeepsExact(n: Net, s: SignalId)
    requires Exact(n) && s !in n.signals
    ensures Exact(Next(n, NewSignal(s)))
  {
    var m := Next(n, NewSignal(s));
    forall h, o ensures Leads(m.signals, h, o) <==> Leads(n.signals, h, o) { }
    forall t | t in m.signals ensures Shaped(t, m.signals[t], m.next) {
      if t != s {
        assert Shaped(t, n.signals[t], n.next);
      }
    }
    forall p | p in m.incoming ensures IsIndex(m.incoming[p], m.signals, p) {
      assert IsIndex(n.incoming[p], n.signals, p);
    }
  }

  lemma NextKeepsExact(n: Net, op: Op)
    requires Exact(n)
    ensures Exact(Next(n, op))
  {
    match op
    case NewObject(o) => if !Used(n, o) { NewObjectKeepsExact(n, o); }
    case NewSignal(s) => if s !in n.signals { NewSignalKeepsExact(n, s); }
    case ConnectTo(s, o) => if s in n.signals && Exists(n, o) { AddSlotKeepsExact(n, s, Some(o)); }
    case ConnectPlain(s) => if s in n.signals { AddSlotKeepsExact(n, s, None); }
    case Disconnect(h) => DisconnectKeepsExact(n, h);
    case DestroySignal(s) => DestroySignalKeepsExact(n, s);
    case BeginDestroy(o) => if o in n.incoming { BeginDestroyKeepsExact(n, o); }
    case EndDestroy(o) => EndDestroyKeepsExact(n, o);
  }

  /** Under any mix of operations each live object's mIncoming is exactly the list of slots that lead to it. */
  lemma {:induction false} RunStaysExact(ops: seq<Op>)
    ensures Exact(Run(EMPTY, ops))
  {
    if ops != [] {
      RunStaysExact(ops[..|ops| - 1]);
      NextKeepsExact(Run(EMPTY, ops[..|ops| - 1]), ops[|ops| - 1]);
    }
  }

  // ---------------------------------------------------------------- what is left of a destroyed receiver

  /** Operation i of the run made connection h to o. */
  ghost predicate Made(n: Net, ops: seq<Op>, i: nat, h: Handle, o: ObjectId)
    requires i < |ops|
  {
    var before := Run(n, ops[..i]);
    ops[i] == ConnectTo(h.signal, o) && h.signal in before.signals && Exists(before, o) && h.serial == before.next
  }

  predicate Ends(op: Op, h: Handle) { op == Disconnect(h) || op == DestroySignal(h.signal) }

  /** Connection h to o was made by the run and is not ended in it. */
  ghost predicate LeftOver(n: Net, ops: seq<Op>, h: Handle, o: ObjectId)
  {
    exists i: nat :: i < |ops| && Made(n, ops, i, h, o) && forall j :: i < j < |ops| ==> !Ends(ops[j], h)
  }

  lemma NeverAliveAgain(n: Net, op: Op, o: ObjectId)
    requires o !in n.incoming && Used(n, o)
    ensures o !in Next(n, op).incoming && Used(Next(n, op), o)
  {
  }

  lemma {:induction false} StaysDown(n: Net, ops: seq<Op>, o: ObjectId)
    requires o !in n.incoming && Used(n, o)
    ensures o !in Run(n, ops).incoming && Used(Run(n, ops), o)
  {
    if ops != [] {
      StaysDown(n, ops[..|ops| - 1], o);
      NeverAliveAgain(Run(n, ops[..|ops| - 1]), ops[|ops| - 1], o);
    }
  }

  /** One operation: a slot to an object past its disconnect loop comes with connect() and goes with its end. */
  lemma LeadsNext(n: Net, op: Op, h: Handle, o: ObjectId)
    requires o !in n.incoming
    ensures Leads(Next(n, op).signals, h, o) <==>
            || (op == ConnectTo(h.signal, o) && h.signal in n.signals && Exists(n, o) && h.serial == n.next)
            || (Leads(n.signals, h, o) && !Ends(op, h))
  {
    match op
    case ConnectTo(s, p) => if s in n.signals && Exists(n, p) { AddSlotLeads(n, s, Some(p), h, o); }
    case ConnectPlain(s) => if s in n.signals { AddSlotLeads(n, s, None, h, o); }
    case Disconnect(x) => KeepSlotsLeads(n.signals, NotHandle(x), h, o);
    case BeginDestroy(p) => if p in n.incoming { KeepSlotsLeads(n.signals, NotOwner(p), h, o); }
    case _ =>
  }

  predicate Holds(n: Net, slot: Slot) { slot.handle.signal in n.signals && slot in n.signals[slot.handle.signal] }

  /** Operation op makes this slot: it has a serial no slot has had before. */
  predicate Makes(n: Net, op: Op, slot: Slot)
  {
    && slot.handle.signal in n.signals && slot.handle.serial == n.next
    && match op
       case ConnectTo(s, o) => s == slot.handle.signal && slot.owner == Some(o) && Exists(n, o)
       case ConnectPlain(s) => s == slot.handle.signal && slot.owner == None
       case _ => false
  }

  /** What one operation does to all the slots of all signals, those of plain functions included. */
  lemma SlotNext(n: Net, op: Op, slot: Slot)
    ensures Holds(Next(n, op), slot) <==>
            || Makes(n, op, slot)
            || (Holds(n, slot) && !Ends(op, slot.handle)
                && !(op.BeginDestroy? && op.o in n.incoming && slot.owner == Some(op.o)))
  {
    var s := slot.handle.signal;
    if s in n.signals {
      match op {
        case Disconnect(h) => FilterMembers(NotHandle(h), n.signals[s]);
        case BeginDestroy(o) => FilterMembers(NotOwner(o), n.signals[s]);
        case _ =>
      }
    }
  }

  /** A signal is there from its creation to its destruction, and an object from its creation to its end. */
  lemma SignalsNext(n: Net, op: Op, s: SignalId, o: ObjectId)
    requires Exact(n)
    ensures s in Next(n, op).signals <==> op == NewSignal(s) || (s in n.signals && op != DestroySignal(s))
    ensures Exists(Next(n, op), o) <==>
            (op == NewObject(o) && !Used(n, o)) || (Exists(n, o) && !(op == EndDestroy(o) && o in n.dying))
    ensures o in Next(n, op).incoming <==>
            (op == NewObject(o) && !Used(n, o)) || (o in n.incoming && op != BeginDestroy(o))
  {
  }

  /** A new slot comes after those its signal has, so an emit calls them in the order they were connected. */
  lemma NewSlotIsLast(n: Net, s: SignalId, owner: Option<ObjectId>)
    requires s in n.signals
    ensures var slots := AddSlot(n, s, owner).signals[s];
            && |slots| == |n.signals[s]| + 1 && slots[..|slots| - 1] == n.signals[s]
            && slots[|slots| - 1] == Slot(Handle(s, n.next), owner)
  {
  }

  lemma LeftOverNext(n: Net, front: seq<Op>, op: Op, h: Handle, o: ObjectId)
    ensures LeftOver(n, front + [op], h, o) <==>
            var before := Run(n, front);
            || (op == ConnectTo(h.signal, o) && h.signal in before.signals && Exists(before, o)
                && h.serial == before.next)
            || (LeftOver(n, front, h, o) && !Ends(op, h))
  {
    var ops, k := front + [op], |front|;
    assert ops[..k] == front;
    forall i: nat | i < k ensures ops[..i] == front[..i] && (Made(n, ops, i, h, o) <==> Made(n, front, i, h, o)) { }
    if LeftOver(n, front, h, o) && !Ends(op, h) {
      var i: nat :| i < |front| && Made(n, front, i, h, o) && forall j :: i < j < |front| ==> !Ends(front[j], h);
      assert Made(n, ops, i, h, o) && forall j :: i < j < |ops| ==> !Ends(ops[j], h);
    }
    if LeftOver(n, ops, h, o) {
      var i: nat :| i < |ops| && Made(n, ops, i, h, o) && forall j :: i < j < |ops| ==> !Ends(ops[j], h);
      if i < k {
        assert Made(n, front, i, h, o) && forall j :: i < j < |front| ==> !Ends(front[j], h);
        assert !Ends(ops[k], h);
      }
    }
    if Made(n, ops, k, h, o) {
      assert LeftOver(n, ops, h, o);
    }
  }

  /** From the disconnect loop on, exactly the connections made since and not ended lead to an object. */
  lemma {:induction false} LeadsIffLeftOver(n: Net, ops: seq<Op>, h: Handle, o: ObjectId)
    requires o !in n.incoming && Used(n, o) && !Leads(n.signals, h, o)
    ensures Leads(Run(n, ops).signals, h, o) <==> LeftOver(n, ops, h, o)
  {
    if ops != [] {
      var front, op := ops[..|ops| - 1], ops[|ops| - 1];
      assert ops == front + [op];
      LeadsIffLeftOver(n, front, h, o);
      StaysDown(n, front, o);
      LeadsNext(Run(n, front), op, h, o);
      LeftOverNext(n, front, op, h, o);
    }
  }

  lemma RunOne(n: Net, op: Op)
    ensures Run(n, [op]) == Next(n, op)
    ensures [op] + [] == [op]
  {
    assert [op][..0] == [];
  }

  lemma RunSnoc(n: Net, ops: seq<Op>, op: Op)
    ensures Run(n, ops + [op]) == Next(Run(n, ops), op)
  {
    assert (ops + [op])[..|ops|] == ops;
  }

  lemma {:induction false} RunAppend(n: Net, a: seq<Op>, b: seq<Op>)
    ensures Run(n, a + b) == Run(Run(n, a), b)
  {
    if b == [] {
      assert a + b == a;
    } else {
      assert (a + b)[..|a + b| - 1] == a + b[..|b| - 1];
      RunAppend(n, a, b[..|b| - 1]);
    }
  }

  /**
    A destroyed receiver in any continuation: a slot leads to it if and only if one of its cleanup callbacks
    connected it and nothing has ended that connection since. So nothing leads to it if no callback connects to it,
    and a connection a callback makes and nobody ends stays for ever.
   */
  lemma DestructorLeavesNothingIff(before: seq<Op>, o: ObjectId, callbacks: seq<Op>, after: seq<Op>)
    requires o in Run(EMPTY, before).incoming
    ensures var n := Run(EMPTY, before + [BeginDestroy(o)]);
            var rest := callbacks + [EndDestroy(o)] + after;
            && (forall h :: Leads(Run(n, rest).signals, h, o) <==> LeftOver(n, rest, h, o))
            && (forall h :: LeftOver(n, rest, h, o) ==> ConnectTo(h.signal, o) in callbacks)
            && Exact(Run(n, rest)) && o !in Run(n, rest).incoming
  {
    var n0, n := Run(EMPTY, before), Run(EMPTY, before + [BeginDestroy(o)]);
    var rest := callbacks + [EndDestroy(o)] + after;
    assert (before + [BeginDestroy(o)])[..|before|] == before;
    assert n == Next(n0, BeginDestroy(o));
    RunStaysExact(before);
    BeginDestroyKeepsExact(n0, o);
    forall h ensures Leads(Run(n, rest).signals, h, o) <==> LeftOver(n, rest, h, o) {
      LeadsIffLeftOver(n, rest, h, o);
    }
    forall h | LeftOver(n, rest, h, o) ensures ConnectTo(h.signal, o) in callbacks {
      var i: nat :| i < |rest| && Made(n, rest, i, h, o) && forall j :: i < j < |rest| ==> !Ends(rest[j], h);
      MadeByCallback(n, callbacks, after, i, h, o);
    }
    RunAppend(EMPTY, before + [BeginDestroy(o)], rest);
    RunStaysExact(before + [BeginDestroy(o)] + rest);
    StaysDown(n, rest, o);
  }

  lemma EndedIsGone(n: Net, o: ObjectId)
    requires o !in n.incoming && Used(n, o) && n.incoming.Keys !! n.dead && n.dying.Keys !! n.dead
    ensures !Exists(Next(n, EndDestroy(o)), o) && o in Next(n, EndDestroy(o)).dead
  {
  }

  lemma {:induction false} StaysDead(n: Net, ops: seq<Op>, o: ObjectId)
    requires !Exists(n, o) && o in n.dead
    ensures !Exists(Run(n, ops), o) && o in Run(n, ops).dead
  {
    if ops != [] {
      StaysDead(n, ops[..|ops| - 1], o);
    }
  }

  lemma {:induction false} RunExact(n: Net, ops: seq<Op>)
    requires Exact(n)
    ensures Exact(Run(n, ops))
  {
    if ops != [] {
      RunExact(n, ops[..|ops| - 1]);
      NextKeepsExact(Run(n, ops[..|ops| - 1]), ops[|ops| - 1]);
    }
  }

  /** Nothing connects to an object after its destructor has ended. */
  lemma MadeByCallback(n: Net, callbacks: seq<Op>, after: seq<Op>, i: nat, h: Handle, o: ObjectId)
    requires Exact(n) && o !in n.incoming && Used(n, o)
    requires i < |callbacks + [EndDestroy(o)] + after| && Made(n, callbacks + [EndDestroy(o)] + after, i, h, o)
    ensures ConnectTo(h.signal, o) in callbacks
  {
    var rest, k := callbacks + [EndDestroy(o)] + after, |callbacks|;
    if i > k {
      var tail := rest[k + 1..i];
      assert rest[..i] == callbacks + [EndDestroy(o)] + tail;
      RunAppend(n, callbacks + [EndDestroy(o)], tail);
      assert (callbacks + [EndDestroy(o)])[..k] == callbacks;
      StaysDown(n, callbacks, o);
      RunExact(n, callbacks);
      EndedIsGone(Run(n, callbacks), o);
      StaysDead(Run(n, callbacks + [EndDestroy(o)]), tail, o);
    } else if i < k {
      assert rest[i] == callbacks[i];
    }
  }

  /** A cleanup callback that connects any signal to the object being destroyed leaves a slot behind for ever. */
  lemma ConnectFromCallbackStays(before: seq<Op>, o: ObjectId, s: SignalId, after: seq<Op>)
    requires o in Run(EMPTY, before).incoming && s in Run(EMPTY, before).signals
    requires forall op :: op in after ==> !Ends(op, Handle(s, Run(EMPTY, before).next))
    ensures var n := Run(EMPTY, before + [BeginDestroy(o)]);
            Leads(Run(n, [ConnectTo(s, o)] + [EndDestroy(o)] + after).signals, Handle(s, Run(EMPTY, before).next), o)
  {
    var n, h := Run(EMPTY, before + [BeginDestroy(o)]), Handle(s, Run(EMPTY, before).next);
    var rest := [ConnectTo(s, o)] + [EndDestroy(o)] + after;
    RunSnoc(EMPTY, before, BeginDestroy(o));
    DestructorLeavesNothingIff(before, o, [ConnectTo(s, o)], after);
    assert rest[..0] == [];
    assert Made(n, rest, 0, h, o);
    forall j | 0 < j < |rest| ensures !Ends(rest[j], h) {
      assert j > 1 ==> rest[j] == after[j - 2];
    }
    assert LeftOver(n, rest, h, o);
  }

  /** The shortest such run. */
  lemma ConnectFromCallbackExample()
    ensures var n := Run(EMPTY, [NewSignal(0), NewObject(1)] + [BeginDestroy(1)]);
            Leads(Run(n, [ConnectTo(0, 1)] + [EndDestroy(1)] + []).signals, Handle(0, 0), 1)
  {
    var before := [NewSignal(0), NewObject(1)];
    RunOne(EMPTY, NewSignal(0));
    RunSnoc(EMPTY, [NewSignal(0)], NewObject(1));
    assert before == [NewSignal(0)] + [NewObject(1)];
    ConnectFromCallbackStays(before, 1, 0, []);
  }

  // ---------------------------------------------------------------- what the destruction loops come to

  lemma KeepSlotsTwice(signals: map<SignalId, seq<Slot>>, gone: seq<Handle>, h: Handle)
    ensures KeepSlots(KeepSlots(signals, NotAmong(gone)), NotHandle(h)) == KeepSlots(signals, NotAmong(gone + [h]))
  {
    forall s | s in signals
      ensures Filter(NotHandle(h), Filter(NotAmong(gone), signals[s])) == Filter(NotAmong(gone + [h]), signals[s])
    {
      FilterTwice(NotAmong(gone), NotHandle(h), NotAmong(gone + [h]), signals[s]);
    }
  }

  lemma KeepSlotsNone(signals: map<SignalId, seq<Slot>>)
    ensures KeepSlots(signals, NotAmong([])) == signals
  {
    forall s | s in signals ensures Filter(NotAmong([]), signals[s]) == signals[s] {
      FilterAll(NotAmong([]), signals[s]);
    }
  }

  /** The handles an object holds are those of all the slots it owns, no more and no fewer. */
  lemma IndexIsOwner(n: Net, o: ObjectId)
    requires Exact(n) && o in n.incoming
    ensures KeepSlots(n.signals, NotAmong(n.incoming[o])) == KeepSlots(n.signals, NotOwner(o))
  {
    var list := n.incoming[o];
    assert IsIndex(list, n.signals, o);
    forall s | s in n.signals ensures Filter(NotAmong(list), n.signals[s]) == Filter(NotOwner(o), n.signals[s]) {
      forall slot | slot in n.signals[s] ensures slot.handle !in list <==> slot.owner != Some(o) {
        SlotKnows(n, s, slot, o);
      }
      FilterSame(NotAmong(list), NotOwner(o), n.signals[s]);
    }
  }

  lemma SlotKnows(n: Net, s: SignalId, slot: Slot, o: ObjectId)
    requires Exact(n) && s in n.signals && slot in n.signals[s]
    ensures slot.handle.signal == s
    ensures Leads(n.signals, slot.handle, o) <==> slot.owner == Some(o)
  {
    assert Shaped(s, n.signals[s], n.next);
    var i :| 0 <= i < |n.signals[s]| && n.signals[s][i] == slot;
    if Leads(n.signals, slot.handle, o) {
      OneOwner(n.signals, n.next, slot, Slot(slot.handle, Some(o)), s);
    }
  }

  /** A handle the object does not hold is no loss to it. */
  lemma NotHeld(n: Net, h: Handle, o: ObjectId)
    requires AllIndexed(n) && o in n.incoming && !Leads(n.signals, h, o)
    ensures Filter(Other(h), n.incoming[o]) == n.incoming[o]
  {
    assert IsIndex(n.incoming[o], n.signals, o);
    FilterAll(Other(h), n.incoming[o]);
  }

  /** Only the owner of a connection has a handle to lose. */
  lemma PruneOne(n: Net, h: Handle, o: ObjectId)
    requires Exact(n) && Leads(n.signals, h, o) && o in n.incoming
    ensures KeepHandles(n.incoming, Other(h)) == n.incoming[o := Filter(Other(h), n.incoming[o])]
  {
    forall p | p in n.incoming && p != o ensures Filter(Other(h), n.incoming[p]) == n.incoming[p] {
      SlotKnows(n, h.signal, Slot(h, Some(o)), p);
      NotHeld(n, h, p);
    }
  }

  lemma PruneNone(n: Net, h: Handle)
    requires Exact(n) && forall o :: o in n.incoming ==> !Leads(n.signals, h, o)
    ensures KeepHandles(n.incoming, Other(h)) == n.incoming
  {
    forall p | p in n.incoming ensures Filter(Other(h), n.incoming[p]) == n.incoming[p] {
      NotHeld(n, h, p);
    }
  }

  /** Pruning the owner's list, if the handle has a live owner, is taking the handle out of every list. */
  lemma Pruned(n: Net, h: Handle, after: map<ObjectId, seq<Handle>>)
    requires Exact(n)
    requires forall o :: o in n.incoming && Leads(n.signals, h, o) ==>
               after == n.incoming[o := Filter(Other(h), n.incoming[o])]
    requires (forall o :: o in n.incoming ==> !Leads(n.signals, h, o)) ==> after == n.incoming
    ensures after == KeepHandles(n.incoming, Other(h))
  {
    if o :| o in n.incoming && Leads(n.signals, h, o) {
      PruneOne(n, h, o);
    } else {
      PruneNone(n, h);
    }
  }

  lemma Disconnected(n: Net, h: Handle, after: map<ObjectId, seq<Handle>>)
    requires Exact(n)
    requires forall o :: o in n.incoming && Leads(n.signals, h, o) ==>
               after == n.incoming[o := Filter(Other(h), n.incoming[o])]
    requires (forall o :: o in n.incoming ==> !Leads(n.signals, h, o)) ==> after == n.incoming
    ensures Exact(Next(n, Disconnect(h)))
    ensures Next(n, Disconnect(h)) == n.(signals := KeepSlots(n.signals, NotHandle(h)), incoming := after)
  {
    NextKeepsExact(n, Disconnect(h));
    Pruned(n, h, after);
  }

  function NotLost(slots: seq<Slot>, o: ObjectId): Handle -> bool
  {
    (x: Handle) => Slot(x, Some(o)) !in slots
  }

  /** The handles left once these slots are destroyed. */
  function Remaining(incoming: map<ObjectId, seq<Handle>>, slots: seq<Slot>): map<ObjectId, seq<Handle>>
  {
    map o | o in incoming :: Filter(NotLost(slots, o), incoming[o])
  }

  lemma RemainingNone(incoming: map<ObjectId, seq<Handle>>)
    ensures Remaining(incoming, []) == incoming
  {
    forall o | o in incoming ensures Filter(NotLost([], o), incoming[o]) == incoming[o] {
      FilterAll(NotLost([], o), incoming[o]);
    }
  }

  lemma RemainingOne(incoming: map<ObjectId, seq<Handle>>, slots: seq<Slot>, slot: Slot)
    ensures Remaining(incoming, slots + [slot]) ==
            var r := Remaining(incoming, slots);
            if slot.owner.Some? && slot.owner.value in incoming
            then r[slot.owner.value := Filter(Other(slot.handle), r[slot.owner.value])] else r
  {
    forall o | o in incoming
      ensures Filter(NotLost(slots + [slot], o), incoming[o]) ==
              if slot.owner == Some(o) then Filter(Other(slot.handle), Filter(NotLost(slots, o), incoming[o]))
              else Filter(NotLost(slots, o), incoming[o])
    {
      if slot.owner == Some(o) {
        FilterTwice(NotLost(slots, o), Other(slot.handle), NotLost(slots + [slot], o), incoming[o]);
      } else {
        FilterSame(NotLost(slots + [slot], o), NotLost(slots, o), incoming[o]);
      }
    }
  }

  lemma RemainingNext(incoming: map<ObjectId, seq<Handle>>, slots: seq<Slot>, i: nat)
    requires i < |slots|
    ensures Remaining(incoming, slots[..i + 1]) ==
            var r, slot := Remaining(incoming, slots[..i]), slots[i];
            if slot.owner.Some? && slot.owner.value in incoming
            then r[slot.owner.value := Filter(Other(slot.handle), r[slot.owner.value])] else r
  {
    assert slots[..i + 1] == slots[..i] + [slots[i]];
    RemainingOne(incoming, slots[..i], slots[i]);
  }

  lemma RemainingAll(n: Net, s: SignalId)
    requires Exact(n) && s in n.signals
    ensures Remaining(n.incoming, n.signals[s]) == KeepHandles(n.incoming, NotOf(s))
  {
    var slots := n.signals[s];
    forall o | o in n.incoming ensures Filter(NotLost(slots, o), n.incoming[o]) == Filter(NotOf(s), n.incoming[o]) {
      assert IsIndex(n.incoming[o], n.signals, o);
      forall h | h in n.incoming[o] ensures Slot(h, Some(o)) !in slots <==> h.signal != s {
        assert Leads(n.signals, h, o);
        if Slot(h, Some(o)) in slots {
          SlotKnows(n, s, Slot(h, Some(o)), o);
        }
      }
      FilterSame(NotLost(slots, o), NotOf(s), n.incoming[o]);
    }
  }

  lemma ForeignHandle(signals: map<SignalId, seq<Slot>>, next: nat, s: SignalId, h: Handle)
    requires AllShaped(signals, next) && s in signals && s != h.signal
    ensures Filter(NotHandle(h), signals[s]) == signals[s]
  {
    assert Shaped(s, signals[s], next);
    FilterAll(NotHandle(h), signals[s]);
  }

  lemma CutSlot(s: SignalId, slots: seq<Slot>, next: nat, i: nat)
    requires Shaped(s, slots, next) && i < |slots|
    ensures Filter(NotHandle(slots[i].handle), slots) == slots[..i] + slots[i + 1..]
  {
    var hs := Handles(slots);
    forall j | 0 <= j < |slots| && j != i ensures slots[j].handle != slots[i].handle {
      assert hs[j].serial != hs[i].serial;
    }
    FilterCut(NotHandle(slots[i].handle), slots, i);
  }

  lemma CutLeads(slots: seq<Slot>, i: nat, signals: map<SignalId, seq<Slot>>, next: nat)
    requires i < |slots| && slots[i].handle.signal in signals && signals[slots[i].handle.signal] == slots
    requires AllShaped(signals, next)
    ensures var h := slots[i].handle;
            && KeepSlots(signals, NotHandle(h)) == signals[h.signal := slots[..i] + slots[i + 1..]]
            && forall o: ObjectId :: Leads(signals, h, o) <==> slots[i].owner == Some(o)
  {
    var h := slots[i].handle;
    assert Shaped(h.signal, slots, next);
    CutSlot(h.signal, slots, next, i);
    forall o: ObjectId ensures Leads(signals, h, o) <==> slots[i].owner == Some(o) {
      if Leads(signals, h, o) {
        OneOwner(signals, next, slots[i], Slot(h, Some(o)), h.signal);
      }
    }
    forall s | s in signals && s != h.signal ensures Filter(NotHandle(h), signals[s]) == signals[s] {
      ForeignHandle(signals, next, s, h);
    }
  }

  /** A handle whose slot is gone. */
  lemma Unlinked(signals: map<SignalId, seq<Slot>>, next: nat, h: Handle)
    requires AllShaped(signals, next)
    requires h.signal in signals ==> forall slot :: slot in signals[h.signal] ==> slot.handle != h
    ensures KeepSlots(signals, NotHandle(h)) == signals
    ensures forall o: ObjectId :: !Leads(signals, h, o)
  {
    forall s | s in signals ensures Filter(NotHandle(h), signals[s]) == signals[s] {
      if s == h.signal {
        FilterAll(NotHandle(h), signals[s]);
      } else {
        ForeignHandle(signals, next, s, h);
      }
    }
  }

  lemma HeldByOne(n: Net, o: ObjectId, h: Handle, p: ObjectId)
    requires Exact(n) && o in n.incoming && h in n.incoming[o]
    ensures Leads(n.signals, h, p) ==> p == o
  {
    assert IsIndex(n.incoming[o], n.signals, o);
    assert Leads(n.signals, h, o);
    SlotKnows(n, h.signal, Slot(h, Some(o)), p);
  }

  /** Destroying a signal that is gone changes nothing: no handle names it any more. */
  lemma SignalGone(n: Net, s: SignalId)
    requires Exact(n) && s !in n.signals
    ensures Next(n, DestroySignal(s)) == n
  {
    forall o | o in n.incoming ensures Filter(NotOf(s), n.incoming[o]) == n.incoming[o] {
      assert IsIndex(n.incoming[o], n.signals, o);
      FilterAll(NotOf(s), n.incoming[o]);
    }
  }

  // ---------------------------------------------------------------- the objects and signals themselves

  predicate NoLiveOwner(signals: map<SignalId, seq<Slot>>, h: Handle, life: set<ObjectId>)
  {
    forall o :: o in life ==> !Leads(signals, h, o)
  }

  /** One turn of the destructor's loop: the handle's slot leads to o alone, and its removal adds to what is gone. */
  lemma DropNext(n: Net, o: ObjectId, i: nat)
    requires Exact(n) && o in n.incoming && i < |n.incoming[o]|
    ensures var list := n.incoming[o];
            var left := KeepSlots(n.signals, NotAmong(list[..i]));
            && AllShaped(left, n.next)
            && NoLiveOwner(left, list[i], n.incoming.Keys - {o})
            && KeepSlots(left, NotHandle(list[i])) == KeepSlots(n.signals, NotAmong(list[..i + 1]))
  {
    var list, h := n.incoming[o], n.incoming[o][i];
    assert h in list;
    var left := KeepSlots(n.signals, NotAmong(list[..i]));
    KeepSlotsShaped(n.signals, NotAmong(list[..i]), n.next);
    KeepSlotsTwice(n.signals, list[..i], h);
    assert list[..i + 1] == list[..i] + [h];
    forall p | p in n.incoming.Keys - {o} ensures !Leads(left, h, p) {
      HeldByOne(n, o, h, p);
      KeepSlotsLeads(n.signals, NotAmong(list[..i]), h, p);
    }
  }

  /** ~Cleanup() erases every copy of its handle; with an expired life token it touches nothing. */
  method RemoveHandle(handles: seq<Handle>, h: Handle) returns (r: seq<Handle>)
    ensures r == Filter(Other(h), handles)
  {
    r := [];
    for i := 0 to |handles|
      invariant r + Filter(Other(h), handles[i..]) == Filter(Other(h), handles)
    {
      assert handles[i..][1..] == handles[i + 1..];
      if handles[i] != h {
        r := r + [handles[i]];
      }
    }
  }

  class Switchboard {
    var signals: map<SignalId, seq<Slot>>
    var mIncoming: map<ObjectId, seq<Handle>>
    var mLife: set<ObjectId>                     // life tokens that have not expired
    var mIncomingDying: map<ObjectId, seq<Handle>> // mIncoming of the objects inside their destructor
    var dead: set<ObjectId>
    var nextSerial: nat

    ghost function Abs(): Net
      reads this
    {
      Net(signals, mIncoming, mIncomingDying, dead, nextSerial)
    }

    ghost predicate Valid()
      reads this
    {
      Exact(Abs()) && mLife == mIncoming.Keys
    }

    constructor ()
      ensures Valid() && Abs() == EMPTY
    {
      signals, mIncoming, mLife, nextSerial := map[], map[], {}, 0;
      mIncomingDying, dead := map[], {};
    }

    method CreateObject(o: ObjectId)
      requires Valid() && !Used(Abs(), o)
      modifies this
      ensures Valid() && Abs() == Next(old(Abs()), NewObject(o))
    {
      NextKeepsExact(Abs(), NewObject(o));
      mLife := mLife + {o};
      mIncoming := mIncoming[o := []];
    }

    method CreateSignal(s: SignalId)
      requires Valid() && s !in signals
      modifies this
      ensures Valid() && Abs() == Next(old(Abs()), NewSignal(s))
    {
      NextKeepsExact(Abs(), NewSignal(s));
      signals := signals[s := []];
    }

    /** connect(): the slot first, then trackIncoming(); without a receiver there is no connection. */
    method Connect(s: SignalId, aReceiver: Option<ObjectId>) returns (handle: Option<Handle>)
      requires Valid() && s in signals && (aReceiver.Some? ==> Exists(Abs(), aReceiver.value))
      modifies this
      ensures Valid()
      ensures aReceiver.None? ==> handle == None && Abs() == old(Abs())
      ensures aReceiver.Some? ==>
                && Abs() == Next(old(Abs()), ConnectTo(s, aReceiver.value))
                && handle.Some? && Leads(signals, handle.value, aReceiver.value)
                && !Leads(old(signals), handle.value, aReceiver.value)
    {
      if aReceiver.None? {
        return None;
      }
      var o := aReceiver.value;
      NextKeepsExact(Abs(), ConnectTo(s, o));
      var h := Handle(s, nextSerial);
      if Leads(signals, h, o) {
        SerialIssued(Abs(), h, o);
        assert false;
      }
      nextSerial := nextSerial + 1;
      signals := signals[s := signals[s] + [Slot(h, Some(o))]];
      if o in mLife {
        mIncoming := mIncoming[o := mIncoming[o] + [h]];
      } else {
        mIncomingDying := mIncomingDying[o := mIncomingDying[o] + [h]];
      }
      handle := Some(h);
      AddSlotLeads(old(Abs()), s, Some(o), h, o);
    }

    /** Signal::connect() with a function that belongs to nobody. */
    method ConnectFunction(s: SignalId) returns (handle: Handle)
      requires Valid() && s in signals
      modifies this
      ensures Valid() && Abs() == Next(old(Abs()), ConnectPlain(s))
    {
      NextKeepsExact(Abs(), ConnectPlain(s));
      handle := Handle(s, nextSerial);
      nextSerial := nextSerial + 1;
      signals := signals[s := signals[s] + [Slot(handle, None)]];
    }

    /** ~Cleanup(), as its slot is destroyed. */
    method DestroyCleanup(slot: Slot)
      requires mLife <= mIncoming.Keys
      modifies `mIncoming
      ensures mIncoming == if slot.owner.Some? && slot.owner.value in mLife
                           then old(mIncoming)[slot.owner.value :=
                                                 Filter(Other(slot.handle), old(mIncoming)[slot.owner.value])]
                           else old(mIncoming)
    {
      if slot.owner.Some? && slot.owner.value in mLife {
        var o := slot.owner.value;
        var handles := RemoveHandle(mIncoming[o], slot.handle);
        mIncoming := mIncoming[o := handles];
      }
    }

    /** boost's disconnect(): unlink the slot if it is still there, and destroy it with its Cleanup. */
    method DropSlot(h: Handle)
      requires AllShaped(signals, nextSerial) && mLife <= mIncoming.Keys
      modifies `signals, `mIncoming
      ensures signals == KeepSlots(old(signals), NotHandle(h))
      ensures forall o :: Leads(old(signals), h, o) && o in mLife ==>
                mIncoming == old(mIncoming)[o := Filter(Other(h), old(mIncoming)[o])]
      ensures NoLiveOwner(old(signals), h, mLife) ==> mIncoming == old(mIncoming)
    {
      if h.signal !in signals {
        Unlinked(signals, nextSerial, h);
        return;
      }
      var slots := signals[h.signal];
      var i := 0;
      while i < |slots| && slots[i].handle != h
        invariant 0 <= i <= |slots|
        invariant forall j :: 0 <= j < i ==> slots[j].handle != h
      {
        i := i + 1;
      }
      if i == |slots| {
        Unlinked(signals, nextSerial, h);
        return;
      }
      CutLeads(slots, i, signals, nextSerial);
      signals := signals[h.signal := slots[..i] + slots[i + 1..]];
      DestroyCleanup(slots[i]);
    }

    method Disconnect(h: Handle)
      requires Valid()
      modifies this
      ensures Valid() && Abs() == Next(old(Abs()), Op.Disconnect(h))
    {
      ghost var n := Abs();
      DropSlot(h);
      Disconnected(n, h, mIncoming);
      assert Abs() == Next(n, Op.Disconnect(h));
    }

    /** A signal takes its slots with it, each slot its Cleanup. */
    method DestroySignal(s: SignalId)
      requires Valid() && s in signals
      modifies this
      ensures Valid() && Abs() == Next(old(Abs()), Op.DestroySignal(s))
    {
      ghost var n := Abs();
      NextKeepsExact(n, Op.DestroySignal(s));
      RemainingAll(n, s);
      var slots := signals[s];
      signals := signals - {s};
      DestroySlots(slots);
    }

    /** The slots of a signal that is gone, destroyed one by one. */
    method DestroySlots(slots: seq<Slot>)
      requires mLife == mIncoming.Keys
      modifies `mIncoming
      ensures mIncoming == Remaining(old(mIncoming), slots)
    {
      ghost var incoming := mIncoming;
      RemainingNone(incoming);
      for i := 0 to |slots|
        invariant mIncoming == Remaining(incoming, slots[..i])
      {
        RemainingNext(incoming, slots, i);
        DestroyCleanup(slots[i]);
      }
      assert slots[..|slots|] == slots;
    }

    /** The destructor's loop over the handles it has swapped out, run with the life token expired. */
    method DisconnectAll(incoming: seq<Handle>, ghost n: Net, ghost o: ObjectId)
      requires Exact(n) && o in n.incoming && incoming == n.incoming[o]
      requires signals == n.signals && mIncoming == n.incoming - {o}
      requires mLife == n.incoming.Keys - {o} && nextSerial == n.next
      modifies `signals, `mIncoming
      ensures signals == KeepSlots(n.signals, NotAmong(incoming))
      ensures mIncoming == old(mIncoming)
    {
      KeepSlotsNone(signals);
      for i := 0 to |incoming|
        invariant signals == KeepSlots(n.signals, NotAmong(incoming[..i]))
        invariant mIncoming == old(mIncoming)
      {
        DropNext(n, o, i);
        DropSlot(incoming[i]);
      }
      assert incoming[..|incoming|] == incoming;
    }

    /**
      ~Object() up to its disconnect loop: expire the life token, swap the handles out, disconnect them one by one.
      The expired token makes every ~Cleanup leave mIncoming alone, so the loop never meets its own list.
     */
    method BeginDestroy(o: ObjectId)
      requires Valid() && o in mLife
      modifies this
      ensures Valid() && Abs() == Next(old(Abs()), Op.BeginDestroy(o))
    {
      ghost var n := Abs();
      NextKeepsExact(n, Op.BeginDestroy(o));
      IndexIsOwner(n, o);
      mLife := mLife - {o};
      var incoming := mIncoming[o];
      mIncoming, mIncomingDying := mIncoming - {o}, mIncomingDying[o := []];
      DisconnectAll(incoming, n, o);
    }

    /** The end of ~Object(): what its callbacks made of mIncoming goes with it, undisconnected. */
    method EndDestroy(o: ObjectId)
      requires Valid() && o in mIncomingDying
      modifies this
      ensures Valid() && Abs() == Next(old(Abs()), Op.EndDestroy(o))
    {
      NextKeepsExact(Abs(), Op.EndDestroy(o));
      mIncomingDying, dead := mIncomingDying - {o}, dead + {o};
    }

    /** One operation of a cleanup callback; aimed at something that does not exist it does nothing. */
    method Perform(op: Op)
      requires Valid()
      modifies this
      ensures Valid() && Abs() == Next(old(Abs()), op)
    {
      match op {
        case NewObject(o) => if o !in mIncoming && o !in mIncomingDying && o !in dead { CreateObject(o); }
        case NewSignal(s) => if s !in signals { CreateSignal(s); }
        case ConnectTo(s, o) =>
          if s in signals && (o in mIncoming || o in mIncomingDying) { var _ := Connect(s, Some(o)); }
        case ConnectPlain(s) => if s in signals { var _ := ConnectFunction(s); }
        case Disconnect(h) => Disconnect(h);
        case DestroySignal(s) => if s in signals { DestroySignal(s); } else { SignalGone(Abs(), s); }
        case BeginDestroy(o) => if o in mLife { BeginDestroy(o); }
        case EndDestroy(o) => if o in mIncomingDying { EndDestroy(o); }
      }
    }

    /** ~Object() with its cleanup callbacks, which run after the disconnect loop. */
    method Destruct(o: ObjectId, callbacks: seq<Op>)
      requires Valid() && o in mLife
      modifies this
      ensures Valid()
      ensures Abs() == Run(old(Abs()), [Op.BeginDestroy(o)] + callbacks + [Op.EndDestroy(o)])
    {
      ghost var n := Abs();
      BeginDestroy(o);
      RunOne(n, Op.BeginDestroy(o));
      for i := 0 to |callbacks|
        invariant Valid() && Abs() == Run(n, [Op.BeginDestroy(o)] + callbacks[..i])
      {
        Perform(callbacks[i]);
        RunSnoc(n, [Op.BeginDestroy(o)] + callbacks[..i], callbacks[i]);
        assert [Op.BeginDestroy(o)] + callbacks[..i + 1] == [Op.BeginDestroy(o)] + callbacks[..i] + [callbacks[i]];
      }
      assert callbacks[..|callbacks|] == callbacks;
      Perform(Op.EndDestroy(o));
      RunSnoc(n, [Op.BeginDestroy(o)] + callbacks, Op.EndDestroy(o));
    }
  }
}
