/**
 The table of adapters of gps/core/LocApiBase.cpp: an array of ten that is kept dense by moving the
 last adapter into the place of one that is removed.

 `Added` and `Removed` are the table as a sequence; `LocApiBase` is the source's object.
 */
module AdapterTable {
  import opened Wrappers

  const MAX_ADAPTERS := 10

  function Added<T(==)>(list: seq<T>, a: T): seq<T> {
    if a in list || |list| >= MAX_ADAPTERS then list else list + [a]
  }

  function Find<T(==)>(list: seq<T>, a: T, from: nat): (i: nat)
    requires from <= |list|
    ensures from <= i <= |list| && (i < |list| ==> list[i] == a)
    ensures forall j :: from <= j < i ==> list[j] != a
    decreases |list| - from
  {
    if from == |list| || list[from] == a then from else Find(list, a, from + 1)
  }

  function Removed<T(==)>(list: seq<T>, a: T): seq<T> {
    var i := Find(list, a, 0);
    if i == |list| then list else list[i := list[|list| - 1]][..|list| - 1]
  }

  ghost predicate NoDup<T>(list: seq<T>) { forall i, j :: 0 <= i < j < |list| ==> list[i] != list[j] }

  // The table is a set: an adapter that is removed is the only one that goes.
  lemma RemovedIsSetMinus<T>(list: seq<T>, a: T)
    requires NoDup(list)
    ensures NoDup(Removed(list, a))
    ensures forall x :: x in Removed(list, a) <==> x in list && x != a
    ensures |Removed(list, a)| == |list| - if a in list then 1 else 0
  {
    var (i, r, n) := (Find(list, a, 0), Removed(list, a), |list| - 1);
    if i < |list| {
      forall x | x in list && x != a ensures x in r {
        var k :| 0 <= k < |list| && list[k] == x;
        assert r[if k == n then i else k] == x;
      }
    }
  }

  lemma AddedIsSetPlus<T>(list: seq<T>, a: T)
    requires NoDup(list)
    ensures NoDup(Added(list, a))
    ensures forall x :: x in Added(list, a) <==> x in list || (x == a && |list| < MAX_ADAPTERS)
  {
  }

  /* ---------- runs ---------- */

  // What the modem side was told last.
  datatype Call = Nothing | Open(mask: Mask) | Close

  datatype Adapter = Adapter(id: int)

  // `queued` counts the messages that will open the modem side for the mask of that time: those of
  // the table, and those of an engine restart, which close it first.
  datatype State = State(list: seq<Adapter>, queued: nat, last: Call)

  // EngineUp queues such a message, OpenMsg is one being handled, and Refresh opens directly.
  datatype Event = Add(a: Adapter) | Remove(a: Adapter) | EngineUp | OpenMsg | Refresh

  const INIT := State([], 0, Nothing)

  // A 64-bit event mask, as the set of its bits.
  type Mask = set<nat>

  // The masks of adapters, and the bits that are not wanted.
  datatype Masks = Masks(of: Adapter -> Mask, excluded: Mask)

  function Union(m: Masks, list: seq<Adapter>, k: nat): Mask
    requires k <= |list|
  {
    if k == 0 then {} else Union(m, list, k - 1) + m.of(list[k - 1])
  }

  function EvtMask(m: Masks, list: seq<Adapter>): Mask { Union(m, list, |list|) - m.excluded }

  function Step(m: Masks, s: State, e: Event): State {
    match e
    case Add(a) =>
      var list := Added(s.list, a);
      if list == s.list then s else s.(list := list, queued := s.queued + 1)
    case Remove(a) =>
      var list := Removed(s.list, a);
      if list == s.list then s
      else if list == [] then s.(list := list, last := Close)
      else s.(list := list, queued := s.queued + 1)
    case EngineUp => s.(queued := s.queued + 1)
    case Refresh => s.(last := Open(EvtMask(m, s.list)))
    case OpenMsg => if s.queued == 0 then s else s.(queued := s.queued - 1, last := Open(EvtMask(m, s.list)))
  }

  ghost function After(m: Masks, run: seq<Event>, k: nat): State
    requires k <= |run|
  {
    if k == 0 then INIT else Step(m, After(m, run, k - 1), run[k - 1])
  }

  // The table as a set, with the adds that found it full left out.
  ghost function Members(m: Masks, run: seq<Event>, k: nat): set<Adapter>
    requires k <= |run|
  {
    if k == 0 then {}
    else
      var before := Members(m, run, k - 1);
      match run[k - 1]
      case Add(a) => if |before| < MAX_ADAPTERS then before + {a} else before
      case Remove(a) => before - {a}
      case _ => before
  }

  // The modem side is up to date, but for opens that are still queued.
  ghost predicate UpToDate(m: Masks, s: State) {
    s.queued > 0 ||
    if s.list == [] then s.last in {Nothing, Close, Open({})} else s.last == Open(EvtMask(m, s.list))
  }

  ghost predicate Same(list: seq<Adapter>, s: set<Adapter>) { forall x :: x in list <==> x in s }

  lemma SameSize(list: seq<Adapter>, s: set<Adapter>)
    requires NoDup(list) && Same(list, s)
    ensures |s| == |list|
  {
    SetSize(list, s, |list|);
  }

  lemma {:induction false} SetSize(list: seq<Adapter>, s: set<Adapter>, k: nat)
    requires NoDup(list) && k <= |list| && forall x :: x in s <==> exists i :: 0 <= i < k && list[i] == x
    ensures |s| == k
  {
    if k == 0 {
      assert s == {};
    } else {
      var x := list[k - 1];
      forall y ensures y in s - {x} <==> exists i :: 0 <= i < k - 1 && list[i] == y {
      }
      SetSize(list, s - {x}, k - 1);
      assert x in s;
    }
  }

  lemma StepKeeps(m: Masks, s: State, e: Event)
    requires NoDup(s.list) && |s.list| <= MAX_ADAPTERS && UpToDate(m, s)
    ensures var t := Step(m, s, e); NoDup(t.list) && |t.list| <= MAX_ADAPTERS && UpToDate(m, t)
  {
    match e {
      case Add(a) => AddedIsSetPlus(s.list, a);
      case Remove(a) => RemovedIsSetMinus(s.list, a);
      case _ => assert s.list == [] ==> EvtMask(m, s.list) == {};
    }
    hide Removed;
  }

  // In every run the table has no duplicates and holds just the adapters that were added and not
  // removed since; and once the queue is empty, the modem side was told last of their mask.
  lemma {:induction false} TableIsSet(m: Masks, run: seq<Event>, k: nat)
    requires k <= |run|
    ensures var s := After(m, run, k);
      && NoDup(s.list) && |s.list| == |Members(m, run, k)| <= MAX_ADAPTERS
      && Same(s.list, Members(m, run, k))
      && UpToDate(m, s)
  {
    hide Step, UpToDate, NoDup, Same, Members, After;
    if k == 0 {
      EmptyTableIsSet(m, run);
    } else {
      TableIsSet(m, run, k - 1);
      StepKeeps(m, After(m, run, k - 1), run[k - 1]);
      StepMembers(m, run, k - 1);
      SameSize(After(m, run, k).list, Members(m, run, k));
    }
  }

  lemma EmptyTableIsSet(m: Masks, run: seq<Event>)
    ensures var s := After(m, run, 0);
      NoDup(s.list) && s.list == [] && Members(m, run, 0) == {} && Same(s.list, Members(m, run, 0)) && UpToDate(m, s)
  {
  }

  lemma StepMembers(m: Masks, run: seq<Event>, k: nat)
    requires k < |run| && NoDup(After(m, run, k).list)
    requires |After(m, run, k).list| == |Members(m, run, k)|
    requires Same(After(m, run, k).list, Members(m, run, k))
    ensures After(m, run, k + 1) == Step(m, After(m, run, k), run[k])
    ensures Same(After(m, run, k + 1).list, Members(m, run, k + 1))
  {
    var list := After(m, run, k).list;
    if run[k].Add? {
      AddedIsSetPlus(list, run[k].a);
    } else if run[k].Remove? {
      RemovedIsSetMinus(list, run[k].a);
    }
    hide Added, Removed, NoDup;
  }

  // The table changes, and somebody is left; or the engine comes up: a message is queued.
  ghost predicate Queues(m: Masks, run: seq<Event>, j: nat)
    requires j < |run|
  {
    run[j].EngineUp? || (Members(m, run, j + 1) != Members(m, run, j) && Members(m, run, j + 1) != {})
  }

  ghost function Queued(m: Masks, run: seq<Event>, k: nat): nat
    requires k <= |run|
  {
    if k == 0 then 0 else Queued(m, run, k - 1) + if Queues(m, run, k - 1) then 1 else 0
  }

  ghost function Handled(m: Masks, run: seq<Event>, k: nat): nat
    requires k <= |run|
  {
    if k == 0 then 0
    else Handled(m, run, k - 1) + if run[k - 1].OpenMsg? && After(m, run, k - 1).queued > 0 then 1 else 0
  }

  lemma SameList(list: seq<Adapter>, a: Adapter)
    requires NoDup(list) && |list| <= MAX_ADAPTERS
    ensures Added(list, a) != list <==> a !in list && |list| < MAX_ADAPTERS
    ensures Removed(list, a) != list <==> a in list
    ensures Removed(list, a) == [] <==> forall x :: x in list ==> x == a
  {
    RemovedIsSetMinus(list, a);
    assert Removed(list, a) == [] <==> forall x :: x !in Removed(list, a) by {
      if Removed(list, a) != [] {
        assert Removed(list, a)[0] in Removed(list, a);
      }
    }
    hide Removed;
  }

  lemma StepQueues(m: Masks, s: State, e: Event)
    ensures var t := Step(m, s, e);
      t.queued == s.queued + (if e.EngineUp? || (t.list != s.list && t.list != []) then 1 else 0)
                  - if e.OpenMsg? && s.queued > 0 then 1 else 0
  {
    hide Find, EvtMask;
  }

  // The list changes just when the set does, and both are empty together.
  lemma ListChanges(m: Masks, run: seq<Event>, k: nat)
    requires k < |run|
    ensures var (s, t) := (After(m, run, k), After(m, run, k + 1));
      && (t.list != s.list <==> Members(m, run, k + 1) != Members(m, run, k))
      && (t.list == [] <==> Members(m, run, k + 1) == {})
  {
    TableIsSet(m, run, k);
    TableIsSet(m, run, k + 1);
    var (s, t) := (After(m, run, k), After(m, run, k + 1));
    StepChanges(m, s, run[k]);
    assert t == Step(m, s, run[k]);
    if x :| (x in s.list) != (x in t.list) {
      assert (x in Members(m, run, k)) != (x in Members(m, run, k + 1));
    } else {
      assert forall x :: x in Members(m, run, k) <==> x in Members(m, run, k + 1);
    }
    hide Step, After, Members, NoDup, UpToDate;
  }

  lemma StepChanges(m: Masks, s: State, e: Event)
    requires NoDup(s.list) && |s.list| <= MAX_ADAPTERS
    ensures Step(m, s, e).list != s.list <==> exists x :: (x in s.list) != (x in Step(m, s, e).list)
  {
    if e.Add? {
      SameList(s.list, e.a);
      AddedIsSetPlus(s.list, e.a);
    } else if e.Remove? {
      SameList(s.list, e.a);
      RemovedIsSetMinus(s.list, e.a);
    }
    hide Added, Removed, EvtMask, NoDup;
  }

  // In every run the queue holds just the messages that were queued and not handled: one for each
  // change of the table that leaves somebody in it, and each engine restart.
  lemma {:induction false} QueueIsExact(m: Masks, run: seq<Event>, k: nat)
    requires k <= |run|
    ensures After(m, run, k).queued == Queued(m, run, k) - Handled(m, run, k)
  {
    hide Step, Members;
    if k > 0 {
      QueueIsExact(m, run, k - 1);
      StepQueues(m, After(m, run, k - 1), run[k - 1]);
      ListChanges(m, run, k - 1);
    }
  }

  // The modem side is closed exactly when the last adapter goes, and opened for the mask of the
  // moment exactly by a refresh, or a message that is handled.
  lemma LastCallIsExact(m: Masks, s: State, e: Event)
    ensures var t := Step(m, s, e);
      t.last ==
        if s.list != [] && t.list == [] then Close
        else if e.Refresh? || (e.OpenMsg? && s.queued > 0) then Open(EvtMask(m, s.list))
        else s.last
  {
    hide EvtMask, Find;
  }

  // The state after the first k events that follow s.
  ghost function From(m: Masks, s: State, run: seq<Event>, k: nat): State
    requires k <= |run|
  {
    if k == 0 then s else Step(m, From(m, s, run, k - 1), run[k - 1])
  }

  // Event j opens the modem side.
  ghost predicate Opens(m: Masks, s: State, run: seq<Event>, j: nat)
    requires j < |run|
  {
    run[j].Refresh? || (run[j].OpenMsg? && From(m, s, run, j).queued > 0)
  }

  // With no adapter left, and none added, the modem side stays closed exactly as long as no event
  // opens it.
  lemma {:induction false} StaysClosedIff(m: Masks, s: State, run: seq<Event>, k: nat)
    requires s.list == [] && s.last == Close && k <= |run|
    requires forall j :: 0 <= j < k ==> !run[j].Add?
    ensures var t := From(m, s, run, k);
      t.list == [] && t.last == if exists j :: 0 <= j < k && Opens(m, s, run, j) then Open({}) else Close
  {
    if k > 0 {
      StaysClosedIff(m, s, run, k - 1);
      NoMask(m);
      assert Opens(m, s, run, k - 1) <==>
        run[k - 1].Refresh? || (run[k - 1].OpenMsg? && From(m, s, run, k - 1).queued > 0);
    }
    hide EvtMask, Opens;
  }

  // A queue that empties with nothing handled was empty, and nothing was put there; and an empty
  // one stays so while nothing is.
  lemma {:induction false} QueueEmptyIff(m: Masks, s: State, run: seq<Event>, k: nat)
    requires s.list == [] && k <= |run| && forall j :: 0 <= j < k ==> !run[j].Add? && !run[j].Refresh?
    ensures From(m, s, run, k).list == []
    ensures (forall j :: 0 <= j < k ==> !Opens(m, s, run, j)) ==>
      From(m, s, run, k).queued >= s.queued &&
      (From(m, s, run, k).queued == s.queued <==> forall j :: 0 <= j < k ==> !run[j].EngineUp?)
    ensures s.queued == 0 && (forall j :: 0 <= j < k ==> !run[j].EngineUp?) ==>
      From(m, s, run, k).queued == 0 && forall j :: 0 <= j < k ==> !Opens(m, s, run, j)
  {
    if k > 0 {
      QueueEmptyIff(m, s, run, k - 1);
      assert Opens(m, s, run, k - 1) <==> run[k - 1].OpenMsg? && From(m, s, run, k - 1).queued > 0;
    }
    hide EvtMask, Opens;
  }

  // So once the queue is empty after the removal of the last adapter, the modem side is closed
  // exactly if nothing was queued before it, no engine has come up and no mask was refreshed since.
  lemma ClosedForGoodIff(m: Masks, s: State, a: Adapter, run: seq<Event>, k: nat)
    requires s.list != [] && Removed(s.list, a) == [] && k <= |run|
    requires forall j :: 0 <= j < k ==> !run[j].Add?
    requires From(m, Step(m, s, Remove(a)), run, k).queued == 0
    ensures From(m, Step(m, s, Remove(a)), run, k).last == Close <==>
      s.queued == 0 && forall j :: 0 <= j < k ==> !run[j].EngineUp? && !run[j].Refresh?
  {
    var t := Step(m, s, Remove(a));
    StaysClosedIff(m, t, run, k);
    if j :| 0 <= j < k && run[j].Refresh? {
      assert Opens(m, t, run, j);
    } else {
      QueueEmptyIff(m, t, run, k);
    }
    hide From, Removed;
  }

  // An open that is queued when the last adapter goes comes after the close.
  lemma OpenComesAfterClose(m: Masks)
    ensures var run := [Add(Adapter(1)), Remove(Adapter(1)), OpenMsg];
      After(m, run, 2) == State([], 1, Close) && After(m, run, 3) == State([], 0, Open({}))
  {
    NoMask(m);
    hide EvtMask;
    var run := [Add(Adapter(1)), Remove(Adapter(1)), OpenMsg];
    var s1 := State([Adapter(1)], 1, Nothing);
    assert Step(m, INIT, run[0]) == s1;
    assert Removed(s1.list, Adapter(1)) == [];
    assert Step(m, s1, run[1]) == State([], 1, Close);
    hide Step;
    assert After(m, run, 1) == s1;
    assert After(m, run, 2) == State([], 1, Close);
    assert After(m, run, 3) == Step(m, State([], 1, Close), run[2]);
  }

  lemma NoMask(m: Masks)
    ensures EvtMask(m, []) == {} && Step(m, State([], 1, Close), OpenMsg) == State([], 0, Open({}))
  {
  }

  /* ---------- masks ---------- */

  // A bit is in the mask exactly if it is in that of some adapter, and not excluded.
  lemma {:induction false} UnionHasBit(m: Masks, list: seq<Adapter>, k: nat, bit: nat)
    requires k <= |list|
    ensures bit in Union(m, list, k) <==> exists i :: 0 <= i < k && bit in m.of(list[i])
  {
    if k > 0 {
      UnionHasBit(m, list, k - 1, bit);
    }
  }

  lemma MaskHasBit(m: Masks, list: seq<Adapter>, bit: nat)
    ensures bit in EvtMask(m, list) <==> bit !in m.excluded && exists a :: a in list && bit in m.of(a)
  {
    UnionHasBit(m, list, |list|, bit);
    if a :| a in list && bit in m.of(a) {
      var i :| 0 <= i < |list| && list[i] == a;
    }
    hide Union;
  }

  // So the mask does not depend on the order in which the removals have left the adapters.
  lemma MaskIgnoresOrder(m: Masks, list: seq<Adapter>, other: seq<Adapter>)
    requires forall x :: x in list <==> x in other
    ensures EvtMask(m, list) == EvtMask(m, other)
  {
    forall bit ensures bit in Union(m, list, |list|) <==> bit in Union(m, other, |other|) {
      UnionHasBit(m, list, |list|, bit);
      UnionHasBit(m, other, |other|, bit);
      assert (exists i :: 0 <= i < |list| && bit in m.of(list[i])) <==> exists x :: x in list && bit in m.of(x);
      assert (exists i :: 0 <= i < |other| && bit in m.of(other[i])) <==> exists x :: x in other && bit in m.of(x);
    }
  }

  /* ---------- the source's object ---------- */

  class LocApiBase {
    const masks: Masks
    const locAdapters: array<Option<Adapter>>
    var queued: nat
    var last: Call
    ghost var list: seq<Adapter>

    ghost function View(): State
      reads this
    {
      State(list, queued, last)
    }

    // Adapters, and then nulls.
    ghost predicate Dense()
      reads this, locAdapters
    {
      && locAdapters.Length == MAX_ADAPTERS && |list| <= MAX_ADAPTERS
      && (forall i :: 0 <= i < |list| ==> locAdapters[i] == Some(list[i]))
      && (forall i :: |list| <= i < MAX_ADAPTERS ==> locAdapters[i] == None)
    }

    constructor (masks: Masks)
      ensures Dense() && View() == INIT && this.masks == masks && fresh(locAdapters)
    {
      this.masks, queued, last, list := masks, 0, Nothing, [];
      locAdapters := new Option<Adapter>[MAX_ADAPTERS](_ => None);
    }

    method GetEvtMask() returns (mask: Mask)
      requires Dense()
      ensures mask == EvtMask(masks, list)
    {
      mask := {};
      var i := 0;
      while i < MAX_ADAPTERS && locAdapters[i].Some?
        invariant 0 <= i <= |list| && mask == Union(masks, list, i)
      {
        mask, i := mask + masks.of(locAdapters[i].value), i + 1;
      }
      assert i == |list|;
      mask := mask - masks.excluded;
    }

    method AddAdapter(a: Adapter)
      requires Dense()
      modifies this, locAdapters
      ensures Dense() && View() == Step(masks, old(View()), Add(a))
    {
      var i := 0;
      while i < MAX_ADAPTERS && locAdapters[i] != Some(a)
        invariant 0 <= i <= |list| && a !in list[..i]
        invariant Dense() && View() == old(View())
      {
        if locAdapters[i] == None {
          locAdapters[i] := Some(a);
          list, queued := list + [a], queued + 1;
          return;
        }
        i := i + 1;
      }
    }

    // Both loops share their index.  After a removal it is at the place that the last adapter has
    // left, and what follows that is null: so the outer loop ends there, by its own condition.
    method RemoveAdapter(a: Adapter)
      requires Dense() && NoDup(list)
      modifies this, locAdapters
      ensures Dense() && NoDup(list) && View() == Step(masks, old(View()), Remove(a))
    {
      RemovedIsSetMinus(list, a);
      var i := 0;
      ghost var removed := false;
      while i < MAX_ADAPTERS && locAdapters[i].Some?
        invariant 0 <= i && Dense()
        invariant if removed then i == |list| + 1 else i <= |list| && forall j :: 0 <= j < i ==> list[j] != a
        invariant View() == if removed then Step(masks, old(View()), Remove(a)) else old(View())
        decreases MAX_ADAPTERS - i
      {
        if locAdapters[i] == Some(a) {
          FindIs(list, a, i);
          i := TakeOut(a, i);
          removed := true;
        }
        i := i + 1;
      }
      if !removed {
        FindIs(list, a, i);
      }
      hide NoDup;
    }

    // The body of the outer loop, from a match at this place.
    method TakeOut(a: Adapter, place: nat) returns (i: nat)
      requires Dense() && place == Find(list, a, 0) < |list|
      modifies this, locAdapters
      ensures Dense() && View() == Step(masks, old(View()), Remove(a)) && i == |list|
    {
      i := place;
      locAdapters[i] := None;
      var j := i;
      i := i + 1;
      while i < MAX_ADAPTERS && locAdapters[i].Some?
        invariant j < i <= |list|
      {
        i := i + 1;
      }
      i := i - 1;
      locAdapters[j] := locAdapters[i];
      locAdapters[i] := None;
      list := Removed(list, a);
      if i == 0 {
        last := Close;
      } else {
        queued := queued + 1;
      }
    }

    method HandleEngineUpEvent()
      requires Dense()
      modifies this`queued
      ensures Dense() && View() == Step(masks, old(View()), EngineUp)
    {
      queued := queued + 1;
    }

    method UpdateEvtMask()
      requires Dense()
      modifies this`last
      ensures Dense() && View() == Step(masks, old(View()), Refresh)
    {
      var mask := GetEvtMask();
      last := Open(mask);
    }

    method HandleSsrMsg()
      requires Dense() && queued > 0
      modifies this`queued, this`last
      ensures Dense() && View() == Step(masks, old(View()), OpenMsg)
    {
      queued := queued - 1;
      last := Close;
      var mask := GetEvtMask();
      last := Open(mask);
    }

    method HandleOpenMsg()
      requires Dense() && queued > 0
      modifies this
      ensures Dense() && View() == Step(masks, old(View()), OpenMsg)
    {
      queued := queued - 1;
      var mask := GetEvtMask();
      last := Open(mask);
    }
  }

  lemma FindIs(list: seq<Adapter>, a: Adapter, i: nat)
    requires i <= |list| && (i < |list| ==> list[i] == a) && forall j :: 0 <= j < i ==> list[j] != a
    ensures Find(list, a, 0) == i
  {
  }
}
