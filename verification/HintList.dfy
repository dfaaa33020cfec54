/**
 Perflocks held for hints: power/utils.c, and the linked list of power/list.c that remembers them.

 `Step` is one call of perform_hint_action or undo_hint_action on values; `HintList` is the list on
 the heap, with the calls that use it.
 */
module HintList {

  // The list node's data, from power/hint-data.h.
  datatype Hint = Hint(id: int, handle: int)

  // Which parts of the perflock library were found.
  datatype Library = Library(loaded: bool, acquire: bool, release: bool)

  // `active` is newest first.  `held` counts the locks that the library holds for the calls made
  // here, and `leaked` those that nobody remembers any more.
  datatype State = State(active: seq<Hint>, held: multiset<int>, leaked: multiset<int>)

  const INIT := State([], multiset{}, multiset{})

  const FAILED := -1

  // `handle` is what the library answers to an acquire, the flags say whether the two allocations
  // succeed, and `released` whether a release does.
  datatype Event =
    | Perform(id: int, handle: int, dataOk: bool, nodeOk: bool, released: bool)
    | Undo(id: int, released: bool)

  ghost function IndexOf(active: seq<Hint>, id: int, from: nat): (i: nat)
    requires from <= |active|
    ensures from <= i <= |active| && (i < |active| ==> active[i].id == id)
    ensures forall j :: from <= j < i ==> active[j].id != id
    decreases |active| - from
  {
    if from == |active| || active[from].id == id then from else IndexOf(active, id, from + 1)
  }

  ghost function Index(active: seq<Hint>, id: int): nat { IndexOf(active, id, 0) }

  ghost predicate IsActive(active: seq<Hint>, id: int) { Index(active, id) < |active| }

  // Giving up a lock, by a release that may be missing or fail.
  ghost function Release(lib: Library, s: State, handle: int, released: bool): State {
    if lib.release && released then s.(held := s.held - multiset{handle})
    else s.(leaked := s.leaked + multiset{handle})
  }

  ghost function OnPerform(lib: Library, s: State, e: Event): State
    requires e.Perform?
  {
    if !lib.loaded || IsActive(s.active, e.id) || !lib.acquire || e.handle == FAILED then s
    else
      var locked := s.(held := s.held + multiset{e.handle});
      if e.dataOk && e.nodeOk then locked.(active := [Hint(e.id, e.handle)] + s.active)
      else Release(lib, locked, e.handle, e.released)
  }

  ghost function OnUndo(lib: Library, s: State, e: Event): State
    requires e.Undo?
  {
    if !lib.loaded || !lib.release || !IsActive(s.active, e.id) then s
    else
      var i := Index(s.active, e.id);
      Release(lib, s.(active := Without(s.active, i)), s.active[i].handle, e.released)
  }

  ghost function Without<T>(s: seq<T>, i: nat): (r: seq<T>)
    requires i < |s|
    ensures |r| == |s| - 1 && forall j :: 0 <= j < |r| ==> r[j] == if j < i then s[j] else s[j + 1]
  {
    s[..i] + s[i + 1..]
  }

  ghost function Step(lib: Library, s: State, e: Event): State {
    if e.Perform? then OnPerform(lib, s, e) else OnUndo(lib, s, e)
  }

  /* ---------- locks ---------- */

  // How many of the first k active hints hold the lock h.
  ghost function Count(active: seq<Hint>, k: nat, h: int): nat
    requires k <= |active|
  {
    if k == 0 then 0 else Count(active, k - 1, h) + if active[k - 1].handle == h then 1 else 0
  }

  lemma {:induction false} CountMore(active: seq<Hint>, x: Hint, k: nat, h: int)
    requires k <= |active|
    ensures Count([x] + active, k + 1, h) == Count(active, k, h) + if x.handle == h then 1 else 0
  {
    if k > 0 {
      CountMore(active, x, k - 1, h);
    }
  }

  lemma {:induction false} CountWithout(active: seq<Hint>, i: nat, k: nat, h: int)
    requires i < |active| && k <= |active| - 1
    ensures Count(Without(active, i), k, h) ==
      if k <= i then Count(active, k, h)
      else Count(active, k + 1, h) - if active[i].handle == h then 1 else 0
  {
    hide Without;
    if k > 0 {
      CountWithout(active, i, k - 1, h);
    }
  }

  ghost predicate UniqueIds(active: seq<Hint>) {
    forall i, j :: 0 <= i < j < |active| ==> active[i].id != active[j].id
  }

  ghost predicate Inv(s: State) {
    && UniqueIds(s.active)
    && (forall h :: s.held[h] == Count(s.active, |s.active|, h) + s.leaked[h])
  }

  lemma UniqueWithout(active: seq<Hint>, i: nat)
    requires UniqueIds(active) && i < |active|
    ensures UniqueIds(Without(active, i))
  {
  }

  lemma PerformKeeps(lib: Library, s: State, e: Event)
    requires Inv(s) && e.Perform?
    ensures Inv(OnPerform(lib, s, e))
  {
    var t := OnPerform(lib, s, e);
    if t.active != s.active {
      forall h ensures t.held[h] == Count(t.active, |t.active|, h) + t.leaked[h] {
        CountMore(s.active, Hint(e.id, e.handle), |s.active|, h);
      }
    }
  }

  lemma UndoKeeps(lib: Library, s: State, e: Event)
    requires Inv(s) && e.Undo?
    ensures Inv(OnUndo(lib, s, e))
  {
    var t := OnUndo(lib, s, e);
    if lib.loaded && lib.release && IsActive(s.active, e.id) {
      var i := Index(s.active, e.id);
      forall h ensures t.held[h] == Count(t.active, |t.active|, h) + t.leaked[h] {
        CountWithout(s.active, i, |s.active| - 1, h);
      }
      UniqueWithout(s.active, i);
    }
    hide UniqueIds, Without, Index;
  }

  ghost function After(lib: Library, run: seq<Event>, k: nat): State
    requires k <= |run|
  {
    if k == 0 then INIT else Step(lib, After(lib, run, k - 1), run[k - 1])
  }

  // In every run each id is active at most once, and the locks held are those of the active
  // hints, and the leaked ones.
  lemma {:induction false} LocksAreRemembered(lib: Library, run: seq<Event>, k: nat)
    requires k <= |run|
    ensures Inv(After(lib, run, k))
  {
    hide OnPerform, OnUndo;
    if k > 0 {
      LocksAreRemembered(lib, run, k - 1);
      if run[k - 1].Perform? {
        PerformKeeps(lib, After(lib, run, k - 1), run[k - 1]);
      } else {
        UndoKeeps(lib, After(lib, run, k - 1), run[k - 1]);
      }
    }
    hide Inv;
  }

  // A call gives a lock up: it cannot record it, or it undoes the hint.
  ghost predicate GivesUp(lib: Library, s: State, e: Event) {
    if e.Perform? then
      lib.loaded && lib.acquire && !IsActive(s.active, e.id) && e.handle != FAILED && !(e.dataOk && e.nodeOk)
    else lib.loaded && lib.release && IsActive(s.active, e.id)
  }

  // The lock given up in call j, if any, was released.
  ghost predicate Reliable(lib: Library, run: seq<Event>, j: nat)
    requires j < |run|
  {
    GivesUp(lib, After(lib, run, j), run[j]) ==> lib.release && run[j].released
  }

  // Nothing is leaked exactly as long as every lock that was given up was in fact released; then
  // the locks held are those of the active hints.
  lemma {:induction false} NothingLeaksIff(lib: Library, run: seq<Event>, k: nat)
    requires k <= |run|
    ensures After(lib, run, k).leaked == multiset{} <==> forall j :: 0 <= j < k ==> Reliable(lib, run, j)
  {
    hide Step, GivesUp;
    if k > 0 {
      NothingLeaksIff(lib, run, k - 1);
      LeaksMore(lib, After(lib, run, k - 1), run[k - 1]);
      assert Reliable(lib, run, k - 1) <==>
        (GivesUp(lib, After(lib, run, k - 1), run[k - 1]) ==> lib.release && run[k - 1].released);
    }
    hide Reliable;
  }

  lemma LeaksMore(lib: Library, s: State, e: Event)
    ensures Step(lib, s, e).leaked == multiset{} <==>
      s.leaked == multiset{} && (GivesUp(lib, s, e) ==> lib.release && e.released)
  {
  }

  /* ---------- the list is a map ---------- */

  ghost predicate Maps(active: seq<Hint>, id: int, handle: int) {
    exists i :: 0 <= i < |active| && active[i] == Hint(id, handle)
  }

  // A perform takes effect exactly when the library can acquire and does, no such hint is active, and
  // both allocations succeed.
  lemma PerformAddsIff(lib: Library, s: State, e: Event)
    requires e.Perform?
    ensures OnPerform(lib, s, e).active != s.active <==>
      && lib.loaded && lib.acquire && e.handle != FAILED && e.dataOk && e.nodeOk
      && forall handle :: !Maps(s.active, e.id, handle)
  {
    var i := Index(s.active, e.id);
    if i < |s.active| {
      assert s.active[i] == Hint(e.id, s.active[i].handle);
      assert Maps(s.active, e.id, s.active[i].handle);
    }
    hide Index;
    assert OnPerform(lib, s, e).active != s.active ==> |OnPerform(lib, s, e).active| == |s.active| + 1;
  }

  lemma PerformAdds(lib: Library, s: State, e: Event, id: int, handle: int)
    requires e.Perform? && OnPerform(lib, s, e).active != s.active
    ensures !IsActive(s.active, e.id)
    ensures Maps(OnPerform(lib, s, e).active, id, handle) <==>
      Maps(s.active, id, handle) || Hint(id, handle) == Hint(e.id, e.handle)
  {
    var (t, a) := (OnPerform(lib, s, e).active, s.active);
    assert forall i :: 0 <= i < |a| ==> t[i + 1] == a[i];
    assert t[0] == Hint(e.id, e.handle);
    hide OnPerform;
  }

  lemma UndoRemoves(lib: Library, s: State, e: Event, id: int, handle: int)
    requires e.Undo? && UniqueIds(s.active) && OnUndo(lib, s, e).active != s.active
    ensures Maps(OnUndo(lib, s, e).active, id, handle) <==> Maps(s.active, id, handle) && id != e.id
  {
    var (t, a) := (OnUndo(lib, s, e).active, s.active);
    var i := Index(a, e.id);
    hide OnUndo, Index, Without;
    if j :| 0 <= j < |a| && a[j] == Hint(id, handle) && id != e.id {
      assert t[if j < i then j else j - 1] == a[j];
    }
  }

  // Undo does nothing exactly when the library lacks what it needs, or no such hint is active.
  lemma UndoRemovesIff(lib: Library, s: State, e: Event)
    requires e.Undo?
    ensures OnUndo(lib, s, e).active != s.active <==> lib.loaded && lib.release && IsActive(s.active, e.id)
  {
  }

  // Undoing a hint just performed leaves everything as it was.
  lemma UndoUndoes(lib: Library, s: State, p: Event, released: bool)
    requires p.Perform? && Step(lib, s, p).active != s.active
    ensures lib.release && released ==> Step(lib, Step(lib, s, p), Undo(p.id, released)) == s
  {
  }

  /* ---------- the list on the heap ---------- */

  // `compare` is whether the node has a comparison function; find_node skips nodes that have none.
  class ListNode {
    var next: ListNode?
    var data: Hint
    var compare: bool

    constructor (data: Hint)
      ensures next == null && this.data == data && !compare
    {
      next, this.data, compare := null, data, false;
    }
  }

  ghost predicate Distinct(nodes: seq<ListNode>) {
    forall i, j :: 0 <= i < j < |nodes| ==> nodes[i] != nodes[j]
  }

  lemma DistinctWithout(nodes: seq<ListNode>, i: nat)
    requires Distinct(nodes) && i < |nodes|
    ensures Distinct(Without(nodes, i))
    ensures forall j :: 0 <= j < |nodes| && j != i - 1 && i > 0 ==> nodes[j] != nodes[i - 1]
  {
  }

  class HintList {
    const head: ListNode
    const lib: Library
    ghost var spine: seq<ListNode>
    ghost var active: seq<Hint>
    ghost var held: multiset<int>
    ghost var leaked: multiset<int>

    ghost function View(): State
      reads this
    {
      State(active, held, leaked)
    }

    constructor (lib: Library)
      ensures Valid() && View() == INIT && this.lib == lib && fresh(head)
    {
      head := new ListNode(Hint(0, 0));
      this.lib, spine, active, held, leaked := lib, [], [], multiset{}, multiset{};
    }

    // The node at place i, and null at the end.
    ghost function NodeAt(i: nat): ListNode?
      requires i <= |spine|
      reads this`spine
    {
      if i == |spine| then null else spine[i]
    }

    // Acyclic and null-terminated, with a hint and a comparison function in every node.
    ghost predicate Linked()
      reads this`spine, this`active, head, spine
    {
      && |spine| == |active| && head !in spine && head.next == NodeAt(0)
      && (forall i {:trigger spine[i].next} :: 0 <= i < |spine| ==> spine[i].next == NodeAt(i + 1))
      && (forall i :: 0 <= i < |spine| ==> spine[i].compare && spine[i].data == active[i])
      && Distinct(spine) && (spine != [] ==> head.compare)
    }

    ghost predicate Valid()
      reads this, head, spine
    {
      Linked() && UniqueIds(active)
    }

    method AddListNode(data: Hint, nodeOk: bool) returns (node: ListNode?)
      requires Linked() && head.compare
      modifies this`spine, this`active, head`next
      ensures Linked()
      ensures node == null <==> !nodeOk
      ensures active == if nodeOk then [data] + old(active) else old(active)
    {
      if !nodeOk {
        return null;
      }
      var n := new ListNode(data);
      n.next, n.compare := head.next, head.compare;
      head.next := n;
      spine, active := [n] + spine, [data] + active;
      node := n;
    }

    // The node of this id, if there is one.
    method FindNode(id: int) returns (node: ListNode?)
      requires Linked()
      ensures node == null <==> !IsActive(active, id)
      ensures node != null ==>
        var i := Index(active, id); i < |spine| && node == spine[i] && node.data == active[i]
    {
      node := head.next;
      ghost var i := 0;
      while node != null
        invariant i <= |spine| && node == NodeAt(i)
        invariant forall j :: 0 <= j < i ==> active[j].id != id
        decreases |spine| - i
      {
        if node.compare && node.data.id == id {
          break;
        }
        node, i := node.next, i + 1;
      }
      IndexIs(active, id, 0, i);
    }

    // The walk of remove_list_node: to the node or the end, with the one before.
    method Walk(node: ListNode?) returns (current: ListNode?, saved: ListNode, ghost i: nat)
      requires Linked()
      ensures i <= |spine| && current == NodeAt(i) && saved == if i == 0 then head else spine[i - 1]
      ensures (current == null <==> node == null || node !in spine) && (current != null ==> current == node)
    {
      current, saved, i := head.next, head, 0;
      while current != null && current != node
        invariant i <= |spine| && current == NodeAt(i) && saved == if i == 0 then head else spine[i - 1]
        invariant forall j :: 0 <= j < i ==> spine[j] != node
        decreases |spine| - i
      {
        saved, current, i := current, current.next, i + 1;
      }
    }

    // Takes just this node out, if it is in the list.
    method RemoveListNode(node: ListNode?) returns (result: int)
      requires Linked()
      modifies this`spine, this`active, head, spine
      ensures Linked()
      ensures result == if node in old(spine) then 0 else -1
      ensures result == -1 ==> active == old(active) && spine == old(spine)
      ensures forall i :: 0 <= i < |old(spine)| && node == old(spine)[i] ==>
        active == Without(old(active), i) && spine == Without(old(spine), i)
    {
      if head.next == null {
        return -1;
      }
      var current, saved, i := Walk(node);
      if current == null {
        return -1;
      }
      Unlink(saved, current, i);
      result := 0;
    }

    method Unlink(saved: ListNode, current: ListNode, ghost i: nat)
      requires Linked() && i < |spine| && current == spine[i]
      requires saved == if i == 0 then head else spine[i - 1]
      modifies this`spine, this`active, saved`next
      ensures Linked() && active == Without(old(active), i) && spine == Without(old(spine), i)
    {
      ghost var (was, now) := (spine, Without(spine, i));
      DistinctWithout(was, i);
      hide Distinct, Without;
      assert forall j :: 0 <= j < |was| && j != i - 1 ==> was[j] != saved;
      saved.next := current.next;
      forall j | 0 <= j < |now| ensures now[j].next == if j + 1 == |now| then null else now[j + 1] {
        assert now[j].next == old(now[j].next) || j + 1 == i;
      }
      spine, active := now, Without(active, i);
    }

    method PerformHintAction(id: int, handle: int, dataOk: bool, nodeOk: bool, released: bool)
      requires Valid()
      modifies this, head
      ensures Valid()
      ensures View() == OnPerform(lib, old(View()), Perform(id, handle, dataOk, nodeOk, released))
    {
      if lib.loaded {
        var found := FindNode(id);
        if found == null && lib.acquire && handle != FAILED {
          held := held + multiset{handle};
          var added := Remember(Hint(id, handle), dataOk, nodeOk);
          if !added {
            GiveUp(handle, released);
          }
        }
      }
    }

    // Adds the handle to the list, which gets its comparison function with the first one.
    method Remember(data: Hint, dataOk: bool, nodeOk: bool) returns (added: bool)
      requires Linked()
      modifies this`spine, this`active, head
      ensures Linked()
      ensures added == (dataOk && nodeOk) && active == if added then [data] + old(active) else old(active)
    {
      added := false;
      if dataOk {
        if !head.compare {
          head.compare := true;
        }
        var node := AddListNode(data, nodeOk);
        added := node != null;
      }
    }

    // What the library does with a release, if it can be called.
    ghost method GiveUp(handle: int, released: bool)
      modifies this`held, this`leaked
      ensures View() == Release(lib, old(View()), handle, released)
    {
      if lib.release && released {
        held := held - multiset{handle};
      } else {
        leaked := leaked + multiset{handle};
      }
    }

    method UndoHintAction(id: int, released: bool)
      requires Valid()
      modifies this, head, spine
      ensures Valid()
      ensures View() == OnUndo(lib, old(View()), Undo(id, released))
    {
      hide Linked, UniqueIds;
      if lib.loaded && lib.release {
        var found := FindNode(id);
        if found != null {
          UniqueWithout(active, Index(active, id));
          GiveUp(found.data.handle, released);
          var _ := RemoveListNode(found);
        }
      }
    }
  }

  lemma IndexIs(active: seq<Hint>, id: int, from: nat, i: nat)
    requires from <= i <= |active| && (i < |active| ==> active[i].id == id)
    requires forall j :: from <= j < i ==> active[j].id != id
    ensures IndexOf(active, id, from) == i
  {
  }
}
