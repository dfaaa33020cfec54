/**
 gps/utils/LocUnorderedSetMap.h: a map from keys to sets of values.  `LocUnorderedSetMap` is the
 source's object; each of its operations is tied to a function on maps, and `Has` says what the
 functions do to the relation that the map stands for.
 */
module SetMap {

  predicate Has<K, V>(m: map<K, set<V>>, k: K, v: V) { k in m && v in m[k] }

  function Get<K, V>(m: map<K, set<V>>, k: K): set<V> { if k in m then m[k] else {} }

  predicate NoEmpty<K, V>(m: map<K, set<V>>) { forall k :: k in m ==> m[k] != {} }

  // trimOrRemove: without these values under these keys; a key that is left without any goes.
  function Trimmed<K, V>(m: map<K, set<V>>, keys: set<K>, vals: set<V>): map<K, set<V>> {
    map k | k in m && !(k in keys && m[k] <= vals) :: if k in keys then m[k] - vals else m[k]
  }

  function GoneKeys<K, V>(m: map<K, set<V>>, keys: set<K>, vals: set<V>): set<K> {
    set k | k in m && k in keys && m[k] <= vals
  }

  function GoneVals<K, V>(m: map<K, set<V>>, keys: set<K>, vals: set<V>): set<V> {
    set k, v | k in m && k in keys && v in m[k] && v in vals :: v
  }

  // add: with these values under these keys.
  function Added<K, V>(m: map<K, set<V>>, keys: set<K>, vals: set<V>): map<K, set<V>> {
    if vals == {} then m
    else map k | k in m.Keys + keys :: if k in keys then Get(m, k) + vals else m[k]
  }

  function NewKeys<K, V>(m: map<K, set<V>>, keys: set<K>, vals: set<V>): set<K> {
    if vals == {} then {} else keys - m.Keys
  }

  // update: the values of one key.
  function Updated<K, V>(m: map<K, set<V>>, k: K, vals: set<V>): map<K, set<V>> {
    if vals == {} then m - {k} else m[k := vals]
  }

  lemma TrimmedHas<K, V>(m: map<K, set<V>>, keys: set<K>, vals: set<V>, k: K, v: V)
    ensures Has(Trimmed(m, keys, vals), k, v) <==> Has(m, k, v) && !(k in keys && v in vals)
  {
  }

  lemma AddedHas<K, V>(m: map<K, set<V>>, keys: set<K>, vals: set<V>, k: K, v: V)
    ensures Has(Added(m, keys, vals), k, v) <==> Has(m, k, v) || (k in keys && v in vals)
  {
  }

  // An update leaves the key with just the new values, and not at all without any.
  lemma UpdatedHas<K, V>(m: map<K, set<V>>, key: K, vals: set<V>, k: K, v: V)
    ensures Has(Updated(m, key, vals), k, v) <==> if k == key then v in vals else Has(m, k, v)
    ensures NoEmpty(m) ==> NoEmpty(Updated(m, key, vals))
    ensures key in Updated(m, key, vals) <==> vals != {}
  {
  }

  lemma NothingLeft<V>(a: set<V>, b: set<V>)
    ensures a - b == {} <==> a <= b
  {
    assert a - b == {} ==> forall v :: v in a ==> v !in a - b;
  }

  // The keys that came and went are just the ones reported.
  lemma ReportsKeys<K, V>(m: map<K, set<V>>, keys: set<K>, vals: set<V>)
    ensures Trimmed(m, keys, vals).Keys == m.Keys - GoneKeys(m, keys, vals)
    ensures Added(m, keys, vals).Keys == m.Keys + NewKeys(m, keys, vals)
    ensures NoEmpty(m) ==> NoEmpty(Trimmed(m, keys, vals)) && NoEmpty(Added(m, keys, vals))
  {
    forall k | k in Trimmed(m, keys, vals) && m[k] != {} ensures Trimmed(m, keys, vals)[k] != {} {
      NothingLeft(m[k], vals);
    }
  }

  // One key more.
  lemma TrimMore<K, V>(m: map<K, set<V>>, done: set<K>, vals: set<V>, k: K)
    requires k !in done
    ensures k in Trimmed(m, done, vals) <==> k in m
    ensures k in m ==> Trimmed(m, done, vals)[k] == m[k]
    ensures Trimmed(m, done + {k}, vals) ==
      if k !in m then Trimmed(m, done, vals)
      else if m[k] <= vals then Trimmed(m, done, vals) - {k}
      else Trimmed(m, done, vals)[k := m[k] - vals]
    ensures GoneKeys(m, done + {k}, vals) ==
      GoneKeys(m, done, vals) + if k in m && m[k] <= vals then {k} else {}
    ensures GoneVals(m, done + {k}, vals) == GoneVals(m, done, vals) + Get(m, k) * vals
  {
  }

  lemma AddMore<K, V>(m: map<K, set<V>>, done: set<K>, vals: set<V>, k: K)
    requires k !in done && vals != {}
    ensures Added(m, done + {k}, vals) == Added(m, done, vals)[k := Get(m, k) + vals]
    ensures Get(Added(m, done, vals), k) == Get(m, k) && (k in Added(m, done, vals) <==> k in m)
    ensures NewKeys(m, done + {k}, vals) == NewKeys(m, done, vals) + if k in m then {} else {k}
  {
  }

  lemma AddNone<K, V>(m: map<K, set<V>>, vals: set<V>)
    ensures Added(m, {}, vals) == m && NewKeys(m, {}, vals) == {}
    ensures vals == {} ==> forall keys :: Added(m, keys, vals) == m && NewKeys(m, keys, vals) == {}
  {
  }

  method TrimSet<V(==)>(from: set<V>, rVals: set<V>) returns (left: set<V>, gone: set<V>)
    ensures left == from - rVals && gone == from * rVals
  {
    left, gone := from, {};
    var rest := rVals;
    while rest != {}
      invariant rest <= rVals && left == from - (rVals - rest) && gone == from * (rVals - rest)
      decreases rest
    {
      var v :| v in rest;
      rest := rest - {v};
      if v in left {
        left, gone := left - {v}, gone + {v};
      }
    }
  }

  // Takes the common elements out of both sets.  The source erases from the set it walks; each of
  // its elements is taken to be visited once.
  method RemoveAndReturnInterset<V(==)>(s1: set<V>, s2: set<V>)
    returns (common: set<V>, left1: set<V>, left2: set<V>)
    ensures common == s1 * s2 && left1 == s1 - s2 && left2 == s2 - s1
  {
    common, left1, left2 := {}, s1, s2;
    var rest := s2;
    while rest != {}
      invariant rest <= s2
      invariant common == s1 * (s2 - rest) && left1 == s1 - (s2 - rest) && left2 == s2 - common
      decreases rest
    {
      var v :| v in rest;
      rest := rest - {v};
      if v in left1 {
        common, left1, left2 := common + {v}, left1 - {v}, left2 - {v};
      }
    }
  }

  class LocUnorderedSetMap<K(==), V(==)> {
    var entries: map<K, set<V>>

    constructor ()
      ensures entries == map[]
    {
      entries := map[];
    }

    // The private trimOrRemove, of one entry.
    static method TrimEntry(m: map<K, set<V>>, k: K, rVals: set<V>)
      returns (r: map<K, set<V>>, removed: bool, gone: set<V>)
      requires k in m
      ensures r == if removed then m - {k} else m[k := m[k] - rVals]
      ensures (removed <==> m[k] <= rVals) && gone == m[k] * rVals
    {
      var left;
      left, gone := TrimSet(m[k], rVals);
      NothingLeft(m[k], rVals);
      removed := left == {};
      r := if removed then m - {k} else m[k := left];
    }

    method TrimOrRemove(keys: set<K>, rVals: set<V>) returns (goneKeys: set<K>, goneVals: set<V>)
      modifies this
      ensures entries == Trimmed(old(entries), keys, rVals)
      ensures goneKeys == GoneKeys(old(entries), keys, rVals)
      ensures goneVals == GoneVals(old(entries), keys, rVals)
    {
      goneKeys, goneVals := {}, {};
      var m, rest := entries, keys;
      ghost var was, done: set<K> := entries, {};
      while rest != {}
        invariant done + rest == keys && done !! rest
        invariant m == Trimmed(was, done, rVals)
        invariant goneKeys == GoneKeys(was, done, rVals) && goneVals == GoneVals(was, done, rVals)
        decreases rest
      {
        hide Trimmed, GoneKeys, GoneVals;
        var k :| k in rest;
        TrimMore(was, done, rVals, k);
        rest, done := rest - {k}, done + {k};
        if k in m {
          var removed, gone;
          m, removed, gone := TrimEntry(m, k, rVals);
          goneVals := goneVals + gone;
          if removed {
            goneKeys := goneKeys + {k};
          }
        }
      }
      assert done == keys;
      entries := m;
    }

    method AddOne(k: K, newVals: set<V>) returns (newEntry: bool)
      modifies this
      ensures entries == if newVals == {} then old(entries) else old(entries)[k := Get(old(entries), k) + newVals]
      ensures newEntry <==> newVals != {} && k !in old(entries)
    {
      newEntry := false;
      assert {} + newVals == newVals;
      if newVals != {} {
        if k in entries {
          entries := entries[k := entries[k] + newVals];
        } else {
          entries := entries[k := newVals];
          newEntry := true;
        }
      }
    }

    method Add(keys: set<K>, newVals: set<V>) returns (newKeys: set<K>)
      modifies this
      ensures entries == Added(old(entries), keys, newVals)
      ensures newKeys == NewKeys(old(entries), keys, newVals)
    {
      newKeys := {};
      var rest := keys;
      ghost var was, done: set<K> := entries, {};
      AddNone(was, newVals);
      while rest != {}
        invariant done + rest == keys && done !! rest
        invariant entries == Added(was, done, newVals) && newKeys == NewKeys(was, done, newVals)
        decreases rest
      {
        hide Added, NewKeys;
        var k :| k in rest;
        if newVals == {} {
          AddNone(was, newVals);
        } else {
          AddMore(was, done, newVals, k);
        }
        rest, done := rest - {k}, done + {k};
        var isNew := AddOne(k, newVals);
        if isNew {
          newKeys := newKeys + {k};
        }
      }
      assert done == keys;
    }

    method Remove(k: K) returns (removed: bool)
      modifies this
      ensures entries == old(entries) - {k} && (removed <==> k in old(entries))
    {
      removed := k in entries;
      entries := entries - {k};
    }

    // Its comment promises the values that are in effect removed from the entry.  It returns the
    // values that stay, and leaves in `left` those that are new.
    method Update(k: K, newVals: set<V>) returns (gone: set<V>, left: set<V>)
      modifies this
      ensures entries == Updated(old(entries), k, newVals)
      ensures gone == Get(old(entries), k) * newVals && left == newVals - Get(old(entries), k)
    {
      gone, left := {}, newVals;
      if newVals == {} {
        entries := entries - {k};
      } else {
        var cur := if k in entries then entries[k] else {};
        entries := entries[k := newVals];
        var rest: set<V>;
        gone, rest, left := RemoveAndReturnInterset(cur, newVals);
      }
    }
  }

  // The values it returns are the ones removed, as its comment says, exactly when there was
  // nothing to remove: with values before and after, it returns the complement.
  lemma UpdateReturnsRemovedIff<V>(cur: set<V>, vals: set<V>)
    ensures cur * vals == cur - vals <==> cur == {}
  {
    if cur != {} {
      var v :| v in cur;
      assert v in cur * vals <==> v !in cur - vals;
    }
  }
}
