/** Two kinds of index over a map: its entries grouped by a number, without empty groups, and the
    inverse of a numbering of its keys. Each is proved to be determined by the map. */
module Index {

  // ---- Groups ----

  ghost function Group<K, V>(m: map<K, V>, of: V -> nat, g: nat): map<K, V> {
    map k | k in m && of(m[k]) == g :: m[k]
  }

  ghost predicate Groups<K(!new), V(!new)>(index: map<nat, map<K, V>>, m: map<K, V>, of: V -> nat) {
    forall g: nat ::
      && (g in index <==> Group(m, of, g) != map[])
      && (g in index ==> index[g] == Group(m, of, g))
  }

  function Removed<K, V(==)>(index: map<nat, map<K, V>>, g: nat, k: K): map<nat, map<K, V>> {
    var group := (if g in index then index[g] else map[]) - {k};
    if group == map[] then index - {g} else index[g := group]
  }

  function Inserted<K, V>(index: map<nat, map<K, V>>, g: nat, k: K, v: V): map<nat, map<K, V>> {
    index[g := (if g in index then index[g] else map[])[k := v]]
  }

  lemma GroupsUnique<K(!new), V(!new)>(i: map<nat, map<K, V>>, j: map<nat, map<K, V>>, m: map<K, V>, of: V -> nat)
    requires Groups(i, m, of) && Groups(j, m, of)
    ensures i == j
  {
    assert forall g: nat :: g in i <==> Group(m, of, g) != map[];
    assert forall g: nat :: g in j <==> Group(m, of, g) != map[];
    assert i.Keys == j.Keys;
  }

  lemma RemovedGroups<K(!new), V(!new)>(index: map<nat, map<K, V>>, m: map<K, V>, of: V -> nat, k: K)
    requires Groups(index, m, of) && k in m
    ensures Groups(Removed(index, of(m[k]), k), m - {k}, of)
  {
    var h, n := of(m[k]), m - {k};
    var j := Removed(index, h, k);
    assert k in Group(m, of, h);
    forall g: nat ensures (g in j <==> Group(n, of, g) != map[]) && (g in j ==> j[g] == Group(n, of, g)) {
      if g == h {
        assert Group(n, of, g) == Group(m, of, g) - {k};
      } else {
        assert Group(n, of, g) == Group(m, of, g);
      }
    }
  }

  lemma InsertedGroups<K(!new), V(!new)>(index: map<nat, map<K, V>>, m: map<K, V>, of: V -> nat, k: K, v: V)
    requires Groups(index, m, of) && (k in m ==> of(m[k]) == of(v))
    ensures Groups(Inserted(index, of(v), k, v), m[k := v], of)
  {
    var h, n := of(v), m[k := v];
    var j := Inserted(index, h, k, v);
    forall g: nat ensures (g in j <==> Group(n, of, g) != map[]) && (g in j ==> j[g] == Group(n, of, g)) {
      GroupInserted(m, of, k, v, g);
      if g == h { assert k in Group(n, of, g); }
    }
  }

  lemma GroupInserted<K, V>(m: map<K, V>, of: V -> nat, k: K, v: V, g: nat)
    requires k in m ==> of(m[k]) == of(v)
    ensures Group(m[k := v], of, g) == if g == of(v) then Group(m, of, g)[k := v] else Group(m, of, g)
  {
  }

  lemma DroppedGroups<K(!new), V(!new)>(index: map<nat, map<K, V>>, m: map<K, V>, of: V -> nat, h: nat)
    requires Groups(index, m, of)
    ensures Groups(index - {h}, m - Group(m, of, h).Keys, of)
  {
    var n := m - Group(m, of, h).Keys;
    forall g: nat
      ensures (g in index - {h} <==> Group(n, of, g) != map[]) && (g in index - {h} ==> index[g] == Group(n, of, g))
    {
      if g == h {
        assert Group(n, of, g) == map[];
      } else {
        assert Group(n, of, g) == Group(m, of, g);
      }
    }
  }

  // ---- Inverses ----

  ghost predicate Inverse<K(!new)>(inverse: map<nat, K>, keys: set<K>, of: K -> nat) {
    && (forall n | n in inverse :: inverse[n] in keys && of(inverse[n]) == n)
    && (forall k | k in keys :: of(k) in inverse && inverse[of(k)] == k)
  }

  lemma InverseUnique<K(!new)>(i: map<nat, K>, j: map<nat, K>, keys: set<K>, of: K -> nat)
    requires Inverse(i, keys, of) && Inverse(j, keys, of)
    ensures i == j
  {
    assert i.Keys == j.Keys;
  }

  ghost function Numbers<K>(keys: set<K>, of: K -> nat): set<nat> { set k | k in keys :: of(k) }

  lemma DroppedInverse<K(!new)>(inverse: map<nat, K>, keys: set<K>, of: K -> nat, gone: set<K>)
    requires Inverse(inverse, keys, of) && gone <= keys
    ensures Inverse(inverse - Numbers(gone, of), keys - gone, of)
  {
    forall k | k in keys - gone ensures of(k) !in Numbers(gone, of) {
      assert inverse[of(k)] == k;
    }
  }

  lemma InsertedInverse<K(!new)>(inverse: map<nat, K>, keys: set<K>, of: K -> nat, k: K)
    requires Inverse(inverse, keys, of) && (of(k) in inverse ==> inverse[of(k)] == k)
    ensures Inverse(inverse[of(k) := k], keys + {k}, of)
  {
  }
}
