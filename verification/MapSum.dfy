/** Sums over the values of a map. */
module MapSum {

  ghost function AnyKey<K(!new), V>(m: map<K, V>): (key: K)
    requires m != map[]
    ensures key in m
  {
    var key :| key in m;
    key
  }

  ghost function Sum<K(!new), V>(m: map<K, V>, f: V -> int): int
    decreases |m|
  {
    if m == map[] then 0
    else
      var key := AnyKey(m);
      OneLess(m, key);
      f(m[key]) + Sum(m - {key}, f)
  }

  lemma OneLess<K, V>(m: map<K, V>, key: K)
    requires key in m
    ensures |m - {key}| == |m| - 1
  {
    assert (m - {key}).Keys == m.Keys - {key};
  }

  /** The sum does not depend on the order in which keys are taken. */
  lemma {:induction false} Removed<K(!new), V>(m: map<K, V>, key: K, f: V -> int)
    requires key in m
    ensures Sum(m, f) == f(m[key]) + Sum(m - {key}, f)
    decreases |m|
  {
    var first := AnyKey(m);
    if first != key {
      OneLess(m, first);
      OneLess(m, key);
      Removed(m - {first}, key, f);
      Removed(m - {key}, first, f);
      assert m - {first} - {key} == m - {key} - {first};
    }
  }

  lemma Inserted<K(!new), V>(m: map<K, V>, key: K, v: V, f: V -> int)
    requires key !in m
    ensures Sum(m[key := v], f) == f(v) + Sum(m, f)
  {
    hide Sum;
    Removed(m[key := v], key, f);
    assert m[key := v] - {key} == m;
  }

  lemma Replaced<K(!new), V>(m: map<K, V>, key: K, v: V, f: V -> int)
    requires key in m
    ensures Sum(m[key := v], f) + f(m[key]) == Sum(m, f) + f(v)
  {
    hide Sum;
    Removed(m, key, f);
    Removed(m[key := v], key, f);
    assert m[key := v] - {key} == m - {key};
  }

  lemma {:induction false} NotNegative<K(!new), V>(m: map<K, V>, f: V -> int)
    requires forall key <- m :: f(m[key]) >= 0
    ensures Sum(m, f) >= 0
    decreases |m|
  {
    if m != map[] {
      var key := AnyKey(m);
      OneLess(m, key);
      NotNegative(m - {key}, f);
    }
  }
}
