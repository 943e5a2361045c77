/** Options and finite sums over map values, the vocabulary every other module uses. */
module Sums {

  datatype Option<+T> = None | Some(value: T)

  /** The map `m` with the optional entry `e` written into it. */
  function Put<K, V>(m: map<K, V>, e: Option<(K, V)>): map<K, V> {
    if e.Some? then m[e.value.0 := e.value.1] else m
  }

  /** The sum of all values of a finite map. */
  ghost function Sum<K(!new)>(m: map<K, int>): int
    decreases m.Keys
  {
    if m.Keys == {} then 0 else m[Pick(m)] + Sum(m - {Pick(m)})
  }

  ghost function Pick<K(!new)>(m: map<K, int>): (k: K)
    requires m.Keys != {}
    ensures k in m
  {
    var k :| k in m.Keys;
    k
  }

  lemma {:induction false} SumRemove<K(!new)>(m: map<K, int>, k: K)
    requires k in m
    ensures Sum(m) == m[k] + Sum(m - {k})
    decreases m.Keys
  {
    var c := Pick(m);
    assert Sum(m) == m[c] + Sum(m - {c});
    if c != k {
      SumRemove(m - {c}, k);
      SumRemove(m - {k}, c);
      assert m - {c} - {k} == m - {k} - {c};
    }
  }

  /** Writing one key changes the sum by the difference of the two values. */
  lemma {:induction false} SumPut<K(!new)>(m: map<K, int>, k: K, v: int)
    ensures Sum(m[k := v]) == Sum(m) - (if k in m then m[k] else 0) + v
  {
    var rest := m - {k};
    SumAdd(rest, k, v);
    assert rest[k := v] == m[k := v];
    if k in m {
      SumAdd(rest, k, m[k]);
      assert rest[k := m[k]] == m;
    } else {
      assert rest == m;
    }
  }

  lemma {:induction false} SumAdd<K(!new)>(rest: map<K, int>, k: K, v: int)
    requires k !in rest
    ensures Sum(rest[k := v]) == v + Sum(rest)
  {
    SumRemove(rest[k := v], k);
    assert rest[k := v] - {k} == rest;
  }

  ghost predicate AllNonNegative<K(!new)>(m: map<K, int>) {
    forall x :: x in m ==> m[x] >= 0
  }

  /** A sum of non-negative values is at least each of them. */
  lemma {:induction false} SumAtLeast<K(!new)>(m: map<K, int>, k: K)
    requires AllNonNegative(m)
    requires k in m
    ensures Sum(m) >= m[k]
  {
    SumRemove(m, k);
    SumNonNegative(m - {k});
  }

  lemma {:induction false} SumNonNegative<K(!new)>(m: map<K, int>)
    requires AllNonNegative(m)
    ensures Sum(m) >= 0
    decreases m.Keys
  {
    if m.Keys != {} {
      SumNonNegative(m - {Pick(m)});
    }
  }
}
