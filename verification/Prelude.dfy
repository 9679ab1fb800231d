/** Small datatypes and finite sums shared by every module. */
module Prelude {

  datatype Option<+T> = None | Some(value: T)

  datatype Result<+T, +E> = Ok(value: T) | Err(error: E)

  function Max(a: int, b: int): (m: int)
    ensures a <= m && b <= m && (m == a || m == b)
  {
    if a < b then b else a
  }
}

/** Sums of the values of a finite map, taken in any order. */
module Sums {

  ghost function Sum<K(!new)>(w: map<K, int>): (total: int) {
    if w == map[] then 0 else
      assert exists k :: k in w;
      var k :| k in w;
      w[k] + Sum(w - {k})
  }

  /** The order in which `Sum` picks keys does not matter. */
  lemma {:induction false} SumRemove<K(!new)>(w: map<K, int>, k: K)
    requires k in w
    ensures Sum(w) == w[k] + Sum(w - {k})
    decreases |w|
  {
    var p :| p in w && Sum(w) == w[p] + Sum(w - {p});
    if p != k {
      SumRemove(w - {p}, k);
      SumRemove(w - {k}, p);
      assert (w - {p}) - {k} == (w - {k}) - {p};
    }
  }

  lemma {:induction false} SumUpdate<K(!new)>(w: map<K, int>, k: K, v: int)
    ensures Sum(w[k := v]) == Sum(w) - (if k in w then w[k] else 0) + v
  {
    SumRemove(w[k := v], k);
    if k in w {
      SumRemove(w, k);
      assert w[k := v] - {k} == w - {k};
    } else {
      assert w[k := v] - {k} == w;
    }
  }

  lemma {:induction false} SumNonNegative<K(!new)>(w: map<K, int>)
    requires forall k | k in w :: w[k] >= 0
    ensures Sum(w) >= 0
    decreases |w|
  {
    if w != map[] {
      assert exists k :: k in w;
      var k :| k in w;
      SumRemove(w, k);
      SumNonNegative(w - {k});
    }
  }
}
