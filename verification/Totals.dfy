/** Sums over the rows of a table. Every aggregate the contracts keep is compared with such a sum. */
module Totals {

  /** The sum of the weight w over all rows of m. */
  ghost function Total<K, V>(m: map<K, V>, w: (K, V) -> int): int {
    if m == map[] then 0 else
    var k :| k in m;
    w(k, m[k]) + Total(m - {k}, w)
  }

  ghost function WeightAt<K, V>(m: map<K, V>, w: (K, V) -> int, k: K): int {
    if k in m then w(k, m[k]) else 0
  }

  lemma {:induction false} TotalRemove<K, V>(m: map<K, V>, w: (K, V) -> int, k: K)
    requires k in m
    ensures Total(m, w) == w(k, m[k]) + Total(m - {k}, w)
    decreases |m|
  {
    var j :| j in m && Total(m, w) == w(j, m[j]) + Total(m - {j}, w);
    if j != k {
      TotalRemove(m - {j}, w, k);
      TotalRemove(m - {k}, w, j);
      assert m - {j} - {k} == m - {k} - {j};
    }
  }

  /** Writing one row moves the sum by the difference of the row's weights. */
  lemma TotalUpdate<K, V>(m: map<K, V>, w: (K, V) -> int, k: K, v: V)
    ensures Total(m[k := v], w) == Total(m, w) - WeightAt(m, w, k) + w(k, v)
  {
    var m' := m[k := v];
    TotalRemove(m', w, k);
    if k in m {
      TotalRemove(m, w, k);
      assert m' - {k} == m - {k};
    } else {
      assert m' - {k} == m;
    }
  }

  /** Sums of lines are lines. */
  lemma {:induction false} TotalLine<K, V>(m: map<K, V>, w: (K, V) -> int, slope: (K, V) -> int, h: int,
                                           base: (K, V) -> int)
    requires forall k | k in m :: w(k, m[k]) == slope(k, m[k]) * h + base(k, m[k])
    ensures Total(m, w) == Total(m, slope) * h + Total(m, base)
    decreases |m|
  {
    if m != map[] {
      var k :| k in m;
      TotalRemove(m, w, k);
      TotalRemove(m, slope, k);
      TotalRemove(m, base, k);
      TotalLine(m - {k}, w, slope, h, base);
      Distribute(slope(k, m[k]), Total(m - {k}, slope), h);
    }
  }

  lemma Distribute(a: int, b: int, h: int)
    ensures (a + b) * h == a * h + b * h
  {
  }

  lemma {:induction false} TotalZero<K, V>(m: map<K, V>, w: (K, V) -> int)
    requires forall k | k in m :: w(k, m[k]) == 0
    ensures Total(m, w) == 0
    decreases |m|
  {
    if m != map[] {
      var k :| k in m;
      TotalRemove(m, w, k);
      TotalZero(m - {k}, w);
    }
  }

  lemma {:induction false} TotalMono<K, V>(m: map<K, V>, w1: (K, V) -> int, w2: (K, V) -> int)
    requires forall k | k in m :: w1(k, m[k]) <= w2(k, m[k])
    ensures Total(m, w1) <= Total(m, w2)
    decreases |m|
  {
    if m != map[] {
      var k :| k in m;
      TotalRemove(m, w1, k);
      TotalRemove(m, w2, k);
      TotalMono(m - {k}, w1, w2);
    }
  }

  lemma {:induction false} TotalNonNegative<K, V>(m: map<K, V>, w: (K, V) -> int)
    requires forall k | k in m :: 0 <= w(k, m[k])
    ensures 0 <= Total(m, w)
    ensures forall k | k in m :: w(k, m[k]) <= Total(m, w)
    decreases |m|
  {
    if m != map[] {
      var j :| j in m;
      TotalRemove(m, w, j);
      TotalNonNegative(m - {j}, w);
      forall k | k in m ensures w(k, m[k]) <= Total(m, w) {
        if k != j {
          assert (m - {j})[k] == m[k];
        }
      }
    }
  }

  /** Three tables at once: where the weights add up row by row, the sums add up. A missing row weighs nothing, so
      this covers rewriting, erasing and creating any number of rows. */
  lemma TotalSplit<K(!new), V, V1, V2>(m: map<K, V>, w: (K, V) -> int,
                                       m1: map<K, V1>, w1: (K, V1) -> int, m2: map<K, V2>, w2: (K, V2) -> int)
    requires forall k: K :: WeightAt(m, w, k) == WeightAt(m1, w1, k) + WeightAt(m2, w2, k)
    ensures Total(m, w) == Total(m1, w1) + Total(m2, w2)
  {
    TotalSplitOver(m.Keys + m1.Keys + m2.Keys, m, w, m1, w1, m2, w2);
  }

  lemma {:induction false} TotalSplitOver<K(!new), V, V1, V2>(
      keys: set<K>, m: map<K, V>, w: (K, V) -> int,
      m1: map<K, V1>, w1: (K, V1) -> int, m2: map<K, V2>, w2: (K, V2) -> int)
    requires m.Keys <= keys && m1.Keys <= keys && m2.Keys <= keys
    requires forall k: K :: WeightAt(m, w, k) == WeightAt(m1, w1, k) + WeightAt(m2, w2, k)
    ensures Total(m, w) == Total(m1, w1) + Total(m2, w2)
    decreases |keys|
  {
    if keys != {} {
      var k :| k in keys;
      TotalWithout(m, w, k);
      TotalWithout(m1, w1, k);
      TotalWithout(m2, w2, k);
      forall j: K
        ensures WeightAt(m - {k}, w, j) == WeightAt(m1 - {k}, w1, j) + WeightAt(m2 - {k}, w2, j)
      {
        assert WeightAt(m, w, j) == WeightAt(m1, w1, j) + WeightAt(m2, w2, j);
      }
      TotalSplitOver(keys - {k}, m - {k}, w, m1 - {k}, w1, m2 - {k}, w2);
    }
  }

  lemma TotalWithout<K, V>(m: map<K, V>, w: (K, V) -> int, k: K)
    ensures Total(m, w) == WeightAt(m, w, k) + Total(m - {k}, w)
  {
    if k in m {
      TotalRemove(m, w, k);
    } else {
      assert m - {k} == m;
    }
  }

  /** Rewriting and erasing rows none of which changes its weight leaves the sum alone. */
  lemma TotalKept<K(!new), V>(m: map<K, V>, m': map<K, V>, w: (K, V) -> int)
    requires forall k: K :: WeightAt(m', w, k) == WeightAt(m, w, k)
    ensures Total(m', w) == Total(m, w)
  {
    var none: map<K, V> := map[];
    TotalSplit(m, w, m', w, none, w);
  }
}
