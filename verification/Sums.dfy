/** Sums of a weight over the entries of a finite map. */
module Sums {

  /** The map's value at `k`, or 0 when the key is absent: storage reads that default to zero. */
  function Get<K>(m: map<K, int>, k: K): int {
    if k in m then m[k] else 0
  }

  ghost function Pick<K, V>(m: map<K, V>): (k: K)
    requires m != map[]
    ensures k in m
  {
    var k :| k in m; k
  }

  ghost function SumBy<K, V>(m: map<K, V>, w: (K, V) -> int): int
    decreases |m|
  {
    if m == map[] then 0
    else var k := Pick(m); w(k, m[k]) + SumBy(m - {k}, w)
  }

  /** The order in which `SumBy` picks keys does not matter. */
  lemma {:induction false} SumByRemove<K, V>(m: map<K, V>, w: (K, V) -> int, k: K)
    requires k in m
    ensures SumBy(m, w) == w(k, m[k]) + SumBy(m - {k}, w)
    decreases |m|
  {
    var p := Pick(m);
    if p != k {
      SumByRemove(m - {p}, w, k);
      SumByRemove(m - {k}, w, p);
      assert m - {p} - {k} == m - {k} - {p};
    }
  }

  function Contribution<K, V>(m: map<K, V>, w: (K, V) -> int, k: K): int {
    if k in m then w(k, m[k]) else 0
  }

  lemma SumByUpdate<K, V>(m: map<K, V>, w: (K, V) -> int, k: K, v: V)
    ensures SumBy(m[k := v], w) == SumBy(m, w) - Contribution(m, w, k) + w(k, v)
  {
    SumByRemove(m[k := v], w, k);
    assert m[k := v] - {k} == m - {k};
    if k in m {
      SumByRemove(m, w, k);
    } else {
      assert m - {k} == m;
    }
  }

  lemma SumByDrop<K, V>(m: map<K, V>, w: (K, V) -> int, k: K)
    ensures SumBy(m - {k}, w) == SumBy(m, w) - Contribution(m, w, k)
  {
    if k in m {
      SumByRemove(m, w, k);
    } else {
      assert m - {k} == m;
    }
  }

  lemma {:induction false} SumByNonnegative<K, V>(m: map<K, V>, w: (K, V) -> int)
    requires forall k :: k in m ==> w(k, m[k]) >= 0
    ensures SumBy(m, w) >= 0
    decreases |m|
  {
    if m != map[] {
      var p := Pick(m);
      forall k | k in m - {p} ensures w(k, (m - {p})[k]) >= 0 {
        assert k in m;
      }
      SumByNonnegative(m - {p}, w);
    }
  }

  /** No entry weighs more than the whole when every weight is nonnegative. */
  lemma SumByAtLeast<K, V>(m: map<K, V>, w: (K, V) -> int, k: K)
    requires forall j :: j in m ==> w(j, m[j]) >= 0
    ensures 0 <= Contribution(m, w, k) <= SumBy(m, w)
  {
  }

  lemma {:induction false} SumByZero<K, V>(m: map<K, V>, w: (K, V) -> int)
    requires forall k :: k in m ==> w(k, m[k]) == 0
    ensures SumBy(m, w) == 0
    decreases |m|
  {
    if m != map[] {
      var p := Pick(m);
      forall k | k in m - {p} ensures w(k, (m - {p})[k]) == 0 {
        assert k in m;
      }
      SumByZero(m - {p}, w);
    }
  }

  /** Weights that agree on every entry give the same sum. */
  lemma {:induction false} SumBySame<K, V>(m: map<K, V>, w: (K, V) -> int, v: (K, V) -> int)
    requires forall k :: k in m ==> w(k, m[k]) == v(k, m[k])
    ensures SumBy(m, w) == SumBy(m, v)
    decreases |m|
  {
    if m != map[] {
      var p := Pick(m);
      forall k | k in m - {p} ensures w(k, (m - {p})[k]) == v(k, (m - {p})[k]) {
        assert k in m;
      }
      SumBySame(m - {p}, w, v);
    }
  }

  lemma UpdatesCommute<K, V>(m: map<K, V>, i: K, x: V, j: K, y: V)
    requires i != j
    ensures m[i := x][j := y] == m[j := y][i := x]
  {
  }
}
