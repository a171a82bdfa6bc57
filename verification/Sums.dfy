/**
  Weighted totals over maps and sequences. Every counter and every ledger of
  the contracts is compared with such a total, so the effect of one map update,
  one removal and one appended entry is proved here once.
 */
module Sums {

  /** The sum of `w(k, m[k])` over all keys of `m`. */
  ghost function Total<K, V>(m: map<K, V>, w: (K, V) -> int): int
    decreases |m|
  {
    if m == map[] then 0 else
    assert m.Keys != {};
    var k :| k in m;
    assert m.Keys == (m - {k}).Keys + {k};
    assert |m - {k}| < |m|;
    w(k, m[k]) + Total(m - {k}, w)
  }

  lemma {:induction false} TotalSplit<K, V>(m: map<K, V>, k: K, w: (K, V) -> int)
    requires k in m
    ensures Total(m, w) == w(k, m[k]) + Total(m - {k}, w)
    decreases |m|
  {
    assert m.Keys != {};
    var k0 :| k0 in m && Total(m, w) == w(k0, m[k0]) + Total(m - {k0}, w);
    if k0 != k {
      assert m.Keys == (m - {k0}).Keys + {k0};
      assert m.Keys == (m - {k}).Keys + {k};
      TotalSplit(m - {k0}, k, w);
      TotalSplit(m - {k}, k0, w);
      assert m - {k0} - {k} == m - {k} - {k0};
    }
  }

  lemma TotalUpdate<K, V>(m: map<K, V>, k: K, v: V, w: (K, V) -> int)
    ensures Total(m[k := v], w) == Total(m, w) + w(k, v) - (if k in m then w(k, m[k]) else 0)
  {
    var m' := m[k := v];
    TotalSplit(m', k, w);
    if k in m {
      TotalSplit(m, k, w);
      assert m' - {k} == m - {k};
    } else {
      assert m' - {k} == m;
    }
  }

  lemma {:induction false} TotalAgree<K, V>(m: map<K, V>, m': map<K, V>, w: (K, V) -> int)
    requires m.Keys == m'.Keys
    requires forall k <- m :: w(k, m[k]) == w(k, m'[k])
    ensures Total(m, w) == Total(m', w)
    decreases |m|
  {
    if m == map[] {
      assert m' == map[];
    } else {
      assert m.Keys != {};
      var k :| k in m;
      assert m.Keys == (m - {k}).Keys + {k};
      TotalSplit(m, k, w);
      TotalSplit(m', k, w);
      TotalAgree(m - {k}, m' - {k}, w);
    }
  }

  lemma {:induction false} TotalNonNegative<K, V>(m: map<K, V>, w: (K, V) -> int)
    requires forall k <- m :: 0 <= w(k, m[k])
    ensures 0 <= Total(m, w)
    decreases |m|
  {
    if m != map[] {
      assert m.Keys != {};
      var k :| k in m;
      assert m.Keys == (m - {k}).Keys + {k};
      TotalSplit(m, k, w);
      TotalNonNegative(m - {k}, w);
    }
  }

  /** One entry never exceeds a total of non-negative weights. */
  lemma TotalCovers<K, V>(m: map<K, V>, k: K, w: (K, V) -> int)
    requires k in m
    requires forall k' <- m :: 0 <= w(k', m[k'])
    ensures w(k, m[k]) <= Total(m, w)
  {
    TotalSplit(m, k, w);
    TotalNonNegative(m - {k}, w);
  }

  /** All weights zero make a zero total. */
  lemma {:induction false} TotalZero<K, V>(m: map<K, V>, w: (K, V) -> int)
    requires forall k <- m :: w(k, m[k]) == 0
    ensures Total(m, w) == 0
    decreases |m|
  {
    if m != map[] {
      assert m.Keys != {};
      var k :| k in m;
      assert m.Keys == (m - {k}).Keys + {k};
      TotalSplit(m, k, w);
      TotalZero(m - {k}, w);
    }
  }

  /** The sum of `w` over a log, oldest entry first. */
  ghost function LogSum<T>(log: seq<T>, w: T -> int): int {
    if log == [] then 0 else LogSum(log[..|log| - 1], w) + w(log[|log| - 1])
  }

  lemma LogSumPush<T>(log: seq<T>, t: T, w: T -> int)
    ensures LogSum(log + [t], w) == LogSum(log, w) + w(t)
  {
    assert (log + [t])[..|log|] == log;
  }

  /** Entries without weight leave the sum alone. */
  lemma {:induction false} LogSumNone<T>(log: seq<T>, w: T -> int)
    requires forall t <- log :: w(t) == 0
    ensures LogSum(log, w) == 0
  {
    if log != [] {
      assert log[|log| - 1] in log;
      LogSumNone(log[..|log| - 1], w);
    }
  }

  lemma {:induction false} LogSumConcat<T>(xs: seq<T>, ys: seq<T>, w: T -> int)
    ensures LogSum(xs + ys, w) == LogSum(xs, w) + LogSum(ys, w)
  {
    if ys == [] {
      assert xs + ys == xs;
    } else {
      var front := ys[..|ys| - 1];
      LogSumConcat(xs, front, w);
      assert xs + ys == (xs + front) + [ys[|ys| - 1]];
      LogSumPush(xs + front, ys[|ys| - 1], w);
    }
  }

  ghost predicate NoRepeats<T>(xs: seq<T>) {
    forall i, j :: 0 <= i < j < |xs| ==> xs[i] != xs[j]
  }
}
