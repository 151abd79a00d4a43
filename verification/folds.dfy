/**
 Order-independent folds over finite maps.

 The dashboards iterate over the values of JavaScript objects and add up
 or take the maximum of a per-value quantity. The iteration order is
 irrelevant to the result, so the reference definitions below pick an
 arbitrary key, and the remove lemmas show that any key may be peeled off
 first. The compiled loops in the Stats module are proved equal to these.
 */
module Folds {

  /** Sum of `g(v)` over every value `v` of `m`. */
  ghost function SumMap<K, V>(m: map<K, V>, g: V -> int): int
    decreases m.Keys
  {
    if m == map[] then 0
    else
      var k :| k in m;
      g(m[k]) + SumMap(m - {k}, g)
  }

  /** Largest `g(v)` over the values of `m`, or 0 when `m` is empty
      (the dashboards start their running maximum at 0). */
  ghost function MaxMap<K, V>(m: map<K, V>, g: V -> int): int
    decreases m.Keys
  {
    if m == map[] then 0
    else
      var k :| k in m;
      Max(g(m[k]), MaxMap(m - {k}, g))
  }

  function Max(a: int, b: int): (r: int)
    ensures r >= a && r >= b
    ensures r == a || r == b
  {
    if a >= b then a else b
  }

  function Min(a: int, b: int): (r: int)
    ensures r <= a && r <= b
    ensures r == a || r == b
  {
    if a <= b then a else b
  }

  /** Any key may be the first one folded. */
  lemma {:induction false} SumMapRemove<K, V>(m: map<K, V>, g: V -> int, k: K)
    requires k in m
    ensures SumMap(m, g) == g(m[k]) + SumMap(m - {k}, g)
    decreases m.Keys
  {
    var j :| j in m && SumMap(m, g) == g(m[j]) + SumMap(m - {j}, g);
    if j != k {
      var mj := m - {j};
      var mk := m - {k};
      SumMapRemove(mj, g, k);
      SumMapRemove(mk, g, j);
      assert mj - {k} == mk - {j};
    }
  }

  /** Any key may be the first one compared. */
  lemma {:induction false} MaxMapRemove<K, V>(m: map<K, V>, g: V -> int, k: K)
    requires k in m
    ensures MaxMap(m, g) == Max(g(m[k]), MaxMap(m - {k}, g))
    decreases m.Keys
  {
    var j :| j in m && MaxMap(m, g) == Max(g(m[j]), MaxMap(m - {j}, g));
    if j != k {
      var mj := m - {j};
      var mk := m - {k};
      MaxMapRemove(mj, g, k);
      MaxMapRemove(mk, g, j);
      assert mj - {k} == mk - {j};
      assert mj[k] == m[k] && mk[j] == m[j];
      var rest := MaxMap(mj - {k}, g);
      assert MaxMap(m, g) == Max(g(m[j]), Max(g(m[k]), rest));
      assert MaxMap(mk, g) == Max(g(m[j]), rest);
    }
  }

  /** The maximum bounds every value and is 0 or attained by some key. */
  lemma {:induction false} MaxMapIsMax<K, V>(m: map<K, V>, g: V -> int)
    ensures forall k :: k in m ==> g(m[k]) <= MaxMap(m, g)
    ensures MaxMap(m, g) == 0 || exists k :: k in m && MaxMap(m, g) == g(m[k])
    ensures 0 <= MaxMap(m, g)
    decreases m.Keys
  {
    if m != map[] {
      var j :| j in m;
      var rest := m - {j};
      MaxMapRemove(m, g, j);
      MaxMapIsMax(rest, g);
      forall k | k in m
        ensures g(m[k]) <= MaxMap(m, g)
      {
        if k != j {
          assert k in rest && rest[k] == m[k];
        }
      }
      if MaxMap(m, g) != 0 && MaxMap(m, g) != g(m[j]) {
        assert MaxMap(m, g) == MaxMap(rest, g);
        var k :| k in rest && MaxMap(rest, g) == g(rest[k]);
        assert k in m && MaxMap(m, g) == g(m[k]);
      }
    }
  }

  /** Summing an indicator that is pointwise at most another gives at most its sum. */
  lemma {:induction false} SumMapMono<K, V>(m: map<K, V>, f: V -> int, g: V -> int)
    requires forall k :: k in m ==> f(m[k]) <= g(m[k])
    ensures SumMap(m, f) <= SumMap(m, g)
    decreases m.Keys
  {
    if m != map[] {
      var k :| k in m;
      SumMapRemove(m, f, k);
      SumMapRemove(m, g, k);
      SumMapMono(m - {k}, f, g);
    }
  }

  /** A sum of non-negative values is non-negative. */
  lemma {:induction false} SumMapNonNeg<K, V>(m: map<K, V>, g: V -> int)
    requires forall k :: k in m ==> 0 <= g(m[k])
    ensures 0 <= SumMap(m, g)
    decreases m.Keys
  {
    if m != map[] {
      var k :| k in m;
      SumMapRemove(m, g, k);
      SumMapNonNeg(m - {k}, g);
    }
  }

  /** Summing 1 for every value counts the keys. */
  lemma {:induction false} SumMapOne<K, V>(m: map<K, V>)
    ensures SumMap(m, One) == |m|
    decreases m.Keys
  {
    if m != map[] {
      var k :| k in m;
      SumMapRemove(m, One, k);
      SumMapOne(m - {k});
      assert (m - {k}).Keys == m.Keys - {k};
      assert |(m - {k}).Keys| == |m.Keys| - 1;
    }
  }

  /** The constant 1, for counting. */
  function One<V>(v: V): int { 1 }
}
