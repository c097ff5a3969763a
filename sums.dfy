/**
 * Sums of a per-row quantity: over a list (the frontend's `reduce` and
 * `forEach` accumulations) and over a keyed table (the backend's tables).
 */
module Sums {

  /** Reference sum of `f` over `s`. */
  function SumBy<T>(s: seq<T>, f: T -> int): int
    decreases |s|
  {
    if |s| == 0 then 0 else f(s[0]) + SumBy(s[1..], f)
  }

  /** `s.reduce(step, acc)`: a left-to-right fold. */
  function Reduce<T>(s: seq<T>, step: (int, T) -> int, acc: int): int
    decreases |s|
  {
    if |s| == 0 then acc else Reduce(s[1..], step, step(acc, s[0]))
  }

  lemma {:induction false} SumByAppend<T>(a: seq<T>, b: seq<T>, f: T -> int)
    ensures SumBy(a + b, f) == SumBy(a, f) + SumBy(b, f)
    decreases |a|
  {
    if |a| > 0 {
      assert (a + b)[0] == a[0] && (a + b)[1..] == a[1..] + b;
      SumByAppend(a[1..], b, f);
    } else {
      assert a + b == b;
    }
  }

  lemma SumBySnoc<T>(a: seq<T>, x: T, f: T -> int)
    ensures SumBy(a + [x], f) == SumBy(a, f) + f(x)
  {
    SumByAppend(a, [x], f);
  }

  /** A fold whose step adds `f` of each row computes the sum of `f` on top of the seed. */
  lemma {:induction false} ReduceAdds<T>(s: seq<T>, step: (int, T) -> int, f: T -> int, acc: int)
    requires forall a, t :: step(a, t) == a + f(t)
    ensures Reduce(s, step, acc) == acc + SumBy(s, f)
    decreases |s|
  {
    if |s| > 0 {
      ReduceAdds(s[1..], step, f, step(acc, s[0]));
    }
  }

  /** Sum of `f` over the rows of a table keyed by integer ids. */
  ghost function MapSum<V>(m: map<int, V>, f: V -> int): int
    decreases |m|
  {
    if m == map[] then 0
    else
      var k := PickKey(m);
      RemoveKeyShrinks(m, k);
      f(m[k]) + MapSum(m - {k}, f)
  }

  ghost function PickKey<V>(m: map<int, V>): (k: int)
    requires m != map[]
    ensures k in m
  {
    assert exists k :: k in m by {
      if forall k :: k !in m {
        assert false;
      }
    }
    var k :| k in m;
    k
  }

  /** A non-empty set of keys has a key to pick. */
  lemma NonEmptyKeys(s: set<int>)
    requires s != {}
    ensures exists k :: k in s
  {
    if forall k :: k !in s {
      assert false;
    }
  }

  lemma RemoveKeyShrinks<V>(m: map<int, V>, k: int)
    requires k in m
    ensures |m - {k}| == |m| - 1
  {
    assert (m - {k}).Keys == m.Keys - {k};
  }

  /** The sum does not depend on which row is taken out first. */
  lemma {:induction false} MapSumRemove<V>(m: map<int, V>, f: V -> int, k: int)
    requires k in m
    ensures MapSum(m, f) == f(m[k]) + MapSum(m - {k}, f)
    decreases |m|
  {
    var j := PickKey(m);
    if j != k {
      var mj, mk := m - {j}, m - {k};
      assert k in mj && j in mk;
      MapSumRemove(mj, f, k);
      MapSumRemove(mk, f, j);
      assert mj - {k} == mk - {j};
    }
  }

  lemma MapSumInsert<V>(m: map<int, V>, f: V -> int, k: int, v: V)
    requires k !in m
    ensures MapSum(m[k := v], f) == MapSum(m, f) + f(v)
  {
    MapSumRemove(m[k := v], f, k);
    assert m[k := v] - {k} == m;
  }

  lemma MapSumReplace<V>(m: map<int, V>, f: V -> int, k: int, v: V)
    requires k in m
    ensures MapSum(m[k := v], f) == MapSum(m, f) - f(m[k]) + f(v)
  {
    MapSumRemove(m[k := v], f, k);
    MapSumRemove(m, f, k);
    assert m[k := v] - {k} == m - {k};
  }
}
