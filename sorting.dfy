/**
 * Insertion into a strictly ordered sequence: what `ORDER BY` yields for rows
 * with distinct sort keys and what `Array.prototype.sort` yields for distinct
 * strings.
 */
module Sorting {

  ghost predicate Transitive<T(!new)>(lt: (T, T) -> bool) {
    forall a, b, c :: lt(a, b) && lt(b, c) ==> lt(a, c)
  }

  /** Every earlier element precedes every later one; in particular no element repeats. */
  predicate SortedBy<T>(s: seq<T>, lt: (T, T) -> bool) {
    forall i, j :: 0 <= i < j < |s| ==> lt(s[i], s[j])
  }

  function Insert<T(!new)>(s: seq<T>, x: T, lt: (T, T) -> bool): (r: seq<T>)
    requires Transitive(lt)
    requires SortedBy(s, lt)
    requires forall k :: 0 <= k < |s| ==> lt(x, s[k]) || lt(s[k], x)
    ensures SortedBy(r, lt)
    ensures multiset(r) == multiset(s) + multiset{x}
    decreases |s|
  {
    if |s| == 0 then [x]
    else if lt(x, s[0]) then
      PrependSmaller(s, x, lt);
      [x] + s
    else
      var rest := Insert(s[1..], x, lt);
      assert s == [s[0]] + s[1..];
      PrependBelowAll(s[0], rest, s[1..], x, lt);
      [s[0]] + rest
  }

  /** Inserting adds exactly one element: `x` itself. */
  lemma InsertMembers<T(!new)>(s: seq<T>, x: T, lt: (T, T) -> bool)
    requires Transitive(lt)
    requires SortedBy(s, lt)
    requires forall k :: 0 <= k < |s| ==> lt(x, s[k]) || lt(s[k], x)
    ensures forall y :: y in Insert(s, x, lt) <==> y in s || y == x
  {
    var r := Insert(s, x, lt);
    forall y ensures y in r <==> y in s || y == x {
      assert y in r <==> y in multiset(r);
      assert y in s <==> y in multiset(s);
    }
  }

  lemma PrependSmaller<T(!new)>(s: seq<T>, x: T, lt: (T, T) -> bool)
    requires Transitive(lt) && SortedBy(s, lt)
    requires |s| > 0 && lt(x, s[0])
    ensures SortedBy([x] + s, lt)
  {
    forall j | 0 < j < |s| ensures lt(x, s[j]) {
      assert lt(s[0], s[j]);
    }
  }

  lemma PrependBelowAll<T>(y: T, rest: seq<T>, tail: seq<T>, x: T, lt: (T, T) -> bool)
    requires SortedBy(rest, lt) && multiset(rest) == multiset(tail) + multiset{x}
    requires forall k :: 0 <= k < |tail| ==> lt(y, tail[k])
    requires lt(y, x)
    ensures SortedBy([y] + rest, lt)
  {
    forall j | 0 <= j < |rest| ensures lt(y, rest[j]) {
      assert rest[j] in multiset(rest);
      if rest[j] != x {
        assert rest[j] in multiset(tail);
        var k :| 0 <= k < |tail| && tail[k] == rest[j];
      }
    }
  }
}
