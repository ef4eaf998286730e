/** `ORDER BY`: the rows of a query, rearranged so that each row may come
    before the next under the query's ordering. Rows the ordering ties are
    left in one fixed order. */
module Sorting {

  /** `le` relates any two values one way or the other. */
  ghost predicate TotalOrder<T(!new)>(le: (T, T) -> bool) {
    forall x, y :: le(x, y) || le(y, x)
  }

  /** `le` chains: what precedes a row precedes whatever that row precedes. */
  ghost predicate Transitive<T(!new)>(le: (T, T) -> bool) {
    forall x, y, z :: le(x, y) && le(y, z) ==> le(x, z)
  }

  /** Each row may come before the next. */
  predicate Sorted<T>(le: (T, T) -> bool, s: seq<T>) {
    forall i :: 0 <= i < |s| - 1 ==> le(s[i], s[i + 1])
  }

  /** Puts `x` before the first row it may precede. */
  function Insert<T>(le: (T, T) -> bool, x: T, s: seq<T>): (r: seq<T>)
    ensures |r| == |s| + 1
    ensures multiset(r) == multiset(s) + multiset{x}
  {
    if s == [] then [x]
    else if le(x, s[0]) then [x] + s
    else
      assert s == [s[0]] + s[1..];
      [s[0]] + Insert(le, x, s[1..])
  }

  /** The rows of `s` in order. */
  function SortBy<T>(le: (T, T) -> bool, s: seq<T>): (r: seq<T>)
    ensures |r| == |s|
    ensures multiset(r) == multiset(s)
  {
    if s == [] then []
    else
      assert s == [s[0]] + s[1..];
      Insert(le, s[0], SortBy(le, s[1..]))
  }

  lemma SortedCons<T>(le: (T, T) -> bool, a: T, t: seq<T>)
    ensures Sorted(le, [a] + t) <==> (t == [] || le(a, t[0])) && Sorted(le, t)
  {
    var s := [a] + t;
    if (t == [] || le(a, t[0])) && Sorted(le, t) {
      forall i | 0 <= i < |s| - 1 ensures le(s[i], s[i + 1]) {
        if i > 0 {
          assert s[i] == t[i - 1] && s[i + 1] == t[i];
        }
      }
    }
    if Sorted(le, s) && t != [] {
      assert le(s[0], s[1]);
      forall i | 0 <= i < |t| - 1 ensures le(t[i], t[i + 1]) {
        assert s[i + 1] == t[i] && s[i + 2] == t[i + 1];
      }
    }
  }

  lemma {:induction false} InsertSorted<T(!new)>(le: (T, T) -> bool, x: T, s: seq<T>)
    requires TotalOrder(le) && Sorted(le, s)
    ensures Sorted(le, Insert(le, x, s))
    ensures Insert(le, x, s)[0] == x || (s != [] && Insert(le, x, s)[0] == s[0])
  {
    if s == [] {
    } else if le(x, s[0]) {
      assert Insert(le, x, s) == [x] + s;
      assert s == [s[0]] + s[1..];
      SortedCons(le, s[0], s[1..]);
      SortedCons(le, x, s);
    } else {
      assert le(s[0], x);
      var rest := Insert(le, x, s[1..]);
      assert s == [s[0]] + s[1..];
      SortedCons(le, s[0], s[1..]);
      InsertSorted(le, x, s[1..]);
      assert Insert(le, x, s) == [s[0]] + rest;
      SortedCons(le, s[0], rest);
    }
  }

  /** Under a total ordering the result is in order. */
  lemma {:induction false} SortBySorted<T(!new)>(le: (T, T) -> bool, s: seq<T>)
    requires TotalOrder(le)
    ensures Sorted(le, SortBy(le, s))
  {
    if s != [] {
      SortBySorted(le, s[1..]);
      InsertSorted(le, s[0], SortBy(le, s[1..]));
    }
  }

  /** Sorting keeps exactly the rows it was given. */
  lemma SortByMembers<T>(le: (T, T) -> bool, s: seq<T>, x: T)
    ensures x in SortBy(le, s) <==> x in s
  {
    assert x in SortBy(le, s) <==> x in multiset(SortBy(le, s));
    assert x in s <==> x in multiset(s);
  }

  /** Under a transitive ordering, a sorted list has every row before every
      later one, not just before its neighbour. */
  lemma SortedPairwise<T(!new)>(le: (T, T) -> bool, s: seq<T>)
    requires Transitive(le) && Sorted(le, s)
    ensures forall i, j :: 0 <= i < j < |s| ==> le(s[i], s[j])
  {
    forall i, j | 0 <= i < j < |s| ensures le(s[i], s[j]) {
      SortedUpTo(le, s, i, j);
    }
  }

  lemma {:induction false} SortedUpTo<T(!new)>(le: (T, T) -> bool, s: seq<T>, i: int, j: int)
    requires Transitive(le) && Sorted(le, s) && 0 <= i < j < |s|
    ensures le(s[i], s[j])
    decreases j - i
  {
    if j > i + 1 {
      SortedUpTo(le, s, i, j - 1);
      assert le(s[j - 1], s[j]);
    }
  }
}
