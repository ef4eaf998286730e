/** The SQL aggregates the routes rely on, as functions over fetched rows:
    `SUM(v) ... GROUP BY k`, an aggregate `SUM`/`MAX` over possibly no rows
    (which yields NULL), and the first row of a `get` query. A row of a
    grouped query is a pair of its grouping key and its value. */
module Sql {
  import opened Collections

  /** The sum of the values of the rows whose key is `k` (0 if none). */
  function SumWhere<K(==)>(rows: seq<(K, int)>, k: K): int {
    if rows == [] then 0
    else (if rows[0].0 == k then rows[0].1 else 0) + SumWhere(rows[1..], k)
  }

  /** Some row has key `k`. */
  predicate HasKey<K(==)>(rows: seq<(K, int)>, k: K) {
    exists i :: 0 <= i < |rows| && rows[i].0 == k
  }

  /** `rows.find(r => r.key === k)?.value`: the value of the FIRST row with
      key `k`. */
  function Lookup<K(==)>(rows: seq<(K, int)>, k: K): Option<int> {
    if rows == [] then None
    else if rows[0].0 == k then Some(rows[0].1)
    else Lookup(rows[1..], k)
  }

  /** The keys of distinct rows differ: one row per group. */
  predicate DistinctKeys<K(==)>(rows: seq<(K, int)>) {
    forall i, j :: 0 <= i < j < |rows| ==> rows[i].0 != rows[j].0
  }

  /** Adds `v` to the running sum of key `k`, opening a new group for a key
      not seen before. */
  function AddTo<K(==)>(acc: seq<(K, int)>, k: K, v: int): seq<(K, int)> {
    if acc == [] then [(k, v)]
    else if acc[0].0 == k then [(k, acc[0].1 + v)] + acc[1..]
    else [acc[0]] + AddTo(acc[1..], k, v)
  }

  /** `SELECT k, SUM(v) FROM rows GROUP BY k`. The order of the groups is
      not specified by SQL; this model yields one fixed order. */
  function GroupBySum<K(==)>(rows: seq<(K, int)>): seq<(K, int)> {
    if rows == [] then [] else AddTo(GroupBySum(rows[1..]), rows[0].0, rows[0].1)
  }

  /** `SUM(v)` without `GROUP BY`: NULL over no rows. */
  function NullableSum(values: seq<int>): (r: Option<int>)
    ensures r.None? <==> values == []
  {
    if values == [] then None else Some(values[0] + NullableSum(values[1..]).GetOr(0))
  }

  /** `MAX(v)`: NULL over no rows. */
  function NullableMax(values: seq<int>): (r: Option<int>)
    ensures r.None? <==> values == []
    ensures r.Some? ==> r.value in values && forall i :: 0 <= i < |values| ==> values[i] <= r.value
  {
    if values == [] then None
    else
      var rest := NullableMax(values[1..]);
      if rest.None? || rest.value <= values[0] then Some(values[0]) else rest
  }

  /** The plain sum of a list of values. */
  function Total(values: seq<int>): int {
    if values == [] then 0 else values[0] + Total(values[1..])
  }

  lemma {:induction false} TotalAppend(a: seq<int>, b: seq<int>)
    ensures Total(a + b) == Total(a) + Total(b)
  {
    if a == [] {
      assert a + b == b;
    } else {
      assert (a + b)[1..] == a[1..] + b;
      TotalAppend(a[1..], b);
    }
  }

  /** `COALESCE(SUM(v), 0)` and `SUM(v) || 0` are both the plain sum. */
  lemma {:induction false} NullableSumOrZero(values: seq<int>)
    ensures NullableSum(values).GetOr(0) == Total(values)
  {
    if values != [] {
      NullableSumOrZero(values[1..]);
    }
  }

  lemma {:induction false} SumWhereAbsent<K>(rows: seq<(K, int)>, k: K)
    requires !HasKey(rows, k)
    ensures SumWhere(rows, k) == 0
  {
    if rows != [] {
      forall i | 0 <= i < |rows[1..]| ensures rows[1..][i].0 != k {
        assert rows[1..][i] == rows[i + 1];
      }
      SumWhereAbsent(rows[1..], k);
    }
  }

  lemma HasKeyCons<K>(rows: seq<(K, int)>, k: K)
    requires rows != []
    ensures HasKey(rows, k) <==> rows[0].0 == k || HasKey(rows[1..], k)
  {
    if HasKey(rows[1..], k) {
      var i :| 0 <= i < |rows[1..]| && rows[1..][i].0 == k;
      assert rows[i + 1].0 == k;
    }
  }

  lemma {:induction false} AddToLookup<K>(acc: seq<(K, int)>, k: K, v: int, j: K)
    ensures Lookup(AddTo(acc, k, v), j) == if j == k then Some(Lookup(acc, k).GetOr(0) + v) else Lookup(acc, j)
  {
    if acc != [] && acc[0].0 != k {
      AddToLookup(acc[1..], k, v, j);
    }
  }

  lemma {:induction false} AddToSum<K>(acc: seq<(K, int)>, k: K, v: int, j: K)
    ensures SumWhere(AddTo(acc, k, v), j) == SumWhere(acc, j) + if j == k then v else 0
  {
    if acc != [] {
      if acc[0].0 == k {
        assert AddTo(acc, k, v)[1..] == acc[1..];
      } else {
        AddToSum(acc[1..], k, v, j);
        assert AddTo(acc, k, v)[1..] == AddTo(acc[1..], k, v);
      }
    }
  }

  lemma {:induction false} AddToDistinct<K>(acc: seq<(K, int)>, k: K, v: int)
    requires DistinctKeys(acc)
    ensures DistinctKeys(AddTo(acc, k, v))
    ensures forall i :: 0 <= i < |AddTo(acc, k, v)| ==> AddTo(acc, k, v)[i].0 == k || HasKey(acc, AddTo(acc, k, v)[i].0)
  {
    var r := AddTo(acc, k, v);
    if acc == [] {
    } else if acc[0].0 == k {
      forall i | 0 <= i < |r| ensures r[i].0 == k || HasKey(acc, r[i].0) {
        if i > 0 { assert r[i] == acc[i]; }
      }
    } else {
      AddToDistinct(acc[1..], k, v);
      var r' := AddTo(acc[1..], k, v);
      assert r == [acc[0]] + r';
      forall i | 0 <= i < |r| ensures r[i].0 == k || HasKey(acc, r[i].0) {
        if i > 0 {
          assert r[i] == r'[i - 1];
          if r[i].0 != k {
            var m :| 0 <= m < |acc[1..]| && acc[1..][m].0 == r[i].0;
            assert acc[m + 1].0 == r[i].0;
          }
        }
      }
      forall i, j | 0 <= i < j < |r| ensures r[i].0 != r[j].0 {
        if i == 0 {
          assert r[j] == r'[j - 1];
          if r[j].0 != k {
            var m :| 0 <= m < |acc[1..]| && acc[1..][m].0 == r[j].0;
            assert acc[m + 1].0 == r[j].0;
          }
        } else {
          assert r[i] == r'[i - 1] && r[j] == r'[j - 1];
        }
      }
    }
  }

  /** Looking a key up in the grouped rows yields the sum of that key's
      rows, and nothing for a key no row has. */
  lemma {:induction false} GroupBySumLookup<K>(rows: seq<(K, int)>, k: K)
    ensures Lookup(GroupBySum(rows), k) == if HasKey(rows, k) then Some(SumWhere(rows, k)) else None
  {
    if rows != [] {
      GroupBySumLookup(rows[1..], k);
      AddToLookup(GroupBySum(rows[1..]), rows[0].0, rows[0].1, k);
      HasKeyCons(rows, k);
      if !HasKey(rows[1..], k) {
        SumWhereAbsent(rows[1..], k);
      }
    }
  }

  /** Grouping preserves every key's sum: filtering the grouped rows by key
      and adding them up gives the sum over the original rows. */
  lemma {:induction false} GroupBySumPreservesSums<K>(rows: seq<(K, int)>, k: K)
    ensures SumWhere(GroupBySum(rows), k) == SumWhere(rows, k)
  {
    if rows != [] {
      GroupBySumPreservesSums(rows[1..], k);
      AddToSum(GroupBySum(rows[1..]), rows[0].0, rows[0].1, k);
    }
  }

  /** The grouped rows hold each key once, and only keys of the input. */
  lemma {:induction false} GroupBySumKeys<K>(rows: seq<(K, int)>)
    ensures DistinctKeys(GroupBySum(rows))
    ensures forall i :: 0 <= i < |GroupBySum(rows)| ==> HasKey(rows, GroupBySum(rows)[i].0)
  {
    if rows != [] {
      GroupBySumKeys(rows[1..]);
      var g := GroupBySum(rows[1..]);
      AddToDistinct(g, rows[0].0, rows[0].1);
      forall i | 0 <= i < |GroupBySum(rows)| ensures HasKey(rows, GroupBySum(rows)[i].0) {
        var key := GroupBySum(rows)[i].0;
        HasKeyCons(rows, key);
        if key != rows[0].0 {
          var m :| 0 <= m < |g| && g[m].0 == key;
        }
      }
    }
  }

  lemma {:induction false} SumWhereAppend<K>(a: seq<(K, int)>, b: seq<(K, int)>, k: K)
    ensures SumWhere(a + b, k) == SumWhere(a, k) + SumWhere(b, k)
  {
    if a == [] {
      assert a + b == b;
    } else {
      assert (a + b)[0] == a[0];
      assert (a + b)[1..] == a[1..] + b;
      SumWhereAppend(a[1..], b, k);
    }
  }

  /** The sum of all values. */
  function SumAll<K>(rows: seq<(K, int)>): int {
    if rows == [] then 0 else rows[0].1 + SumAll(rows[1..])
  }

  /** The per-key sums of `rows`, added up over the keys `keys`. */
  function SumOverKeys<K(==)>(keys: seq<K>, rows: seq<(K, int)>): int {
    if keys == [] then 0 else SumWhere(rows, keys[0]) + SumOverKeys(keys[1..], rows)
  }

  lemma {:induction false} SumOverKeysCons<K>(keys: seq<K>, r: (K, int), rest: seq<(K, int)>)
    requires Distinct(keys)
    ensures SumOverKeys(keys, [r] + rest) == (if r.0 in keys then r.1 else 0) + SumOverKeys(keys, rest)
  {
    if keys != [] {
      assert ([r] + rest)[1..] == rest;
      assert Distinct(keys[1..]) by {
        forall i, j | 0 <= i < j < |keys[1..]| ensures keys[1..][i] != keys[1..][j] {
          assert keys[1..][i] == keys[i + 1] && keys[1..][j] == keys[j + 1];
        }
      }
      SumOverKeysCons(keys[1..], r, rest);
      if keys[0] == r.0 {
        assert r.0 !in keys[1..] by {
          forall i | 0 <= i < |keys[1..]| ensures keys[1..][i] != r.0 {
            assert keys[1..][i] == keys[i + 1];
          }
        }
      }
      assert keys == [keys[0]] + keys[1..];
    }
  }

  lemma {:induction false} SumOverKeysEmpty<K>(keys: seq<K>)
    ensures SumOverKeys(keys, []) == 0
  {
    if keys != [] {
      SumOverKeysEmpty(keys[1..]);
    }
  }

  /** Adding up the per-key sums over a list of keys that holds every key
      exactly once gives the sum of all rows. */
  lemma {:induction false} SumOverKeysAll<K>(keys: seq<K>, rows: seq<(K, int)>)
    requires Distinct(keys)
    requires forall i :: 0 <= i < |rows| ==> rows[i].0 in keys
    ensures SumOverKeys(keys, rows) == SumAll(rows)
  {
    if rows == [] {
      SumOverKeysEmpty(keys);
    } else {
      assert rows == [rows[0]] + rows[1..];
      SumOverKeysCons(keys, rows[0], rows[1..]);
      SumOverKeysAll(keys, rows[1..]);
    }
  }

  /** `grouped.find(r => r.key === k) || {value: 0}`: the key's sum, 0 for a
      key without rows. */
  lemma GroupBySumFind<K>(rows: seq<(K, int)>, k: K)
    ensures Lookup(GroupBySum(rows), k).GetOr(0) == SumWhere(rows, k)
  {
    GroupBySumLookup(rows, k);
    if !HasKey(rows, k) {
      SumWhereAbsent(rows, k);
    }
  }
}
