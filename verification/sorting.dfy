/**
 * The two query shapes the routers use: `findMany({ where })` over a table,
 * and `orderBy: { key: "desc" }` on the result. The database returns rows in
 * an unspecified order; sorting is by insertion, ties in any order.
 */
module Sorting {

  /** Largest key first. */
  ghost predicate SortedDesc<T>(xs: seq<T>, key: T -> int) {
    forall i, j :: 0 <= i < j < |xs| ==> key(xs[i]) >= key(xs[j])
  }

  function Insert<T>(x: T, xs: seq<T>, key: T -> int): (r: seq<T>)
    requires SortedDesc(xs, key)
    ensures SortedDesc(r, key)
    ensures multiset(r) == multiset(xs) + multiset{x}
    ensures |r| == |xs| + 1
    ensures r[0] == x || (|xs| > 0 && r[0] == xs[0])
  {
    if |xs| == 0 then [x]
    else if key(x) >= key(xs[0]) then [x] + xs
    else
      var rest := Insert(x, xs[1..], key);
      var r := [xs[0]] + rest;
      assert key(xs[0]) >= key(rest[0]);
      assert SortedDesc(r, key) by {
        forall i, j | 0 <= i < j < |r|
          ensures key(r[i]) >= key(r[j])
        {
          assert r[j] == rest[j - 1];
          if i == 0 {
            assert j - 1 == 0 || key(rest[0]) >= key(rest[j - 1]);
          } else {
            assert r[i] == rest[i - 1];
          }
        }
      }
      assert xs == [xs[0]] + xs[1..];
      r
  }

  /** `orderBy: { key: "desc" }`: a permutation of the input, largest key first. */
  function SortDesc<T>(xs: seq<T>, key: T -> int): (r: seq<T>)
    ensures SortedDesc(r, key)
    ensures multiset(r) == multiset(xs)
    ensures |r| == |xs|
  {
    if |xs| == 0 then []
    else
      assert xs == [xs[0]] + xs[1..];
      Insert(xs[0], SortDesc(xs[1..], key), key)
  }

  /** Smallest key first. */
  ghost predicate SortedAsc<T>(xs: seq<T>, key: T -> int) {
    forall i, j :: 0 <= i < j < |xs| ==> key(xs[i]) <= key(xs[j])
  }

  /** `orderBy: { key: "asc" }`: the descending sort on the negated key. */
  function SortAsc<T>(xs: seq<T>, key: T -> int): (r: seq<T>)
    ensures SortedAsc(r, key)
    ensures multiset(r) == multiset(xs)
    ensures |r| == |xs|
  {
    SortDesc(xs, x => -key(x))
  }

  /** A permutation keeps exactly the same elements. */
  lemma SameElements<T>(r: seq<T>, xs: seq<T>, x: T)
    requires multiset(r) == multiset(xs)
    ensures x in r <==> x in xs
  {
    assert x in r <==> x in multiset(r);
    assert x in xs <==> x in multiset(xs);
  }

  /** The keys of the entries of `m` the filter keeps. */
  ghost function Selected<K, V>(m: map<K, V>, keep: (K, V) -> bool): set<K> {
    set k | k in m && keep(k, m[k])
  }

  /** No key occurs in two rows. */
  ghost predicate DistinctKeys<K, V>(rows: seq<(K, V)>) {
    forall i, j :: 0 <= i < j < |rows| ==> rows[i].0 != rows[j].0
  }

  /** `findMany({ where: keep })`: every kept entry once, nothing else. */
  method Collect<K, V>(m: map<K, V>, keep: (K, V) -> bool) returns (rows: seq<(K, V)>)
    ensures forall x :: x in rows ==> x.0 in m && x.1 == m[x.0] && keep(x.0, x.1)
    ensures forall k :: k in m && keep(k, m[k]) ==> (k, m[k]) in rows
    ensures DistinctKeys(rows)
    ensures |rows| == |Selected(m, keep)|
  {
    rows := [];
    var todo := m.Keys;
    ghost var done: set<K> := {};
    while todo != {}
      invariant todo <= m.Keys && todo !! done
      invariant done == set k | k in m && k !in todo && keep(k, m[k])
      invariant forall x :: x in rows ==> x.0 in done && x.1 == m[x.0]
      invariant forall k :: k in done ==> (k, m[k]) in rows
      invariant DistinctKeys(rows)
      invariant |rows| == |done|
      decreases todo
    {
      var k :| k in todo;
      if keep(k, m[k]) {
        assert (k, m[k]).0 !in done;
        assert forall i :: 0 <= i < |rows| ==> rows[i].0 != k by {
          forall i | 0 <= i < |rows| ensures rows[i].0 != k {
            assert rows[i] in rows;
          }
        }
        rows := rows + [(k, m[k])];
        done := done + {k};
      }
      todo := todo - {k};
    }
    assert done == Selected(m, keep);
  }

  /** `rows.map(row => proj(row.1))`. */
  function Project<K, V, U>(rows: seq<(K, V)>, proj: V -> U): (r: seq<U>)
    ensures |r| == |rows|
    ensures forall i :: 0 <= i < |rows| ==> r[i] == proj(rows[i].1)
  {
    if |rows| == 0 then [] else [proj(rows[0].1)] + Project(rows[1..], proj)
  }

  /** The keys of the rows whose value projects to `u`. */
  ghost function KeysWhere<K, V, U>(rows: seq<(K, V)>, proj: V -> U, u: U): set<K> {
    set x | x in rows && proj(x.1) == u :: x.0
  }

  /** The keys of a row followed by more rows. */
  lemma KeysWhereCons<K, V, U>(x: (K, V), rest: seq<(K, V)>, proj: V -> U, u: U)
    ensures KeysWhere([x] + rest, proj, u) ==
      (if proj(x.1) == u then {x.0} else {}) + KeysWhere(rest, proj, u)
  {
    var rows := [x] + rest;
    forall k | k in KeysWhere(rows, proj, u)
      ensures k in (if proj(x.1) == u then {x.0} else {}) + KeysWhere(rest, proj, u)
    {
      var y :| y in rows && proj(y.1) == u && y.0 == k;
      if y != x {
        assert y in rest;
      }
    }
    forall k | k in KeysWhere(rest, proj, u) ensures k in KeysWhere(rows, proj, u) {
      var y :| y in rest && proj(y.1) == u && y.0 == k;
      assert y in rows;
    }
    if proj(x.1) == u {
      assert x in rows;
    }
  }

  /** Dropping the first row keeps the keys distinct, and its key occurs in no later row. */
  lemma DistinctTail<K, V, U>(rows: seq<(K, V)>, proj: V -> U, u: U)
    requires |rows| > 0 && DistinctKeys(rows)
    ensures DistinctKeys(rows[1..])
    ensures rows[0].0 !in KeysWhere(rows[1..], proj, u)
  {
    var rest := rows[1..];
    forall i, j | 0 <= i < j < |rest| ensures rest[i].0 != rest[j].0 {
      assert rest[i] == rows[i + 1] && rest[j] == rows[j + 1];
    }
    forall y | y in rest ensures y.0 != rows[0].0 {
      var j :| 0 <= j < |rest| && rest[j] == y;
      assert rows[j + 1] == y;
    }
  }

  /** Over rows with distinct keys, a value occurs in the projection once for every
      row that projects to it. */
  lemma {:induction false} ProjectionCount<K, V, U>(rows: seq<(K, V)>, proj: V -> U, u: U)
    requires DistinctKeys(rows)
    ensures multiset(Project(rows, proj))[u] == |KeysWhere(rows, proj, u)|
  {
    if |rows| == 0 {
      assert KeysWhere(rows, proj, u) == {};
    } else {
      var x, rest := rows[0], rows[1..];
      DistinctTail(rows, proj, u);
      ProjectionCount(rest, proj, u);
      assert rows == [x] + rest;
      KeysWhereCons(x, rest, proj, u);
    }
  }
}
