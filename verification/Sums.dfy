// Totals over a table: the sum of a column over every row of a map, and how one row's update moves it.
module Sums {
  import opened Common

  ghost function Pick<K, V>(m: map<K, V>): (k: K)
    requires m != map[]
    ensures k in m
  {
    var k :| k in m;
    k
  }

  ghost function Sum<K, V>(m: map<K, V>, column: V -> int): int
    decreases |m|
  {
    if m == map[] then 0
    else
      var k := Pick(m);
      column(m[k]) + Sum(m - {k}, column)
  }

  // Any row can be the one counted first: the sum does not depend on the order of the table.
  lemma {:induction false} SumSplit<K, V>(m: map<K, V>, k: K, column: V -> int)
    requires k in m
    ensures Sum(m, column) == column(m[k]) + Sum(m - {k}, column)
    decreases |m|
  {
    var first := Pick(m);
    if first != k {
      SumSplit(m - {first}, k, column);
      SumSplit(m - {k}, first, column);
      assert m - {first} - {k} == m - {k} - {first};
    }
  }

  // Writing one row moves the total by that row's difference; a missing row counts as a bare one.
  lemma SumPut<K, V>(m: map<K, V>, k: K, v: V, bare: V, column: V -> int)
    requires k in m || column(bare) == 0
    ensures Sum(m[k := v], column) == Sum(m, column) - column(Get(m, k, bare)) + column(v)
  {
    SumSplit(m[k := v], k, column);
    if k in m {
      SumSplit(m, k, column);
      assert m[k := v] - {k} == m - {k};
    } else {
      assert m[k := v] - {k} == m;
    }
  }

  // No single row of a non-negative column exceeds the total.
  lemma {:induction false} SumAtLeast<K, V>(m: map<K, V>, k: K, column: V -> int)
    requires k in m
    requires forall x :: x in m ==> column(m[x]) >= 0
    ensures column(m[k]) <= Sum(m, column)
  {
    SumSplit(m, k, column);
    SumNonNegative(m - {k}, column);
  }

  lemma {:induction false} SumNonNegative<K, V>(m: map<K, V>, column: V -> int)
    requires forall x :: x in m ==> column(m[x]) >= 0
    ensures Sum(m, column) >= 0
    decreases |m|
  {
    if m != map[] {
      SumNonNegative(m - {Pick(m)}, column);
    }
  }

  // A non-negative column totals zero exactly when every row has zero in it.
  lemma {:induction false} SumZero<K, V>(m: map<K, V>, column: V -> int)
    requires forall x :: x in m ==> column(m[x]) >= 0
    ensures Sum(m, column) == 0 <==> forall x :: x in m ==> column(m[x]) == 0
  {
    if Sum(m, column) == 0 {
      SumNonNegative(m, column);
      forall x | x in m ensures column(m[x]) == 0 {
        SumAtLeast(m, x, column);
      }
    } else if forall x :: x in m ==> column(m[x]) == 0 {
      SumSame(m, column, (_: V) => 0);
      SumOfZeros(m);
      assert false;
    }
  }

  lemma {:induction false} SumOfZeros<K, V>(m: map<K, V>)
    ensures Sum(m, (_: V) => 0) == 0
    decreases |m|
  {
    if m != map[] {
      SumOfZeros(m - {Pick(m)});
    }
  }

  // A total depends only on the column's values.
  lemma {:induction false} SumSame<K, V>(m: map<K, V>, c: V -> int, d: V -> int)
    requires forall x :: x in m ==> c(m[x]) == d(m[x])
    ensures Sum(m, c) == Sum(m, d)
    decreases |m|
  {
    if m != map[] {
      SumSame(m - {Pick(m)}, c, d);
    }
  }

  // Two tables with the same keys and equal columns have equal totals.
  lemma {:induction false} SumMatch<K, V, W>(m: map<K, V>, n: map<K, W>, c: V -> int, d: W -> int)
    requires m.Keys == n.Keys && forall k :: k in m ==> c(m[k]) == d(n[k])
    ensures Sum(m, c) == Sum(n, d)
    decreases |m|
  {
    if m == map[] {
      assert n == map[];
    } else {
      var k := Pick(m);
      SumSplit(n, k, d);
      SumMatch(m - {k}, n - {k}, c, d);
    }
  }
}
