/** Sums over the rows of a table. */
module Sums {

  ghost function SumBy<V>(rows: map<nat, V>, f: V -> int): int
    decreases |rows|
  {
    if rows == map[] then 0
    else
      var k :| k in rows;
      f(rows[k]) + SumBy(rows - {k}, f)
  }

  lemma {:induction false} SumRemove<V>(rows: map<nat, V>, f: V -> int, k: nat)
    requires k in rows
    ensures SumBy(rows, f) == f(rows[k]) + SumBy(rows - {k}, f)
    decreases |rows|
  {
    var j :| j in rows && SumBy(rows, f) == f(rows[j]) + SumBy(rows - {j}, f);
    if j != k {
      SumRemove(rows - {j}, f, k);
      SumRemove(rows - {k}, f, j);
      assert rows - {j} - {k} == rows - {k} - {j};
    }
  }

  lemma SumInsert<V>(rows: map<nat, V>, f: V -> int, k: nat, v: V)
    requires k !in rows
    ensures SumBy(rows[k := v], f) == SumBy(rows, f) + f(v)
  {
    SumRemove(rows[k := v], f, k);
    assert rows[k := v] - {k} == rows;
  }

  lemma SumUpdate<V>(rows: map<nat, V>, f: V -> int, k: nat, v: V)
    requires k in rows
    ensures SumBy(rows[k := v], f) == SumBy(rows, f) - f(rows[k]) + f(v)
  {
    SumRemove(rows, f, k);
    SumRemove(rows[k := v], f, k);
    assert rows[k := v] - {k} == rows - {k};
  }

  lemma {:induction false} SumSplit<V>(rows: map<nat, V>, f: V -> int, g: V -> int, h: V -> int)
    requires forall k | k in rows :: f(rows[k]) == g(rows[k]) + h(rows[k])
    ensures SumBy(rows, f) == SumBy(rows, g) + SumBy(rows, h)
    decreases |rows|
  {
    if rows != map[] {
      var k :| k in rows;
      SumRemove(rows, f, k);
      SumRemove(rows, g, k);
      SumRemove(rows, h, k);
      SumSplit(rows - {k}, f, g, h);
    }
  }
}
