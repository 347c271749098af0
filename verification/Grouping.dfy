/** GROUP BY with COUNT, which the compliance report asks of two tables. */
module Grouping {
  import opened Counting

  datatype Row<G> = Row(group: G, count: nat)

  function InGroup<T, G(==)>(key: T -> G, g: G): T -> nat { x => if key(x) == g then 1 else 0 }

  /** How many rows of the table have this key. */
  function GroupCount<T, G(==)>(key: T -> G, table: seq<T>, g: G): nat { Sum(InGroup(key, g), table) }

  /** The count is the number of rows with the key. */
  lemma {:induction false} GroupCountIsNumber<T, G>(key: T -> G, table: seq<T>, g: G, rows: set<int>)
    requires forall i :: i in rows <==> 0 <= i < |table| && key(table[i]) == g
    ensures GroupCount(key, table, g) == |rows|
  {
    if table == [] {
      assert forall i :: i !in rows;
      assert rows == {};
    } else {
      var n := |table| - 1;
      GroupCountIsNumber(key, table[..n], g, rows - {n});
      SumAppend(InGroup(key, g), table[..n], table[n]);
      assert table == table[..n] + [table[n]];
    }
  }

  function RowCount<G>(): Row<G> -> nat { (r: Row<G>) => r.count }

  ghost predicate HasRow<G>(rows: seq<Row<G>>, g: G) {
    exists i :: 0 <= i < |rows| && rows[i].group == g
  }

  /** Each group once, with its count, and nothing else. */
  ghost predicate Groups<T, G>(key: T -> G, rows: seq<Row<G>>, table: seq<T>) {
    && (forall i, j :: 0 <= i < j < |rows| ==> rows[i].group != rows[j].group)
    && (forall i :: 0 <= i < |rows| ==> rows[i].count == GroupCount(key, table, rows[i].group) && rows[i].count > 0)
    && (forall k :: 0 <= k < |table| ==> HasRow(rows, key(table[k])))
  }

  /** The aggregation as one pass over the table; the counts add up to its size. */
  method CountByGroup<T, G(==)>(key: T -> G, table: seq<T>) returns (rows: seq<Row<G>>)
    ensures Groups(key, rows, table)
    ensures Sum(RowCount(), rows) == |table|
  {
    rows := [];
    var n := 0;
    while n < |table|
      invariant 0 <= n <= |table|
      invariant Groups(key, rows, table[..n])
      invariant Sum(RowCount(), rows) == n
    {
      var g := key(table[n]);
      var i := 0;
      while i < |rows| && rows[i].group != g
        invariant 0 <= i <= |rows|
        invariant forall j :: 0 <= j < i ==> rows[j].group != g
      {
        i := i + 1;
      }
      assert table[..n + 1] == table[..n] + [table[n]];
      if i < |rows| {
        CountOneMore(key, rows, table[..n], table[n], i);
        SumUpdate(RowCount(), rows, i, Row(g, rows[i].count + 1));
        rows := rows[i := Row(g, rows[i].count + 1)];
      } else {
        OpenGroup(key, rows, table[..n], table[n]);
        SumAppend(RowCount(), rows, Row(g, 1));
        rows := rows + [Row(g, 1)];
      }
      n := n + 1;
    }
    assert table[..n] == table;
  }

  lemma CountOneMore<T, G>(key: T -> G, rows: seq<Row<G>>, table: seq<T>, x: T, i: nat)
    requires Groups(key, rows, table) && i < |rows| && rows[i].group == key(x)
    ensures Groups(key, rows[i := Row(key(x), rows[i].count + 1)], table + [x])
  {
    var rows' := rows[i := Row(key(x), rows[i].count + 1)];
    forall j | 0 <= j < |rows'|
      ensures rows'[j].count == GroupCount(key, table + [x], rows'[j].group) && rows'[j].count > 0
    {
      SumAppend(InGroup(key, rows'[j].group), table, x);
      assert rows'[j].group == rows[j].group;
    }
    StillCovered(key, rows, rows', table, x, i);
  }

  lemma OpenGroup<T, G>(key: T -> G, rows: seq<Row<G>>, table: seq<T>, x: T)
    requires Groups(key, rows, table) && forall j :: 0 <= j < |rows| ==> rows[j].group != key(x)
    ensures Groups(key, rows + [Row(key(x), 1)], table + [x])
  {
    var rows' := rows + [Row(key(x), 1)];
    AbsentCountsZero(key, rows, table, key(x));
    forall j | 0 <= j < |rows'|
      ensures rows'[j].count == GroupCount(key, table + [x], rows'[j].group) && rows'[j].count > 0
    {
      SumAppend(InGroup(key, rows'[j].group), table, x);
    }
    StillCovered(key, rows, rows', table, x, |rows|);
  }

  lemma StillCovered<T, G>(key: T -> G, rows: seq<Row<G>>, rows': seq<Row<G>>, table: seq<T>, x: T, i: nat)
    requires Groups(key, rows, table) && |rows| <= |rows'| && i < |rows'| && rows'[i].group == key(x)
    requires forall j :: 0 <= j < |rows| ==> rows'[j].group == rows[j].group
    ensures forall k :: 0 <= k < |table + [x]| ==> HasRow(rows', key((table + [x])[k]))
  {
    forall k | 0 <= k < |table + [x]|
      ensures HasRow(rows', key((table + [x])[k]))
    {
      if k < |table| {
        assert HasRow(rows, key(table[k]));
        var j :| 0 <= j < |rows| && rows[j].group == key(table[k]);
        assert rows'[j].group == rows[j].group;
      } else {
        assert rows'[i].group == key(x);
      }
    }
  }

  /** A group without a row has no members. */
  lemma AbsentCountsZero<T, G>(key: T -> G, rows: seq<Row<G>>, table: seq<T>, g: G)
    requires Groups(key, rows, table) && forall j :: 0 <= j < |rows| ==> rows[j].group != g
    ensures GroupCount(key, table, g) == 0
  {
    forall k | 0 <= k < |table|
      ensures InGroup(key, g)(table[k]) == 0
    {
      assert HasRow(rows, key(table[k]));
    }
    SumNone(InGroup(key, g), table);
  }

  /** Any such grouping of a table adds up to its size. */
  lemma {:induction false} GroupsAddUp<T, G>(key: T -> G, rows: seq<Row<G>>, table: seq<T>)
    requires Groups(key, rows, table)
    ensures Sum(RowCount(), rows) == |table|
  {
    CoveredAddUp(key, rows, table);
  }

  /** Distinct rows with the right counts that cover the table add up to its size. */
  lemma {:induction false} CoveredAddUp<T, G>(key: T -> G, rows: seq<Row<G>>, table: seq<T>)
    requires forall i, j :: 0 <= i < j < |rows| ==> rows[i].group != rows[j].group
    requires forall i :: 0 <= i < |rows| ==> rows[i].count == GroupCount(key, table, rows[i].group)
    requires forall k :: 0 <= k < |table| ==> HasRow(rows, key(table[k]))
    ensures Sum(RowCount(), rows) == |table|
    decreases |table|
  {
    if table == [] {
      SumNone(RowCount(), rows);
    } else {
      assert HasRow(rows, key(table[0]));
      var i :| 0 <= i < |rows| && rows[i].group == key(table[0]);
      var fewer := rows[i := Row(rows[i].group, rows[i].count - 1)];
      SumUpdate(RowCount(), rows, i, fewer[i]);
      forall k | 0 <= k < |table[1..]|
        ensures HasRow(fewer, key(table[1..][k]))
      {
        assert HasRow(rows, key(table[k + 1]));
        var j :| 0 <= j < |rows| && rows[j].group == key(table[k + 1]);
        assert fewer[j].group == rows[j].group;
      }
      CoveredAddUp(key, fewer, table[1..]);
    }
  }
}
