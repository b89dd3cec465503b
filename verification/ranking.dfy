/**
 The "Top Energy Consumers" table: the summary rows sorted by kWh, largest
 first, cut to the first three.
 */
module Ranking {
  import opened Totals

  /** How many rows the top-consumers table shows. */
  const TopCount: nat := 3

  function Min(a: nat, b: nat): nat
  {
    if a <= b then a else b
  }

  /** Rows in non-increasing order of kWh. */
  predicate SortedByKwh(rows: seq<Row>)
  {
    forall i, j :: 0 <= i < j < |rows| ==> rows[i].kwh >= rows[j].kwh
  }

  /** No row has more than `bound` kWh. */
  predicate AtMost(rows: seq<Row>, bound: real)
  {
    forall i :: 0 <= i < |rows| ==> rows[i].kwh <= bound
  }

  /** A row heading a descending sequence it is not below keeps it descending. */
  lemma SortedCons(head: Row, rest: seq<Row>)
    requires SortedByKwh(rest) && AtMost(rest, head.kwh)
    ensures SortedByKwh([head] + rest)
  {
    var out := [head] + rest;
    assert forall j :: 0 < j < |out| ==> out[j] == rest[j - 1];
  }

  /** Places `r` into a descending sequence, before the first row it is not below. */
  function Insert(r: Row, sorted: seq<Row>): (out: seq<Row>)
    requires SortedByKwh(sorted)
    ensures SortedByKwh(out)
    ensures multiset(out) == multiset(sorted) + multiset{r}
    ensures forall bound :: AtMost(sorted, bound) && r.kwh <= bound ==> AtMost(out, bound)
    decreases |sorted|
  {
    if |sorted| == 0 || r.kwh >= sorted[0].kwh then
      SortedCons(r, sorted);
      [r] + sorted
    else
      var head, tail := sorted[0], sorted[1..];
      assert sorted == [head] + tail;
      assert AtMost(tail, head.kwh);
      var rest := Insert(r, tail);
      SortedCons(head, rest);
      [head] + rest
  }

  /** Sorts rows by kWh, largest first. */
  function SortDescending(rows: seq<Row>): (sorted: seq<Row>)
    ensures SortedByKwh(sorted)
    ensures multiset(sorted) == multiset(rows)
    decreases |rows|
  {
    if |rows| == 0 then []
    else
      assert rows == [rows[0]] + rows[1..];
      Insert(rows[0], SortDescending(rows[1..]))
  }

  /** In a descending sequence, nothing after position `k` outranks anything before it. */
  lemma PrefixDominates(sorted: seq<Row>, k: nat)
    requires SortedByKwh(sorted) && k <= |sorted|
    ensures forall x, y :: x in sorted[k..] && y in sorted[..k] ==> x.kwh <= y.kwh
  {
    forall x, y | x in sorted[k..] && y in sorted[..k]
      ensures x.kwh <= y.kwh
    {
      var j :| 0 <= j < |sorted[k..]| && sorted[k..][j] == x;
      var i :| 0 <= i < k && sorted[..k][i] == y;
      assert sorted[i] == y && sorted[k + j] == x;
    }
  }

  /** Removing a prefix's elements from the whole leaves the suffix's. */
  lemma MultisetSplit(s: seq<Row>, k: nat)
    requires k <= |s|
    ensures multiset(s) - multiset(s[..k]) == multiset(s[k..])
    ensures multiset(s[..k]) <= multiset(s)
  {
    assert s == s[..k] + s[k..];
  }

  /** The top-consumers table: the first `TopCount` rows of the descending sort. */
  function TopConsumers(rows: seq<Row>): (top: seq<Row>)
    ensures |top| == Min(TopCount, |rows|)
    ensures SortedByKwh(top)
    ensures multiset(top) <= multiset(rows)
    ensures forall x :: x in top ==> x in rows
    ensures forall x, y :: x in multiset(rows) - multiset(top) && y in top ==> x.kwh <= y.kwh
  {
    var sorted := SortDescending(rows);
    var k := Min(TopCount, |rows|);
    var top := sorted[..k];
    MultisetSplit(sorted, k);
    PrefixDominates(sorted, k);
    assert forall x :: x in top ==> x in multiset(sorted);
    top
  }
}
