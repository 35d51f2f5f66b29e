/**
 The grouping fold behind orders, taxes and ledger rows: rows with the same key are added up, in the order in which
 keys first appear. Amounts are exact.
 */
module Grouping {
  import opened Sums

  datatype Money = Money(amount: real, tax: real) {
    function Plus(other: Money): Money { Money(amount + other.amount, tax + other.tax) }
  }

  const ZERO: Money := Money(0.0, 0.0)

  datatype Row<K> = Row(key: K, money: Money)

  function MoneyOf<K>(rows: seq<Row<K>>): Money {
    if rows == [] then ZERO else MoneyOf(rows[..|rows| - 1]).Plus(rows[|rows| - 1].money)
  }

  /** What the rows with this key add up to. */
  function MoneyFor<K(==)>(rows: seq<Row<K>>, key: K): Money {
    if rows == [] then ZERO
    else
      var last := rows[|rows| - 1];
      if last.key == key then MoneyFor(rows[..|rows| - 1], key).Plus(last.money) else MoneyFor(rows[..|rows| - 1], key)
  }

  function RowKeys<K>(rows: seq<Row<K>>): (ks: seq<K>)
    ensures |ks| == |rows| && forall k :: 0 <= k < |ks| ==> ks[k] == rows[k].key
  {
    seq(|rows|, k requires 0 <= k < |rows| => rows[k].key)
  }

  predicate HasKey<K(==)>(groups: seq<Row<K>>, key: K) {
    exists k :: 0 <= k < |groups| && groups[k].key == key
  }

  function KeyIndex<K(==)>(groups: seq<Row<K>>, key: K): (i: nat)
    requires HasKey(groups, key)
    ensures i < |groups| && groups[i].key == key
  {
    if groups[0].key == key then 0
    else
      assert HasKey(groups[1..], key) by {
        var k :| 0 <= k < |groups| && groups[k].key == key;
        assert groups[1..][k - 1].key == key;
      }
      1 + KeyIndex(groups[1..], key)
  }

  /** One turn of the fold: add to the group of the key, or open one. */
  function AddTo<K(==)>(groups: seq<Row<K>>, row: Row<K>): seq<Row<K>> {
    if HasKey(groups, row.key) then
      var i := KeyIndex(groups, row.key);
      groups[i := Row(row.key, groups[i].money.Plus(row.money))]
    else groups + [row]
  }

  function Grouped<K(==)>(rows: seq<Row<K>>): seq<Row<K>> {
    if rows == [] then [] else AddTo(Grouped(rows[..|rows| - 1]), rows[|rows| - 1])
  }

  /** `arrayConditionCirculation` with an adding callback. */
  method Group<K(==)>(rows: seq<Row<K>>) returns (groups: seq<Row<K>>)
    ensures groups == Grouped(rows)
    ensures Distinct(RowKeys(groups)) && MoneyOf(groups) == MoneyOf(rows)
    ensures forall k :: 0 <= k < |groups| ==> groups[k].money == MoneyFor(rows, groups[k].key)
  {
    groups := [];
    for i := 0 to |rows|
      invariant groups == Grouped(rows[..i])
    {
      assert rows[..i + 1][..i] == rows[..i];
      groups := AddTo(groups, rows[i]);
    }
    assert rows[..|rows|] == rows;
    GroupedIsSound(rows);
  }

  lemma {:induction false} TotalOfUpdate<K>(groups: seq<Row<K>>, i: nat, row: Row<K>)
    requires i < |groups| && row.key == groups[i].key
    ensures var after := groups[i := Row(row.key, groups[i].money.Plus(row.money))];
      MoneyOf(after) == MoneyOf(groups).Plus(row.money)
  {
    var n := |groups| - 1;
    var after := groups[i := Row(row.key, groups[i].money.Plus(row.money))];
    if i == n {
      assert after[..n] == groups[..n];
    } else {
      TotalOfUpdate(groups[..n], i, row);
      assert after[..n] == groups[..n][i := Row(row.key, groups[i].money.Plus(row.money))];
    }
  }

  lemma {:induction false} TotalForOfUpdate<K>(groups: seq<Row<K>>, i: nat, row: Row<K>, key: K)
    requires i < |groups| && row.key == groups[i].key
    ensures var after := groups[i := Row(row.key, groups[i].money.Plus(row.money))];
      MoneyFor(after, key) == if key == row.key then MoneyFor(groups, key).Plus(row.money) else MoneyFor(groups, key)
  {
    var n := |groups| - 1;
    var after := groups[i := Row(row.key, groups[i].money.Plus(row.money))];
    if i == n {
      assert after[..n] == groups[..n];
    } else {
      TotalForOfUpdate(groups[..n], i, row, key);
      assert after[..n] == groups[..n][i := Row(row.key, groups[i].money.Plus(row.money))];
    }
  }

  lemma AddToTotals<K>(groups: seq<Row<K>>, row: Row<K>, key: K)
    ensures MoneyOf(AddTo(groups, row)) == MoneyOf(groups).Plus(row.money)
    ensures MoneyFor(AddTo(groups, row), key)
         == if key == row.key then MoneyFor(groups, key).Plus(row.money) else MoneyFor(groups, key)
  {
    if HasKey(groups, row.key) {
      TotalOfUpdate(groups, KeyIndex(groups, row.key), row);
      TotalForOfUpdate(groups, KeyIndex(groups, row.key), row, key);
    } else {
      assert (groups + [row])[..|groups|] == groups;
    }
  }

  lemma AddToKeys<K>(groups: seq<Row<K>>, row: Row<K>)
    requires Distinct(RowKeys(groups))
    ensures Distinct(RowKeys(AddTo(groups, row)))
    ensures forall key :: HasKey(AddTo(groups, row), key) <==> HasKey(groups, key) || key == row.key
  {
    var after := AddTo(groups, row);
    if HasKey(groups, row.key) {
      assert RowKeys(after) == RowKeys(groups);
      assert forall k :: 0 <= k < |groups| ==> after[k].key == groups[k].key;
    } else {
      assert after[|groups|] == row;
      assert forall k :: 0 <= k < |groups| ==> after[k] == groups[k];
    }
  }

  lemma {:induction false} TotalForMissing<K>(groups: seq<Row<K>>, key: K)
    requires forall k :: 0 <= k < |groups| ==> groups[k].key != key
    ensures MoneyFor(groups, key) == ZERO
  {
    if groups != [] {
      assert groups[|groups| - 1].key != key;
      TotalForMissing(groups[..|groups| - 1], key);
    }
  }

  lemma {:induction false} TotalForOnly<K>(groups: seq<Row<K>>, i: nat)
    requires Distinct(RowKeys(groups)) && i < |groups|
    ensures MoneyFor(groups, groups[i].key) == groups[i].money
  {
    var n, key := |groups| - 1, groups[i].key;
    var before := groups[..n];
    forall a, b | 0 <= a < b < |before| ensures RowKeys(before)[a] != RowKeys(before)[b] {
      assert RowKeys(groups)[a] != RowKeys(groups)[b];
    }
    if i < n {
      assert RowKeys(groups)[i] != RowKeys(groups)[n];
      TotalForOnly(before, i);
    } else {
      forall k | 0 <= k < n ensures before[k].key != key { assert RowKeys(groups)[k] != RowKeys(groups)[n]; }
      TotalForMissing(before, key);
    }
  }

  /**
   Grouping loses nothing and repeats nothing: one group per key that occurs, holding exactly what its rows add up to,
   and all groups together holding what all rows add up to.
   */
  lemma {:induction false} GroupedIsSound<K>(rows: seq<Row<K>>)
    ensures var groups := Grouped(rows);
      && Distinct(RowKeys(groups)) && MoneyOf(groups) == MoneyOf(rows)
      && (forall key :: HasKey(groups, key) <==> HasKey(rows, key))
      && (forall k :: 0 <= k < |groups| ==> groups[k].money == MoneyFor(rows, groups[k].key))
  {
    GroupedTotals(rows);
    var groups := Grouped(rows);
    forall k | 0 <= k < |groups| ensures groups[k].money == MoneyFor(rows, groups[k].key) {
      TotalForOnly(groups, k);
      assert MoneyFor(groups, groups[k].key) == MoneyFor(rows, groups[k].key);
    }
  }

  lemma {:induction false} GroupedTotals<K>(rows: seq<Row<K>>)
    ensures var groups := Grouped(rows);
      && Distinct(RowKeys(groups)) && MoneyOf(groups) == MoneyOf(rows)
      && (forall key :: HasKey(groups, key) <==> HasKey(rows, key))
      && (forall key :: MoneyFor(groups, key) == MoneyFor(rows, key))
  {
    if rows != [] {
      var before, last := rows[..|rows| - 1], rows[|rows| - 1];
      GroupedTotals(before);
      AddToKeys(Grouped(before), last);
      forall key ensures MoneyFor(Grouped(rows), key) == MoneyFor(rows, key) {
        AddToTotals(Grouped(before), last, key);
      }
      AddToTotals(Grouped(before), last, last.key);
      forall key ensures HasKey(rows, key) <==> HasKey(before, key) || key == last.key {
        if HasKey(before, key) {
          var k :| 0 <= k < |before| && before[k].key == key;
          assert rows[k].key == key;
        }
      }
    }
  }
}
