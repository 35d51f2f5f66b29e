/** Sums over sequences, and the facts about them that several services rely on. */
module Sums {

  function Sum(s: seq<int>): int {
    if s == [] then 0 else s[0] + Sum(s[1..])
  }

  lemma {:induction false} SumConcat(s: seq<int>, t: seq<int>)
    ensures Sum(s + t) == Sum(s) + Sum(t)
  {
    if s == [] {
      assert s + t == t;
    } else {
      assert (s + t)[1..] == s[1..] + t;
      SumConcat(s[1..], t);
    }
  }

  /** One more turn of an accumulating loop. */
  lemma SumSnoc(s: seq<int>, i: nat)
    requires i < |s|
    ensures Sum(s[..i + 1]) == Sum(s[..i]) + s[i]
  {
    assert s[..i + 1] == s[..i] + [s[i]];
    SumConcat(s[..i], [s[i]]);
    assert Sum([s[i]]) == s[i];
  }

  lemma {:induction false} SumNonNegative(s: seq<int>)
    requires forall k :: 0 <= k < |s| ==> s[k] >= 0
    ensures Sum(s) >= 0
    ensures forall k :: 0 <= k < |s| ==> s[k] <= Sum(s)
  {
    if s != [] {
      SumNonNegative(s[1..]);
      forall k | 0 <= k < |s| ensures s[k] <= Sum(s) {
        if k > 0 { assert s[k] == s[1..][k - 1]; }
      }
    }
  }

  lemma {:induction false} SumMonotone(s: seq<int>, t: seq<int>)
    requires |s| == |t| && forall k :: 0 <= k < |s| ==> s[k] <= t[k]
    ensures Sum(s) <= Sum(t)
  {
    if s != [] { SumMonotone(s[1..], t[1..]); }
  }

  /** The squeeze: pointwise below and equal in total means equal everywhere. */
  lemma {:induction false} SumSqueeze(s: seq<int>, t: seq<int>)
    requires |s| == |t| && (forall k :: 0 <= k < |s| ==> s[k] <= t[k])
    requires Sum(s) >= Sum(t)
    ensures s == t
  {
    if s != [] {
      SumMonotone(s[1..], t[1..]);
      SumSqueeze(s[1..], t[1..]);
      assert s[0] == t[0] && s[1..] == t[1..];
      assert s == [s[0]] + s[1..] && t == [t[0]] + t[1..];
    }
  }

  // ---- Lists of (key, amount) pairs: rows of a table grouped by one column.

  type Pair = (string, int)

  function Keys(s: seq<Pair>): (ks: seq<string>)
    ensures |ks| == |s| && forall k :: 0 <= k < |s| ==> ks[k] == s[k].0
  {
    seq(|s|, k requires 0 <= k < |s| => s[k].0)
  }

  function Amounts(s: seq<Pair>): (xs: seq<int>)
    ensures |xs| == |s| && forall k :: 0 <= k < |s| ==> xs[k] == s[k].1
  {
    seq(|s|, k requires 0 <= k < |s| => s[k].1)
  }

  predicate Distinct<T(==)>(s: seq<T>) {
    forall i, j :: 0 <= i < j < |s| ==> s[i] != s[j]
  }

  function Total(s: seq<Pair>): int {
    if s == [] then 0 else s[0].1 + Total(s[1..])
  }

  /** What the rows carrying this key add up to. */
  function TotalFor(s: seq<Pair>, key: string): int {
    if s == [] then 0 else (if s[0].0 == key then s[0].1 else 0) + TotalFor(s[1..], key)
  }

  lemma {:induction false} TotalConcat(s: seq<Pair>, t: seq<Pair>)
    ensures Total(s + t) == Total(s) + Total(t)
  {
    if s == [] {
      assert s + t == t;
    } else {
      assert (s + t)[1..] == s[1..] + t;
      TotalConcat(s[1..], t);
    }
  }

  lemma {:induction false} TotalForConcat(s: seq<Pair>, t: seq<Pair>, key: string)
    ensures TotalFor(s + t, key) == TotalFor(s, key) + TotalFor(t, key)
  {
    if s == [] {
      assert s + t == t;
    } else {
      assert (s + t)[1..] == s[1..] + t;
      TotalForConcat(s[1..], t, key);
    }
  }

  lemma {:induction false} TotalIsSum(s: seq<Pair>)
    ensures Total(s) == Sum(Amounts(s))
  {
    if s != [] {
      TotalIsSum(s[1..]);
      assert Amounts(s)[1..] == Amounts(s[1..]);
    }
  }

  lemma {:induction false} TotalForAbsent(s: seq<Pair>, key: string)
    requires key !in Keys(s)
    ensures TotalFor(s, key) == 0
  {
    if s != [] {
      assert Keys(s)[0] == s[0].0;
      forall k | 0 <= k < |s[1..]| ensures Keys(s[1..])[k] != key { assert Keys(s)[k + 1] == s[k + 1].0; }
      TotalForAbsent(s[1..], key);
    }
  }

  lemma {:induction false} TotalForUnique(s: seq<Pair>, i: nat)
    requires Distinct(Keys(s)) && i < |s|
    ensures TotalFor(s, s[i].0) == s[i].1
  {
    var rest := s[1..];
    forall a, b | 0 <= a < b < |rest| ensures Keys(rest)[a] != Keys(rest)[b] {
      assert Keys(s)[a + 1] != Keys(s)[b + 1];
    }
    if i == 0 {
      forall k | 0 <= k < |rest| ensures Keys(rest)[k] != s[0].0 { assert Keys(s)[0] != Keys(s)[k + 1]; }
      TotalForAbsent(rest, s[0].0);
    } else {
      assert Keys(s)[0] != Keys(s)[i];
      TotalForUnique(rest, i - 1);
    }
  }

  lemma {:induction false} TotalForNonNegative(s: seq<Pair>, key: string)
    requires forall k :: 0 <= k < |s| ==> s[k].1 >= 0
    ensures TotalFor(s, key) >= 0
  {
    if s != [] { TotalForNonNegative(s[1..], key); }
  }

  /** The group totals of `s` over a list of keys, in the order of that list. */
  function GroupTotals(s: seq<Pair>, keys: seq<string>): (g: seq<int>)
    ensures |g| == |keys| && forall k :: 0 <= k < |keys| ==> g[k] == TotalFor(s, keys[k])
  {
    seq(|keys|, k requires 0 <= k < |keys| => TotalFor(s, keys[k]))
  }

  /** Adding one row raises exactly its own group. */
  lemma {:induction false} GroupTotalsCons(row: Pair, rest: seq<Pair>, keys: seq<string>)
    requires Distinct(keys) && row.0 in keys
    ensures Sum(GroupTotals([row] + rest, keys)) == row.1 + Sum(GroupTotals(rest, keys))
  {
    var g, h := GroupTotals([row] + rest, keys), GroupTotals(rest, keys);
    assert ([row] + rest)[1..] == rest;
    assert g[1..] == GroupTotals([row] + rest, keys[1..]);
    assert h[1..] == GroupTotals(rest, keys[1..]);
    if keys[0] == row.0 {
      assert forall k :: 0 <= k < |keys[1..]| ==> keys[1..][k] != row.0;
      assert g[1..] == h[1..];
    } else {
      GroupTotalsCons(row, rest, keys[1..]);
    }
  }

  predicate KeysWithin(s: seq<Pair>, keys: seq<string>) {
    forall k :: 0 <= k < |s| ==> s[k].0 in keys
  }

  /** Grouping by key loses nothing: the group totals over distinct keys covering every row add up to everything. */
  lemma {:induction false} GroupedTotal(s: seq<Pair>, keys: seq<string>)
    requires Distinct(keys) && KeysWithin(s, keys)
    ensures Sum(GroupTotals(s, keys)) == Total(s)
  {
    if s == [] {
      assert forall k :: 0 <= k < |keys| ==> GroupTotals(s, keys)[k] == 0;
      SumOfZeros(GroupTotals(s, keys));
    } else {
      assert s == [s[0]] + s[1..];
      GroupTotalsCons(s[0], s[1..], keys);
      GroupedTotal(s[1..], keys);
    }
  }

  /** Grouping by keys that may miss rows: nothing is lost exactly when every (positive) row has its key. */
  lemma {:induction false} GroupedPart(s: seq<Pair>, keys: seq<string>)
    requires Distinct(keys) && forall k :: 0 <= k < |s| ==> s[k].1 > 0
    ensures Sum(GroupTotals(s, keys)) <= Total(s)
    ensures Sum(GroupTotals(s, keys)) == Total(s) <==> KeysWithin(s, keys)
  {
    if s == [] {
      GroupedTotal(s, keys);
    } else {
      var rest := s[1..];
      GroupedPart(rest, keys);
      assert s == [s[0]] + rest;
      assert KeysWithin(s, keys) <==> s[0].0 in keys && KeysWithin(rest, keys) by {
        assert forall k :: 0 < k < |s| ==> s[k] == rest[k - 1];
      }
      if s[0].0 in keys {
        GroupTotalsCons(s[0], rest, keys);
      } else {
        assert GroupTotals(s, keys) == GroupTotals(rest, keys);
      }
    }
  }

  /** The rows whose key is in a set. */
  function TotalWithin(s: seq<Pair>, keys: set<string>): int {
    if s == [] then 0 else (if s[0].0 in keys then s[0].1 else 0) + TotalWithin(s[1..], keys)
  }

  /** Group totals over distinct keys depend only on the set of keys, not on their order. */
  lemma {:induction false} GroupsAsSet(s: seq<Pair>, keys: seq<string>)
    requires Distinct(keys)
    ensures Sum(GroupTotals(s, keys)) == TotalWithin(s, Elements(keys))
  {
    if s == [] {
      GroupedTotal(s, keys);
    } else {
      GroupsAsSet(s[1..], keys);
      assert s == [s[0]] + s[1..];
      if s[0].0 in keys {
        GroupTotalsCons(s[0], s[1..], keys);
      } else {
        assert GroupTotals(s, keys) == GroupTotals(s[1..], keys);
      }
    }
  }

  lemma GroupTotalsSnoc(s: seq<Pair>, keys: seq<string>, key: string)
    ensures Sum(GroupTotals(s, keys + [key])) == Sum(GroupTotals(s, keys)) + TotalFor(s, key)
  {
    assert GroupTotals(s, keys + [key]) == GroupTotals(s, keys) + [TotalFor(s, key)];
    SumConcat(GroupTotals(s, keys), [TotalFor(s, key)]);
    assert Sum([TotalFor(s, key)]) == TotalFor(s, key);
  }

  lemma {:induction false} SumOfZeros(s: seq<int>)
    requires forall k :: 0 <= k < |s| ==> s[k] == 0
    ensures Sum(s) == 0
  {
    if s != [] { SumOfZeros(s[1..]); }
  }

  // ---- Lists without repetition.

  function Elements<T>(s: seq<T>): set<T> { set x | x in s }

  lemma {:induction false} DistinctCardinality<T>(s: seq<T>)
    requires Distinct(s)
    ensures |Elements(s)| == |s|
  {
    if s != [] {
      DistinctCardinality(s[1..]);
      assert s[0] !in s[1..];
      assert Elements(s) == {s[0]} + Elements(s[1..]);
    }
  }

  lemma SubsetSameSize<T>(a: set<T>, b: set<T>)
    requires a <= b && |a| == |b|
    ensures a == b
  {
    assert b == a + (b - a);
    assert |b| == |a| + |b - a|;
  }

  lemma SubsetSize<T>(a: set<T>, b: set<T>)
    requires a <= b
    ensures |a| <= |b|
  {
    assert b == a + (b - a);
    assert |b| == |a| + |b - a|;
  }

  lemma DistinctInit<T>(s: seq<T>)
    requires Distinct(s) && s != []
    ensures Distinct(s[..|s| - 1]) && s[|s| - 1] !in s[..|s| - 1]
  {
  }

  lemma AppendLast<T>(a: seq<T>, b: seq<T>)
    requires b != []
    ensures a + b == (a + b[..|b| - 1]) + [b[|b| - 1]]
  {
  }

  /** A list without repetition, drawn from another of the same length, contains all of it. */
  lemma DistinctCovers<T>(s: seq<T>, t: seq<T>)
    requires Distinct(s) && Distinct(t) && |s| == |t|
    requires forall x :: x in s ==> x in t
    ensures forall x :: x in t ==> x in s
  {
    DistinctCardinality(s);
    DistinctCardinality(t);
    SubsetSameSize(Elements(s), Elements(t));
    forall x | x in t ensures x in s {
      assert x in Elements(t);
      assert x in Elements(s);
    }
  }
}
