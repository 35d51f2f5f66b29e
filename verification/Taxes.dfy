/** Splitting amounts into tax and untaxed part, and merging taxes, in exact arithmetic. */
module Taxes {
  import opened Wrappers
  import opened Sums
  import opened Grouping

  datatype Tax = Tax(full: real, percent: real, amount: real, untaxed: real)

  /** `divideNumberValues`: zero divided by anything is zero. */
  function Divide(a: real, b: real): Result<real> {
    if a == 0.0 then Success(0.0) else if b == 0.0 then Failure(Internal) else Success(a / b)
  }

  function TaxAmount(full: real, percent: real): Result<real> { Divide(percent * full, percent + 100.0) }

  function Percent(full: real, amount: real): Result<real> {
    var quotient := Divide(amount, full - amount);
    if quotient.Failure? then quotient else Success(quotient.value * 100.0)
  }

  /** Tax and untaxed part make up the full amount, at the given rate. */
  predicate AtRate(t: Tax, percent: real) {
    t.amount + t.untaxed == t.full && 100.0 * t.amount == percent * t.untaxed
  }

  function GenerateTax(full: real, percent: Option<real>, amount: Option<real>): (r: Result<Tax>)
    ensures percent.None? && amount.None? ==> r == Failure(BadRequest)
    ensures percent.Some? ==>
      && (r.Failure? <==> percent.value == -100.0 && full != 0.0)
      && (r.Success? ==> r.value.full == full && r.value.percent == percent.value && AtRate(r.value, percent.value))
    ensures percent.None? && amount.Some? ==>
      && (r.Failure? <==> amount.value == full != 0.0)
      && (r.Success? ==>
            && r.value.full == full && r.value.amount == amount.value && r.value.untaxed == full - amount.value
            && (amount.value == 0.0 ==> r.value.percent == 0.0)
            && AtRate(r.value, r.value.percent))
  {
    if percent.Some? then
      var taxed := TaxAmount(full, percent.value);
      if taxed.Failure? then Failure(taxed.error)
      else
        RateSplits(full, percent.value);
        Success(Tax(full, percent.value, taxed.value, full - taxed.value))
    else if amount.Some? then
      var rate := Percent(full, amount.value);
      if rate.Failure? then Failure(rate.error)
      else
        RateFound(full, amount.value);
        Success(Tax(full, rate.value, amount.value, full - amount.value))
    else Failure(BadRequest)
  }

  lemma RateSplits(full: real, percent: real)
    requires TaxAmount(full, percent).Success?
    ensures var t := TaxAmount(full, percent).value; 100.0 * t == percent * (full - t)
    ensures percent == -100.0 ==> full == 0.0
  {
    var t := TaxAmount(full, percent).value;
    if percent * full == 0.0 {
      if percent != 0.0 { NoZeroFactors(percent, full); }
    } else {
      assert t == percent * full / (percent + 100.0);
      QuotientTimes(percent * full, percent + 100.0);
      assert t * (percent + 100.0) == percent * full;
    }
  }

  lemma NoZeroFactors(a: real, b: real)
    requires a * b == 0.0 && a != 0.0
    ensures b == 0.0
  {
  }

  lemma QuotientTimes(a: real, b: real)
    requires b != 0.0
    ensures (a / b) * b == a
  {
  }

  lemma RateFound(full: real, amount: real)
    requires Percent(full, amount).Success?
    ensures 100.0 * amount == Percent(full, amount).value * (full - amount)
    ensures amount == 0.0 ==> Percent(full, amount).value == 0.0
  {
    if amount != 0.0 { QuotientTimes(amount, full - amount); }
  }

  /** The rate of a split is determined by its parts, as long as something is untaxed. */
  lemma RateIsUnique(t: Tax, p: real, q: real)
    requires AtRate(t, p) && AtRate(t, q) && t.untaxed != 0.0
    ensures p == q
  {
    assert (p - q) * t.untaxed == 0.0;
    if p != q { NoZeroFactors(p - q, t.untaxed); }
  }

  // ---- Merging

  lemma SplitsAdd(x: real, u: real, y: real, v: real, p: real)
    requires 100.0 * x == p * u && 100.0 * y == p * v
    ensures 100.0 * (x + y) == p * (u + v)
    ensures u + v == 0.0 ==> x + y == 0.0
  {
  }

  /** A tax that holds two taxes of one rate. */
  lemma MergedSplit(a: Tax, b: Tax, t: Tax, percent: real)
    requires AtRate(a, percent) && AtRate(b, percent) && AtRate(t, t.percent)
    requires t.full == a.full + b.full && t.amount == a.amount + b.amount && (t.amount == 0.0 ==> t.percent == 0.0)
    ensures AtRate(t, percent) && (t.percent == percent <==> t.amount != 0.0 || percent == 0.0)
  {
    SplitsAdd(a.amount, a.untaxed, b.amount, b.untaxed, percent);
    assert t.untaxed == a.untaxed + b.untaxed;
    if t.amount != 0.0 { RateIsUnique(t, t.percent, percent); }
  }

  /**
   What merging two taxes of one rate gives: a tax at that rate, whose percent is lost only if the amounts cancel
   out.
   */
  predicate MergedAt(r: Result<Tax>, percent: real) {
    && r.Success? && AtRate(r.value, percent)
    && (r.value.percent == percent <==> r.value.amount != 0.0 || percent == 0.0)
  }

  /** What `GenerateTax` promises of the totals of two taxes. */
  predicate TotalsOf(r: Result<Tax>, a: Tax, b: Tax) {
    && (r.Failure? <==> a.amount + b.amount == a.full + b.full != 0.0)
    && (r.Success? ==>
          && r.value.full == a.full + b.full && r.value.amount == a.amount + b.amount
          && AtRate(r.value, r.value.percent) && (r.value.amount == 0.0 ==> r.value.percent == 0.0))
  }

  lemma NotAllTax(a: Tax, b: Tax, percent: real)
    requires AtRate(a, percent) && AtRate(b, percent)
    ensures a.amount + b.amount == a.full + b.full ==> a.full + b.full == 0.0
  {
    SplitsAdd(a.amount, a.untaxed, b.amount, b.untaxed, percent);
  }

  lemma MergedKeepsRate(a: Tax, b: Tax, r: Result<Tax>)
    requires TotalsOf(r, a, b)
    ensures forall percent :: AtRate(a, percent) && AtRate(b, percent) ==> MergedAt(r, percent)
  {
    forall percent | AtRate(a, percent) && AtRate(b, percent) ensures MergedAt(r, percent) {
      NotAllTax(a, b, percent);
      MergedSplit(a, b, r.value, percent);
    }
  }

  /** `mergeTaxes` of two: the totals, with the rate derived again. */
  function Merge(a: Tax, b: Tax): (r: Result<Tax>)
    ensures r.Success? ==> r.value.full == a.full + b.full && r.value.amount == a.amount + b.amount
    ensures forall percent :: AtRate(a, percent) && AtRate(b, percent) ==> MergedAt(r, percent)
  {
    var r := GenerateTax(a.full + b.full, None, Some(a.amount + b.amount));
    MergedKeepsRate(a, b, r);
    r
  }

  /** Merging one after the other, by any merging of two. */
  function Fold(merge: (Tax, Tax) -> Result<Tax>, taxes: seq<Tax>): Result<Tax>
    requires taxes != []
  {
    if |taxes| == 1 then Success(taxes[0])
    else
      var before := Fold(merge, taxes[..|taxes| - 1]);
      if before.Failure? then before else merge(before.value, taxes[|taxes| - 1])
  }

  /** All taxes of one rate merged one after the other, as `mergeTaxesByPercent` does within a group. */
  function MergeAll(taxes: seq<Tax>): Result<Tax>
    requires taxes != []
  {
    Fold(Merge, taxes)
  }

  function FullOf(taxes: seq<Tax>): real {
    if taxes == [] then 0.0 else FullOf(taxes[..|taxes| - 1]) + taxes[|taxes| - 1].full
  }

  function AmountOf(taxes: seq<Tax>): real {
    if taxes == [] then 0.0 else AmountOf(taxes[..|taxes| - 1]) + taxes[|taxes| - 1].amount
  }

  predicate UniformRate(taxes: seq<Tax>, percent: real) {
    forall k :: 0 <= k < |taxes| ==> AtRate(taxes[k], percent) && taxes[k].percent == percent
  }

  /**
   The merged tax holds the totals, split at the rate, and its derived percent is the rate unless it adds up to zero.
   */
  predicate MergesAtRate(taxes: seq<Tax>, percent: real)
    requires taxes != []
  {
    var merged := MergeAll(taxes);
    && merged.Success? && merged.value.full == FullOf(taxes) && merged.value.amount == AmountOf(taxes)
    && AtRate(merged.value, percent)
    && (merged.value.percent == percent <==> |taxes| == 1 || merged.value.amount != 0.0 || percent == 0.0)
  }

  /**
   Merging any taxes of one rate never fails, adds up full and tax amounts, and keeps the split at that rate. The
   derived percent is that rate exactly when the merged tax is not zero (or the rate is): two taxed amounts that
   cancel out come back with percent 0.
   */
  lemma {:induction false} MergePreservesRate(taxes: seq<Tax>, percent: real)
    requires taxes != [] && UniformRate(taxes, percent)
    ensures MergesAtRate(taxes, percent)
  {
    if |taxes| == 1 {
      assert taxes[..0] == [];
    } else {
      var init, last := taxes[..|taxes| - 1], taxes[|taxes| - 1];
      MergePreservesRate(init, percent);
      assert MergedAt(Merge(MergeAll(init).value, last), percent);
    }
  }

  /** In particular, positive amounts always come back at their rate. */
  lemma {:induction false} PositiveTaxesKeepRate(taxes: seq<Tax>, percent: real)
    requires taxes != [] && UniformRate(taxes, percent)
    requires forall k :: 0 <= k < |taxes| ==> taxes[k].full > 0.0
    ensures MergesToRate(taxes, percent)
  {
    MergePreservesRate(taxes, percent);
    PositiveFull(taxes);
    var t := MergeAll(taxes).value;
    if t.amount == 0.0 && percent != 0.0 { NoZeroFactors(percent, t.untaxed); }
  }

  predicate MergesToRate(taxes: seq<Tax>, percent: real)
    requires taxes != []
  {
    var merged := MergeAll(taxes);
    && merged.Success? && merged.value.percent == percent
    && merged.value.amount + merged.value.untaxed == FullOf(taxes) > 0.0
  }

  lemma {:induction false} PositiveFull(taxes: seq<Tax>)
    requires forall k :: 0 <= k < |taxes| ==> taxes[k].full > 0.0
    ensures taxes != [] ==> FullOf(taxes) > 0.0
    ensures FullOf(taxes) >= 0.0
  {
    if taxes != [] { PositiveFull(taxes[..|taxes| - 1]); }
  }

  /** A sale and its return at 10 percent, merged: the amounts cancel, and the rate is lost. */
  lemma ZeroTotalLosesRate()
    ensures var a := GenerateTax(11.0, Some(10.0), None); var b := GenerateTax(-11.0, Some(10.0), None);
      && a == Success(Tax(11.0, 10.0, 1.0, 10.0)) && b == Success(Tax(-11.0, 10.0, -1.0, -10.0))
      && Merge(a.value, b.value) == Success(Tax(0.0, 0.0, 0.0, 0.0))
  {
    assert 10.0 * 11.0 == 110.0 && 10.0 * -11.0 == -110.0;
    assert TaxAmount(11.0, 10.0) == Success(1.0) && TaxAmount(-11.0, 10.0) == Success(-1.0);
  }

  // ---- Grouping by percent

  /** A group of the mapping object: its key, and the tax merged so far. */
  datatype TaxGroup = TaxGroup(key: real, tax: Tax)

  function TaxRow(t: Tax): Row<real> { Row(t.percent, Money(t.full, t.amount)) }

  function TaxRows(taxes: seq<Tax>): (rows: seq<Row<real>>)
    ensures |rows| == |taxes| && forall k :: 0 <= k < |rows| ==> rows[k] == TaxRow(taxes[k])
  {
    seq(|taxes|, k requires 0 <= k < |taxes| => TaxRow(taxes[k]))
  }

  function GroupRows(groups: seq<TaxGroup>): (rows: seq<Row<real>>)
    ensures |rows| == |groups|
    ensures forall k :: 0 <= k < |rows| ==>
      rows[k] == Row(groups[k].key, Money(groups[k].tax.full, groups[k].tax.amount))
  {
    seq(|groups|, k requires 0 <= k < |groups| => Row(groups[k].key, Money(groups[k].tax.full, groups[k].tax.amount)))
  }

  predicate AllAtRate(taxes: seq<Tax>) {
    forall k :: 0 <= k < |taxes| ==> AtRate(taxes[k], taxes[k].percent)
  }

  /** The taxes with this percent, in order. */
  function TaxesAt(taxes: seq<Tax>, percent: real): seq<Tax> {
    if taxes == [] then []
    else
      var last := taxes[|taxes| - 1];
      TaxesAt(taxes[..|taxes| - 1], percent) + if last.percent == percent then [last] else []
  }

  lemma {:induction false} TaxesAtUniform(taxes: seq<Tax>, percent: real)
    requires AllAtRate(taxes)
    ensures UniformRate(TaxesAt(taxes, percent), percent)
  {
    if taxes != [] { TaxesAtUniform(taxes[..|taxes| - 1], percent); }
  }

  lemma {:induction false} NoTaxesAt(taxes: seq<Tax>, percent: real)
    requires !HasKey(TaxRows(taxes), percent)
    ensures TaxesAt(taxes, percent) == []
  {
    if taxes != [] {
      var rows := TaxRows(taxes);
      assert rows[|taxes| - 1].key != percent;
      assert TaxRows(taxes[..|taxes| - 1]) == rows[..|taxes| - 1];
      NoTaxesAt(taxes[..|taxes| - 1], percent);
    }
  }

  /** A group holds the merge of the taxes at its rate. */
  predicate Holds(merge: (Tax, Tax) -> Result<Tax>, g: TaxGroup, taxes: seq<Tax>) {
    TaxesAt(taxes, g.key) != [] && Fold(merge, TaxesAt(taxes, g.key)) == Success(g.tax)
  }

  predicate AllHold(merge: (Tax, Tax) -> Result<Tax>, groups: seq<TaxGroup>, taxes: seq<Tax>) {
    forall k :: 0 <= k < |groups| ==> Holds(merge, groups[k], taxes)
  }

  /** One group per rate, in order of appearance, holding the full and tax amounts of the taxes at that rate. */
  predicate GroupsOf(groups: seq<TaxGroup>, taxes: seq<Tax>) {
    GroupRows(groups) == Grouped(TaxRows(taxes))
  }

  lemma GroupsAddUp(groups: seq<TaxGroup>, taxes: seq<Tax>)
    requires GroupsOf(groups, taxes)
    ensures Distinct(RowKeys(GroupRows(groups))) && MoneyOf(GroupRows(groups)) == MoneyOf(TaxRows(taxes))
  {
    GroupedIsSound(TaxRows(taxes));
  }

  /** The callback of the grouping: merge into the group of the rate, or open one. */
  function AddTax(merge: (Tax, Tax) -> Result<Tax>, groups: seq<TaxGroup>, t: Tax): Result<seq<TaxGroup>> {
    if !HasKey(GroupRows(groups), t.percent) then Success(groups + [TaxGroup(t.percent, t)])
    else
      var j := KeyIndex(GroupRows(groups), t.percent);
      var merged := merge(groups[j].tax, t);
      if merged.Failure? then Failure(merged.error) else Success(groups[j := TaxGroup(t.percent, merged.value)])
  }

  lemma AddTaxAdds(groups: seq<TaxGroup>, t: Tax)
    ensures AddTax(Merge, groups, t).Success? ==>
      GroupRows(AddTax(Merge, groups, t).value) == AddTo(GroupRows(groups), TaxRow(t))
  {
  }

  lemma TaxesAtSnoc(taxes: seq<Tax>, t: Tax, percent: real)
    ensures TaxesAt(taxes + [t], percent) == TaxesAt(taxes, percent) + if t.percent == percent then [t] else []
  {
    assert (taxes + [t])[..|taxes|] == taxes;
  }

  lemma KeysAgree(groups: seq<TaxGroup>, taxes: seq<Tax>, percent: real)
    requires GroupsOf(groups, taxes)
    ensures Distinct(RowKeys(GroupRows(groups)))
    ensures HasKey(GroupRows(groups), percent) <==> HasKey(TaxRows(taxes), percent)
  {
    GroupedIsSound(TaxRows(taxes));
  }

  /** The merge of the taxes at one rate, with one more of them. */
  lemma FoldOneMore(merge: (Tax, Tax) -> Result<Tax>, taxes: seq<Tax>, t: Tax)
    ensures var at, more := TaxesAt(taxes, t.percent), TaxesAt(taxes + [t], t.percent);
      && more != [] && (at == [] ==> Fold(merge, more) == Success(t))
      && (at != [] && Fold(merge, at).Success? ==> Fold(merge, more) == merge(Fold(merge, at).value, t))
  {
    var at := TaxesAt(taxes, t.percent);
    TaxesAtSnoc(taxes, t, t.percent);
    assert (at + [t])[..|at|] == at;
  }

  /** The group of the tax's own rate. */
  lemma AddTaxToOwn(merge: (Tax, Tax) -> Result<Tax>, groups: seq<TaxGroup>, taxes: seq<Tax>, t: Tax)
    requires AllHold(merge, groups, taxes)
    requires HasKey(GroupRows(groups), t.percent) <==> HasKey(TaxRows(taxes), t.percent)
    ensures var fold := Fold(merge, TaxesAt(taxes + [t], t.percent)); var added := AddTax(merge, groups, t);
      && (added.Failure? <==> fold.Failure?)
      && (added.Success? ==> OwnGroup(added.value, groups, TaxGroup(t.percent, fold.value)))
  {
    FoldOneMore(merge, taxes, t);
    if HasKey(GroupRows(groups), t.percent) {
      assert Holds(merge, groups[KeyIndex(GroupRows(groups), t.percent)], taxes);
    } else {
      NoTaxesAt(taxes, t.percent);
    }
  }

  /** The groups with this one added, or put in the place of the one with its key. */
  predicate OwnGroup(after: seq<TaxGroup>, before: seq<TaxGroup>, own: TaxGroup) {
    || (after == before + [own] && !HasKey(GroupRows(before), own.key))
    || exists j :: 0 <= j < |before| && before[j].key == own.key && after == before[j := own]
  }

  /** One more tax: its group holds one more, the others hold what they held; it fails exactly when that merge does. */
  lemma AddTaxHolds(merge: (Tax, Tax) -> Result<Tax>, groups: seq<TaxGroup>, taxes: seq<Tax>, t: Tax)
    requires AllHold(merge, groups, taxes) && GroupsOf(groups, taxes)
    ensures TaxesAt(taxes + [t], t.percent) != []
    ensures AddTax(merge, groups, t).Failure? <==> Fold(merge, TaxesAt(taxes + [t], t.percent)).Failure?
    ensures AddTax(merge, groups, t).Success? ==> AllHold(merge, AddTax(merge, groups, t).value, taxes + [t])
  {
    KeysAgree(groups, taxes, t.percent);
    FoldOneMore(merge, taxes, t);
    AddTaxToOwn(merge, groups, taxes, t);
    AddTaxOthers(merge, groups, taxes, t);
    if AddTax(merge, groups, t).Success? {
      NewGroupsHold(merge, AddTax(merge, groups, t).value, groups, taxes + [t], t);
    }
  }

  lemma NewGroupsHold(
    merge: (Tax, Tax) -> Result<Tax>, after: seq<TaxGroup>, before: seq<TaxGroup>, taxes: seq<Tax>, t: Tax)
    requires TaxesAt(taxes, t.percent) != [] && Fold(merge, TaxesAt(taxes, t.percent)).Success?
    requires OwnGroup(after, before, TaxGroup(t.percent, Fold(merge, TaxesAt(taxes, t.percent)).value))
    requires forall k :: 0 <= k < |before| && before[k].key != t.percent ==> Holds(merge, before[k], taxes)
    requires forall j, k :: 0 <= j < |before| && 0 <= k < |before| && before[j].key == before[k].key ==> j == k
    ensures AllHold(merge, after, taxes)
  {
  }

  lemma AddTaxOthers(merge: (Tax, Tax) -> Result<Tax>, groups: seq<TaxGroup>, taxes: seq<Tax>, t: Tax)
    requires AllHold(merge, groups, taxes) && Distinct(RowKeys(GroupRows(groups)))
    ensures forall k :: 0 <= k < |groups| && groups[k].key != t.percent ==> Holds(merge, groups[k], taxes + [t])
    ensures forall j, k :: 0 <= j < |groups| && 0 <= k < |groups| && groups[j].key == groups[k].key ==> j == k
  {
    forall k | 0 <= k < |groups| && groups[k].key != t.percent ensures Holds(merge, groups[k], taxes + [t]) {
      TaxesAtSnoc(taxes, t, groups[k].key);
      assert Holds(merge, groups[k], taxes);
      assert TaxesAt(taxes, groups[k].key) + [] == TaxesAt(taxes, groups[k].key);
    }
    forall j, k | 0 <= j < |groups| && 0 <= k < |groups| && groups[j].key == groups[k].key ensures j == k {
      assert RowKeys(GroupRows(groups))[j] == RowKeys(GroupRows(groups))[k];
    }
  }

  /**
   `mergeTaxesByPercent`: one group per rate, each the merge of the taxes at that rate, together adding up to all
   taxes. Taxes split at their own rates always merge.
   */
  method MergeTaxesByPercent(taxes: seq<Tax>) returns (r: Result<seq<TaxGroup>>)
    ensures r.Success? ==> GroupsOf(r.value, taxes) && AllHold(Merge, r.value, taxes)
    ensures AllAtRate(taxes) ==> r.Success?
  {
    var groups: seq<TaxGroup> := [];
    for i := 0 to |taxes|
      invariant GroupsOf(groups, taxes[..i]) && AllHold(Merge, groups, taxes[..i])
    {
      assert taxes[..i + 1] == taxes[..i] + [taxes[i]];
      AddTaxHolds(Merge, groups, taxes[..i], taxes[i]);
      AddTaxAdds(groups, taxes[i]);
      assert TaxRows(taxes[..i + 1])[..i] == TaxRows(taxes[..i]);
      if AllAtRate(taxes) {
        TaxesAtUniform(taxes[..i + 1], taxes[i].percent);
        MergePreservesRate(TaxesAt(taxes[..i + 1], taxes[i].percent), taxes[i].percent);
      }
      var added := AddTax(Merge, groups, taxes[i]);
      if added.Failure? {
        return Failure(added.error);
      }
      groups := added.value;
    }
    assert taxes[..|taxes|] == taxes;
    return Success(groups);
  }
}
