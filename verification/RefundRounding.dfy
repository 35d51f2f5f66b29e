/**
 The provider pays whole cents. How a nominal amount of up to four decimals becomes one, and how far the rounding of a
 whole refund can go. One cent is 100 units of 1e-4.
 */
module RefundRounding {
  import opened Wrappers
  import opened Sums
  import opened RefundPlan
  import opened RefundSettlement

  /** `FLOOR` is the configured name of upward rounding. */
  datatype RoundingMode = ROUND | FLOOR | USE_FIRST_TWO | THROW

  /** A decimal as written: `coefficient` divided by ten to the `scale`. */
  datatype Decimal = Decimal(coefficient: int, scale: nat)

  function Pow10(n: nat): (r: int)
    ensures r > 0
  {
    if n == 0 then 1 else 10 * Pow10(n - 1)
  }

  predicate FourDecimals(d: Decimal) { (d.coefficient * 10000) % Pow10(d.scale) == 0 }

  function Units(d: Decimal): int
    requires FourDecimals(d)
  {
    d.coefficient * 10000 / Pow10(d.scale)
  }

  /** What a mode may add to an amount. */
  predicate Allowed(mode: RoundingMode, difference: int) {
    match mode
    case ROUND => -50 < difference <= 50
    case FLOOR => 0 <= difference < 100
    case USE_FIRST_TWO => -100 < difference <= 0
    case THROW => difference == 0
  }

  /** The whole cents a mode rounds to: exactly one multiple of a cent is allowed (see `RoundedIsUnique`). */
  function Rounded(units: int, mode: RoundingMode): (r: int)
    requires units > 0
    ensures r % 100 == 0
    ensures mode != THROW ==> Allowed(mode, r - units)
    ensures mode == THROW ==> (r == units <==> units % 100 == 0)
  {
    match mode
    case ROUND => (units + 50) / 100 * 100
    case FLOOR => (units + 99) / 100 * 100
    case USE_FIRST_TWO => units / 100 * 100
    case THROW => units / 100 * 100
  }

  lemma RoundedIsUnique(units: int, mode: RoundingMode, r: int)
    requires units > 0 && r % 100 == 0 && Allowed(mode, r - units)
    ensures r == Rounded(units, mode)
  {
    assert r == r / 100 * 100;
    var q := Rounded(units, mode);
    assert q == q / 100 * 100;
    assert -100 < r - q < 100;
  }

  function RefundProviderAmount(amount: Decimal, mode: RoundingMode): (r: Result<int>)
    ensures r.Success? <==>
      && amount.coefficient > 0 && FourDecimals(amount)
      && (mode == THROW ==> Units(amount) % 100 == 0)
      && (mode == ROUND ==> Units(amount) >= 50)
      && (mode == USE_FIRST_TWO ==> Units(amount) >= 100)
    ensures r.Success? ==> r.value > 0 && r.value % 100 == 0 && Allowed(mode, r.value - Units(amount))
    ensures r.Failure? ==> r.error == BadRequest
  {
    if amount.coefficient <= 0 then Failure(BadRequest)
    else if !FourDecimals(amount) then Failure(BadRequest)
    else
      var units := Units(amount);
      UnitsPositive(amount);
      if mode == THROW && units % 100 != 0 then Failure(BadRequest)
      else if Rounded(units, mode) <= 0 then Failure(BadRequest)
      else Success(Rounded(units, mode))
  }

  lemma UnitsPositive(amount: Decimal)
    requires amount.coefficient > 0 && FourDecimals(amount)
    ensures Units(amount) > 0
  {
    var n, d := amount.coefficient * 10000, Pow10(amount.scale);
    assert (n / d) * d == n > 0;
  }

  // ---- The rounding of a whole refund

  /** Every line of the plan was rounded under this mode. */
  predicate RoundedUnder(plan: seq<PlanLine>, mode: RoundingMode) {
    forall k :: 0 <= k < |plan| ==> Allowed(mode, plan[k].provider - plan[k].nominal)
  }

  /** The least and the greatest net rounding of `n` lines. */
  function Least(mode: RoundingMode, n: nat): int {
    match mode case ROUND => -50 * n case FLOOR => 0 case USE_FIRST_TWO => -99 * n case THROW => 0
  }

  function Greatest(mode: RoundingMode, n: nat): int {
    match mode case ROUND => 50 * n case FLOOR => 99 * n case USE_FIRST_TWO => 0 case THROW => 0
  }

  lemma {:induction false} DifferenceBounded(op: Operation, mode: RoundingMode, settled: seq<string>)
    requires Distinct(ItemIds(op.plan)) && RoundedUnder(op.plan, mode)
    requires forall id :: id in settled ==> id in ItemIds(op.plan)
    ensures Least(mode, |settled|) <= Difference(op.plan, settled) <= Greatest(mode, |settled|)
  {
    if settled == [] {
      assert GroupTotals(DifferencePairs(op.plan), settled) == [];
    } else {
      var before, id := settled[..|settled| - 1], settled[|settled| - 1];
      DifferenceBounded(op, mode, before);
      assert settled == before + [id];
      GroupTotalsSnoc(DifferencePairs(op.plan), before, id);
      LineDifference(op, id);
      var line := LineOf(op, id);
      assert exists k :: 0 <= k < |op.plan| && op.plan[k] == line;
      assert Allowed(mode, line.provider - line.nominal);
    }
  }

  /** The net rounding a consistent book posts to the customer is within what the mode allows its settled lines. */
  lemma BookExposure(book: Book, customer: Option<string>, mode: RoundingMode)
    requires Consistent(book, customer) && customer.Some? && RoundedUnder(book.operation.plan, mode)
    ensures var n := |book.operation.settled|;
      n <= |book.operation.plan| && Least(mode, n) <= Net(book.ledger, customer) <= Greatest(mode, n)
  {
    var op := book.operation;
    ConsistentConserves(book, customer);
    DifferenceBounded(op, mode, op.settled);
    DistinctCardinality(op.settled);
    DistinctCardinality(ItemIds(op.plan));
    SubsetSize(Elements(op.settled), Elements(ItemIds(op.plan)));
  }

  /**
   The net rounding posted to the customer after any history: nothing under THROW, at most half a cent per settled
   line under ROUND, and less than a cent per line, never against the customer under FLOOR and never in their favour
   under USE_FIRST_TWO.
   */
  lemma RoundingExposure(book: Book, d: Directory, deliveries: seq<Delivery>, mode: RoundingMode)
    requires Fresh(book) && d.customer.Some? && RoundedUnder(book.operation.plan, mode)
    ensures var end := History(book, d, deliveries); var n := |end.operation.settled|;
      && n <= |book.operation.plan|
      && Least(mode, n) <= Net(end.ledger, d.customer) <= Greatest(mode, n)
  {
    HistoryKeeps(book, d, deliveries);
    BookExposure(History(book, d, deliveries), d.customer, mode);
  }
}
