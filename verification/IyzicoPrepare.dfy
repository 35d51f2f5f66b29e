/**
 Preparing an iyzico refund: every requested original line becomes a plan line whose provider amount is the nominal
 amount rounded to whole cents under the configured mode.
 */
module IyzicoPrepare {
  import opened Wrappers
  import opened Sums
  import opened RefundSplit
  import opened RefundPlan
  import opened RefundRounding
  import opened RefundSettlement
  import opened IyzicoRefund
  import Form = IyzicoCheckout

  /** A capture as the core offers it to the channel. */
  datatype Source = Source(channelId: string, operationId: string, channelOperationId: string, amount: int)

  /** A requested line; the nominal amount is absent when its text is not digits with exactly four decimals. */
  datatype RequestedItem = RequestedItem(itemId: string, nominal: Option<nat>)

  datatype PrepareRequest = PrepareRequest(
    purchaseId: string, purchaseAmount: int, currency: string, captures: seq<Source>, items: seq<RequestedItem>)

  predicate MatchingCapture(q: PrepareRequest, operation: Option<Form.Checkout>) {
    && |q.captures| == 1 && q.captures[0].channelId == CHANNEL && q.captures[0].amount == q.purchaseAmount
    && q.items != []
    && operation.Some?
    && var c := operation.value;
       && c.paymentId == q.purchaseId && c.currency == q.currency && c.status == COMPLETED
       && c.amount == q.purchaseAmount && c.transactions.Some? && c.transactions.value != []
  }

  predicate Priced(itemId: string, nominal: int, ts: seq<Form.ItemTransaction>) {
    exists k :: 0 <= k < |ts| && ts[k].itemId == itemId && nominal <= ts[k].price
  }

  predicate WithinPrice(item: RequestedItem, ts: seq<Form.ItemTransaction>) {
    item.nominal.Some? && Priced(item.itemId, item.nominal.value, ts)
  }

  function ProviderFor(item: RequestedItem, mode: RoundingMode): Result<int> {
    if item.nominal.None? then Failure(BadRequest) else RefundProviderAmount(Decimal(item.nominal.value, 4), mode)
  }

  predicate Plannable(item: RequestedItem, ts: seq<Form.ItemTransaction>, mode: RoundingMode) {
    WithinPrice(item, ts) && ProviderFor(item, mode).Success?
  }

  function LineFor(item: RequestedItem, mode: RoundingMode): PlanLine
    requires ProviderFor(item, mode).Success?
  {
    PlanLine(item.itemId, item.nominal.value, ProviderFor(item, mode).value)
  }

  function RequestedIds(items: seq<RequestedItem>): (ids: seq<string>)
    ensures |ids| == |items| && forall k :: 0 <= k < |ids| ==> ids[k] == items[k].itemId
  {
    seq(|items|, k requires 0 <= k < |items| => items[k].itemId)
  }

  lemma FourDigits(n: nat)
    ensures FourDecimals(Decimal(n, 4)) && Units(Decimal(n, 4)) == n
  {
    assert Pow10(4) == 10000;
  }

  /** A plan line keeps identity and nominal amount, and differs from it only as the rounding mode allows. */
  predicate LineFollows(line: PlanLine, item: RequestedItem, mode: RoundingMode) {
    && line.itemId == item.itemId && Some(line.nominal) == item.nominal && line.nominal > 0
    && line.provider > 0 && line.provider % 100 == 0 && Allowed(mode, line.provider - line.nominal)
  }

  predicate Follows(lines: seq<PlanLine>, items: seq<RequestedItem>, mode: RoundingMode) {
    |lines| <= |items| && forall k :: 0 <= k < |lines| ==> LineFollows(lines[k], items[k], mode)
  }

  lemma LineForFollows(item: RequestedItem, mode: RoundingMode)
    requires ProviderFor(item, mode).Success?
    ensures LineFollows(LineFor(item, mode), item, mode)
  {
    FourDigits(item.nominal.value);
  }

  method Prepare(q: PrepareRequest, operation: Option<Form.Checkout>, mode: RoundingMode) returns (r: Result<Plan>)
    ensures r.Success? <==>
      && |q.captures| == 1 && q.captures[0].channelId == CHANNEL && q.captures[0].amount == q.purchaseAmount
      && operation.Some? && operation.value.paymentId == q.purchaseId && operation.value.currency == q.currency
      && operation.value.status == COMPLETED && operation.value.amount == q.purchaseAmount
      && operation.value.transactions.Some? && operation.value.transactions.value != []
      && q.items != [] && Distinct(RequestedIds(q.items))
      && forall k :: 0 <= k < |q.items| ==>
           && q.items[k].nominal.Some? && RefundProviderAmount(Decimal(q.items[k].nominal.value, 4), mode).Success?
           && Priced(q.items[k].itemId, q.items[k].nominal.value, operation.value.transactions.value)
    ensures r.Success? ==>
      && r.value.captureId == q.captures[0].operationId
      && r.value.channelOperationId == Some(q.captures[0].channelOperationId)
      && |r.value.lines| == |q.items| && Follows(r.value.lines, q.items, mode) && SoundLines(r.value.lines)
      && RoundedUnder(r.value.lines, mode)
  {
    if !MatchingCapture(q, operation) {
      return Failure(BadRequest);
    }
    var ts := operation.value.transactions.value;
    var lines: seq<PlanLine> := [];
    for i := 0 to |q.items|
      invariant forall k :: 0 <= k < i ==>
        && q.items[k].nominal.Some? && RefundProviderAmount(Decimal(q.items[k].nominal.value, 4), mode).Success?
        && Priced(q.items[k].itemId, q.items[k].nominal.value, ts)
      invariant |lines| == i && Follows(lines, q.items, mode)
    {
      if !Plannable(q.items[i], ts, mode) {
        return Failure(BadRequest);
      }
      LineForFollows(q.items[i], mode);
      lines := lines + [LineFor(q.items[i], mode)];
    }
    SameIds(lines, q.items, mode);
    if !Distinct(ItemIds(lines)) {
      return Failure(BadRequest);
    }
    return Success(Plan(q.captures[0].operationId, Some(q.captures[0].channelOperationId), None, lines));
  }

  lemma SameIds(lines: seq<PlanLine>, items: seq<RequestedItem>, mode: RoundingMode)
    requires |lines| == |items| && Follows(lines, items, mode)
    ensures ItemIds(lines) == RequestedIds(items)
    ensures RoundedUnder(lines, mode)
    ensures items != [] && Distinct(RequestedIds(items)) ==> SoundLines(lines)
  {
    forall k | 0 <= k < |lines|
      ensures ItemIds(lines)[k] == RequestedIds(items)[k] && lines[k].nominal > 0 && lines[k].provider > 0 {
      assert LineFollows(lines[k], items[k], mode);
    }
    assert ItemIds(lines) == RequestedIds(items);
  }

  /** The message of a refund whose plan was prepared here: the core fills in the rest, and names the same items. */
  predicate CarriesPlan(m: Message, items: seq<RequestedItem>) {
    && m.isRefund && !m.isOpen && m.refundId != "" && m.paymentId != "" && m.sourceId != ""
    && m.planSourceId == m.sourceId && m.captureChannel == CHANNEL && m.captureCurrency == m.currency
    && m.paidAmount == m.totalAmount == Nominal(m.lines)
    && m.mode.Some? && |m.lines| == |items| && Follows(m.lines, items, m.mode.value)
    && (m.items.Some? ==>
          && |m.items.value| == |m.lines|
          && forall k :: 0 <= k < |m.lines| ==>
               m.items.value[k] == RequestLine(m.lines[k].itemId, m.lines[k].nominal))
  }

  /** What was prepared is never refused by the validation. */
  lemma PreparedMessageIsValid(m: Message, items: seq<RequestedItem>)
    requires CarriesPlan(m, items) && items != [] && Distinct(RequestedIds(items))
    requires forall k :: 0 <= k < |items| ==> items[k].itemId != ""
    ensures ValidMessage(m)
  {
    SameIds(m.lines, items, m.mode.value);
    forall k | 0 <= k < |m.lines| ensures
      m.lines[k].itemId != "" && m.lines[k].nominal > 0 && m.lines[k].provider > 0 && m.lines[k].provider % 100 == 0 {
      assert LineFollows(m.lines[k], items[k], m.mode.value);
    }
    if m.items.Some? { SameItemsMatch(m.lines, m.items.value); }
  }

  lemma SameItemsMatch(lines: seq<PlanLine>, items: seq<RequestLine>)
    requires |items| == |lines| && Distinct(ItemIds(lines))
    requires forall k :: 0 <= k < |lines| ==> items[k] == RequestLine(lines[k].itemId, lines[k].nominal)
    ensures MatchesItems(lines, items)
  {
    assert Keys(RequestPairs(items)) == ItemIds(lines);
    forall k | 0 <= k < |lines| ensures FindLine(lines, items[k].itemId) == Some(lines[k]) {
      var line := FindLine(lines, items[k].itemId);
      assert ItemIds(lines)[k] == lines[k].itemId;
      var j :| 0 <= j < |lines| && lines[j] == line.value;
      assert ItemIds(lines)[j] == ItemIds(lines)[k];
    }
  }

  // ---- From plan to reservation

  /**
   A prepared plan against a capture nobody has refunded yet is reserved exactly when no rounded amount exceeds what
   was paid for its item: preparing compares only nominal amounts with prices.
   */
  lemma FirstPlanFits(lines: seq<PlanLine>, sourceId: string, ts: seq<Form.ItemTransaction>)
    requires Distinct(Keys(Form.PricePairs(ts)))
    requires forall k :: 0 <= k < |lines| ==> Priced(lines[k].itemId, lines[k].nominal, ts)
    ensures AllFit([], sourceId, ts, lines) <==>
      forall k, j :: 0 <= k < |lines| && 0 <= j < |ts| && ts[j].itemId == lines[k].itemId ==>
        lines[k].provider <= ts[j].paidPrice
  {
    var keys := Keys(Form.PricePairs(ts));
    forall k, j | 0 <= k < |lines| && 0 <= j < |ts| && ts[j].itemId == lines[k].itemId
      ensures FindTransaction(ts, lines[k].itemId) == Some(ts[j]) {
      var t := FindTransaction(ts, lines[k].itemId).value;
      var i :| 0 <= i < |ts| && ts[i] == t;
      assert keys[i] == keys[j];
      assert i == j;
    }
  }

  /** When every item was paid at its whole-cent price, a first prepared plan always fits, under every mode. */
  lemma RoundedPlanFits(
    lines: seq<PlanLine>, items: seq<RequestedItem>, mode: RoundingMode, sourceId: string,
    ts: seq<Form.ItemTransaction>)
    requires |lines| == |items| && Follows(lines, items, mode)
    requires forall k :: 0 <= k < |items| ==> WithinPrice(items[k], ts)
    requires Distinct(Keys(Form.PricePairs(ts)))
    requires forall j :: 0 <= j < |ts| ==> ts[j].paidPrice == ts[j].price && ts[j].price % 100 == 0
    ensures AllFit([], sourceId, ts, lines)
  {
    var keys := Keys(Form.PricePairs(ts));
    forall k | 0 <= k < |lines|
      ensures Priced(lines[k].itemId, lines[k].nominal, ts) {
      assert LineFollows(lines[k], items[k], mode) && WithinPrice(items[k], ts);
    }
    FirstPlanFits(lines, sourceId, ts);
    forall k, j | 0 <= k < |lines| && 0 <= j < |ts| && ts[j].itemId == lines[k].itemId
      ensures lines[k].provider <= ts[j].paidPrice {
      var i :| 0 <= i < |ts| && ts[i].itemId == lines[k].itemId && lines[k].nominal <= ts[i].price;
      assert keys[i] == keys[j];
      assert i == j && LineFollows(lines[k], items[k], mode);
      WholeCents(lines[k].provider, ts[j].price, lines[k].nominal);
    }
  }

  /** Rounding never steps over a whole cent. */
  lemma WholeCents(rounded: int, limit: int, nominal: int)
    requires rounded % 100 == 0 && limit % 100 == 0 && rounded - nominal < 100 && nominal <= limit
    ensures rounded <= limit
  {
  }

  // ---- Prepared, and then refused

  const PAID_APART: seq<Form.ItemTransaction> := [
    Form.ItemTransaction("a", "t", 10000, 9000), Form.ItemTransaction("b", "u", 10000, 11000)]

  const CAPTURE: Form.Checkout := Form.Checkout(
    "c", "p", "TRY", 20000, COMPLETED, Form.INITIALIZED, Some("token"), Some("paid"),
    [Form.BasketLine("a", 10000), Form.BasketLine("b", 10000)], Some(PAID_APART), true, Form.NotCancelled)

  const WHOLE_ITEM: PrepareRequest := PrepareRequest(
    "p", 20000, "TRY", [Source(CHANNEL, "o", "c", 20000)], [RequestedItem("a", Some(10000))])

  lemma PaidApartIsSound()
    ensures Form.SoundRow(CAPTURE)
  {
    var basket, paid := Form.BasketPairs(CAPTURE.basket), Form.PaidPairs(PAID_APART);
    assert basket == [("a", 10000), ("b", 10000)] && basket[1..] == [("b", 10000)] && basket[1..][1..] == [];
    assert paid == [("a", 9000), ("b", 11000)] && paid[1..] == [("b", 11000)] && paid[1..][1..] == [];
    assert Keys(basket)[0] != Keys(basket)[1];
    assert Keys(Form.PricePairs(PAID_APART))[0] != Keys(Form.PricePairs(PAID_APART))[1];
    assert Form.TransactionIds(PAID_APART)[0] != Form.TransactionIds(PAID_APART)[1];
    assert PAID_APART[0].itemId == "a" && PAID_APART[1].itemId == "b";
  }

  lemma WholeItemIsPlannable()
    ensures Plannable(WHOLE_ITEM.items[0], PAID_APART, THROW)
    ensures LineFor(WHOLE_ITEM.items[0], THROW) == PlanLine("a", 10000, 10000)
  {
    FourDigits(10000);
    assert PAID_APART[0].itemId == "a";
    RoundedIsUnique(10000, THROW, 10000);
  }

  /**
   Two items of 1.00 in one sound capture, of which the provider attributes 0.90 and 1.10: refunding the first in full
   is prepared, and its plan is then refused by the reservation.
   */
  lemma PreparedCanBeRefused()
    ensures Form.SoundRow(CAPTURE) && MatchingCapture(WHOLE_ITEM, Some(CAPTURE))
      && Distinct(RequestedIds(WHOLE_ITEM.items))
    ensures forall k :: 0 <= k < |WHOLE_ITEM.items| ==> Plannable(WHOLE_ITEM.items[k], PAID_APART, THROW)
    ensures var lines := [LineFor(WHOLE_ITEM.items[0], THROW)];
      && !AllFit([], "c", PAID_APART, lines)
      && Reservation(map["c" := CAPTURE], [], Request("r", "p", "c", "TRY", THROW, lines)) == Failure(BadRequest)
  {
    PaidApartIsSound();
    WholeItemIsPlannable();
    var line := LineFor(WHOLE_ITEM.items[0], THROW);
    assert FindTransaction(PAID_APART, "a") == Some(PAID_APART[0]);
    assert !LineFits([], "c", line, PAID_APART[0]);
    assert [line][0] == line;
  }
}
