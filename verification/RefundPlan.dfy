/**
 Channel refund plans: which lines a channel pays back against which capture, with the nominal amount the ledger
 uses and the amount the provider will move.
 */
module RefundPlan {
  import opened Wrappers
  import opened Sums
  import opened RefundSplit

  datatype RequestLine = RequestLine(itemId: string, nominal: int)

  datatype PlanLine = PlanLine(itemId: string, nominal: int, provider: int)

  datatype Plan = Plan(
    captureId: string, channelOperationId: Option<string>, roundingAccount: Option<string>, lines: seq<PlanLine>)

  /** A plan as one channel returned it. */
  datatype Offer = Offer(channelId: string, plan: Plan)

  function RequestPairs(lines: seq<RequestLine>): (ps: seq<Pair>)
    ensures |ps| == |lines| && forall k :: 0 <= k < |lines| ==> ps[k] == (lines[k].itemId, lines[k].nominal)
  {
    seq(|lines|, k requires 0 <= k < |lines| => (lines[k].itemId, lines[k].nominal))
  }

  function NominalPairs(lines: seq<PlanLine>): (ps: seq<Pair>)
    ensures |ps| == |lines| && forall k :: 0 <= k < |lines| ==> ps[k] == (lines[k].itemId, lines[k].nominal)
  {
    seq(|lines|, k requires 0 <= k < |lines| => (lines[k].itemId, lines[k].nominal))
  }

  function ItemIds(lines: seq<PlanLine>): seq<string> { Keys(NominalPairs(lines)) }

  function Nominal(lines: seq<PlanLine>): int { Total(NominalPairs(lines)) }

  /** The lines of all plans, one after the other. */
  function PlannedPairs(plans: seq<Plan>): seq<Pair> {
    if plans == [] then [] else NominalPairs(plans[0].lines) + PlannedPairs(plans[1..])
  }

  // ---- What the core demands of the channels

  predicate ValidRequest(lines: seq<RequestLine>) {
    && lines != [] && Distinct(Keys(RequestPairs(lines)))
    && forall k :: 0 <= k < |lines| ==> lines[k].nominal > 0
  }

  predicate LineRequested(line: PlanLine, lines: seq<RequestLine>) {
    exists k :: 0 <= k < |lines| && lines[k].itemId == line.itemId && lines[k].nominal >= line.nominal
  }

  predicate ValidLines(planLines: seq<PlanLine>, lines: seq<RequestLine>) {
    && planLines != [] && Distinct(ItemIds(planLines))
    && forall k :: 0 <= k < |planLines| ==>
         planLines[k].nominal > 0 && planLines[k].provider > 0 && LineRequested(planLines[k], lines)
  }

  predicate ValidSource(offer: Offer, captures: seq<Capture>) {
    exists k :: 0 <= k < |captures| && captures[k].id == offer.plan.captureId
      && captures[k].channelId == offer.channelId
      && captures[k].channelOperationId == offer.plan.channelOperationId
  }

  predicate ValidOffer(offer: Offer, captures: seq<Capture>, lines: seq<RequestLine>) {
    ValidSource(offer, captures) && ValidLines(offer.plan.lines, lines)
  }

  predicate DistinctCaptures(plans: seq<Plan>) {
    forall i, j :: 0 <= i < j < |plans| ==> plans[i].captureId != plans[j].captureId
  }

  predicate WithinRequest(plans: seq<Plan>, lines: seq<RequestLine>) {
    forall k :: 0 <= k < |lines| ==> TotalFor(PlannedPairs(plans), lines[k].itemId) <= lines[k].nominal
  }

  predicate PlanMatches(plan: Plan, allocation: Allocation) {
    && allocation.capture.id == plan.captureId
    && plan.channelOperationId == allocation.capture.channelOperationId
    && Nominal(plan.lines) == allocation.amount
  }

  /** `validateRefundPlanAllocations`: one plan per capture, each worth exactly that capture's share. */
  predicate MatchesAllocations(plans: seq<Plan>, allocations: seq<Allocation>) {
    && DistinctCaptures(plans)
    && forall p :: 0 <= p < |plans| ==> IsAllocated(plans[p], allocations)
  }

  predicate IsAllocated(plan: Plan, allocations: seq<Allocation>) {
    exists a :: 0 <= a < |allocations| && PlanMatches(plan, allocations[a])
  }

  function WithoutAccount(plan: Plan): Plan { plan.(roundingAccount := None) }

  function Offered(offers: seq<Offer>): (plans: seq<Plan>)
    ensures |plans| == |offers| && forall k :: 0 <= k < |plans| ==> plans[k] == WithoutAccount(offers[k].plan)
  {
    seq(|offers|, k requires 0 <= k < |offers| => WithoutAccount(offers[k].plan))
  }

  predicate NeedsRounding(plan: Plan) {
    exists k :: 0 <= k < |plan.lines| && plan.lines[k].nominal != plan.lines[k].provider
  }

  /** The core, not the channel, selects the account that bears the rounding. */
  function AssignAccounts(plans: seq<Plan>, account: Option<string>): (r: seq<Plan>)
    ensures |r| == |plans|
    ensures forall k :: 0 <= k < |r| ==>
      r[k] == if NeedsRounding(plans[k]) then plans[k].(roundingAccount := account) else plans[k]
  {
    seq(|plans|, k requires 0 <= k < |plans| =>
      if NeedsRounding(plans[k]) then plans[k].(roundingAccount := account) else plans[k])
  }

  lemma RequestIsPositive(lines: seq<RequestLine>)
    requires ValidRequest(lines)
    ensures Total(RequestPairs(lines)) > 0
  {
    var pairs := RequestPairs(lines);
    TotalIsSum(pairs);
    assert Amounts(pairs)[0] == lines[0].nominal;
    forall k | 0 <= k < |pairs| ensures Amounts(pairs)[k] >= 0 { assert pairs[k].1 == lines[k].nominal; }
    SumNonNegative(Amounts(pairs));
  }

  function RequestTotal(lines: seq<RequestLine>): (total: int)
    requires ValidRequest(lines)
    ensures total > 0
  {
    RequestIsPositive(lines);
    Total(RequestPairs(lines))
  }

  /** Everything `prepareRefundChannelPlan` checks of the channels' answers. */
  predicate PlansAccepted(
    offers: seq<Offer>, captures: seq<Capture>, previous: seq<RefundRow>, lines: seq<RequestLine>,
    billingAccount: Option<string>, customer: string)
    requires ValidRequest(lines)
  {
    var plans := Offered(offers);
    && (forall k :: 0 <= k < |offers| ==> ValidOffer(offers[k], captures, lines))
    && DistinctCaptures(plans)
    && WithinRequest(plans, lines)
    && (plans != [] ==>
          var shares := Allocations(captures, previous, RequestTotal(lines));
          shares.Success? && MatchesAllocations(plans, shares.value))
    && ((exists k :: 0 <= k < |plans| && NeedsRounding(plans[k])) ==>
          billingAccount.Some? && billingAccount.value != customer)
  }

  // ---- The preparation

  /** The purchase: whether it is a completed one, and what was paid for its lines. */
  datatype Purchased = Purchased(completed: bool, currency: string, customer: string, items: seq<RequestLine>)

  predicate Eligible(purchase: Purchased, captures: seq<Capture>) {
    && purchase.completed && captures != []
    && forall k :: 0 <= k < |captures| ==>
         captures[k].channelOperationId.Some? && captures[k].currency == purchase.currency
  }

  predicate LineBought(line: RequestLine, purchase: Purchased) {
    exists k :: 0 <= k < |purchase.items| && purchase.items[k].itemId == line.itemId
      && line.nominal <= purchase.items[k].nominal
  }

  /** Everything `prepareRefundChannelPlan` checks before it asks the channels. */
  predicate Preparable(purchase: Purchased, captures: seq<Capture>, lines: seq<RequestLine>) {
    && Eligible(purchase, captures) && ValidRequest(lines)
    && forall k :: 0 <= k < |lines| ==> LineBought(lines[k], purchase)
  }

  /**
   The checking loops of `prepareRefundChannelPlan`. `billingAccount` is the configured platform account when it is
   active, commercial and not external.
   */
  method PrepareRefundChannelPlan(
    purchase: Purchased, offers: seq<Offer>, captures: seq<Capture>, previous: seq<RefundRow>, lines: seq<RequestLine>,
    billingAccount: Option<string>)
    returns (r: Result<seq<Plan>>)
    ensures r == if Preparable(purchase, captures, lines)
                    && PlansAccepted(offers, captures, previous, lines, billingAccount, purchase.customer)
                 then Success(AssignAccounts(Offered(offers), billingAccount)) else Failure(BadRequest)
    ensures r.Success? ==>
      forall p :: 0 <= p < |r.value| ==> BearsRounding(r.value[p], billingAccount, purchase.customer)
  {
    if !Preparable(purchase, captures, lines) {
      return Failure(BadRequest);
    }
    var collected := CollectPlans(offers, captures, lines);
    if collected.Failure? {
      return collected;
    }
    var plans := collected.value;
    var within := CheckLimits(plans, lines);
    if !within {
      return Failure(BadRequest);
    }
    if plans != [] {
      var shares := RefundCaptureAllocations(captures, previous, RequestTotal(lines));
      if shares.Failure? || !MatchesAllocations(plans, shares.value) {
        return Failure(BadRequest);
      }
    }
    var needed := exists k :: 0 <= k < |plans| && NeedsRounding(plans[k]);
    if needed && (billingAccount.None? || billingAccount.value == purchase.customer) {
      return Failure(BadRequest);
    }
    AccountsBearRounding(plans, billingAccount, purchase.customer);
    return Success(AssignAccounts(plans, billingAccount));
  }

  /** A plan has an account for its rounding exactly if some line needs one, and never the customer's own. */
  predicate BearsRounding(plan: Plan, billingAccount: Option<string>, customer: string) {
    if forall k :: 0 <= k < |plan.lines| ==> plan.lines[k].provider == plan.lines[k].nominal
    then plan.roundingAccount.None?
    else plan.roundingAccount == billingAccount != None && plan.roundingAccount != Some(customer)
  }

  lemma AccountsBearRounding(plans: seq<Plan>, billingAccount: Option<string>, customer: string)
    requires forall p :: 0 <= p < |plans| ==> plans[p].roundingAccount.None?
    requires (exists p :: 0 <= p < |plans| && NeedsRounding(plans[p])) ==>
      billingAccount.Some? && billingAccount.value != customer
    ensures var r := AssignAccounts(plans, billingAccount);
      forall p :: 0 <= p < |r| ==> BearsRounding(r[p], billingAccount, customer)
  {
  }

  /** No requested line is planned for more than was asked. */
  method CheckLimits(plans: seq<Plan>, lines: seq<RequestLine>) returns (within: bool)
    ensures within == WithinRequest(plans, lines)
  {
    for i := 0 to |lines|
      invariant forall k :: 0 <= k < i ==> TotalFor(PlannedPairs(plans), lines[k].itemId) <= lines[k].nominal
    {
      if TotalFor(PlannedPairs(plans), lines[i].itemId) > lines[i].nominal {
        return false;
      }
    }
    return true;
  }

  /** The loop over the channels' answers: sources, lines, and no capture twice. */
  method CollectPlans(offers: seq<Offer>, captures: seq<Capture>, lines: seq<RequestLine>)
    returns (r: Result<seq<Plan>>)
    ensures r == if (forall k :: 0 <= k < |offers| ==> ValidOffer(offers[k], captures, lines))
                    && DistinctCaptures(Offered(offers))
                 then Success(Offered(offers)) else Failure(BadRequest)
  {
    var plans: seq<Plan> := [];
    for i := 0 to |offers|
      invariant plans == Offered(offers)[..i]
      invariant DistinctCaptures(plans)
      invariant forall k :: 0 <= k < i ==> ValidOffer(offers[k], captures, lines)
    {
      if !ValidOffer(offers[i], captures, lines)
         || exists k :: 0 <= k < |plans| && plans[k].captureId == offers[i].plan.captureId {
        assert !DistinctCaptures(Offered(offers)) || !ValidOffer(offers[i], captures, lines);
        return Failure(BadRequest);
      }
      plans := plans + [WithoutAccount(offers[i].plan)];
    }
    assert plans == Offered(offers);
    return Success(plans);
  }

  // ---- Exact coverage by squeeze

  lemma {:induction false} PlannedLinesAreRequested(plans: seq<Plan>, lines: seq<RequestLine>)
    requires forall p :: 0 <= p < |plans| ==> ValidLines(plans[p].lines, lines)
    ensures forall k :: 0 <= k < |PlannedPairs(plans)| ==>
      PlannedPairs(plans)[k].0 in Keys(RequestPairs(lines)) && PlannedPairs(plans)[k].1 > 0
  {
    if plans != [] {
      PlannedLinesAreRequested(plans[1..], lines);
      var head := plans[0].lines;
      forall k | 0 <= k < |head| ensures NominalPairs(head)[k].0 in Keys(RequestPairs(lines)) {
        assert LineRequested(head[k], lines);
        var j :| 0 <= j < |lines| && lines[j].itemId == head[k].itemId;
        assert Keys(RequestPairs(lines))[j] == head[k].itemId;
      }
    }
  }

  function PlanNominals(plans: seq<Plan>): (xs: seq<Pair>)
    ensures |xs| == |plans| && forall k :: 0 <= k < |xs| ==> xs[k] == (plans[k].captureId, Nominal(plans[k].lines))
  {
    seq(|plans|, k requires 0 <= k < |plans| => (plans[k].captureId, Nominal(plans[k].lines)))
  }

  lemma {:induction false} PlannedTotal(plans: seq<Plan>)
    ensures Total(PlannedPairs(plans)) == Total(PlanNominals(plans))
  {
    if plans != [] {
      PlannedTotal(plans[1..]);
      TotalConcat(NominalPairs(plans[0].lines), PlannedPairs(plans[1..]));
      assert PlanNominals(plans)[1..] == PlanNominals(plans[1..]);
    }
  }

  function AllocationKeys(allocations: seq<Allocation>): (ks: seq<string>)
    ensures |ks| == |allocations| && forall k :: 0 <= k < |ks| ==> ks[k] == allocations[k].capture.id
  {
    seq(|allocations|, k requires 0 <= k < |allocations| => allocations[k].capture.id)
  }

  predicate HasPlan(plans: seq<Plan>, captureId: string) {
    exists p :: 0 <= p < |plans| && plans[p].captureId == captureId
  }

  predicate CoversAllocations(plans: seq<Plan>, allocations: seq<Allocation>) {
    forall a :: 0 <= a < |allocations| ==> HasPlan(plans, allocations[a].capture.id)
  }

  predicate CoversRequestExactly(plans: seq<Plan>, lines: seq<RequestLine>) {
    forall k :: 0 <= k < |lines| ==> TotalFor(PlannedPairs(plans), lines[k].itemId) == lines[k].nominal
  }

  /** Per capture, the plans are worth the share, or nothing where no plan exists. */
  lemma PlannedPerCapture(plans: seq<Plan>, allocations: seq<Allocation>, a: nat)
    requires MatchesAllocations(plans, allocations) && DistinctAllocations(allocations) && a < |allocations|
    ensures TotalFor(PlanNominals(plans), allocations[a].capture.id)
         == if HasPlan(plans, allocations[a].capture.id) then allocations[a].amount else 0
  {
    var pairs, id := PlanNominals(plans), allocations[a].capture.id;
    if HasPlan(plans, id) {
      var p :| 0 <= p < |plans| && plans[p].captureId == id;
      forall i, j | 0 <= i < j < |pairs| ensures Keys(pairs)[i] != Keys(pairs)[j] {
        assert plans[i].captureId != plans[j].captureId;
      }
      TotalForUnique(pairs, p);
      var b :| 0 <= b < |allocations| && PlanMatches(plans[p], allocations[b]);
      assert b == a;
    } else {
      forall k | 0 <= k < |pairs| ensures Keys(pairs)[k] != id { assert plans[k].captureId != id; }
      TotalForAbsent(pairs, id);
    }
  }

  /** What the plans are worth in all, compared with the shares. */
  lemma PlannedAgainstAllocations(plans: seq<Plan>, allocations: seq<Allocation>)
    requires MatchesAllocations(plans, allocations) && DistinctAllocations(allocations)
    requires forall a :: 0 <= a < |allocations| ==> allocations[a].amount > 0
    ensures Total(PlannedPairs(plans)) <= Sum(AllocationAmounts(allocations))
    ensures Total(PlannedPairs(plans)) == Sum(AllocationAmounts(allocations)) <==> CoversAllocations(plans, allocations)
  {
    var keys := AllocationKeys(allocations);
    var groups := GroupTotals(PlanNominals(plans), keys);
    PlannedTotal(plans);
    forall p | 0 <= p < |plans| ensures PlanNominals(plans)[p].0 in keys {
      var a :| 0 <= a < |allocations| && PlanMatches(plans[p], allocations[a]);
      assert keys[a] == plans[p].captureId;
    }
    GroupedTotal(PlanNominals(plans), keys);
    forall a | 0 <= a < |keys|
      ensures groups[a] == if HasPlan(plans, keys[a]) then AllocationAmounts(allocations)[a] else 0
    {
      PlannedPerCapture(plans, allocations, a);
    }
    SumMonotone(groups, AllocationAmounts(allocations));
    if Sum(groups) == Sum(AllocationAmounts(allocations)) {
      SumSqueeze(groups, AllocationAmounts(allocations));
    }
    if CoversAllocations(plans, allocations) {
      forall a | 0 <= a < |keys| ensures groups[a] == AllocationAmounts(allocations)[a] {
        assert HasPlan(plans, allocations[a].capture.id);
      }
      assert groups == AllocationAmounts(allocations);
    }
  }

  /**
   Plans that pass the checks cover every requested line exactly if and only if every allocated capture has a plan,
   although per line the code only refuses "more" and compares for equality per capture.
   */
  lemma ExactCoverage(plans: seq<Plan>, lines: seq<RequestLine>, allocations: seq<Allocation>)
    requires ValidRequest(lines)
    requires forall p :: 0 <= p < |plans| ==> ValidLines(plans[p].lines, lines)
    requires WithinRequest(plans, lines) && MatchesAllocations(plans, allocations)
    requires DistinctAllocations(allocations) && forall a :: 0 <= a < |allocations| ==> allocations[a].amount > 0
    requires Sum(AllocationAmounts(allocations)) == Total(RequestPairs(lines))
    ensures CoversRequestExactly(plans, lines) <==> CoversAllocations(plans, allocations)
  {
    var requested, planned := RequestPairs(lines), PlannedPairs(plans);
    var keys := Keys(requested);
    PlannedLinesAreRequested(plans, lines);
    GroupedTotal(planned, keys);
    TotalIsSum(requested);
    var groups := GroupTotals(planned, keys);
    PlannedAgainstAllocations(plans, allocations);
    assert forall k :: 0 <= k < |lines| ==>
      groups[k] == TotalFor(planned, lines[k].itemId) && Amounts(requested)[k] == lines[k].nominal;
    if CoversAllocations(plans, allocations) {
      SumSqueeze(groups, Amounts(requested));
      assert CoversRequestExactly(plans, lines);
    }
    if CoversRequestExactly(plans, lines) {
      assert groups == Amounts(requested);
    }
  }

  /** The same for plans that `PrepareRefundChannelPlan` accepted, with the allocations it computed itself. */
  lemma AcceptedPlansCoverExactly(
    offers: seq<Offer>, captures: seq<Capture>, previous: seq<RefundRow>, lines: seq<RequestLine>,
    billingAccount: Option<string>, customer: string)
    requires ValidRequest(lines) && offers != [] && Distinct(CaptureIds(captures))
    requires PlansAccepted(offers, captures, previous, lines, billingAccount, customer)
    ensures var shares := Allocations(captures, previous, RequestTotal(lines));
      shares.Success? &&
      (CoversRequestExactly(Offered(offers), lines) <==> CoversAllocations(Offered(offers), shares.value))
  {
    var plans := Offered(offers);
    var shares := Allocations(captures, previous, RequestTotal(lines));
    AllocationsAreSafe(captures, previous, RequestTotal(lines));
    forall p | 0 <= p < |plans| ensures ValidLines(plans[p].lines, lines) {
      assert ValidOffer(offers[p], captures, lines);
    }
    assert plans != [];
    forall a | 0 <= a < |shares.value| ensures shares.value[a].amount > 0 { assert shares.value[a] in shares.value; }
    ExactCoverage(plans, lines, shares.value);
  }

  // ---- What an accepted preparation promises, and what is never refused

  /** A line of the request, by a line that was bought for no less. */
  predicate WasBought(line: RequestLine, items: seq<RequestLine>) {
    && line.nominal > 0
    && exists k :: 0 <= k < |items| && items[k].itemId == line.itemId && line.nominal <= items[k].nominal
  }

  /** A plan of the channel that holds the capture, under the operation that the channel knows. */
  predicate FromItsCapture(offer: Offer, captures: seq<Capture>) {
    exists k :: 0 <= k < |captures| && captures[k].id == offer.plan.captureId
      && captures[k].channelId == offer.channelId && captures[k].channelOperationId == offer.plan.channelOperationId
  }

  /** Lines that move money, each for a requested line and for no more than was requested. */
  predicate WithinLines(plan: seq<PlanLine>, lines: seq<RequestLine>) {
    && plan != [] && (forall i, j :: 0 <= i < j < |plan| ==> plan[i].itemId != plan[j].itemId)
    && forall k :: 0 <= k < |plan| ==> WithinLine(plan[k], lines)
  }

  predicate WithinLine(line: PlanLine, lines: seq<RequestLine>) {
    && line.nominal > 0 && line.provider > 0
    && exists j :: 0 <= j < |lines| && lines[j].itemId == line.itemId && line.nominal <= lines[j].nominal
  }

  /**
   What an accepted preparation promises: a completed purchase in one currency, whose lines are refunded for no more
   than was paid for them; plans of the channels that hold the captures, each for requested lines, together for no more
   of any line than was requested, and each worth exactly its capture's share.
   */
  lemma AcceptedPlansAreBought(
    purchase: Purchased, offers: seq<Offer>, captures: seq<Capture>, previous: seq<RefundRow>,
    lines: seq<RequestLine>, billingAccount: Option<string>)
    requires Preparable(purchase, captures, lines)
    requires PlansAccepted(offers, captures, previous, lines, billingAccount, purchase.customer)
    ensures purchase.completed && captures != [] && lines != []
    ensures forall k :: 0 <= k < |captures| ==>
      captures[k].channelOperationId.Some? && captures[k].currency == purchase.currency
    ensures forall i, j :: 0 <= i < j < |lines| ==> lines[i].itemId != lines[j].itemId
    ensures forall k :: 0 <= k < |lines| ==>
      && WasBought(lines[k], purchase.items)
      && TotalFor(PlannedPairs(Offered(offers)), lines[k].itemId) <= lines[k].nominal
    ensures forall p :: 0 <= p < |offers| ==>
      FromItsCapture(offers[p], captures) && WithinLines(offers[p].plan.lines, lines)
    ensures offers != [] ==>
      var shares := Allocations(captures, previous, Total(RequestPairs(lines)));
      && shares.Success?
      && forall p :: 0 <= p < |offers| ==>
           exists a :: 0 <= a < |shares.value| && shares.value[a].capture.id == offers[p].plan.captureId
             && shares.value[a].amount == Nominal(offers[p].plan.lines)
    ensures forall p, q :: 0 <= p < q < |offers| ==> offers[p].plan.captureId != offers[q].plan.captureId
  {
    var plans := Offered(offers);
    forall i, j | 0 <= i < j < |lines| ensures lines[i].itemId != lines[j].itemId {
      assert Keys(RequestPairs(lines))[i] != Keys(RequestPairs(lines))[j];
    }
    forall k | 0 <= k < |lines| ensures WasBought(lines[k], purchase.items) {
      assert LineBought(lines[k], purchase);
    }
    forall p | 0 <= p < |offers|
      ensures FromItsCapture(offers[p], captures) && WithinLines(offers[p].plan.lines, lines) {
      assert ValidOffer(offers[p], captures, lines);
      ValidIsWithin(offers[p].plan.lines, lines);
    }
    if offers != [] {
      var shares := Allocations(captures, previous, Total(RequestPairs(lines))).value;
      forall p | 0 <= p < |offers|
        ensures exists a :: 0 <= a < |shares| && shares[a].capture.id == offers[p].plan.captureId
                              && shares[a].amount == Nominal(offers[p].plan.lines) {
        var a :| 0 <= a < |shares| && PlanMatches(plans[p], shares[a]);
      }
      forall p, q | 0 <= p < q < |offers| ensures offers[p].plan.captureId != offers[q].plan.captureId {
        assert plans[p].captureId != plans[q].captureId;
      }
    }
  }

  lemma ValidIsWithin(plan: seq<PlanLine>, lines: seq<RequestLine>)
    requires ValidLines(plan, lines)
    ensures WithinLines(plan, lines)
  {
    forall i, j | 0 <= i < j < |plan| ensures plan[i].itemId != plan[j].itemId {
      assert ItemIds(plan)[i] != ItemIds(plan)[j];
    }
    forall k | 0 <= k < |plan| ensures WithinLine(plan[k], lines) {
      assert LineRequested(plan[k], lines);
      var j :| 0 <= j < |lines| && lines[j].itemId == plan[k].itemId && lines[j].nominal >= plan[k].nominal;
      assert lines[j].itemId == plan[k].itemId;
    }
  }

  /** The plan refunds exactly the requested lines. */
  predicate PlansExactly(plan: seq<PlanLine>, lines: seq<RequestLine>) {
    && |plan| == |lines|
    && forall k :: 0 <= k < |lines| ==>
         plan[k].itemId == lines[k].itemId && plan[k].nominal == lines[k].nominal && plan[k].provider > 0
  }

  /**
   What is never refused: the refund of bought lines of a completed purchase with one capture that has enough left,
   planned exactly by the channel that holds it, if its rounding has an account to go to.
   */
  lemma ExactPlanIsAccepted(
    purchase: Purchased, offer: Offer, capture: Capture, previous: seq<RefundRow>, lines: seq<RequestLine>,
    billingAccount: Option<string>)
    requires purchase.completed && capture.channelOperationId.Some? && capture.currency == purchase.currency
    requires lines != [] && forall i, j :: 0 <= i < j < |lines| ==> lines[i].itemId != lines[j].itemId
    requires forall k :: 0 <= k < |lines| ==> WasBought(lines[k], purchase.items)
    requires LeavesEnough([capture], previous, Total(RequestPairs(lines)))
    requires FromItsCapture(offer, [capture]) && PlansExactly(offer.plan.lines, lines)
    requires (exists k :: 0 <= k < |lines| && offer.plan.lines[k].provider != lines[k].nominal) ==>
      billingAccount.Some? && billingAccount.value != purchase.customer
    ensures Preparable(purchase, [capture], lines)
    ensures PlansAccepted([offer], [capture], previous, lines, billingAccount, purchase.customer)
  {
    RequestIsValid(purchase, lines);
    RequestIsPositive(lines);
    ExactLinesAreValid(offer.plan.lines, lines);
    assert ValidOffer(offer, [capture], lines);
    WholeShare(capture, previous, Total(RequestPairs(lines)));
    ExactIsWithin([WithoutAccount(offer.plan)], lines);
    assert Offered([offer]) == [WithoutAccount(offer.plan)];
    var shares := Allocations([capture], previous, Total(RequestPairs(lines))).value;
    assert shares[0] == Allocation(capture, Total(RequestPairs(lines)));
    assert PlanMatches(WithoutAccount(offer.plan), shares[0]);
  }

  lemma RequestIsValid(purchase: Purchased, lines: seq<RequestLine>)
    requires lines != [] && forall i, j :: 0 <= i < j < |lines| ==> lines[i].itemId != lines[j].itemId
    requires forall k :: 0 <= k < |lines| ==> WasBought(lines[k], purchase.items)
    ensures ValidRequest(lines) && forall k :: 0 <= k < |lines| ==> LineBought(lines[k], purchase)
  {
    forall i, j | 0 <= i < j < |lines| ensures Keys(RequestPairs(lines))[i] != Keys(RequestPairs(lines))[j] {
      assert lines[i].itemId != lines[j].itemId;
    }
    forall k | 0 <= k < |lines| ensures lines[k].nominal > 0 && LineBought(lines[k], purchase) {
      assert WasBought(lines[k], purchase.items);
    }
  }

  lemma ExactLinesAreValid(plan: seq<PlanLine>, lines: seq<RequestLine>)
    requires ValidRequest(lines) && PlansExactly(plan, lines)
    ensures ValidLines(plan, lines) && NominalPairs(plan) == RequestPairs(lines)
  {
    assert NominalPairs(plan) == RequestPairs(lines);
    forall k | 0 <= k < |plan| ensures LineRequested(plan[k], lines) { assert lines[k].itemId == plan[k].itemId; }
  }

  lemma ExactIsWithin(plans: seq<Plan>, lines: seq<RequestLine>)
    requires |plans| == 1 && NominalPairs(plans[0].lines) == RequestPairs(lines) && ValidRequest(lines)
    ensures WithinRequest(plans, lines)
  {
    assert PlannedPairs(plans) == RequestPairs(lines) + PlannedPairs([]) == RequestPairs(lines);
    forall k | 0 <= k < |lines| ensures TotalFor(PlannedPairs(plans), lines[k].itemId) <= lines[k].nominal {
      TotalForUnique(RequestPairs(lines), k);
    }
  }

  /** One capture takes the whole of what is asked. */
  lemma WholeShare(capture: Capture, previous: seq<RefundRow>, total: int)
    requires total > 0 && LeavesEnough([capture], previous, total)
    ensures Allocations([capture], previous, total) == Success([Allocation(capture, total)])
  {
    SplitAccepts([capture], previous, total);
    AllocationsAreSafe([capture], previous, total);
    var r := Allocations([capture], previous, total).value;
    var amounts := AllocationAmounts(r);
    assert forall k :: 0 <= k < |r| ==> r[k] in r;
    assert forall k :: 0 <= k < |r| ==> r[k].capture.id == capture.id;
    assert |r| == |amounts| == 1;
    assert amounts[1..] == [] && Sum(amounts) == amounts[0] + Sum(amounts[1..]);
    assert r == [r[0]];
  }
}
