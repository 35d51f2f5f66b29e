/**
 The capacity of a capture: what all refunds together reserve, and therefore submit, of an original item stays within
 what was paid for it, and in all within the captured amount.
 */
module IyzicoCapacity {
  import opened Wrappers
  import opened Sums
  import opened RefundSplit
  import opened RefundPlan
  import opened RefundSettlement
  import opened IyzicoRefund
  import Form = IyzicoCheckout

  /** The reservations against one capture fit its verified transactions. */
  predicate Fits(refunds: seq<Refund>, sourceId: string, ts: seq<Form.ItemTransaction>) {
    && KeysWithin(ProviderReserved(refunds, sourceId), Keys(Form.PricePairs(ts)))
    && KeysWithin(NominalReserved(refunds, sourceId), Keys(Form.PricePairs(ts)))
    && forall k :: 0 <= k < |ts| ==> ItemFits(refunds, sourceId, ts[k])
  }

  predicate ItemFits(refunds: seq<Refund>, sourceId: string, t: Form.ItemTransaction) {
    && TotalFor(ProviderReserved(refunds, sourceId), t.itemId) <= t.paidPrice
    && TotalFor(NominalReserved(refunds, sourceId), t.itemId) <= t.price
  }

  predicate Completed(sources: Sources, id: string) {
    id in sources && sources[id].status == COMPLETED
  }

  ghost predicate SoundSources(sources: Sources) {
    forall id :: id in sources ==> Form.SoundRow(sources[id])
  }

  ghost predicate Within(sources: Sources, refunds: seq<Refund>) {
    && (forall id :: Completed(sources, id) && sources[id].transactions.Some? ==>
          Fits(refunds, id, sources[id].transactions.value))
    && (forall i :: 0 <= i < |refunds| ==> Completed(sources, refunds[i].sourceId))
    && forall i :: 0 <= i < |refunds| ==> Attributed(sources, refunds[i])
  }

  /** The transaction of the capture that was for this item. */
  predicate LineAttributed(ts: seq<Form.ItemTransaction>, line: Line) {
    exists j :: 0 <= j < |ts| && ts[j].itemId == line.plan.itemId && ts[j].transactionId == line.transactionId
  }

  /** Every line of the refund is to be paid out of the transaction its item was paid with. */
  predicate Attributed(sources: Sources, r: Refund) {
    && r.sourceId in sources && sources[r.sourceId].transactions.Some?
    && forall k :: 0 <= k < |r.lines| ==> LineAttributed(sources[r.sourceId].transactions.value, r.lines[k])
  }

  lemma CreatedIsAttributed(sources: Sources, refunds: seq<Refund>, q: Request)
    requires Refundable(sources, q) && AllFit(refunds, q.sourceId, sources[q.sourceId].transactions.value, q.lines)
    ensures Attributed(sources, Created(sources[q.sourceId], q))
  {
    var ts, r := sources[q.sourceId].transactions.value, Created(sources[q.sourceId], q);
    forall k | 0 <= k < |r.lines| ensures LineAttributed(ts, r.lines[k]) {
      var t := FindTransaction(ts, q.lines[k].itemId).value;
      var j :| 0 <= j < |ts| && ts[j] == t;
      assert ts[j].itemId == r.lines[k].plan.itemId && ts[j].transactionId == r.lines[k].transactionId;
    }
  }

  lemma SameTargetsStayAttributed(sources: Sources, a: Refund, b: Refund)
    requires Attributed(sources, a) && a.sourceId == b.sourceId && SameTargets(a.lines, b.lines)
    ensures Attributed(sources, b)
  {
    forall k | 0 <= k < |b.lines|
      ensures LineAttributed(sources[b.sourceId].transactions.value, b.lines[k]) {
      assert LineAttributed(sources[a.sourceId].transactions.value, a.lines[k]);
    }
  }

  /** The same reservations, whatever has become of their lines. */
  predicate SameReservations(a: seq<Refund>, b: seq<Refund>) {
    && |a| == |b|
    && forall k :: 0 <= k < |a| ==>
         && a[k].sourceId == b[k].sourceId && Plans(a[k].lines) == Plans(b[k].lines)
         && SameTargets(a[k].lines, b[k].lines)
  }

  lemma {:induction false} SameReserved(a: seq<Refund>, b: seq<Refund>, sourceId: string)
    requires SameReservations(a, b)
    ensures ProviderReserved(a, sourceId) == ProviderReserved(b, sourceId)
    ensures NominalReserved(a, sourceId) == NominalReserved(b, sourceId)
  {
    if a != [] {
      assert SameReservations(a[..|a| - 1], b[..|b| - 1]);
      SameReserved(a[..|a| - 1], b[..|b| - 1], sourceId);
    }
  }

  lemma SameKeepsWithin(sources: Sources, a: seq<Refund>, b: seq<Refund>)
    requires Within(sources, a) && SameReservations(a, b)
    ensures Within(sources, b)
  {
    forall id | Completed(sources, id) && sources[id].transactions.Some?
      ensures Fits(b, id, sources[id].transactions.value) {
      SameReserved(a, b, id);
      SameTotalsFit(a, b, id, sources[id].transactions.value);
    }
    forall i | 0 <= i < |b| ensures Attributed(sources, b[i]) { SameTargetsStayAttributed(sources, a[i], b[i]); }
  }

  lemma {:induction false} NothingReserved(refunds: seq<Refund>, sourceId: string)
    requires forall k :: 0 <= k < |refunds| ==> refunds[k].sourceId != sourceId
    ensures ProviderReserved(refunds, sourceId) == [] == NominalReserved(refunds, sourceId)
  {
    if refunds != [] { NothingReserved(refunds[..|refunds| - 1], sourceId); }
  }

  lemma ReservedSnoc(refunds: seq<Refund>, r: Refund)
    ensures ProviderReserved(refunds + [r], r.sourceId)
      == ProviderReserved(refunds, r.sourceId) + ProviderPairs(Plans(r.lines))
    ensures NominalReserved(refunds + [r], r.sourceId)
      == NominalReserved(refunds, r.sourceId) + NominalPairs(Plans(r.lines))
    ensures forall id :: id != r.sourceId ==>
      && ProviderReserved(refunds + [r], id) == ProviderReserved(refunds, id)
      && NominalReserved(refunds + [r], id) == NominalReserved(refunds, id)
  {
    assert (refunds + [r])[..|refunds|] == refunds;
  }

  /** In a plan without repeated items a line is all there is for its item. */
  lemma PlannedFor(lines: seq<PlanLine>, itemId: string)
    requires Distinct(ItemIds(lines))
    ensures itemId in ItemIds(lines) ==>
      exists k :: && 0 <= k < |lines| && lines[k].itemId == itemId
                  && TotalFor(ProviderPairs(lines), itemId) == lines[k].provider
                  && TotalFor(NominalPairs(lines), itemId) == lines[k].nominal
    ensures itemId !in ItemIds(lines) ==>
      TotalFor(ProviderPairs(lines), itemId) == 0 == TotalFor(NominalPairs(lines), itemId)
  {
    var ids := ItemIds(lines);
    assert Keys(ProviderPairs(lines)) == ids;
    if itemId in ids {
      var k :| 0 <= k < |ids| && ids[k] == itemId;
      assert lines[k].itemId == itemId;
      TotalForUnique(ProviderPairs(lines), k);
      TotalForUnique(NominalPairs(lines), k);
    } else {
      TotalForAbsent(ProviderPairs(lines), itemId);
      TotalForAbsent(NominalPairs(lines), itemId);
    }
  }

  lemma {:induction false} FoundIsOnly(ts: seq<Form.ItemTransaction>, k: nat)
    requires Distinct(Keys(Form.PricePairs(ts))) && k < |ts|
    ensures FindTransaction(ts, ts[k].itemId) == Some(ts[k])
  {
    var keys, found := Keys(Form.PricePairs(ts)), FindTransaction(ts, ts[k].itemId);
    var j :| 0 <= j < |ts| && ts[j] == found.value;
    assert keys[j] == keys[k];
    assert j == k;
  }

  lemma ReserveKeepsItem(refunds: seq<Refund>, r: Refund, ts: seq<Form.ItemTransaction>, k: nat)
    requires Distinct(Keys(Form.PricePairs(ts))) && k < |ts| && ItemFits(refunds, r.sourceId, ts[k])
    requires SoundLines(Plans(r.lines)) && AllFit(refunds, r.sourceId, ts, Plans(r.lines))
    ensures ItemFits(refunds + [r], r.sourceId, ts[k])
  {
    var lines, itemId := Plans(r.lines), ts[k].itemId;
    ReservedSnoc(refunds, r);
    PlannedFor(lines, itemId);
    FoundIsOnly(ts, k);
    TotalForConcat(ProviderReserved(refunds, r.sourceId), ProviderPairs(lines), itemId);
    TotalForConcat(NominalReserved(refunds, r.sourceId), NominalPairs(lines), itemId);
  }

  lemma ReserveKeepsFits(refunds: seq<Refund>, r: Refund, ts: seq<Form.ItemTransaction>)
    requires Distinct(Keys(Form.PricePairs(ts))) && Fits(refunds, r.sourceId, ts)
    requires SoundLines(Plans(r.lines)) && AllFit(refunds, r.sourceId, ts, Plans(r.lines))
    ensures Fits(refunds + [r], r.sourceId, ts)
  {
    var lines, keys := Plans(r.lines), Keys(Form.PricePairs(ts));
    ReservedSnoc(refunds, r);
    forall k | 0 <= k < |lines| ensures lines[k].itemId in keys {
      var t := FindTransaction(ts, lines[k].itemId).value;
      var j :| 0 <= j < |ts| && ts[j] == t;
      assert keys[j] == lines[k].itemId;
    }
    forall k | 0 <= k < |ts| ensures ItemFits(refunds + [r], r.sourceId, ts[k]) { ReserveKeepsItem(refunds, r, ts, k); }
  }

  lemma PutKeepsReservations(refunds: seq<Refund>, id: string, state: RefundState, lines: seq<Line>)
    requires HasRefund(refunds, id) && Plans(lines) == Plans(Get(refunds, id).lines)
    requires SameTargets(Get(refunds, id).lines, lines)
    ensures SameReservations(refunds, Put(refunds, id, state, lines))
  {
  }

  /** The effect of a step of a running call on its refund. */
  lemma ActKeepsTargets(s: State, step: Step)
    requires Inv(s) && Acts(s, step)
    ensures var p := PhaseOf(s, step.caller); var r := Get(s.refunds, p.id); var e := Act(p, r, step).value;
      e.write.Some? ==> Plans(e.write.value.1) == Plans(r.lines) && SameTargets(r.lines, e.write.value.1)
  {
    var p := PhaseOf(s, step.caller);
    assert CallerFits(s, p) && SoundRefund(Get(s.refunds, p.id), SentOf(s.sent, p.id));
    ActKeeps(Get(s.refunds, p.id), SentOf(s.sent, p.id), p, step);
  }

  lemma ActKeepsReservations(sources: Sources, s: State, step: Step)
    requires Inv(s) && Acts(s, step)
    ensures SameReservations(s.refunds, Next(sources, s, step).refunds)
  {
    var p := PhaseOf(s, step.caller);
    var e := Act(p, Get(s.refunds, p.id), step).value;
    ActKeepsTargets(s, step);
    if e.write.Some? {
      PutKeepsReservations(s.refunds, p.id, e.write.value.0, e.write.value.1);
      assert Next(sources, s, step).refunds == Put(s.refunds, p.id, e.write.value.0, e.write.value.1);
    } else {
      assert Next(sources, s, step).refunds == s.refunds;
    }
  }

  lemma CreatePassedChecks(sources: Sources, s: State, step: Step)
    requires Inv(s) && Creates(sources, s, step)
    ensures step.Reserve? && Refundable(sources, step.request) && SoundLines(step.request.lines)
    ensures AllFit(s.refunds, step.request.sourceId, sources[step.request.sourceId].transactions.value,
      step.request.lines)
    ensures Next(sources, s, step).refunds == s.refunds + [Created(sources[step.request.sourceId], step.request)]
  {
    CreateEffect(sources, s, step, "");
  }

  lemma AppendKeepsWithin(sources: Sources, refunds: seq<Refund>, r: Refund)
    requires SoundSources(sources) && Within(sources, refunds)
    requires Completed(sources, r.sourceId) && Attributed(sources, r) && SoundLines(Plans(r.lines))
    requires AllFit(refunds, r.sourceId, sources[r.sourceId].transactions.value, Plans(r.lines))
    ensures Within(sources, refunds + [r])
  {
    NewFits(sources, refunds, r);
    forall id | Completed(sources, id) && sources[id].transactions.Some?
      ensures Fits(refunds + [r], id, sources[id].transactions.value) {
      AppendFits(sources, refunds, r, id);
    }
    AppendAttributes(sources, refunds, r);
  }

  lemma NewFits(sources: Sources, refunds: seq<Refund>, r: Refund)
    requires SoundSources(sources) && Within(sources, refunds)
    requires Completed(sources, r.sourceId) && sources[r.sourceId].transactions.Some? && SoundLines(Plans(r.lines))
    requires AllFit(refunds, r.sourceId, sources[r.sourceId].transactions.value, Plans(r.lines))
    ensures Fits(refunds + [r], r.sourceId, sources[r.sourceId].transactions.value)
  {
    assert Form.SoundRow(sources[r.sourceId]);
    ReserveKeepsFits(refunds, r, sources[r.sourceId].transactions.value);
  }

  lemma AppendAttributes(sources: Sources, refunds: seq<Refund>, r: Refund)
    requires forall i :: 0 <= i < |refunds| ==>
      Completed(sources, refunds[i].sourceId) && Attributed(sources, refunds[i])
    requires Completed(sources, r.sourceId) && Attributed(sources, r)
    ensures forall i :: 0 <= i < |refunds + [r]| ==>
      Completed(sources, (refunds + [r])[i].sourceId) && Attributed(sources, (refunds + [r])[i])
  {
  }

  lemma AppendFits(sources: Sources, refunds: seq<Refund>, r: Refund, id: string)
    requires Within(sources, refunds) && Completed(sources, id) && sources[id].transactions.Some?
    requires id == r.sourceId ==> Fits(refunds + [r], id, sources[id].transactions.value)
    ensures Fits(refunds + [r], id, sources[id].transactions.value)
  {
    ReservedSnoc(refunds, r);
    if id != r.sourceId { SameTotalsFit(refunds, refunds + [r], id, sources[id].transactions.value); }
  }

  lemma SameTotalsFit(a: seq<Refund>, b: seq<Refund>, id: string, ts: seq<Form.ItemTransaction>)
    requires Fits(a, id, ts)
    requires ProviderReserved(a, id) == ProviderReserved(b, id) && NominalReserved(a, id) == NominalReserved(b, id)
    ensures Fits(b, id, ts)
  {
    forall k | 0 <= k < |ts| ensures ItemFits(b, id, ts[k]) { assert ItemFits(a, id, ts[k]); }
  }

  lemma CreateKeepsWithin(sources: Sources, s: State, step: Step)
    requires Inv(s) && SoundSources(sources) && Within(sources, s.refunds) && Creates(sources, s, step)
    ensures Within(sources, Next(sources, s, step).refunds)
  {
    CreatePassedChecks(sources, s, step);
    var r := Created(sources[step.request.sourceId], step.request);
    assert Plans(r.lines) == step.request.lines;
    CreatedIsAttributed(sources, s.refunds, step.request);
    AppendKeepsWithin(sources, s.refunds, r);
  }

  /** A reservation that passes its checks keeps every capture within its limits; no other step reserves anything. */
  lemma StepKeepsWithin(sources: Sources, s: State, step: Step)
    requires Inv(s) && SoundSources(sources) && Within(sources, s.refunds)
    ensures Within(sources, Next(sources, s, step).refunds)
  {
    if Acts(s, step) {
      ActKeepsReservations(sources, s, step);
      SameKeepsWithin(sources, s.refunds, Next(sources, s, step).refunds);
    } else if Creates(sources, s, step) {
      CreateKeepsWithin(sources, s, step);
    } else {
      QuietEffect(sources, s, step);
    }
  }

  /** The captures may move on while refunds run: new ones appear, open ones end, completed ones stay. */
  ghost predicate SourcesMove(before: Sources, after: Sources) {
    forall id :: id in before ==> id in after && Form.RowMoves(before[id], after[id])
  }

  lemma MoveKeepsWithin(before: Sources, after: Sources, refunds: seq<Refund>)
    requires Within(before, refunds) && SourcesMove(before, after)
    ensures Within(after, refunds)
  {
    forall id | Completed(after, id) && after[id].transactions.Some?
      ensures Fits(refunds, id, after[id].transactions.value) {
      if Completed(before, id) {
        assert Form.RowMoves(before[id], after[id]);
      } else {
        NothingReserved(refunds, id);
        assert forall itemId :: TotalFor([], itemId) == 0;
      }
    }
    forall i | 0 <= i < |refunds| ensures Attributed(after, refunds[i]) {
      assert Attributed(before, refunds[i]) && Completed(before, refunds[i].sourceId);
      assert Form.RowMoves(before[refunds[i].sourceId], after[refunds[i].sourceId]);
    }
  }

  // ---- From items to the whole capture

  /** Per item within its price means in all within the captured amount. */
  lemma CaptureTotal(refunds: seq<Refund>, source: Form.Checkout)
    requires Form.SoundRow(source) && source.status == COMPLETED && Fits(refunds, source.id, source.transactions.value)
    ensures Total(ProviderReserved(refunds, source.id)) <= source.amount
    ensures Total(NominalReserved(refunds, source.id)) <= source.amount
  {
    var ts := source.transactions.value;
    var keys, paid, prices := Keys(Form.PricePairs(ts)), Form.PaidPairs(ts), Form.PricePairs(ts);
    Form.MapsBasketIsBijection(source.basket, ts, source.amount);
    GroupedTotal(ProviderReserved(refunds, source.id), keys);
    GroupedTotal(NominalReserved(refunds, source.id), keys);
    TotalIsSum(paid);
    TotalIsSum(prices);
    forall k | 0 <= k < |ts| ensures
      && GroupTotals(ProviderReserved(refunds, source.id), keys)[k] <= Amounts(paid)[k]
      && GroupTotals(NominalReserved(refunds, source.id), keys)[k] <= Amounts(prices)[k] {
      assert ItemFits(refunds, source.id, ts[k]);
    }
    SumMonotone(GroupTotals(ProviderReserved(refunds, source.id), keys), Amounts(paid));
    SumMonotone(GroupTotals(NominalReserved(refunds, source.id), keys), Amounts(prices));
  }

  // ---- What left for the provider

  /** The plan line a submission is for. */
  function LineSent(refunds: seq<Refund>, m: Sent): Option<(string, PlanLine)> {
    if !HasRefund(refunds, m.refundId) then None
    else
      var r := Get(refunds, m.refundId);
      if m.line < |r.lines| then Some((r.sourceId, r.lines[m.line].plan)) else None
  }

  /** Item and provider amount of every submission against a capture, in the order they left. */
  function Submitted(refunds: seq<Refund>, sent: seq<Sent>, sourceId: string): seq<Pair> {
    if sent == [] then []
    else
      var l := LineSent(refunds, sent[|sent| - 1]);
      Submitted(refunds, sent[..|sent| - 1], sourceId)
      + if l.Some? && l.value.0 == sourceId then [(l.value.1.itemId, l.value.1.provider)] else []
  }

  /** The submissions of one refund among them. */
  function SubmittedBy(r: Refund, log: seq<Sent>): seq<Pair> {
    if log == [] then []
    else
      var k := log[|log| - 1].line;
      SubmittedBy(r, log[..|log| - 1])
      + if k < |r.lines| then [(r.lines[k].plan.itemId, r.lines[k].plan.provider)] else []
  }

  /** Transaction and provider amount of every submission against a capture: what the provider is told to pay back. */
  function SubmittedTo(refunds: seq<Refund>, sent: seq<Sent>, sourceId: string): seq<Pair> {
    if sent == [] then []
    else
      var m := sent[|sent| - 1];
      SubmittedTo(refunds, sent[..|sent| - 1], sourceId)
      + if HasRefund(refunds, m.refundId) && m.line < |Get(refunds, m.refundId).lines|
           && Get(refunds, m.refundId).sourceId == sourceId
        then
          var line := Get(refunds, m.refundId).lines[m.line];
          [(line.transactionId, line.plan.provider)]
        else []
  }

  lemma GetIsAttributed(sources: Sources, refunds: seq<Refund>, id: string)
    requires Within(sources, refunds) && HasRefund(refunds, id)
    ensures Attributed(sources, Get(refunds, id))
  {
  }

  /** A line is for the k-th transaction exactly if it is for its item. */
  lemma LineTargets(ts: seq<Form.ItemTransaction>, line: Line, k: nat)
    requires Distinct(Keys(Form.PricePairs(ts))) && Distinct(Form.TransactionIds(ts))
    requires k < |ts| && LineAttributed(ts, line)
    ensures line.transactionId == ts[k].transactionId <==> line.plan.itemId == ts[k].itemId
  {
    var j :| 0 <= j < |ts| && ts[j].itemId == line.plan.itemId && ts[j].transactionId == line.transactionId;
    var keys, ids := Keys(Form.PricePairs(ts)), Form.TransactionIds(ts);
    if j != k { assert keys[j] != keys[k] && ids[j] != ids[k]; }
  }

  /** Per transaction the same is submitted as per item: no line is ever paid out of another item's transaction. */
  lemma {:induction false} SubmittedPerTransaction(
    sources: Sources, refunds: seq<Refund>, sent: seq<Sent>, id: string, k: nat)
    requires Within(sources, refunds) && id in sources && sources[id].transactions.Some?
    requires var ts := sources[id].transactions.value;
      Distinct(Keys(Form.PricePairs(ts))) && Distinct(Form.TransactionIds(ts)) && k < |ts|
    ensures var t := sources[id].transactions.value[k];
      TotalFor(SubmittedTo(refunds, sent, id), t.transactionId) == TotalFor(Submitted(refunds, sent, id), t.itemId)
  {
    if sent != [] {
      var before, m, ts := sent[..|sent| - 1], sent[|sent| - 1], sources[id].transactions.value;
      SubmittedPerTransaction(sources, refunds, before, id, k);
      SplitLast(refunds, before, m, id, ts[k].itemId);
      assert before + [m] == sent;
      if HasRefund(refunds, m.refundId) && m.line < |Get(refunds, m.refundId).lines|
         && Get(refunds, m.refundId).sourceId == id {
        var line := Get(refunds, m.refundId).lines[m.line];
        GetIsAttributed(sources, refunds, m.refundId);
        LineTargets(ts, line, k);
        TotalForConcat(SubmittedTo(refunds, before, id), [(line.transactionId, line.plan.provider)],
                       ts[k].transactionId);
      } else {
        assert SubmittedTo(refunds, sent, id) == SubmittedTo(refunds, before, id);
      }
    }
  }

  /** Two lines of one refund never share a transaction. */
  lemma LinesHaveOwnTransactions(sources: Sources, r: Refund, i: nat, j: nat)
    requires Attributed(sources, r) && Distinct(ItemIds(Plans(r.lines))) && i < j < |r.lines|
    requires Distinct(Form.TransactionIds(sources[r.sourceId].transactions.value))
    ensures r.lines[i].transactionId != r.lines[j].transactionId
  {
    var ts := sources[r.sourceId].transactions.value;
    var ids := Form.TransactionIds(ts);
    assert LineAttributed(ts, r.lines[i]) && LineAttributed(ts, r.lines[j]);
    var a :| 0 <= a < |ts| && ts[a].itemId == r.lines[i].plan.itemId
      && ts[a].transactionId == r.lines[i].transactionId;
    var b :| 0 <= b < |ts| && ts[b].itemId == r.lines[j].plan.itemId
      && ts[b].transactionId == r.lines[j].transactionId;
    assert ItemIds(Plans(r.lines))[i] != ItemIds(Plans(r.lines))[j];
    assert ids[a] != ids[b];
  }

  lemma LastIsNew(refunds: seq<Refund>, r: Refund)
    requires DistinctRefunds(refunds + [r])
    ensures DistinctRefunds(refunds) && !HasRefund(refunds, r.id)
  {
    var all := refunds + [r];
    forall i | 0 <= i < |refunds| ensures refunds[i].id != r.id { assert all[i].id != all[|refunds|].id; }
    assert forall i :: 0 <= i < |refunds| ==> all[i] == refunds[i];
  }

  lemma SubmittedBySnoc(r: Refund, log: seq<Sent>, m: Sent, itemId: string)
    ensures TotalFor(SubmittedBy(r, log + [m]), itemId)
         == TotalFor(SubmittedBy(r, log), itemId)
            + if m.line < |r.lines| && r.lines[m.line].plan.itemId == itemId then r.lines[m.line].plan.provider else 0
  {
    assert (log + [m])[..|log|] == log;
    var plan := if m.line < |r.lines| then Some(r.lines[m.line].plan) else None;
    TotalForConcat(SubmittedBy(r, log), if plan.Some? then [(plan.value.itemId, plan.value.provider)] else [], itemId);
  }

  /** The table without its last refund has submitted the same, but for that refund. */
  lemma {:induction false} SubmittedSplits(
    refunds: seq<Refund>, r: Refund, sent: seq<Sent>, sourceId: string, itemId: string)
    requires DistinctRefunds(refunds + [r])
    ensures TotalFor(Submitted(refunds + [r], sent, sourceId), itemId)
         == TotalFor(Submitted(refunds, sent, sourceId), itemId)
            + if r.sourceId == sourceId then TotalFor(SubmittedBy(r, SentOf(sent, r.id)), itemId) else 0
  {
    if sent != [] {
      var before, m := sent[..|sent| - 1], sent[|sent| - 1];
      SubmittedSplits(refunds, r, before, sourceId, itemId);
      assert sent == before + [m];
      SentOfSnoc(before, m, r.id);
      LastIsNew(refunds, r);
      GetAfterAppend(refunds, r, m.refundId);
      var log := SentOf(before, r.id);
      SplitLast(refunds, before, m, sourceId, itemId);
      SplitLast(refunds + [r], before, m, sourceId, itemId);
      if m.refundId == r.id { SubmittedBySnoc(r, log, m, itemId); } else { assert log + [] == log; }
    }
  }

  lemma SplitLast(refunds: seq<Refund>, before: seq<Sent>, m: Sent, sourceId: string, itemId: string)
    ensures var l := LineSent(refunds, m);
      TotalFor(Submitted(refunds, before + [m], sourceId), itemId)
      == TotalFor(Submitted(refunds, before, sourceId), itemId)
         + if l.Some? && l.value.0 == sourceId && l.value.1.itemId == itemId then l.value.1.provider else 0
  {
    var l := LineSent(refunds, m);
    assert (before + [m])[..|before|] == before;
    TotalForConcat(Submitted(refunds, before, sourceId),
                   if l.Some? && l.value.0 == sourceId then [(l.value.1.itemId, l.value.1.provider)] else [], itemId);
  }

  /** A refund that submits its lines in order has submitted a prefix of its plan. */
  lemma {:induction false} SubmittedPrefix(r: Refund, log: seq<Sent>)
    requires |log| <= |r.lines| && forall k :: 0 <= k < |log| ==> log[k].line == k
    ensures SubmittedBy(r, log) == ProviderPairs(Plans(r.lines))[..|log|]
  {
    if log != [] {
      SubmittedPrefix(r, log[..|log| - 1]);
    }
  }

  lemma SubmittedWithinPlan(r: Refund, log: seq<Sent>, itemId: string)
    requires SoundRefund(r, log)
    ensures TotalFor(SubmittedBy(r, log), itemId) <= TotalFor(ProviderPairs(Plans(r.lines)), itemId)
  {
    var pairs := ProviderPairs(Plans(r.lines));
    assert |log| <= |r.lines|;
    SubmittedPrefix(r, log);
    assert pairs == pairs[..|log|] + pairs[|log|..];
    TotalForConcat(pairs[..|log|], pairs[|log|..], itemId);
    TotalForNonNegative(pairs[|log|..], itemId);
  }

  lemma {:induction false} NothingSubmitted(sent: seq<Sent>, sourceId: string)
    ensures Submitted([], sent, sourceId) == []
  {
    if sent != [] { NothingSubmitted(sent[..|sent| - 1], sourceId); }
  }

  /** What was submitted of an item is part of what is reserved of it. */
  lemma {:induction false} SubmittedWithinReserved(
    refunds: seq<Refund>, sent: seq<Sent>, sourceId: string, itemId: string)
    requires DistinctRefunds(refunds)
    requires forall k :: 0 <= k < |refunds| ==> SoundRefund(refunds[k], SentOf(sent, refunds[k].id))
    ensures TotalFor(Submitted(refunds, sent, sourceId), itemId)
         <= TotalFor(ProviderReserved(refunds, sourceId), itemId)
  {
    if refunds == [] {
      NothingSubmitted(sent, sourceId);
    } else {
      var before, r := refunds[..|refunds| - 1], refunds[|refunds| - 1];
      assert refunds == before + [r];
      SubmittedWithinReserved(before, sent, sourceId, itemId);
      SubmittedSplits(before, r, sent, sourceId, itemId);
      SubmittedWithinPlan(r, SentOf(sent, r.id), itemId);
      ReservedSnoc(before, r);
      TotalForConcat(ProviderReserved(before, r.sourceId), ProviderPairs(Plans(r.lines)), itemId);
    }
  }

  lemma {:induction false} SubmittedKeys(refunds: seq<Refund>, sent: seq<Sent>, sourceId: string, k: nat)
    requires k < |Submitted(refunds, sent, sourceId)|
    ensures Submitted(refunds, sent, sourceId)[k].0 in Keys(ProviderReserved(refunds, sourceId))
  {
    var before, m := sent[..|sent| - 1], sent[|sent| - 1];
    if k < |Submitted(refunds, before, sourceId)| {
      SubmittedKeys(refunds, before, sourceId, k);
    } else {
      var r := Get(refunds, m.refundId);
      ReservedHas(refunds, Index(refunds, m.refundId), m.line);
    }
  }

  lemma {:induction false} ReservedHas(refunds: seq<Refund>, i: nat, k: nat)
    requires i < |refunds| && k < |refunds[i].lines|
    ensures refunds[i].lines[k].plan.itemId in Keys(ProviderReserved(refunds, refunds[i].sourceId))
  {
    var id, sourceId, n := refunds[i].lines[k].plan.itemId, refunds[i].sourceId, |refunds| - 1;
    var all, before := ProviderReserved(refunds, sourceId), ProviderReserved(refunds[..n], sourceId);
    if i < n {
      ReservedHas(refunds[..n], i, k);
      var j :| 0 <= j < |before| && Keys(before)[j] == id;
      assert Keys(all)[j] == id;
    } else {
      assert Keys(all)[|before| + k] == id;
    }
  }

  lemma AllSound(s: State)
    requires Inv(s)
    ensures forall k :: 0 <= k < |s.refunds| ==> SoundRefund(s.refunds[k], SentOf(s.sent, s.refunds[k].id))
  {
    forall k | 0 <= k < |s.refunds| ensures SoundRefund(s.refunds[k], SentOf(s.sent, s.refunds[k].id)) {
      IndexIsUnique(s.refunds, k);
    }
  }

  /** Pointwise per item, hence in total: no more is submitted than is reserved. */
  lemma SubmittedTotal(refunds: seq<Refund>, sent: seq<Sent>, id: string, keys: seq<string>)
    requires DistinctRefunds(refunds) && Distinct(keys) && KeysWithin(ProviderReserved(refunds, id), keys)
    requires forall k :: 0 <= k < |refunds| ==> SoundRefund(refunds[k], SentOf(sent, refunds[k].id))
    ensures Total(Submitted(refunds, sent, id)) <= Total(ProviderReserved(refunds, id))
  {
    var submitted, reserved := Submitted(refunds, sent, id), ProviderReserved(refunds, id);
    forall k | 0 <= k < |submitted| ensures submitted[k].0 in keys {
      SubmittedKeys(refunds, sent, id, k);
      var j :| 0 <= j < |reserved| && Keys(reserved)[j] == submitted[k].0;
      assert reserved[j].0 in keys;
    }
    GroupedTotal(submitted, keys);
    GroupedTotal(reserved, keys);
    forall k | 0 <= k < |keys| ensures GroupTotals(submitted, keys)[k] <= GroupTotals(reserved, keys)[k] {
      SubmittedWithinReserved(refunds, sent, id, keys[k]);
    }
    SumMonotone(GroupTotals(submitted, keys), GroupTotals(reserved, keys));
  }

  /**
   No completed capture is over-refunded: over all refunds against it, whatever became of them, the provider amounts
   submitted of each item, all of them out of its own transaction, stay within its paid price, the nominal amounts
   within its price, and the submissions in all within the captured amount.
   */
  lemma NeverOverRefunded(sources: Sources, s: State, id: string)
    requires Inv(s) && SoundSources(sources) && Within(sources, s.refunds)
    requires Completed(sources, id) && sources[id].id == id
    ensures var source := sources[id];
      && source.transactions.Some?
      && (forall k :: 0 <= k < |source.transactions.value| ==>
            var t := source.transactions.value[k];
            && TotalFor(Submitted(s.refunds, s.sent, id), t.itemId)
               <= TotalFor(ProviderReserved(s.refunds, id), t.itemId)
            && TotalFor(SubmittedTo(s.refunds, s.sent, id), t.transactionId)
               == TotalFor(Submitted(s.refunds, s.sent, id), t.itemId)
            && ItemFits(s.refunds, id, t))
      && Total(Submitted(s.refunds, s.sent, id)) <= Total(ProviderReserved(s.refunds, id)) <= source.amount
      && Total(NominalReserved(s.refunds, id)) <= source.amount
  {
    var source := sources[id];
    assert Form.SoundRow(source);
    AllSound(s);
    forall k | 0 <= k < |source.transactions.value| ensures
      TotalFor(Submitted(s.refunds, s.sent, id), source.transactions.value[k].itemId)
      <= TotalFor(ProviderReserved(s.refunds, id), source.transactions.value[k].itemId) {
      SubmittedWithinReserved(s.refunds, s.sent, id, source.transactions.value[k].itemId);
    }
    forall k | 0 <= k < |source.transactions.value| ensures
      TotalFor(SubmittedTo(s.refunds, s.sent, id), source.transactions.value[k].transactionId)
      == TotalFor(Submitted(s.refunds, s.sent, id), source.transactions.value[k].itemId) {
      SubmittedPerTransaction(sources, s.refunds, s.sent, id, k);
    }
    CaptureTotal(s.refunds, source);
    SubmittedTotal(s.refunds, s.sent, id, Keys(Form.PricePairs(source.transactions.value)));
  }
}
