/**
 Capture capacity over whole histories of refund starts, and what a start that ran to its end has reserved.

 Starts for one purchase are serialised by a lease; a start may still stop part-way and be retried after others.
 */
module RefundCapacity {
  import opened Wrappers
  import opened Sums
  import opened RefundSplit
  import opened RefundPlan
  import opened CoreRefund

  predicate Quiet(s: State) {
    forall c :: c in s.callers ==> s.callers[c].Idle?
  }

  /** The lease: a call starts only when no other call is under way. */
  ghost predicate Serial(p: Purchase, steps: seq<Step>) {
    forall i :: 0 <= i < |steps| && steps[i].Start? ==> Quiet(Run(p, INITIAL, steps[..i]))
  }

  // ---- Sums over the refund rows

  lemma ReservedOnCons(row: RefundRow, rest: seq<RefundRow>, captureId: string)
    ensures ReservedOn([row] + rest, captureId)
         == (if row.captureId == captureId then row.amount else 0) + ReservedOn(rest, captureId)
    ensures Total(RowPairs([row] + rest)) == row.amount + Total(RowPairs(rest))
  {
    assert RowPairs([row] + rest)[1..] == RowPairs(rest);
  }

  lemma {:induction false} OthersOfOwnRow(rows: seq<RefundRow>, row: RefundRow)
    ensures Others(rows + [row], row.paymentId) == Others(rows, row.paymentId)
  {
    if rows == [] {
      assert rows + [row] == [row];
    } else {
      assert (rows + [row])[1..] == rows[1..] + [row];
      OthersOfOwnRow(rows[1..], row);
    }
  }

  lemma {:induction false} ReservedWithoutOwnRow(rows: seq<RefundRow>, paymentId: string, captureId: string)
    requires !HasRow(rows, (paymentId, captureId))
    ensures ReservedOn(Others(rows, paymentId), captureId) == ReservedOn(rows, captureId)
  {
    if rows != [] {
      forall i | 0 <= i < |rows[1..]| ensures KeyOf(rows[1..][i]) != (paymentId, captureId) {
        assert KeyOf(rows[i + 1]) != (paymentId, captureId);
      }
      ReservedWithoutOwnRow(rows[1..], paymentId, captureId);
      assert KeyOf(rows[0]) != (paymentId, captureId);
      assert rows == [rows[0]] + rows[1..];
      ReservedOnCons(rows[0], rows[1..], captureId);
      ReservedOnCons(rows[0], Others(rows[1..], paymentId), captureId);
    }
  }

  /** Status changes move no money. */
  lemma {:induction false} ReservedUnchanged(
    old_: seq<RefundRow>, rows: seq<RefundRow>, paymentId: string, captureId: string)
    requires |old_| == |rows| && Extends(old_, rows)
    ensures ReservedOn(rows, captureId) == ReservedOn(old_, captureId)
    ensures ReservedOn(Others(rows, paymentId), captureId) == ReservedOn(Others(old_, paymentId), captureId)
  {
    assert RowPairs(rows) == RowPairs(old_) by {
      forall i | 0 <= i < |rows| ensures RowPairs(rows)[i] == RowPairs(old_)[i] {
        assert KeyOf(rows[i]) == KeyOf(old_[i]);
      }
    }
    if rows != [] {
      forall i | 0 <= i < |rows[1..]|
        ensures KeyOf(rows[1..][i]) == KeyOf(old_[1..][i]) && rows[1..][i].amount == old_[1..][i].amount
      {
        assert KeyOf(rows[i + 1]) == KeyOf(old_[i + 1]);
      }
      ReservedUnchanged(old_[1..], rows[1..], paymentId, captureId);
      assert KeyOf(rows[0]) == KeyOf(old_[0]);
      ReservedOnCons(rows[0], Others(rows[1..], paymentId), captureId);
      ReservedOnCons(old_[0], Others(old_[1..], paymentId), captureId);
    }
  }

  // ---- The capacity invariant

  predicate WithinCaptures(p: Purchase, rows: seq<RefundRow>) {
    forall k :: 0 <= k < |p.captures| ==> ReservedOn(rows, p.captures[k].id) <= p.captures[k].amount
  }

  /** Every share still fits beside the refunds of the other payments. */
  predicate Fits(s: State, c: Phase) {
    c.Idle? || forall a :: a in c.allocations ==>
      a.amount <= a.capture.amount - ReservedOn(Others(s.rows, c.paymentId), a.capture.id)
  }

  ghost predicate CapacityInv(p: Purchase, s: State) {
    && Inv(p, s)
    && WithinCaptures(p, s.rows)
    && (forall c :: c in s.callers ==> Fits(s, s.callers[c]))
    && (forall c, d :: c in s.callers && d in s.callers && !s.callers[c].Idle? && !s.callers[d].Idle? ==> c == d)
  }

  /** A call that has just started computed its shares from the refunds of the other payments. */
  lemma StartFits(p: Purchase, s: State, caller: string, paymentId: string, found: seq<Capture>)
    requires PhaseOf(s, caller).Idle?
    ensures var t := Next(p, s, Start(caller, paymentId, found)); Fits(t, PhaseOf(t, caller))
  {
    if StartAllocations(p, found, s.rows, paymentId).Some? {
      AllocationsAreSafe(found, Others(s.rows, paymentId), p.totals[paymentId]);
    }
  }

  lemma SameRowsFit(s: State, t: State, c: Phase, d: Phase)
    requires Fits(s, c) && |t.rows| == |s.rows| && Extends(s.rows, t.rows)
    requires Continues(c, d)
    ensures Fits(t, d)
  {
    if !d.Idle? {
      forall a | a in d.allocations
        ensures a.amount <= a.capture.amount - ReservedOn(Others(t.rows, d.paymentId), a.capture.id)
      {
        ReservedUnchanged(s.rows, t.rows, d.paymentId, a.capture.id);
      }
    }
  }

  /** The call is the same one, or has ended. */
  predicate Continues(c: Phase, d: Phase) {
    d.Idle? || (!c.Idle? && d.paymentId == c.paymentId && d.allocations == c.allocations)
  }

  lemma ReserveContinues(p: Purchase, s: State, caller: string)
    ensures Continues(PhaseOf(s, caller), PhaseOf(Next(p, s, Reserve(caller)), caller))
  {
  }

  lemma SendContinues(p: Purchase, s: State, caller: string, outcome: Outcome)
    ensures Continues(PhaseOf(s, caller), PhaseOf(Next(p, s, Send(caller, outcome)), caller))
  {
  }

  lemma RecordContinues(p: Purchase, s: State, caller: string, accepted: bool)
    ensures Continues(PhaseOf(s, caller), PhaseOf(Next(p, s, Record(caller, accepted)), caller))
  {
  }

  /** Apart from starting, a call keeps its payment and its shares until it ends, and others are untouched. */
  lemma PhaseFollows(p: Purchase, s: State, step: Step, caller: string)
    requires !(step.Start? && step.caller == caller && PhaseOf(s, caller).Idle?)
    ensures Continues(PhaseOf(s, caller), PhaseOf(Next(p, s, step), caller))
  {
    if !step.Poll? && step.caller == caller {
      match step
      case Start(_, _, _) =>
      case Reserve(_) => ReserveContinues(p, s, caller);
      case Send(_, outcome) => SendContinues(p, s, caller, outcome);
      case Record(_, accepted) => RecordContinues(p, s, caller, accepted);
      case Crash(_) =>
    } else if caller in s.callers {
      OtherStays(p, s, step, caller);
    } else {
      assert caller !in Next(p, s, step).callers;
    }
  }

  lemma SameRowsKeepCapacity(p: Purchase, s: State, step: Step)
    requires ValidPurchase(p) && CapacityInv(p, s)
    requires |Next(p, s, step).rows| == |s.rows|
    ensures WithinCaptures(p, Next(p, s, step).rows)
    ensures forall c :: c in Next(p, s, step).callers ==> Fits(Next(p, s, step), Next(p, s, step).callers[c])
  {
    var t := Next(p, s, step);
    StepExtends(p, s, step);
    forall k | 0 <= k < |p.captures| ensures ReservedOn(t.rows, p.captures[k].id) <= p.captures[k].amount {
      ReservedUnchanged(s.rows, t.rows, "", p.captures[k].id);
    }
    forall c | c in t.callers ensures Fits(t, t.callers[c]) {
      if step.Start? && step.caller == c && PhaseOf(s, c).Idle? {
        StartFits(p, s, c, step.paymentId, step.found);
      } else {
        PhaseFollows(p, s, step, c);
        SameRowsFit(s, t, PhaseOf(s, c), t.callers[c]);
      }
    }
  }

  /** The one row a step can add lies on a capture the payment had none on, and fits it. */
  lemma NewRowFits(p: Purchase, s: State, step: Step)
    requires ValidPurchase(p) && CapacityInv(p, s)
    requires |Next(p, s, step).rows| > |s.rows|
    ensures step.Reserve? && var c := PhaseOf(s, step.caller); c.Walking? && c.next < |c.allocations|
    ensures var c := PhaseOf(s, step.caller); var a := c.allocations[c.next];
      && Next(p, s, step).rows == s.rows + [RefundRow(c.paymentId, a.capture.id, a.amount, None, WAITING)]
      && a.capture in p.captures
      && a.amount + ReservedOn(s.rows, a.capture.id) <= a.capture.amount
  {
    var c := PhaseOf(s, step.caller);
    var a := c.allocations[c.next];
    assert Fits(s, c) && SoundPhase(p, s, c) && a in c.allocations;
    ReservedWithoutOwnRow(s.rows, c.paymentId, a.capture.id);
  }

  lemma NewRowKeepsCapacity(p: Purchase, s: State, step: Step)
    requires ValidPurchase(p) && CapacityInv(p, s)
    requires |Next(p, s, step).rows| > |s.rows|
    ensures WithinCaptures(p, Next(p, s, step).rows)
    ensures forall c :: c in Next(p, s, step).callers ==> Fits(Next(p, s, step), Next(p, s, step).callers[c])
  {
    var t := Next(p, s, step);
    NewRowFits(p, s, step);
    var c := PhaseOf(s, step.caller);
    var a := c.allocations[c.next];
    forall k | 0 <= k < |p.captures| ensures ReservedOn(t.rows, p.captures[k].id) <= p.captures[k].amount {
      ReservedOnSnoc(t.rows, |s.rows|, p.captures[k].id);
      assert t.rows[..|s.rows|] == s.rows && t.rows[..|t.rows|] == t.rows;
      if p.captures[k].id == a.capture.id {
        var j :| 0 <= j < |p.captures| && p.captures[j] == a.capture;
        assert CaptureIds(p.captures)[j] == CaptureIds(p.captures)[k];
        assert j == k;
      }
    }
    OthersOfOwnRow(s.rows, t.rows[|s.rows|]);
    assert Others(t.rows, c.paymentId) == Others(s.rows, c.paymentId);
    forall d | d in t.callers ensures Fits(t, t.callers[d]) {
      if !t.callers[d].Idle? {
        PhaseFollows(p, s, step, d);
        assert d == step.caller && Fits(s, c);
      }
    }
  }

  lemma StepKeepsSingleCaller(p: Purchase, s: State, step: Step)
    requires CapacityInv(p, s) && (step.Start? ==> Quiet(s))
    ensures var t := Next(p, s, step);
      forall c, d :: c in t.callers && d in t.callers && !t.callers[c].Idle? && !t.callers[d].Idle? ==> c == d
  {
    var t := Next(p, s, step);
    forall c | c in t.callers && !t.callers[c].Idle? && !(step.Start? && step.caller == c)
      ensures c in s.callers && !s.callers[c].Idle?
    {
      PhaseFollows(p, s, step, c);
    }
  }

  lemma StepKeepsCapacity(p: Purchase, s: State, step: Step)
    requires ValidPurchase(p) && CapacityInv(p, s)
    requires step.Start? ==> Quiet(s)
    ensures CapacityInv(p, Next(p, s, step))
  {
    StepExtends(p, s, step);
    StepKeepsInv(p, s, step);
    StepKeepsSingleCaller(p, s, step);
    if |Next(p, s, step).rows| == |s.rows| {
      SameRowsKeepCapacity(p, s, step);
    } else {
      NewRowKeepsCapacity(p, s, step);
    }
  }

  /**
   However the starts of a purchase stop, are retried and follow one another: the refund operations of any status
   against a capture never exceed what it collected.
   */
  lemma {:induction false} CapacityHolds(p: Purchase, steps: seq<Step>)
    requires ValidPurchase(p) && Serial(p, steps)
    requires forall k :: 0 <= k < |p.captures| ==> p.captures[k].amount >= 0
    ensures CapacityInv(p, Run(p, INITIAL, steps))
  {
    if steps != [] {
      var n := |steps| - 1;
      forall i | 0 <= i < n && steps[..n][i].Start? ensures Quiet(Run(p, INITIAL, steps[..n][..i])) {
        assert steps[..n][..i] == steps[..i] && steps[i].Start?;
      }
      CapacityHolds(p, steps[..n]);
      assert steps[n].Start? ==> Quiet(Run(p, INITIAL, steps[..n]));
      StepKeepsCapacity(p, Run(p, INITIAL, steps[..n]), steps[n]);
    }
  }

  // ---- When a start gets its shares

  lemma {:induction false} OthersHoldLess(rows: seq<RefundRow>, paymentId: string, captureId: string)
    requires forall i :: 0 <= i < |rows| ==> rows[i].amount > 0
    ensures 0 <= ReservedOn(Others(rows, paymentId), captureId) <= ReservedOn(rows, captureId)
  {
    if rows == [] {
      assert RowPairs(rows) == [];
    } else {
      OthersHoldLess(rows[1..], paymentId, captureId);
      assert rows == [rows[0]] + rows[1..];
      ReservedOnCons(rows[0], rows[1..], captureId);
      ReservedOnCons(rows[0], Others(rows[1..], paymentId), captureId);
    }
  }

  /** Completed operations of the purchase, each known to its channel and in the currency of the purchase. */
  predicate Startable(p: Purchase, found: seq<Capture>) {
    && Selects(p, found) && found != []
    && forall k :: 0 <= k < |found| ==> found[k].channelOperationId.Some? && found[k].currency == p.currency
  }

  predicate HasItsShare(plan: Plan, shares: seq<Allocation>) {
    exists a :: && 0 <= a < |shares| && shares[a].capture.id == plan.captureId
                && shares[a].capture.channelOperationId == plan.channelOperationId
                && shares[a].amount == Nominal(plan.lines)
  }

  /** Each plan is for a capture of its own, under the operation its channel knows, and worth exactly its share. */
  predicate PlansAreShares(plans: seq<Plan>, shares: seq<Allocation>) {
    && (forall p, q :: 0 <= p < q < |plans| ==> plans[p].captureId != plans[q].captureId)
    && forall p :: 0 <= p < |plans| ==> HasItsShare(plans[p], shares)
  }

  lemma HasItsShareIff(plan: Plan, shares: seq<Allocation>)
    ensures HasItsShare(plan, shares) <==> IsAllocated(plan, shares)
  {
    if HasItsShare(plan, shares) {
      var a :| && 0 <= a < |shares| && shares[a].capture.id == plan.captureId
               && shares[a].capture.channelOperationId == plan.channelOperationId
               && shares[a].amount == Nominal(plan.lines);
      assert PlanMatches(plan, shares[a]);
    }
    if IsAllocated(plan, shares) {
      var a :| 0 <= a < |shares| && PlanMatches(plan, shares[a]);
      assert shares[a].capture.id == plan.captureId;
    }
  }

  lemma MatchingAreShares(plans: seq<Plan>, shares: seq<Allocation>)
    ensures MatchesAllocations(plans, shares) <==> PlansAreShares(plans, shares)
  {
    forall p | 0 <= p < |plans| ensures HasItsShare(plans[p], shares) <==> IsAllocated(plans[p], shares) {
      HasItsShareIff(plans[p], shares);
    }
  }

  lemma FoundWithinCaptures(p: Purchase, rows: seq<RefundRow>, found: seq<Capture>, paymentId: string)
    requires SoundRows(p, rows) && WithinCaptures(p, rows) && Selects(p, found)
    ensures forall k :: 0 <= k < |found| ==> ReservedOn(Others(rows, paymentId), found[k].id) <= found[k].amount
  {
    forall k | 0 <= k < |found| ensures ReservedOn(Others(rows, paymentId), found[k].id) <= found[k].amount {
      OthersHoldLess(rows, paymentId, found[k].id);
      assert found[k] in p.captures;
      var j :| 0 <= j < |p.captures| && p.captures[j] == found[k];
    }
  }

  /**
   In every quiet state of a serial history, however many starts stopped part-way: a start on matching captures begins
   to walk its shares if and only if what other payments hold on those captures leaves room for its total, and its
   plans, if it has any, are worth those shares.
   */
  lemma StartGetsShares(p: Purchase, steps: seq<Step>, caller: string, paymentId: string, found: seq<Capture>)
    requires SerialHistory(p, steps) && Quiet(Run(p, INITIAL, steps)) && Startable(p, found)
    requires paymentId in p.totals && p.totals[paymentId] > 0
    ensures var rows := Run(p, INITIAL, steps).rows;
      var others, total := Others(rows, paymentId), p.totals[paymentId];
      var shares := Allocations(found, others, total);
      var c := PhaseOf(Run(p, INITIAL, steps + [Start(caller, paymentId, found)]), caller);
      && (shares.Success? <==> total + HeldOn(found, others) <= Sum(CaptureAmounts(found)))
      && (c.Walking? <==>
            shares.Success? && (paymentId in p.plans ==> PlansAreShares(p.plans[paymentId], shares.value)))
      && (c.Walking? ==> c == Walking(paymentId, shares.value, 0))
  {
    var s := Run(p, INITIAL, steps);
    CapacityHolds(p, steps);
    SplitAccepts(found, Others(s.rows, paymentId), p.totals[paymentId]);
    FoundWithinCaptures(p, s.rows, found, paymentId);
    var shares := Allocations(found, Others(s.rows, paymentId), p.totals[paymentId]);
    if shares.Success? && paymentId in p.plans { MatchingAreShares(p.plans[paymentId], shares.value); }
    RunSnoc(p, INITIAL, steps, Start(caller, paymentId, found));
    assert PhaseOf(s, caller).Idle?;
  }

  // ---- What a payment has reserved

  function Own(rows: seq<RefundRow>, paymentId: string): seq<RefundRow> {
    if rows == [] then []
    else if rows[0].paymentId == paymentId then [rows[0]] + Own(rows[1..], paymentId)
    else Own(rows[1..], paymentId)
  }

  lemma {:induction false} OwnMembers(rows: seq<RefundRow>, paymentId: string, row: RefundRow)
    ensures row in Own(rows, paymentId) <==> row in rows && row.paymentId == paymentId
  {
    if rows != [] { OwnMembers(rows[1..], paymentId, row); }
  }

  lemma UniqueTail(rows: seq<RefundRow>)
    requires UniqueRows(rows) && rows != []
    ensures UniqueRows(rows[1..])
  {
    assert forall i :: 0 <= i < |rows[1..]| ==> rows[1..][i] == rows[i + 1];
  }

  lemma {:induction false} OwnUnique(rows: seq<RefundRow>, paymentId: string)
    requires UniqueRows(rows)
    ensures Distinct(Keys(RowPairs(Own(rows, paymentId))))
  {
    if rows != [] {
      var rest := rows[1..];
      UniqueTail(rows);
      OwnUnique(rest, paymentId);
      var tail := Own(rest, paymentId);
      if rows[0].paymentId == paymentId {
        forall k | 0 <= k < |tail| ensures tail[k].captureId != rows[0].captureId {
          OwnMembers(rest, paymentId, tail[k]);
          assert tail[k] in tail;
          var i :| 0 <= i < |rest| && rest[i] == tail[k];
          assert KeyOf(rows[0]) != KeyOf(rows[i + 1]);
        }
        var all := RowPairs(Own(rows, paymentId));
        assert all == [(rows[0].captureId, rows[0].amount)] + RowPairs(tail);
        forall i, j | 0 <= i < j < |all| ensures Keys(all)[i] != Keys(all)[j] {
          if i > 0 { assert Keys(RowPairs(tail))[i - 1] != Keys(RowPairs(tail))[j - 1]; }
        }
      }
    }
  }

  /** All that is reserved for a payment. */
  function OwnTotal(rows: seq<RefundRow>, paymentId: string): int {
    Total(RowPairs(Own(rows, paymentId)))
  }

  predicate Allocated(allocations: seq<Allocation>, captureId: string) {
    exists j :: 0 <= j < |allocations| && allocations[j].capture.id == captureId
  }

  /** Every capture the payment already has a row on still receives a share. */
  predicate NoStrayRow(rows: seq<RefundRow>, paymentId: string, allocations: seq<Allocation>) {
    forall i :: 0 <= i < |rows| && rows[i].paymentId == paymentId ==> Allocated(allocations, rows[i].captureId)
  }

  lemma OwnOnAllocated(rows: seq<RefundRow>, paymentId: string, captureId: string, amount: int)
    requires UniqueRows(rows) && HasAmount(rows, (paymentId, captureId), amount)
    ensures TotalFor(RowPairs(Own(rows, paymentId)), captureId) == amount
  {
    var i :| 0 <= i < |rows| && KeyOf(rows[i]) == (paymentId, captureId) && rows[i].amount == amount;
    OwnMembers(rows, paymentId, rows[i]);
    OwnUnique(rows, paymentId);
    var own := Own(rows, paymentId);
    var k :| 0 <= k < |own| && own[k] == rows[i];
    TotalForUnique(RowPairs(own), k);
  }

  /** The call has gone through all its shares of this payment. */
  predicate AtEnd(c: Phase, paymentId: string) {
    c.Walking? && c.paymentId == paymentId && c.next == |c.allocations|
  }

  lemma EndOfWalkReserves(p: Purchase, s: State, caller: string)
    requires Inv(p, s) && caller in s.callers
    requires var c := s.callers[caller]; c.Walking? && c.next == |c.allocations|
    ensures var c := s.callers[caller];
      && p.totals[c.paymentId] <= OwnTotal(s.rows, c.paymentId)
      && (NoStrayRow(s.rows, c.paymentId, c.allocations) <==>
          p.totals[c.paymentId] == OwnTotal(s.rows, c.paymentId))
  {
    var c := s.callers[caller];
    assert SoundPhase(p, s, c);
    DoneReserves(p, s.rows, c.paymentId, c.allocations);
  }

  lemma DoneReserves(p: Purchase, rows: seq<RefundRow>, paymentId: string, allocations: seq<Allocation>)
    requires UniqueRows(rows) && SoundRows(p, rows) && SoundAllocations(p, paymentId, allocations)
    requires Done(rows, paymentId, allocations, |allocations|)
    ensures p.totals[paymentId] <= OwnTotal(rows, paymentId)
    ensures p.totals[paymentId] == OwnTotal(rows, paymentId) <==> NoStrayRow(rows, paymentId, allocations)
  {
    var own := Own(rows, paymentId);
    var pairs, keys := RowPairs(own), AllocationKeys(allocations);
    forall k | 0 <= k < |pairs| ensures pairs[k].1 > 0 {
      OwnMembers(rows, paymentId, own[k]);
      assert own[k] in own;
    }
    GroupedPart(pairs, keys);
    forall j | 0 <= j < |keys| ensures GroupTotals(pairs, keys)[j] == allocations[j].amount {
      OwnOnAllocated(rows, paymentId, keys[j], allocations[j].amount);
    }
    assert GroupTotals(pairs, keys) == AllocationAmounts(allocations);
    assert p.totals[paymentId] == Sum(GroupTotals(pairs, keys));
    OwnCovered(rows, paymentId, allocations);
  }

  lemma OwnCovered(rows: seq<RefundRow>, paymentId: string, allocations: seq<Allocation>)
    ensures KeysWithin(RowPairs(Own(rows, paymentId)), AllocationKeys(allocations)) <==>
      NoStrayRow(rows, paymentId, allocations)
  {
    var own := Own(rows, paymentId);
    var pairs, keys := RowPairs(own), AllocationKeys(allocations);
    if KeysWithin(pairs, keys) {
      forall i | 0 <= i < |rows| && rows[i].paymentId == paymentId ensures Allocated(allocations, rows[i].captureId) {
        OwnMembers(rows, paymentId, rows[i]);
        var k :| 0 <= k < |own| && own[k] == rows[i];
        assert pairs[k].0 in keys;
        var j :| 0 <= j < |keys| && keys[j] == rows[i].captureId;
        assert allocations[j].capture.id == rows[i].captureId;
      }
    }
    if NoStrayRow(rows, paymentId, allocations) {
      forall k | 0 <= k < |pairs| ensures pairs[k].0 in keys {
        OwnMembers(rows, paymentId, own[k]);
        assert own[k] in own;
        var i :| 0 <= i < |rows| && rows[i] == own[k];
        var j :| 0 <= j < |allocations| && allocations[j].capture.id == rows[i].captureId;
        assert keys[j] == pairs[k].0;
      }
    }
  }

  // ---- After a start has finished

  /** In the state after `n` steps this call is at the end of a start of the payment, and none begins later. */
  ghost predicate FinishedAt(p: Purchase, steps: seq<Step>, n: nat, caller: string, paymentId: string) {
    && n <= |steps| && AtEnd(PhaseOf(Run(p, INITIAL, steps[..n]), caller), paymentId)
    && forall i :: n <= i < |steps| ==> !(steps[i].Start? && steps[i].paymentId == paymentId)
  }

  /** Whoever still works for the payment has nothing left to do. */
  predicate NobodyReserves(s: State, paymentId: string) {
    forall c :: c in s.callers ==>
      s.callers[c].Idle? || s.callers[c].paymentId != paymentId || AtEnd(s.callers[c], paymentId)
  }

  /** The rows of the payment, but for their statuses and channel identities. */
  predicate SameOwn(a: seq<RefundRow>, b: seq<RefundRow>, paymentId: string) {
    Extends(a, b) && forall i :: |a| <= i < |b| ==> b[i].paymentId != paymentId
  }

  lemma AtEndStays(p: Purchase, s: State, step: Step, caller: string, paymentId: string)
    requires AtEnd(PhaseOf(s, caller), paymentId)
    ensures var d := PhaseOf(Next(p, s, step), caller); d.Idle? || AtEnd(d, paymentId)
  {
  }

  lemma StepAddsNoneOf(p: Purchase, s: State, step: Step, paymentId: string)
    requires NobodyReserves(s, paymentId) && !(step.Start? && step.paymentId == paymentId)
    ensures NobodyReserves(Next(p, s, step), paymentId) && SameOwn(s.rows, Next(p, s, step).rows, paymentId)
  {
    var t := Next(p, s, step);
    StepExtends(p, s, step);
    forall c | c in t.callers
      ensures t.callers[c].Idle? || t.callers[c].paymentId != paymentId || AtEnd(t.callers[c], paymentId)
    {
      if !(step.Start? && step.caller == c && PhaseOf(s, c).Idle?) {
        PhaseFollows(p, s, step, c);
        if AtEnd(PhaseOf(s, c), paymentId) { AtEndStays(p, s, step, c, paymentId); }
      }
    }
  }

  lemma {:induction false} RunAddsNoneOf(p: Purchase, steps: seq<Step>, n: nat, paymentId: string)
    requires n <= |steps| && NobodyReserves(Run(p, INITIAL, steps[..n]), paymentId)
    requires forall i :: n <= i < |steps| ==> !(steps[i].Start? && steps[i].paymentId == paymentId)
    ensures NobodyReserves(Run(p, INITIAL, steps), paymentId)
    ensures SameOwn(Run(p, INITIAL, steps[..n]).rows, Run(p, INITIAL, steps).rows, paymentId)
  {
    if n == |steps| {
      assert steps[..n] == steps;
    } else {
      var init, last := steps[..|steps| - 1], steps[|steps| - 1];
      assert init[..n] == steps[..n];
      RunAddsNoneOf(p, init, n, paymentId);
      StepAddsNoneOf(p, Run(p, INITIAL, init), last, paymentId);
      var a, b, c := Run(p, INITIAL, steps[..n]).rows, Run(p, INITIAL, init).rows, Run(p, INITIAL, steps).rows;
      forall i | |a| <= i < |c| ensures c[i].paymentId != paymentId {
        if i < |b| { assert KeyOf(c[i]) == KeyOf(b[i]); }
      }
    }
  }

  lemma SameOwnTotals(a: seq<RefundRow>, b: seq<RefundRow>, paymentId: string, allocations: seq<Allocation>)
    requires SameOwn(a, b, paymentId)
    ensures OwnTotal(a, paymentId) == OwnTotal(b, paymentId)
    ensures NoStrayRow(a, paymentId, allocations) <==> NoStrayRow(b, paymentId, allocations)
  {
    OwnGrows(a, b, paymentId);
    assert forall i :: 0 <= i < |a| ==> KeyOf(b[i]) == KeyOf(a[i]);
  }

  /** Later rows only add to what a payment has reserved, and other payments' rows add nothing. */
  lemma OwnGrows(a: seq<RefundRow>, b: seq<RefundRow>, paymentId: string)
    requires Extends(a, b)
    ensures (forall i :: 0 <= i < |b| ==> b[i].amount > 0) ==> OwnTotal(a, paymentId) <= OwnTotal(b, paymentId)
    ensures SameOwn(a, b, paymentId) ==> OwnTotal(a, paymentId) == OwnTotal(b, paymentId)
  {
    var pairs, rest := PaymentPairs(b), PaymentPairs(b)[|a|..];
    assert PaymentPairs(a) == pairs[..|a|] by {
      forall i | 0 <= i < |a| ensures PaymentPairs(a)[i] == pairs[i] { assert KeyOf(b[i]) == KeyOf(a[i]); }
    }
    assert pairs == PaymentPairs(a) + rest;
    TotalForConcat(PaymentPairs(a), rest, paymentId);
    OwnTotalIsGroup(a, paymentId);
    OwnTotalIsGroup(b, paymentId);
    if forall i :: 0 <= i < |b| ==> b[i].amount > 0 { TotalForNonNegative(rest, paymentId); }
    if SameOwn(a, b, paymentId) { TotalForAbsent(rest, paymentId); }
  }

  lemma FinisherIsAlone(p: Purchase, s: State, caller: string, paymentId: string)
    requires CapacityInv(p, s) && AtEnd(PhaseOf(s, caller), paymentId)
    ensures NobodyReserves(s, paymentId)
  {
  }

  ghost predicate SerialHistory(p: Purchase, steps: seq<Step>) {
    && ValidPurchase(p) && Serial(p, steps)
    && forall k :: 0 <= k < |p.captures| ==> p.captures[k].amount >= 0
  }

  lemma SerialPrefix(p: Purchase, steps: seq<Step>, n: nat)
    requires SerialHistory(p, steps) && n <= |steps|
    ensures SerialHistory(p, steps[..n])
  {
    forall i | 0 <= i < n && steps[..n][i].Start? ensures Quiet(Run(p, INITIAL, steps[..n][..i])) {
      assert steps[..n][..i] == steps[..i] && steps[i].Start?;
    }
  }

  /** The shares of the call in the state after `n` steps. */
  function SharesAt(p: Purchase, steps: seq<Step>, n: nat, caller: string): seq<Allocation>
    requires n <= |steps|
  {
    var c := PhaseOf(Run(p, INITIAL, steps[..n]), caller);
    if c.Idle? then [] else c.allocations
  }

  /**
   Once a start of a payment has gone through all its shares, and until another start of it begins, the payment has
   reserved at least its total, and exactly it if and only if none of its rows lies on a capture to which that start
   gave no share; whatever other payments, polls and crashes do in between.
   */
  lemma FinishedStartReserves(p: Purchase, steps: seq<Step>, n: nat, caller: string, paymentId: string)
    requires SerialHistory(p, steps) && FinishedAt(p, steps, n, caller, paymentId)
    ensures var s := Run(p, INITIAL, steps);
      var shares := SharesAt(p, steps, n, caller);
      && Inv(p, s) && paymentId in p.totals
      && p.totals[paymentId] <= OwnTotal(s.rows, paymentId)
      && (NoStrayRow(s.rows, paymentId, shares) <==> p.totals[paymentId] == OwnTotal(s.rows, paymentId))
  {
    SerialPrefix(p, steps, n);
    CapacityHolds(p, steps[..n]);
    RunKeepsInv(p, INITIAL, steps);
    var s := Run(p, INITIAL, steps[..n]);
    assert SoundPhase(p, s, s.callers[caller]);
    EndOfWalkReserves(p, s, caller);
    FinisherIsAlone(p, s, caller, paymentId);
    RunAddsNoneOf(p, steps, n, paymentId);
    SameOwnTotals(s.rows, Run(p, INITIAL, steps).rows, paymentId, s.callers[caller].allocations);
  }

  // ---- Refunding everything drains every capture

  function PaymentPairs(rows: seq<RefundRow>): (ps: seq<Pair>)
    ensures |ps| == |rows| && forall k :: 0 <= k < |rows| ==> ps[k] == (rows[k].paymentId, rows[k].amount)
  {
    seq(|rows|, k requires 0 <= k < |rows| => (rows[k].paymentId, rows[k].amount))
  }

  lemma {:induction false} OwnTotalIsGroup(rows: seq<RefundRow>, paymentId: string)
    ensures OwnTotal(rows, paymentId) == TotalFor(PaymentPairs(rows), paymentId)
  {
    if rows != [] {
      OwnTotalIsGroup(rows[1..], paymentId);
      assert PaymentPairs(rows)[1..] == PaymentPairs(rows[1..]);
      ReservedOnCons(rows[0], Own(rows[1..], paymentId), "");
    }
  }

  function Totals(p: Purchase, payments: seq<string>): (xs: seq<int>)
    requires forall k :: 0 <= k < |payments| ==> payments[k] in p.totals
    ensures |xs| == |payments| && forall k :: 0 <= k < |xs| ==> xs[k] == p.totals[payments[k]]
  {
    seq(|payments|, k requires 0 <= k < |payments| => p.totals[payments[k]])
  }

  /** Some start of the payment went through all its shares. */
  ghost predicate Finished(p: Purchase, steps: seq<Step>, paymentId: string) {
    exists n: nat, caller :: n <= |steps| && AtEnd(PhaseOf(Run(p, INITIAL, steps[..n]), caller), paymentId)
  }

  lemma {:induction false} RunExtends(p: Purchase, steps: seq<Step>, n: nat)
    requires n <= |steps|
    ensures Extends(Run(p, INITIAL, steps[..n]).rows, Run(p, INITIAL, steps).rows)
  {
    if n == |steps| {
      assert steps[..n] == steps;
    } else {
      var init := steps[..|steps| - 1];
      assert init[..n] == steps[..n];
      RunExtends(p, init, n);
      StepExtends(p, Run(p, INITIAL, init), steps[|steps| - 1]);
      var a, b, c := Run(p, INITIAL, steps[..n]).rows, Run(p, INITIAL, init).rows, Run(p, INITIAL, steps).rows;
      forall i | 0 <= i < |a| ensures KeyOf(c[i]) == KeyOf(a[i]) && c[i].amount == a[i].amount {
        assert KeyOf(b[i]) == KeyOf(a[i]);
      }
    }
  }

  /** What a finished start reserved stays reserved. */
  lemma FinishedHasTotal(p: Purchase, steps: seq<Step>, paymentId: string)
    requires ValidPurchase(p) && Finished(p, steps, paymentId)
    ensures paymentId in p.totals && p.totals[paymentId] <= OwnTotal(Run(p, INITIAL, steps).rows, paymentId)
  {
    var n: nat, caller :| n <= |steps| && AtEnd(PhaseOf(Run(p, INITIAL, steps[..n]), caller), paymentId);
    var s := Run(p, INITIAL, steps[..n]);
    RunKeepsInv(p, INITIAL, steps[..n]);
    RunKeepsInv(p, INITIAL, steps);
    assert SoundPhase(p, s, s.callers[caller]);
    EndOfWalkReserves(p, s, caller);
    RunExtends(p, steps, n);
    OwnGrows(s.rows, Run(p, INITIAL, steps).rows, paymentId);
  }

  /** Rows within every capture, and payments whose rows add up to at least all captures: nothing is left anywhere. */
  lemma NothingIsLeft(p: Purchase, rows: seq<RefundRow>, payments: seq<string>)
    requires ValidPurchase(p) && SoundRows(p, rows) && WithinCaptures(p, rows)
    requires Distinct(payments) && forall k :: 0 <= k < |payments| ==> payments[k] in p.totals
    requires forall k :: 0 <= k < |payments| ==> p.totals[payments[k]] <= OwnTotal(rows, payments[k])
    requires Sum(Totals(p, payments)) == Sum(CaptureAmounts(p.captures))
    ensures forall k :: 0 <= k < |p.captures| ==> ReservedOn(rows, p.captures[k].id) == p.captures[k].amount
    ensures forall k :: 0 <= k < |payments| ==> OwnTotal(rows, payments[k]) == p.totals[payments[k]]
  {
    var byPayment, byCapture, ids := PaymentPairs(rows), RowPairs(rows), CaptureIds(p.captures);
    var own, held := GroupTotals(byPayment, payments), GroupTotals(byCapture, ids);
    forall k | 0 <= k < |payments| ensures own[k] == OwnTotal(rows, payments[k]) { OwnTotalIsGroup(rows, payments[k]); }
    forall k | 0 <= k < |ids| ensures held[k] == ReservedOn(rows, ids[k]) { }
    GroupedPart(byPayment, payments);
    GroupedTotal(byCapture, ids);
    TotalIsSum(byPayment);
    TotalIsSum(byCapture);
    assert Amounts(byPayment) == Amounts(byCapture);
    SumMonotone(Totals(p, payments), own);
    SumMonotone(held, CaptureAmounts(p.captures));
    SumSqueeze(held, CaptureAmounts(p.captures));
    SumSqueeze(Totals(p, payments), own);
  }

  /**
   Partial refunds adding up to the whole purchase: in any serial history in which a start of each of them went
   through, however many others stopped part-way and were retried, every capture is drained to exactly zero, and each
   refund has reserved exactly its total.
   */
  lemma FullRefundDrains(p: Purchase, steps: seq<Step>, payments: seq<string>)
    requires SerialHistory(p, steps)
    requires Distinct(payments) && forall k :: 0 <= k < |payments| ==> Finished(p, steps, payments[k])
    requires forall k :: 0 <= k < |payments| ==> payments[k] in p.totals
    requires Sum(Totals(p, payments)) == Sum(CaptureAmounts(p.captures))
    ensures var rows := Run(p, INITIAL, steps).rows;
      && (forall k :: 0 <= k < |p.captures| ==> ReservedOn(rows, p.captures[k].id) == p.captures[k].amount)
      && (forall k :: 0 <= k < |payments| ==> OwnTotal(rows, payments[k]) == p.totals[payments[k]])
  {
    CapacityHolds(p, steps);
    forall k | 0 <= k < |payments|
      ensures p.totals[payments[k]] <= OwnTotal(Run(p, INITIAL, steps).rows, payments[k]) {
      FinishedHasTotal(p, steps, payments[k]);
    }
    NothingIsLeft(p, Run(p, INITIAL, steps).rows, payments);
  }
}
