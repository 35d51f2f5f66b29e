/** When a payment counts as paid: `updatePaymentByOperationStatuses` over the operations of one payment. */
module RefundCompletion {
  import opened Sums
  import opened RefundSplit
  import opened CoreRefund
  import opened RefundCapacity
  import opened RefundStart
  import Payments

  type PaymentStatus = Payments.PaymentStatus

  datatype PaymentError = NoError | Expired

  predicate IsDone(row: RefundRow) { row.status == READY || row.status == COMPLETED }

  predicate AllDone(rows: seq<RefundRow>) {
    forall i :: 0 <= i < |rows| ==> rows[i].status == READY || rows[i].status == COMPLETED
  }

  /** `totalPaidOrAuthorizedOf`. */
  function PaidOrAuthorized(rows: seq<RefundRow>): int {
    if rows == [] then 0 else (if IsDone(rows[0]) then rows[0].amount else 0) + PaidOrAuthorized(rows[1..])
  }

  function RowTotal(rows: seq<RefundRow>): int { Total(RowPairs(rows)) }

  predicate AllPositive(rows: seq<RefundRow>) {
    forall i :: 0 <= i < |rows| ==> rows[i].amount > 0
  }

  lemma {:induction false} PaidConcat(a: seq<RefundRow>, b: seq<RefundRow>)
    ensures PaidOrAuthorized(a + b) == PaidOrAuthorized(a) + PaidOrAuthorized(b)
  {
    if a == [] {
      assert a + b == b;
    } else {
      assert (a + b)[1..] == a[1..] + b;
      PaidConcat(a[1..], b);
    }
  }

  /** What is paid falls short of everything by at least the smallest part that is not done. */
  lemma {:induction false} PaidGap(rows: seq<RefundRow>, i: nat)
    requires AllPositive(rows) && i < |rows|
    ensures PaidOrAuthorized(rows) <= RowTotal(rows)
    ensures !IsDone(rows[i]) ==> PaidOrAuthorized(rows) + rows[i].amount <= RowTotal(rows)
  {
    var rest := rows[1..];
    assert rows == [rows[0]] + rest;
    ReservedOnCons(rows[0], rest, "");
    if rest != [] {
      PaidGap(rest, if i == 0 then 0 else i - 1);
    } else {
      assert RowPairs(rest) == [];
    }
  }

  lemma {:induction false} PaidWhenDone(rows: seq<RefundRow>)
    requires AllDone(rows)
    ensures PaidOrAuthorized(rows) == RowTotal(rows)
  {
    if rows != [] {
      assert rows == [rows[0]] + rows[1..];
      ReservedOnCons(rows[0], rows[1..], "");
      PaidWhenDone(rows[1..]);
    }
  }

  lemma {:induction false} PaidAllButOne(rows: seq<RefundRow>, i: nat)
    requires i < |rows| && !IsDone(rows[i]) && forall k :: 0 <= k < |rows| && k != i ==> IsDone(rows[k])
    ensures PaidOrAuthorized(rows) == RowTotal(rows) - rows[i].amount
  {
    var rest := rows[1..];
    assert rows == [rows[0]] + rest;
    ReservedOnCons(rows[0], rest, "");
    if i == 0 {
      PaidWhenDone(rest);
    } else {
      PaidAllButOne(rest, i - 1);
    }
  }

  /** The same parts, in whatever status. */
  predicate SameParts(a: seq<RefundRow>, b: seq<RefundRow>) {
    |a| == |b| && forall i :: 0 <= i < |a| ==> RowPairs(a)[i] == RowPairs(b)[i]
  }

  /** What is reserved beyond the total is less than every single part. */
  predicate ExcessBelowParts(rows: seq<RefundRow>, total: int) {
    forall i :: 0 <= i < |rows| ==> RowTotal(rows) - total < rows[i].amount
  }

  lemma PaidTestWithSmallExcess(rows: seq<RefundRow>, total: int)
    requires AllPositive(rows) && total <= RowTotal(rows) && ExcessBelowParts(rows, total)
    ensures PaidOrAuthorized(rows) >= total <==> AllDone(rows)
  {
    if AllDone(rows) { PaidWhenDone(rows); }
    if i :| 0 <= i < |rows| && !IsDone(rows[i]) { PaidGap(rows, i); }
  }

  /** All parts completed but one, which is still waiting. */
  function AllBut(rows: seq<RefundRow>, i: nat): (r: seq<RefundRow>)
    ensures |r| == |rows|
    ensures forall k :: 0 <= k < |r| ==> r[k] == rows[k].(status := if k == i then WAITING else COMPLETED)
  {
    seq(|rows|, k requires 0 <= k < |rows| => rows[k].(status := if k == i then WAITING else COMPLETED))
  }

  /**
   The "paid >= total" test says that every part is done, in whatever statuses the parts are, if and only if what is
   reserved beyond the total is less than every single part; in particular when exactly the total is reserved.
   */
  lemma PaidTestMatchesParts(rows: seq<RefundRow>, total: int)
    requires AllPositive(rows) && total <= RowTotal(rows)
    ensures (forall other :: SameParts(rows, other) ==> (PaidOrAuthorized(other) >= total <==> AllDone(other)))
       <==> ExcessBelowParts(rows, total)
  {
    if ExcessBelowParts(rows, total) {
      forall other | SameParts(rows, other) ensures PaidOrAuthorized(other) >= total <==> AllDone(other) {
        SamePartsSameExcess(rows, other, total);
        PaidTestWithSmallExcess(other, total);
      }
    } else {
      var i :| 0 <= i < |rows| && rows[i].amount <= RowTotal(rows) - total;
      var other := AllBut(rows, i);
      assert RowPairs(other) == RowPairs(rows);
      PaidAllButOne(other, i);
      assert SameParts(rows, other) && !IsDone(other[i]);
    }
  }

  lemma SamePartsSameExcess(rows: seq<RefundRow>, other: seq<RefundRow>, total: int)
    requires SameParts(rows, other)
    ensures RowTotal(other) == RowTotal(rows)
    ensures AllPositive(rows) ==> AllPositive(other)
    ensures ExcessBelowParts(rows, total) ==> ExcessBelowParts(other, total)
  {
    assert RowPairs(other) == RowPairs(rows);
    forall i | 0 <= i < |rows| ensures other[i].amount == rows[i].amount {
      assert RowPairs(other)[i] == RowPairs(rows)[i];
    }
  }

  /** The state `updatePaymentByOperationStatuses` leaves an unresolved payment in. */
  function StatusAfter(
    status: PaymentStatus, total: int, open: bool, refund: bool, failOnChannelFailure: bool, overdue: bool,
    rows: seq<RefundRow>): (PaymentStatus, PaymentError)
  {
    if status == Payments.COMPLETED || status == Payments.FAILED then (status, NoError)
    else if !open && PaidOrAuthorized(rows) >= total then (Payments.COMPLETED, NoError)
    else if exists i :: 0 <= i < |rows| && rows[i].status == FAILED then
      if failOnChannelFailure then (Payments.FAILED, NoError)
      else if forall i :: 0 <= i < |rows| ==> rows[i].status == FAILED then (Payments.INITIATED, NoError)
      else (status, NoError)
    else if !open && !refund && overdue then (Payments.FAILED, Expired)
    else (status, NoError)
  }

  predicate SomeFailed(rows: seq<RefundRow>) { exists i :: 0 <= i < |rows| && rows[i].status == FAILED }

  /**
   What becomes of an unresolved payment. It is paid once enough of it is ready or completed, unless it is open.
   Otherwise it fails either through an operation that failed, if the payment is to fail with its channels, or by
   expiry, which no refund, no open payment and no payment with a failed operation ever does; it starts over once all
   its operations failed; and it stays as it is in every other case.
   */
  lemma UnresolvedBecomes(
    status: PaymentStatus, total: int, open: bool, refund: bool, failOnChannelFailure: bool, overdue: bool,
    rows: seq<RefundRow>)
    requires status == Payments.INITIATED || status == Payments.WAITING
    ensures var (after, reason) := StatusAfter(status, total, open, refund, failOnChannelFailure, overdue, rows);
      var paid := !open && PaidOrAuthorized(rows) >= total;
      && (after == Payments.COMPLETED <==> paid)
      && (after == Payments.FAILED && reason == NoError <==> !paid && SomeFailed(rows) && failOnChannelFailure)
      && (after == Payments.FAILED && reason == Expired <==>
            !paid && !SomeFailed(rows) && overdue && !open && !refund)
      && (after == Payments.INITIATED && status == Payments.WAITING <==>
            status == Payments.WAITING && !paid && SomeFailed(rows) && !failOnChannelFailure
            && forall i :: 0 <= i < |rows| ==> rows[i].status == FAILED)
      && (after == Payments.WAITING ==> status == Payments.WAITING) && (reason == Expired ==> after == Payments.FAILED)
  {
  }

  class Payment {
    const total: int
    const refund: bool
    const failOnChannelFailure: bool
    var open: bool
    var status: PaymentStatus
    var error: PaymentError

    constructor (total: int, refund: bool, failOnChannelFailure: bool, open: bool, status: PaymentStatus)
      ensures this.total == total && this.refund == refund && this.failOnChannelFailure == failOnChannelFailure
      ensures this.open == open && this.status == status && error == NoError
    {
      this.total, this.refund, this.failOnChannelFailure := total, refund, failOnChannelFailure;
      this.open, this.status, error := open, status, NoError;
    }

    /** One call with the operations of this payment as the database shows them. */
    method UpdateByOperationStatuses(rows: seq<RefundRow>, overdue: bool)
      modifies this`status, this`error
      ensures var (after, reason) := StatusAfter(old(status), total, open, refund, failOnChannelFailure, overdue, rows);
        status == after && error == if after == old(status) then old(error) else reason
      ensures old(status) == Payments.COMPLETED || old(status) == Payments.FAILED ==>
        status == old(status) && error == old(error)
    {
      if status == Payments.COMPLETED || status == Payments.FAILED {
        return;
      }
      var paid := 0;
      for i := 0 to |rows|
        modifies {}
        invariant paid == PaidOrAuthorized(rows[..i])
      {
        assert rows[..i + 1] == rows[..i] + [rows[i]] && [rows[i]][1..] == [];
        PaidConcat(rows[..i], [rows[i]]);
        if IsDone(rows[i]) {
          paid := paid + rows[i].amount;
        }
      }
      assert rows[..|rows|] == rows;
      if !open && paid >= total {
        status, error := Payments.COMPLETED, NoError;
        return;
      }
      if exists i :: 0 <= i < |rows| && rows[i].status == FAILED {
        if failOnChannelFailure {
          status, error := Payments.FAILED, NoError;
        } else if forall i :: 0 <= i < |rows| ==> rows[i].status == FAILED {
          if status != Payments.INITIATED {
            status, error := Payments.INITIATED, NoError;
          }
        }
      } else if !open && !refund && overdue {
        status, error := Payments.FAILED, Expired;
      }
    }
  }

  /**
   A refund payment of which some start went through, whatever has happened since: it completes exactly when all its
   operations are ready or completed, if its rows exceed its total by less than each of them; and the same holds in
   every possible state of its operations only then.
   */
  lemma RefundCompletesExactly(
    p: Purchase, steps: seq<Step>, paymentId: string, status: PaymentStatus, overdue: bool)
    requires ValidPurchase(p) && Finished(p, steps, paymentId)
    requires status != Payments.COMPLETED && status != Payments.FAILED
    ensures paymentId in p.totals
    ensures var own, total := Own(Run(p, INITIAL, steps).rows, paymentId), p.totals[paymentId];
      && (ExcessBelowParts(own, total) ==> (Completes(own, total, status, overdue) <==> AllDone(own)))
      && ((forall other :: SameParts(own, other) ==> (Completes(other, total, status, overdue) <==> AllDone(other)))
          <==> ExcessBelowParts(own, total))
  {
    FinishedHasTotal(p, steps, paymentId);
    RunKeepsInv(p, INITIAL, steps);
    OwnIsPositive(p, Run(p, INITIAL, steps).rows, paymentId);
    var own, total := Own(Run(p, INITIAL, steps).rows, paymentId), p.totals[paymentId];
    PaidTestMatchesParts(own, total);
    assert SameParts(own, own);
    assert forall other :: Completes(other, total, status, overdue) <==> PaidOrAuthorized(other) >= total;
  }

  /**
   After a start that went through, and until another one begins, there is no excess if no row of the payment lies on a
   capture to which that start gave no share: the payment completes exactly when all its operations are done.
   */
  lemma NoStrayRowNoExcess(
    p: Purchase, steps: seq<Step>, n: nat, caller: string, paymentId: string, status: PaymentStatus, overdue: bool)
    requires SerialHistory(p, steps) && FinishedAt(p, steps, n, caller, paymentId)
    requires status != Payments.COMPLETED && status != Payments.FAILED
    requires NoStrayRow(Run(p, INITIAL, steps).rows, paymentId, SharesAt(p, steps, n, caller))
    ensures paymentId in p.totals
    ensures var own, total := Own(Run(p, INITIAL, steps).rows, paymentId), p.totals[paymentId];
      ExcessBelowParts(own, total) && (Completes(own, total, status, overdue) <==> AllDone(own))
  {
    FinishedStartReserves(p, steps, n, caller, paymentId);
    OwnIsPositive(p, Run(p, INITIAL, steps).rows, paymentId);
    PaidTestWithSmallExcess(Own(Run(p, INITIAL, steps).rows, paymentId), p.totals[paymentId]);
  }

  /** What one call makes of a refund payment with these operations. */
  predicate Completes(rows: seq<RefundRow>, total: int, status: PaymentStatus, overdue: bool) {
    StatusAfter(status, total, false, true, false, overdue, rows).0 == Payments.COMPLETED
  }

  lemma OwnIsPositive(p: Purchase, rows: seq<RefundRow>, paymentId: string)
    requires SoundRows(p, rows)
    ensures AllPositive(Own(rows, paymentId))
  {
    var own := Own(rows, paymentId);
    forall i | 0 <= i < |own| ensures own[i].amount > 0 {
      OwnMembers(rows, paymentId, own[i]);
      assert own[i] in own;
    }
  }

  const PAID_ON_B: RefundRow := ON_B.(status := COMPLETED)
  const POLLED: seq<Step> := HISTORY + [Poll(2, COMPLETED)]

  lemma AfterPoll()
    ensures Run(SPLIT, INITIAL, POLLED).rows == [ON_A, OTHER_ON_A, PAID_ON_B]
  {
    ThirdLeg();
    RunSnoc(SPLIT, INITIAL, HISTORY, Poll(2, COMPLETED));
  }

  lemma OwnOfTwo()
    ensures Own([ON_A, OTHER_ON_A, PAID_ON_B], "P") == [ON_A, PAID_ON_B]
  {
    var all := [ON_A, OTHER_ON_A, PAID_ON_B];
    assert all[1..] == [OTHER_ON_A, PAID_ON_B] && [OTHER_ON_A, PAID_ON_B][1..] == [PAID_ON_B] && [PAID_ON_B][1..] == [];
    assert Own([PAID_ON_B], "P") == [PAID_ON_B] + [] && Own([OTHER_ON_A, PAID_ON_B], "P") == Own([PAID_ON_B], "P");
  }

  /**
   The history of `RetryReservesTooMuch`, and then a poll that finds the last operation completed: the refund of 2
   completes while its first operation is still waiting.
   */
  lemma RetriedRefundCompletesEarly()
    ensures var s := Run(SPLIT, INITIAL, POLLED); var own := Own(s.rows, "P");
      && s.rows == [ON_A, OTHER_ON_A, PAID_ON_B]
      && Completes(own, SPLIT.totals["P"], Payments.WAITING, false) && !AllDone(own)
  {
    AfterPoll();
    OwnOfTwo();
    var own := [ON_A, PAID_ON_B];
    assert !IsDone(own[0]);
    assert own[1..] == [PAID_ON_B] && [PAID_ON_B][1..] == [];
    assert PaidOrAuthorized([PAID_ON_B]) == 2;
  }
}
