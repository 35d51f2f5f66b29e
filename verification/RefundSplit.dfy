/**
 Splitting a refund total over the captures that collected the purchase.

 Money is an integer number of 1e-4 units, so truncation to four decimals is an integer division.
 */
module RefundSplit {
  import opened Wrappers
  import opened Sums

  datatype OperationStatus = WAITING | READY | COMPLETED | FAILED

  /** A completed purchase operation: money a channel has collected. */
  datatype Capture = Capture(
    id: string, channelId: string, channelOperationId: Option<string>, amount: int, currency: string)

  /** A refund operation reserved against a capture. */
  datatype RefundRow = RefundRow(
    paymentId: string, captureId: string, amount: int, channelOperationId: Option<string>, status: OperationStatus)

  datatype Allocation = Allocation(capture: Capture, amount: int)

  // ---- What is left of each capture

  function RowPairs(rows: seq<RefundRow>): (ps: seq<Pair>)
    ensures |ps| == |rows|
    ensures forall k :: 0 <= k < |rows| ==> ps[k] == (rows[k].captureId, rows[k].amount)
  {
    seq(|rows|, k requires 0 <= k < |rows| => (rows[k].captureId, rows[k].amount))
  }

  /** Refunds of any status against a capture. */
  function ReservedOn(rows: seq<RefundRow>, captureId: string): int {
    TotalFor(RowPairs(rows), captureId)
  }

  function Available(captures: seq<Capture>, previous: seq<RefundRow>): (a: seq<int>)
    ensures |a| == |captures|
    ensures forall k :: 0 <= k < |captures| ==> a[k] == captures[k].amount - ReservedOn(previous, captures[k].id)
  {
    seq(|captures|, k requires 0 <= k < |captures| => captures[k].amount - ReservedOn(previous, captures[k].id))
  }

  lemma ReservedOnSnoc(rows: seq<RefundRow>, i: nat, captureId: string)
    requires i < |rows|
    ensures ReservedOn(rows[..i + 1], captureId)
         == ReservedOn(rows[..i], captureId) + (if rows[i].captureId == captureId then rows[i].amount else 0)
  {
    assert RowPairs(rows[..i + 1]) == RowPairs(rows[..i]) + [(rows[i].captureId, rows[i].amount)];
    TotalForConcat(RowPairs(rows[..i]), [(rows[i].captureId, rows[i].amount)], captureId);
  }

  // ---- The shares

  /** The shares from one capture onward, given what is still to be handed out. */
  function Shares(available: seq<int>, remaining: int): (s: seq<int>)
    ensures |s| == |available|
  {
    if available == [] then []
    else
      var all := Sum(available);
      var amount := if all == 0 then 0 else if all == available[0] then remaining
                    else remaining * available[0] / all;
      [amount] + Shares(available[1..], remaining - amount)
  }

  predicate Splittable(available: seq<int>, total: int) {
    (forall k :: 0 <= k < |available| ==> available[k] >= 0) && 0 <= total <= Sum(available)
  }

  lemma FloorBounds(n: int, d: int)
    requires n >= 0 && d > 0
    ensures 0 <= n / d && (n / d) * d <= n < (n / d + 1) * d
  {
    assert n == (n / d) * d + n % d;
  }

  lemma ProductMonotone(x: int, y: int, z: int)
    requires x <= y && z >= 0
    ensures x * z <= y * z
  {
  }

  lemma DivideBelow(q: int, d: int, b: int)
    requires d > 0 && q * d <= b * d
    ensures q <= b
  {
    if q > b { ProductMonotone(b + 1, q, d); }
  }

  lemma DefectProduct(all: int, r: int, a: int)
    ensures (all - r) * (all - a) == r * a - (r + a - all) * all
  {
  }

  /** A truncated proportional share leaves no more than the others can take. */
  lemma FloorLeaves(r: int, a: int, all: int, x: int)
    requires 0 <= r <= all && 0 <= a <= all && all > 0 && r * a < (x + 1) * all
    ensures r - x <= all - a
  {
    ProductMonotone(0, all - r, all - a);
    DefectProduct(all, r, a);
    if x + 1 <= r + a - all { ProductMonotone(x + 1, r + a - all, all); }
  }

  lemma FloorFits(r: int, a: int, all: int, x: int)
    requires 0 <= r <= all && 0 <= a <= all && all > 0 && x * all <= r * a
    ensures x <= a && x <= r
  {
    ProductMonotone(r, all, a);
    DivideBelow(x, all, a);
    ProductMonotone(a, all, r);
    DivideBelow(x, all, r);
  }

  /** One turn of the split: the share fits its capture, and what remains fits the other captures. */
  lemma ShareFits(available: seq<int>, remaining: int)
    requires available != [] && Splittable(available, remaining)
    ensures 0 <= Shares(available, remaining)[0] <= available[0]
    ensures Splittable(available[1..], remaining - Shares(available, remaining)[0])
  {
    var a, all, x := available[0], Sum(available), Shares(available, remaining)[0];
    SumNonNegative(available[1..]);
    if all != 0 && all != a {
      ProductMonotone(0, remaining, a);
      FloorBounds(remaining * a, all);
      FloorFits(remaining, a, all, x);
      FloorLeaves(remaining, a, all, x);
    }
  }

  /** Exact and safe: the shares add up to the total and none exceeds what its capture has left. */
  lemma {:induction false} SplitIsExact(available: seq<int>, total: int)
    requires Splittable(available, total)
    ensures Sum(Shares(available, total)) == total
    ensures forall k :: 0 <= k < |available| ==> 0 <= Shares(available, total)[k] <= available[k]
  {
    if available != [] {
      var s := Shares(available, total);
      ShareFits(available, total);
      SplitIsExact(available[1..], total - s[0]);
      assert s[1..] == Shares(available[1..], total - s[0]);
      forall k | 0 <= k < |available| ensures 0 <= s[k] <= available[k] {
        if k > 0 { assert s[k] == s[1..][k - 1] && available[k] == available[1..][k - 1]; }
      }
    }
  }

  /** Refunding everything that is left drains every capture to exactly zero. */
  lemma SplitDrains(available: seq<int>)
    requires Splittable(available, Sum(available))
    ensures Shares(available, Sum(available)) == available
  {
    SplitIsExact(available, Sum(available));
    SumSqueeze(Shares(available, Sum(available)), available);
  }

  /**
   One turn of the drift argument. `whole` and `total` are the sum and total of the whole split; the drift
   `remaining * whole - total * all` is how far the running remainder is above its proportional value.
   */
  lemma DriftStep(whole: int, total: int, all: int, remaining: int, a: int, x: int, k: nat)
    requires whole > 0 && 0 <= a <= all && all > 0
    requires x * all <= remaining * a < (x + 1) * all
    requires 0 <= remaining * whole - total * all
    requires if k == 0 then remaining * whole == total * all else remaining * whole - total * all < k * whole
    ensures -whole < x * whole - total * a
    ensures if k == 0 then x * whole <= total * a else x * whole - total * a < k * whole
    ensures 0 <= (remaining - x) * whole - total * (all - a) < (k + 1) * whole
  {
    DriftIdentity(whole, total, all, remaining, a, x);
    DriftBounds(x * whole - total * a, all, a, remaining * whole - total * all, whole, remaining * a - x * all);
    assert (remaining - x) * whole - total * (all - a)
        == (remaining * whole - total * all) - (x * whole - total * a) by {
      assert (remaining - x) * whole == remaining * whole - x * whole;
      assert total * (all - a) == total * all - total * a;
    }
    assert (k + 1) * whole == k * whole + whole;
  }

  lemma DriftIdentity(whole: int, total: int, all: int, remaining: int, a: int, x: int)
    ensures (x * whole - total * a) * all == a * (remaining * whole - total * all) - whole * (remaining * a - x * all)
  {
    assert (x * whole - total * a) * all == x * whole * all - total * a * all;
    assert a * (remaining * whole - total * all) == a * remaining * whole - a * total * all;
    assert whole * (remaining * a - x * all) == whole * remaining * a - whole * x * all;
  }

  lemma DriftBounds(e: int, all: int, a: int, d: int, whole: int, f: int)
    requires e * all == a * d - whole * f
    requires 0 <= a <= all && all > 0 && d >= 0 && whole > 0 && 0 <= f < all
    ensures -whole < e <= d
  {
    ProductMonotone(a, all, d);
    ProductMonotone(0, f, whole);
    DivideBelow(e, all, d);
    ProductMonotone(0, a, d);
    DriftAbove(e, all, whole, f);
  }

  lemma DriftAbove(e: int, all: int, whole: int, f: int)
    requires e * all >= -(whole * f) && 0 <= f < all && whole > 0
    ensures -whole < e
  {
    assert (f + 1) * whole == whole * f + whole;
    assert (-whole) * all == -(all * whole);
    ProductMonotone(f + 1, all, whole);
    if e <= -whole { ProductMonotone(e, -whole, all); }
  }

  /** How far the running remainder may be above its proportional value at the k-th share. */
  predicate Drifted(remaining: int, all: int, whole: int, total: int, k: nat) {
    && 0 <= remaining * whole - total * all
    && if k == 0 then remaining * whole == total * all else remaining * whole - total * all < k * whole
  }

  /** How far the k-th share may be from its proportional value. */
  predicate FairShare(x: int, a: int, whole: int, total: int, k: nat) {
    && -whole < x * whole - total * a
    && if k == 0 then x * whole <= total * a else x * whole - total * a < k * whole
  }

  lemma NothingDrifts(whole: int, total: int, k: nat)
    requires whole > 0
    ensures FairShare(0, 0, whole, total, k) && Drifted(0, 0, whole, total, k + 1)
  {
    if k > 0 { ProductMonotone(1, k, whole); }
    ProductMonotone(1, k + 1, whole);
    assert total * 0 == 0;
  }

  /** Each share is the proportional one, truncated. */
  lemma ShareFloors(available: seq<int>, remaining: int)
    requires available != [] && Splittable(available, remaining) && Sum(available) > 0
    ensures var x := Shares(available, remaining)[0];
      x * Sum(available) <= remaining * available[0] < (x + 1) * Sum(available)
  {
    var a, all, x := available[0], Sum(available), Shares(available, remaining)[0];
    if all == a {
      assert x == remaining && (x + 1) * all == x * all + all;
    } else {
      FloorBounds(remaining * a, all);
    }
  }

  lemma FairTurn(available: seq<int>, remaining: int, whole: int, total: int, k: nat)
    requires available != [] && whole > 0 && Splittable(available, remaining)
    requires Drifted(remaining, Sum(available), whole, total, k)
    ensures FairShare(Shares(available, remaining)[0], available[0], whole, total, k)
    ensures Drifted(remaining - Shares(available, remaining)[0], Sum(available[1..]), whole, total, k + 1)
  {
    var a, all, x := available[0], Sum(available), Shares(available, remaining)[0];
    SumNonNegative(available[1..]);
    if all == 0 {
      NothingDrifts(whole, total, k);
    } else {
      ShareFloors(available, remaining);
      DriftStep(whole, total, all, remaining, a, x, k);
    }
  }

  lemma {:induction false} SplitIsFairFrom(available: seq<int>, remaining: int, whole: int, total: int, k: nat)
    requires whole > 0 && Splittable(available, remaining) && Drifted(remaining, Sum(available), whole, total, k)
    ensures forall j :: 0 <= j < |available| ==>
      FairShare(Shares(available, remaining)[j], available[j], whole, total, k + j)
  {
    if available != [] {
      var s := Shares(available, remaining);
      ShareFits(available, remaining);
      FairTurn(available, remaining, whole, total, k);
      SplitIsFairFrom(available[1..], remaining - s[0], whole, total, k + 1);
      assert s[1..] == Shares(available[1..], remaining - s[0]);
      forall j | 0 <= j < |available| ensures FairShare(s[j], available[j], whole, total, k + j) {
        if j > 0 { assert s[j] == s[1..][j - 1] && available[j] == available[1..][j - 1]; }
      }
    }
  }

  /**
   Fair: multiplied out by the sum of what is left, the k-th share differs from the exactly proportional one by
   more than -1 unit and less than max(k, 1) units.
   */
  lemma SplitIsFair(available: seq<int>, total: int)
    requires Splittable(available, total) && Sum(available) > 0
    ensures forall k :: 0 <= k < |available| ==>
      var whole := Sum(available);
      -whole < Shares(available, total)[k] * whole - total * available[k] < (if k == 0 then 1 else k) * whole
  {
    SplitIsFairFrom(available, total, Sum(available), total, 0);
    forall k | 0 <= k < |available|
      ensures var whole := Sum(available);
        -whole < Shares(available, total)[k] * whole - total * available[k] < (if k == 0 then 1 else k) * whole
    {
      assert FairShare(Shares(available, total)[k], available[k], Sum(available), total, 0 + k);
    }
  }

  // ---- The allocations handed to the refund start

  function Positive(captures: seq<Capture>, shares: seq<int>): (r: seq<Allocation>)
    requires |captures| == |shares|
  {
    if captures == [] then []
    else (if shares[0] > 0 then [Allocation(captures[0], shares[0])] else []) + Positive(captures[1..], shares[1..])
  }

  /** The specification of `refundCaptureAllocations`. */
  function Allocations(captures: seq<Capture>, previous: seq<RefundRow>, total: int): Result<seq<Allocation>>
    requires total >= 0
  {
    var available := Available(captures, previous);
    if (exists k :: 0 <= k < |available| && available[k] < 0) || total > Sum(available) then Failure(BadRequest)
    else Success(Positive(captures, Shares(available, total)))
  }

  lemma {:induction false} PositiveSnoc(captures: seq<Capture>, shares: seq<int>, i: nat)
    requires |captures| == |shares| && i < |captures|
    ensures Positive(captures[..i + 1], shares[..i + 1]) == Positive(captures[..i], shares[..i])
                + (if shares[i] > 0 then [Allocation(captures[i], shares[i])] else [])
  {
    if i == 0 {
      assert captures[..1][1..] == [] && shares[..1][1..] == [];
    } else {
      assert captures[..i + 1][1..] == captures[1..][..i] && shares[..i + 1][1..] == shares[1..][..i];
      assert captures[..i][1..] == captures[1..][..i - 1] && shares[..i][1..] == shares[1..][..i - 1];
      PositiveSnoc(captures[1..], shares[1..], i - 1);
    }
  }

  function AllocationAmounts(allocations: seq<Allocation>): (xs: seq<int>)
    ensures |xs| == |allocations| && forall k :: 0 <= k < |xs| ==> xs[k] == allocations[k].amount
  {
    seq(|allocations|, k requires 0 <= k < |allocations| => allocations[k].amount)
  }

  /** Dropping zero shares changes neither the total nor what an allocated capture receives. */
  lemma {:induction false} PositiveKeepsTotal(captures: seq<Capture>, shares: seq<int>)
    requires |captures| == |shares| && forall k :: 0 <= k < |shares| ==> shares[k] >= 0
    ensures Sum(AllocationAmounts(Positive(captures, shares))) == Sum(shares)
  {
    if captures != [] {
      PositiveKeepsTotal(captures[1..], shares[1..]);
      var p, rest := Positive(captures, shares), Positive(captures[1..], shares[1..]);
      if shares[0] > 0 {
        assert p == [Allocation(captures[0], shares[0])] + rest;
        assert AllocationAmounts(p) == [shares[0]] + AllocationAmounts(rest);
      } else {
        assert p == rest;
      }
    }
  }

  /** The allocations are exactly the captures with a positive share. */
  lemma {:induction false} PositiveMembers(captures: seq<Capture>, shares: seq<int>, x: Allocation)
    requires |captures| == |shares|
    ensures x in Positive(captures, shares)
       <==> exists k :: 0 <= k < |captures| && shares[k] > 0 && x == Allocation(captures[k], shares[k])
  {
    if captures != [] {
      var c, s := captures[1..], shares[1..];
      PositiveMembers(c, s, x);
      if x in Positive(c, s) {
        var k :| 0 <= k < |c| && s[k] > 0 && x == Allocation(c[k], s[k]);
        assert shares[k + 1] > 0 && x == Allocation(captures[k + 1], shares[k + 1]);
      }
      if k :| 0 <= k < |captures| && shares[k] > 0 && x == Allocation(captures[k], shares[k]) {
        if k > 0 { assert s[k - 1] > 0 && x == Allocation(c[k - 1], s[k - 1]); }
      }
    }
  }

  function CaptureIds(captures: seq<Capture>): (ids: seq<string>)
    ensures |ids| == |captures| && forall k :: 0 <= k < |ids| ==> ids[k] == captures[k].id
  {
    seq(|captures|, k requires 0 <= k < |captures| => captures[k].id)
  }

  function CaptureAmounts(captures: seq<Capture>): (xs: seq<int>)
    ensures |xs| == |captures| && forall k :: 0 <= k < |xs| ==> xs[k] == captures[k].amount
  {
    seq(|captures|, k requires 0 <= k < |captures| => captures[k].amount)
  }

  /** What refunds hold on these captures in all, each row counted once. */
  function HeldOn(captures: seq<Capture>, rows: seq<RefundRow>): int {
    TotalWithin(RowPairs(rows), Elements(CaptureIds(captures)))
  }

  /** No capture is overdrawn, and what the rows leave of all of them together is enough. */
  predicate LeavesEnough(captures: seq<Capture>, previous: seq<RefundRow>, total: int) {
    && (forall k :: 0 <= k < |captures| ==> ReservedOn(previous, captures[k].id) <= captures[k].amount)
    && total + HeldOn(captures, previous) <= Sum(CaptureAmounts(captures))
  }

  lemma {:induction false} SumDifference(a: seq<int>, b: seq<int>, c: seq<int>)
    requires |a| == |b| == |c| && forall k :: 0 <= k < |a| ==> c[k] == a[k] - b[k]
    ensures Sum(c) == Sum(a) - Sum(b)
  {
    if a != [] { SumDifference(a[1..], b[1..], c[1..]); }
  }

  lemma AvailableInAll(captures: seq<Capture>, previous: seq<RefundRow>)
    requires Distinct(CaptureIds(captures))
    ensures Sum(Available(captures, previous)) == Sum(CaptureAmounts(captures)) - HeldOn(captures, previous)
  {
    var ids := CaptureIds(captures);
    GroupsAsSet(RowPairs(previous), ids);
    SumDifference(CaptureAmounts(captures), GroupTotals(RowPairs(previous), ids), Available(captures, previous));
  }

  /** A refund is split exactly if enough is left; a capture that is drained already does not stand in its way. */
  lemma SplitAccepts(captures: seq<Capture>, previous: seq<RefundRow>, total: int)
    requires total >= 0 && Distinct(CaptureIds(captures))
    ensures Allocations(captures, previous, total).Success? <==> LeavesEnough(captures, previous, total)
    ensures !LeavesEnough(captures, previous, total) ==> Allocations(captures, previous, total) == Failure(BadRequest)
  {
    var available := Available(captures, previous);
    AvailableInAll(captures, previous);
    assert forall k :: 0 <= k < |captures| ==>
      (available[k] < 0 <==> ReservedOn(previous, captures[k].id) > captures[k].amount);
  }

  predicate DistinctAllocations(allocations: seq<Allocation>) {
    forall i, j :: 0 <= i < j < |allocations| ==> allocations[i].capture.id != allocations[j].capture.id
  }

  lemma {:induction false} PositiveDistinct(captures: seq<Capture>, shares: seq<int>)
    requires |captures| == |shares| && Distinct(CaptureIds(captures))
    ensures DistinctAllocations(Positive(captures, shares))
    ensures forall j :: 0 <= j < |Positive(captures, shares)| ==> Positive(captures, shares)[j].capture in captures
  {
    if captures != [] {
      var rest := captures[1..];
      forall a, b | 0 <= a < b < |rest| ensures CaptureIds(rest)[a] != CaptureIds(rest)[b] {
        assert CaptureIds(captures)[a + 1] != CaptureIds(captures)[b + 1];
      }
      PositiveDistinct(rest, shares[1..]);
      forall c | c in rest ensures c.id != captures[0].id {
        var i :| 0 <= i < |rest| && rest[i] == c;
        assert CaptureIds(captures)[0] != CaptureIds(captures)[i + 1];
      }
    }
  }

  /**
   What a successful split promises its caller: strictly positive shares on distinct captures, adding up to the
   total, each within what is left of its capture.
   */
  lemma AllocationsAreSafe(captures: seq<Capture>, previous: seq<RefundRow>, total: int)
    requires total >= 0 && Distinct(CaptureIds(captures)) && Allocations(captures, previous, total).Success?
    ensures var r := Allocations(captures, previous, total).value;
      && Sum(AllocationAmounts(r)) == total
      && DistinctAllocations(r)
      && forall x :: x in r ==>
           x.capture in captures && 0 < x.amount <= x.capture.amount - ReservedOn(previous, x.capture.id)
  {
    var available := Available(captures, previous);
    var shares := Shares(available, total);
    SplitIsExact(available, total);
    PositiveKeepsTotal(captures, shares);
    PositiveDistinct(captures, shares);
    forall x | x in Positive(captures, shares)
      ensures x.capture in captures && 0 < x.amount <= x.capture.amount - ReservedOn(previous, x.capture.id)
    {
      PositiveMembers(captures, shares, x);
    }
  }

  /**
   The loops of `refundCaptureAllocations`: per capture the reservations are summed, then one pass hands out the
   shares from the running `remaining` and `remainingAvailable`.
   */
  method RefundCaptureAllocations(captures: seq<Capture>, previous: seq<RefundRow>, total: int)
    returns (r: Result<seq<Allocation>>)
    requires total >= 0
    ensures r == Allocations(captures, previous, total)
    ensures Distinct(CaptureIds(captures)) ==> (r.Success? <==> LeavesEnough(captures, previous, total))
  {
    if Distinct(CaptureIds(captures)) { SplitAccepts(captures, previous, total); }
    var available: seq<int> := [];
    for i := 0 to |captures|
      invariant available == Available(captures, previous)[..i]
    {
      var reserved := SumReserved(previous, captures[i].id);
      available := available + [captures[i].amount - reserved];
    }
    assert available == Available(captures, previous);
    var remainingAvailable := 0;
    for i := 0 to |available|
      invariant remainingAvailable == Sum(available[..i])
    {
      SumSnoc(available, i);
      remainingAvailable := remainingAvailable + available[i];
    }
    assert available[..|available|] == available;
    if (exists k :: 0 <= k < |available| && available[k] < 0) || total > remainingAvailable {
      return Failure(BadRequest);
    }
    var allocations := HandOut(captures, available, total, remainingAvailable);
    return Success(allocations);
  }

  method SumReserved(previous: seq<RefundRow>, captureId: string) returns (reserved: int)
    ensures reserved == ReservedOn(previous, captureId)
  {
    reserved := 0;
    for j := 0 to |previous|
      invariant reserved == ReservedOn(previous[..j], captureId)
    {
      ReservedOnSnoc(previous, j, captureId);
      if previous[j].captureId == captureId {
        reserved := reserved + previous[j].amount;
      }
    }
    assert previous[..|previous|] == previous;
  }

  method HandOut(captures: seq<Capture>, available: seq<int>, total: int, all: int)
    returns (allocations: seq<Allocation>)
    requires |captures| == |available| && all == Sum(available) && Splittable(available, total)
    ensures allocations == Positive(captures, Shares(available, total))
  {
    var remaining, remainingAvailable := total, all;
    allocations := [];
    ghost var shares := Shares(available, total);
    assert available[0..] == available && shares[0..] == shares;
    for i := 0 to |captures|
      invariant remainingAvailable == Sum(available[i..])
      invariant shares[i..] == Shares(available[i..], remaining)
      invariant allocations == Positive(captures[..i], shares[..i])
    {
      assert available[i..][1..] == available[i + 1..] && shares[i..][1..] == shares[i + 1..];
      var amount := if remainingAvailable == 0 then 0
                    else if remainingAvailable == available[i] then remaining
                    else remaining * available[i] / remainingAvailable;
      assert amount == shares[i..][0] == shares[i];
      PositiveSnoc(captures, shares, i);
      remaining := remaining - amount;
      remainingAvailable := remainingAvailable - available[i];
      if amount > 0 {
        allocations := allocations + [Allocation(captures[i], amount)];
      }
    }
    assert captures[..|captures|] == captures && shares[..|captures|] == shares;
  }
}
