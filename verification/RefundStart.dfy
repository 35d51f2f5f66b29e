/**
 The sequential code of one refund start over the stored rows, shown to take only steps of the protocol, and what it
 achieves when it runs to its end.
 */
module RefundStart {
  import opened Wrappers
  import opened Sums
  import opened RefundSplit
  import opened CoreRefund
  import opened RefundCapacity

  lemma NoStrayAfterReserve(rows: seq<RefundRow>, row: RefundRow, paymentId: string, allocations: seq<Allocation>)
    requires row.paymentId == paymentId ==> Allocated(allocations, row.captureId)
    ensures NoStrayRow(rows + [row], paymentId, allocations) <==> NoStrayRow(rows, paymentId, allocations)
  {
    if NoStrayRow(rows + [row], paymentId, allocations) {
      forall i | 0 <= i < |rows| && rows[i].paymentId == paymentId ensures Allocated(allocations, rows[i].captureId) {
        assert (rows + [row])[i] == rows[i];
      }
    }
  }

  lemma NoStrayAfterUpdate(old_: seq<RefundRow>, rows: seq<RefundRow>, paymentId: string, allocations: seq<Allocation>)
    requires |old_| == |rows| && Extends(old_, rows)
    ensures NoStrayRow(rows, paymentId, allocations) <==> NoStrayRow(old_, paymentId, allocations)
  {
    assert forall i :: 0 <= i < |rows| ==> KeyOf(rows[i]) == KeyOf(old_[i]);
  }

  /** The reservation step, for the only running call. */
  lemma ReserveTurn(p: Purchase, s: State, caller: string, paymentId: string, allocations: seq<Allocation>, i: nat)
    requires s.callers == map[caller := Walking(paymentId, allocations, i)] && i < |allocations|
    ensures var a := allocations[i]; var found := Find(s.rows, (paymentId, a.capture.id));
      Next(p, s, Reserve(caller))
      == if found.None? then
           State(s.rows + [RefundRow(paymentId, a.capture.id, a.amount, None, WAITING)], s.sent,
                 map[caller := Phase.Reserved(paymentId, allocations, i)])
         else if s.rows[found.value].channelOperationId.None? || s.rows[found.value].status == FAILED
                 || s.rows[found.value].amount != a.amount then State(s.rows, s.sent, map[caller := Idle])
         else State(s.rows, s.sent, map[caller := Walking(paymentId, allocations, i + 1)])
  {
    var c := PhaseOf(s, caller);
    assert s.callers[caller := Idle] == map[caller := Idle];
    assert Next(p, s, Reserve(caller)) == ReserveRow(s, caller, c);
  }

  lemma SendTurn(
    p: Purchase, s: State, caller: string, paymentId: string, allocations: seq<Allocation>, i: nat, outcome: Outcome)
    requires PhaseOf(s, caller) == Phase.Reserved(paymentId, allocations, i) && i < |allocations|
    ensures Next(p, s, Send(caller, outcome)) == State(
      s.rows, s.sent + [(paymentId, allocations[i].capture.id)],
      s.callers[caller := if outcome.Lost? then Idle else Phase.Answered(paymentId, allocations, i, outcome.answer)])
  {
  }

  lemma RecordTurn(
    p: Purchase, s: State, caller: string, paymentId: string, allocations: seq<Allocation>, i: nat, answer: Answer,
    accepted: bool)
    requires PhaseOf(s, caller) == Phase.Answered(paymentId, allocations, i, answer) && i < |allocations|
    ensures var found := Find(s.rows, (paymentId, allocations[i].capture.id));
      var after := if !accepted || answer.status == FAILED then Idle else Walking(paymentId, allocations, i + 1);
      Next(p, s, Record(caller, accepted)) == State(
        if found.None? || !accepted then s.rows
        else s.rows[found.value := s.rows[found.value].(
               channelOperationId := Some(answer.channelOperationId), status := answer.status)],
        s.sent, s.callers[caller := after])
  {
  }

  /** The only running call moves on. */
  lemma OnlyCaller(caller: string, before: Phase)
    ensures forall after :: map[caller := before][caller := after] == map[caller := after]
  {
  }

  // ---- When a start goes through

  function RowOf(rows: seq<RefundRow>, key: Key): (r: Option<RefundRow>)
    ensures r.Some? ==> KeyOf(r.value) == key && r.value in rows
    ensures r.None? <==> !HasRow(rows, key)
  {
    var i := Find(rows, key);
    if i.None? then None else Some(rows[i.value])
  }

  /**
   The walk gets past a share: its row is there already, answered, not failed and of the same amount, or it is reserved
   now and its channel gives an answer that is accepted and not a failure.
   */
  predicate GoesThrough(rows: seq<RefundRow>, paymentId: string, a: Allocation, outcome: Outcome, accepted: bool) {
    var row := RowOf(rows, (paymentId, a.capture.id));
    if row.Some? then
      row.value.channelOperationId.Some? && row.value.status != FAILED && row.value.amount == a.amount
    else outcome.Answers? && accepted && outcome.answer.status != FAILED
  }

  predicate AllGoThrough(
    rows: seq<RefundRow>, paymentId: string, allocations: seq<Allocation>, outcome: nat -> Outcome,
    accepted: nat -> bool, n: nat)
    requires n <= |allocations|
  {
    forall i: nat :: i < n ==> GoesThrough(rows, paymentId, allocations[i], outcome(i), accepted(i))
  }

  /** From the i-th share on, the rows are as they were. */
  predicate StillToDo(
    a: seq<RefundRow>, b: seq<RefundRow>, paymentId: string, allocations: seq<Allocation>, i: nat)
  {
    forall j :: i <= j < |allocations| ==>
      var key := (paymentId, allocations[j].capture.id); RowOf(a, key) == RowOf(b, key)
  }

  ghost predicate OnlyKey(a: seq<RefundRow>, b: seq<RefundRow>, key: Key) {
    forall other :: other != key ==> RowOf(a, other) == RowOf(b, other)
  }

  lemma NextToDo(
    a: seq<RefundRow>, b: seq<RefundRow>, c: seq<RefundRow>, paymentId: string, allocations: seq<Allocation>, i: nat)
    requires DistinctAllocations(allocations) && i < |allocations|
    requires StillToDo(a, b, paymentId, allocations, i) && OnlyKey(b, c, (paymentId, allocations[i].capture.id))
    ensures StillToDo(a, c, paymentId, allocations, i + 1)
  {
  }

  lemma RowOfAppend(rows: seq<RefundRow>, row: RefundRow, key: Key)
    requires KeyOf(row) != key
    ensures RowOf(rows + [row], key) == RowOf(rows, key)
  {
    var more := rows + [row];
    if HasRow(rows, key) {
      var i := Find(rows, key).value;
      assert KeyOf(more[i]) == key;
      assert IsFirst(rows, key, i) && IsFirst(more, key, i);
    } else {
      forall i | 0 <= i < |more| ensures KeyOf(more[i]) != key { if i < |rows| { assert KeyOf(rows[i]) != key; } }
    }
  }

  lemma RowOfUpdate(rows: seq<RefundRow>, i: nat, row: RefundRow, key: Key)
    requires i < |rows| && KeyOf(row) == KeyOf(rows[i]) != key
    ensures RowOf(rows[i := row], key) == RowOf(rows, key)
  {
    var more := rows[i := row];
    assert forall k :: 0 <= k < |rows| ==> KeyOf(more[k]) == KeyOf(rows[k]);
    if HasRow(rows, key) {
      var k := Find(rows, key).value;
      assert KeyOf(more[k]) == key;
      assert IsFirst(rows, key, k) && IsFirst(more, key, k);
    } else {
      forall k | 0 <= k < |more| ensures KeyOf(more[k]) != key { assert KeyOf(rows[k]) != key; }
    }
  }

  class RefundStore {
    /** The refund rows of the operations table. */
    var rows: seq<RefundRow>
    /** The `init` messages that left for a channel. */
    ghost var sent: seq<Key>

    constructor ()
      ensures rows == [] && sent == []
    {
      rows, sent := [], [];
    }

    /** The state the protocol sees while this call stands at `phase` and every other call is idle. */
    ghost function View(caller: string, phase: Phase): State
      reads this
    {
      State(rows, sent, map[caller := phase])
    }

    /** The reservation transaction: an existing row is accepted, refused, or a new one is created. */
    method ReserveOperation(paymentId: string, allocation: Allocation) returns (r: Result<bool>)
      modifies this`rows
      ensures var i := Find(old(rows), (paymentId, allocation.capture.id));
        if i.None? then
          r == Success(true)
          && rows == old(rows) + [RefundRow(paymentId, allocation.capture.id, allocation.amount, None, WAITING)]
        else
          var row := old(rows)[i.value];
          rows == old(rows)
          && r == if row.channelOperationId.None? || row.status == FAILED || row.amount != allocation.amount
                  then Failure(Conflict) else Success(false)
      ensures OnlyKey(old(rows), rows, (paymentId, allocation.capture.id))
    {
      var existing := Find(rows, (paymentId, allocation.capture.id));
      if existing.Some? {
        var row := rows[existing.value];
        if row.channelOperationId.None? || row.status == FAILED || row.amount != allocation.amount {
          return Failure(Conflict);
        }
        return Success(false);
      }
      ghost var known := rows;
      rows := rows + [RefundRow(paymentId, allocation.capture.id, allocation.amount, None, WAITING)];
      forall key | key != (paymentId, allocation.capture.id) ensures RowOf(rows, key) == RowOf(known, key) {
        RowOfAppend(known, rows[|known|], key);
      }
      return Success(true);
    }

    /** Saving the answer of the channel into the reserved row. */
    method SaveChannelRecord(paymentId: string, captureId: string, answer: Answer)
      modifies this`rows
      ensures var i := Find(old(rows), (paymentId, captureId));
        rows == if i.None? then old(rows)
                else old(rows)[i.value := old(rows)[i.value].(
                       channelOperationId := Some(answer.channelOperationId), status := answer.status)]
      ensures OnlyKey(old(rows), rows, (paymentId, captureId))
    {
      var i := Find(rows, (paymentId, captureId));
      ghost var known := rows;
      if i.Some? {
        rows := rows[i.value := rows[i.value].(
          channelOperationId := Some(answer.channelOperationId), status := answer.status)];
        forall key | key != (paymentId, captureId) ensures RowOf(rows, key) == RowOf(known, key) {
          RowOfUpdate(known, i.value, rows[i.value], key);
        }
      }
    }

    /**
     `startRefundPaymentOperationsForRefundRequest`. The channel's behaviour and the verdict of the settlement checks
     are given per allocation. `steps` are the protocol steps the call took.
     */
    method StartRefundPaymentOperations(
      p: Purchase, found: seq<Capture>, paymentId: string, caller: string, outcome: nat -> Outcome,
      accepted: nat -> bool)
      returns (r: Result<()>, ghost steps: seq<Step>)
      requires ValidPurchase(p) && Selects(p, found) && Inv(p, State(rows, sent, map[]))
      modifies this
      ensures var t := Run(p, State(old(rows), old(sent), map[]), steps); t.rows == rows && t.sent == sent && Inv(p, t)
      ensures r.Success? ==> paymentId in p.totals
      ensures paymentId in p.totals && p.totals[paymentId] == 0 ==> r.Success? && rows == old(rows) && sent == old(sent)
      ensures r.Success? && p.totals[paymentId] != 0 ==>
        var shares := StartAllocations(p, found, old(rows), paymentId);
        && shares.Some?
        && Done(rows, paymentId, shares.value, |shares.value|)
        && p.totals[paymentId] <= OwnTotal(rows, paymentId)
        && (OwnTotal(rows, paymentId) == p.totals[paymentId] <==> NoStrayRow(old(rows), paymentId, shares.value))
      ensures paymentId in p.totals && p.totals[paymentId] > 0 ==>
        var shares := StartAllocations(p, found, old(rows), paymentId);
        r.Success? <==>
          shares.Some? && AllGoThrough(old(rows), paymentId, shares.value, outcome, accepted, |shares.value|)
    {
      steps := [];
      if paymentId !in p.totals || p.totals[paymentId] < 0 {
        return Failure(BadRequest), steps;
      }
      if p.totals[paymentId] == 0 {
        return Success(()), steps;
      }
      var shares := StartAllocations(p, found, rows, paymentId);
      if shares.None? {
        return Failure(BadRequest), steps;
      }
      AllocationsAreSafe(found, Others(rows, paymentId), p.totals[paymentId]);
      r, steps := WalkCaptures(p, found, paymentId, caller, shares.value, outcome, accepted);
      RunKeepsInv(p, State(old(rows), old(sent), map[]), steps);
      if r.Success? {
        assert caller in Run(p, State(old(rows), old(sent), map[]), steps).callers;
        DoneReserves(p, rows, paymentId, shares.value);
      }
    }

    /** The loop over the allocations. */
    method WalkCaptures(
      p: Purchase, found: seq<Capture>, paymentId: string, caller: string, allocations: seq<Allocation>,
      outcome: nat -> Outcome, accepted: nat -> bool)
      returns (r: Result<()>, ghost steps: seq<Step>)
      requires StartAllocations(p, found, rows, paymentId) == Some(allocations) && DistinctAllocations(allocations)
      modifies this
      ensures r.Success? <==> AllGoThrough(old(rows), paymentId, allocations, outcome, accepted, |allocations|)
      ensures Reached(p, State(old(rows), old(sent), map[]), steps)
      ensures r.Success? ==>
        Run(p, State(old(rows), old(sent), map[]), steps)
          == View(caller, Walking(paymentId, allocations, |allocations|))
      ensures NoStrayRow(rows, paymentId, allocations) <==> NoStrayRow(old(rows), paymentId, allocations)
    {
      ghost var start := State(rows, sent, map[]);
      steps := [];
      RunSnoc(p, start, steps, Start(caller, paymentId, found));
      steps := steps + [Start(caller, paymentId, found)];
      for i := 0 to |allocations|
        invariant Reached(p, start, steps)
        invariant Run(p, start, steps) == View(caller, Walking(paymentId, allocations, i))
        invariant NoStrayRow(rows, paymentId, allocations) <==> NoStrayRow(old(rows), paymentId, allocations)
        invariant AllGoThrough(old(rows), paymentId, allocations, outcome, accepted, i)
        invariant StillToDo(old(rows), rows, paymentId, allocations, i)
      {
        ghost var known := rows;
        r, steps := OneCapture(p, paymentId, caller, allocations, i, outcome(i), accepted(i), start, steps);
        if r.Failure? {
          return r, steps;
        }
        NextToDo(old(rows), known, rows, paymentId, allocations, i);
      }
      return Success(()), steps;
    }

    /** The database is where the protocol steps lead. */
    ghost predicate Reached(p: Purchase, start: State, steps: seq<Step>)
      reads this
    {
      var t := Run(p, start, steps);
      t.rows == rows && t.sent == sent
    }

    /** One turn of the loop: reserve, and exchange messages unless the row was already there. */
    method OneCapture(
      p: Purchase, paymentId: string, caller: string, allocations: seq<Allocation>, i: nat,
      outcome: Outcome, accepted: bool, ghost start: State, ghost before: seq<Step>)
      returns (r: Result<()>, ghost steps: seq<Step>)
      requires i < |allocations| && Reached(p, start, before)
      requires Run(p, start, before) == View(caller, Walking(paymentId, allocations, i))
      modifies this
      ensures r.Success? <==> GoesThrough(old(rows), paymentId, allocations[i], outcome, accepted)
      ensures OnlyKey(old(rows), rows, (paymentId, allocations[i].capture.id))
      ensures Reached(p, start, steps)
      ensures r.Success? ==> Run(p, start, steps) == View(caller, Walking(paymentId, allocations, i + 1))
      ensures NoStrayRow(rows, paymentId, allocations) <==> NoStrayRow(old(rows), paymentId, allocations)
    {
      ghost var known := rows;
      RunSnoc(p, start, before, Reserve(caller));
      ReserveTurn(p, View(caller, Walking(paymentId, allocations, i)), caller, paymentId, allocations, i);
      steps := before + [Reserve(caller)];
      var reservation := ReserveOperation(paymentId, allocations[i]);
      if reservation.Failure? {
        return Failure(Conflict), steps;
      }
      if !reservation.value {
        return Success(()), steps;
      }
      assert Allocated(allocations, allocations[i].capture.id);
      NoStrayAfterReserve(known, rows[|known|], paymentId, allocations);
      r, steps := SendAndRecord(p, paymentId, caller, allocations, i, outcome, accepted, start, steps);
    }

    /** The network exchange after a fresh reservation. */
    method SendAndRecord(
      p: Purchase, paymentId: string, caller: string, allocations: seq<Allocation>, i: nat,
      outcome: Outcome, accepted: bool, ghost start: State, ghost before: seq<Step>)
      returns (r: Result<()>, ghost steps: seq<Step>)
      requires i < |allocations| && Reached(p, start, before)
      requires Run(p, start, before) == View(caller, Phase.Reserved(paymentId, allocations, i))
      modifies this
      ensures r.Success? <==> outcome.Answers? && accepted && outcome.answer.status != FAILED
      ensures OnlyKey(old(rows), rows, (paymentId, allocations[i].capture.id))
      ensures Reached(p, start, steps)
      ensures r.Success? ==> Run(p, start, steps) == View(caller, Walking(paymentId, allocations, i + 1))
      ensures NoStrayRow(rows, paymentId, allocations) <==> NoStrayRow(old(rows), paymentId, allocations)
    {
      ghost var known := rows;
      var captureId := allocations[i].capture.id;
      ghost var s := View(caller, Phase.Reserved(paymentId, allocations, i));
      SendTurn(p, s, caller, paymentId, allocations, i, outcome);
      OnlyCaller(caller, Phase.Reserved(paymentId, allocations, i));
      RunSnoc(p, start, before, Send(caller, outcome));
      steps := before + [Send(caller, outcome)];
      sent := sent + [(paymentId, captureId)];
      if outcome.Lost? {
        return Failure(BadRequest), steps;
      }
      ghost var t := View(caller, Phase.Answered(paymentId, allocations, i, outcome.answer));
      RecordTurn(p, t, caller, paymentId, allocations, i, outcome.answer, accepted);
      OnlyCaller(caller, Phase.Answered(paymentId, allocations, i, outcome.answer));
      RunSnoc(p, start, steps, Record(caller, accepted));
      steps := steps + [Record(caller, accepted)];
      if !accepted {
        return Failure(BadRequest), steps;
      }
      SaveChannelRecord(paymentId, captureId, outcome.answer);
      StepExtends(p, t, Record(caller, accepted));
      NoStrayAfterUpdate(known, rows, paymentId, allocations);
      return if outcome.answer.status == FAILED then Failure(BadRequest) else Success(()), steps;
    }
  }

  // ---- Two histories that show where the guarantees end

  function Cap(id: string, amount: int): Capture { Capture(id, "iyzico", Some(id), amount, "TRY") }

  const SPLIT: Purchase := Purchase([Cap("a", 10), Cap("b", 10)], "TRY", map["P" := 2, "Q" := 18], map[])

  lemma SharesOfTwo(x: int, y: int, total: int)
    requires x > 0 && y > 0 && total >= 0
    ensures Shares([x, y], total) == [total * x / (x + y), total - total * x / (x + y)]
  {
    assert [x, y][1..] == [y] && [y][1..] == [];
    assert Sum([y]) == y && Sum([x, y]) == x + y;
    assert Shares([y], total - total * x / (x + y)) == [total - total * x / (x + y)];
  }

  /** The shares of a start on the two captures, from what the other payments hold on each of them. */
  lemma SplitShares(rows: seq<RefundRow>, paymentId: string, total: int, onA: int, onB: int, x: int)
    requires paymentId in SPLIT.totals && SPLIT.totals[paymentId] == total
    requires ReservedOn(Others(rows, paymentId), "a") == onA && ReservedOn(Others(rows, paymentId), "b") == onB
    requires onA < 10 && onB < 10 && total <= 20 - onA - onB
    requires x == total * (10 - onA) / (20 - onA - onB) && 0 <= x < total
    ensures StartAllocations(SPLIT, SPLIT.captures, rows, paymentId)
         == Some((if x > 0 then [Allocation(Cap("a", 10), x)] else []) + [Allocation(Cap("b", 10), total - x)])
  {
    SplitAllocations(Others(rows, paymentId), total, onA, onB, x);
    assert SPLIT.captures[0].currency == "TRY" && SPLIT.captures[1].currency == "TRY";
  }

  lemma LeftOfTwo(previous: seq<RefundRow>, onA: int, onB: int)
    requires ReservedOn(previous, "a") == onA && ReservedOn(previous, "b") == onB
    ensures Available(SPLIT.captures, previous) == [10 - onA, 10 - onB]
    ensures Sum([10 - onA, 10 - onB]) == (10 - onA) + (10 - onB)
  {
    var left := [10 - onA, 10 - onB];
    assert left[1..] == [10 - onB] && [10 - onB][1..] == [];
    assert Sum([10 - onB]) == 10 - onB;
  }

  lemma SplitAllocations(previous: seq<RefundRow>, total: int, onA: int, onB: int, x: int)
    requires ReservedOn(previous, "a") == onA && ReservedOn(previous, "b") == onB
    requires onA < 10 && onB < 10 && 0 <= total <= 20 - onA - onB
    requires x == total * (10 - onA) / (20 - onA - onB) && 0 <= x < total
    ensures Allocations(SPLIT.captures, previous, total)
         == Success((if x > 0 then [Allocation(Cap("a", 10), x)] else []) + [Allocation(Cap("b", 10), total - x)])
  {
    LeftOfTwo(previous, onA, onB);
    SharesOfTwo(10 - onA, 10 - onB, total);
    assert 20 - onA - onB == (10 - onA) + (10 - onB);
    PositivePair(x, total - x);
  }

  lemma PositivePair(x: int, y: int)
    requires x >= 0 && y > 0
    ensures Positive(SPLIT.captures, [x, y])
         == (if x > 0 then [Allocation(Cap("a", 10), x)] else []) + [Allocation(Cap("b", 10), y)]
  {
    assert SPLIT.captures[1..] == [Cap("b", 10)] && [x, y][1..] == [y];
    assert [Cap("b", 10)][1..] == [] && [y][1..] == [];
    assert Positive([Cap("b", 10)], [y]) == [Allocation(Cap("b", 10), y)];
  }

  const SHARES_1: seq<Allocation> := [Allocation(Cap("a", 10), 1), Allocation(Cap("b", 10), 1)]
  const SHARES_2: seq<Allocation> := [Allocation(Cap("a", 10), 8), Allocation(Cap("b", 10), 10)]
  const SHARES_3: seq<Allocation> := [Allocation(Cap("b", 10), 2)]

  const ON_A: RefundRow := RefundRow("P", "a", 1, Some("op"), WAITING)
  const OTHER_ON_A: RefundRow := RefundRow("Q", "a", 8, None, WAITING)
  const ON_B: RefundRow := RefundRow("P", "b", 2, Some("op"), WAITING)

  lemma FirstShares()
    ensures StartAllocations(SPLIT, SPLIT.captures, [], "P") == Some(SHARES_1)
  {
    assert Others([], "P") == [];
    SplitShares([], "P", 2, 0, 0, 1);
    assert SHARES_1 == [Allocation(Cap("a", 10), 1)] + [Allocation(Cap("b", 10), 1)];
  }

  lemma SecondShares()
    ensures StartAllocations(SPLIT, SPLIT.captures, [ON_A], "Q") == Some(SHARES_2)
  {
    assert [ON_A][1..] == [] && Others([ON_A], "Q") == [ON_A] + [];
    ReservedOnCons(ON_A, [], "a");
    ReservedOnCons(ON_A, [], "b");
    SplitShares([ON_A], "Q", 18, 1, 0, 8);
    assert SHARES_2 == [Allocation(Cap("a", 10), 8)] + [Allocation(Cap("b", 10), 10)];
  }

  lemma RetriedShares()
    ensures StartAllocations(SPLIT, SPLIT.captures, [ON_A, OTHER_ON_A], "P") == Some(SHARES_3)
  {
    var rows := [ON_A, OTHER_ON_A];
    assert rows[1..] == [OTHER_ON_A] && [OTHER_ON_A][1..] == [];
    assert Others([OTHER_ON_A], "P") == [OTHER_ON_A] + [] && Others(rows, "P") == Others([OTHER_ON_A], "P");
    ReservedOnCons(OTHER_ON_A, [], "a");
    ReservedOnCons(OTHER_ON_A, [], "b");
    SplitShares(rows, "P", 2, 8, 0, 0);
    assert SHARES_3 == [] + [Allocation(Cap("b", 10), 2)];
  }

  lemma ThreeReserved()
    ensures OwnTotal([ON_A, OTHER_ON_A, ON_B], "P") == 3
  {
    var all := [ON_A, OTHER_ON_A, ON_B];
    assert all[1..] == [OTHER_ON_A, ON_B] && [OTHER_ON_A, ON_B][1..] == [ON_B] && [ON_B][1..] == [];
    assert Own([ON_B], "P") == [ON_B] + [];
    assert Own([OTHER_ON_A, ON_B], "P") == Own([ON_B], "P");
    ReservedOnCons(ON_B, [], "");
    ReservedOnCons(ON_A, [ON_B], "");
    assert Own(all, "P") == [ON_A] + [ON_B];
  }

  const REPLY: Outcome := Answers(Answer("op", WAITING))

  lemma StartStep(p: Purchase, s: State, caller: string, paymentId: string, shares: seq<Allocation>)
    requires PhaseOf(s, caller).Idle? && StartAllocations(p, p.captures, s.rows, paymentId) == Some(shares)
    ensures Next(p, s, Start(caller, paymentId, p.captures)) == Move(s, caller, Walking(paymentId, shares, 0))
  {
  }

  lemma ReserveStep(p: Purchase, s: State, caller: string, paymentId: string, shares: seq<Allocation>)
    requires PhaseOf(s, caller) == Walking(paymentId, shares, 0) && shares != []
    requires !HasRow(s.rows, (paymentId, shares[0].capture.id))
    ensures Next(p, s, Reserve(caller)) == State(
      s.rows + [RefundRow(paymentId, shares[0].capture.id, shares[0].amount, None, WAITING)], s.sent,
      s.callers[caller := Phase.Reserved(paymentId, shares, 0)])
  {
  }

  lemma RunTwo(p: Purchase, s: State, x: Step, y: Step)
    ensures Run(p, s, [x, y]) == Next(p, Next(p, s, x), y)
  {
    RunSnoc(p, s, [], x);
    RunSnoc(p, s, [x], y);
    assert [] + [x] == [x] && [x] + [y] == [x, y];
  }

  /** Start and first reservation of a call. */
  lemma FirstCapture(p: Purchase, s: State, caller: string, paymentId: string, shares: seq<Allocation>)
    requires PhaseOf(s, caller).Idle? && shares != []
    requires StartAllocations(p, p.captures, s.rows, paymentId) == Some(shares)
    requires !HasRow(s.rows, (paymentId, shares[0].capture.id))
    ensures var t := Run(p, s, Begin(p, caller, paymentId));
      && t.rows == s.rows + [RefundRow(paymentId, shares[0].capture.id, shares[0].amount, None, WAITING)]
      && t.callers == s.callers[caller := Phase.Reserved(paymentId, shares, 0)]
  {
    var t := Move(s, caller, Walking(paymentId, shares, 0));
    RunTwo(p, s, Start(caller, paymentId, p.captures), Reserve(caller));
    StartStep(p, s, caller, paymentId, shares);
    ReserveStep(p, t, caller, paymentId, shares);
    assert t.callers[caller := Phase.Reserved(paymentId, shares, 0)]
      == s.callers[caller := Phase.Reserved(paymentId, shares, 0)];
  }

  lemma Exchange(p: Purchase, s: State, caller: string, paymentId: string, shares: seq<Allocation>)
    requires PhaseOf(s, caller) == Phase.Reserved(paymentId, shares, 0) && shares != [] && s.rows != []
    requires UniqueRows(s.rows) && KeyOf(s.rows[|s.rows| - 1]) == (paymentId, shares[0].capture.id)
    ensures var t := Run(p, s, [Send(caller, REPLY), Record(caller, true)]); var last := |s.rows| - 1;
      && t.rows == s.rows[last := s.rows[last].(channelOperationId := Some("op"), status := WAITING)]
      && t.callers == s.callers[caller := Walking(paymentId, shares, 1)]
  {
    var answer, sent := REPLY.answer, s.sent + [(paymentId, shares[0].capture.id)];
    var t := State(s.rows, sent, s.callers[caller := Phase.Answered(paymentId, shares, 0, answer)]);
    RunTwo(p, s, Send(caller, REPLY), Record(caller, true));
    SendTurn(p, s, caller, paymentId, shares, 0, REPLY);
    RecordTurn(p, t, caller, paymentId, shares, 0, answer, true);
    LastIsFound(s.rows, (paymentId, shares[0].capture.id));
    assert t.callers[caller := Walking(paymentId, shares, 1)] == s.callers[caller := Walking(paymentId, shares, 1)];
  }

  lemma LastIsFound(rows: seq<RefundRow>, key: Key)
    requires UniqueRows(rows) && rows != [] && KeyOf(rows[|rows| - 1]) == key
    ensures Find(rows, key) == Some(|rows| - 1)
  {
  }

  lemma {:induction false} RunConcat(p: Purchase, s: State, a: seq<Step>, b: seq<Step>)
    ensures Run(p, s, a + b) == Run(p, Run(p, s, a), b)
  {
    if b == [] {
      assert a + b == a;
    } else {
      var n := |b| - 1;
      assert (a + b)[..|a + b| - 1] == a + b[..n];
      RunConcat(p, s, a, b[..n]);
    }
  }

  function Begin(p: Purchase, caller: string, paymentId: string): seq<Step> {
    [Start(caller, paymentId, p.captures), Reserve(caller)]
  }

  function Finish(caller: string): seq<Step> { [Send(caller, REPLY), Record(caller, true)] }

  lemma CrashIdles(s: State, caller: string)
    ensures Run(SPLIT, s, [Crash(caller)]) == Move(s, caller, Idle)
  {
    RunSnoc(SPLIT, s, [], Crash(caller));
    assert [] + [Crash(caller)] == [Crash(caller)];
  }

  const LEG_1: seq<Step> := Begin(SPLIT, "1", "P") + Finish("1") + [Crash("1")]
  const LEG_2: seq<Step> := LEG_1 + (Begin(SPLIT, "2", "Q") + [Crash("2")])
  const HISTORY: seq<Step> := LEG_2 + (Begin(SPLIT, "3", "P") + Finish("3"))

  lemma FirstLeg()
    ensures Run(SPLIT, INITIAL, LEG_1) == State([ON_A], Run(SPLIT, INITIAL, LEG_1).sent, map["1" := Idle])
  {
    FirstShares();
    FirstCapture(SPLIT, INITIAL, "1", "P", SHARES_1);
    var t := Run(SPLIT, INITIAL, Begin(SPLIT, "1", "P"));
    assert t.rows == [ON_A.(channelOperationId := None)];
    Exchange(SPLIT, t, "1", "P", SHARES_1);
    RunConcat(SPLIT, INITIAL, Begin(SPLIT, "1", "P"), Finish("1"));
    RunConcat(SPLIT, INITIAL, Begin(SPLIT, "1", "P") + Finish("1"), [Crash("1")]);
    CrashIdles(Run(SPLIT, t, Finish("1")), "1");
  }

  lemma SecondLeg()
    ensures var s := Run(SPLIT, INITIAL, LEG_2);
      s.rows == [ON_A, OTHER_ON_A] && s.callers == map["1" := Idle, "2" := Idle]
  {
    FirstLeg();
    SecondShares();
    var s := Run(SPLIT, INITIAL, LEG_1);
    assert KeyOf(s.rows[0]) == ("P", "a");
    FirstCapture(SPLIT, s, "2", "Q", SHARES_2);
    RunConcat(SPLIT, s, Begin(SPLIT, "2", "Q"), [Crash("2")]);
    RunConcat(SPLIT, INITIAL, LEG_1, Begin(SPLIT, "2", "Q") + [Crash("2")]);
    CrashIdles(Run(SPLIT, s, Begin(SPLIT, "2", "Q")), "2");
  }

  lemma ThirdStart()
    ensures var t := Run(SPLIT, Run(SPLIT, INITIAL, LEG_2), Begin(SPLIT, "3", "P"));
      t.rows == [ON_A, OTHER_ON_A, ON_B.(channelOperationId := None)]
        && PhaseOf(t, "3") == Phase.Reserved("P", SHARES_3, 0)
  {
    SecondLeg();
    RetriedShares();
    var s := Run(SPLIT, INITIAL, LEG_2);
    assert KeyOf(s.rows[0]) == ("P", "a") && KeyOf(s.rows[1]) == ("Q", "a");
    FirstCapture(SPLIT, s, "3", "P", SHARES_3);
  }

  lemma ThirdExchange()
    ensures var t := Run(SPLIT, Run(SPLIT, Run(SPLIT, INITIAL, LEG_2), Begin(SPLIT, "3", "P")), Finish("3"));
      t.rows == [ON_A, OTHER_ON_A, ON_B] && PhaseOf(t, "3") == Walking("P", SHARES_3, 1)
  {
    ThirdStart();
    var t := Run(SPLIT, Run(SPLIT, INITIAL, LEG_2), Begin(SPLIT, "3", "P"));
    assert KeyOf(t.rows[0]) == ("P", "a") && KeyOf(t.rows[1]) == ("Q", "a") && KeyOf(t.rows[2]) == ("P", "b");
    Exchange(SPLIT, t, "3", "P", SHARES_3);
  }

  lemma ThirdLeg()
    ensures var s := Run(SPLIT, INITIAL, HISTORY);
      s.rows == [ON_A, OTHER_ON_A, ON_B] && PhaseOf(s, "3") == Walking("P", SHARES_3, 1)
  {
    ThirdExchange();
    RunConcat(SPLIT, INITIAL, LEG_2, Begin(SPLIT, "3", "P") + Finish("3"));
    RunConcat(SPLIT, Run(SPLIT, INITIAL, LEG_2), Begin(SPLIT, "3", "P"), Finish("3"));
  }

  lemma HistoryIsSerial()
    ensures Serial(SPLIT, HISTORY)
  {
    FirstLeg();
    SecondLeg();
    assert |LEG_1| == 5 && |LEG_2| == 8 && |HISTORY| == 12;
    assert HISTORY[..0] == [] && HISTORY[..5] == LEG_1 && HISTORY[..8] == LEG_2;
    forall i | 0 <= i < |HISTORY| && HISTORY[i].Start? ensures i == 0 || i == 5 || i == 8 {
      if 5 <= i < 8 { assert HISTORY[i] == (Begin(SPLIT, "2", "Q") + [Crash("2")])[i - 5]; }
      if 8 <= i { assert HISTORY[i] == (Begin(SPLIT, "3", "P") + Finish("3"))[i - 8]; }
    }
  }

  /**
   The condition of `FinishedStartReserves` is needed. Captures of 10 and 10, refunds of 2 and 18, starts serialised:
   the refund of 2 stops after its unit on "a", the refund of 18 stops after 8 on "a", and the retried refund of 2
   computes a share of 0 on "a" and 2 on "b". It runs to its end with 3 units reserved for a total of 2.
   */
  lemma RetryReservesTooMuch()
    ensures Serial(SPLIT, HISTORY)
    ensures var s := Run(SPLIT, INITIAL, HISTORY);
      && PhaseOf(s, "3").Walking? && PhaseOf(s, "3").next == |PhaseOf(s, "3").allocations|
      && SPLIT.totals["P"] == 2 && OwnTotal(s.rows, "P") == 3
  {
    HistoryIsSerial();
    ThirdLeg();
    ThreeReserved();
  }

  // ---- Without the lease

  const SINGLE: Purchase := Purchase([Cap("a", 10)], "TRY", map["P" := 10, "Q" := 10], map[])

  const BOTH_START: seq<Step> := [Start("1", "P", SINGLE.captures), Start("2", "Q", SINGLE.captures)]

  const OVERLAP: seq<Step> := BOTH_START + [Reserve("1"), Reserve("2")]

  lemma WholeShare(paymentId: string)
    requires paymentId in SINGLE.totals
    ensures StartAllocations(SINGLE, SINGLE.captures, [], paymentId) == Some([Allocation(Cap("a", 10), 10)])
  {
    assert Available(SINGLE.captures, Others([], paymentId)) == [10];
    assert [10][1..] == [] && SINGLE.captures[1..] == [];
    assert Sum([10]) == 10 && Shares([10], 10) == [10];
    assert Positive(SINGLE.captures, [10]) == [Allocation(Cap("a", 10), 10)];
  }

  /**
   Without the lease two refunds of the same purchase can start from the same picture and together reserve more than
   the capture holds.
   */
  lemma OverlappingStartsOverReserve()
    ensures ReservedOn(Run(SINGLE, INITIAL, OVERLAP).rows, "a") == 20 > SINGLE.captures[0].amount
  {
    WholeShare("P");
    WholeShare("Q");
    var shares := [Allocation(Cap("a", 10), 10)];
    var first, second := RefundRow("P", "a", 10, None, WAITING), RefundRow("Q", "a", 10, None, WAITING);
    StartStep(SINGLE, INITIAL, "1", "P", shares);
    var s := Next(SINGLE, INITIAL, Start("1", "P", SINGLE.captures));
    StartStep(SINGLE, s, "2", "Q", shares);
    var t := Next(SINGLE, s, Start("2", "Q", SINGLE.captures));
    RunTwo(SINGLE, INITIAL, Start("1", "P", SINGLE.captures), Start("2", "Q", SINGLE.captures));
    ReserveStep(SINGLE, t, "1", "P", shares);
    var u := Next(SINGLE, t, Reserve("1"));
    assert u.rows == [first] && KeyOf(u.rows[0]) == ("P", "a");
    ReserveStep(SINGLE, u, "2", "Q", shares);
    RunTwo(SINGLE, t, Reserve("1"), Reserve("2"));
    RunConcat(SINGLE, INITIAL, BOTH_START, [Reserve("1"), Reserve("2")]);
    assert Run(SINGLE, INITIAL, OVERLAP).rows == [first] + [second];
    ReservedOnCons(first, [second], "a");
    ReservedOnCons(second, [], "a");
    assert [second] + [] == [second];
  }
}
