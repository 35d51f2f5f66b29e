/**
 Starting the channel operations of refund payments: reserve a row, send `init`, record the answer, capture by
 capture. Callers run concurrently and may stop at any point; every transaction is one atomic step.
 */
module CoreRefund {
  import opened Wrappers
  import opened Sums
  import opened RefundSplit
  import opened RefundPlan

  /**
   One completed purchase with its captures, and the refund payments created for it. A purchase completes before the
   last of its captures may have, so a start works on those it finds completed.
   */
  datatype Purchase = Purchase(
    captures: seq<Capture>, currency: string, totals: map<string, int>, plans: map<string, seq<Plan>>)

  datatype Answer = Answer(channelOperationId: string, status: OperationStatus)

  /** Where one call of `startRefundPaymentOperationsForRefundRequest` stands. */
  datatype Phase =
    | Idle
    | Walking(paymentId: string, allocations: seq<Allocation>, next: nat)
    | Reserved(paymentId: string, allocations: seq<Allocation>, next: nat)
    | Answered(paymentId: string, allocations: seq<Allocation>, next: nat, answer: Answer)

  type Key = (string, string)

  /** The refund rows of the database, the `init` messages sent so far, and the running calls. */
  datatype State = State(rows: seq<RefundRow>, sent: seq<Key>, callers: map<string, Phase>)

  /** `Lost` is any failed send: time-out, transport error, malformed answer. */
  datatype Outcome = Lost | Answers(answer: Answer)

  datatype Step =
    | Start(caller: string, paymentId: string, found: seq<Capture>)
    | Reserve(caller: string)
    | Send(caller: string, outcome: Outcome)
    | Record(caller: string, accepted: bool)
    | Crash(caller: string)
    | Poll(row: nat, status: OperationStatus)

  function PhaseOf(s: State, caller: string): Phase {
    if caller in s.callers then s.callers[caller] else Idle
  }

  function KeyOf(row: RefundRow): Key { (row.paymentId, row.captureId) }

  predicate HasRow(rows: seq<RefundRow>, key: Key) {
    exists i :: 0 <= i < |rows| && KeyOf(rows[i]) == key
  }

  function Find(rows: seq<RefundRow>, key: Key): (r: Option<nat>)
    ensures r.Some? ==> r.value < |rows| && KeyOf(rows[r.value]) == key
    ensures r.None? <==> !HasRow(rows, key)
  {
    if i :| 0 <= i < |rows| && IsFirst(rows, key, i) then Some(i) else (FirstRow(rows, key); None)
  }

  predicate IsFirst(rows: seq<RefundRow>, key: Key, i: nat) {
    i < |rows| && KeyOf(rows[i]) == key && forall j :: 0 <= j < i ==> KeyOf(rows[j]) != key
  }

  lemma {:induction false} FirstRow(rows: seq<RefundRow>, key: Key)
    ensures HasRow(rows, key) ==> exists i :: 0 <= i < |rows| && IsFirst(rows, key, i)
  {
    if rows != [] {
      var init := rows[..|rows| - 1];
      FirstRow(init, key);
      if HasRow(init, key) {
        var i :| 0 <= i < |init| && IsFirst(init, key, i);
        assert IsFirst(rows, key, i) by { assert forall j :: 0 <= j <= i ==> rows[j] == init[j]; }
      } else if KeyOf(rows[|rows| - 1]) == key {
        assert forall j :: 0 <= j < |init| ==> rows[j] == init[j];
        assert IsFirst(rows, key, |rows| - 1);
      }
    }
  }

  /** The refund rows of other payments. */
  function Others(rows: seq<RefundRow>, paymentId: string): seq<RefundRow> {
    if rows == [] then []
    else if rows[0].paymentId == paymentId then Others(rows[1..], paymentId)
    else [rows[0]] + Others(rows[1..], paymentId)
  }

  /** Some of the captures of the purchase, each once. */
  predicate Selects(p: Purchase, found: seq<Capture>) {
    Distinct(CaptureIds(found)) && forall c :: c in found ==> c in p.captures
  }

  /** The shares a call computes from the completed captures it finds, or nothing when it refuses. */
  function StartAllocations(p: Purchase, found: seq<Capture>, rows: seq<RefundRow>, paymentId: string)
    : Option<seq<Allocation>>
  {
    if !Selects(p, found) || paymentId !in p.totals || p.totals[paymentId] <= 0 || found == []
       || (exists k :: 0 <= k < |found| &&
             (found[k].channelOperationId.None? || found[k].currency != p.currency))
    then None
    else
      var shares := Allocations(found, Others(rows, paymentId), p.totals[paymentId]);
      if shares.Failure? then None
      else if paymentId in p.plans && !MatchesAllocations(p.plans[paymentId], shares.value) then None
      else Some(shares.value)
  }

  function Move(s: State, caller: string, phase: Phase): State {
    s.(callers := s.callers[caller := phase])
  }

  /** The reservation transaction for the current allocation. */
  function ReserveRow(s: State, caller: string, c: Phase): State
    requires c.Walking? && c.next < |c.allocations|
  {
    var a := c.allocations[c.next];
    var existing := Find(s.rows, (c.paymentId, a.capture.id));
    if existing.Some? then
      var row := s.rows[existing.value];
      if row.channelOperationId.None? || row.status == FAILED || row.amount != a.amount
      then Move(s, caller, Idle)
      else Move(s, caller, Walking(c.paymentId, c.allocations, c.next + 1))
    else
      var row := RefundRow(c.paymentId, a.capture.id, a.amount, None, WAITING);
      Move(s, caller, Phase.Reserved(c.paymentId, c.allocations, c.next)).(rows := s.rows + [row])
  }

  /** Writing the answer of `init` into the row; a failed operation ends the call. */
  function RecordAnswer(s: State, caller: string, c: Phase): State
    requires c.Answered? && c.next < |c.allocations|
  {
    var row := Find(s.rows, (c.paymentId, c.allocations[c.next].capture.id));
    var rows := if row.None? then s.rows
                else s.rows[row.value := s.rows[row.value].(
                       channelOperationId := Some(c.answer.channelOperationId), status := c.answer.status)];
    Move(s, caller, if c.answer.status == FAILED then Idle else Walking(c.paymentId, c.allocations, c.next + 1))
      .(rows := rows)
  }

  /** One atomic step; a step that is not enabled changes nothing. */
  function Next(p: Purchase, s: State, step: Step): State {
    match step
    case Start(caller, paymentId, found) =>
      if PhaseOf(s, caller) != Idle then s
      else
        var shares := StartAllocations(p, found, s.rows, paymentId);
        if shares.None? then s else Move(s, caller, Walking(paymentId, shares.value, 0))
    case Reserve(caller) =>
      var c := PhaseOf(s, caller);
      if !c.Walking? || c.next >= |c.allocations| then s else ReserveRow(s, caller, c)
    case Send(caller, outcome) =>
      var c := PhaseOf(s, caller);
      if !c.Reserved? || c.next >= |c.allocations| then s
      else
        var after := match outcome
          case Lost => Idle
          case Answers(answer) => Phase.Answered(c.paymentId, c.allocations, c.next, answer);
        Move(s, caller, after).(sent := s.sent + [(c.paymentId, c.allocations[c.next].capture.id)])
    case Record(caller, accepted) =>
      var c := PhaseOf(s, caller);
      if !c.Answered? || c.next >= |c.allocations| then s
      else if !accepted then Move(s, caller, Idle)
      else RecordAnswer(s, caller, c)
    case Crash(caller) => Move(s, caller, Idle)
    case Poll(row, status) =>
      if row < |s.rows| && s.rows[row].channelOperationId.Some?
      then s.(rows := s.rows[row := s.rows[row].(status := status)]) else s
  }

  function Run(p: Purchase, s: State, steps: seq<Step>): State {
    if steps == [] then s else Next(p, Run(p, s, steps[..|steps| - 1]), steps[|steps| - 1])
  }

  lemma RunSnoc(p: Purchase, s: State, steps: seq<Step>, step: Step)
    ensures Run(p, s, steps + [step]) == Next(p, Run(p, s, steps), step)
  {
    assert (steps + [step])[..|steps|] == steps;
  }

  const INITIAL: State := State([], [], map[])

  // ---- At most one reservation and at most one `init` per refund payment and capture

  predicate UniqueRows(rows: seq<RefundRow>) {
    forall i, j :: 0 <= i < j < |rows| ==> KeyOf(rows[i]) != KeyOf(rows[j])
  }

  predicate HasAmount(rows: seq<RefundRow>, key: Key, amount: int) {
    exists i :: 0 <= i < |rows| && KeyOf(rows[i]) == key && rows[i].amount == amount
  }

  function CurrentKey(c: Phase): Key
    requires !c.Idle? && c.next < |c.allocations|
  {
    (c.paymentId, c.allocations[c.next].capture.id)
  }

  /** And its channel has answered for it. */
  predicate HasAnswer(rows: seq<RefundRow>, key: Key, amount: int) {
    exists i :: 0 <= i < |rows| && KeyOf(rows[i]) == key && rows[i].amount == amount
      && rows[i].channelOperationId.Some?
  }

  /** The allocations up to `n` have their rows, each known to its channel. */
  predicate Done(rows: seq<RefundRow>, paymentId: string, allocations: seq<Allocation>, n: nat)
    requires n <= |allocations|
  {
    forall j :: 0 <= j < n ==> HasAnswer(rows, (paymentId, allocations[j].capture.id), allocations[j].amount)
  }

  predicate SoundAllocations(p: Purchase, paymentId: string, allocations: seq<Allocation>) {
    && paymentId in p.totals
    && Sum(AllocationAmounts(allocations)) == p.totals[paymentId]
    && DistinctAllocations(allocations)
    && forall a :: a in allocations ==> a.amount > 0 && a.capture in p.captures
  }

  predicate SoundPhase(p: Purchase, s: State, c: Phase) {
    c.Idle? ||
    (&& SoundAllocations(p, c.paymentId, c.allocations)
     && c.next <= |c.allocations|
     && Done(s.rows, c.paymentId, c.allocations, c.next)
     && (!c.Walking? ==> c.next < |c.allocations| && HasAmount(s.rows, CurrentKey(c), c.allocations[c.next].amount))
     && (c.Reserved? ==> CurrentKey(c) !in s.sent))
  }

  /** The call has reserved a row and not sent its `init` yet. */
  predicate Sending(c: Phase) { c.Reserved? && c.next < |c.allocations| }

  predicate ExclusiveSenders(s: State) {
    forall c, d :: c in s.callers && d in s.callers && c != d && Sending(s.callers[c]) && Sending(s.callers[d])
      ==> CurrentKey(s.callers[c]) != CurrentKey(s.callers[d])
  }

  predicate SoundRows(p: Purchase, rows: seq<RefundRow>) {
    forall i :: 0 <= i < |rows| ==>
      rows[i].amount > 0 && rows[i].captureId in CaptureIds(p.captures) && rows[i].paymentId in p.totals
  }

  ghost predicate Inv(p: Purchase, s: State) {
    && UniqueRows(s.rows)
    && SoundRows(p, s.rows)
    && Distinct(s.sent)
    && (forall k :: k in s.sent ==> HasRow(s.rows, k))
    && (forall c :: c in s.callers ==> SoundPhase(p, s, s.callers[c]))
    && ExclusiveSenders(s)
  }

  predicate ValidPurchase(p: Purchase) { Distinct(CaptureIds(p.captures)) }

  /** Rows are only added, none loses its channel operation, and neither key nor amount of a row ever changes. */
  predicate Extends(old_: seq<RefundRow>, rows: seq<RefundRow>) {
    && |old_| <= |rows|
    && forall i :: 0 <= i < |old_| ==>
         && KeyOf(rows[i]) == KeyOf(old_[i]) && rows[i].amount == old_[i].amount
         && (old_[i].channelOperationId.Some? ==> rows[i].channelOperationId.Some?)
  }

  lemma StepExtends(p: Purchase, s: State, step: Step)
    ensures Extends(s.rows, Next(p, s, step).rows)
  {
  }

  lemma ExtendsKeepsPhase(p: Purchase, s: State, t: State, c: Phase)
    requires SoundPhase(p, s, c) && Extends(s.rows, t.rows)
    requires c.Reserved? ==> CurrentKey(c) !in t.sent
    ensures SoundPhase(p, t, c)
  {
    if !c.Idle? {
      forall j | 0 <= j < c.next
        ensures HasAnswer(t.rows, (c.paymentId, c.allocations[j].capture.id), c.allocations[j].amount)
      {
        ExtendsKeepsAnswer(s.rows, t.rows, (c.paymentId, c.allocations[j].capture.id), c.allocations[j].amount);
      }
      if !c.Walking? {
        ExtendsKeepsAmount(s.rows, t.rows, CurrentKey(c), c.allocations[c.next].amount);
      }
    }
  }

  lemma ExtendsKeepsAmount(old_: seq<RefundRow>, rows: seq<RefundRow>, key: Key, amount: int)
    requires Extends(old_, rows) && HasAmount(old_, key, amount)
    ensures HasAmount(rows, key, amount)
  {
    var i :| 0 <= i < |old_| && KeyOf(old_[i]) == key && old_[i].amount == amount;
    assert KeyOf(rows[i]) == key && rows[i].amount == amount;
  }

  lemma ExtendsKeepsAnswer(old_: seq<RefundRow>, rows: seq<RefundRow>, key: Key, amount: int)
    requires Extends(old_, rows) && HasAnswer(old_, key, amount)
    ensures HasAnswer(rows, key, amount)
  {
    var i :| 0 <= i < |old_| && KeyOf(old_[i]) == key && old_[i].amount == amount
      && old_[i].channelOperationId.Some?;
    assert KeyOf(rows[i]) == key && rows[i].amount == amount;
  }

  lemma ExtendsKeepsRow(old_: seq<RefundRow>, rows: seq<RefundRow>, key: Key)
    requires Extends(old_, rows) && HasRow(old_, key)
    ensures HasRow(rows, key)
  {
    var i :| 0 <= i < |old_| && KeyOf(old_[i]) == key;
    assert KeyOf(rows[i]) == key;
  }

  lemma StartIsSound(p: Purchase, found: seq<Capture>, rows: seq<RefundRow>, paymentId: string)
    requires StartAllocations(p, found, rows, paymentId).Some?
    ensures SoundAllocations(p, paymentId, StartAllocations(p, found, rows, paymentId).value)
  {
    AllocationsAreSafe(found, Others(rows, paymentId), p.totals[paymentId]);
  }

  lemma StepKeepsRowsUnique(p: Purchase, s: State, step: Step)
    requires UniqueRows(s.rows)
    ensures UniqueRows(Next(p, s, step).rows)
  {
    var t := Next(p, s, step);
    StepExtends(p, s, step);
    if |t.rows| > |s.rows| {
      var c := PhaseOf(s, step.caller);
      assert !HasRow(s.rows, KeyOf(t.rows[|s.rows|]));
      assert t.rows == s.rows + [t.rows[|s.rows|]];
    } else {
      assert |t.rows| == |s.rows|;
      assert forall i :: 0 <= i < |t.rows| ==> KeyOf(t.rows[i]) == KeyOf(s.rows[i]);
    }
  }

  lemma StepKeepsRowsSound(p: Purchase, s: State, step: Step)
    requires Inv(p, s)
    ensures SoundRows(p, Next(p, s, step).rows)
  {
    var t := Next(p, s, step);
    StepExtends(p, s, step);
    if |t.rows| > |s.rows| {
      var c := PhaseOf(s, step.caller);
      assert SoundPhase(p, s, c);
      var a := c.allocations[c.next];
      assert a in c.allocations;
      var k :| 0 <= k < |p.captures| && p.captures[k] == a.capture;
      assert CaptureIds(p.captures)[k] == a.capture.id;
      assert t.rows == s.rows + [RefundRow(c.paymentId, a.capture.id, a.amount, None, WAITING)];
    } else {
      forall i | 0 <= i < |t.rows|
        ensures t.rows[i].amount > 0 && t.rows[i].captureId in CaptureIds(p.captures) && t.rows[i].paymentId in p.totals
      {
        assert KeyOf(t.rows[i]) == KeyOf(s.rows[i]);
      }
    }
  }

  lemma StepKeepsSent(p: Purchase, s: State, step: Step)
    requires Inv(p, s)
    ensures var t := Next(p, s, step); Distinct(t.sent) && forall k :: k in t.sent ==> HasRow(t.rows, k)
  {
    var t := Next(p, s, step);
    StepExtends(p, s, step);
    forall k | k in s.sent ensures HasRow(t.rows, k) { ExtendsKeepsRow(s.rows, t.rows, k); }
    if t.sent != s.sent {
      var c := PhaseOf(s, step.caller);
      assert SoundPhase(p, s, c);
      var i :| 0 <= i < |s.rows| && KeyOf(s.rows[i]) == CurrentKey(c)
        && s.rows[i].amount == c.allocations[c.next].amount;
      assert HasRow(s.rows, CurrentKey(c));
    }
  }

  /** What the stepping call itself becomes. */
  lemma StepKeepsOwnPhase(p: Purchase, s: State, step: Step)
    requires ValidPurchase(p) && Inv(p, s) && !step.Poll?
    ensures var t := Next(p, s, step); SoundPhase(p, t, PhaseOf(t, step.caller))
  {
    var t := Next(p, s, step);
    var c, d := PhaseOf(s, step.caller), PhaseOf(t, step.caller);
    StepExtends(p, s, step);
    assert SoundPhase(p, s, c);
    match step
    case Start(caller, paymentId, found) =>
      if c.Idle? && StartAllocations(p, found, s.rows, paymentId).Some? { StartIsSound(p, found, s.rows, paymentId); }
    case Reserve(caller) =>
      if c.Walking? && c.next < |c.allocations| {
        ExtendsKeepsPhase(p, s, t, c);
        var key := CurrentKey(c);
        if !HasRow(s.rows, key) {
          assert KeyOf(t.rows[|s.rows|]) == key;
          assert HasAmount(t.rows, key, c.allocations[c.next].amount);
          assert key !in s.sent;
        } else {
          var i := Find(s.rows, key).value;
          assert d.Walking? ==> HasAnswer(s.rows, key, c.allocations[c.next].amount) by {
            assert KeyOf(s.rows[i]) == key;
          }
        }
      }
    case Send(caller, outcome) =>
      if c.Reserved? { ExtendsKeepsPhase(p, s, t.(sent := s.sent), c); }
    case Record(caller, accepted) =>
      if c.Answered? {
        ExtendsKeepsPhase(p, s, t, c);
        RecordAnswers(p, s, caller, accepted);
      }
    case Crash(caller) =>
  }

  /** Whoever goes on after recording an answer has its row answered. */
  lemma RecordAnswers(p: Purchase, s: State, caller: string, accepted: bool)
    requires Inv(p, s) && PhaseOf(s, caller).Answered?
    ensures var c, t := PhaseOf(s, caller), Next(p, s, Record(caller, accepted));
      c.next < |c.allocations|
      && (PhaseOf(t, caller).Walking? ==> HasAnswer(t.rows, CurrentKey(c), c.allocations[c.next].amount))
  {
    var c, t := PhaseOf(s, caller), Next(p, s, Record(caller, accepted));
    assert SoundPhase(p, s, c);
    var i :| 0 <= i < |s.rows| && KeyOf(s.rows[i]) == CurrentKey(c) && s.rows[i].amount == c.allocations[c.next].amount;
    assert HasRow(s.rows, CurrentKey(c));
    var j := Find(s.rows, CurrentKey(c)).value;
    assert KeyOf(s.rows[i]) == KeyOf(s.rows[j]);
    assert i == j;
    if PhaseOf(t, caller).Walking? { assert KeyOf(t.rows[j]) == CurrentKey(c); }
  }

  lemma OtherStays(p: Purchase, s: State, step: Step, other: string)
    requires other in s.callers && (step.Poll? || other != step.caller)
    ensures other in Next(p, s, step).callers && Next(p, s, step).callers[other] == s.callers[other]
  {
  }

  /** What a call sends is not what another call is about to send. */
  lemma OtherKeyIsUnsent(p: Purchase, s: State, step: Step, other: string)
    requires Inv(p, s) && other in s.callers && (step.Poll? || other != step.caller) && s.callers[other].Reserved?
    ensures CurrentKey(s.callers[other]) !in Next(p, s, step).sent
  {
    assert SoundPhase(p, s, s.callers[other]);
    if step.Send? && step.caller in s.callers && Sending(s.callers[step.caller]) {
      assert CurrentKey(s.callers[step.caller]) != CurrentKey(s.callers[other]);
    } else {
      assert Next(p, s, step).sent == s.sent;
    }
  }

  lemma StepKeepsOtherPhase(p: Purchase, s: State, step: Step, other: string)
    requires Inv(p, s) && other in s.callers && (step.Poll? || other != step.caller)
    ensures var t := Next(p, s, step);
      other in t.callers && t.callers[other] == s.callers[other] && SoundPhase(p, t, t.callers[other])
  {
    var t := Next(p, s, step);
    var d := s.callers[other];
    StepExtends(p, s, step);
    OtherStays(p, s, step, other);
    assert SoundPhase(p, s, d);
    if d.Reserved? { OtherKeyIsUnsent(p, s, step, other); }
    ExtendsKeepsPhase(p, s, t, d);
  }

  /** A call that has just reserved owns a key no other call is about to send. */
  lemma ReservedKeyIsNew(p: Purchase, s: State, caller: string, other: string)
    requires Inv(p, s) && other in s.callers && Sending(s.callers[other])
    requires var c := PhaseOf(s, caller); c.Walking? && c.next < |c.allocations|
    requires Sending(PhaseOf(Next(p, s, Reserve(caller)), caller))
    ensures CurrentKey(s.callers[other]) != CurrentKey(PhaseOf(Next(p, s, Reserve(caller)), caller))
  {
    var d := s.callers[other];
    assert SoundPhase(p, s, d);
    var i :| 0 <= i < |s.rows| && KeyOf(s.rows[i]) == CurrentKey(d) && s.rows[i].amount == d.allocations[d.next].amount;
    assert !HasRow(s.rows, CurrentKey(PhaseOf(s, caller)));
  }

  /** Only a reservation brings a call into the position to send. */
  lemma SenderIsOld(p: Purchase, s: State, step: Step, c: string)
    requires c in Next(p, s, step).callers && Sending(Next(p, s, step).callers[c])
    requires !(step.Reserve? && step.caller == c && PhaseOf(s, c).Walking?)
    ensures c in s.callers && s.callers[c] == Next(p, s, step).callers[c]
  {
  }

  lemma StepKeepsExclusive(p: Purchase, s: State, step: Step)
    requires Inv(p, s)
    ensures ExclusiveSenders(Next(p, s, step))
  {
    var t := Next(p, s, step);
    forall c, d | c in t.callers && d in t.callers && c != d && Sending(t.callers[c]) && Sending(t.callers[d])
      ensures CurrentKey(t.callers[c]) != CurrentKey(t.callers[d])
    {
      if step.Reserve? && step.caller == c && PhaseOf(s, c).Walking? {
        SenderIsOld(p, s, step, d);
        ReservedKeyIsNew(p, s, c, d);
      } else if step.Reserve? && step.caller == d && PhaseOf(s, d).Walking? {
        SenderIsOld(p, s, step, c);
        ReservedKeyIsNew(p, s, d, c);
      } else {
        SenderIsOld(p, s, step, c);
        SenderIsOld(p, s, step, d);
      }
    }
  }

  lemma StepKeepsInv(p: Purchase, s: State, step: Step)
    requires ValidPurchase(p) && Inv(p, s)
    ensures Inv(p, Next(p, s, step))
  {
    var t := Next(p, s, step);
    StepKeepsRowsUnique(p, s, step);
    StepKeepsRowsSound(p, s, step);
    StepKeepsSent(p, s, step);
    StepKeepsExclusive(p, s, step);
    forall c | c in t.callers ensures SoundPhase(p, t, t.callers[c]) {
      if !step.Poll? && c == step.caller {
        StepKeepsOwnPhase(p, s, step);
      } else {
        StepKeepsOtherPhase(p, s, step, c);
      }
    }
  }

  lemma {:induction false} RunKeepsInv(p: Purchase, s: State, steps: seq<Step>)
    requires ValidPurchase(p) && Inv(p, s)
    ensures Inv(p, Run(p, s, steps))
  {
    if steps != [] {
      RunKeepsInv(p, s, steps[..|steps| - 1]);
      StepKeepsInv(p, Run(p, s, steps[..|steps| - 1]), steps[|steps| - 1]);
    }
  }

  /**
   Over any interleaving of callers, retries and crashes: one row per (refund payment, capture), at most one `init`
   for it, and none without a row reserved before.
   */
  lemma AtMostOnce(p: Purchase, steps: seq<Step>)
    requires ValidPurchase(p)
    ensures var s := Run(p, INITIAL, steps);
      UniqueRows(s.rows) && Distinct(s.sent) && forall k :: k in s.sent ==> HasRow(s.rows, k)
  {
    RunKeepsInv(p, INITIAL, steps);
  }
}
