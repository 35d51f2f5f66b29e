/**
 The refund table of the iyzico adapter and its `initialize`: the code of one call, and the proof that it is a run of
 the concurrent machine.
 */
module IyzicoService {
  import opened Wrappers
  import opened Sums
  import opened RefundSplit
  import opened RefundPlan
  import opened RefundSettlement
  import opened IyzicoRefund
  import opened IyzicoStatus
  import Form = IyzicoCheckout

  /** How one submission ends: the provider's answer, and what becomes of the update that saves an accepted line. */
  datatype Answer = Answer(outcome: Outcome, saving: Saving)

  /** The provider stays silent once the answers are used up. */
  function AnswerAt(answers: seq<Answer>, i: nat): Answer {
    if i < |answers| then answers[i] else Answer(Doubt, Saved)
  }

  function LeftAs(a: Answer): LineState {
    if a.outcome == Reject then LineState.Rejected else if a.outcome == Accept && a.saving == Saved then Succeeded
    else Doubtful
  }

  /** The state of the refund after such a submission. */
  function StateAs(a: Answer): RefundState {
    if LeftAs(a) == Succeeded then RefundState.Claimed else Stopped
  }

  /** The submissions from line `i` on: how the refund is left, and what was sent. */
  function Attempt(r: Refund, i: nat, answers: seq<Answer>): (Refund, seq<Sent>)
    decreases |r.lines| - i
  {
    if i >= |r.lines| then (r.(state := RefundState.Finished), [])
    else
      var a := AnswerAt(answers, i);
      var done := r.(lines := WithState(r.lines, i, LeftAs(a)));
      if LeftAs(a) != Succeeded then (done.(state := Stopped), [Sent(r.id, i, a.outcome)])
      else
        var rest := Attempt(done, i + 1, answers);
        (rest.0, [Sent(r.id, i, a.outcome)] + rest.1)
  }

  /** One turn of the loop, for a log written so far. */
  lemma AttemptTurn(r: Refund, i: nat, answers: seq<Answer>, log: seq<Sent>)
    requires i < |r.lines|
    ensures var a := AnswerAt(answers, i); var done := r.(lines := WithState(r.lines, i, LeftAs(a)));
      var rest := Attempt(done, i + 1, answers);
      log + Attempt(r, i, answers).1
      == (log + [Sent(r.id, i, a.outcome)]) + if LeftAs(a) == Succeeded then rest.1 else []
  {
    var a := AnswerAt(answers, i);
    var sent, done := Sent(r.id, i, a.outcome), r.(lines := WithState(r.lines, i, LeftAs(a)));
    var rest := Attempt(done, i + 1, answers).1;
    assert log + ([sent] + rest) == (log + [sent]) + rest;
    assert log + [sent] == (log + [sent]) + [];
  }

  /** A whole call: the table and the submissions after it, or why it was refused. */
  function Initialized(sources: Sources, refunds: seq<Refund>, sent: seq<Sent>, q: Request, answers: seq<Answer>)
    : Result<(seq<Refund>, seq<Sent>)>
  {
    match Reservation(sources, refunds, q)
    case Failure(e) => Failure(e)
    case Success(after) =>
      var r := Get(after, q.refundId);
      if r.state != Unclaimed then Success((after, sent))
      else
        var (left, more) := Attempt(r.(state := RefundState.Claimed), 0, answers);
        Success((Put(after, q.refundId, left.state, left.lines), sent + more))
  }

  /** A call with a message: refused by `validate`, or carried on with the request the message makes. */
  function Called(sources: Sources, refunds: seq<Refund>, sent: seq<Sent>, m: Message, answers: seq<Answer>)
    : Result<(seq<Refund>, seq<Sent>)>
  {
    if !ValidMessage(m) then Failure(BadRequest) else Initialized(sources, refunds, sent, RequestOf(m), answers)
  }

  /** What a stored refund and a message agree on. */
  predicate SameRefund(r: Refund, m: Message) {
    && r.paymentId == m.paymentId && r.sourceId == m.sourceId && r.currency == m.currency && Some(r.mode) == m.mode
    && |r.lines| == |m.lines| && forall k :: 0 <= k < |r.lines| ==> r.lines[k].plan == m.lines[k]
  }

  /**
   A refund identity that is taken: a message with exactly the stored payment, capture, currency, rounding and lines
   finds its refund, and one that differs in any of them is refused; nothing is reserved either way.
   */
  lemma ReusedIdentity(sources: Sources, refunds: seq<Refund>, m: Message)
    requires ValidMessage(m) && Refundable(sources, RequestOf(m)) && HasRefund(refunds, m.refundId)
    ensures Reservation(sources, refunds, RequestOf(m))
         == if SameRefund(Get(refunds, m.refundId), m) then Success(refunds) else Failure(Conflict)
  {
    var r := Get(refunds, m.refundId);
    if SameRefund(r, m) { assert Plans(r.lines) == m.lines; }
  }

  /** A completed capture in this currency, known to the provider, with its transactions. */
  predicate Captured(sources: Sources, sourceId: string, currency: string) {
    && sourceId in sources
    && sources[sourceId].status == COMPLETED && sources[sourceId].currency == currency
    && sources[sourceId].providerPaymentId.Some? && sources[sourceId].transactions.Some?
    && sources[sourceId].transactions.value != []
  }

  /** The item has a transaction with room for the line beside all that is reserved. */
  predicate HasRoom(refunds: seq<Refund>, sourceId: string, ts: seq<Form.ItemTransaction>, line: PlanLine) {
    exists j :: 0 <= j < |ts| && ts[j].itemId == line.itemId
      && TotalFor(ProviderReserved(refunds, sourceId), line.itemId) + line.provider <= ts[j].paidPrice
      && TotalFor(NominalReserved(refunds, sourceId), line.itemId) + line.nominal <= ts[j].price
  }

  lemma FitsIsRoom(refunds: seq<Refund>, sourceId: string, ts: seq<Form.ItemTransaction>, line: PlanLine)
    requires Distinct(Keys(Form.PricePairs(ts)))
    ensures HasRoom(refunds, sourceId, ts, line) <==>
      var t := FindTransaction(ts, line.itemId); t.Some? && LineFits(refunds, sourceId, line, t.value)
  {
    var t := FindTransaction(ts, line.itemId);
    if t.Some? {
      var j :| 0 <= j < |ts| && ts[j] == t.value;
      forall i | 0 <= i < |ts| && ts[i].itemId == line.itemId ensures i == j {
        assert Keys(Form.PricePairs(ts))[i] == Keys(Form.PricePairs(ts))[j];
      }
    }
  }

  /**
   When a new refund is reserved: a valid message is never refused for its lines, but only for its capture, for an item
   without room, or, as a conflict, for another refund of its payment; otherwise the table has one more refund, with
   exactly what the message says.
   */
  lemma ValidMessageIsReserved(sources: Sources, refunds: seq<Refund>, m: Message)
    requires ValidMessage(m) && !HasRefund(refunds, m.refundId)
    requires m.sourceId in sources && sources[m.sourceId].transactions.Some? ==>
      Distinct(Keys(Form.PricePairs(sources[m.sourceId].transactions.value)))
    ensures var after := Reservation(sources, refunds, RequestOf(m));
      && (after.Success? <==>
            && Captured(sources, m.sourceId, m.currency)
            && (forall k :: 0 <= k < |m.lines| ==>
                  HasRoom(refunds, m.sourceId, sources[m.sourceId].transactions.value, m.lines[k]))
            && forall i :: 0 <= i < |refunds| ==> refunds[i].paymentId != m.paymentId)
      && (after.Success? ==>
            && |after.value| == |refunds| + 1 && after.value[..|refunds|] == refunds
            && after.value[|refunds|].id == m.refundId && SameRefund(after.value[|refunds|], m)
            && after.value[|refunds|].state == Unclaimed)
      && (after.Failure? ==> after.error in {BadRequest, Conflict})
      && (after == Failure(Conflict) <==>
            && Captured(sources, m.sourceId, m.currency)
            && (forall k :: 0 <= k < |m.lines| ==>
                  HasRoom(refunds, m.sourceId, sources[m.sourceId].transactions.value, m.lines[k]))
            && exists i :: 0 <= i < |refunds| && refunds[i].paymentId == m.paymentId)
  {
    var after := Reservation(sources, refunds, RequestOf(m));
    assert SoundLines(m.lines);
    if Captured(sources, m.sourceId, m.currency) {
      var ts := sources[m.sourceId].transactions.value;
      forall k | 0 <= k < |m.lines| ensures HasRoom(refunds, m.sourceId, ts, m.lines[k]) <==>
        var t := FindTransaction(ts, m.lines[k].itemId); t.Some? && LineFits(refunds, m.sourceId, m.lines[k], t.value) {
        FitsIsRoom(refunds, m.sourceId, ts, m.lines[k]);
      }
    }
    if after.Success? { assert after.value == refunds + [Created(sources[m.sourceId], RequestOf(m))]; }
  }

  lemma {:induction false} AttemptKeepsPlan(r: Refund, i: nat, answers: seq<Answer>)
    ensures var left := Attempt(r, i, answers).0;
      && left.id == r.id && left.paymentId == r.paymentId && left.sourceId == r.sourceId
      && left.currency == r.currency && left.mode == r.mode && SameTargets(r.lines, left.lines)
    decreases |r.lines| - i
  {
    if i < |r.lines| {
      var a := AnswerAt(answers, i);
      if LeftAs(a) == Succeeded {
        AttemptKeepsPlan(r.(lines := WithState(r.lines, i, LeftAs(a))), i + 1, answers);
      }
    }
  }

  /** A refund of a payment that is not open, against the capture it was planned for, item by item. */
  predicate RefundsCapture(m: Message) {
    && m.isRefund && !m.isOpen && m.refundId != "" && m.paymentId != "" && m.sourceId != ""
    && m.planSourceId == m.sourceId && m.captureChannel == CHANNEL && m.captureCurrency == m.currency
    && (m.items.Some? ==>
          && |m.items.value| == |m.lines|
          && (forall i, j :: 0 <= i < j < |m.items.value| ==> m.items.value[i].itemId != m.items.value[j].itemId)
          && forall k :: 0 <= k < |m.items.value| ==>
               exists j :: 0 <= j < |m.lines| && m.lines[j].itemId == m.items.value[k].itemId
                 && m.lines[j].nominal == m.items.value[k].nominal)
  }

  lemma ValidRefundsCapture(m: Message)
    requires ValidMessage(m)
    ensures RefundsCapture(m)
  {
    if m.items.Some? {
      var items := m.items.value;
      forall i, j | 0 <= i < j < |items| ensures items[i].itemId != items[j].itemId {
        assert Keys(RequestPairs(items))[i] != Keys(RequestPairs(items))[j];
      }
      forall k | 0 <= k < |items| ensures exists j :: 0 <= j < |m.lines| && m.lines[j].itemId == items[k].itemId
                                                      && m.lines[j].nominal == items[k].nominal {
        var line := FindLine(m.lines, items[k].itemId).value;
        var j :| 0 <= j < |m.lines| && m.lines[j] == line;
      }
    }
  }

  /**
   Whatever `initialize` accepts, for the first time or again: it is a refund against a completed capture in its
   currency, the table has it exactly as the message says, in whole cents per line, and its nominal amounts add up to
   the amount of the payment.
   */
  lemma AcceptedCallMeans(sources: Sources, refunds: seq<Refund>, sent: seq<Sent>, m: Message, answers: seq<Answer>)
    requires Called(sources, refunds, sent, m, answers).Success? && DistinctRefunds(refunds)
    ensures RefundsCapture(m) && Captured(sources, m.sourceId, m.currency)
    ensures m.lines != [] && Distinct(ItemIds(m.lines)) && Nominal(m.lines) == m.paidAmount == m.totalAmount
    ensures forall k :: 0 <= k < |m.lines| ==>
      && m.lines[k].itemId != "" && m.lines[k].nominal > 0
      && m.lines[k].provider > 0 && m.lines[k].provider % 100 == 0
    ensures var table := Called(sources, refunds, sent, m, answers).value.0;
      HasRefund(table, m.refundId) && SameRefund(Get(table, m.refundId), m)
  {
    var after := Reservation(sources, refunds, RequestOf(m)).value;
    var r := Get(after, m.refundId);
    ValidRefundsCapture(m);
    ReservedIsSame(sources, refunds, m);
    if r.state == Unclaimed {
      var left := Attempt(r.(state := RefundState.Claimed), 0, answers).0;
      AttemptKeepsPlan(r.(state := RefundState.Claimed), 0, answers);
      GetAfterPut(after, m.refundId, left.state, left.lines, m.refundId);
    }
  }

  /** A message that is not a proper refund message is a bad request. */
  lemma InvalidCallIsBad(sources: Sources, refunds: seq<Refund>, sent: seq<Sent>, m: Message, answers: seq<Answer>)
    requires !RefundsCapture(m) || Nominal(m.lines) != m.totalAmount
    ensures Called(sources, refunds, sent, m, answers) == Failure(BadRequest)
  {
    if ValidMessage(m) { ValidRefundsCapture(m); }
  }

  lemma ReservedIsSame(sources: Sources, refunds: seq<Refund>, m: Message)
    requires ValidMessage(m) && Reservation(sources, refunds, RequestOf(m)).Success? && DistinctRefunds(refunds)
    ensures var after := Reservation(sources, refunds, RequestOf(m)).value;
      DistinctRefunds(after) && SameRefund(Get(after, m.refundId), m)
  {
    if HasRefund(refunds, m.refundId) {
      ReusedIdentity(sources, refunds, m);
    } else {
      GetAfterAppend(refunds, Created(sources[m.sourceId], RequestOf(m)), m.refundId);
    }
  }

  lemma PutTwice(refunds: seq<Refund>, id: string, s: RefundState, ls: seq<Line>, t: RefundState, ms: seq<Line>)
    requires DistinctRefunds(refunds) && HasRefund(refunds, id)
    ensures DistinctRefunds(Put(refunds, id, s, ls)) && HasRefund(Put(refunds, id, s, ls), id)
    ensures Put(Put(refunds, id, s, ls), id, t, ms) == Put(refunds, id, t, ms)
  {
    GetAfterPut(refunds, id, s, ls, id);
    IndexIsUnique(Put(refunds, id, s, ls), Index(refunds, id));
  }

  lemma PutSame(refunds: seq<Refund>, id: string)
    requires HasRefund(refunds, id)
    ensures Put(refunds, id, Get(refunds, id).state, Get(refunds, id).lines) == refunds
  {
  }

  class RefundTable {
    var refunds: seq<Refund>
    var sent: seq<Sent>

    /** Refund identities are the primary key. */
    predicate Valid() reads this { DistinctRefunds(refunds) }

    constructor ()
      ensures Valid() && refunds == [] && sent == []
    {
      refunds, sent := [], [];
    }

    method Save(id: string, state: RefundState, lines: seq<Line>)
      requires Valid() && HasRefund(refunds, id)
      modifies this`refunds
      ensures Valid() && refunds == Put(old(refunds), id, state, lines)
    {
      GetAfterPut(refunds, id, state, lines, id);
      refunds := Put(refunds, id, state, lines);
    }

    method Reserve(sources: Sources, q: Request) returns (r: Result<Refund>)
      requires Valid()
      modifies this`refunds
      ensures Valid()
      ensures match Reservation(sources, old(refunds), q)
        case Failure(e) => r == Failure(e) && refunds == old(refunds)
        case Success(after) => refunds == after && r == Success(Get(after, q.refundId))
    {
      var after := Reservation(sources, refunds, q);
      if after.Failure? {
        return Failure(after.error);
      }
      if !HasRefund(refunds, q.refundId) {
        GetAfterAppend(refunds, Created(sources[q.sourceId], q), q.refundId);
      }
      refunds := after.value;
      return Success(Get(refunds, q.refundId));
    }

    /** The compare-and-set that lets one call submit. */
    method Claim(id: string) returns (claimed: bool)
      requires Valid() && HasRefund(refunds, id)
      modifies this`refunds
      ensures Valid() && claimed == (Get(old(refunds), id).state == Unclaimed)
      ensures refunds
           == if claimed then Put(old(refunds), id, RefundState.Claimed, Get(old(refunds), id).lines) else old(refunds)
    {
      var r := Get(refunds, id);
      if r.state != Unclaimed {
        return false;
      }
      Save(id, RefundState.Claimed, r.lines);
      return true;
    }

    /** One line: marked before the network call, and written back after it. */
    method SubmitLine(r: Refund, i: nat, a: Answer) returns (lines: seq<Line>)
      requires Valid() && HasRefund(refunds, r.id) && i < |r.lines|
      modifies this
      ensures Valid() && lines == WithState(r.lines, i, LeftAs(a))
      ensures refunds == Put(old(refunds), r.id, StateAs(a), lines)
      ensures sent == old(sent) + [Sent(r.id, i, a.outcome)]
    {
      ghost var before := refunds;
      lines := WithState(r.lines, i, Submitting);
      PutTwice(before, r.id, RefundState.Claimed, lines, RefundState.Claimed, lines);
      Save(r.id, RefundState.Claimed, lines);
      sent := sent + [Sent(r.id, i, a.outcome)];
      ghost var stored := lines;
      if a.outcome == Accept && a.saving == Unheard {
        stored := WithState(lines, i, Succeeded);
        PutTwice(before, r.id, RefundState.Claimed, lines, RefundState.Claimed, stored);
        Save(r.id, RefundState.Claimed, WithState(lines, i, Succeeded));
      }
      lines := WithState(lines, i, LeftAs(a));
      PutTwice(before, r.id, RefundState.Claimed, stored, StateAs(a), lines);
      Save(r.id, StateAs(a), lines);
    }

    /** The submission loop of a claimed refund. */
    method SubmitLines(claimed: Refund, answers: seq<Answer>)
      requires Valid() && HasRefund(refunds, claimed.id) && Get(refunds, claimed.id) == claimed
      requires claimed.state == RefundState.Claimed
      modifies this
      ensures Valid()
      ensures var (left, more) := Attempt(claimed, 0, answers);
        refunds == Put(old(refunds), claimed.id, left.state, left.lines) && sent == old(sent) + more
    {
      ghost var table, before, log := refunds, sent, [];
      var refund, i := claimed, 0;
      PutSame(table, claimed.id);
      assert sent == before + log;
      assert log + Attempt(refund, 0, answers).1 == Attempt(refund, 0, answers).1;
      while i < |refund.lines|
        invariant Valid() && HasRefund(refunds, refund.id) && refund.id == claimed.id
        invariant i <= |refund.lines| && refund.state == RefundState.Claimed
        invariant refunds == Put(table, claimed.id, refund.state, refund.lines) && sent == before + log
        invariant Attempt(claimed, 0, answers) == (Attempt(refund, i, answers).0, log + Attempt(refund, i, answers).1)
      {
        var a := AnswerAt(answers, i);
        PutTwice(table, claimed.id, refund.state, refund.lines, StateAs(a), WithState(refund.lines, i, LeftAs(a)));
        var lines := SubmitLine(refund, i, a);
        PutTwice(table, claimed.id, StateAs(a), lines, Stopped, lines);
        AttemptTurn(refund, i, answers, log);
        log := log + [Sent(refund.id, i, a.outcome)];
        if LeftAs(a) != Succeeded {
          return;
        }
        refund := refund.(lines := lines);
        i := i + 1;
      }
      PutTwice(table, claimed.id, refund.state, refund.lines, RefundState.Finished, refund.lines);
      Save(claimed.id, RefundState.Finished, refund.lines);
      assert log + [] == log;
    }

    /** The one call that finds the refund unclaimed submits its lines. */
    method ClaimAndSubmit(r: Refund, answers: seq<Answer>)
      requires Valid() && HasRefund(refunds, r.id) && Get(refunds, r.id) == r
      modifies this
      ensures Valid()
      ensures var (left, more) := Attempt(r.(state := RefundState.Claimed), 0, answers);
        if r.state != Unclaimed then refunds == old(refunds) && sent == old(sent)
        else refunds == Put(old(refunds), r.id, left.state, left.lines) && sent == old(sent) + more
    {
      ghost var table := refunds;
      var claimed := Claim(r.id);
      if claimed {
        ghost var left := Attempt(r.(state := RefundState.Claimed), 0, answers).0;
        GetAfterPut(table, r.id, RefundState.Claimed, r.lines, r.id);
        PutTwice(table, r.id, RefundState.Claimed, r.lines, left.state, left.lines);
        SubmitLines(r.(state := RefundState.Claimed), answers);
      }
    }

    /** `initialize`: validate, reserve, claim, submit until the first doubt, and report. */
    method Initialize(sources: Sources, m: Message, answers: seq<Answer>) returns (r: Result<Report>)
      requires Valid()
      modifies this
      ensures Valid()
      ensures match Called(sources, old(refunds), old(sent), m, answers)
        case Failure(e) => r == Failure(e) && refunds == old(refunds) && sent == old(sent)
        case Success((table, log)) =>
          && refunds == table && sent == log && HasRefund(refunds, m.refundId)
          && r == Success(Check(Get(refunds, m.refundId)))
    {
      if !ValidMessage(m) {
        return Failure(BadRequest);
      }
      var q := RequestOf(m);
      var reserved := Reserve(sources, q);
      if reserved.Failure? {
        return Failure(reserved.error);
      }
      ghost var left := Attempt(reserved.value.(state := RefundState.Claimed), 0, answers).0;
      GetAfterPut(refunds, q.refundId, left.state, left.lines, q.refundId);
      ClaimAndSubmit(reserved.value, answers);
      return Success(Check(Get(refunds, q.refundId)));
    }
  }

  // ---- The code is a run of the machine

  function LineSteps(c: string, a: Answer): seq<Step> {
    [Mark(c)] + [Submit(c, a.outcome)]
    + if a.outcome != Accept then [Stop(c)]
      else if a.saving == Saved then [Persist(c, Saved)]
      else [Persist(c, a.saving)] + [Stop(c)]
  }

  function StepsFrom(c: string, r: Refund, i: nat, answers: seq<Answer>): seq<Step>
    decreases |r.lines| - i
  {
    if i >= |r.lines| then [Finish(c)]
    else
      var a := AnswerAt(answers, i);
      if LeftAs(a) != Succeeded then LineSteps(c, a)
      else LineSteps(c, a) + StepsFrom(c, r.(lines := WithState(r.lines, i, Succeeded)), i + 1, answers)
  }

  lemma {:induction false} RunAppend(sources: Sources, s: State, a: seq<Step>, b: seq<Step>)
    ensures Run(sources, s, a + b) == Run(sources, Run(sources, s, a), b)
  {
    if b == [] {
      assert a + b == a;
    } else {
      RunAppend(sources, s, a, b[..|b| - 1]);
      AppendLast(a, b);
      RunSnoc(sources, s, a + b[..|b| - 1], b[|b| - 1]);
    }
  }

  lemma RunOne(sources: Sources, s: State, step: Step)
    ensures Run(sources, s, [step]) == Next(sources, s, step)
  {
    assert [step][..0] == [];
  }

  /** The call `c` is about to submit line `i` of its own refund. */
  predicate Submits(s: State, c: string, r: Refund, i: nat) {
    && DistinctRefunds(s.refunds) && HasRefund(s.refunds, r.id) && Get(s.refunds, r.id) == r
    && r.state == RefundState.Claimed && PhaseOf(s, c) == Looping(r.id, r.lines, i)
  }

  lemma MarkAndSubmit(sources: Sources, s: State, c: string, r: Refund, i: nat, outcome: Outcome)
    requires Submits(s, c, r, i) && i < |r.lines|
    ensures var t := Run(sources, s, [Mark(c)] + [Submit(c, outcome)]);
      var marked := WithState(r.lines, i, Submitting);
      && t.refunds == Put(s.refunds, r.id, RefundState.Claimed, marked)
      && t.sent == s.sent + [Sent(r.id, i, outcome)]
      && PhaseOf(t, c) == match outcome
           case Accept => Accepted(r.id, WithState(marked, i, Succeeded), i)
           case Reject => Stopping(r.id, WithState(marked, i, LineState.Rejected), i)
           case Doubt => Stopping(r.id, WithState(marked, i, Doubtful), i)
  {
    RunOne(sources, s, Mark(c));
    var marked := WithState(r.lines, i, Submitting);
    GetAfterPut(s.refunds, r.id, RefundState.Claimed, marked, r.id);
    assert s.sent + [] == s.sent;
    RunSnoc(sources, s, [Mark(c)], Submit(c, outcome));
  }

  /** The table, the log and the caller after line `i` ended as `a` says. */
  predicate LineDone(s: State, t: State, c: string, r: Refund, i: nat, a: Answer) {
    var lines := WithState(r.lines, i, LeftAs(a));
    && t.refunds == Put(s.refunds, r.id, StateAs(a), lines)
    && t.sent == s.sent + [Sent(r.id, i, a.outcome)]
    && PhaseOf(t, c) == if LeftAs(a) == Succeeded then Looping(r.id, lines, i + 1) else Idle
  }

  lemma StopWrites(sources: Sources, s: State, c: string, id: string, lines: seq<Line>, i: nat)
    requires PhaseOf(s, c) == Stopping(id, lines, i) && HasRefund(s.refunds, id)
    ensures var t := Next(sources, s, Stop(c));
      t.refunds == Put(s.refunds, id, Stopped, lines) && t.sent == s.sent && PhaseOf(t, c) == Idle
  {
    assert s.sent + [] == s.sent;
  }

  lemma PersistWrites(sources: Sources, s: State, c: string, id: string, lines: seq<Line>, i: nat, saving: Saving)
    requires PhaseOf(s, c) == Accepted(id, lines, i) && HasRefund(s.refunds, id)
    ensures var t := Next(sources, s, Persist(c, saving));
      && t.sent == s.sent
      && t.refunds == (if saving != Unsaved then Put(s.refunds, id, RefundState.Claimed, lines) else s.refunds)
      && PhaseOf(t, c) == if saving == Saved then Looping(id, lines, i + 1)
                          else Stopping(id, WithState(lines, i, Doubtful), i)
  {
    assert s.sent + [] == s.sent;
  }

  /** A line whose update failed, or was not heard of, ends in doubt either way. */
  lemma UnsavedIsRun(sources: Sources, s: State, c: string, id: string, lines: seq<Line>, i: nat, saving: Saving)
    requires DistinctRefunds(s.refunds) && PhaseOf(s, c) == Accepted(id, lines, i) && HasRefund(s.refunds, id)
    requires saving != Saved
    ensures var t := Next(sources, Next(sources, s, Persist(c, saving)), Stop(c));
      && t.sent == s.sent && t.refunds == Put(s.refunds, id, Stopped, WithState(lines, i, Doubtful))
      && PhaseOf(t, c) == Idle
  {
    var doubtful := WithState(lines, i, Doubtful);
    PersistWrites(sources, s, c, id, lines, i, saving);
    PutTwice(s.refunds, id, RefundState.Claimed, lines, Stopped, doubtful);
    StopWrites(sources, Next(sources, s, Persist(c, saving)), c, id, doubtful, i);
  }

  lemma LineIsRun(sources: Sources, s: State, c: string, r: Refund, i: nat, a: Answer)
    requires Submits(s, c, r, i) && i < |r.lines|
    ensures LineDone(s, Run(sources, s, LineSteps(c, a)), c, r, i, a)
  {
    var first := [Mark(c)] + [Submit(c, a.outcome)];
    var marked, lines := WithState(r.lines, i, Submitting), WithState(r.lines, i, LeftAs(a));
    MarkAndSubmit(sources, s, c, r, i, a.outcome);
    var mid := Run(sources, s, first);
    PutTwice(s.refunds, r.id, RefundState.Claimed, marked, StateAs(a), lines);
    assert WithState(marked, i, LeftAs(a)) == lines;
    if a.outcome != Accept {
      RunSnoc(sources, s, first, Stop(c));
      StopWrites(sources, mid, c, r.id, lines, i);
    } else if a.saving == Saved {
      RunSnoc(sources, s, first, Persist(c, Saved));
      PersistWrites(sources, mid, c, r.id, WithState(marked, i, Succeeded), i, Saved);
    } else {
      assert WithState(WithState(marked, i, Succeeded), i, Doubtful) == lines;
      UnsavedIsRun(sources, mid, c, r.id, WithState(marked, i, Succeeded), i, a.saving);
      UnsavedSteps(sources, s, c, a);
    }
  }

  lemma UnsavedSteps(sources: Sources, s: State, c: string, a: Answer)
    requires a.outcome == Accept && a.saving != Saved
    ensures var mid := Run(sources, s, [Mark(c)] + [Submit(c, a.outcome)]);
      Run(sources, s, LineSteps(c, a)) == Next(sources, Next(sources, mid, Persist(c, a.saving)), Stop(c))
  {
    var first := [Mark(c)] + [Submit(c, a.outcome)];
    RunSnoc(sources, s, first, Persist(c, a.saving));
    RunSnoc(sources, s, first + [Persist(c, a.saving)], Stop(c));
    assert first + [Persist(c, a.saving)] + [Stop(c)] == LineSteps(c, a);
  }

  predicate AttemptDone(s: State, t: State, c: string, r: Refund, i: nat, answers: seq<Answer>) {
    var (left, more) := Attempt(r, i, answers);
    t.refunds == Put(s.refunds, r.id, left.state, left.lines) && t.sent == s.sent + more && PhaseOf(t, c) == Idle
  }

  lemma FirstThenRest(s: State, t: State, u: State, c: string, r: Refund, i: nat, answers: seq<Answer>)
    requires Submits(s, c, r, i) && i < |r.lines| && LeftAs(AnswerAt(answers, i)) == Succeeded
    requires LineDone(s, t, c, r, i, AnswerAt(answers, i))
    requires AttemptDone(t, u, c, r.(lines := WithState(r.lines, i, Succeeded)), i + 1, answers)
    ensures AttemptDone(s, u, c, r, i, answers)
  {
    var done := r.(lines := WithState(r.lines, i, Succeeded));
    var (left, more) := Attempt(done, i + 1, answers);
    PutTwice(s.refunds, r.id, RefundState.Claimed, done.lines, left.state, left.lines);
    assert t.sent + more == s.sent + ([Sent(r.id, i, AnswerAt(answers, i).outcome)] + more);
  }

  lemma {:induction false} AttemptIsRun(sources: Sources, s: State, c: string, r: Refund, i: nat, answers: seq<Answer>)
    requires Submits(s, c, r, i)
    ensures AttemptDone(s, Run(sources, s, StepsFrom(c, r, i, answers)), c, r, i, answers)
    decreases |r.lines| - i
  {
    if i >= |r.lines| {
      RunOne(sources, s, Finish(c));
      assert s.sent + [] == s.sent;
    } else {
      var a := AnswerAt(answers, i);
      LineIsRun(sources, s, c, r, i, a);
      if LeftAs(a) == Succeeded {
        var t, done := Run(sources, s, LineSteps(c, a)), r.(lines := WithState(r.lines, i, Succeeded));
        GetAfterPut(s.refunds, r.id, RefundState.Claimed, done.lines, r.id);
        AttemptIsRun(sources, t, c, done, i + 1, answers);
        RunAppend(sources, s, LineSteps(c, a), StepsFrom(c, done, i + 1, answers));
        FirstThenRest(s, t, Run(sources, s, StepsFrom(c, r, i, answers)), c, r, i, answers);
      }
    }
  }

  /** Reserving and claiming: the call owns a refund nobody had claimed, and leaves any other alone. */
  lemma BeginIsRun(sources: Sources, s: State, c: string, q: Request)
    requires DistinctRefunds(s.refunds) && PhaseOf(s, c) == Idle && Reservation(sources, s.refunds, q).Success?
    ensures var t := Run(sources, s, [Reserve(c, q)] + [Claim(c)]);
      var after := Reservation(sources, s.refunds, q).value; var r := Get(after, q.refundId);
      && DistinctRefunds(after) && t.sent == s.sent
      && (r.state != Unclaimed ==> t.refunds == after && PhaseOf(t, c) == Idle)
      && (r.state == Unclaimed ==>
            && t.refunds == Put(after, q.refundId, RefundState.Claimed, r.lines)
            && Submits(t, c, r.(state := RefundState.Claimed), 0))
  {
    var after := Reservation(sources, s.refunds, q).value;
    var r := Get(after, q.refundId);
    if !HasRefund(s.refunds, q.refundId) { GetAfterAppend(s.refunds, Created(sources[q.sourceId], q), q.refundId); }
    RunOne(sources, s, Reserve(c, q));
    RunSnoc(sources, s, [Reserve(c, q)], Claim(c));
    assert s.sent + [] == s.sent;
    GetAfterPut(after, q.refundId, RefundState.Claimed, r.lines, q.refundId);
  }

  function CallSteps(sources: Sources, refunds: seq<Refund>, c: string, q: Request, answers: seq<Answer>): seq<Step> {
    var begin := [Reserve(c, q)] + [Claim(c)];
    var after := Reservation(sources, refunds, q);
    if after.Failure? || Get(after.value, q.refundId).state != Unclaimed then begin
    else begin + StepsFrom(c, Get(after.value, q.refundId).(state := RefundState.Claimed), 0, answers)
  }

  /** Without interference, a call of `initialize` is a run of the machine with the same table and submissions. */
  lemma InitializeIsRun(sources: Sources, s: State, c: string, m: Message, answers: seq<Answer>)
    requires DistinctRefunds(s.refunds) && PhaseOf(s, c) == Idle
    requires Called(sources, s.refunds, s.sent, m, answers).Success?
    ensures var t := Run(sources, s, CallSteps(sources, s.refunds, c, RequestOf(m), answers));
      Called(sources, s.refunds, s.sent, m, answers).value == (t.refunds, t.sent) && PhaseOf(t, c) == Idle
  {
    var q := RequestOf(m);
    var after := Reservation(sources, s.refunds, q).value;
    var r, begin := Get(after, q.refundId), [Reserve(c, q)] + [Claim(c)];
    BeginIsRun(sources, s, c, q);
    if r.state == Unclaimed {
      var claimed, t := r.(state := RefundState.Claimed), Run(sources, s, begin);
      AttemptIsRun(sources, t, c, claimed, 0, answers);
      RunAppend(sources, s, begin, StepsFrom(c, claimed, 0, answers));
      var left := Attempt(claimed, 0, answers).0;
      PutTwice(after, q.refundId, RefundState.Claimed, r.lines, left.state, left.lines);
    }
  }
}
