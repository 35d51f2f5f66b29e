/**
 The iyzico refund adapter: a refund is reserved against its capture under a lock, claimed once by compare-and-set,
 and its lines are submitted one at a time until the first doubt. Callers run concurrently and may stop anywhere.
 */
module IyzicoRefund {
  import opened Wrappers
  import opened Sums
  import opened RefundSplit
  import opened RefundPlan
  import opened RefundRounding
  import opened RefundSettlement
  import Form = IyzicoCheckout

  /** RESERVED, SUBMITTING, SUCCEEDED, REJECTED and RECONCILIATION_REQUIRED of a line. */
  datatype LineState = Held | Submitting | Succeeded | Rejected | Doubtful

  /** RESERVED, SUBMITTING, FINISHED and RECONCILIATION_REQUIRED of a refund. */
  datatype RefundState = Unclaimed | Claimed | Finished | Stopped

  datatype Line = Line(plan: PlanLine, transactionId: string, state: LineState)

  datatype Refund = Refund(
    id: string, paymentId: string, sourceId: string, currency: string, mode: RoundingMode,
    state: RefundState, lines: seq<Line>)

  /** A validated `init` message of the core. */
  datatype Request = Request(
    refundId: string, paymentId: string, sourceId: string, currency: string, mode: RoundingMode, lines: seq<PlanLine>)

  /** How the provider answers one submission: success, a definite rejection, or anything ambiguous. */
  datatype Outcome = Accept | Reject | Doubt

  /** How the update of an accepted line ends: done, failed, or done with its acknowledgement lost. */
  datatype Saving = Saved | Unsaved | Unheard

  datatype Sent = Sent(refundId: string, line: nat, outcome: Outcome)

  /** One call of `initialize`, with the copy of the lines it works on. */
  datatype Phase =
    | Idle
    | Claiming(id: string, lines: seq<Line>)
    | Looping(id: string, lines: seq<Line>, next: nat)
    | Marked(id: string, lines: seq<Line>, next: nat)
    | Accepted(id: string, lines: seq<Line>, next: nat)
    | Stopping(id: string, lines: seq<Line>, next: nat)

  /** The refund table, the submissions that left for the provider, and the running calls. */
  datatype State = State(refunds: seq<Refund>, sent: seq<Sent>, callers: map<string, Phase>)

  type Sources = map<string, Form.Checkout>

  // ---- Validation of the message

  const CHANNEL: string := "iyzico"

  /**
   The refund payment as the core sends it: its identities, amount and currency, the capture it is against, its saved
   plan, and its items when they name their original lines. A plan without a readable rounding mode has none.
   */
  datatype Message = Message(
    isRefund: bool, isOpen: bool, refundId: string, paymentId: string, sourceId: string, currency: string,
    totalAmount: int, captureChannel: string, captureCurrency: string, paidAmount: int,
    planSourceId: string, mode: Option<RoundingMode>, lines: seq<PlanLine>, items: Option<seq<RequestLine>>)

  predicate ValidCapture(m: Message) {
    && m.isRefund && !m.isOpen && m.refundId != "" && m.paymentId != "" && m.sourceId != ""
    && m.planSourceId == m.sourceId && m.captureChannel == CHANNEL && m.captureCurrency == m.currency
    && m.paidAmount == m.totalAmount && m.mode.Some?
  }

  /** The checks of `validate`. */
  predicate ValidMessage(m: Message) {
    && ValidCapture(m) && m.lines != []
    && (forall k :: 0 <= k < |m.lines| ==>
          m.lines[k].itemId != "" && m.lines[k].nominal > 0 && m.lines[k].provider > 0
            && m.lines[k].provider % 100 == 0)
    && (m.items.Some? ==> MatchesItems(m.lines, m.items.value))
    && Distinct(ItemIds(m.lines)) && Nominal(m.lines) == m.paidAmount
  }

  predicate MatchesItems(lines: seq<PlanLine>, items: seq<RequestLine>) {
    && |items| == |lines| && Distinct(Keys(RequestPairs(items)))
    && forall k :: 0 <= k < |items| ==>
         var line := FindLine(lines, items[k].itemId); line.Some? && line.value.nominal == items[k].nominal
  }

  /** Items that match a plan in number name every one of its lines, with the planned nominal amounts. */
  lemma MatchingItemsCoverPlan(m: Message)
    requires ValidMessage(m) && m.items.Some?
    ensures forall id :: id in ItemIds(m.lines) ==> id in Keys(RequestPairs(m.items.value))
    ensures Total(RequestPairs(m.items.value)) == m.paidAmount
  {
    var items, keys := m.items.value, Keys(RequestPairs(m.items.value));
    var pairs := NominalPairs(m.lines);
    forall id | id in keys ensures id in ItemIds(m.lines) {
      var k :| 0 <= k < |keys| && keys[k] == id;
      assert FindLine(m.lines, items[k].itemId).Some?;
    }
    DistinctCovers(keys, ItemIds(m.lines));
    GroupedTotal(pairs, keys) by {
      forall k | 0 <= k < |pairs| ensures pairs[k].0 in keys { assert ItemIds(m.lines)[k] in ItemIds(m.lines); }
    }
    TotalIsSum(RequestPairs(items));
    forall k | 0 <= k < |keys| ensures GroupTotals(pairs, keys)[k] == Amounts(RequestPairs(items))[k] {
      var line := FindLine(m.lines, items[k].itemId).value;
      var j :| 0 <= j < |m.lines| && m.lines[j] == line;
      TotalForUnique(pairs, j);
    }
    assert GroupTotals(pairs, keys) == Amounts(RequestPairs(items));
  }

  function RequestOf(m: Message): Request
    requires m.mode.Some?
  {
    Request(m.refundId, m.paymentId, m.sourceId, m.currency, m.mode.value, m.lines)
  }

  // ---- Capacity of the original items

  function Plans(lines: seq<Line>): (p: seq<PlanLine>)
    ensures |p| == |lines| && forall k :: 0 <= k < |p| ==> p[k] == lines[k].plan
  {
    seq(|lines|, k requires 0 <= k < |lines| => lines[k].plan)
  }

  /** All provider amounts reserved against a capture, in whatever state their lines are. */
  function ProviderReserved(refunds: seq<Refund>, sourceId: string): seq<Pair> {
    if refunds == [] then []
    else ProviderReserved(refunds[..|refunds| - 1], sourceId)
         + (var r := refunds[|refunds| - 1]; if r.sourceId == sourceId then ProviderPairs(Plans(r.lines)) else [])
  }

  function NominalReserved(refunds: seq<Refund>, sourceId: string): seq<Pair> {
    if refunds == [] then []
    else NominalReserved(refunds[..|refunds| - 1], sourceId)
         + (var r := refunds[|refunds| - 1]; if r.sourceId == sourceId then NominalPairs(Plans(r.lines)) else [])
  }

  predicate LineFits(refunds: seq<Refund>, sourceId: string, line: PlanLine, t: Form.ItemTransaction) {
    && TotalFor(ProviderReserved(refunds, sourceId), line.itemId) + line.provider <= t.paidPrice
    && TotalFor(NominalReserved(refunds, sourceId), line.itemId) + line.nominal <= t.price
  }

  predicate Refundable(sources: Sources, request: Request) {
    && request.sourceId in sources
    && var source := sources[request.sourceId];
       && source.status == COMPLETED && source.providerPaymentId.Some? && source.currency == request.currency
       && source.transactions.Some? && source.transactions.value != []
  }

  /** The first verified transaction of an item in a capture. */
  function FindTransaction(ts: seq<Form.ItemTransaction>, itemId: string): (r: Option<Form.ItemTransaction>)
    ensures r.Some? ==> r.value in ts && r.value.itemId == itemId
    ensures r.None? ==> forall k :: 0 <= k < |ts| ==> ts[k].itemId != itemId
  {
    if ts == [] then None else if ts[0].itemId == itemId then Some(ts[0]) else FindTransaction(ts[1..], itemId)
  }

  predicate AllFit(refunds: seq<Refund>, sourceId: string, ts: seq<Form.ItemTransaction>, lines: seq<PlanLine>) {
    forall k :: 0 <= k < |lines| ==>
      var t := FindTransaction(ts, lines[k].itemId);
      t.Some? && LineFits(refunds, sourceId, lines[k], t.value)
  }

  function TransactionOf(source: Form.Checkout, itemId: string): string {
    if source.transactions.None? then ""
    else
      var t := FindTransaction(source.transactions.value, itemId);
      if t.Some? then t.value.transactionId else ""
  }

  function HeldLines(source: Form.Checkout, lines: seq<PlanLine>): (r: seq<Line>)
    ensures |r| == |lines|
    ensures forall k :: 0 <= k < |r| ==> r[k] == Line(lines[k], TransactionOf(source, lines[k].itemId), Held)
  {
    seq(|lines|, k requires 0 <= k < |lines| => Line(lines[k], TransactionOf(source, lines[k].itemId), Held))
  }

  // ---- The steps

  datatype Step =
    | Reserve(caller: string, request: Request)
    | Claim(caller: string)
    | Mark(caller: string)
    | Submit(caller: string, outcome: Outcome)
    | Persist(caller: string, saving: Saving)
    | Stop(caller: string)
    | Finish(caller: string)
    | Crash(caller: string)

  function PhaseOf(s: State, caller: string): Phase {
    if caller in s.callers then s.callers[caller] else Idle
  }

  function To(s: State, caller: string, phase: Phase): State { s.(callers := s.callers[caller := phase]) }

  predicate HasRefund(refunds: seq<Refund>, id: string) {
    exists i :: 0 <= i < |refunds| && refunds[i].id == id
  }

  function Index(refunds: seq<Refund>, id: string): (i: nat)
    requires HasRefund(refunds, id)
    ensures i < |refunds| && refunds[i].id == id
  {
    if refunds[|refunds| - 1].id == id then |refunds| - 1
    else
      assert HasRefund(refunds[..|refunds| - 1], id) by {
        var i :| 0 <= i < |refunds| && refunds[i].id == id;
        assert refunds[..|refunds| - 1][i].id == id;
      }
      Index(refunds[..|refunds| - 1], id)
  }

  function Get(refunds: seq<Refund>, id: string): (r: Refund)
    requires HasRefund(refunds, id)
    ensures r.id == id
  {
    refunds[Index(refunds, id)]
  }

  /** An update of one row by its primary key. */
  function Put(refunds: seq<Refund>, id: string, state: RefundState, lines: seq<Line>): seq<Refund> {
    if !HasRefund(refunds, id) then refunds
    else var i := Index(refunds, id); refunds[i := refunds[i].(state := state, lines := lines)]
  }

  predicate SameDetails(r: Refund, request: Request) {
    && r.paymentId == request.paymentId && r.sourceId == request.sourceId && r.currency == request.currency
    && r.mode == request.mode && Plans(r.lines) == request.lines
  }

  predicate SoundLines(lines: seq<PlanLine>) {
    && lines != [] && Distinct(ItemIds(lines))
    && forall k :: 0 <= k < |lines| ==> lines[k].nominal > 0 && lines[k].provider > 0
  }

  predicate PaymentTaken(refunds: seq<Refund>, paymentId: string) {
    exists i :: 0 <= i < |refunds| && refunds[i].paymentId == paymentId
  }

  function Created(source: Form.Checkout, q: Request): Refund {
    Refund(q.refundId, q.paymentId, q.sourceId, q.currency, q.mode, Unclaimed, HeldLines(source, q.lines))
  }

  /** The reservation transaction, under the lock of the capture: the table after it, or why it was refused. */
  function Reservation(sources: Sources, refunds: seq<Refund>, q: Request): (r: Result<seq<Refund>>)
    ensures r.Success? ==> HasRefund(r.value, q.refundId)
  {
    if !SoundLines(q.lines) || !Refundable(sources, q) then Failure(BadRequest)
    else if HasRefund(refunds, q.refundId) then
      if SameDetails(Get(refunds, q.refundId), q) then Success(refunds) else Failure(Conflict)
    else
      var source := sources[q.sourceId];
      if !AllFit(refunds, q.sourceId, source.transactions.value, q.lines) then Failure(BadRequest)
      else if PaymentTaken(refunds, q.paymentId) then Failure(Conflict)
      else
        var after := refunds + [Created(source, q)];
        assert after[|refunds|].id == q.refundId;
        Success(after)
  }

  function ReserveTx(sources: Sources, s: State, caller: string, q: Request): State {
    var r := Reservation(sources, s.refunds, q);
    if r.Failure? then s
    else To(s, caller, Claiming(q.refundId, Get(r.value, q.refundId).lines)).(refunds := r.value)
  }

  function WithState(lines: seq<Line>, i: nat, state: LineState): seq<Line> {
    if i < |lines| then lines[i := lines[i].(state := state)] else lines
  }

  /** What a step of a running call does: its next phase, what it writes into its refund, what it submits. */
  datatype Effect = Effect(phase: Phase, write: Option<(RefundState, seq<Line>)>, submits: Option<Outcome>)

  /** The step of a call at phase `p` that finds its refund stored as `r`; nothing if the step is not enabled. */
  function Act(p: Phase, r: Refund, step: Step): Option<Effect> {
    match step
    case Claim(_) =>
      if !p.Claiming? then None
      else if r.state != Unclaimed then Some(Effect(Idle, None, None))
      else Some(Effect(Looping(p.id, p.lines, 0), Some((RefundState.Claimed, r.lines)), None))
    case Mark(_) =>
      if !p.Looping? || p.next >= |p.lines| then None
      else
        var lines := WithState(p.lines, p.next, Submitting);
        Some(Effect(Marked(p.id, lines, p.next), Some((RefundState.Claimed, lines)), None))
    case Submit(_, outcome) =>
      if !p.Marked? then None
      else
        var after := match outcome
          case Accept => Accepted(p.id, WithState(p.lines, p.next, Succeeded), p.next)
          case Reject => Stopping(p.id, WithState(p.lines, p.next, LineState.Rejected), p.next)
          case Doubt => Stopping(p.id, WithState(p.lines, p.next, Doubtful), p.next);
        Some(Effect(after, None, Some(outcome)))
    case Persist(_, saving) =>
      if !p.Accepted? then None
      else
        var written := if saving == Unsaved then None else Some((RefundState.Claimed, p.lines));
        var after := if saving == Saved then Looping(p.id, p.lines, p.next + 1)
                     else Stopping(p.id, WithState(p.lines, p.next, Doubtful), p.next);
        Some(Effect(after, written, None))
    case Stop(_) =>
      if !p.Stopping? then None else Some(Effect(Idle, Some((RefundState.Stopped, p.lines)), None))
    case Finish(_) =>
      if !p.Looping? || p.next < |p.lines| then None
      else Some(Effect(Idle, Some((RefundState.Finished, r.lines)), None))
    case _ => None
  }

  function Written(r: Refund, e: Effect): Refund {
    if e.write.None? then r else r.(state := e.write.value.0, lines := e.write.value.1)
  }

  function Logged(p: Phase, e: Effect): seq<Sent> {
    if e.submits.None? || !p.Marked? then [] else [Sent(p.id, p.next, e.submits.value)]
  }

  /** One atomic step; a step that is not enabled changes nothing. */
  function Next(sources: Sources, s: State, step: Step): State {
    var p := PhaseOf(s, step.caller);
    if step.Reserve? then (if p.Idle? then ReserveTx(sources, s, step.caller, step.request) else s)
    else if step.Crash? then To(s, step.caller, Idle)
    else if p.Idle? || !HasRefund(s.refunds, p.id) then s
    else
      var effect := Act(p, Get(s.refunds, p.id), step);
      if effect.None? then s
      else
        var e := effect.value;
        State(if e.write.None? then s.refunds else Put(s.refunds, p.id, e.write.value.0, e.write.value.1),
              s.sent + Logged(p, e), s.callers[step.caller := e.phase])
  }

  function Run(sources: Sources, s: State, steps: seq<Step>): State {
    if steps == [] then s else Next(sources, Run(sources, s, steps[..|steps| - 1]), steps[|steps| - 1])
  }

  const INITIAL: State := State([], [], map[])

  lemma RunSnoc(sources: Sources, s: State, steps: seq<Step>, step: Step)
    ensures Run(sources, s, steps + [step]) == Next(sources, Run(sources, s, steps), step)
  {
    assert (steps + [step])[..|steps|] == steps;
  }

  // ---- The shape of a refund

  /** The number of leading lines that succeeded. */
  function Progress(lines: seq<Line>): (j: nat)
    ensures j <= |lines| && (forall k :: 0 <= k < j ==> lines[k].state == Succeeded)
    ensures j < |lines| ==> lines[j].state != Succeeded
  {
    if lines == [] || lines[0].state != Succeeded then 0
    else
      var j := 1 + Progress(lines[1..]);
      assert forall k :: 0 < k < j ==> lines[k] == lines[1..][k - 1];
      assert j < |lines| ==> lines[j] == lines[1..][j - 1];
      j
  }

  /** SUCCEEDED*, then at most one line under way or stopped, then RESERVED*. */
  predicate Shaped(lines: seq<Line>) {
    forall k :: Progress(lines) < k < |lines| ==> lines[k].state == Held
  }

  function SentOf(sent: seq<Sent>, id: string): seq<Sent> {
    if sent == [] then []
    else SentOf(sent[..|sent| - 1], id) + (if sent[|sent| - 1].refundId == id then [sent[|sent| - 1]] else [])
  }

  lemma SentOfSnoc(sent: seq<Sent>, m: Sent, id: string)
    ensures SentOf(sent + [m], id) == SentOf(sent, id) + (if m.refundId == id then [m] else [])
  {
    assert (sent + [m])[..|sent|] == sent;
  }

  /** The submissions of a refund against its lines: in order, each at most once, and what each line's state means. */
  predicate Accounted(lines: seq<Line>, log: seq<Sent>) {
    var j := Progress(lines);
    && (forall k :: 0 <= k < |log| ==> log[k].line == k)
    && (forall k :: 0 <= k < j ==> k < |log| && log[k].outcome == Accept)
    && (j == |lines| ==> |log| == j)
    && (j < |lines| ==>
          match lines[j].state
          case Held => |log| == j
          case Submitting => j <= |log| <= j + 1
          case Rejected => |log| == j + 1 && log[j].outcome == Reject
          case Doubtful => |log| == j + 1 && log[j].outcome != Reject
          case Succeeded => false)
  }

  predicate SoundRefund(r: Refund, log: seq<Sent>) {
    && SoundLines(Plans(r.lines)) && Shaped(r.lines) && Accounted(r.lines, log)
    && (r.state == Unclaimed ==> log == [] && forall k :: 0 <= k < |r.lines| ==> r.lines[k].state == Held)
    && (r.state == Finished ==> Progress(r.lines) == |r.lines|)
  }

  predicate Owns(p: Phase, id: string) { (p.Looping? || p.Marked? || p.Accepted? || p.Stopping?) && p.id == id }

  /** What a running call knows about the stored refund. */
  predicate SoundCaller(r: Refund, log: seq<Sent>, p: Phase) {
    match p
    case Idle => true
    case Claiming(_, lines) => r.state == Unclaimed ==> lines == r.lines
    case Looping(_, lines, next) =>
      r.state == Claimed && lines == r.lines && next == Progress(lines) && |log| == next
      && (next < |lines| ==> lines[next].state == Held)
    case Marked(_, lines, next) =>
      r.state == Claimed && lines == r.lines && next == Progress(lines) < |lines| && lines[next].state == Submitting
      && |log| == next
    case Accepted(_, lines, next) =>
      r.state == Claimed && next == Progress(r.lines) < |r.lines| == |lines| && r.lines[next].state == Submitting
      && lines == WithState(r.lines, next, Succeeded) && |log| == next + 1 && log[next].outcome == Accept
    case Stopping(_, lines, next) =>
      r.state == Claimed && next < |r.lines| == |lines| && |log| == next + 1
      && if TakesBack(r, p) then
           lines == WithState(r.lines, next, Doubtful) && log[next].outcome == Accept && Progress(r.lines) == next + 1
           && (next + 1 < |r.lines| ==> r.lines[next + 1].state == Held)
         else
           next == Progress(r.lines) && r.lines[next].state == Submitting
           && ((lines == WithState(r.lines, next, Rejected) && log[next].outcome == Reject)
               || (lines == WithState(r.lines, next, Doubtful) && log[next].outcome != Reject))
  }

  /** The call is about to withdraw a line whose success is stored: it did not hear that its update was done. */
  predicate TakesBack(r: Refund, p: Phase) {
    p.Stopping? && p.next < |r.lines| && r.lines[p.next].state == Succeeded
  }

  predicate DistinctRefunds(refunds: seq<Refund>) {
    forall i, j :: 0 <= i < j < |refunds| ==> refunds[i].id != refunds[j].id
  }

  ghost predicate Inv(s: State) {
    && DistinctRefunds(s.refunds)
    && (forall id :: HasRefund(s.refunds, id) ==> SoundRefund(Get(s.refunds, id), SentOf(s.sent, id)))
    && (forall m :: m in s.sent ==> HasRefund(s.refunds, m.refundId))
    && (forall c :: c in s.callers ==> CallerFits(s, s.callers[c]))
    && (forall c, d :: SingleOwner(s.callers, c, d))
  }

  predicate CallerFits(s: State, p: Phase) {
    p.Idle? || (HasRefund(s.refunds, p.id) && SoundCaller(Get(s.refunds, p.id), SentOf(s.sent, p.id), p))
  }

  // ---- One refund and its owner

  lemma ProgressIs(lines: seq<Line>, j: nat)
    requires j <= |lines| && (forall k :: 0 <= k < j ==> lines[k].state == Succeeded)
    requires j < |lines| ==> lines[j].state != Succeeded
    ensures Progress(lines) == j
  {
  }

  lemma PlansOfUpdate(lines: seq<Line>, i: nat, state: LineState)
    ensures Plans(WithState(lines, i, state)) == Plans(lines)
  {
  }

  /** The same lines to be paid out of the same transactions, whatever has become of them. */
  predicate SameTargets(a: seq<Line>, b: seq<Line>) {
    |a| == |b| && forall k :: 0 <= k < |a| ==> a[k].plan == b[k].plan && a[k].transactionId == b[k].transactionId
  }

  /** A running call and its refund are sound again after an effect, and the refund has not gone back. */
  predicate ActSound(r: Refund, log: seq<Sent>, p: Phase, e: Effect) {
    && SoundRefund(Written(r, e), log + Logged(p, e))
    && SoundCaller(Written(r, e), log + Logged(p, e), e.phase)
    && (e.phase.Idle? || e.phase.id == r.id)
    && (e.write.Some? ==> Written(r, e).state != Unclaimed)
    && Plans(Written(r, e).lines) == Plans(r.lines) && SameTargets(r.lines, Written(r, e).lines)
    && (!TakesBack(r, p) ==> Progress(r.lines) <= Progress(Written(r, e).lines))
    && Acceptances(log) <= Acceptances(log + Logged(p, e))
  }

  /** How many lines the provider has accepted: all that were sent, but for a last one it did not. */
  function Acceptances(log: seq<Sent>): nat {
    if log == [] then 0 else if log[|log| - 1].outcome == Accept then |log| else |log| - 1
  }

  predicate Acting(r: Refund, log: seq<Sent>, p: Phase) {
    SoundRefund(r, log) && !p.Idle? && p.id == r.id && SoundCaller(r, log, p)
  }

  lemma ClaimKeeps(r: Refund, log: seq<Sent>, p: Phase, step: Step)
    requires Acting(r, log, p) && step.Claim? && Act(p, r, step).Some?
    ensures ActSound(r, log, p, Act(p, r, step).value)
  {
    assert log + [] == log;
    assert |Plans(r.lines)| == |r.lines| > 0;
    if r.state == Unclaimed { ProgressIs(r.lines, 0); }
  }

  lemma MarkKeeps(r: Refund, log: seq<Sent>, p: Phase, step: Step)
    requires Acting(r, log, p) && step.Mark? && Act(p, r, step).Some?
    ensures ActSound(r, log, p, Act(p, r, step).value)
  {
    assert log + [] == log;
    ProgressIs(WithState(p.lines, p.next, Submitting), p.next);
    PlansOfUpdate(p.lines, p.next, Submitting);
  }

  lemma SubmitKeeps(r: Refund, log: seq<Sent>, p: Phase, step: Step)
    requires Acting(r, log, p) && step.Submit? && Act(p, r, step).Some?
    ensures ActSound(r, log, p, Act(p, r, step).value)
  {
    var more := log + [Sent(p.id, p.next, step.outcome)];
    assert forall k :: 0 <= k < |log| ==> more[k] == log[k];
  }

  lemma PersistKeeps(r: Refund, log: seq<Sent>, p: Phase, step: Step)
    requires Acting(r, log, p) && step.Persist? && Act(p, r, step).Some?
    ensures ActSound(r, log, p, Act(p, r, step).value)
  {
    assert log + [] == log;
    if step.saving == Unsaved {
      UnsavedKeeps(r, log, p, step);
    } else {
      StoredIsSound(r, log, p);
      if step.saving == Saved { SavedKeeps(r, log, p, step); } else { UnheardKeeps(r, log, p, step); }
    }
  }

  /** A stored success leaves a sound refund with one more line succeeded. */
  predicate Stores(r: Refund, log: seq<Sent>, p: Phase)
    requires p.Accepted?
  {
    && SoundRefund(r.(state := RefundState.Claimed, lines := p.lines), log)
    && Progress(p.lines) == p.next + 1 == Progress(r.lines) + 1 && Plans(p.lines) == Plans(r.lines)
    && (p.next + 1 < |p.lines| ==> p.lines[p.next + 1].state == Held)
  }

  lemma StoredIsSound(r: Refund, log: seq<Sent>, p: Phase)
    requires Acting(r, log, p) && p.Accepted?
    ensures Stores(r, log, p)
  {
    ProgressIs(p.lines, p.next + 1);
    PlansOfUpdate(r.lines, p.next, Succeeded);
  }

  lemma SavedKeeps(r: Refund, log: seq<Sent>, p: Phase, step: Step)
    requires Acting(r, log, p) && step.Persist? && step.saving == Saved && Act(p, r, step).Some? && log + [] == log
    requires Stores(r, log, p)
    ensures ActSound(r, log, p, Act(p, r, step).value)
  {
  }

  lemma UnheardKeeps(r: Refund, log: seq<Sent>, p: Phase, step: Step)
    requires Acting(r, log, p) && step.Persist? && step.saving == Unheard && Act(p, r, step).Some? && log + [] == log
    requires Stores(r, log, p)
    ensures ActSound(r, log, p, Act(p, r, step).value)
  {
  }

  lemma UnsavedKeeps(r: Refund, log: seq<Sent>, p: Phase, step: Step)
    requires Acting(r, log, p) && step.Persist? && step.saving == Unsaved && Act(p, r, step).Some? && log + [] == log
    ensures ActSound(r, log, p, Act(p, r, step).value)
  {
    assert WithState(p.lines, p.next, Doubtful) == WithState(r.lines, p.next, Doubtful);
  }

  lemma StopKeeps(r: Refund, log: seq<Sent>, p: Phase, step: Step)
    requires Acting(r, log, p) && step.Stop? && Act(p, r, step).Some?
    ensures ActSound(r, log, p, Act(p, r, step).value)
  {
    assert log + [] == log;
    StoppedIsSound(r, log, p);
  }

  lemma StoppedIsSound(r: Refund, log: seq<Sent>, p: Phase)
    requires Acting(r, log, p) && p.Stopping?
    ensures SoundRefund(r.(state := Stopped, lines := p.lines), log) && Plans(p.lines) == Plans(r.lines)
    ensures SameTargets(r.lines, p.lines) && Progress(p.lines) == p.next
  {
    var ended := p.lines[p.next].state;
    assert p.lines == WithState(r.lines, p.next, ended);
    ProgressIs(p.lines, p.next);
    PlansOfUpdate(r.lines, p.next, ended);
    assert |Plans(r.lines)| == |r.lines|;
  }

  lemma ActKeeps(r: Refund, log: seq<Sent>, p: Phase, step: Step)
    requires Acting(r, log, p) && Act(p, r, step).Some?
    ensures ActSound(r, log, p, Act(p, r, step).value)
  {
    match step
    case Claim(_) => ClaimKeeps(r, log, p, step);
    case Mark(_) => MarkKeeps(r, log, p, step);
    case Submit(_, _) => SubmitKeeps(r, log, p, step);
    case Persist(_, _) => PersistKeeps(r, log, p, step);
    case Stop(_) => StopKeeps(r, log, p, step);
    case Finish(_) => assert log + [] == log;
  }

  // ---- The table

  lemma {:induction false} IndexIsUnique(refunds: seq<Refund>, i: nat)
    requires DistinctRefunds(refunds) && i < |refunds|
    ensures HasRefund(refunds, refunds[i].id) && Index(refunds, refunds[i].id) == i
  {
    assert HasRefund(refunds, refunds[i].id);
  }

  lemma GetAfterPut(refunds: seq<Refund>, id: string, state: RefundState, lines: seq<Line>, other: string)
    requires DistinctRefunds(refunds) && HasRefund(refunds, id)
    ensures var after := Put(refunds, id, state, lines);
      && DistinctRefunds(after)
      && (HasRefund(after, other) <==> HasRefund(refunds, other))
      && (HasRefund(refunds, other) ==>
            Get(after, other)
            == if other == id then Get(refunds, id).(state := state, lines := lines) else Get(refunds, other))
  {
    var after, i := Put(refunds, id, state, lines), Index(refunds, id);
    assert |after| == |refunds| && forall k :: 0 <= k < |after| ==> after[k].id == refunds[k].id;
    if HasRefund(refunds, other) {
      var j := Index(refunds, other);
      assert after[j].id == other;
      IndexIsUnique(after, j);
    }
    if HasRefund(after, other) {
      var j := Index(after, other);
      assert refunds[j].id == other;
    }
  }

  lemma GetAfterAppend(refunds: seq<Refund>, r: Refund, other: string)
    requires DistinctRefunds(refunds) && !HasRefund(refunds, r.id)
    ensures var after := refunds + [r];
      && DistinctRefunds(after)
      && (HasRefund(after, other) <==> HasRefund(refunds, other) || other == r.id)
      && (HasRefund(refunds, other) ==> Get(after, other) == Get(refunds, other))
      && HasRefund(after, r.id) && Get(after, r.id) == r
  {
    var after := refunds + [r];
    forall i, j | 0 <= i < j < |after| ensures after[i].id != after[j].id {
      if j == |refunds| { assert refunds[i].id != r.id; }
    }
    assert after[|refunds|] == r;
    IndexIsUnique(after, |refunds|);
    if HasRefund(refunds, other) {
      var j := Index(refunds, other);
      assert after[j].id == other;
      IndexIsUnique(after, j);
    }
    if HasRefund(after, other) && other != r.id {
      var j := Index(after, other);
      assert refunds[j].id == other;
    }
  }

  // ---- Every step keeps the invariant

  /** A step of a running call, seen as its effect. */
  predicate Acts(s: State, step: Step) {
    var p := PhaseOf(s, step.caller);
    && !step.Reserve? && !step.Crash? && !p.Idle? && HasRefund(s.refunds, p.id)
    && Act(p, Get(s.refunds, p.id), step).Some?
  }

  predicate Creates(sources: Sources, s: State, step: Step) {
    |Next(sources, s, step).refunds| > |s.refunds|
  }

  /** The submissions of a refund after a step of a running call. */
  lemma ActLog(sent: seq<Sent>, p: Phase, e: Effect, id: string)
    ensures SentOf(sent + Logged(p, e), id) == SentOf(sent, id) + (if !p.Idle? && id == p.id then Logged(p, e) else [])
  {
    if Logged(p, e) == [] {
      assert sent + Logged(p, e) == sent;
    } else {
      SentOfSnoc(sent, Logged(p, e)[0], id);
      assert Logged(p, e) == [Logged(p, e)[0]];
    }
  }

  /** After a step of a running call: its own refund as written, every other refund untouched. */
  lemma ActEffect(sources: Sources, s: State, step: Step, id: string)
    requires Inv(s) && Acts(s, step)
    ensures var t := Next(sources, s, step); var p := PhaseOf(s, step.caller);
      var r := Get(s.refunds, p.id); var e := Act(p, r, step).value;
      && DistinctRefunds(t.refunds)
      && (HasRefund(t.refunds, id) <==> HasRefund(s.refunds, id))
      && (HasRefund(s.refunds, id) ==> Get(t.refunds, id) == if id == p.id then Written(r, e) else Get(s.refunds, id))
      && SentOf(t.sent, id) == SentOf(s.sent, id) + (if id == p.id then Logged(p, e) else [])
  {
    var p := PhaseOf(s, step.caller);
    var e := Act(p, Get(s.refunds, p.id), step).value;
    if e.write.Some? { GetAfterPut(s.refunds, p.id, e.write.value.0, e.write.value.1, id); }
    ActLog(s.sent, p, e, id);
  }

  lemma NewRefundIsSound(source: Form.Checkout, q: Request)
    requires SoundLines(q.lines)
    ensures SoundRefund(Created(source, q), [])
  {
    var lines := HeldLines(source, q.lines);
    assert Plans(lines) == q.lines;
    ProgressIs(lines, 0);
  }

  lemma {:induction false} UnknownHasNotSent(sent: seq<Sent>, refunds: seq<Refund>, id: string)
    requires (forall m :: m in sent ==> HasRefund(refunds, m.refundId)) && !HasRefund(refunds, id)
    ensures SentOf(sent, id) == []
  {
    if sent != [] {
      assert sent[|sent| - 1] in sent;
      UnknownHasNotSent(sent[..|sent| - 1], refunds, id);
    }
  }

  /** After the reservation of a new refund: it, and every other refund untouched. */
  lemma CreateEffect(sources: Sources, s: State, step: Step, id: string)
    requires Inv(s) && Creates(sources, s, step)
    ensures step.Reserve? && SoundLines(step.request.lines) && step.request.sourceId in sources
    ensures var t := Next(sources, s, step); var q := step.request;
      var r := Created(sources[q.sourceId], q);
      && t.refunds == s.refunds + [r] && t.sent == s.sent && !HasRefund(s.refunds, r.id)
      && DistinctRefunds(t.refunds)
      && (HasRefund(t.refunds, id) <==> HasRefund(s.refunds, id) || id == r.id)
      && (HasRefund(s.refunds, id) ==> Get(t.refunds, id) == Get(s.refunds, id))
      && (id == r.id ==> Get(t.refunds, id) == r && SentOf(t.sent, id) == [])
      && PhaseOf(t, step.caller) == Claiming(r.id, r.lines)
  {
    if Acts(s, step) { ActEffect(sources, s, step, id); }
    assert step.Reserve?;
    var q := step.request;
    var r := Created(sources[q.sourceId], q);
    GetAfterAppend(s.refunds, r, id);
    UnknownHasNotSent(s.sent, s.refunds, r.id);
  }

  /** Every other step moves only phases. */
  lemma QuietEffect(sources: Sources, s: State, step: Step)
    requires Inv(s) && !Acts(s, step) && !Creates(sources, s, step)
    ensures var t := Next(sources, s, step);
      && t.refunds == s.refunds && t.sent == s.sent
      && CallerFits(t, PhaseOf(t, step.caller))
      && (forall id :: Owns(PhaseOf(t, step.caller), id) ==> Owns(PhaseOf(s, step.caller), id))
  {
    var p := PhaseOf(s, step.caller);
    assert CallerFits(s, p);
  }

  lemma StepKeepsRefund(sources: Sources, s: State, step: Step, id: string)
    requires Inv(s) && HasRefund(Next(sources, s, step).refunds, id)
    ensures var t := Next(sources, s, step); SoundRefund(Get(t.refunds, id), SentOf(t.sent, id))
  {
    var p := PhaseOf(s, step.caller);
    if Acts(s, step) {
      ActEffect(sources, s, step, id);
      assert CallerFits(s, p);
      assert SoundRefund(Get(s.refunds, id), SentOf(s.sent, id));
      if id == p.id {
        ActKeeps(Get(s.refunds, id), SentOf(s.sent, id), p, step);
      } else {
        assert SentOf(s.sent, id) + [] == SentOf(s.sent, id);
      }
    } else if Creates(sources, s, step) {
      CreateEffect(sources, s, step, id);
      if id == step.request.refundId { NewRefundIsSound(sources[step.request.sourceId], step.request); }
    } else {
      QuietEffect(sources, s, step);
    }
  }

  lemma StepKeepsSent(sources: Sources, s: State, step: Step, m: Sent)
    requires Inv(s) && m in Next(sources, s, step).sent
    ensures HasRefund(Next(sources, s, step).refunds, m.refundId)
  {
    if Acts(s, step) {
      ActEffect(sources, s, step, m.refundId);
    } else if Creates(sources, s, step) {
      CreateEffect(sources, s, step, m.refundId);
    } else {
      QuietEffect(sources, s, step);
    }
  }

  /** While one call acts, another call on the same refund is at most waiting to claim, or nothing is written. */
  lemma BystanderKeeps(r: Refund, log: seq<Sent>, p: Phase, step: Step, other: Phase)
    requires Acting(r, log, p) && Act(p, r, step).Some?
    requires !other.Idle? && other.id == r.id && SoundCaller(r, log, other) && (Owns(p, r.id) ==> !Owns(other, r.id))
    ensures var e := Act(p, r, step).value; SoundCaller(Written(r, e), log + Logged(p, e), other)
  {
    ActKeeps(r, log, p, step);
    assert log + [] == log;
  }

  lemma ActKeepsCaller(sources: Sources, s: State, step: Step)
    requires Inv(s) && Acts(s, step)
    ensures CallerFits(Next(sources, s, step), PhaseOf(Next(sources, s, step), step.caller))
  {
    var p := PhaseOf(s, step.caller);
    assert CallerFits(s, p);
    ActKeeps(Get(s.refunds, p.id), SentOf(s.sent, p.id), p, step);
    ActEffect(sources, s, step, p.id);
  }

  lemma ActKeepsBystander(sources: Sources, s: State, step: Step, c: string)
    requires Inv(s) && Acts(s, step) && c in s.callers && c != step.caller
    ensures CallerFits(Next(sources, s, step), s.callers[c])
  {
    var p, q := PhaseOf(s, step.caller), s.callers[c];
    assert CallerFits(s, p) && CallerFits(s, q) && SingleOwner(s.callers, step.caller, c);
    if !q.Idle? {
      ActEffect(sources, s, step, q.id);
      if q.id == p.id {
        BystanderKeeps(Get(s.refunds, p.id), SentOf(s.sent, p.id), p, step, q);
      } else {
        assert SentOf(s.sent, q.id) + [] == SentOf(s.sent, q.id);
      }
    }
  }

  lemma StepKeepsCaller(sources: Sources, s: State, step: Step, c: string)
    requires Inv(s) && c in Next(sources, s, step).callers
    ensures CallerFits(Next(sources, s, step), Next(sources, s, step).callers[c])
  {
    var q := Next(sources, s, step).callers[c];
    if c != step.caller { assert CallerFits(s, s.callers[c]); }
    if Acts(s, step) {
      if c == step.caller { ActKeepsCaller(sources, s, step); } else { ActKeepsBystander(sources, s, step, c); }
    } else if Creates(sources, s, step) {
      CreateEffect(sources, s, step, if q.Idle? then "" else q.id);
    } else {
      QuietEffect(sources, s, step);
    }
  }

  /** Only the claim makes a call the owner of a refund. */
  lemma OwnsByClaim(r: Refund, p: Phase, step: Step, id: string)
    requires Act(p, r, step).Some? && Owns(Act(p, r, step).value.phase, id) && !Owns(p, id)
    ensures r.state == Unclaimed && p.Claiming? && p.id == id
  {
  }

  lemma OwnerHasClaimed(s: State, c: string, id: string)
    requires Inv(s) && Owns(PhaseOf(s, c), id)
    ensures HasRefund(s.refunds, id) && Get(s.refunds, id).state == Claimed
  {
    assert c in s.callers && CallerFits(s, s.callers[c]);
  }

  lemma ActsPhase(sources: Sources, s: State, step: Step)
    requires Acts(s, step)
    ensures PhaseOf(Next(sources, s, step), step.caller)
         == Act(PhaseOf(s, step.caller), Get(s.refunds, PhaseOf(s, step.caller).id), step).value.phase
  {
  }

  /** A call that does not own a claimed refund does not come to own it. */
  lemma StepKeepsOwner(sources: Sources, s: State, step: Step, id: string)
    requires Inv(s) && !Owns(PhaseOf(s, step.caller), id)
    requires HasRefund(s.refunds, id) && Get(s.refunds, id).state == Claimed
    ensures !Owns(PhaseOf(Next(sources, s, step), step.caller), id)
  {
    var p := PhaseOf(s, step.caller);
    if Acts(s, step) {
      var r := Get(s.refunds, p.id);
      ActsPhase(sources, s, step);
      if Owns(Act(p, r, step).value.phase, id) { OwnsByClaim(r, p, step, id); }
    } else if Creates(sources, s, step) {
      CreateEffect(sources, s, step, id);
    } else {
      QuietEffect(sources, s, step);
    }
  }

  ghost predicate SingleOwner(callers: map<string, Phase>, c: string, d: string) {
    c in callers && d in callers && c != d ==> forall id :: !(Owns(callers[c], id) && Owns(callers[d], id))
  }

  lemma StepKeepsSingleOwner(sources: Sources, s: State, step: Step, c: string, d: string)
    requires Inv(s)
    ensures SingleOwner(Next(sources, s, step).callers, c, d)
  {
    var t := Next(sources, s, step);
    assert SingleOwner(s.callers, c, d);
    forall id | c in t.callers && d in t.callers && c != d && Owns(t.callers[c], id) && Owns(t.callers[d], id)
      ensures false {
      if c == step.caller {
        OwnerHasClaimed(s, d, id);
        StepKeepsOwner(sources, s, step, id);
      } else if d == step.caller {
        OwnerHasClaimed(s, c, id);
        StepKeepsOwner(sources, s, step, id);
      }
    }
  }

  lemma StepKeepsDistinct(sources: Sources, s: State, step: Step)
    requires Inv(s)
    ensures DistinctRefunds(Next(sources, s, step).refunds)
  {
    if Acts(s, step) {
      ActEffect(sources, s, step, "");
    } else if Creates(sources, s, step) {
      CreateEffect(sources, s, step, "");
    }
  }

  lemma StepKeepsInv(sources: Sources, s: State, step: Step)
    requires Inv(s)
    ensures Inv(Next(sources, s, step))
  {
    var t := Next(sources, s, step);
    forall id | HasRefund(t.refunds, id) ensures SoundRefund(Get(t.refunds, id), SentOf(t.sent, id)) {
      StepKeepsRefund(sources, s, step, id);
    }
    StepKeepsDistinct(sources, s, step);
    forall m | m in t.sent ensures HasRefund(t.refunds, m.refundId) { StepKeepsSent(sources, s, step, m); }
    forall c | c in t.callers ensures CallerFits(t, t.callers[c]) { StepKeepsCaller(sources, s, step, c); }
    forall c, d ensures SingleOwner(t.callers, c, d) { StepKeepsSingleOwner(sources, s, step, c, d); }
  }

  lemma {:induction false} RunKeepsInv(sources: Sources, s: State, steps: seq<Step>)
    requires Inv(s)
    ensures Inv(Run(sources, s, steps))
  {
    if steps != [] {
      RunKeepsInv(sources, s, steps[..|steps| - 1]);
      StepKeepsInv(sources, Run(sources, s, steps[..|steps| - 1]), steps[|steps| - 1]);
    }
  }
}
