/**
 Why a checkout ended as it did: over any interleaving of callbacks, checks, cancellations and crashes, its status goes
 back to an answer of the provider, and its marks to what was done to it.
 */
module CheckoutHistory {
  import opened Wrappers
  import opened Sums
  import opened RefundSplit
  import opened IyzicoCheckout

  /** A step that brought an answer. */
  predicate Answered(step: Step) { step.Retrieve? && step.result.Some? }

  /** Some answer among the steps approved this checkout, and these are its transactions and its payment. */
  predicate WasApproved(steps: seq<Step>, op: Checkout, paymentId: string, ts: seq<ItemTransaction>) {
    exists n :: 0 <= n < |steps| && ApprovedAt(steps[n], op, paymentId, ts)
  }

  predicate ApprovedAt(step: Step, op: Checkout, paymentId: string, ts: seq<ItemTransaction>) {
    && Answered(step) && Approves(op, step.result.value)
    && step.result.value.paymentId == paymentId && Transactions(step.result.value.items.value) == ts
  }

  /** Some answer among the steps declined this checkout or refused it as fraud. */
  predicate WasDeclined(steps: seq<Step>, op: Checkout) {
    exists n :: 0 <= n < |steps| && DeclinedAt(steps[n], op)
  }

  predicate DeclinedAt(step: Step, op: Checkout) { Answered(step) && Declines(op, step.result.value) }

  /** The provider told a callback that a cancelled checkout was paid. */
  predicate WasPaidLate(steps: seq<Step>) { exists n :: 0 <= n < |steps| && PaidLateAt(steps[n]) }

  predicate PaidLateAt(step: Step) { step.Flag? && step.paid }

  lemma SameDealSameAnswer(a: Checkout, b: Checkout, r: Retrieved)
    requires SameCapture(a, b)
    ensures Approves(a, r) <==> Approves(b, r)
    ensures Declines(a, r) <==> Declines(b, r)
  {
  }

  lemma MoreSteps(steps: seq<Step>, op: Checkout, paymentId: string, ts: seq<ItemTransaction>)
    requires steps != []
    ensures var before := steps[..|steps| - 1];
      && (WasApproved(before, op, paymentId, ts) ==> WasApproved(steps, op, paymentId, ts))
      && (WasDeclined(before, op) ==> WasDeclined(steps, op))
      && (WasPaidLate(before) ==> WasPaidLate(steps))
  {
    var before := steps[..|steps| - 1];
    assert forall n :: 0 <= n < |before| ==> before[n] == steps[n];
  }

  // ---- What the row and the calls under way go back to

  predicate VerdictFounded(steps: seq<Step>, row: Checkout, v: Verdict) {
    && (v.status == COMPLETED ==>
          v.transactions.Some? && WasApproved(steps, row, v.providerPaymentId, v.transactions.value))
    && (v.status == FAILED ==> WasDeclined(steps, row))
  }

  predicate RowFounded(steps: seq<Step>, row: Checkout) {
    && (row.status == COMPLETED ==>
          && row.callbackReceived && row.token.Some? && row.providerPaymentId.Some? && row.transactions.Some?
          && WasApproved(steps, row, row.providerPaymentId.value, row.transactions.value))
    && (row.status == FAILED && row.cancellation == NotCancelled ==>
          row.callbackReceived && row.token.Some? && WasDeclined(steps, row))
    && (row.cancellation == PaidAfterCancel ==> WasPaidLate(steps))
  }

  predicate PhaseFounded(steps: seq<Step>, row: Checkout, phase: Phase) {
    && (phase.Checking? ==>
          SameCapture(phase.read, row) && row.callbackReceived && row.token.Some?)
    && (phase.Judged? ==> VerdictFounded(steps, row, phase.verdict) && row.callbackReceived && row.token.Some?)
  }

  ghost predicate Founded(steps: seq<Step>, s: State) {
    && (s.row.Some? ==> RowFounded(steps, s.row.value))
    && forall c :: c in s.callers ==>
         if s.row.Some? then PhaseFounded(steps, s.row.value, s.callers[c]) else s.callers[c].Idle?
  }

  lemma RowStaysFounded(steps: seq<Step>, a: Checkout, b: Checkout)
    requires steps != [] && RowFounded(steps[..|steps| - 1], a) && SameCapture(a, b)
    requires b.status == a.status && b.providerPaymentId == a.providerPaymentId && b.transactions == a.transactions
    requires (a.callbackReceived ==> b.callbackReceived) && (a.token.Some? ==> b.token.Some?)
    requires a.cancellation == b.cancellation || (b.cancellation == PaidAfterCancel && WasPaidLate(steps))
    requires b.cancellation == NotCancelled ==> a.cancellation == NotCancelled
    ensures RowFounded(steps, b)
  {
    var before := steps[..|steps| - 1];
    if b.status == COMPLETED {
      MoreSteps(steps, a, a.providerPaymentId.value, a.transactions.value);
      ApprovedOfSame(steps, a, b, a.providerPaymentId.value, a.transactions.value);
    } else {
      MoreSteps(steps, a, "", []);
      DeclinedOfSame(steps, a, b);
    }
  }

  lemma ApprovedOfSame(steps: seq<Step>, a: Checkout, b: Checkout, paymentId: string, ts: seq<ItemTransaction>)
    requires SameCapture(a, b) && WasApproved(steps, a, paymentId, ts)
    ensures WasApproved(steps, b, paymentId, ts)
  {
    var n :| 0 <= n < |steps| && ApprovedAt(steps[n], a, paymentId, ts);
    SameDealSameAnswer(a, b, steps[n].result.value);
    assert ApprovedAt(steps[n], b, paymentId, ts);
  }

  lemma DeclinedOfSame(steps: seq<Step>, a: Checkout, b: Checkout)
    requires SameCapture(a, b)
    ensures WasDeclined(steps, a) ==> WasDeclined(steps, b)
  {
    if WasDeclined(steps, a) {
      var n :| 0 <= n < |steps| && DeclinedAt(steps[n], a);
      SameDealSameAnswer(a, b, steps[n].result.value);
      assert DeclinedAt(steps[n], b);
    }
  }

  lemma VerdictStaysFounded(steps: seq<Step>, a: Checkout, b: Checkout, v: Verdict)
    requires steps != [] && VerdictFounded(steps[..|steps| - 1], a, v) && SameCapture(a, b)
    ensures VerdictFounded(steps, b, v)
  {
    if v.status == COMPLETED {
      MoreSteps(steps, a, v.providerPaymentId, v.transactions.value);
      ApprovedOfSame(steps, a, b, v.providerPaymentId, v.transactions.value);
    }
    if v.status == FAILED {
      MoreSteps(steps, a, "", []);
      DeclinedOfSame(steps, a, b);
    }
  }

  /** An answer read for a checkout founds the verdict on it. */
  lemma AnswerFounds(steps: seq<Step>, read: Checkout, row: Checkout)
    requires steps != [] && Answered(steps[|steps| - 1]) && SameCapture(read, row)
    requires SoundBasket(read.basket, read.amount)
    requires Judge(read, steps[|steps| - 1].result.value).Success?
    ensures VerdictFounded(steps, row, Judge(read, steps[|steps| - 1].result.value).value)
  {
    var r := steps[|steps| - 1].result.value;
    JudgeMeans(read, r);
    SameDealSameAnswer(read, row, r);
    if Approves(row, r) { assert ApprovedAt(steps[|steps| - 1], row, r.paymentId, Transactions(r.items.value)); }
    if Declines(row, r) { assert DeclinedAt(steps[|steps| - 1], row); }
  }

  /** Applying a founded verdict leaves a founded row. */
  lemma ApplyFounds(steps: seq<Step>, row: Checkout, v: Verdict)
    requires steps != [] && RowFounded(steps[..|steps| - 1], row) && VerdictFounded(steps[..|steps| - 1], row, v)
    requires SoundRow(row) && row.callbackReceived && row.token.Some?
    ensures RowFounded(steps, ApplyVerdict(row, v))
  {
    if row.status == WAITING {
      VerdictStaysFounded(steps, row, row, v);
      VerdictOfSame(steps, row, ApplyVerdict(row, v), v);
    } else {
      RowStaysFounded(steps, row, row);
    }
  }

  lemma VerdictOfSame(steps: seq<Step>, a: Checkout, b: Checkout, v: Verdict)
    requires VerdictFounded(steps, a, v) && SameCapture(a, b)
    ensures VerdictFounded(steps, b, v)
  {
    if v.status == COMPLETED { ApprovedOfSame(steps, a, b, v.providerPaymentId, v.transactions.value); }
    DeclinedOfSame(steps, a, b);
  }

  lemma StepFoundsRow(steps: seq<Step>, s: State)
    requires steps != [] && Inv(s) && Founded(steps[..|steps| - 1], s) && s.row.Some?
    ensures var t := Next(s, steps[|steps| - 1]); t.row.Some? && RowFounded(steps, t.row.value)
  {
    var step := steps[|steps| - 1];
    var row, phase, t := s.row.value, PhaseOf(s, step.caller), Next(s, step);
    if step.Apply? && phase.Judged? {
      ApplyFounds(steps, row, phase.verdict);
    } else if step.ApplyCancel? && phase.Confirmed? && row.status == WAITING {
      assert t.row.value.cancellation == Cancelled;
    } else {
      if step.Flag? && phase.Flagging? && step.paid { assert PaidLateAt(steps[|steps| - 1]); }
      RowStaysFounded(steps, row, t.row.value);
    }
  }

  lemma OtherPhaseStays(s: State, step: Step, c: string)
    requires Inv(s) && s.row.Some? && c in s.callers && c in Next(s, step).callers
    ensures var t := Next(s, step); var d := t.callers[c];
      d == s.callers[c] || c == step.caller
  {
  }

  lemma PhaseStaysFounded(steps: seq<Step>, a: Checkout, b: Checkout, phase: Phase)
    requires steps != [] && PhaseFounded(steps[..|steps| - 1], a, phase) && SameCapture(a, b)
    requires (a.callbackReceived ==> b.callbackReceived) && (a.token.Some? ==> b.token.Some?)
    ensures PhaseFounded(steps, b, phase)
  {
    if phase.Judged? { VerdictStaysFounded(steps, a, b, phase.verdict); }
  }

  /** A step never takes back that the callback arrived or that the form is known. */
  lemma StepKeepsCallback(s: State, step: Step)
    requires Inv(s) && s.row.Some?
    ensures var t := Next(s, step);
      && t.row.Some? && SameCapture(s.row.value, t.row.value)
      && (s.row.value.callbackReceived ==> t.row.value.callbackReceived)
      && (s.row.value.token.Some? ==> t.row.value.token.Some?)
  {
  }

  lemma OwnPhase(s: State, step: Step)
    requires Inv(s) && s.row.Some?
    ensures var t := Next(s, step); var before, after := PhaseOf(s, step.caller), PhaseOf(t, step.caller);
      || after == before
      || (after.Checking? && after.read == s.row.value && after.read.callbackReceived && after.read.token.Some?)
      || (after.Judged? && before.Checking? && Answered(step) && Judge(before.read, step.result.value).Success?
          && after.verdict == Judge(before.read, step.result.value).value)
      || (!after.Checking? && !after.Judged?)
  {
  }

  lemma StepFoundsPhase(steps: seq<Step>, s: State, c: string)
    requires steps != [] && Inv(s) && Founded(steps[..|steps| - 1], s) && s.row.Some?
    requires c in Next(s, steps[|steps| - 1]).callers
    ensures var t := Next(s, steps[|steps| - 1]); t.row.Some? && PhaseFounded(steps, t.row.value, t.callers[c])
  {
    var step := steps[|steps| - 1];
    var t, before := Next(s, step), PhaseOf(s, c);
    StepKeepsCallback(s, step);
    assert PhaseFounded(steps[..|steps| - 1], s.row.value, before) && SoundCaller(s.row.value, before);
    if t.callers[c] == before {
      PhaseStaysFounded(steps, s.row.value, t.row.value, before);
    } else {
      if c in s.callers { OtherPhaseStays(s, step, c); }
      OwnPhase(s, step);
      if t.callers[c].Judged? { AnswerFounds(steps, before.read, t.row.value); }
    }
  }

  lemma {:induction false} RunFounds(steps: seq<Step>)
    ensures Founded(steps, Run(INITIAL, steps))
  {
    if steps != [] {
      var n := |steps| - 1;
      var s, t := Run(INITIAL, steps[..n]), Run(INITIAL, steps);
      RunFounds(steps[..n]);
      RunKeepsInv(steps[..n]);
      if s.row.Some? {
        StepFoundsRow(steps, s);
        forall c | c in t.callers ensures PhaseFounded(steps, t.row.value, t.callers[c]) {
          StepFoundsPhase(steps, s, c);
        }
      }
    }
  }

  /**
   Over all histories: a checkout is completed only by an answer that says it was paid, in one instalment and cleared of
   fraud, for this basket, currency and amount, with every line approved; its transactions and payment are that
   answer's, and its callback had arrived. It fails without a cancellation mark only by an answer that declined it or
   called it fraud; and it is marked as paid after cancellation only if the provider said so.
   */
  lemma StatusIsFounded(steps: seq<Step>)
    requires Run(INITIAL, steps).row.Some?
    ensures var row := Run(INITIAL, steps).row.value;
      && (row.status == COMPLETED ==>
            && row.callbackReceived && row.token.Some? && row.providerPaymentId.Some? && row.transactions.Some?
            && exists n :: 0 <= n < |steps| && Answered(steps[n]) && var r := steps[n].result.value;
                 && Approves(row, r) && row.providerPaymentId.value == r.paymentId
                 && row.transactions.value == Transactions(r.items.value))
      && (row.status == FAILED && row.cancellation == NotCancelled ==>
            exists n :: 0 <= n < |steps| && Answered(steps[n]) && Declines(row, steps[n].result.value))
      && (row.cancellation == PaidAfterCancel ==> exists n :: 0 <= n < |steps| && steps[n].Flag? && steps[n].paid)
  {
    RunFounds(steps);
    var row := Run(INITIAL, steps).row.value;
    if row.status == COMPLETED {
      var n :| 0 <= n < |steps| && ApprovedAt(steps[n], row, row.providerPaymentId.value, row.transactions.value);
      assert Answered(steps[n]);
    }
    if row.status == FAILED && row.cancellation == NotCancelled {
      var n :| 0 <= n < |steps| && DeclinedAt(steps[n], row);
      assert Answered(steps[n]);
    }
    if row.cancellation == PaidAfterCancel {
      var n :| 0 <= n < |steps| && PaidLateAt(steps[n]);
      assert steps[n].Flag?;
    }
  }

  /**
   And the other way: whenever a call by itself checks a waiting checkout whose callback has arrived, an approval
   completes it, a refusal fails it, a review leaves it waiting, and anything else leaves it as it was.
   */
  lemma AnswerDecides(steps: seq<Step>, c: string, r: Retrieved)
    requires var s := Run(INITIAL, steps); s.row.Some? && PhaseOf(s, c).Idle?
    requires var row := Run(INITIAL, steps).row.value; row.status == WAITING && row.callbackReceived && row.token.Some?
    ensures var row := Run(INITIAL, steps).row.value;
      var after := Run(INITIAL, steps + ([ReadCheck(c)] + [Retrieve(c, Some(r))] + [Apply(c)])).row;
      && after.Some?
      && (after.value.status == COMPLETED <==> Approves(row, r))
      && (after.value.status == FAILED <==> Declines(row, r))
      && (Approves(row, r) ==> after.value.transactions == Some(Transactions(r.items.value)))
      && (Approves(row, r) || Declines(row, r) || Reviews(row, r) || after.value == row)
  {
    var s := Run(INITIAL, steps);
    RunKeepsInv(steps);
    CheckIsRun(s, c, Some(r));
    RunConcat(INITIAL, steps, [ReadCheck(c)] + [Retrieve(c, Some(r))] + [Apply(c)]);
    CheckDecides(s.row.value, Some(r));
  }

  // ---- Where the form and the callback come from

  /** The provider answered the initialisation with this form. */
  predicate FormCame(steps: seq<Step>, token: string) {
    exists n :: 0 <= n < |steps| && FormAt(steps[n], token)
  }

  predicate FormAt(step: Step, token: string) { step.Initialized? && step.answer == Some(token) }

  /** A callback came with this form's token. */
  predicate CallbackCame(steps: seq<Step>, token: string) {
    exists n :: 0 <= n < |steps| && CallbackAt(steps[n], token)
  }

  predicate CallbackAt(step: Step, token: string) { step.ReadCallback? && step.token == token }

  lemma MoreCame(steps: seq<Step>, token: string)
    requires steps != []
    ensures var before := steps[..|steps| - 1];
      && (FormCame(before, token) ==> FormCame(steps, token))
      && (CallbackCame(before, token) ==> CallbackCame(steps, token))
  {
    var before := steps[..|steps| - 1];
    assert forall n :: 0 <= n < |before| ==> before[n] == steps[n];
  }

  /** The call that has the form to create, or waits for it. */
  predicate Creating(phase: Phase) { phase.Initializing? || phase.AwaitingForm? }

  predicate RowFormed(steps: seq<Step>, row: Checkout, inits: nat) {
    && (row.token.Some? <==> row.initialization == INITIALIZED)
    && (row.token.Some? ==> inits == 1 && FormCame(steps, row.token.value))
    && (row.callbackReceived ==> row.token.Some? && CallbackCame(steps, row.token.value))
  }

  predicate PhaseFormed(steps: seq<Step>, row: Checkout, inits: nat, phase: Phase) {
    && (Creating(phase) ==> row.initialization == INITIALIZING && row.token.None?)
    && (phase.AwaitingForm? ==> inits == 1)
    && (phase.Called? ==> row.token.Some? && CallbackCame(steps, row.token.value))
  }

  ghost predicate Formed(steps: seq<Step>, s: State) {
    && (s.row.Some? ==> RowFormed(steps, s.row.value, s.inits))
    && (forall c :: c in s.callers ==>
          if s.row.Some? then PhaseFormed(steps, s.row.value, s.inits, s.callers[c]) else s.callers[c].Idle?)
    && forall c, d :: c in s.callers && d in s.callers && Creating(s.callers[c]) && Creating(s.callers[d]) ==> c == d
  }

  lemma StepFormsRow(steps: seq<Step>, s: State)
    requires steps != [] && Inv(s) && Formed(steps[..|steps| - 1], s)
    ensures var t := Next(s, steps[|steps| - 1]); t.row.Some? ==> RowFormed(steps, t.row.value, t.inits)
  {
    var step := steps[|steps| - 1];
    var t, phase := Next(s, step), PhaseOf(s, step.caller);
    if s.row.Some? {
      var row, after := s.row.value, t.row.value;
      assert PhaseFormed(steps[..|steps| - 1], row, s.inits, phase);
      if row.token.Some? { MoreCame(steps, row.token.value); }
      if step.Initialized? && phase.AwaitingForm? && step.answer.Some? { assert FormAt(step, step.answer.value); }
    }
  }

  /** Only the call that waits for the form writes it, and only the one that is to create it counts. */
  lemma StepKeepsForm(s: State, step: Step)
    requires Inv(s) && s.row.Some?
    ensures var t := Next(s, step); var row, phase := s.row.value, PhaseOf(s, step.caller);
      && t.row.Some? && s.inits <= t.inits
      && (!phase.AwaitingForm? ==>
            t.row.value.token == row.token && t.row.value.initialization == row.initialization)
      && (!phase.Initializing? ==> t.inits == s.inits)
  {
  }

  /** A call that waits while another one steps. */
  lemma BystanderStaysFormed(steps: seq<Step>, s: State, c: string)
    requires steps != [] && Inv(s) && Formed(steps[..|steps| - 1], s) && s.row.Some?
    requires c in s.callers && c != steps[|steps| - 1].caller
    ensures var t := Next(s, steps[|steps| - 1]);
      t.row.Some? && PhaseFormed(steps, t.row.value, t.inits, s.callers[c])
  {
    var step := steps[|steps| - 1];
    var row, mine := s.row.value, PhaseOf(s, step.caller);
    StepKeepsForm(s, step);
    assert PhaseFormed(steps[..|steps| - 1], row, s.inits, s.callers[c]);
    assert PhaseFormed(steps[..|steps| - 1], row, s.inits, mine);
    assert Creating(s.callers[c]) ==> !Creating(mine);
    if row.token.Some? { MoreCame(steps, row.token.value); }
  }

  lemma OwnStaysFormed(steps: seq<Step>, s: State)
    requires steps != [] && Inv(s) && s.row.Some?
    requires PhaseFormed(steps[..|steps| - 1], s.row.value, s.inits, PhaseOf(s, steps[|steps| - 1].caller))
    ensures var step := steps[|steps| - 1]; var t := Next(s, step);
      t.row.Some? && PhaseFormed(steps, t.row.value, t.inits, PhaseOf(t, step.caller))
  {
    var step, row := steps[|steps| - 1], s.row.value;
    if row.token.Some? { MoreCame(steps, row.token.value); }
    if step.ReadCallback? && row.token == Some(step.token) { assert CallbackAt(step, step.token); }
  }

  lemma InsertForms(s: State, step: Step, c: string)
    requires Inv(s) && s.row.None? && c in Next(s, step).callers
    ensures var t := Next(s, step);
      if t.row.Some? then PhaseFormed([step], t.row.value, t.inits, t.callers[c]) else t.callers[c].Idle?
  {
  }

  lemma StepFormsPhase(steps: seq<Step>, s: State, c: string)
    requires steps != [] && Inv(s) && Formed(steps[..|steps| - 1], s) && c in Next(s, steps[|steps| - 1]).callers
    ensures var t := Next(s, steps[|steps| - 1]);
      if t.row.Some? then PhaseFormed(steps, t.row.value, t.inits, t.callers[c]) else t.callers[c].Idle?
  {
    var step := steps[|steps| - 1];
    if s.row.None? {
      InsertForms(s, step, c);
    } else if c == step.caller {
      assert PhaseFormed(steps[..|steps| - 1], s.row.value, s.inits, PhaseOf(s, c));
      OwnStaysFormed(steps, s);
    } else {
      BystanderStaysFormed(steps, s, c);
      OtherPhaseStays(s, step, c);
    }
  }

  lemma StepKeepsOneCreator(s: State, step: Step, c: string, d: string)
    requires Inv(s) && (s.row.None? ==> forall x :: x in s.callers ==> s.callers[x].Idle?)
    requires forall x, y ::
      x in s.callers && y in s.callers && Creating(s.callers[x]) && Creating(s.callers[y]) ==> x == y
    requires var t := Next(s, step);
      c in t.callers && d in t.callers && Creating(t.callers[c]) && Creating(t.callers[d])
    ensures c == d
  {
  }

  lemma {:induction false} RunForms(steps: seq<Step>)
    ensures Formed(steps, Run(INITIAL, steps))
  {
    if steps != [] {
      var n := |steps| - 1;
      var s, t := Run(INITIAL, steps[..n]), Run(INITIAL, steps);
      RunForms(steps[..n]);
      RunKeepsInv(steps[..n]);
      StepFormsRow(steps, s);
      forall c | c in t.callers
        ensures if t.row.Some? then PhaseFormed(steps, t.row.value, t.inits, t.callers[c]) else t.callers[c].Idle? {
        StepFormsPhase(steps, s, c);
      }
      forall c, d | c in t.callers && d in t.callers && Creating(t.callers[c]) && Creating(t.callers[d])
        ensures c == d {
        StepKeepsOneCreator(s, steps[n], c, d);
      }
    }
  }

  /**
   Over all histories: a checkout is initialised exactly if it has a form, the form is the one the provider answered the
   one initialisation with, and a callback counts as received only if one came with the token of that form.
   */
  lemma FormIsFounded(steps: seq<Step>)
    requires Run(INITIAL, steps).row.Some?
    ensures var s := Run(INITIAL, steps); var row := s.row.value;
      && (row.initialization == INITIALIZED <==> row.token.Some?)
      && (row.token.Some? ==>
            s.inits == 1 && exists n :: 0 <= n < |steps| && steps[n].Initialized? && steps[n].answer == row.token)
      && (row.callbackReceived ==>
            row.token.Some?
            && exists n :: 0 <= n < |steps| && steps[n].ReadCallback? && Some(steps[n].token) == row.token)
  {
    RunForms(steps);
    var row := Run(INITIAL, steps).row.value;
    if row.token.Some? {
      var n :| 0 <= n < |steps| && FormAt(steps[n], row.token.value);
      assert steps[n].Initialized?;
    }
    if row.callbackReceived {
      var n :| 0 <= n < |steps| && CallbackAt(steps[n], row.token.value);
      assert steps[n].ReadCallback?;
    }
  }
}
