/**
 What the iyzico refund adapter reports of a refund, and what its reports mean for the submissions that were made.
 */
module IyzicoStatus {
  import opened Wrappers
  import opened RefundSplit
  import opened RefundPlan
  import opened RefundSettlement
  import opened IyzicoRefund

  function Settlements(lines: seq<Line>): seq<Settlement> {
    if lines == [] then []
    else
      (if lines[0].state == Succeeded then [Settlement(lines[0].plan.itemId, lines[0].plan.provider)] else [])
      + Settlements(lines[1..])
  }

  function StatusOf(lines: seq<Line>): OperationStatus {
    var succeeded := |Settlements(lines)|;
    if succeeded == |lines| then COMPLETED
    else if succeeded == 0 && exists k :: 0 <= k < |lines| && lines[k].state == LineState.Rejected then FAILED
    else WAITING
  }

  /** `check`, from the stored line states alone. */
  function Check(r: Refund): Report {
    Report(CHANNEL, r.id, Some(StatusOf(r.lines)), Some(Settlements(r.lines)))
  }

  /** The first `j` lines of a plan, as settlements. */
  function Paid(plan: seq<PlanLine>, j: nat): (r: seq<Settlement>)
    requires j <= |plan|
    ensures |r| == j && forall k :: 0 <= k < j ==> r[k] == Settlement(plan[k].itemId, plan[k].provider)
  {
    seq(j, k requires 0 <= k < j => Settlement(plan[k].itemId, plan[k].provider))
  }

  lemma ShapedTail(lines: seq<Line>)
    requires lines != [] && Shaped(lines) && lines[0].state == Succeeded
    ensures Shaped(lines[1..]) && Progress(lines) == 1 + Progress(lines[1..])
  {
    var rest := lines[1..];
    forall k | Progress(rest) < k < |rest| ensures rest[k].state == Held { assert lines[k + 1] == rest[k]; }
  }

  lemma {:induction false} NoneSettled(lines: seq<Line>)
    requires forall k :: 0 <= k < |lines| ==> lines[k].state != Succeeded
    ensures Settlements(lines) == []
  {
    if lines != [] {
      forall k | 0 <= k < |lines[1..]| ensures lines[1..][k].state != Succeeded {
        assert lines[k + 1] == lines[1..][k];
      }
      NoneSettled(lines[1..]);
    }
  }

  /** In a well-shaped refund the reported lines are a prefix of the plan. */
  lemma {:induction false} SettlementsArePrefix(lines: seq<Line>)
    requires Shaped(lines)
    ensures Settlements(lines) == Paid(Plans(lines), Progress(lines))
  {
    if lines == [] || lines[0].state != Succeeded {
      forall k | 0 <= k < |lines| ensures lines[k].state != Succeeded {
        if k > 0 { assert lines[k].state == Held; }
      }
      NoneSettled(lines);
    } else {
      ShapedTail(lines);
      SettlementsArePrefix(lines[1..]);
      assert Plans(lines)[1..] == Plans(lines[1..]);
      PaidCons(Plans(lines), Progress(lines));
    }
  }

  lemma PaidCons(plan: seq<PlanLine>, j: nat)
    requires 0 < j <= |plan|
    ensures Paid(plan, j) == [Settlement(plan[0].itemId, plan[0].provider)] + Paid(plan[1..], j - 1)
  {
  }

  /** What the reported status says about the lines of a sound refund. */
  lemma StatusMeans(r: Refund, log: seq<Sent>)
    requires SoundRefund(r, log)
    ensures r.lines != []
    ensures StatusOf(r.lines) == COMPLETED <==> Progress(r.lines) == |r.lines|
    ensures StatusOf(r.lines) == FAILED <==> r.lines[0].state == LineState.Rejected
  {
    SettlementsArePrefix(r.lines);
    assert |Plans(r.lines)| == |r.lines|;
  }

  // ---- Each line is sent at most once

  lemma {:induction false} SentOfHas(sent: seq<Sent>, i: nat)
    requires i < |sent|
    ensures sent[i] in SentOf(sent, sent[i].refundId)
  {
    if i < |sent| - 1 { SentOfHas(sent[..|sent| - 1], i); }
  }

  lemma {:induction false} SentOnce(sent: seq<Sent>, id: string, i: nat, j: nat)
    requires forall k :: 0 <= k < |SentOf(sent, id)| ==> SentOf(sent, id)[k].line == k
    requires i < j < |sent| && sent[i].refundId == id == sent[j].refundId
    ensures sent[i].line < sent[j].line
  {
    var before := sent[..|sent| - 1];
    assert SentOf(before, id) <= SentOf(sent, id);
    if j < |before| {
      SentOnce(before, id, i, j);
    } else {
      SentOfHas(before, i);
      assert SentOf(sent, id)[|SentOf(before, id)|] == sent[j];
    }
  }

  lemma {:induction false} SentOfIsOwn(sent: seq<Sent>, id: string)
    ensures forall k :: 0 <= k < |SentOf(sent, id)| ==> SentOf(sent, id)[k].refundId == id
  {
    if sent != [] { SentOfIsOwn(sent[..|sent| - 1], id); }
  }

  /**
   In every reachable state, over all concurrent callers, retries and crashes: the lines of a refund read succeeded,
   then at most one under way or stopped, then untouched; no line is ever sent twice, and lines are sent in order;
   reported lines are exactly the accepted ones, but for one that may still be under way; COMPLETED means all were
   sent and accepted; FAILED means only the first line was ever sent, and that it was definitely rejected.
   */
  lemma SubmissionShape(sources: Sources, steps: seq<Step>, id: string)
    requires HasRefund(Run(sources, INITIAL, steps).refunds, id)
    ensures var s := Run(sources, INITIAL, steps);
      var r := Get(s.refunds, id); var log := SentOf(s.sent, id); var j := Progress(r.lines);
      && (forall k :: 0 <= k < j ==> r.lines[k].state == Succeeded)
      && (forall k :: j < k < |r.lines| ==> r.lines[k].state == Held)
      && (forall k :: 0 <= k < |log| ==> log[k].line == k < |r.lines|)
      && (forall a, b :: 0 <= a < b < |s.sent| && s.sent[a].refundId == id == s.sent[b].refundId ==>
          s.sent[a].line < s.sent[b].line)
      && Settlements(r.lines) == Paid(Plans(r.lines), j)
      && j <= |log| <= j + 1 && (forall k :: 0 <= k < j ==> log[k].outcome == Accept)
      && (Check(r).status.value == COMPLETED ==> |log| == j == |r.lines|)
      && (Check(r).status.value == FAILED ==> log == [Sent(id, 0, Reject)])
  {
    InitialIsSound();
    RunKeepsInv(sources, INITIAL, steps);
    var s := Run(sources, INITIAL, steps);
    var r, log := Get(s.refunds, id), SentOf(s.sent, id);
    assert SoundRefund(r, log);
    SettlementsArePrefix(r.lines);
    StatusMeans(r, log);
    SentOfIsOwn(s.sent, id);
    forall a, b | 0 <= a < b < |s.sent| && s.sent[a].refundId == id == s.sent[b].refundId
      ensures s.sent[a].line < s.sent[b].line {
      SentOnce(s.sent, id, a, b);
    }
    if StatusOf(r.lines) == FAILED { ProgressIs(r.lines, 0); }
  }

  lemma InitialIsSound()
    ensures Inv(INITIAL)
  {
  }

  // ---- A refund never goes back

  /** A line that was rejected or is in doubt. */
  predicate Halted(lines: seq<Line>) {
    Progress(lines) < |lines| && lines[Progress(lines)].state in {LineState.Rejected, Doubtful}
  }

  /** No running call writes to a refund that has halted. */
  lemma HaltedIsLeftAlone(r: Refund, log: seq<Sent>, p: Phase, step: Step)
    requires Acting(r, log, p) && Act(p, r, step).Some? && Halted(r.lines)
    ensures Act(p, r, step).value.write.None?
  {
  }

  /** Some call is about to withdraw a line of this refund whose success is stored. */
  predicate MayTakeBack(s: State, id: string) {
    HasRefund(s.refunds, id) &&
    exists c :: c in s.callers && TakesBack(Get(s.refunds, id), s.callers[c]) && s.callers[c].id == id
  }

  /** The step stores the success of a line of this refund, and the call does not hear of it. */
  predicate GoesUnheard(s: State, step: Step, id: string) {
    step.Persist? && step.saving == Unheard && PhaseOf(s, step.caller).Accepted? && PhaseOf(s, step.caller).id == id
  }

  /** A later version of a refund and its submissions: the same plan, no fewer acceptances, and final once halted. */
  predicate Follows(a: Refund, before: seq<Sent>, b: Refund, log: seq<Sent>) {
    && Plans(b.lines) == Plans(a.lines) && b.sourceId == a.sourceId && Acceptances(before) <= Acceptances(log)
    && (Halted(a.lines) ==> b.lines == a.lines)
  }

  lemma StepAdvances(sources: Sources, s: State, step: Step, id: string)
    requires Inv(s) && HasRefund(s.refunds, id)
    ensures var t := Next(sources, s, step);
      && HasRefund(t.refunds, id)
      && Follows(Get(s.refunds, id), SentOf(s.sent, id), Get(t.refunds, id), SentOf(t.sent, id))
      && (!MayTakeBack(s, id) ==> Progress(Get(s.refunds, id).lines) <= Progress(Get(t.refunds, id).lines))
  {
    var p := PhaseOf(s, step.caller);
    if Acts(s, step) {
      ActAdvances(sources, s, step, id);
    } else if Creates(sources, s, step) {
      CreateEffect(sources, s, step, id);
    } else {
      QuietEffect(sources, s, step);
    }
  }

  lemma ActAdvances(sources: Sources, s: State, step: Step, id: string)
    requires Inv(s) && Acts(s, step) && HasRefund(s.refunds, id)
    ensures var t := Next(sources, s, step);
      && HasRefund(t.refunds, id)
      && Follows(Get(s.refunds, id), SentOf(s.sent, id), Get(t.refunds, id), SentOf(t.sent, id))
      && (!MayTakeBack(s, id) ==> Progress(Get(s.refunds, id).lines) <= Progress(Get(t.refunds, id).lines))
  {
    var p := PhaseOf(s, step.caller);
    ActEffect(sources, s, step, id);
    assert CallerFits(s, p) && SoundRefund(Get(s.refunds, p.id), SentOf(s.sent, p.id));
    ActKeeps(Get(s.refunds, p.id), SentOf(s.sent, p.id), p, step);
    if id == p.id {
      if Halted(Get(s.refunds, id).lines) { HaltedIsLeftAlone(Get(s.refunds, id), SentOf(s.sent, id), p, step); }
      if TakesBack(Get(s.refunds, id), p) { assert step.caller in s.callers && MayTakeBack(s, id); }
    } else {
      assert SentOf(s.sent, id) + [] == SentOf(s.sent, id);
    }
  }

  // ---- Reports grow exactly as long as every saved line is heard of

  /** Only an unheard update brings a call into the position to take a line back. */
  lemma ActTakesBack(r: Refund, log: seq<Sent>, p: Phase, step: Step)
    requires Acting(r, log, p) && Act(p, r, step).Some?
    ensures var e := Act(p, r, step).value;
      TakesBack(Written(r, e), e.phase) ==> step.Persist? && step.saving == Unheard && p.Accepted?
  {
  }

  /** A call that waits while another acts on its refund is not about to take a line back. */
  lemma BystanderTakesNothing(r: Refund, log: seq<Sent>, p: Phase, step: Step, other: Phase)
    requires Acting(r, log, p) && Act(p, r, step).Some?
    requires !other.Idle? && other.id == r.id && SoundCaller(r, log, other) && (Owns(p, r.id) ==> !Owns(other, r.id))
    requires TakesBack(Written(r, Act(p, r, step).value), other)
    ensures TakesBack(r, other)
  {
    ActKeeps(r, log, p, step);
  }

  lemma ActMayTakeBack(sources: Sources, s: State, step: Step, id: string)
    requires Inv(s) && Acts(s, step) && MayTakeBack(Next(sources, s, step), id)
    ensures MayTakeBack(s, id) || GoesUnheard(s, step, id)
  {
    var t := Next(sources, s, step);
    ActEffect(sources, s, step, id);
    var c :| c in t.callers && TakesBack(Get(t.refunds, id), t.callers[c]) && t.callers[c].id == id;
    if c == step.caller {
      OwnActTakesBack(sources, s, step, id);
    } else {
      OtherActTakesBack(sources, s, step, id, c);
    }
  }

  lemma OtherActTakesBack(sources: Sources, s: State, step: Step, id: string, c: string)
    requires Inv(s) && Acts(s, step) && HasRefund(s.refunds, id) && c in s.callers && c != step.caller
    requires HasRefund(Next(sources, s, step).refunds, id)
    requires TakesBack(Get(Next(sources, s, step).refunds, id), s.callers[c]) && s.callers[c].id == id
    ensures TakesBack(Get(s.refunds, id), s.callers[c])
  {
    var p := PhaseOf(s, step.caller);
    ActEffect(sources, s, step, id);
    if id == p.id {
      assert CallerFits(s, p) && CallerFits(s, s.callers[c]) && SingleOwner(s.callers, step.caller, c);
      assert SoundRefund(Get(s.refunds, id), SentOf(s.sent, id));
      BystanderTakesNothing(Get(s.refunds, id), SentOf(s.sent, id), p, step, s.callers[c]);
    }
  }

  lemma OwnActTakesBack(sources: Sources, s: State, step: Step, id: string)
    requires Inv(s) && Acts(s, step) && HasRefund(s.refunds, id)
    requires var t := Next(sources, s, step); var q := PhaseOf(t, step.caller);
      HasRefund(t.refunds, id) && !q.Idle? && q.id == id && TakesBack(Get(t.refunds, id), q)
    ensures GoesUnheard(s, step, id)
  {
    var p := PhaseOf(s, step.caller);
    assert CallerFits(s, p) && SoundRefund(Get(s.refunds, p.id), SentOf(s.sent, p.id));
    ActsPhase(sources, s, step);
    ActKeeps(Get(s.refunds, p.id), SentOf(s.sent, p.id), p, step);
    ActEffect(sources, s, step, id);
    ActTakesBack(Get(s.refunds, p.id), SentOf(s.sent, p.id), p, step);
  }

  lemma StepMayTakeBack(sources: Sources, s: State, step: Step, id: string)
    requires Inv(s) && MayTakeBack(Next(sources, s, step), id)
    ensures MayTakeBack(s, id) || GoesUnheard(s, step, id)
  {
    if Acts(s, step) {
      ActMayTakeBack(sources, s, step, id);
    } else if Creates(sources, s, step) {
      CreateMayTakeBack(sources, s, step, id);
    } else {
      QuietMayTakeBack(sources, s, step, id);
    }
  }

  lemma CreateMayTakeBack(sources: Sources, s: State, step: Step, id: string)
    requires Inv(s) && Creates(sources, s, step) && MayTakeBack(Next(sources, s, step), id)
    ensures MayTakeBack(s, id)
  {
    var t := Next(sources, s, step);
    CreateEffect(sources, s, step, id);
    var c :| c in t.callers && TakesBack(Get(t.refunds, id), t.callers[c]) && t.callers[c].id == id;
    assert c in s.callers && s.callers[c] == t.callers[c];
    assert CallerFits(s, s.callers[c]);
  }

  lemma QuietMayTakeBack(sources: Sources, s: State, step: Step, id: string)
    requires Inv(s) && !Acts(s, step) && !Creates(sources, s, step) && MayTakeBack(Next(sources, s, step), id)
    ensures MayTakeBack(s, id)
  {
    var t := Next(sources, s, step);
    QuietEffect(sources, s, step);
    var c :| c in t.callers && TakesBack(Get(t.refunds, id), t.callers[c]) && t.callers[c].id == id;
    if c == step.caller {
      assert Owns(PhaseOf(t, c), id);
      assert t.callers[c] == PhaseOf(s, c);
    }
    assert c in s.callers && s.callers[c] == t.callers[c];
  }

  /** In this history an update of the refund was done without the call hearing of it. */
  predicate LosesAck(sources: Sources, steps: seq<Step>, id: string) {
    exists n :: 0 <= n < |steps| && GoesUnheard(Run(sources, INITIAL, steps[..n]), steps[n], id)
  }

  lemma PrefixHears(sources: Sources, steps: seq<Step>, n: nat, id: string)
    requires n <= |steps| && !LosesAck(sources, steps, id)
    ensures !LosesAck(sources, steps[..n], id)
  {
    forall k | 0 <= k < n ensures !GoesUnheard(Run(sources, INITIAL, steps[..n][..k]), steps[..n][k], id) {
      assert steps[..n][..k] == steps[..k];
      assert !GoesUnheard(Run(sources, INITIAL, steps[..k]), steps[k], id);
    }
  }

  lemma {:induction false} HeardTakesNothingBack(sources: Sources, steps: seq<Step>, id: string)
    requires !LosesAck(sources, steps, id)
    ensures !MayTakeBack(Run(sources, INITIAL, steps), id)
  {
    if steps != [] {
      var n := |steps| - 1;
      PrefixHears(sources, steps, n, id);
      HeardTakesNothingBack(sources, steps[..n], id);
      InitialIsSound();
      RunKeepsInv(sources, INITIAL, steps[..n]);
      assert !GoesUnheard(Run(sources, INITIAL, steps[..n]), steps[n], id);
      if MayTakeBack(Run(sources, INITIAL, steps), id) {
        StepMayTakeBack(sources, Run(sources, INITIAL, steps[..n]), steps[n], id);
      }
    }
  }

  /** A later version of a refund none of whose updates went unheard: no fewer succeeded lines. */
  predicate Advanced(a: Refund, b: Refund) {
    && Plans(b.lines) == Plans(a.lines) && Progress(a.lines) <= Progress(b.lines)
    && (Halted(a.lines) ==> b.lines == a.lines)
  }

  lemma {:induction false} RunAdvances(sources: Sources, steps: seq<Step>, n: nat, id: string)
    requires n <= |steps| && HasRefund(Run(sources, INITIAL, steps[..n]).refunds, id) && !LosesAck(sources, steps, id)
    ensures var s, t := Run(sources, INITIAL, steps[..n]), Run(sources, INITIAL, steps);
      HasRefund(t.refunds, id) && Advanced(Get(s.refunds, id), Get(t.refunds, id))
  {
    if n == |steps| {
      assert steps[..n] == steps;
    } else {
      var init := steps[..|steps| - 1];
      assert init[..n] == steps[..n];
      PrefixHears(sources, steps, |init|, id);
      RunAdvances(sources, init, n, id);
      var s, mid := Get(Run(sources, INITIAL, steps[..n]).refunds, id), Get(Run(sources, INITIAL, init).refunds, id);
      LastAdvances(sources, steps, id);
      AdvancesOn(s, mid, Get(Run(sources, INITIAL, steps).refunds, id));
    }
  }

  lemma AdvancesOn(a: Refund, b: Refund, c: Refund)
    requires Advanced(a, b) && Advanced(b, c)
    ensures Advanced(a, c)
  {
  }

  lemma LastAdvances(sources: Sources, steps: seq<Step>, id: string)
    requires steps != [] && !LosesAck(sources, steps[..|steps| - 1], id)
    requires HasRefund(Run(sources, INITIAL, steps[..|steps| - 1]).refunds, id)
    ensures var s, t := Run(sources, INITIAL, steps[..|steps| - 1]), Run(sources, INITIAL, steps);
      HasRefund(t.refunds, id) && Advanced(Get(s.refunds, id), Get(t.refunds, id))
  {
    var init := steps[..|steps| - 1];
    HeardTakesNothingBack(sources, init, id);
    InitialIsSound();
    RunKeepsInv(sources, INITIAL, init);
    StepAdvances(sources, Run(sources, INITIAL, init), steps[|steps| - 1], id);
  }

  /**
   As long as the call hears of every update that stores a success, whatever a report listed every later report lists
   too, and COMPLETED and FAILED are reported for good.
   */
  lemma ReportsGrow(sources: Sources, steps: seq<Step>, n: nat, id: string)
    requires n <= |steps| && HasRefund(Run(sources, INITIAL, steps[..n]).refunds, id) && !LosesAck(sources, steps, id)
    ensures var s, t := Run(sources, INITIAL, steps[..n]), Run(sources, INITIAL, steps);
      && HasRefund(t.refunds, id)
      && var a, b := Get(s.refunds, id), Get(t.refunds, id);
         && Settlements(a.lines) <= Settlements(b.lines)
         && (Check(a).status.value in {COMPLETED, FAILED} ==> Check(b) == Check(a))
  {
    var s, t := Run(sources, INITIAL, steps[..n]), Run(sources, INITIAL, steps);
    InitialIsSound();
    RunKeepsInv(sources, INITIAL, steps[..n]);
    RunKeepsInv(sources, INITIAL, steps);
    RunAdvances(sources, steps, n, id);
    AdvancedReports(Get(s.refunds, id), Get(t.refunds, id), SentOf(s.sent, id), SentOf(t.sent, id));
  }

  /** The report of the refund lists fewer lines after the step than before it. */
  predicate Shrinks(sources: Sources, s: State, step: Step, id: string) {
    && HasRefund(s.refunds, id) && HasRefund(Next(sources, s, step).refunds, id)
    && |Settlements(Get(Next(sources, s, step).refunds, id).lines)| < |Settlements(Get(s.refunds, id).lines)|
  }

  lemma ReportLength(s: State, id: string)
    requires Inv(s) && HasRefund(s.refunds, id)
    ensures |Settlements(Get(s.refunds, id).lines)| == Progress(Get(s.refunds, id).lines)
  {
    var r := Get(s.refunds, id);
    assert SoundRefund(r, SentOf(s.sent, id));
    assert |Plans(r.lines)| == |r.lines|;
    SettlementsArePrefix(r.lines);
  }

  lemma UnheardIsStored(sources: Sources, s: State, step: Step, id: string)
    requires Inv(s) && GoesUnheard(s, step, id)
    ensures var p, t := PhaseOf(s, step.caller), Next(sources, s, step);
      && Acts(s, step) && HasRefund(t.refunds, id) && Get(t.refunds, id).lines == p.lines
      && PhaseOf(t, step.caller) == Stopping(id, WithState(p.lines, p.next, Doubtful), p.next)
      && p.next < |p.lines| && Progress(p.lines) == p.next + 1
      && Progress(WithState(p.lines, p.next, Doubtful)) == p.next
  {
    var p := PhaseOf(s, step.caller);
    assert CallerFits(s, p);
    ActsPhase(sources, s, step);
    ActEffect(sources, s, step, id);
    ProgressIs(WithState(p.lines, p.next, Doubtful), p.next);
    ProgressIs(p.lines, p.next + 1);
  }

  /** The call that did not hear of its update goes on to take the line back. */
  lemma UnheardShrinks(sources: Sources, s: State, step: Step, id: string)
    requires Inv(s) && GoesUnheard(s, step, id)
    ensures Shrinks(sources, Next(sources, s, step), Stop(step.caller), id)
  {
    var t := Next(sources, s, step);
    UnheardIsStored(sources, s, step, id);
    StepKeepsInv(sources, s, step);
    StepKeepsInv(sources, t, Stop(step.caller));
    ActEffect(sources, t, Stop(step.caller), id);
    ReportLength(t, id);
    ReportLength(Next(sources, t, Stop(step.caller)), id);
  }

  /**
   Exactly so: a history in which an update went unheard passes a point at which the report of its refund can shrink,
   and no other history does.
   */
  lemma ReportsShrinkIff(sources: Sources, steps: seq<Step>, id: string)
    ensures LosesAck(sources, steps, id) <==>
      exists n: nat, step :: n <= |steps| && Shrinks(sources, Run(sources, INITIAL, steps[..n]), step, id)
  {
    if LosesAck(sources, steps, id) { LossCanShrink(sources, steps, id); }
    if n: nat, step :| n <= |steps| && Shrinks(sources, Run(sources, INITIAL, steps[..n]), step, id) {
      ShrinkingIsLoss(sources, steps, n, step, id);
    }
  }

  lemma LossCanShrink(sources: Sources, steps: seq<Step>, id: string)
    requires LosesAck(sources, steps, id)
    ensures exists n: nat, step :: n <= |steps| && Shrinks(sources, Run(sources, INITIAL, steps[..n]), step, id)
  {
    var n :| 0 <= n < |steps| && GoesUnheard(Run(sources, INITIAL, steps[..n]), steps[n], id);
    InitialIsSound();
    RunKeepsInv(sources, INITIAL, steps[..n]);
    UnheardShrinks(sources, Run(sources, INITIAL, steps[..n]), steps[n], id);
    RunOneMore(sources, steps, n);
    var m, step := n + 1, Stop(steps[n].caller);
    assert Shrinks(sources, Run(sources, INITIAL, steps[..m]), step, id);
  }

  lemma RunOneMore(sources: Sources, steps: seq<Step>, n: nat)
    requires n < |steps|
    ensures Run(sources, INITIAL, steps[..n + 1]) == Next(sources, Run(sources, INITIAL, steps[..n]), steps[n])
  {
    assert steps[..n + 1][..n] == steps[..n];
  }

  lemma ShrinkingIsLoss(sources: Sources, steps: seq<Step>, n: nat, step: Step, id: string)
    requires n <= |steps| && Shrinks(sources, Run(sources, INITIAL, steps[..n]), step, id)
    ensures LosesAck(sources, steps, id)
  {
    var s := Run(sources, INITIAL, steps[..n]);
    InitialIsSound();
    RunKeepsInv(sources, INITIAL, steps[..n]);
    StepKeepsInv(sources, s, step);
    ReportLength(s, id);
    ReportLength(Next(sources, s, step), id);
    StepAdvances(sources, s, step, id);
    assert MayTakeBack(s, id);
    TakingBackIsLoss(sources, steps, n, id);
  }

  lemma TakingBackIsLoss(sources: Sources, steps: seq<Step>, n: nat, id: string)
    requires n <= |steps| && MayTakeBack(Run(sources, INITIAL, steps[..n]), id)
    ensures LosesAck(sources, steps, id)
  {
    if !LosesAck(sources, steps, id) {
      PrefixHears(sources, steps, n, id);
      HeardTakesNothingBack(sources, steps[..n], id);
    }
  }

  lemma AdvancedReports(a: Refund, b: Refund, old_: seq<Sent>, log: seq<Sent>)
    requires SoundRefund(a, old_) && SoundRefund(b, log) && Advanced(a, b) && a.id == b.id
    ensures Settlements(a.lines) <= Settlements(b.lines)
    ensures Check(a).status.value in {COMPLETED, FAILED} ==> Check(b) == Check(a)
  {
    assert |Plans(a.lines)| == |a.lines| && |Plans(b.lines)| == |b.lines|;
    SettlementsArePrefix(a.lines);
    SettlementsArePrefix(b.lines);
    StatusMeans(a, old_);
    StatusMeans(b, log);
    if StatusOf(a.lines) == FAILED { ProgressIs(a.lines, 0); }
  }
}
