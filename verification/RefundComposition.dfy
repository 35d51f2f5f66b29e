/**
 The refund path as one system: iyzico checkouts moved by callbacks, checks and cancellations, the refund adapter
 working against them, and the core that opens refund operations, initialises them and polls their status. Every
 interleaving of the three is a run.
 */
module RefundComposition {
  import opened Wrappers
  import opened Sums
  import opened RefundSplit
  import opened RefundPlan
  import opened RefundRounding
  import opened RefundSettlement
  import opened IyzicoRefund
  import opened IyzicoStatus
  import opened IyzicoCapacity
  import Form = IyzicoCheckout

  /**
   A refund operation of the core: its book, what the service looks up for it, the capture it is against, and when the
   latest of the reports it has settled was read.
   */
  datatype Core = Core(book: Book, d: Directory, sourceId: string, currency: string, mode: RoundingMode, latest: nat)

  /** A status answer on its way from the adapter to the settlement of an operation; `at` orders the readings. */
  datatype Flight = Flight(id: string, report: Report, at: nat)

  /** `unheard` keeps the refunds of which some stored success never reached the call that stored it. */
  datatype World = World(
    checkouts: map<string, Form.State>, adapter: State, cores: map<string, Core>, flights: map<string, Flight>,
    asked: nat, unheard: set<string>)

  datatype Move =
    | OnCheckout(id: string, checkoutStep: Form.Step)
    | Open(id: string, core: Core)
    | Init(caller: string, id: string)
    | OnRefund(refundStep: Step)
    | Ask(poller: string, id: string)
    | Deliver(poller: string, accounts: set<string>)

  function SourcesOf(w: World): Sources {
    map id | id in w.checkouts && w.checkouts[id].row.Some? :: w.checkouts[id].row.value
  }

  function CheckoutAt(w: World, id: string): Form.State {
    if id in w.checkouts then w.checkouts[id] else Form.INITIAL
  }

  /** A refund operation as the core saves it: planned, matching its amount, nothing reported yet. */
  predicate Opens(id: string, core: Core) {
    var op := core.book.operation;
    && Fresh(core.book) && op.id == id != "" && op.channelId == CHANNEL && op.channelOperationId.None?
    && op.paymentId == core.d.paymentId && core.d.customer.Some? && Nominal(op.plan) == op.amount && core.latest == 0
  }

  /** The `init` message of an operation carries its saved plan. */
  function RequestFor(id: string, core: Core): Request {
    Request(id, core.book.operation.paymentId, core.sourceId, core.currency, core.mode, core.book.operation.plan)
  }

  function SettleReport(core: Core, accounts: set<string>, report: Report): Result<Book> {
    Settle(core.book, core.d.(accounts := accounts), report)
  }

  function Delivered(core: Core, accounts: set<string>, f: Flight): Core {
    var after := SettleReport(core, accounts, f.report);
    if after.Failure? then core
    else core.(book := after.value, latest := if f.at > core.latest then f.at else core.latest)
  }

  function AfterAsk(w: World, poller: string, answer: Flight): World {
    w.(flights := w.flights[poller := answer], asked := w.asked + 1)
  }

  function AfterDelivery(w: World, poller: string, id: string, core: Core): World {
    w.(cores := w.cores[id := core], flights := w.flights - {poller})
  }

  /** The refund whose success this step stores without its call hearing of it. */
  function UnheardBy(s: State, step: Step): (ids: set<string>)
    ensures forall id :: id in ids <==> GoesUnheard(s, step, id)
  {
    var p := PhaseOf(s, step.caller);
    if step.Persist? && step.saving == Unheard && p.Accepted? then {p.id} else {}
  }

  function AfterStep(w: World, step: Step): World {
    w.(adapter := Next(SourcesOf(w), w.adapter, step), unheard := w.unheard + UnheardBy(w.adapter, step))
  }

  /** Asking a channel and settling its answer are two moves; anything may happen in between, and answers may cross. */
  function NextWorld(w: World, m: Move): World {
    match m
    case OnCheckout(id, step) =>
      if step.Insert? && step.created.id != id then w
      else w.(checkouts := w.checkouts[id := Form.Next(CheckoutAt(w, id), step)])
    case Open(id, core) => if id in w.cores || !Opens(id, core) then w else w.(cores := w.cores[id := core])
    case Init(caller, id) =>
      if id !in w.cores then w
      else AfterStep(w, Reserve(caller, RequestFor(id, w.cores[id])))
    case OnRefund(step) => if step.Reserve? then w else AfterStep(w, step)
    case Ask(poller, id) =>
      if id !in w.cores || !HasRefund(w.adapter.refunds, id) then w
      else AfterAsk(w, poller, Flight(id, Check(Get(w.adapter.refunds, id)), w.asked))
    case Deliver(poller, accounts) =>
      if poller !in w.flights || w.flights[poller].id !in w.cores then w
      else
        var f := w.flights[poller];
        AfterDelivery(w, poller, f.id, Delivered(w.cores[f.id], accounts, f))
  }

  const EMPTY: World := World(map[], INITIAL, map[], map[], 0, {})

  function RunWorld(moves: seq<Move>): World {
    if moves == [] then EMPTY else NextWorld(RunWorld(moves[..|moves| - 1]), moves[|moves| - 1])
  }

  // ---- The adapter's reports against the core's checks

  /** What the core holds of a refund is never ahead of what the provider accepted of it. */
  predicate Tracks(id: string, core: Core, refunds: seq<Refund>, log: seq<Sent>) {
    var op := core.book.operation;
    && Consistent(core.book, core.d.customer) && core.d.customer.Some? && Nominal(op.plan) == op.amount
    && op.id == id != "" && op.channelId == CHANNEL && op.channelOperationId in {None, Some(id)}
    && op.paymentId == core.d.paymentId
    && if HasRefund(refunds, id) then Behind(op, Get(refunds, id), log) else Untouched(core.book)
  }

  predicate Untouched(book: Book) {
    book.operation.settled == [] && book.ledger == [] && book.operation.status == WAITING
  }

  predicate Behind(op: Operation, r: Refund, log: seq<Sent>) {
    && Plans(r.lines) == op.plan
    && |op.settled| <= |op.plan| && op.settled == ItemIds(op.plan)[..|op.settled|]
    && |op.settled| <= Acceptances(log) && (op.status == COMPLETED ==> |op.settled| == |op.plan|)
    && (op.status == FAILED ==> r.lines != [] && r.lines[0].state == LineState.Rejected)
  }

  predicate NoRounding(plan: seq<PlanLine>) {
    forall k :: 0 <= k < |plan| ==> plan[k].provider == plan[k].nominal
  }

  lemma {:induction false} FoundLine(plan: seq<PlanLine>, k: nat)
    requires Distinct(ItemIds(plan)) && k < |plan|
    ensures FindLine(plan, plan[k].itemId) == Some(plan[k])
  {
    var ids, found := ItemIds(plan), FindLine(plan, plan[k].itemId);
    assert ids[k] == plan[k].itemId && ids[k] in ids;
    var j :| 0 <= j < |plan| && plan[j] == found.value;
    assert ids[j] == plan[j].itemId;
    assert j == k;
  }

  /** One turn of the posting loop over a prefix of the plan. */
  lemma PostTurn(op: Operation, d: Directory, j: nat, i: nat, settled: seq<string>, ledger: seq<Entry>)
    requires Distinct(ItemIds(op.plan)) && i < j <= |op.plan| && i <= |settled| <= j
    requires settled == ItemIds(op.plan)[..|settled|]
    ensures var line := op.plan[i]; var rest := Paid(op.plan, j)[i + 1..];
      Post(op, d, Paid(op.plan, j)[i..], settled, ledger)
      == if i < |settled| then Post(op, d, rest, settled, ledger)
         else if line.provider != line.nominal && !CanPost(op, d) then Failure(BadRequest)
         else Post(op, d, rest, settled + [line.itemId], ledger + PairFor(op, d.customer, line, |ledger|))
    ensures i == |settled| ==> settled + [op.plan[i].itemId] == ItemIds(op.plan)[..i + 1]
  {
    var todo := Paid(op.plan, j)[i..];
    assert todo[0] == Paid(op.plan, j)[i] && todo[1..] == Paid(op.plan, j)[i + 1..];
    FoundLine(op.plan, i);
    SettledSoFar(op.plan, i, settled);
  }

  lemma SettledSoFar(plan: seq<PlanLine>, i: nat, settled: seq<string>)
    requires Distinct(ItemIds(plan)) && i < |plan| && i <= |settled| <= |plan| && settled == ItemIds(plan)[..|settled|]
    ensures plan[i].itemId in settled <==> i < |settled|
    ensures i == |settled| ==> settled + [plan[i].itemId] == ItemIds(plan)[..i + 1]
  {
    var ids := ItemIds(plan);
    assert ids[i] == plan[i].itemId;
    if i < |settled| {
      assert settled[i] == ids[i];
    } else {
      forall k | 0 <= k < |settled| ensures settled[k] != ids[i] { assert ids[k] != ids[i]; }
    }
  }

  /** Posting a prefix of the plan over a shorter, already settled prefix settles exactly the longer one. */
  lemma {:induction false} PostPrefix(
      op: Operation, d: Directory, j: nat, i: nat, settled: seq<string>, ledger: seq<Entry>)
    requires Distinct(ItemIds(op.plan)) && i <= j <= |op.plan| && i <= |settled| <= j
    requires settled == ItemIds(op.plan)[..|settled|]
    requires CanPost(op, d) || NoRounding(op.plan)
    ensures var r := Post(op, d, Paid(op.plan, j)[i..], settled, ledger);
      r.Success? && r.value.0 == ItemIds(op.plan)[..j]
    decreases j - i
  {
    if i < j {
      PostTurn(op, d, j, i, settled, ledger);
      if i < |settled| {
        PostPrefix(op, d, j, i + 1, settled, ledger);
      } else {
        var line := op.plan[i];
        PostPrefix(op, d, j, i + 1, settled + [line.itemId], ledger + PairFor(op, d.customer, line, |ledger|));
      }
    }
  }

  lemma PaidIds(plan: seq<PlanLine>, j: nat)
    requires j <= |plan|
    ensures SettlementIds(Paid(plan, j)) == ItemIds(plan)[..j]
  {
  }

  /** What a report read from this refund, now or earlier, can be. */
  predicate Past(report: Report, r: Refund, log: seq<Sent>) {
    && report.channelId == CHANNEL && report.channelOperationId == r.id
    && report.settlements.Some? && report.status.Some?
    && var j := |report.settlements.value|;
       && j <= Acceptances(log) && j <= |r.lines| && report.settlements.value == Paid(Plans(r.lines), j)
       && (report.status.value == COMPLETED <==> j == |r.lines|)
       && (report.status.value == FAILED ==> r.lines != [] && r.lines[0].state == LineState.Rejected)
  }

  /** The first submissions, as many as were accepted, are those of the first lines; no stored success is ahead. */
  lemma AcceptedSoFar(r: Refund, log: seq<Sent>)
    requires SoundRefund(r, log)
    ensures Progress(r.lines) <= Acceptances(log) <= |log| <= |r.lines|
    ensures forall k :: 0 <= k < Acceptances(log) ==> log[k].line == k && log[k].outcome == Accept
    ensures r.lines != [] && r.lines[0].state == LineState.Rejected ==> Acceptances(log) == 0
  {
    assert |Plans(r.lines)| == |r.lines| > 0;
    if r.lines[0].state == LineState.Rejected { ProgressIs(r.lines, 0); }
  }

  lemma FreshIsPast(r: Refund, log: seq<Sent>)
    requires SoundRefund(r, log)
    ensures Past(Check(r), r, log) && |Settlements(r.lines)| == Progress(r.lines)
  {
    assert |Plans(r.lines)| == |r.lines|;
    AcceptedSoFar(r, log);
    SettlementsArePrefix(r.lines);
    StatusMeans(r, log);
  }

  /** What could be reported earlier could have been reported earlier still. */
  lemma PastStaysPast(report: Report, a: Refund, before: seq<Sent>, b: Refund, log: seq<Sent>)
    requires Past(report, a, before) && Follows(a, before, b, log) && a.id == b.id
    ensures Past(report, b, log)
  {
    assert |Plans(a.lines)| == |a.lines| && |Plans(b.lines)| == |b.lines|;
    if report.status.value == FAILED { ProgressIs(a.lines, 0); }
  }

  /** A report passes every check before the postings, unless it lists fewer lines than are settled already. */
  lemma ReportIsWellFormed(id: string, core: Core, refunds: seq<Refund>, log: seq<Sent>, report: Report)
    requires HasRefund(refunds, id) && Tracks(id, core, refunds, log) && SoundRefund(Get(refunds, id), log)
    requires Past(report, Get(refunds, id), log)
    ensures WellFormed(core.book.operation, core.d.paymentId, report)
    ensures |core.book.operation.settled| <= |report.settlements.value| <==>
      && !LosesLines(core.book.operation, report.settlements.value)
      && !(core.book.operation.status == COMPLETED && report.status.value != COMPLETED)
  {
    var op, r, j := core.book.operation, Get(refunds, id), |report.settlements.value|;
    var ids := ItemIds(op.plan);
    assert |Plans(r.lines)| == |r.lines| == |op.plan|;
    PaidIds(op.plan, j);
    AcceptedSoFar(r, log);
    if |op.settled| <= j {
      forall k | 0 <= k < |op.settled| ensures op.settled[k] in ids[..j] { assert op.settled[k] == ids[..j][k]; }
      if op.status == COMPLETED { AllSettled(op); }
    } else {
      MissesLine(op, j);
    }
  }

  lemma AllSettled(op: Operation)
    requires Distinct(ItemIds(op.plan)) && |op.settled| <= |op.plan| && op.settled == ItemIds(op.plan)[..|op.settled|]
    requires forall x :: x in ItemIds(op.plan) ==> x in op.settled
    ensures |op.settled| == |op.plan|
  {
    var ids := ItemIds(op.plan);
    assert Distinct(op.settled) by { assert op.settled == ids[..|op.settled|]; }
    DistinctCardinality(ids);
    DistinctCardinality(op.settled);
    SubsetSize(Elements(ids), Elements(op.settled));
  }

  lemma MissesLine(op: Operation, j: nat)
    requires j < |op.settled| <= |op.plan| && Distinct(ItemIds(op.plan))
      && op.settled == ItemIds(op.plan)[..|op.settled|]
    ensures LosesLines(op, Paid(op.plan, j))
  {
    var ids := ItemIds(op.plan);
    PaidIds(op.plan, j);
    forall k | 0 <= k < j ensures ids[..j][k] != op.settled[j] { assert ids[k] != ids[j]; }
    assert op.settled[j] !in SettlementIds(Paid(op.plan, j));
  }

  /**
   Settling a report read now or earlier: it is a conflict exactly if it lists fewer lines than are settled already;
   otherwise it is accepted (given the accounts its rounding entries need) and leaves exactly its lines settled.
   */
  lemma PastReportSettles(
    id: string, core: Core, refunds: seq<Refund>, log: seq<Sent>, report: Report, accounts: set<string>)
    requires HasRefund(refunds, id) && Tracks(id, core, refunds, log) && SoundRefund(Get(refunds, id), log)
    requires Past(report, Get(refunds, id), log)
    ensures var op := core.book.operation; var j := |report.settlements.value|;
      var after := SettleReport(core, accounts, report);
      && (after == Failure(Conflict) <==> j < |op.settled|)
      && (after.Success? ==>
            && |op.settled| <= j <= |op.plan| && after.value.operation.settled == ItemIds(op.plan)[..j]
            && after.value.operation.status == report.status.value)
      && (CanPost(op, core.d.(accounts := accounts)) || NoRounding(op.plan) ==> (after.Success? <==> |op.settled| <= j))
  {
    var op, j, d := core.book.operation, |report.settlements.value|, core.d.(accounts := accounts);
    assert |Plans(Get(refunds, id).lines)| == |op.plan|;
    ReportIsWellFormed(id, core, refunds, log, report);
    if |op.settled| <= j {
      assert Paid(op.plan, j)[0..] == Paid(op.plan, j);
      PostFailsAsBadRequest(op, d, report.settlements.value, op.settled, core.book.ledger);
      if CanPost(op, d) || NoRounding(op.plan) { PostPrefix(op, d, j, 0, op.settled, core.book.ledger); }
      if Post(op, d, report.settlements.value, op.settled, core.book.ledger).Success? {
        SettledIsPrefix(op, d, j, 0, op.settled, core.book.ledger);
      }
    }
  }

  // ---- What every move of the whole system keeps

  ghost predicate SoundCheckouts(checkouts: map<string, Form.State>) {
    forall id :: id in checkouts ==>
      Form.Inv(checkouts[id]) && (checkouts[id].row.Some? ==> checkouts[id].row.value.id == id)
  }

  ghost predicate SoundCores(cores: map<string, Core>, s: State) {
    && (forall id :: id in cores ==> Tracks(id, cores[id], s.refunds, SentOf(s.sent, id)))
    && (forall id :: HasRefund(s.refunds, id) ==> id in cores)
  }

  /** A report in flight is a past one of its refund. */
  predicate SoundFlight(w: World, f: Flight) {
    && f.id in w.cores && HasRefund(w.adapter.refunds, f.id) && f.at < w.asked
    && Past(f.report, Get(w.adapter.refunds, f.id), SentOf(w.adapter.sent, f.id))
  }

  function Listed(f: Flight): nat { if f.report.settlements.Some? then |f.report.settlements.value| else 0 }

  /** How many lines the adapter would report now. */
  function Stored(w: World, id: string): nat {
    if HasRefund(w.adapter.refunds, id) then Progress(Get(w.adapter.refunds, id).lines) else 0
  }

  function SettledCount(w: World, id: string): nat {
    if id in w.cores then |w.cores[id].book.operation.settled| else 0
  }

  /** As long as every stored success was heard of: no line is about to be taken back, and the core is not ahead. */
  predicate HeardOf(w: World, id: string) {
    id !in w.unheard ==> !MayTakeBack(w.adapter, id) && SettledCount(w, id) <= Stored(w, id)
  }

  /** Then no answer lists more than is stored, and one read after all that were settled lists all their lines. */
  predicate HeardFlight(w: World, f: Flight) {
    f.id !in w.unheard && f.id in w.cores ==>
      Listed(f) <= Stored(w, f.id) && (w.cores[f.id].latest <= f.at ==> SettledCount(w, f.id) <= Listed(f))
  }

  /** And of two answers in flight the one read later lists no fewer lines. */
  predicate InReadingOrder(unheard: set<string>, f: Flight, g: Flight) {
    f.id == g.id && f.id !in unheard && f.at <= g.at ==> Listed(f) <= Listed(g)
  }

  ghost predicate SoundFlights(w: World) {
    && (forall p :: p in w.flights ==> SoundFlight(w, w.flights[p]))
    && (forall id :: id in w.cores ==> w.cores[id].latest <= w.asked)
  }

  ghost predicate HeardFlights(w: World) {
    && (forall p :: p in w.flights ==> HeardFlight(w, w.flights[p]))
    && (forall p, q :: p in w.flights && q in w.flights ==> InReadingOrder(w.unheard, w.flights[p], w.flights[q]))
    && (forall id :: HeardOf(w, id))
  }

  ghost predicate WorldInv(w: World) {
    && SoundCheckouts(w.checkouts) && Inv(w.adapter) && Within(SourcesOf(w), w.adapter.refunds)
    && SoundCores(w.cores, w.adapter) && SoundFlights(w) && HeardFlights(w)
  }

  lemma SourcesAreSound(w: World)
    requires SoundCheckouts(w.checkouts)
    ensures SoundSources(SourcesOf(w))
    ensures forall id :: id in SourcesOf(w) ==> SourcesOf(w)[id].id == id
  {
    forall id | id in SourcesOf(w) ensures Form.SoundRow(SourcesOf(w)[id]) && SourcesOf(w)[id].id == id {
      assert Form.Inv(w.checkouts[id]);
    }
  }

  function WithCheckout(w: World, id: string, step: Form.Step): map<string, Form.State> {
    w.checkouts[id := Form.Next(CheckoutAt(w, id), step)]
  }

  lemma CheckoutsStaySound(w: World, id: string, step: Form.Step)
    requires SoundCheckouts(w.checkouts) && (step.Insert? ==> step.created.id == id)
    ensures SoundCheckouts(WithCheckout(w, id, step))
  {
    var before := CheckoutAt(w, id);
    assert Form.Inv(before);
    Form.StepKeepsInv(before, step);
    if before.row.Some? { Form.StepMoves(before, step); }
  }

  lemma SourcesMoveOn(w: World, id: string, step: Form.Step)
    requires SoundCheckouts(w.checkouts)
    ensures SourcesMove(SourcesOf(w), SourcesOf(w.(checkouts := WithCheckout(w, id, step))))
  {
    var v := w.(checkouts := WithCheckout(w, id, step));
    forall x | x in SourcesOf(w) ensures x in SourcesOf(v) && Form.RowMoves(SourcesOf(w)[x], SourcesOf(v)[x]) {
      if x == id { Form.StepMoves(w.checkouts[id], step); }
    }
  }

  lemma CheckoutKeepsWorld(w: World, id: string, step: Form.Step)
    requires WorldInv(w) && (step.Insert? ==> step.created.id == id)
    ensures WorldInv(w.(checkouts := WithCheckout(w, id, step)))
  {
    var v := w.(checkouts := WithCheckout(w, id, step));
    CheckoutsStaySound(w, id, step);
    SourcesMoveOn(w, id, step);
    MoveKeepsWithin(SourcesOf(w), SourcesOf(v), w.adapter.refunds);
    FlightsIgnoreCheckouts(w, v.checkouts);
  }

  lemma FlightsIgnoreCheckouts(w: World, checkouts: map<string, Form.State>)
    requires SoundFlights(w) && HeardFlights(w)
    ensures SoundFlights(w.(checkouts := checkouts)) && HeardFlights(w.(checkouts := checkouts))
  {
    var v := w.(checkouts := checkouts);
    forall p | p in w.flights ensures SoundFlight(v, w.flights[p]) && HeardFlight(v, w.flights[p]) {
      assert SoundFlight(w, w.flights[p]) && HeardFlight(w, w.flights[p]);
    }
    forall id ensures HeardOf(v, id) { assert HeardOf(w, id); }
  }

  lemma AddCore(w: World, id: string, core: Core)
    requires SoundCores(w.cores, w.adapter) && id !in w.cores && Opens(id, core)
    ensures SoundCores(w.cores[id := core], w.adapter)
  {
    assert !HasRefund(w.adapter.refunds, id);
    assert Tracks(id, core, w.adapter.refunds, SentOf(w.adapter.sent, id));
  }

  lemma OpenKeepsWorld(w: World, id: string, core: Core)
    requires WorldInv(w)
    ensures WorldInv(NextWorld(w, Open(id, core)))
  {
    if id !in w.cores && Opens(id, core) {
      AddCore(w, id, core);
      OpenKeepsFlights(w, id, core);
      SameSystem(w, w.(cores := w.cores[id := core]));
    }
  }

  /** Checkouts and adapter are as they were. */
  lemma SameSystem(w: World, v: World)
    requires SoundCheckouts(w.checkouts) && Inv(w.adapter) && Within(SourcesOf(w), w.adapter.refunds)
    requires v.checkouts == w.checkouts && v.adapter == w.adapter
    requires SoundCores(v.cores, v.adapter) && SoundFlights(v) && HeardFlights(v)
    ensures WorldInv(v)
  {
    assert SourcesOf(v) == SourcesOf(w);
  }

  lemma OpenKeepsFlights(w: World, id: string, core: Core)
    requires SoundFlights(w) && HeardFlights(w) && id !in w.cores && Opens(id, core)
    ensures SoundFlights(w.(cores := w.cores[id := core])) && HeardFlights(w.(cores := w.cores[id := core]))
  {
    var v := w.(cores := w.cores[id := core]);
    forall p | p in w.flights ensures SoundFlight(v, w.flights[p]) && HeardFlight(v, w.flights[p]) {
      assert SoundFlight(w, w.flights[p]) && HeardFlight(w, w.flights[p]);
    }
    forall x ensures HeardOf(v, x) { assert HeardOf(w, x); }
  }

  /** The step of a running call, or a reservation asked for by a core operation. */
  predicate CoreDriven(w: World, step: Step) {
    step.Reserve? ==> exists id :: id in w.cores && step.request == RequestFor(id, w.cores[id])
  }

  lemma AdapterKeepsTracks(w: World, step: Step, id: string)
    requires WorldInv(w) && CoreDriven(w, step) && id in w.cores
    ensures var t := Next(SourcesOf(w), w.adapter, step); Tracks(id, w.cores[id], t.refunds, SentOf(t.sent, id))
  {
    var s := w.adapter;
    CoreTracks(w, id);
    if HasRefund(s.refunds, id) {
      StepAdvances(SourcesOf(w), s, step, id);
      var t := Next(SourcesOf(w), s, step);
      FollowingTracks(id, w.cores[id], s.refunds, SentOf(s.sent, id), t.refunds, SentOf(t.sent, id));
    } else if Acts(s, step) {
      ActEffect(SourcesOf(w), s, step, id);
    } else if Creates(SourcesOf(w), s, step) {
      CreateEffect(SourcesOf(w), s, step, id);
      if id == step.request.refundId { CreatedTracks(w, step, id); }
    } else {
      QuietEffect(SourcesOf(w), s, step);
    }
  }

  /** The core stays behind a refund that moves on. */
  lemma FollowingTracks(
    id: string, core: Core, before: seq<Refund>, sent: seq<Sent>, after: seq<Refund>, log: seq<Sent>)
    requires HasRefund(before, id) && HasRefund(after, id) && Tracks(id, core, before, sent)
    requires Follows(Get(before, id), sent, Get(after, id), log)
    ensures Tracks(id, core, after, log)
  {
    var a, b := Get(before, id), Get(after, id);
    assert |Plans(a.lines)| == |a.lines| && |Plans(b.lines)| == |b.lines|;
    if core.book.operation.status == FAILED { ProgressIs(a.lines, 0); }
  }

  lemma CreatedTracks(w: World, step: Step, id: string)
    requires SoundCores(w.cores, w.adapter) && Inv(w.adapter) && CoreDriven(w, step)
    requires id in w.cores && !HasRefund(w.adapter.refunds, id)
    requires Creates(SourcesOf(w), w.adapter, step) && step.Reserve? && id == step.request.refundId
    ensures var t := Next(SourcesOf(w), w.adapter, step); Tracks(id, w.cores[id], t.refunds, SentOf(t.sent, id))
  {
    CoreTracks(w, id);
    DrivenByItself(w, step);
    CreateEffect(SourcesOf(w), w.adapter, step, id);
    var t := Next(SourcesOf(w), w.adapter, step);
    HeldLinesPlan(SourcesOf(w)[step.request.sourceId], step.request);
    UntouchedTracks(id, w.cores[id], w.adapter.refunds, SentOf(w.adapter.sent, id), t.refunds, SentOf(t.sent, id));
  }

  lemma DrivenByItself(w: World, step: Step)
    requires SoundCores(w.cores, w.adapter) && CoreDriven(w, step) && step.Reserve?
    ensures step.request.refundId in w.cores
    ensures step.request == RequestFor(step.request.refundId, w.cores[step.request.refundId])
  {
  }

  lemma HeldLinesPlan(source: Form.Checkout, q: Request)
    ensures Plans(Created(source, q).lines) == q.lines
  {
  }

  /** An operation nothing was reported of tracks any refund with its plan. */
  lemma UntouchedTracks(
    id: string, core: Core, before: seq<Refund>, sent: seq<Sent>, after: seq<Refund>, log: seq<Sent>)
    requires !HasRefund(before, id) && Tracks(id, core, before, sent)
    requires HasRefund(after, id) && Plans(Get(after, id).lines) == core.book.operation.plan
    ensures Tracks(id, core, after, log)
  {
    assert core.book.operation.settled == ItemIds(core.book.operation.plan)[..0];
  }

  lemma AdapterKeepsCores(w: World, step: Step)
    requires WorldInv(w) && CoreDriven(w, step)
    ensures SoundCores(w.cores, Next(SourcesOf(w), w.adapter, step))
  {
    var t := Next(SourcesOf(w), w.adapter, step);
    forall id | id in w.cores ensures Tracks(id, w.cores[id], t.refunds, SentOf(t.sent, id)) {
      AdapterKeepsTracks(w, step, id);
    }
    forall id | HasRefund(t.refunds, id) ensures id in w.cores { NoStrayRefund(w, step, id); }
  }

  lemma AdapterKeepsFlights(w: World, step: Step)
    requires Inv(w.adapter) && SoundCores(w.cores, w.adapter) && SoundFlights(w) && HeardFlights(w)
    ensures SoundFlights(AfterStep(w, step)) && HeardFlights(AfterStep(w, step))
  {
    var v := AfterStep(w, step);
    forall p | p in v.flights ensures SoundFlight(v, v.flights[p]) && HeardFlight(v, v.flights[p]) {
      assert SoundFlight(w, w.flights[p]) && HeardFlight(w, w.flights[p]) && HeardOf(w, w.flights[p].id);
      AdapterKeepsFlight(w, step, w.flights[p]);
    }
    forall p, q | p in v.flights && q in v.flights ensures InReadingOrder(v.unheard, v.flights[p], v.flights[q]) {
      assert InReadingOrder(w.unheard, w.flights[p], w.flights[q]);
    }
    forall id ensures HeardOf(v, id) {
      assert HeardOf(w, id);
      AdapterKeepsHeard(w, step, id);
    }
  }

  lemma AdapterKeepsWorld(w: World, step: Step)
    requires WorldInv(w) && CoreDriven(w, step)
    ensures WorldInv(AfterStep(w, step))
  {
    var v := AfterStep(w, step);
    assert SourcesOf(v) == SourcesOf(w);
    SourcesAreSound(w);
    StepKeepsInv(SourcesOf(w), w.adapter, step);
    StepKeepsWithin(SourcesOf(w), w.adapter, step);
    AdapterKeepsCores(w, step);
    AdapterKeepsFlights(w, step);
  }

  lemma AdapterKeepsFlight(w: World, step: Step, f: Flight)
    requires Inv(w.adapter) && SoundFlight(w, f) && HeardFlight(w, f) && HeardOf(w, f.id)
    ensures SoundFlight(AfterStep(w, step), f) && HeardFlight(AfterStep(w, step), f)
  {
    StepAdvances(SourcesOf(w), w.adapter, step, f.id);
    var s, t := w.adapter, Next(SourcesOf(w), w.adapter, step);
    PastStaysPast(f.report, Get(s.refunds, f.id), SentOf(s.sent, f.id), Get(t.refunds, f.id), SentOf(t.sent, f.id));
  }

  lemma AdapterKeepsHeard(w: World, step: Step, id: string)
    requires Inv(w.adapter) && HeardOf(w, id)
    ensures HeardOf(AfterStep(w, step), id)
  {
    if id !in AfterStep(w, step).unheard {
      StoredGrows(w, step, id);
      if MayTakeBack(AfterStep(w, step).adapter, id) { StepMayTakeBack(SourcesOf(w), w.adapter, step, id); }
    }
  }

  lemma StoredGrows(w: World, step: Step, id: string)
    requires Inv(w.adapter) && !MayTakeBack(w.adapter, id)
    ensures Stored(w, id) <= Stored(AfterStep(w, step), id)
  {
    if HasRefund(w.adapter.refunds, id) { StepAdvances(SourcesOf(w), w.adapter, step, id); }
  }

  lemma NoStrayRefund(w: World, step: Step, id: string)
    requires WorldInv(w) && CoreDriven(w, step) && HasRefund(Next(SourcesOf(w), w.adapter, step).refunds, id)
    ensures id in w.cores
  {
    if Acts(w.adapter, step) {
      ActEffect(SourcesOf(w), w.adapter, step, id);
    } else if Creates(SourcesOf(w), w.adapter, step) {
      CreateEffect(SourcesOf(w), w.adapter, step, id);
    } else {
      QuietEffect(SourcesOf(w), w.adapter, step);
    }
  }

  lemma DeliveryKeepsTracks(
    id: string, core: Core, refunds: seq<Refund>, log: seq<Sent>, accounts: set<string>, f: Flight)
    requires HasRefund(refunds, id) && Tracks(id, core, refunds, log) && SoundRefund(Get(refunds, id), log)
    requires Past(f.report, Get(refunds, id), log)
    ensures Tracks(id, Delivered(core, accounts, f), refunds, log)
  {
    PastReportSettles(id, core, refunds, log, f.report, accounts);
    if SettleReport(core, accounts, f.report).Success? {
      SettleKeeps(core.book, core.d.(accounts := accounts), f.report);
      var after := SettleReport(core, accounts, f.report).value;
      DeliveredIsBehind(core.book.operation, after.operation, Get(refunds, id), log, f.report);
    }
  }

  lemma DeliveredIsBehind(before: Operation, after: Operation, r: Refund, log: seq<Sent>, report: Report)
    requires Past(report, r, log) && Plans(r.lines) == before.plan == after.plan && |before.plan| == |r.lines|
    requires after.settled == ItemIds(before.plan)[..|report.settlements.value|] && after.status == report.status.value
    ensures Behind(after, r, log)
  {
  }

  /** Whenever posting a prefix goes through, it settles exactly that prefix. */
  lemma {:induction false} SettledIsPrefix(
      op: Operation, d: Directory, j: nat, i: nat, settled: seq<string>, ledger: seq<Entry>)
    requires Distinct(ItemIds(op.plan)) && i <= j <= |op.plan| && i <= |settled| <= j
    requires settled == ItemIds(op.plan)[..|settled|]
    requires Post(op, d, Paid(op.plan, j)[i..], settled, ledger).Success?
    ensures Post(op, d, Paid(op.plan, j)[i..], settled, ledger).value.0 == ItemIds(op.plan)[..j]
    decreases j - i
  {
    if i < j {
      PostTurn(op, d, j, i, settled, ledger);
      if i < |settled| {
        SettledIsPrefix(op, d, j, i + 1, settled, ledger);
      } else {
        var line := op.plan[i];
        SettledIsPrefix(op, d, j, i + 1, settled + [line.itemId], ledger + PairFor(op, d.customer, line, |ledger|));
      }
    }
  }

  lemma ReplaceCore(w: World, id: string, core: Core)
    requires SoundCores(w.cores, w.adapter) && id in w.cores
    requires Tracks(id, core, w.adapter.refunds, SentOf(w.adapter.sent, id))
    ensures SoundCores(w.cores[id := core], w.adapter)
  {
  }

  lemma RefundIsSound(s: State, id: string)
    requires Inv(s) && HasRefund(s.refunds, id)
    ensures SoundRefund(Get(s.refunds, id), SentOf(s.sent, id))
  {
  }

  lemma CoreTracks(w: World, id: string)
    requires SoundCores(w.cores, w.adapter) && id in w.cores
    ensures Tracks(id, w.cores[id], w.adapter.refunds, SentOf(w.adapter.sent, id))
  {
  }

  lemma AskKeepsWorld(w: World, poller: string, answer: Flight)
    requires WorldInv(w) && SoundFlight(w.(asked := w.asked + 1), answer) && answer.at == w.asked
    requires Listed(answer) == Stored(w, answer.id)
    ensures WorldInv(AfterAsk(w, poller, answer))
  {
    AskKeepsFlights(w, poller, answer);
    AskKeepsHeard(w, poller, answer);
    SameSystem(w, AfterAsk(w, poller, answer));
  }

  lemma AskKeepsFlights(w: World, poller: string, answer: Flight)
    requires SoundFlights(w) && SoundFlight(w.(asked := w.asked + 1), answer)
    ensures SoundFlights(AfterAsk(w, poller, answer))
  {
    var v := AfterAsk(w, poller, answer);
    forall p | p in v.flights ensures SoundFlight(v, v.flights[p]) {
      if p != poller { assert SoundFlight(w, w.flights[p]); }
    }
  }

  lemma AskKeepsHeard(w: World, poller: string, answer: Flight)
    requires SoundFlights(w) && HeardFlights(w) && answer.id in w.cores && answer.at == w.asked
    requires Listed(answer) == Stored(w, answer.id)
    ensures HeardFlights(AfterAsk(w, poller, answer))
  {
    var v := AfterAsk(w, poller, answer);
    forall id ensures HeardOf(v, id) { assert HeardOf(w, id); }
    assert HeardOf(w, answer.id);
    forall p | p in v.flights ensures HeardFlight(v, v.flights[p]) {
      if p != poller { assert HeardFlight(w, w.flights[p]); }
    }
    forall p, q | p in v.flights && q in v.flights ensures InReadingOrder(v.unheard, v.flights[p], v.flights[q]) {
      if p != poller { assert SoundFlight(w, w.flights[p]) && HeardFlight(w, w.flights[p]); }
      if q != poller { assert SoundFlight(w, w.flights[q]); }
      if p != poller && q != poller { assert InReadingOrder(w.unheard, w.flights[p], w.flights[q]); }
    }
  }

  lemma AnswerIsSound(w: World, id: string)
    requires SoundCores(w.cores, w.adapter) && Inv(w.adapter)
    requires id in w.cores && HasRefund(w.adapter.refunds, id)
    ensures var answer := Flight(id, Check(Get(w.adapter.refunds, id)), w.asked);
      SoundFlight(w.(asked := w.asked + 1), answer) && Listed(answer) == Stored(w, id)
  {
    RefundIsSound(w.adapter, id);
    FreshIsPast(Get(w.adapter.refunds, id), SentOf(w.adapter.sent, id));
  }

  lemma DeliverKeepsWorld(w: World, poller: string, core: Core)
    requires WorldInv(w) && poller in w.flights && w.flights[poller].id in w.cores
    requires var id := w.flights[poller].id; Tracks(id, core, w.adapter.refunds, SentOf(w.adapter.sent, id))
    requires Settles(w, w.flights[poller], core)
    ensures WorldInv(AfterDelivery(w, poller, w.flights[poller].id, core))
  {
    ReplaceCore(w, w.flights[poller].id, core);
    DeliverKeepsFlights(w, poller, core);
    DeliverKeepsHeard(w, poller, core);
    SameSystem(w, AfterDelivery(w, poller, w.flights[poller].id, core));
  }

  /** What the settlement of an answer can make of its operation: nothing, or exactly its lines settled. */
  predicate Settles(w: World, f: Flight, core: Core)
    requires f.id in w.cores
  {
    var before := w.cores[f.id];
    || core == before
    || (&& |core.book.operation.settled| == Listed(f)
        && core.latest == if f.at > before.latest then f.at else before.latest)
  }

  lemma DeliverKeepsFlights(w: World, poller: string, core: Core)
    requires SoundFlights(w) && poller in w.flights && w.flights[poller].id in w.cores
    requires Settles(w, w.flights[poller], core)
    ensures SoundFlights(AfterDelivery(w, poller, w.flights[poller].id, core))
  {
    var v, f := AfterDelivery(w, poller, w.flights[poller].id, core), w.flights[poller];
    assert SoundFlight(w, f);
    forall p | p in v.flights ensures SoundFlight(v, v.flights[p]) { assert SoundFlight(w, w.flights[p]); }
  }

  lemma DeliverKeepsHeard(w: World, poller: string, core: Core)
    requires HeardFlights(w) && poller in w.flights && w.flights[poller].id in w.cores
    requires Settles(w, w.flights[poller], core)
    ensures HeardFlights(AfterDelivery(w, poller, w.flights[poller].id, core))
  {
    var v, f := AfterDelivery(w, poller, w.flights[poller].id, core), w.flights[poller];
    assert HeardFlight(w, f);
    forall p | p in v.flights ensures HeardFlight(v, v.flights[p]) {
      assert HeardFlight(w, w.flights[p]) && InReadingOrder(w.unheard, f, w.flights[p]);
    }
    forall p, q | p in v.flights && q in v.flights ensures InReadingOrder(v.unheard, v.flights[p], v.flights[q]) {
      assert InReadingOrder(w.unheard, w.flights[p], w.flights[q]);
    }
    forall id ensures HeardOf(v, id) { assert HeardOf(w, id); }
  }

  lemma DeliverySettles(w: World, f: Flight, accounts: set<string>)
    requires SoundCores(w.cores, w.adapter) && Inv(w.adapter) && SoundFlight(w, f)
    ensures Tracks(f.id, Delivered(w.cores[f.id], accounts, f), w.adapter.refunds, SentOf(w.adapter.sent, f.id))
    ensures Settles(w, f, Delivered(w.cores[f.id], accounts, f))
  {
    var core, log := w.cores[f.id], SentOf(w.adapter.sent, f.id);
    RefundIsSound(w.adapter, f.id);
    CoreTracks(w, f.id);
    DeliveryKeepsTracks(f.id, core, w.adapter.refunds, log, accounts, f);
    PastReportSettles(f.id, core, w.adapter.refunds, log, f.report, accounts);
  }

  lemma MoveKeepsWorld(w: World, m: Move)
    requires WorldInv(w)
    ensures WorldInv(NextWorld(w, m))
  {
    match m
    case OnCheckout(id, step) => if !step.Insert? || step.created.id == id { CheckoutKeepsWorld(w, id, step); }
    case Open(id, core) => OpenKeepsWorld(w, id, core);
    case Init(caller, id) =>
      if id in w.cores { AdapterKeepsWorld(w, Reserve(caller, RequestFor(id, w.cores[id]))); }
    case OnRefund(step) => if !step.Reserve? { AdapterKeepsWorld(w, step); }
    case Ask(poller, id) => if id in w.cores && HasRefund(w.adapter.refunds, id) { AskMoveKeepsWorld(w, poller, id); }
    case Deliver(poller, accounts) =>
      if poller in w.flights && w.flights[poller].id in w.cores { DeliverMoveKeepsWorld(w, poller, accounts); }
  }

  lemma AskMoveKeepsWorld(w: World, poller: string, id: string)
    requires WorldInv(w) && id in w.cores && HasRefund(w.adapter.refunds, id)
    ensures WorldInv(AfterAsk(w, poller, Flight(id, Check(Get(w.adapter.refunds, id)), w.asked)))
  {
    AnswerIsSound(w, id);
    AskKeepsWorld(w, poller, Flight(id, Check(Get(w.adapter.refunds, id)), w.asked));
  }

  lemma DeliverMoveKeepsWorld(w: World, poller: string, accounts: set<string>)
    requires WorldInv(w) && poller in w.flights && w.flights[poller].id in w.cores
    ensures var f := w.flights[poller];
      WorldInv(AfterDelivery(w, poller, f.id, Delivered(w.cores[f.id], accounts, f)))
  {
    var f := w.flights[poller];
    assert SoundFlight(w, f);
    DeliverySettles(w, f, accounts);
    DeliverKeepsWorld(w, poller, Delivered(w.cores[f.id], accounts, f));
  }

  lemma {:induction false} RunKeepsWorld(moves: seq<Move>)
    ensures WorldInv(RunWorld(moves))
  {
    if moves == [] {
      InitialIsSound();
    } else {
      RunKeepsWorld(moves[..|moves| - 1]);
      MoveKeepsWorld(RunWorld(moves[..|moves| - 1]), moves[|moves| - 1]);
    }
  }

  // ---- The theorems

  /**
   The adapter refines what the core demands: at any point of any run of the whole system, as long as no stored success
   of the refund went unheard, an answer that was read after every answer settled so far is never a conflict, and is
   accepted whenever the accounts of its rounding entries exist; the core then has exactly its lines and its status.
   */
  lemma AdapterRefinesCore(moves: seq<Move>, poller: string, accounts: set<string>)
    requires poller in RunWorld(moves).flights
    requires var w := RunWorld(moves); var f := w.flights[poller];
      f.id !in w.unheard && f.id in w.cores && w.cores[f.id].latest <= f.at
    ensures var w := RunWorld(moves); var f := w.flights[poller]; var core := w.cores[f.id];
      var after := SettleReport(core, accounts, f.report);
      && f.report.settlements.Some? && after != Failure(Conflict)
      && (CanPost(core.book.operation, core.d.(accounts := accounts)) || NoRounding(core.book.operation.plan) ==>
            && after.Success?
            && after.value.operation.settled == SettlementIds(f.report.settlements.value)
            && Some(after.value.operation.status) == f.report.status)
  {
    RunKeepsWorld(moves);
    var w := RunWorld(moves);
    var f := w.flights[poller];
    assert SoundFlight(w, f) && HeardFlight(w, f);
    FlightSettles(w, f, accounts);
  }

  lemma FlightSettles(w: World, f: Flight, accounts: set<string>)
    requires WorldInv(w) && SoundFlight(w, f)
    ensures var core := w.cores[f.id]; var op := core.book.operation; var j := |f.report.settlements.value|;
      var after := SettleReport(core, accounts, f.report);
      && (after == Failure(Conflict) <==> j < |op.settled|)
      && (after.Success? ==>
            && after.value.operation.settled == SettlementIds(f.report.settlements.value)
            && after.value.operation.status == f.report.status.value)
      && (CanPost(op, core.d.(accounts := accounts)) || NoRounding(op.plan) ==> (after.Success? <==> |op.settled| <= j))
      && (|op.settled| <= j <==>
            && !LosesLines(op, f.report.settlements.value)
            && !(op.status == COMPLETED && f.report.status.value != COMPLETED))
  {
    var core, log := w.cores[f.id], SentOf(w.adapter.sent, f.id);
    assert Tracks(f.id, core, w.adapter.refunds, log) && SoundRefund(Get(w.adapter.refunds, f.id), log);
    PastReportSettles(f.id, core, w.adapter.refunds, log, f.report, accounts);
    ReportIsWellFormed(f.id, core, w.adapter.refunds, log, f.report);
    PaidIds(core.book.operation.plan, |f.report.settlements.value|);
  }

  /**
   Any answer, however delayed and whatever was settled since it was read: it is accepted (given those accounts) if and
   only if it lists every line settled by now and does not take COMPLETED back, which is to say it lists no fewer lines
   than are settled; otherwise it is refused as a conflict.
   */
  lemma DelayedAnswer(moves: seq<Move>, poller: string, accounts: set<string>)
    requires poller in RunWorld(moves).flights
    ensures var w := RunWorld(moves); var f := w.flights[poller];
      && f.id in w.cores && f.report.settlements.Some? && f.report.status.Some?
      && var core := w.cores[f.id]; var op := core.book.operation;
         var after := SettleReport(core, accounts, f.report);
         var keeps := !LosesLines(op, f.report.settlements.value)
           && !(op.status == COMPLETED && f.report.status.value != COMPLETED);
         && (keeps <==> |op.settled| <= |f.report.settlements.value|)
         && (after == Failure(Conflict) <==> !keeps)
         && (CanPost(op, core.d.(accounts := accounts)) || NoRounding(op.plan) ==> (after.Success? <==> keeps))
  {
    RunKeepsWorld(moves);
    var w := RunWorld(moves);
    assert SoundFlight(w, w.flights[poller]);
    FlightSettles(w, w.flights[poller], accounts);
  }

  /** One unheard success is reported, settled and taken back, and the refund is asked about again. */
  function UnheardMoves(caller: string, id: string, poller: string, accounts: set<string>): seq<Move> {
    [OnRefund(Persist(caller, Unheard)), Ask(poller, id), Deliver(poller, accounts), OnRefund(Stop(caller)),
     Ask(poller, id)]
  }

  /**
   The condition on stored successes is exact: from any point of any run at which a call is about to store one, the call
   not hearing of it can lead to an answer read after all that were settled, and yet refused as a conflict.
   */
  lemma UnheardSuccessCanConflict(moves: seq<Move>, caller: string, poller: string, accounts: set<string>)
    requires PhaseOf(RunWorld(moves).adapter, caller).Accepted?
    ensures var w := RunWorld(moves); var id := PhaseOf(w.adapter, caller).id;
      && id in w.cores
      && (CanPost(w.cores[id].book.operation, w.cores[id].d.(accounts := accounts))
          || NoRounding(w.cores[id].book.operation.plan) ==>
            var v := RunWorld(moves + UnheardMoves(caller, id, poller, accounts));
            && poller in v.flights && v.flights[poller].id == id && id in v.cores
            && v.cores[id].latest <= v.flights[poller].at
            && SettleReport(v.cores[id], accounts, v.flights[poller].report) == Failure(Conflict))
  {
    RunKeepsWorld(moves);
    var w := RunWorld(moves);
    var id := PhaseOf(w.adapter, caller).id;
    AcceptedIsSound(w.adapter, caller);
    CoreTracks(w, id);
    if CanPost(w.cores[id].book.operation, w.cores[id].d.(accounts := accounts))
       || NoRounding(w.cores[id].book.operation.plan) {
      UnheardRefuses(SourcesOf(w), w.adapter, caller, w.cores[id], accounts, w.asked);
      UnheardRun(moves, caller, id, poller, accounts);
    }
  }

  lemma AcceptedIsSound(s: State, caller: string)
    requires Inv(s) && PhaseOf(s, caller).Accepted?
    ensures var p := PhaseOf(s, caller);
      HasRefund(s.refunds, p.id) && Acceptances(SentOf(s.sent, p.id)) == p.next + 1
  {
    assert CallerFits(s, PhaseOf(s, caller));
  }

  /** An operation not ahead of what is stored catches up with the answer it asks for. */
  lemma CatchesUp(id: string, core: Core, refunds: seq<Refund>, log: seq<Sent>, accounts: set<string>, at: nat)
    requires HasRefund(refunds, id) && Tracks(id, core, refunds, log) && SoundRefund(Get(refunds, id), log)
    requires CanPost(core.book.operation, core.d.(accounts := accounts)) || NoRounding(core.book.operation.plan)
    requires |core.book.operation.settled| <= Progress(Get(refunds, id).lines)
    ensures var after := Delivered(core, accounts, Flight(id, Check(Get(refunds, id)), at));
      Tracks(id, after, refunds, log) && |after.book.operation.settled| == Progress(Get(refunds, id).lines)
  {
    var r := Get(refunds, id);
    FreshIsPast(r, log);
    PastReportSettles(id, core, refunds, log, Check(r), accounts);
    DeliveryKeepsTracks(id, core, refunds, log, accounts, Flight(id, Check(r), at));
    assert |Plans(r.lines)| == |r.lines|;
  }

  /** One that is ahead of what is stored refuses every answer. */
  lemma AheadRefuses(id: string, core: Core, refunds: seq<Refund>, log: seq<Sent>, accounts: set<string>)
    requires HasRefund(refunds, id) && Tracks(id, core, refunds, log) && SoundRefund(Get(refunds, id), log)
    requires Progress(Get(refunds, id).lines) < |core.book.operation.settled|
    ensures SettleReport(core, accounts, Check(Get(refunds, id))) == Failure(Conflict)
  {
    FreshIsPast(Get(refunds, id), log);
    PastReportSettles(id, core, refunds, log, Check(Get(refunds, id)), accounts);
  }

  lemma UnheardRefuses(
    sources: Sources, s: State, caller: string, core: Core, accounts: set<string>, at: nat)
    requires Inv(s) && PhaseOf(s, caller).Accepted?
    requires var id := PhaseOf(s, caller).id; Tracks(id, core, s.refunds, SentOf(s.sent, id))
    requires CanPost(core.book.operation, core.d.(accounts := accounts)) || NoRounding(core.book.operation.plan)
    ensures var id := PhaseOf(s, caller).id;
      var stored := Next(sources, s, Persist(caller, Unheard)); var back := Next(sources, stored, Stop(caller));
      && HasRefund(stored.refunds, id) && HasRefund(back.refunds, id)
      && var settled := Delivered(core, accounts, Flight(id, Check(Get(stored.refunds, id)), at));
         SettleReport(settled, accounts, Check(Get(back.refunds, id))) == Failure(Conflict)
  {
    var id, step := PhaseOf(s, caller).id, Persist(caller, Unheard);
    var stored := Next(sources, s, step);
    var back := Next(sources, stored, Stop(caller));
    AcceptedIsSound(s, caller);
    UnheardIsStored(sources, s, step, id);
    UnheardShrinks(sources, s, step, id);
    StepKeepsInv(sources, s, step);
    StepKeepsInv(sources, stored, Stop(caller));
    StepTracks(sources, s, step, id, core);
    RefundIsSound(stored, id);
    RefundIsSound(back, id);
    CatchesUp(id, core, stored.refunds, SentOf(stored.sent, id), accounts, at);
    var settled := Delivered(core, accounts, Flight(id, Check(Get(stored.refunds, id)), at));
    StepTracks(sources, stored, Stop(caller), id, settled);
    ReportLength(stored, id);
    ReportLength(back, id);
    AheadRefuses(id, settled, back.refunds, SentOf(back.sent, id), accounts);
  }

  lemma StepTracks(sources: Sources, s: State, step: Step, id: string, core: Core)
    requires Inv(s) && HasRefund(s.refunds, id) && Tracks(id, core, s.refunds, SentOf(s.sent, id))
    ensures var t := Next(sources, s, step);
      HasRefund(t.refunds, id) && Tracks(id, core, t.refunds, SentOf(t.sent, id))
  {
    var t := Next(sources, s, step);
    StepAdvances(sources, s, step, id);
    FollowingTracks(id, core, s.refunds, SentOf(s.sent, id), t.refunds, SentOf(t.sent, id));
  }

  /** What a move of the adapter, an asking and a settlement make of a world. */
  predicate StepsTo(w: World, step: Step, v: World) {
    && v.adapter == Next(SourcesOf(w), w.adapter, step) && v.checkouts == w.checkouts
    && v.cores == w.cores && v.flights == w.flights && v.asked == w.asked
  }

  predicate AsksTo(w: World, poller: string, id: string, v: World) {
    && HasRefund(w.adapter.refunds, id) && poller in v.flights
    && v.flights[poller] == Flight(id, Check(Get(w.adapter.refunds, id)), w.asked)
    && v.adapter == w.adapter && v.checkouts == w.checkouts && v.cores == w.cores && v.asked == w.asked + 1
  }

  predicate DeliversTo(w: World, poller: string, accounts: set<string>, v: World) {
    && poller in w.flights
    && var f := w.flights[poller];
       && f.id in w.cores && f.id in v.cores && v.cores[f.id] == Delivered(w.cores[f.id], accounts, f)
       && v.adapter == w.adapter && v.checkouts == w.checkouts && v.asked == w.asked
  }

  predicate Leads(w: World, m: Move, v: World) {
    match m
    case OnRefund(step) => step.Reserve? || StepsTo(w, step, v)
    case Ask(poller, id) => id in w.cores && HasRefund(w.adapter.refunds, id) ==> AsksTo(w, poller, id, v)
    case Deliver(poller, accounts) =>
      poller in w.flights && w.flights[poller].id in w.cores ==> DeliversTo(w, poller, accounts, v)
    case _ => true
  }

  lemma MoveLeads(w: World, m: Move)
    ensures Leads(w, m, NextWorld(w, m))
  {
  }

  /** The worlds a run passes through from some point on. */
  lemma {:induction false} WorldsOnward(moves: seq<Move>, m: seq<Move>) returns (worlds: seq<World>)
    ensures |worlds| == |m| + 1 && worlds[0] == RunWorld(moves) && worlds[|m|] == RunWorld(moves + m)
    ensures forall k :: 0 <= k < |m| ==> Leads(worlds[k], m[k], worlds[k + 1])
  {
    if m == [] {
      assert moves + m == moves;
      worlds := [RunWorld(moves)];
    } else {
      var n := |m| - 1;
      worlds := WorldsOnward(moves, m[..n]);
      assert (moves + m)[..|moves + m| - 1] == moves + m[..n];
      MoveLeads(worlds[n], m[n]);
      worlds := worlds + [RunWorld(moves + m)];
    }
  }

  predicate UnheardIsKept(w: World, caller: string, id: string) {
    var stored := Next(SourcesOf(w), w.adapter, Persist(caller, Unheard));
    HasRefund(stored.refunds, id) && HasRefund(Next(SourcesOf(w), stored, Stop(caller)).refunds, id)
  }

  /** The refund as it was stored and then taken back, the first settled and the second in flight. */
  predicate UnheardLeads(w: World, caller: string, id: string, poller: string, accounts: set<string>, v: World) {
    var stored := Next(SourcesOf(w), w.adapter, Persist(caller, Unheard));
    var back := Next(SourcesOf(w), stored, Stop(caller));
    && id in w.cores && id in v.cores && HasRefund(stored.refunds, id) && HasRefund(back.refunds, id)
    && v.cores[id] == Delivered(w.cores[id], accounts, Flight(id, Check(Get(stored.refunds, id)), w.asked))
    && v.cores[id].latest <= w.asked + 1
    && poller in v.flights && v.flights[poller] == Flight(id, Check(Get(back.refunds, id)), w.asked + 1)
  }

  lemma FourLead(w0: World, w1: World, w2: World, w3: World, w4: World,
                 caller: string, id: string, poller: string, accounts: set<string>)
    requires id in w0.cores && w0.cores[id].latest <= w0.asked
    requires StepsTo(w0, Persist(caller, Unheard), w1) && AsksTo(w1, poller, id, w2)
    requires DeliversTo(w2, poller, accounts, w3) && StepsTo(w3, Stop(caller), w4)
    ensures id in w4.cores && w4.cores[id].latest <= w0.asked && w4.asked == w0.asked + 1
    ensures w4.cores[id]
         == Delivered(w0.cores[id], accounts, Flight(id, Check(Get(w1.adapter.refunds, id)), w0.asked))
    ensures w1.adapter == Next(SourcesOf(w0), w0.adapter, Persist(caller, Unheard))
    ensures w4.adapter == Next(SourcesOf(w0), w1.adapter, Stop(caller))
  {
    SameSources(w0, w3);
  }

  lemma SameSources(w: World, v: World)
    requires v.checkouts == w.checkouts
    ensures SourcesOf(v) == SourcesOf(w)
  {
  }

  /** Where those moves lead. */
  lemma UnheardRun(moves: seq<Move>, caller: string, id: string, poller: string, accounts: set<string>)
    requires var w := RunWorld(moves); id in w.cores && w.cores[id].latest <= w.asked
    requires UnheardIsKept(RunWorld(moves), caller, id)
    ensures UnheardLeads(RunWorld(moves), caller, id, poller, accounts,
                         RunWorld(moves + UnheardMoves(caller, id, poller, accounts)))
  {
    var worlds := WorldsOnward(moves, UnheardMoves(caller, id, poller, accounts));
    FiveLead(worlds, caller, id, poller, accounts);
  }

  lemma FiveLead(worlds: seq<World>, caller: string, id: string, poller: string, accounts: set<string>)
    requires |worlds| == 6 && id in worlds[0].cores && worlds[0].cores[id].latest <= worlds[0].asked
    requires UnheardIsKept(worlds[0], caller, id)
    requires var m := UnheardMoves(caller, id, poller, accounts);
      forall k :: 0 <= k < 5 ==> Leads(worlds[k], m[k], worlds[k + 1])
    ensures UnheardLeads(worlds[0], caller, id, poller, accounts, worlds[5])
  {
    var m := UnheardMoves(caller, id, poller, accounts);
    assert Leads(worlds[0], m[0], worlds[1]) && Leads(worlds[1], m[1], worlds[2]) && Leads(worlds[2], m[2], worlds[3]);
    assert Leads(worlds[3], m[3], worlds[4]) && Leads(worlds[4], m[4], worlds[5]);
    FourLead(worlds[0], worlds[1], worlds[2], worlds[3], worlds[4], caller, id, poller, accounts);
  }

  /** The provider amounts of the submissions of a refund that the provider accepted. */
  function PaidBack(r: Refund, log: seq<Sent>): int {
    if log == [] then 0
    else
      var m := log[|log| - 1];
      PaidBack(r, log[..|log| - 1])
      + if m.outcome == Accept && m.line < |r.lines| then r.lines[m.line].plan.provider else 0
  }

  lemma {:induction false} AllAccepted(r: Refund, log: seq<Sent>)
    requires |log| <= |r.lines| && forall k :: 0 <= k < |log| ==> log[k].line == k && log[k].outcome == Accept
    ensures PaidBack(r, log) == Total(ProviderPairs(Plans(r.lines))[..|log|])
  {
    if log != [] {
      var n, pairs := |log| - 1, ProviderPairs(Plans(r.lines));
      AllAccepted(r, log[..n]);
      assert pairs[..n + 1] == pairs[..n] + [pairs[n]];
      TotalConcat(pairs[..n], [pairs[n]]);
    }
  }

  lemma {:induction false} NoneAccepted(r: Refund, log: seq<Sent>)
    requires forall k :: 0 <= k < |log| ==> log[k].outcome != Accept
    ensures PaidBack(r, log) == 0
  {
    if log != [] { NoneAccepted(r, log[..|log| - 1]); }
  }

  /**
   End to end, at any point of any run, whatever order answers arrive in: the rounding entries of a refund balance;
   every line the core has settled was sent once and accepted by the provider; the customer's rounding is provider
   minus nominal over those lines; while the core says COMPLETED, nominal amount and rounding together are what the
   provider accepted to pay back; and while it says FAILED there are no entries, and the provider has accepted nothing.
   */
  lemma RefundIsConservedEndToEnd(moves: seq<Move>, id: string)
    requires id in RunWorld(moves).cores && HasRefund(RunWorld(moves).adapter.refunds, id)
    ensures var w := RunWorld(moves);
      Conserved(id, w.cores[id], Get(w.adapter.refunds, id), SentOf(w.adapter.sent, id))
  {
    RunKeepsWorld(moves);
    var w := RunWorld(moves);
    CoreTracks(w, id);
    RefundIsSound(w.adapter, id);
    SentOfIsOwn(w.adapter.sent, id);
    TrackedIsConserved(id, w.cores[id], w.adapter.refunds, SentOf(w.adapter.sent, id));
  }

  predicate Conserved(id: string, core: Core, r: Refund, log: seq<Sent>) {
    var op, net := core.book.operation, Net(core.book.ledger, core.d.customer);
    && Net(core.book.ledger, None) == 0 && net == Difference(op.plan, op.settled)
    && SettledWereAccepted(id, op, r, log)
    && (op.status == COMPLETED ==> op.amount + net == PaidBack(r, log))
    && (op.status == FAILED ==> core.book.ledger == [] && PaidBack(r, log) == 0)
  }

  predicate SettledWereAccepted(id: string, op: Operation, r: Refund, log: seq<Sent>) {
    && |op.settled| <= |log| <= |r.lines| == |op.plan|
    && forall k :: 0 <= k < |op.settled| ==>
         log[k] == Sent(id, k, Accept) && op.settled[k] == op.plan[k].itemId && r.lines[k].plan == op.plan[k]
  }

  lemma SettledAreAccepted(id: string, op: Operation, r: Refund, log: seq<Sent>)
    requires SoundRefund(r, log) && Behind(op, r, log) && forall k :: 0 <= k < |log| ==> log[k].refundId == id
    ensures SettledWereAccepted(id, op, r, log)
  {
    assert |Plans(r.lines)| == |r.lines|;
    AcceptedSoFar(r, log);
    forall k | 0 <= k < |op.settled| ensures op.settled[k] == op.plan[k].itemId {
      assert op.settled[k] == ItemIds(op.plan)[k];
    }
  }

  /** Once the core says COMPLETED or FAILED, what the provider accepted is the whole plan or nothing. */
  lemma EndedIsPaid(op: Operation, r: Refund, log: seq<Sent>)
    requires SoundRefund(r, log) && Behind(op, r, log)
    ensures op.status == COMPLETED ==> PaidBack(r, log) == Provided(op.plan)
    ensures op.status == FAILED ==> PaidBack(r, log) == 0
  {
    assert |Plans(r.lines)| == |r.lines|;
    AcceptedSoFar(r, log);
    if op.status == COMPLETED {
      AllAccepted(r, log);
      assert ProviderPairs(op.plan)[..|log|] == ProviderPairs(op.plan);
    }
    if op.status == FAILED {
      ProgressIs(r.lines, 0);
      NoneAccepted(r, log);
    }
  }

  lemma TrackedIsConserved(id: string, core: Core, refunds: seq<Refund>, log: seq<Sent>)
    requires HasRefund(refunds, id) && Tracks(id, core, refunds, log) && SoundRefund(Get(refunds, id), log)
    requires forall k :: 0 <= k < |log| ==> log[k].refundId == id
    ensures Conserved(id, core, Get(refunds, id), log)
  {
    ConsistentConserves(core.book, core.d.customer);
    SettledAreAccepted(id, core.book.operation, Get(refunds, id), log);
    EndedIsPaid(core.book.operation, Get(refunds, id), log);
  }

  /**
   At any point of any run: the customer's rounding stays within what the mode allows the settled lines, one by one, and
   what the provider accepted for a completed operation is as close to its amount. The plan is the one `Prepare` made
   under the mode of the operation.
   */
  lemma RoundingIsBounded(moves: seq<Move>, id: string)
    requires var w := RunWorld(moves);
      id in w.cores && RoundedUnder(w.cores[id].book.operation.plan, w.cores[id].mode)
    ensures var w := RunWorld(moves); var core := w.cores[id];
      var op, net, n := core.book.operation, Net(core.book.ledger, core.d.customer), |core.book.operation.settled|;
      && n <= |op.plan| && Least(core.mode, n) <= net <= Greatest(core.mode, n)
      && (op.status == COMPLETED ==>
            && n == |op.plan| && HasRefund(w.adapter.refunds, id)
            && var paid := PaidBack(Get(w.adapter.refunds, id), SentOf(w.adapter.sent, id));
               Least(core.mode, n) <= paid - op.amount <= Greatest(core.mode, n))
  {
    RunKeepsWorld(moves);
    var w := RunWorld(moves);
    CoreTracks(w, id);
    BookExposure(w.cores[id].book, w.cores[id].d.customer, w.cores[id].mode);
    if HasRefund(w.adapter.refunds, id) { RefundIsConservedEndToEnd(moves, id); }
  }

  /**
   At any point of any run, over all refunds, callers and crashes: what was ever submitted against a completed
   checkout stays within the paid price of each item, out of that item's own transaction, and within the captured amount
   in all, and what was reserved nominally within the price of each item.
   */
  lemma CheckoutIsNeverOverRefunded(moves: seq<Move>, id: string)
    requires Completed(SourcesOf(RunWorld(moves)), id)
    ensures var w := RunWorld(moves); var source := SourcesOf(w)[id]; var s := w.adapter;
      && source.transactions.Some?
      && (forall k :: 0 <= k < |source.transactions.value| ==>
            var t := source.transactions.value[k];
            && TotalFor(SubmittedTo(s.refunds, s.sent, id), t.transactionId)
               == TotalFor(Submitted(s.refunds, s.sent, id), t.itemId) <= t.paidPrice
            && TotalFor(NominalReserved(s.refunds, id), t.itemId) <= t.price)
      && Total(Submitted(s.refunds, s.sent, id)) <= source.amount
      && Total(NominalReserved(s.refunds, id)) <= source.amount
  {
    RunKeepsWorld(moves);
    var w := RunWorld(moves);
    SourcesAreSound(w);
    NeverOverRefunded(SourcesOf(w), w.adapter, id);
  }

  /** Every line is to be paid out of a transaction of the checkout that was for its item, and each out of its own. */
  predicate PaidFromOwn(source: Form.Checkout, lines: seq<Line>) {
    && source.transactions.Some?
    && (forall k :: 0 <= k < |lines| ==> LineAttributed(source.transactions.value, lines[k]))
    && forall i, j :: 0 <= i < j < |lines| ==> lines[i].transactionId != lines[j].transactionId
  }

  /** So it is at any point of any run, for every line of every refund. */
  lemma LinesArePaidFromTheirOwn(moves: seq<Move>, id: string)
    requires HasRefund(RunWorld(moves).adapter.refunds, id)
    ensures var w := RunWorld(moves); var r := Get(w.adapter.refunds, id);
      Completed(SourcesOf(w), r.sourceId) && PaidFromOwn(SourcesOf(w)[r.sourceId], r.lines)
  {
    RunKeepsWorld(moves);
    var w := RunWorld(moves);
    SourcesAreSound(w);
    OwnTransactions(SourcesOf(w), w.adapter, id);
  }

  lemma OwnTransactions(sources: Sources, s: State, id: string)
    requires SoundSources(sources) && Inv(s) && Within(sources, s.refunds) && HasRefund(s.refunds, id)
    ensures var r := Get(s.refunds, id);
      Completed(sources, r.sourceId) && PaidFromOwn(sources[r.sourceId], r.lines)
  {
    var r := Get(s.refunds, id);
    GetIsAttributed(sources, s.refunds, id);
    RefundIsSound(s, id);
    assert Completed(sources, s.refunds[Index(s.refunds, id)].sourceId);
    assert Form.SoundRow(sources[r.sourceId]);
    forall i, j | 0 <= i < j < |r.lines| ensures r.lines[i].transactionId != r.lines[j].transactionId {
      LinesHaveOwnTransactions(sources, r, i, j);
    }
  }
}
