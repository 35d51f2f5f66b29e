/**
 Settling a planned refund: the channel reports which plan lines were paid back, and each newly settled line whose
 provider amount differs from its nominal amount posts a pair of rounding entries.
 */
module RefundSettlement {
  import opened Wrappers
  import opened Sums
  import opened RefundSplit
  import opened RefundPlan

  datatype Side = CREDIT | DEBIT

  /** A rounding row of the account ledger; the pair of one line shares its correlation. */
  datatype Entry = Entry(
    correlation: nat, account: string, operationId: string, itemId: string, side: Side, amount: int)

  datatype Settlement = Settlement(itemId: string, provider: int)

  /** A status answer of the channel; absent parts are those the code finds missing or malformed. */
  datatype Report = Report(
    channelId: string, channelOperationId: string, status: Option<OperationStatus>,
    settlements: Option<seq<Settlement>>)

  datatype Operation = Operation(
    id: string, paymentId: string, channelId: string, channelOperationId: Option<string>, amount: int,
    status: OperationStatus, plan: seq<PlanLine>, roundingAccount: Option<string>, settled: seq<string>)

  /** The stored operation and its rounding entries. */
  datatype Book = Book(operation: Operation, ledger: seq<Entry>)

  /** What the service looks up: the customer of the refund payment and the accounts that exist. */
  datatype Directory = Directory(paymentId: string, customer: Option<string>, accounts: set<string>)

  // ---- The checks

  function SettlementIds(settlements: seq<Settlement>): (ids: seq<string>)
    ensures |ids| == |settlements| && forall k :: 0 <= k < |ids| ==> ids[k] == settlements[k].itemId
  {
    seq(|settlements|, k requires 0 <= k < |settlements| => settlements[k].itemId)
  }

  predicate WellFormed(op: Operation, paymentId: string, report: Report) {
    && report.settlements.Some? && report.status.Some?
    && report.channelId == op.channelId
    && report.channelOperationId != ""
    && (op.channelOperationId.Some? ==> report.channelOperationId == op.channelOperationId.value)
    && op.paymentId == paymentId
    && Distinct(SettlementIds(report.settlements.value))
    && Nominal(op.plan) == op.amount
    && (report.status.value == COMPLETED ==> |report.settlements.value| == |op.plan|)
    && (report.status.value == FAILED ==> report.settlements.value == [])
  }

  predicate LosesLines(op: Operation, settlements: seq<Settlement>) {
    exists k :: 0 <= k < |op.settled| && op.settled[k] !in SettlementIds(settlements)
  }

  function FindLine(plan: seq<PlanLine>, itemId: string): (r: Option<PlanLine>)
    ensures r.Some? ==> r.value in plan && r.value.itemId == itemId
    ensures r.None? <==> itemId !in ItemIds(plan)
  {
    if plan == [] then None
    else
      assert Keys(NominalPairs(plan))[0] == plan[0].itemId;
      assert Keys(NominalPairs(plan))[1..] == Keys(NominalPairs(plan[1..]));
      if plan[0].itemId == itemId then Some(plan[0]) else FindLine(plan[1..], itemId)
  }

  /** Both counterparties of a rounding entry are known, distinct and existing. */
  predicate CanPost(op: Operation, d: Directory) {
    && op.roundingAccount.Some? && d.customer.Some? && d.customer.value != ""
    && d.customer.value != op.roundingAccount.value
    && d.customer.value in d.accounts && op.roundingAccount.value in d.accounts
  }

  // ---- The postings

  /** The pair for one line: the customer is credited what the provider paid above nominal, or debited the shortfall. */
  function PairFor(op: Operation, customer: Option<string>, line: PlanLine, correlation: nat): seq<Entry> {
    var difference := line.provider - line.nominal;
    if difference == 0 || op.roundingAccount.None? || customer.None? then []
    else if difference > 0 then
      [Entry(correlation, customer.value, op.id, line.itemId, CREDIT, difference),
       Entry(correlation, op.roundingAccount.value, op.id, line.itemId, DEBIT, difference)]
    else
      [Entry(correlation, customer.value, op.id, line.itemId, DEBIT, -difference),
       Entry(correlation, op.roundingAccount.value, op.id, line.itemId, CREDIT, -difference)]
  }

  /** The loop over the reported lines. */
  function Post(op: Operation, d: Directory, todo: seq<Settlement>, settled: seq<string>, ledger: seq<Entry>)
    : Result<(seq<string>, seq<Entry>)>
  {
    if todo == [] then Success((settled, ledger))
    else
      var line := FindLine(op.plan, todo[0].itemId);
      if line.None? || todo[0].provider != line.value.provider then Failure(BadRequest)
      else if line.value.itemId in settled then Post(op, d, todo[1..], settled, ledger)
      else if line.value.provider != line.value.nominal && !CanPost(op, d) then Failure(BadRequest)
      else Post(op, d, todo[1..], settled + [line.value.itemId],
                ledger + PairFor(op, d.customer, line.value, |ledger|))
  }

  /** One report against the stored operation: the new book, or the exception that rolls the transaction back. */
  function Settle(book: Book, d: Directory, report: Report): Result<Book> {
    var op := book.operation;
    if !WellFormed(op, d.paymentId, report) then Failure(BadRequest)
    else if op.status == COMPLETED && report.status.value != COMPLETED then Failure(Conflict)
    else if LosesLines(op, report.settlements.value) then Failure(Conflict)
    else
      match Post(op, d, report.settlements.value, op.settled, book.ledger)
      case Failure(e) => Failure(e)
      case Success((settled, ledger)) =>
        Success(Book(op.(channelOperationId := Some(report.channelOperationId), status := report.status.value,
                         settled := settled), ledger))
  }

  class SettlementStore {
    var operation: Operation
    var ledger: seq<Entry>

    constructor (operation: Operation)
      ensures this.operation == operation && ledger == []
    {
      this.operation, ledger := operation, [];
    }

    /** `saveRefundSettlementRecord`: one transaction, whose writes take effect together or not at all. */
    method SaveRefundSettlementRecord(d: Directory, report: Report) returns (r: Result<()>)
      modifies this
      ensures var after := Settle(Book(old(operation), old(ledger)), d, report);
        match after
        case Failure(e) => r == Failure(e) && operation == old(operation) && ledger == old(ledger)
        case Success(book) => r == Success(()) && Book(operation, ledger) == book
    {
      var op := operation;
      if !WellFormed(op, d.paymentId, report) {
        return Failure(BadRequest);
      }
      var settlements := report.settlements.value;
      if op.status == COMPLETED && report.status.value != COMPLETED {
        return Failure(Conflict);
      }
      if LosesLines(op, settlements) {
        return Failure(Conflict);
      }
      var settled, entries := op.settled, ledger;
      assert settlements[0..] == settlements;
      for i := 0 to |settlements|
        invariant operation == old(operation) && ledger == old(ledger)
        invariant Post(op, d, settlements, op.settled, ledger) == Post(op, d, settlements[i..], settled, entries)
      {
        assert settlements[i..][0] == settlements[i] && settlements[i..][1..] == settlements[i + 1..];
        var line := FindLine(op.plan, settlements[i].itemId);
        if line.None? || settlements[i].provider != line.value.provider {
          return Failure(BadRequest);
        }
        if line.value.itemId !in settled {
          if line.value.provider != line.value.nominal && !CanPost(op, d) {
            return Failure(BadRequest);
          }
          entries := entries + PairFor(op, d.customer, line.value, |entries|);
          settled := settled + [line.value.itemId];
        }
      }
      operation := op.(
        channelOperationId := Some(report.channelOperationId), status := report.status.value, settled := settled);
      ledger := entries;
      return Success(());
    }
  }

  // ---- What every history keeps

  function LineOf(op: Operation, itemId: string): PlanLine
    requires itemId in ItemIds(op.plan)
  {
    FindLine(op.plan, itemId).value
  }

  /** The entries of a list of settled lines, in the order they settled. */
  function Postings(op: Operation, customer: Option<string>, settled: seq<string>): seq<Entry>
    requires forall id :: id in settled ==> id in ItemIds(op.plan)
  {
    if settled == [] then []
    else
      var before := Postings(op, customer, settled[..|settled| - 1]);
      before + PairFor(op, customer, LineOf(op, settled[|settled| - 1]), |before|)
  }

  predicate Counterparties(op: Operation, customer: Option<string>) {
    op.roundingAccount.Some? && customer.Some? && customer.value != op.roundingAccount.value
  }

  predicate SettledSoundly(op: Operation, customer: Option<string>, settled: seq<string>) {
    && Distinct(settled)
    && (forall id :: id in settled ==> id in ItemIds(op.plan))
    && (forall id :: id in settled && LineOf(op, id).provider != LineOf(op, id).nominal ==>
        Counterparties(op, customer))
  }

  predicate Consistent(book: Book, customer: Option<string>) {
    var op := book.operation;
    && Distinct(ItemIds(op.plan))
    && SettledSoundly(op, customer, op.settled)
    && book.ledger == Postings(op, customer, op.settled)
    && (op.status == COMPLETED ==>
          Nominal(op.plan) == op.amount && forall id :: id in ItemIds(op.plan) ==> id in op.settled)
    && (op.status == FAILED ==> op.settled == [])
  }

  /** One more line: it can be booked, and its pair comes last. */
  lemma OneMoreSettled(op: Operation, d: Directory, settled: seq<string>, line: PlanLine)
    requires SettledSoundly(op, d.customer, settled) && line.itemId !in settled
    requires FindLine(op.plan, line.itemId) == Some(line) && (line.provider != line.nominal ==> CanPost(op, d))
    ensures SettledSoundly(op, d.customer, settled + [line.itemId])
    ensures var before := Postings(op, d.customer, settled);
      Postings(op, d.customer, settled + [line.itemId]) == before + PairFor(op, d.customer, line, |before|)
  {
    assert (settled + [line.itemId])[..|settled|] == settled;
  }

  lemma {:induction false} PostKeeps(
    op: Operation, d: Directory, todo: seq<Settlement>, settled: seq<string>, ledger: seq<Entry>)
    requires SettledSoundly(op, d.customer, settled) && ledger == Postings(op, d.customer, settled)
    requires Post(op, d, todo, settled, ledger).Success?
    ensures var (after, entries) := Post(op, d, todo, settled, ledger).value;
      && SettledSoundly(op, d.customer, after) && entries == Postings(op, d.customer, after)
      && settled <= after && ledger <= entries
  {
    if todo != [] {
      var line, rest := FindLine(op.plan, todo[0].itemId).value, todo[1..];
      if line.itemId in settled {
        PostKeeps(op, d, rest, settled, ledger);
      } else {
        OneMoreSettled(op, d, settled, line);
        PostKeeps(op, d, rest, settled + [line.itemId], ledger + PairFor(op, d.customer, line, |ledger|));
      }
    }
  }

  /** What is settled afterwards: what was, and the lines of the report, which are all of the plan. */
  lemma {:induction false} PostSettles(
    op: Operation, d: Directory, todo: seq<Settlement>, settled: seq<string>, ledger: seq<Entry>)
    requires Post(op, d, todo, settled, ledger).Success?
    ensures var after := Post(op, d, todo, settled, ledger).value.0;
      && (forall id :: id in after <==> id in settled || id in SettlementIds(todo))
      && (forall k :: 0 <= k < |todo| ==> todo[k].itemId in ItemIds(op.plan))
  {
    if todo != [] {
      var line, rest := FindLine(op.plan, todo[0].itemId).value, todo[1..];
      assert SettlementIds(todo) == [todo[0].itemId] + SettlementIds(rest);
      if line.itemId in settled {
        PostSettles(op, d, rest, settled, ledger);
      } else {
        PostSettles(op, d, rest, settled + [line.itemId], ledger + PairFor(op, d.customer, line, |ledger|));
      }
      forall k | 0 <= k < |todo| ensures todo[k].itemId in ItemIds(op.plan) {
        if k > 0 { assert todo[k] == rest[k - 1]; }
      }
    }
  }

  lemma {:induction false} PostingsOfSamePlan(
    a: Operation, b: Operation, customer: Option<string>, settled: seq<string>)
    requires a.plan == b.plan && a.id == b.id && a.roundingAccount == b.roundingAccount
    requires forall id :: id in settled ==> id in ItemIds(a.plan)
    ensures Postings(a, customer, settled) == Postings(b, customer, settled)
  {
    if settled != [] {
      var before, id := settled[..|settled| - 1], settled[|settled| - 1];
      assert id in settled;
      PostingsOfSamePlan(a, b, customer, before);
      assert LineOf(a, id) == LineOf(b, id);
    }
  }

  /** An accepted report keeps the book consistent and only ever adds to it. */
  lemma SettleKeeps(book: Book, d: Directory, report: Report)
    requires Consistent(book, d.customer) && Settle(book, d, report).Success?
    ensures var after := Settle(book, d, report).value;
      && Consistent(after, d.customer)
      && book.operation.settled <= after.operation.settled && book.ledger <= after.ledger
      && after.operation.plan == book.operation.plan && after.operation.amount == book.operation.amount
      && (forall id :: id in after.operation.settled <==> id in SettlementIds(report.settlements.value))
  {
    var op, todo := book.operation, report.settlements.value;
    var after := Settle(book, d, report).value;
    PostKeeps(op, d, todo, op.settled, book.ledger);
    PostSettles(op, d, todo, op.settled, book.ledger);
    PostingsOfSamePlan(op, after.operation, d.customer, after.operation.settled);
    var ids := SettlementIds(todo);
    forall id | id in ids ensures id in after.operation.settled && id in ItemIds(op.plan) {
      var k :| 0 <= k < |ids| && ids[k] == id;
      assert todo[k].itemId == id;
    }
    if report.status.value == COMPLETED { DistinctCovers(ids, ItemIds(op.plan)); }
  }

  // ---- Histories: any reports, in any order, accepted or refused

  datatype Delivery = Delivery(accounts: set<string>, report: Report)

  function Receive(book: Book, d: Directory, delivery: Delivery): Book {
    var r := Settle(book, d.(accounts := delivery.accounts), delivery.report);
    if r.Success? then r.value else book
  }

  function History(book: Book, d: Directory, deliveries: seq<Delivery>): Book {
    if deliveries == [] then book
    else Receive(History(book, d, deliveries[..|deliveries| - 1]), d, deliveries[|deliveries| - 1])
  }

  predicate Fresh(book: Book) {
    && Distinct(ItemIds(book.operation.plan))
    && book.operation.settled == [] && book.ledger == [] && book.operation.status == WAITING
  }

  lemma {:induction false} HistoryKeeps(book: Book, d: Directory, deliveries: seq<Delivery>)
    requires Fresh(book)
    ensures var end := History(book, d, deliveries);
      && Consistent(end, d.customer)
      && end.operation.plan == book.operation.plan && end.operation.amount == book.operation.amount
  {
    if deliveries != [] {
      var n := |deliveries| - 1;
      HistoryKeeps(book, d, deliveries[..n]);
      var before := History(book, d, deliveries[..n]);
      var r := Settle(before, d.(accounts := deliveries[n].accounts), deliveries[n].report);
      if r.Success? { SettleKeeps(before, d.(accounts := deliveries[n].accounts), deliveries[n].report); }
    }
  }

  // ---- Balance and conservation

  /** Credits minus debits, over one account or over all of them. */
  function Net(ledger: seq<Entry>, account: Option<string>): int {
    if ledger == [] then 0
    else
      var e := ledger[|ledger| - 1];
      Net(ledger[..|ledger| - 1], account)
      + (if account.Some? && e.account != account.value then 0 else if e.side == CREDIT then e.amount else -e.amount)
  }

  function Signed(e: Entry): int { if e.side == CREDIT then e.amount else -e.amount }

  lemma NetSnocPair(ledger: seq<Entry>, a: Entry, b: Entry, account: Option<string>)
    ensures Net(ledger + [a, b], account)
         == Net(ledger, account)
            + (if account.Some? && a.account != account.value then 0 else Signed(a))
            + (if account.Some? && b.account != account.value then 0 else Signed(b))
  {
    var all := ledger + [a, b];
    assert all[..|all| - 1] == ledger + [a] && (ledger + [a])[..|ledger|] == ledger;
  }

  /** The pair of a line: its difference on the customer, and the opposite on the rounding account. */
  predicate IsPair(pair: seq<Entry>, op: Operation, customer: Option<string>, line: PlanLine, correlation: nat) {
    && |pair| == 2 && Some(pair[0].account) == customer && Some(pair[1].account) == op.roundingAccount
    && Signed(pair[0]) == line.provider - line.nominal == -Signed(pair[1])
    && forall k :: 0 <= k < 2 ==>
         && pair[k].correlation == correlation && pair[k].operationId == op.id && pair[k].itemId == line.itemId
         && pair[k].amount > 0
  }

  lemma PairIs(op: Operation, customer: Option<string>, line: PlanLine, correlation: nat)
    requires line.provider != line.nominal ==> Counterparties(op, customer)
    ensures var pair := PairFor(op, customer, line, correlation);
      if line.provider == line.nominal then pair == [] else IsPair(pair, op, customer, line, correlation)
  {
  }

  function DifferencePairs(plan: seq<PlanLine>): (ps: seq<Pair>)
    ensures |ps| == |plan| && forall k :: 0 <= k < |plan| ==>
      ps[k] == (plan[k].itemId, plan[k].provider - plan[k].nominal)
  {
    seq(|plan|, k requires 0 <= k < |plan| => (plan[k].itemId, plan[k].provider - plan[k].nominal))
  }

  /** Provider minus nominal over the given lines. */
  function Difference(plan: seq<PlanLine>, settled: seq<string>): int {
    Sum(GroupTotals(DifferencePairs(plan), settled))
  }

  lemma LineDifference(op: Operation, itemId: string)
    requires Distinct(ItemIds(op.plan)) && itemId in ItemIds(op.plan)
    ensures TotalFor(DifferencePairs(op.plan), itemId) == LineOf(op, itemId).provider - LineOf(op, itemId).nominal
  {
    var line := LineOf(op, itemId);
    var pairs := DifferencePairs(op.plan);
    var i :| 0 <= i < |op.plan| && op.plan[i] == line;
    assert Keys(pairs) == ItemIds(op.plan);
    TotalForUnique(pairs, i);
  }

  lemma PairNets(op: Operation, customer: Option<string>, line: PlanLine, ledger: seq<Entry>)
    requires line.provider != line.nominal ==> Counterparties(op, customer)
    ensures var after := ledger + PairFor(op, customer, line, |ledger|); var difference := line.provider - line.nominal;
      && Net(after, None) == Net(ledger, None)
      && (customer.Some? ==> Net(after, customer) == Net(ledger, customer) + difference)
  {
    var pair := PairFor(op, customer, line, |ledger|);
    PairIs(op, customer, line, |ledger|);
    if line.provider == line.nominal {
      assert ledger + pair == ledger;
    } else {
      IsPairNets(op, customer, line, ledger, pair);
    }
  }

  lemma IsPairNets(op: Operation, customer: Option<string>, line: PlanLine, ledger: seq<Entry>, pair: seq<Entry>)
    requires IsPair(pair, op, customer, line, |ledger|) && Counterparties(op, customer)
    ensures Net(ledger + pair, None) == Net(ledger, None)
    ensures Net(ledger + pair, customer) == Net(ledger, customer) + line.provider - line.nominal
  {
    assert pair == [pair[0], pair[1]];
    NetSnocPair(ledger, pair[0], pair[1], None);
    NetSnocPair(ledger, pair[0], pair[1], customer);
  }

  lemma SoundPrefix(op: Operation, customer: Option<string>, settled: seq<string>)
    requires SettledSoundly(op, customer, settled) && settled != []
    ensures SettledSoundly(op, customer, settled[..|settled| - 1])
    ensures var id := settled[|settled| - 1];
      && id in ItemIds(op.plan) && id !in settled[..|settled| - 1]
      && (LineOf(op, id).provider != LineOf(op, id).nominal ==> Counterparties(op, customer))
  {
    var before, id := settled[..|settled| - 1], settled[|settled| - 1];
    assert id in settled;
    forall x | x in before ensures x in settled && x != id { }
  }

  /** The entries balance. */
  lemma {:induction false} PostingsBalance(op: Operation, customer: Option<string>, settled: seq<string>)
    requires SettledSoundly(op, customer, settled)
    ensures Net(Postings(op, customer, settled), None) == 0
  {
    if settled != [] {
      var before, id := settled[..|settled| - 1], settled[|settled| - 1];
      SoundPrefix(op, customer, settled);
      PostingsBalance(op, customer, before);
      PairNets(op, customer, LineOf(op, id), Postings(op, customer, before));
    }
  }

  lemma DifferenceSnoc(op: Operation, before: seq<string>, id: string)
    requires Distinct(ItemIds(op.plan)) && id in ItemIds(op.plan)
    ensures Difference(op.plan, before + [id])
         == Difference(op.plan, before) + LineOf(op, id).provider - LineOf(op, id).nominal
  {
    GroupTotalsSnoc(DifferencePairs(op.plan), before, id);
    LineDifference(op, id);
  }

  /** The customer's side of the entries is exactly what the settled lines differ by. */
  lemma {:induction false} PostingsConserve(op: Operation, customer: Option<string>, settled: seq<string>)
    requires Distinct(ItemIds(op.plan)) && SettledSoundly(op, customer, settled) && customer.Some?
    ensures Net(Postings(op, customer, settled), customer) == Difference(op.plan, settled)
  {
    if settled == [] {
      assert GroupTotals(DifferencePairs(op.plan), settled) == [];
    } else {
      var before, id := settled[..|settled| - 1], settled[|settled| - 1];
      SoundPrefix(op, customer, settled);
      PostingsConserve(op, customer, before);
      assert settled == before + [id];
      DifferenceSnoc(op, before, id);
      PairNets(op, customer, LineOf(op, id), Postings(op, customer, before));
    }
  }

  lemma {:induction false} NoCounterparties(op: Operation, customer: Option<string>, settled: seq<string>)
    requires SettledSoundly(op, customer, settled) && !Counterparties(op, customer)
    ensures Postings(op, customer, settled) == []
  {
    if settled != [] {
      SoundPrefix(op, customer, settled);
      NoCounterparties(op, customer, settled[..|settled| - 1]);
    }
  }

  lemma {:induction false} TwoAccounts(ledger: seq<Entry>, a: string, b: string)
    requires a != b && forall k :: 0 <= k < |ledger| ==> ledger[k].account == a || ledger[k].account == b
    ensures Net(ledger, None) == Net(ledger, Some(a)) + Net(ledger, Some(b))
  {
    if ledger != [] { TwoAccounts(ledger[..|ledger| - 1], a, b); }
  }

  /** Whatever the customer is credited or debited, the rounding account bears. */
  lemma RoundingAccountBears(op: Operation, customer: Option<string>, settled: seq<string>)
    requires SettledSoundly(op, customer, settled) && customer.Some? && op.roundingAccount.Some?
    ensures Net(Postings(op, customer, settled), op.roundingAccount) == -Net(Postings(op, customer, settled), customer)
  {
    var entries := Postings(op, customer, settled);
    if Counterparties(op, customer) {
      PostingsBalance(op, customer, settled);
      EntriesCorrelate(op, customer, settled);
      forall k | 0 <= k < |entries|
        ensures entries[k].account == customer.value || entries[k].account == op.roundingAccount.value {
        assert EntryOf(entries[k], op, customer, settled);
      }
      TwoAccounts(entries, customer.value, op.roundingAccount.value);
    } else {
      NoCounterparties(op, customer, settled);
    }
  }

  function ProviderPairs(plan: seq<PlanLine>): (ps: seq<Pair>)
    ensures |ps| == |plan| && forall k :: 0 <= k < |plan| ==> ps[k] == (plan[k].itemId, plan[k].provider)
  {
    seq(|plan|, k requires 0 <= k < |plan| => (plan[k].itemId, plan[k].provider))
  }

  /** What the provider pays back in all. */
  function Provided(plan: seq<PlanLine>): int { Total(ProviderPairs(plan)) }

  lemma {:induction false} DifferenceOfTotals(plan: seq<PlanLine>)
    ensures Total(DifferencePairs(plan)) == Provided(plan) - Nominal(plan)
  {
    if plan != [] {
      DifferenceOfTotals(plan[1..]);
      assert DifferencePairs(plan)[1..] == DifferencePairs(plan[1..]);
      assert ProviderPairs(plan)[1..] == ProviderPairs(plan[1..]);
      assert NominalPairs(plan)[1..] == NominalPairs(plan[1..]);
    }
  }

  /** What a consistent book says about the money. */
  lemma ConsistentConserves(book: Book, customer: Option<string>)
    requires Consistent(book, customer) && customer.Some?
    ensures var op := book.operation;
      && Net(book.ledger, None) == 0
      && Net(book.ledger, customer) == Difference(op.plan, op.settled)
      && (op.roundingAccount.Some? ==> Net(book.ledger, op.roundingAccount) == -Net(book.ledger, customer))
      && (op.status == COMPLETED ==> op.amount + Net(book.ledger, customer) == Provided(op.plan))
      && (op.status == FAILED ==> book.ledger == [])
  {
    var op := book.operation;
    PostingsBalance(op, customer, op.settled);
    PostingsConserve(op, customer, op.settled);
    if op.roundingAccount.Some? { RoundingAccountBears(op, customer, op.settled); }
    if op.status == COMPLETED {
      assert Keys(DifferencePairs(op.plan)) == ItemIds(op.plan);
      forall k | 0 <= k < |op.plan| ensures DifferencePairs(op.plan)[k].0 in op.settled {
        assert ItemIds(op.plan)[k] in ItemIds(op.plan);
      }
      GroupedTotal(DifferencePairs(op.plan), op.settled);
      DifferenceOfTotals(op.plan);
    }
  }

  /**
   After any history of reports (repeated, stale, partial, refused) the rounding entries balance, the customer's net
   rounding is provider minus nominal over exactly the settled lines, the rounding account bears just that, and a
   completed refund has moved, nominal amount and rounding together, what the provider paid back.
   */
  lemma RefundConservation(book: Book, d: Directory, deliveries: seq<Delivery>)
    requires Fresh(book) && d.customer.Some?
    ensures var end := History(book, d, deliveries); var op := end.operation;
      && Net(end.ledger, None) == 0
      && Net(end.ledger, d.customer) == Difference(op.plan, op.settled)
      && (op.roundingAccount.Some? ==> Net(end.ledger, op.roundingAccount) == -Net(end.ledger, d.customer))
      && (op.status == COMPLETED ==> op.amount + Net(end.ledger, d.customer) == Provided(op.plan))
      && (op.status == FAILED ==> end.ledger == [])
  {
    HistoryKeeps(book, d, deliveries);
    ConsistentConserves(History(book, d, deliveries), d.customer);
  }

  /**
   An operation saved with an accepted plan can always post what it has to: either no line needs a posting, or both
   accounts are there as soon as they exist.
   */
  lemma AcceptedPlanCanPost(plan: Plan, billingAccount: Option<string>, op: Operation, d: Directory, customer: string)
    requires BearsRounding(plan, billingAccount, customer) && customer != "" && d.customer == Some(customer)
    requires op.plan == plan.lines && op.roundingAccount == plan.roundingAccount
    requires customer in d.accounts && (billingAccount.Some? ==> billingAccount.value in d.accounts)
    ensures CanPost(op, d) || forall k :: 0 <= k < |op.plan| ==> op.plan[k].provider == op.plan[k].nominal
  {
  }

  // ---- What a report says, against what is booked

  /** The provider amounts a report lists. */
  function Reported(settlements: seq<Settlement>): (ps: seq<Pair>)
    ensures |ps| == |settlements|
    ensures forall k :: 0 <= k < |ps| ==> ps[k] == (settlements[k].itemId, settlements[k].provider)
  {
    seq(|settlements|, k requires 0 <= k < |settlements| => (settlements[k].itemId, settlements[k].provider))
  }

  /** The nominal amounts of the settled lines. */
  function SettledNominal(op: Operation): int { Sum(GroupTotals(NominalPairs(op.plan), op.settled)) }

  /** The plan has a line of this identity and provider amount. */
  predicate Planned(plan: seq<PlanLine>, s: Settlement) {
    exists k :: 0 <= k < |plan| && plan[k].itemId == s.itemId && plan[k].provider == s.provider
  }

  predicate AllPlanned(plan: seq<PlanLine>, settlements: seq<Settlement>) {
    forall k :: 0 <= k < |settlements| ==> Planned(plan, settlements[k])
  }

  /** The postings go through only for lines of the plan, at the plan's provider amount. */
  lemma {:induction false} PostIsPlanned(
    op: Operation, d: Directory, todo: seq<Settlement>, settled: seq<string>, ledger: seq<Entry>)
    requires Post(op, d, todo, settled, ledger).Success?
    ensures AllPlanned(op.plan, todo)
  {
    if todo != [] {
      var line, rest := FindLine(op.plan, todo[0].itemId).value, todo[1..];
      var k :| 0 <= k < |op.plan| && op.plan[k] == line;
      assert op.plan[k].itemId == todo[0].itemId && op.plan[k].provider == todo[0].provider;
      if line.itemId in settled {
        PostIsPlanned(op, d, rest, settled, ledger);
      } else {
        PostIsPlanned(op, d, rest, settled + [line.itemId], ledger + PairFor(op, d.customer, line, |ledger|));
      }
      forall j | 0 <= j < |todo| ensures Planned(op.plan, todo[j]) { if j > 0 { assert todo[j] == rest[j - 1]; } }
    }
  }

  /** An account that exists, and has an identity. */
  predicate PostableTo(e: Entry, d: Directory) {
    e.account in d.accounts && (d.customer == Some(e.account) ==> e.account != "")
  }

  /** New entries go only to accounts that exist. */
  lemma {:induction false} PostsToAccounts(
    op: Operation, d: Directory, todo: seq<Settlement>, settled: seq<string>, ledger: seq<Entry>)
    requires Post(op, d, todo, settled, ledger).Success?
    ensures var entries := Post(op, d, todo, settled, ledger).value.1;
      ledger <= entries && forall k :: |ledger| <= k < |entries| ==> PostableTo(entries[k], d)
  {
    if todo != [] {
      var line, rest := FindLine(op.plan, todo[0].itemId).value, todo[1..];
      if line.itemId in settled {
        PostsToAccounts(op, d, rest, settled, ledger);
      } else {
        PostsToAccounts(op, d, rest, settled + [line.itemId], ledger + PairFor(op, d.customer, line, |ledger|));
      }
    }
  }

  lemma {:induction false} SplitDifference(plan: seq<PlanLine>, settled: seq<string>)
    ensures Sum(GroupTotals(ProviderPairs(plan), settled))
         == Sum(GroupTotals(NominalPairs(plan), settled)) + Difference(plan, settled)
  {
    forall k | 0 <= k < |settled|
      ensures TotalFor(ProviderPairs(plan), settled[k])
           == TotalFor(NominalPairs(plan), settled[k]) + TotalFor(DifferencePairs(plan), settled[k]) {
      SplitDifferenceFor(plan, settled[k]);
    }
    SumDifference(GroupTotals(ProviderPairs(plan), settled), GroupTotals(NominalPairs(plan), settled),
                  GroupTotals(DifferencePairs(plan), settled));
  }

  lemma {:induction false} SplitDifferenceFor(plan: seq<PlanLine>, itemId: string)
    ensures TotalFor(ProviderPairs(plan), itemId)
         == TotalFor(NominalPairs(plan), itemId) + TotalFor(DifferencePairs(plan), itemId)
  {
    if plan != [] {
      SplitDifferenceFor(plan[1..], itemId);
      assert DifferencePairs(plan)[1..] == DifferencePairs(plan[1..]);
      assert ProviderPairs(plan)[1..] == ProviderPairs(plan[1..]);
      assert NominalPairs(plan)[1..] == NominalPairs(plan[1..]);
    }
  }

  /** Distinct lines reported at the plan's amounts are worth what the plan gives for them, in whatever order. */
  lemma ReportedIsProvided(plan: seq<PlanLine>, settlements: seq<Settlement>, settled: seq<string>)
    requires Distinct(ItemIds(plan)) && Distinct(SettlementIds(settlements)) && Distinct(settled)
    requires AllPlanned(plan, settlements)
    requires forall id :: id in settled <==> id in SettlementIds(settlements)
    ensures Total(Reported(settlements)) == Sum(GroupTotals(ProviderPairs(plan), settled))
  {
    var pairs, ids := ProviderPairs(plan), SettlementIds(settlements);
    assert Keys(pairs) == ItemIds(plan);
    forall k | 0 <= k < |settlements| ensures TotalFor(pairs, ids[k]) == settlements[k].provider {
      assert Planned(plan, settlements[k]);
      var i :| 0 <= i < |plan| && plan[i].itemId == settlements[k].itemId
        && plan[i].provider == settlements[k].provider;
      TotalForUnique(pairs, i);
    }
    TotalIsSum(Reported(settlements));
    assert GroupTotals(pairs, ids) == Amounts(Reported(settlements));
    GroupsAsSet(pairs, ids);
    GroupsAsSet(pairs, settled);
    assert Elements(ids) == Elements(settled);
  }

  /**
   What an accepted report says was paid back is what the books hold: each of its lines is one of the plan at the plan's
   provider amount, and together they are worth the nominal amounts of the settled lines plus the customer's rounding;
   for a completed refund, its whole amount plus the rounding. The report comes from the channel and, once that is
   known, the channel operation of the refund; and what it posts goes to accounts that exist.
   */
  lemma AcceptedReportIsBooked(book: Book, d: Directory, report: Report)
    requires Consistent(book, d.customer) && d.customer.Some? && Settle(book, d, report).Success?
    ensures report.settlements.Some? && report.status.Some?
    ensures AllPlanned(book.operation.plan, report.settlements.value)
    ensures var after := Settle(book, d, report).value; var op := after.operation;
      && Total(Reported(report.settlements.value)) == SettledNominal(op) + Net(after.ledger, d.customer)
      && (op.status == COMPLETED ==>
            Total(Reported(report.settlements.value)) == op.amount + Net(after.ledger, d.customer))
      && Some(op.status) == report.status
    ensures var op, after := book.operation, Settle(book, d, report).value.operation;
      && report.channelId == op.channelId == after.channelId && op.paymentId == d.paymentId == after.paymentId
      && after.channelOperationId == Some(report.channelOperationId) != Some("")
      && op.channelOperationId in {None, after.channelOperationId}
    ensures var after := Settle(book, d, report).value;
      |book.ledger| <= |after.ledger|
      && forall k :: |book.ledger| <= k < |after.ledger| ==> PostableTo(after.ledger[k], d)
  {
    var after, todo := Settle(book, d, report).value, report.settlements.value;
    SettleKeeps(book, d, report);
    PostIsPlanned(book.operation, d, todo, book.operation.settled, book.ledger);
    PostsToAccounts(book.operation, d, todo, book.operation.settled, book.ledger);
    ReportedIsProvided(book.operation.plan, todo, after.operation.settled);
    SplitDifference(after.operation.plan, after.operation.settled);
    ConsistentConserves(after, d.customer);
    if after.operation.status == COMPLETED { CompletedNominal(after, d.customer); }
  }

  lemma {:induction false} PostFailsAsBadRequest(
    op: Operation, d: Directory, todo: seq<Settlement>, settled: seq<string>, ledger: seq<Entry>)
    ensures var r := Post(op, d, todo, settled, ledger); r.Failure? ==> r.error == BadRequest
  {
    if todo != [] {
      var line := FindLine(op.plan, todo[0].itemId);
      if line.Some? {
        PostFailsAsBadRequest(op, d, todo[1..], settled, ledger);
        PostFailsAsBadRequest(op, d, todo[1..], settled + [line.value.itemId],
                              ledger + PairFor(op, d.customer, line.value, |ledger|));
      }
    }
  }

  /**
   A conflict says that a proper report goes back on what is settled: it would take COMPLETED back, or it misses a
   settled line. Every other refusal is a bad request.
   */
  lemma ConflictGoesBack(book: Book, d: Directory, report: Report)
    ensures var op, r := book.operation, Settle(book, d, report);
      && (r.Failure? ==> r.error in {BadRequest, Conflict})
      && (r == Failure(Conflict) <==>
            && WellFormed(op, d.paymentId, report)
            && ((op.status == COMPLETED && report.status != Some(COMPLETED))
                || exists k :: 0 <= k < |op.settled| && op.settled[k] !in SettlementIds(report.settlements.value)))
  {
    if WellFormed(book.operation, d.paymentId, report) {
      PostFailsAsBadRequest(book.operation, d, report.settlements.value, book.operation.settled, book.ledger);
    }
  }

  lemma CompletedNominal(book: Book, customer: Option<string>)
    requires Consistent(book, customer) && book.operation.status == COMPLETED
    ensures SettledNominal(book.operation) == book.operation.amount
  {
    var op := book.operation;
    GroupedTotal(NominalPairs(op.plan), op.settled) by {
      forall k | 0 <= k < |op.plan| ensures NominalPairs(op.plan)[k].0 in op.settled {
        assert ItemIds(op.plan)[k] in ItemIds(op.plan);
      }
    }
  }

  /** The same after any history of reports, for whichever of them was accepted last. */
  lemma LastReportIsBooked(book: Book, d: Directory, deliveries: seq<Delivery>, last: Delivery)
    requires Fresh(book) && d.customer.Some?
    requires Settle(History(book, d, deliveries), d.(accounts := last.accounts), last.report).Success?
    ensures var end := History(book, d, deliveries + [last]); var report := last.report;
      && report.settlements.Some? && AllPlanned(book.operation.plan, report.settlements.value)
      && Total(Reported(report.settlements.value)) == SettledNominal(end.operation) + Net(end.ledger, d.customer)
      && (report.status == Some(COMPLETED) ==>
            Total(Reported(report.settlements.value)) == book.operation.amount + Net(end.ledger, d.customer))
  {
    var before, e := History(book, d, deliveries), d.(accounts := last.accounts);
    HistoryKeeps(book, d, deliveries);
    assert (deliveries + [last])[..|deliveries|] == deliveries;
    AcceptedReportIsBooked(before, e, last.report);
    SettleKeeps(before, e, last.report);
  }

  /** The order in which lines settled does not matter for the money. */
  lemma OrderDoesNotMatter(book: Book, d: Directory, one: seq<Delivery>, other: seq<Delivery>)
    requires Fresh(book) && d.customer.Some?
    requires Elements(History(book, d, one).operation.settled) == Elements(History(book, d, other).operation.settled)
    ensures Net(History(book, d, one).ledger, d.customer) == Net(History(book, d, other).ledger, d.customer)
  {
    RefundConservation(book, d, one);
    RefundConservation(book, d, other);
    HistoryKeeps(book, d, one);
    HistoryKeeps(book, d, other);
    GroupsAsSet(DifferencePairs(book.operation.plan), History(book, d, one).operation.settled);
    GroupsAsSet(DifferencePairs(book.operation.plan), History(book, d, other).operation.settled);
  }

  function EntriesOf(ledger: seq<Entry>, itemId: string): nat {
    if ledger == [] then 0
    else EntriesOf(ledger[..|ledger| - 1], itemId) + (if ledger[|ledger| - 1].itemId == itemId then 1 else 0)
  }

  lemma EntriesOfPair(ledger: seq<Entry>, a: Entry, b: Entry, itemId: string)
    ensures EntriesOf(ledger + [a, b], itemId)
         == EntriesOf(ledger, itemId) + (if a.itemId == itemId then 1 else 0) + (if b.itemId == itemId then 1 else 0)
  {
    var all := ledger + [a, b];
    assert all[..|all| - 1] == ledger + [a] && (ledger + [a])[..|ledger|] == ledger;
  }

  /** Each line posts exactly one pair when it settles with a difference, and none otherwise. */
  lemma {:induction false} OnePairPerLine(op: Operation, customer: Option<string>, settled: seq<string>, itemId: string)
    requires SettledSoundly(op, customer, settled)
    ensures EntriesOf(Postings(op, customer, settled), itemId)
         == if itemId in settled && LineOf(op, itemId).provider != LineOf(op, itemId).nominal then 2 else 0
  {
    if settled != [] {
      var n := |settled| - 1;
      var before, id := settled[..n], settled[n];
      OnePairPerLine(op, customer, before, itemId);
      assert settled == before + [id];
      assert id !in before;
      EntriesOfPosting(op, customer, LineOf(op, id), Postings(op, customer, before), itemId);
    }
  }

  lemma EntriesOfPosting(op: Operation, customer: Option<string>, line: PlanLine, ledger: seq<Entry>, itemId: string)
    requires line.provider != line.nominal ==> Counterparties(op, customer)
    ensures EntriesOf(ledger + PairFor(op, customer, line, |ledger|), itemId)
         == EntriesOf(ledger, itemId) + if line.itemId == itemId && line.provider != line.nominal then 2 else 0
  {
    var pair := PairFor(op, customer, line, |ledger|);
    if line.provider == line.nominal {
      assert ledger + pair == ledger;
    } else {
      assert pair == [pair[0], pair[1]];
      EntriesOfPair(ledger, pair[0], pair[1], itemId);
    }
  }

  /** The entry belongs to the operation, one of its settled lines, and one of the two accounts. */
  predicate EntryOf(e: Entry, op: Operation, customer: Option<string>, settled: seq<string>) {
    && e.operationId == op.id && e.itemId in settled && e.amount > 0
    && Some(e.account) in {customer, op.roundingAccount}
  }

  /** The entries of the last line, after those of the others. */
  lemma PostingsEnd(op: Operation, customer: Option<string>, settled: seq<string>)
    requires SettledSoundly(op, customer, settled) && settled != []
    ensures var before, id := settled[..|settled| - 1], settled[|settled| - 1];
      var earlier, entries := Postings(op, customer, before), Postings(op, customer, settled);
      && SettledSoundly(op, customer, before) && id !in before && id in settled && earlier <= entries
      && (entries[|earlier|..] == []
          || IsPair(entries[|earlier|..], op, customer, LineOf(op, id), |earlier|))
  {
    var before, id := settled[..|settled| - 1], settled[|settled| - 1];
    SoundPrefix(op, customer, settled);
    var earlier := Postings(op, customer, before);
    PairIs(op, customer, LineOf(op, id), |earlier|);
    assert Postings(op, customer, settled)[|earlier|..] == PairFor(op, customer, LineOf(op, id), |earlier|);
  }

  /** Every entry is the operation's own, and two of them correlate exactly if they are of one line. */
  predicate Correlated(entries: seq<Entry>, op: Operation, customer: Option<string>, settled: seq<string>) {
    && (forall i :: 0 <= i < |entries| ==>
          EntryOf(entries[i], op, customer, settled) && entries[i].correlation < |entries|)
    && forall i, j :: 0 <= i < j < |entries| ==>
         (entries[i].correlation == entries[j].correlation <==> entries[i].itemId == entries[j].itemId)
  }

  lemma PairCorrelates(
    earlier: seq<Entry>, pair: seq<Entry>, op: Operation, customer: Option<string>, settled: seq<string>,
    line: PlanLine)
    requires Correlated(earlier, op, customer, settled) && line.itemId !in settled
    requires pair == [] || IsPair(pair, op, customer, line, |earlier|)
    ensures Correlated(earlier + pair, op, customer, settled + [line.itemId])
  {
    var entries, more := earlier + pair, settled + [line.itemId];
    forall i | 0 <= i < |entries|
      ensures EntryOf(entries[i], op, customer, more) && entries[i].correlation < |entries|
      ensures i < |earlier| ==> entries[i].itemId != line.itemId && entries[i].correlation < |earlier|
      ensures i >= |earlier| ==> entries[i].itemId == line.itemId && entries[i].correlation == |earlier|
    {
      if i < |earlier| {
        assert EntryOf(earlier[i], op, customer, settled);
      } else {
        assert entries[i] == pair[i - |earlier|] && line.itemId == more[|settled|];
      }
    }
  }

  lemma {:induction false} EntriesCorrelate(op: Operation, customer: Option<string>, settled: seq<string>)
    requires SettledSoundly(op, customer, settled)
    ensures Correlated(Postings(op, customer, settled), op, customer, settled)
  {
    if settled != [] {
      var before, id := settled[..|settled| - 1], settled[|settled| - 1];
      PostingsEnd(op, customer, settled);
      EntriesCorrelate(op, customer, before);
      var earlier, entries := Postings(op, customer, before), Postings(op, customer, settled);
      PairCorrelates(earlier, entries[|earlier|..], op, customer, before, LineOf(op, id));
      assert earlier + entries[|earlier|..] == entries && before + [id] == settled;
    }
  }

  lemma NothingLeftToSettle(plan: seq<PlanLine>, settled: seq<string>, after: seq<string>)
    requires settled <= after && Distinct(after)
    requires forall id :: id in ItemIds(plan) ==> id in settled
    requires forall id :: id in after ==> id in ItemIds(plan)
    ensures after == settled
  {
    DistinctCardinality(after);
    assert Distinct(settled) by { assert settled == after[..|settled|]; }
    DistinctCardinality(settled);
    SubsetSize(Elements(after), Elements(settled));
  }

  /** Once completed, nothing a channel reports changes the lines, the entries or the status again. */
  lemma CompletedIsFinal(book: Book, d: Directory, delivery: Delivery)
    requires Consistent(book, d.customer) && book.operation.status == COMPLETED
    ensures var after := Receive(book, d, delivery);
      && after.ledger == book.ledger && after.operation.status == COMPLETED
      && after.operation.settled == book.operation.settled
  {
    var e := d.(accounts := delivery.accounts);
    var r := Settle(book, e, delivery.report);
    if r.Success? {
      SettleKeeps(book, e, delivery.report);
      var op, after := book.operation, r.value.operation;
      NothingLeftToSettle(op.plan, op.settled, after.settled);
      PostingsOfSamePlan(op, after, d.customer, op.settled);
    }
  }
}
