/**
 Billing sellers from persisted daily reports: per seller, currency and kind of report, what is due is billed in one
 payment when it adds up to more than zero, and its reports are marked; otherwise it waits for the next run.
 */
module Billing {
  import opened Wrappers
  import opened Sums

  datatype ReportKind = PLATFORM_SELLER | SELLER

  /** A report of the kinds that are billed; `amount` is the column its kind is billed by, `day` its period. */
  datatype Report = Report(
    id: string, owner: string, kind: ReportKind, currency: string, day: nat, daily: bool, archived: bool, payments: nat,
    amount: int, billed: bool)

  datatype Key = Key(seller: string, currency: string, kind: ReportKind)

  /** A billing payment, with the reports it was made from. */
  datatype Bill = Bill(key: Key, amount: int, covers: seq<string>)

  datatype Books = Books(today: nat, reports: seq<Report>, bills: seq<Bill>)

  function KeyOf(r: Report): Key { Key(r.owner, r.currency, r.kind) }

  /** Today is left out: the day may not be complete. */
  predicate Waiting(r: Report, today: nat) {
    r.daily && !r.billed && !r.archived && r.payments > 0 && r.day < today
  }

  predicate IsDue(r: Report, key: Key, today: nat) { Waiting(r, today) && KeyOf(r) == key }

  /** `findUnbilledReports`. */
  function Due(reports: seq<Report>, key: Key, today: nat): seq<Report> {
    if reports == [] then []
    else
      var last := reports[|reports| - 1];
      Due(reports[..|reports| - 1], key, today) + if IsDue(last, key, today) then [last] else []
  }

  function Amount(reports: seq<Report>): int {
    if reports == [] then 0 else Amount(reports[..|reports| - 1]) + reports[|reports| - 1].amount
  }

  function Ids(reports: seq<Report>): (ids: seq<string>)
    ensures |ids| == |reports| && forall k :: 0 <= k < |ids| ==> ids[k] == reports[k].id
  {
    seq(|reports|, k requires 0 <= k < |reports| => reports[k].id)
  }

  /** `markReportsAsBilled`, by identity. */
  function Mark(reports: seq<Report>, ids: seq<string>): (r: seq<Report>)
    ensures |r| == |reports|
    ensures forall k :: 0 <= k < |r| ==>
      r[k] == if reports[k].id in ids then reports[k].(billed := true) else reports[k]
  {
    seq(|reports|, k requires 0 <= k < |reports| =>
      if reports[k].id in ids then reports[k].(billed := true) else reports[k])
  }

  function DueOf(b: Books, key: Key): seq<Report> { Due(b.reports, key, b.today) }

  function BillOf(b: Books, key: Key): Bill { Bill(key, Amount(DueOf(b, key)), Ids(DueOf(b, key))) }

  /** One of the two `create...BillingForSeller` methods. */
  function BillFor(b: Books, key: Key): Books {
    if Amount(DueOf(b, key)) <= 0 then b
    else b.(bills := b.bills + [BillOf(b, key)], reports := Mark(b.reports, Ids(DueOf(b, key))))
  }

  predicate HasReport(reports: seq<Report>, id: string) {
    exists k :: 0 <= k < |reports| && reports[k].id == id
  }

  const NO_BOOKS: Books := Books(0, [], [])

  // ---- What a billing does

  predicate DistinctReports(reports: seq<Report>) { Distinct(Ids(reports)) }

  lemma {:induction false} DueHas(reports: seq<Report>, key: Key, today: nat, id: string)
    ensures id in Ids(Due(reports, key, today)) <==>
      exists k :: 0 <= k < |reports| && reports[k].id == id && IsDue(reports[k], key, today)
  {
    if reports != [] {
      var n := |reports| - 1;
      var before, all := Due(reports[..n], key, today), Due(reports, key, today);
      DueHas(reports[..n], key, today, id);
      if id in Ids(all) {
        var k :| 0 <= k < |all| && Ids(all)[k] == id;
        if k < |before| {
          assert Ids(before)[k] == id;
          var j :| 0 <= j < n && reports[..n][j].id == id && IsDue(reports[..n][j], key, today);
          assert reports[j].id == id && IsDue(reports[j], key, today);
        } else {
          assert reports[n].id == id && IsDue(reports[n], key, today);
        }
      }
      if k :| 0 <= k < |reports| && reports[k].id == id && IsDue(reports[k], key, today) {
        if k < n {
          assert reports[..n][k].id == id && IsDue(reports[..n][k], key, today);
          var j :| 0 <= j < |before| && Ids(before)[j] == id;
          assert Ids(all)[j] == id;
        } else {
          assert Ids(all)[|before|] == id;
        }
      }
    }
  }

  /** Every report becomes billed exactly if it was due. */
  predicate MarksDue(a: seq<Report>, b: seq<Report>, key: Key, today: nat) {
    && |a| == |b|
    && forall k :: 0 <= k < |a| ==> b[k] == if IsDue(a[k], key, today) then a[k].(billed := true) else a[k]
  }

  lemma MarkMarksDue(reports: seq<Report>, key: Key, today: nat)
    requires DistinctReports(reports)
    ensures MarksDue(reports, Mark(reports, Ids(Due(reports, key, today))), key, today)
  {
    forall k | 0 <= k < |reports|
      ensures reports[k].id in Ids(Due(reports, key, today)) <==> IsDue(reports[k], key, today) {
      DueHas(reports, key, today, reports[k].id);
      if j :| 0 <= j < |reports| && reports[j].id == reports[k].id && IsDue(reports[j], key, today) {
        assert Ids(reports)[j] == Ids(reports)[k];
        assert j == k;
      }
    }
  }

  /** What billed reports of a key add up to. */
  function BilledAmount(reports: seq<Report>, key: Key): int {
    if reports == [] then 0
    else
      var last := reports[|reports| - 1];
      BilledAmount(reports[..|reports| - 1], key) + if last.billed && KeyOf(last) == key then last.amount else 0
  }

  lemma {:induction false} AmountSnoc(reports: seq<Report>, r: Report)
    ensures Amount(reports + [r]) == Amount(reports) + r.amount
  {
    assert (reports + [r])[..|reports|] == reports;
  }

  lemma {:induction false} MarkedAmounts(a: seq<Report>, b: seq<Report>, key: Key, today: nat, other: Key)
    requires MarksDue(a, b, key, today)
    ensures BilledAmount(b, other) == BilledAmount(a, other) + if other == key then Amount(Due(a, key, today)) else 0
    ensures Due(b, other, today) == if other == key then [] else Due(a, other, today)
  {
    if a != [] {
      var n := |a| - 1;
      assert MarksDue(a[..n], b[..n], key, today);
      MarkedAmounts(a[..n], b[..n], key, today, other);
      var due := Due(a[..n], key, today);
      if IsDue(a[n], key, today) {
        AmountSnoc(due, a[n]);
        assert b[n] == a[n].(billed := true);
      } else {
        assert Due(a, key, today) == due + [] == due;
      }
      assert Due(b[..n], other, today) + [] == Due(b[..n], other, today);
    }
  }

  function BillsOf(bills: seq<Bill>, key: Key): seq<Bill> {
    if bills == [] then []
    else
      BillsOf(bills[..|bills| - 1], key) + if bills[|bills| - 1].key == key then [bills[|bills| - 1]] else []
  }

  lemma BillsSnoc(bills: seq<Bill>, bill: Bill, key: Key)
    ensures BillsOf(bills + [bill], key) == BillsOf(bills, key) + if bill.key == key then [bill] else []
  {
    assert (bills + [bill])[..|bills|] == bills;
  }

  /** A billing touches only its own key, and leaves nothing positive due there. */
  lemma BillForEffect(b: Books, key: Key, other: Key)
    requires DistinctReports(b.reports)
    ensures var after := BillFor(b, key);
      && DistinctReports(after.reports) && after.today == b.today && Ids(after.reports) == Ids(b.reports)
      && (other != key || Amount(DueOf(b, key)) <= 0 ==>
            DueOf(after, other) == DueOf(b, other) && BillsOf(after.bills, other) == BillsOf(b.bills, other))
      && (Amount(DueOf(b, key)) > 0 ==>
            DueOf(after, key) == [] && BillsOf(after.bills, key) == BillsOf(b.bills, key) + [BillOf(b, key)])
  {
    if Amount(DueOf(b, key)) > 0 {
      MarkEffect(b, key, other);
      MarkEffect(b, key, key);
      BillsSnoc(b.bills, BillOf(b, key), other);
      BillsSnoc(b.bills, BillOf(b, key), key);
    }
  }

  lemma MarkEffect(b: Books, key: Key, other: Key)
    requires DistinctReports(b.reports)
    ensures var marked := Mark(b.reports, Ids(DueOf(b, key)));
      && Ids(marked) == Ids(b.reports) && DistinctReports(marked)
      && Due(marked, other, b.today) == if other == key then [] else DueOf(b, other)
  {
    MarkMarksDue(b.reports, key, b.today);
    MarkedAmounts(b.reports, Mark(b.reports, Ids(DueOf(b, key))), key, b.today, other);
    assert Ids(Mark(b.reports, Ids(DueOf(b, key)))) == Ids(b.reports);
  }

  // ---- A whole run

  /** The distinct values of a list, in order of first appearance. */
  function Distincts(s: seq<string>): (r: seq<string>)
    ensures Distinct(r) && (forall x :: x in r <==> x in s)
  {
    if s == [] then []
    else
      var before, last := Distincts(s[..|s| - 1]), s[|s| - 1];
      if last in before then before else before + [last]
  }

  /** Currencies of a seller with anything waiting. */
  function WaitingCurrencies(reports: seq<Report>, seller: string, today: nat): seq<string> {
    if reports == [] then []
    else
      var last := reports[|reports| - 1];
      WaitingCurrencies(reports[..|reports| - 1], seller, today)
      + if Waiting(last, today) && last.owner == seller then [last.currency] else []
  }

  function CurrencyKeys(seller: string, currencies: seq<string>): seq<Key> {
    if currencies == [] then []
    else
      var last := currencies[|currencies| - 1];
      CurrencyKeys(seller, currencies[..|currencies| - 1])
      + [Key(seller, last, PLATFORM_SELLER), Key(seller, last, SELLER)]
  }

  function KeysFor(b: Books, seller: string, account: string): seq<Key> {
    if seller == account then [] else CurrencyKeys(seller, Distincts(WaitingCurrencies(b.reports, seller, b.today)))
  }

  function BillAll(b: Books, keys: seq<Key>): Books {
    if keys == [] then b else BillFor(BillAll(b, keys[..|keys| - 1]), keys[|keys| - 1])
  }

  function RunFor(b: Books, sellers: seq<string>, account: string): Books {
    if sellers == [] then b
    else
      var before := RunFor(b, sellers[..|sellers| - 1], account);
      BillAll(before, KeysFor(before, sellers[|sellers| - 1], account))
  }

  function BillCurrency(b: Books, seller: string, currency: string): Books {
    BillFor(BillFor(b, Key(seller, currency, PLATFORM_SELLER)), Key(seller, currency, SELLER))
  }

  lemma CurrencyTurn(b: Books, seller: string, currencies: seq<string>, j: nat)
    requires j < |currencies|
    ensures BillAll(b, CurrencyKeys(seller, currencies[..j + 1]))
         == BillCurrency(BillAll(b, CurrencyKeys(seller, currencies[..j])), seller, currencies[j])
  {
    assert currencies[..j + 1][..j] == currencies[..j];
    BillAllTwo(b, CurrencyKeys(seller, currencies[..j]),
               Key(seller, currencies[j], PLATFORM_SELLER), Key(seller, currencies[j], SELLER));
  }

  class BillingService {
    var today: nat
    var reports: seq<Report>
    var bills: seq<Bill>

    function Now(): Books reads this { Books(today, reports, bills) }

    constructor ()
      ensures Now() == NO_BOOKS
    {
      today, reports, bills := 0, [], [];
    }

    method BillingForSeller(key: Key)
      modifies this
      ensures Now() == BillFor(old(Now()), key)
    {
      var due := Due(reports, key, today);
      if |due| == 0 { return; }
      var total := 0;
      for i := 0 to |due|
        invariant total == Amount(due[..i]) && Now() == old(Now())
      {
        assert due[..i + 1][..i] == due[..i];
        total := total + due[i].amount;
      }
      assert due[..|due|] == due;
      if total <= 0 { return; }
      bills := bills + [Bill(key, total, Ids(due))];
      reports := Mark(reports, Ids(due));
    }

    /** `runBilling`; `sellers` are the owners of daily queries. */
    method RunBilling(sellers: seq<string>, account: Option<string>, throwIfMissing: bool) returns (r: Result<()>)
      modifies this
      ensures account.None? ==> Now() == old(Now()) && (r.Failure? <==> throwIfMissing)
      ensures account.Some? ==> r.Success? && Now() == RunFor(old(Now()), sellers, account.value)
    {
      if account.None? {
        return if throwIfMissing then Failure(Internal) else Success(());
      }
      ghost var before := Now();
      for i := 0 to |sellers|
        invariant Now() == RunFor(before, sellers[..i], account.value)
      {
        assert sellers[..i + 1][..i] == sellers[..i];
        if sellers[i] != account.value {
          BillingsForSeller(sellers[i]);
        }
      }
      assert sellers[..|sellers|] == sellers;
      return Success(());
    }

    /** The inner loop: every currency in which the seller has anything waiting. */
    method BillingsForSeller(seller: string)
      modifies this
      ensures var currencies := Distincts(WaitingCurrencies(old(reports), seller, old(today)));
        Now() == BillAll(old(Now()), CurrencyKeys(seller, currencies))
    {
      ghost var start := Now();
      var currencies := Distincts(WaitingCurrencies(reports, seller, today));
      for j := 0 to |currencies|
        invariant Now() == BillAll(start, CurrencyKeys(seller, currencies[..j]))
      {
        CurrencyTurn(start, seller, currencies, j);
        BillingsInCurrency(seller, currencies[j]);
      }
      assert currencies[..|currencies|] == currencies;
    }

    method BillingsInCurrency(seller: string, currency: string)
      modifies this
      ensures Now() == BillCurrency(old(Now()), seller, currency)
    {
      BillingForSeller(Key(seller, currency, PLATFORM_SELLER));
      BillingForSeller(Key(seller, currency, SELLER));
    }
  }

  lemma BillAllTwo(b: Books, keys: seq<Key>, x: Key, y: Key)
    ensures BillAll(b, keys + [x, y]) == BillFor(BillFor(BillAll(b, keys), x), y)
  {
    assert (keys + [x, y])[..|keys| + 1] == keys + [x] && (keys + [x])[..|keys|] == keys;
  }

  /** What one billing of `key` means between two states of the books. */
  predicate BilledKey(a: Books, b: Books, key: Key) {
    if Amount(DueOf(a, key)) <= 0
    then DueOf(b, key) == DueOf(a, key) && BillsOf(b.bills, key) == BillsOf(a.bills, key)
    else DueOf(b, key) == [] && BillsOf(b.bills, key) == BillsOf(a.bills, key) + [BillOf(a, key)]
  }

  predicate UntouchedKey(a: Books, b: Books, key: Key) {
    DueOf(b, key) == DueOf(a, key) && BillsOf(b.bills, key) == BillsOf(a.bills, key)
  }

  lemma {:induction false} BillAllEffect(b: Books, keys: seq<Key>, key: Key)
    requires DistinctReports(b.reports)
    ensures var after := BillAll(b, keys);
      && DistinctReports(after.reports) && after.today == b.today && Ids(after.reports) == Ids(b.reports)
      && (key in keys ==> BilledKey(b, after, key)) && (key !in keys ==> UntouchedKey(b, after, key))
  {
    if keys != [] {
      var before, last := keys[..|keys| - 1], keys[|keys| - 1];
      BillAllEffect(b, before, key);
      BillForEffect(BillAll(b, before), last, key);
      assert keys == before + [last];
    }
  }

  lemma {:induction false} KeysAre(seller: string, currencies: seq<string>, key: Key)
    ensures key in CurrencyKeys(seller, currencies) <==> key.seller == seller && key.currency in currencies
  {
    if currencies != [] {
      var before, last := currencies[..|currencies| - 1], currencies[|currencies| - 1];
      KeysAre(seller, before, key);
      assert currencies == before + [last];
      assert key.kind == PLATFORM_SELLER || key.kind == SELLER;
    }
  }

  lemma {:induction false} DueHasCurrency(reports: seq<Report>, key: Key, today: nat)
    ensures Due(reports, key, today) != [] ==> key.currency in WaitingCurrencies(reports, key.seller, today)
  {
    if reports != [] { DueHasCurrency(reports[..|reports| - 1], key, today); }
  }

  /** Between two states of the books the keys of these sellers were billed, and no one else's. */
  predicate SellersBilled(a: Books, b: Books, sellers: seq<string>, account: string, key: Key) {
    && DistinctReports(b.reports) && b.today == a.today && Ids(b.reports) == Ids(a.reports)
    && if key.seller in sellers && key.seller != account then BilledKey(a, b, key) else UntouchedKey(a, b, key)
  }

  lemma SellerEffect(b: Books, seller: string, account: string, key: Key)
    requires DistinctReports(b.reports)
    ensures SellersBilled(b, BillAll(b, KeysFor(b, seller, account)), [seller], account, key)
  {
    BillAllEffect(b, KeysFor(b, seller, account), key);
    if seller != account {
      var currencies := Distincts(WaitingCurrencies(b.reports, seller, b.today));
      KeysAre(seller, currencies, key);
      if key.seller == seller && key.currency !in currencies { DueHasCurrency(b.reports, key, b.today); }
    }
  }

  lemma ThenUntouched(a: Books, b: Books, c: Books, key: Key)
    requires UntouchedKey(b, c, key)
    ensures BilledKey(a, b, key) ==> BilledKey(a, c, key)
    ensures UntouchedKey(a, b, key) ==> UntouchedKey(a, c, key)
  {
  }

  lemma ThenBilled(a: Books, b: Books, c: Books, key: Key)
    requires UntouchedKey(a, b, key) && BilledKey(b, c, key)
    ensures BilledKey(a, c, key)
  {
  }

  lemma OneMoreSeller(a: Books, b: Books, c: Books, sellers: seq<string>, seller: string, account: string, key: Key)
    requires SellersBilled(a, b, sellers, account, key) && SellersBilled(b, c, [seller], account, key)
    requires seller !in sellers
    ensures SellersBilled(a, c, sellers + [seller], account, key)
  {
    if key.seller == seller != account {
      ThenBilled(a, b, c, key);
    } else {
      ThenUntouched(a, b, c, key);
    }
  }

  /**
   A run bills every seller, currency and kind exactly once: what adds up to more than zero is billed whole in one new
   payment and nothing of it stays due; what does not is carried forward whole, with no payment. The billing
   account itself, and sellers without queries, are left alone.
   */
  lemma {:induction false} RunBillsEveryKey(b: Books, sellers: seq<string>, account: string, key: Key)
    requires DistinctReports(b.reports) && Distinct(sellers)
    ensures SellersBilled(b, RunFor(b, sellers, account), sellers, account, key)
  {
    if sellers != [] {
      var before, last := sellers[..|sellers| - 1], sellers[|sellers| - 1];
      var middle := RunFor(b, before, account);
      DistinctInit(sellers);
      RunBillsEveryKey(b, before, account, key);
      SellerEffect(middle, last, account, key);
      OneMoreSeller(b, middle, BillAll(middle, KeysFor(middle, last, account)), before, last, account, key);
      assert sellers == before + [last];
    }
  }

  // ---- Which reports a run bills

  /** The report is as it was, or it was due for this key and is billed now. */
  predicate StaysOrBilled(before: Report, after: Report, key: Key, today: nat) {
    after == before || (after == before.(billed := true) && IsDue(before, key, today))
  }

  lemma BillForReport(b: Books, key: Key, k: nat)
    requires DistinctReports(b.reports) && k < |b.reports|
    ensures |BillFor(b, key).reports| == |b.reports|
    ensures StaysOrBilled(b.reports[k], BillFor(b, key).reports[k], key, b.today)
  {
    if Amount(DueOf(b, key)) > 0 { MarkMarksDue(b.reports, key, b.today); }
  }

  /** The report is as it was, or it was waiting at one of these sellers and is billed now. */
  predicate StaysOrWaited(before: Report, after: Report, sellers: seq<string>, account: string, today: nat) {
    || after == before
    || (&& after == before.(billed := true) && Waiting(before, today)
        && before.owner in sellers && before.owner != account)
  }

  lemma {:induction false} BillAllReport(b: Books, keys: seq<Key>, k: nat)
    requires DistinctReports(b.reports) && k < |b.reports|
    ensures |BillAll(b, keys).reports| == |b.reports|
    ensures var before, after := b.reports[k], BillAll(b, keys).reports[k];
      after == before || (after == before.(billed := true) && Waiting(before, b.today) && KeyOf(before) in keys)
  {
    if keys != [] {
      var init, last := keys[..|keys| - 1], keys[|keys| - 1];
      BillAllReport(b, init, k);
      BillAllEffect(b, init, last);
      BillForReport(BillAll(b, init), last, k);
      assert keys == init + [last];
    }
  }

  lemma SellerReport(b: Books, seller: string, account: string, k: nat)
    requires DistinctReports(b.reports) && k < |b.reports|
    ensures var after := BillAll(b, KeysFor(b, seller, account));
      |after.reports| == |b.reports| && StaysOrWaited(b.reports[k], after.reports[k], [seller], account, b.today)
  {
    BillAllReport(b, KeysFor(b, seller, account), k);
    if seller != account {
      KeysAre(seller, Distincts(WaitingCurrencies(b.reports, seller, b.today)), KeyOf(b.reports[k]));
    }
  }

  lemma ThenStaysOrWaited(
    a: Report, b: Report, c: Report, sellers: seq<string>, seller: string, account: string, today: nat)
    requires StaysOrWaited(a, b, sellers, account, today) && StaysOrWaited(b, c, [seller], account, today)
    ensures StaysOrWaited(a, c, sellers + [seller], account, today)
  {
  }

  lemma {:induction false} RunReport(b: Books, sellers: seq<string>, account: string, k: nat)
    requires DistinctReports(b.reports) && Distinct(sellers) && k < |b.reports|
    ensures var after := RunFor(b, sellers, account);
      |after.reports| == |b.reports| && StaysOrWaited(b.reports[k], after.reports[k], sellers, account, b.today)
  {
    if sellers != [] {
      var before, last := sellers[..|sellers| - 1], sellers[|sellers| - 1];
      var middle := RunFor(b, before, account);
      var after := BillAll(middle, KeysFor(middle, last, account));
      DistinctInit(sellers);
      RunReport(b, before, account, k);
      RunBillsEveryKey(b, before, account, KeyOf(b.reports[k]));
      SellerReport(middle, last, account, k);
      ThenStaysOrWaited(b.reports[k], middle.reports[k], after.reports[k], before, last, account, b.today);
      assert sellers == before + [last];
    }
  }

  /** A report is due exactly if one of its identity is among those due. */
  lemma DueAmong(b: Books, k: nat)
    requires DistinctReports(b.reports) && k < |b.reports|
    ensures b.reports[k].id in Ids(DueOf(b, KeyOf(b.reports[k]))) <==> Waiting(b.reports[k], b.today)
  {
    var r := b.reports[k];
    DueHas(b.reports, KeyOf(r), b.today, r.id);
    if j :| 0 <= j < |b.reports| && b.reports[j].id == r.id && IsDue(b.reports[j], KeyOf(r), b.today) {
      assert Ids(b.reports)[j] == Ids(b.reports)[k];
      assert j == k;
    }
    if Waiting(r, b.today) { assert IsDue(b.reports[k], KeyOf(r), b.today); }
  }

  /**
   Which reports a run bills: a daily one of a day that is over, not archived, with payments in it and not billed
   before, of a seller with queries that is not the billing account, is billed exactly if what is due of its seller,
   currency and kind adds up to more than zero. Every other report stays as it is.
   */
  lemma RunBillsRipeReports(b: Books, sellers: seq<string>, account: string, k: nat)
    requires DistinctReports(b.reports) && Distinct(sellers) && k < |b.reports|
    ensures var r, after := b.reports[k], RunFor(b, sellers, account).reports;
      var ripe := && r.daily && r.day < b.today && !r.archived && r.payments > 0 && !r.billed
                  && r.owner in sellers && r.owner != account;
      && |after| == |b.reports|
      && after[k] == if ripe && Amount(DueOf(b, KeyOf(r))) > 0 then r.(billed := true) else r
  {
    var after, key := RunFor(b, sellers, account), KeyOf(b.reports[k]);
    RunReport(b, sellers, account, k);
    RunBillsEveryKey(b, sellers, account, key);
    DueAmong(b, k);
    DueAmong(after, k);
  }
}
