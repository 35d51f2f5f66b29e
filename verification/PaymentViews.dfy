/**
 The views of one payment: item list, totals, tax groups, one order per seller, and the double-entry account ledger.
 Each is computed by its own loop; orders and ledger are generated again whenever the payment moves on.

 Amounts count units of 1e-4. A calculated amount may be a fraction of a unit; every column is rounded to whole units on
 its own when it is saved.
 */
module PaymentViews {
  import opened Wrappers
  import opened Sums
  import opened Grouping
  import opened Taxes
  import opened Payments

  datatype Item = Item(seller: string, percent: real, money: Money)

  /** A payment as read back: its items, its totals, and one row per tax group. */
  datatype Payment = Payment(
    id: string, kind: PaymentType, customer: string, currency: string, status: PaymentStatus, items: seq<Item>,
    total: Money, taxes: seq<Row<real>>)

  // ---- Saving

  /** The nearest whole number of units; halves go away from zero. */
  function Round(x: real): (r: int)
    ensures -0.5 <= r as real - x <= 0.5
    ensures r as real - x == 0.5 ==> x >= 0.0
    ensures r as real - x == -0.5 ==> x < 0.0
  {
    if x >= 0.0 then (x + 0.5).Floor else -((-x + 0.5).Floor)
  }

  function Saved(m: Money): Money { Money(Round(m.amount) as real, Round(m.tax) as real) }

  predicate Whole(m: Money) { m.amount == m.amount.Floor as real && m.tax == m.tax.Floor as real }

  lemma WholeNumber(n: int)
    ensures (n as real).Floor == n
  {
  }

  lemma RoundOfWhole(x: real)
    requires x == x.Floor as real
    ensures Round(x) == x.Floor
  {
    assert -0.5 <= Round(x) as real - x.Floor as real <= 0.5;
    assert -0.5 <= (Round(x) - x.Floor) as real <= 0.5;
  }

  lemma SavedIsWhole(m: Money)
    ensures Whole(Saved(m))
  {
    WholeNumber(Round(m.amount));
    WholeNumber(Round(m.tax));
  }

  /** Saving what was read back changes nothing. */
  lemma SavingIsIdempotent(m: Money)
    requires Whole(m)
    ensures Saved(m) == m
  {
    RoundOfWhole(m.amount);
    RoundOfWhole(m.tax);
  }

  predicate WholeRows<K>(rows: seq<Row<K>>) { forall k :: 0 <= k < |rows| ==> Whole(rows[k].money) }

  lemma WholeSum(a: Money, b: Money)
    requires Whole(a) && Whole(b)
    ensures Whole(a.Plus(b))
  {
    assert a.Plus(b).amount == (a.amount.Floor + b.amount.Floor) as real;
    assert a.Plus(b).tax == (a.tax.Floor + b.tax.Floor) as real;
  }

  lemma {:induction false} WholeTotals<K>(rows: seq<Row<K>>, key: K)
    requires WholeRows(rows)
    ensures Whole(MoneyOf(rows)) && Whole(MoneyFor(rows, key))
  {
    if rows != [] {
      var before, last := rows[..|rows| - 1], rows[|rows| - 1];
      WholeTotals(before, key);
      WholeSum(MoneyOf(before), last.money);
      WholeSum(MoneyFor(before, key), last.money);
    }
  }

  lemma WholeGroups<K>(rows: seq<Row<K>>)
    requires WholeRows(rows)
    ensures WholeRows(Grouped(rows))
  {
    GroupedIsSound(rows);
    forall k | 0 <= k < |Grouped(rows)| ensures Whole(Grouped(rows)[k].money) {
      WholeTotals(rows, Grouped(rows)[k].key);
    }
  }

  function SavedRows<K>(rows: seq<Row<K>>): (r: seq<Row<K>>)
    ensures |r| == |rows| && forall k :: 0 <= k < |r| ==> r[k] == Row(rows[k].key, Saved(rows[k].money))
  {
    seq(|rows|, k requires 0 <= k < |rows| => Row(rows[k].key, Saved(rows[k].money)))
  }

  /** At most `limit` apart, in amount and in tax. */
  predicate Close(a: Money, b: Money, limit: real) {
    -limit <= a.amount - b.amount <= limit && -limit <= a.tax - b.tax <= limit
  }

  /** Each rounding moves a total by at most half a unit. */
  lemma {:induction false} SavedTotals<K>(rows: seq<Row<K>>)
    ensures Close(MoneyOf(SavedRows(rows)), MoneyOf(rows), |rows| as real * 0.5)
  {
    if rows != [] {
      var before := rows[..|rows| - 1];
      SavedTotals(before);
      assert SavedRows(rows)[..|rows| - 1] == SavedRows(before);
    }
  }

  /** The rounded sum is the sum of the rounded rows. */
  predicate NoDrift<K>(rows: seq<Row<K>>) { Saved(MoneyOf(rows)) == MoneyOf(SavedRows(rows)) }

  lemma WholeRowsDoNotDrift<K>(rows: seq<Row<K>>)
    requires WholeRows(rows)
    ensures SavedRows(rows) == rows && NoDrift(rows)
  {
    forall k | 0 <= k < |rows| ensures SavedRows(rows)[k] == rows[k] { SavingIsIdempotent(rows[k].money); }
    if rows != [] {
      WholeTotals(rows, rows[0].key);
      SavingIsIdempotent(MoneyOf(rows));
    } else {
      SavingIsIdempotent(ZERO);
    }
  }

  // ---- Calculation

  /** A requested line after its item, price and tax were looked up; the rate is absent for an unknown sale mode. */
  datatype PricedLine = PricedLine(seller: string, unitPrice: real, quantity: real, rate: Option<real>)

  datatype Calculation = Calculation(items: seq<Item>, total: Money, taxes: seq<Tax>)

  function SellerRows(items: seq<Item>): (rows: seq<Row<string>>)
    ensures |rows| == |items| && forall k :: 0 <= k < |rows| ==> rows[k] == Row(items[k].seller, items[k].money)
  {
    seq(|items|, k requires 0 <= k < |items| => Row(items[k].seller, items[k].money))
  }

  function TaxOf(line: PricedLine): Result<Tax> {
    if line.rate.None? then Failure(NotFound) else GenerateTax(line.unitPrice * line.quantity, line.rate, None)
  }

  /** What a line costs: its unit price, as often as its quantity says. */
  function LinePrice(line: PricedLine): real { line.unitPrice * line.quantity }

  /** What all lines cost together. */
  function LinesPrice(lines: seq<PricedLine>): real {
    if lines == [] then 0.0 else LinesPrice(lines[..|lines| - 1]) + LinePrice(lines[|lines| - 1])
  }

  /** A line whose price cannot be taxed: the rate is unknown, or it would have to divide by zero. */
  predicate Untaxable(line: PricedLine) {
    line.rate.None? || (line.rate.value == -100.0 && line.unitPrice * line.quantity != 0.0)
  }

  /** Item and tax of a line: the seller's, worth unit price times quantity, of which the rate is the tax's share. */
  predicate Calculated(line: PricedLine, item: Item, tax: Tax) {
    && line.rate.Some? && item.seller == line.seller && item.percent == line.rate.value == tax.percent
    && item.money.amount == line.unitPrice * line.quantity == tax.full
    && item.money.tax * (100.0 + line.rate.value) == line.rate.value * item.money.amount
    && tax.amount == item.money.tax && tax.amount + tax.untaxed == tax.full
  }

  lemma TaxOfLine(line: PricedLine)
    ensures TaxOf(line).Failure? <==> Untaxable(line)
    ensures TaxOf(line).Success? ==>
      var tax := TaxOf(line).value;
      Calculated(line, Item(line.seller, tax.percent, Money(tax.full, tax.amount)), tax) && AtRate(tax, tax.percent)
  {
    if TaxOf(line).Success? { ShareOfRate(TaxOf(line).value); }
  }

  lemma ShareOfRate(t: Tax)
    requires AtRate(t, t.percent)
    ensures t.amount * (100.0 + t.percent) == t.percent * t.full
  {
    assert t.untaxed == t.full - t.amount;
    assert t.percent * (t.full - t.amount) == t.percent * t.full - t.percent * t.amount;
  }

  /** The total is the sum of the items, and the k-th tax carries the k-th item's amounts: all the views rely on. */
  predicate Carries(c: Calculation) {
    && c.total == MoneyOf(SellerRows(c.items)) && |c.taxes| == |c.items|
    && forall k :: 0 <= k < |c.items| ==> c.items[k].money == Money(c.taxes[k].full, c.taxes[k].amount)
  }

  /** Items, taxes and total of these lines. */
  predicate CalculatedFrom(lines: seq<PricedLine>, items: seq<Item>, taxes: seq<Tax>, total: Money) {
    && |items| == |lines| == |taxes|
    && (forall k :: 0 <= k < |lines| ==> Calculated(lines[k], items[k], taxes[k]))
    && total.amount == LinesPrice(lines) && Carries(Calculation(items, total, taxes)) && AllAtRate(taxes)
  }

  lemma OneMoreItem(
    lines: seq<PricedLine>, items: seq<Item>, taxes: seq<Tax>, total: Money, line: PricedLine, item: Item, tax: Tax)
    requires CalculatedFrom(lines, items, taxes, total)
    requires Calculated(line, item, tax) && item.money == Money(tax.full, tax.amount) && AtRate(tax, tax.percent)
    requires item.money.amount == LinePrice(line)
    ensures CalculatedFrom(lines + [line], items + [item], taxes + [tax], total.Plus(item.money))
  {
    var more := items + [item];
    assert SellerRows(more)[..|items|] == SellerRows(items) && SellerRows(more)[|items|].money == item.money;
    assert (lines + [line])[..|lines|] == lines;
  }

  lemma TaxedLine(line: PricedLine)
    requires TaxOf(line).Success?
    ensures var tax := TaxOf(line).value; var item := Item(line.seller, tax.percent, Money(tax.full, tax.amount));
      && !Untaxable(line) && Calculated(line, item, tax) && AtRate(tax, tax.percent)
      && item.money.amount == LinePrice(line)
  {
    TaxOfLine(line);
  }

  method CalculateTotalAmount(lines: seq<PricedLine>) returns (r: Result<Calculation>)
    ensures r.Failure? <==> exists k :: 0 <= k < |lines| && Untaxable(lines[k])
    ensures r.Success? ==> CalculatedFrom(lines, r.value.items, r.value.taxes, r.value.total)
  {
    var total, items, taxes := ZERO, [], [];
    assert SellerRows(items) == [];
    for i := 0 to |lines|
      invariant CalculatedFrom(lines[..i], items, taxes, total)
      invariant forall k :: 0 <= k < i ==> !Untaxable(lines[k])
    {
      var tax := TaxOf(lines[i]);
      if tax.Failure? {
        TaxOfLine(lines[i]);
        return Failure(tax.error);
      }
      TaxedLine(lines[i]);
      var item := Item(lines[i].seller, tax.value.percent, Money(tax.value.full, tax.value.amount));
      OneMoreItem(lines[..i], items, taxes, total, lines[i], item, tax.value);
      assert lines[..i] + [lines[i]] == lines[..i + 1];
      total := total.Plus(item.money);
      items, taxes := items + [item], taxes + [tax.value];
    }
    assert lines[..|lines|] == lines;
    return Success(Calculation(items, total, taxes));
  }

  // ---- Seller orders

  datatype OrderType = CREDIT_TO_SELLER | DEBIT_FROM_SELLER

  datatype OrderId = OrderId(source: string, target: string, kind: OrderType, paymentId: string, currency: string)

  datatype Order = Order(id: OrderId, money: Money, untaxed: real, status: PaymentStatus)

  function OrderIdOf(p: Payment, seller: string): OrderId {
    OrderId(p.customer, seller, if p.kind == PURCHASE then CREDIT_TO_SELLER else DEBIT_FROM_SELLER, p.id, p.currency)
  }

  /** The text under which order rows of a payment are grouped; only the seller in the middle varies. */
  function GroupingKey(p: Payment, seller: string): string {
    (p.customer + "|") + seller + KeyTail(p)
  }

  function KeyTail(p: Payment): string {
    "|" + (if p.kind == PURCHASE then "CREDIT_TO_SELLER" else "DEBIT_FROM_SELLER")
    + "|" + p.id + "|" + p.currency + "|" + StatusName(p.status)
  }

  function StatusName(s: PaymentStatus): string {
    match s
    case INITIATED => "INITIATED"
    case WAITING => "WAITING"
    case COMPLETED => "COMPLETED"
    case FAILED => "FAILED"
  }

  lemma MiddleIsDetermined(head: string, a: string, b: string, tail: string)
    requires head + a + tail == head + b + tail
    ensures a == b
  {
    assert |head + a + tail| == |head| + |a| + |tail|;
    assert |head + b + tail| == |head| + |b| + |tail|;
    assert a == (head + a + tail)[|head|..|head| + |a|];
    assert b == (head + b + tail)[|head|..|head| + |b|];
  }

  /** Within one payment the joined text separates sellers, whatever characters their identities contain. */
  lemma GroupingKeySeparatesSellers(p: Payment, a: string, b: string)
    ensures GroupingKey(p, a) == GroupingKey(p, b) <==> a == b
  {
    if GroupingKey(p, a) == GroupingKey(p, b) { MiddleIsDetermined(p.customer + "|", a, b, KeyTail(p)); }
  }

  function OrderOf(p: Payment, group: Row<string>): Order {
    var untaxed := group.money.amount - group.money.tax;
    Order(OrderIdOf(p, group.key), Saved(group.money), Round(untaxed) as real, p.status)
  }

  function OrdersOf(p: Payment): (os: seq<Order>)
    ensures var groups := Grouped(SellerRows(p.items));
      |os| == |groups| && forall k :: 0 <= k < |os| ==> os[k] == OrderOf(p, groups[k])
  {
    var groups := Grouped(SellerRows(p.items));
    seq(|groups|, k requires 0 <= k < |groups| => OrderOf(p, groups[k]))
  }

  function OrderIds(orders: seq<Order>): (ids: seq<OrderId>)
    ensures |ids| == |orders| && forall k :: 0 <= k < |ids| ==> ids[k] == orders[k].id
  {
    seq(|orders|, k requires 0 <= k < |orders| => orders[k].id)
  }

  predicate HasOrder(orders: seq<Order>, id: OrderId) {
    exists k :: 0 <= k < |orders| && orders[k].id == id
  }

  function OrderIndex(orders: seq<Order>, id: OrderId): (i: nat)
    requires HasOrder(orders, id)
    ensures i < |orders| && orders[i].id == id
  {
    if orders[0].id == id then 0
    else
      assert HasOrder(orders[1..], id) by {
        var k :| 0 <= k < |orders| && orders[k].id == id;
        assert orders[1..][k - 1].id == id;
      }
      1 + OrderIndex(orders[1..], id)
  }

  /** `addTransaction`: an order that exists keeps its amounts and takes the new status. */
  function UpsertOrder(orders: seq<Order>, n: Order): seq<Order> {
    if HasOrder(orders, n.id) then
      var i := OrderIndex(orders, n.id);
      orders[i := orders[i].(status := n.status)]
    else orders + [n]
  }

  function UpsertAll(orders: seq<Order>, ns: seq<Order>): seq<Order> {
    if ns == [] then orders else UpsertOrder(UpsertAll(orders, ns[..|ns| - 1]), ns[|ns| - 1])
  }

  /** The stored orders, with the new status on those generated again. */
  function Refreshed(orders: seq<Order>, ns: seq<Order>, status: PaymentStatus): (r: seq<Order>)
    ensures |r| == |orders|
    ensures forall k :: 0 <= k < |r| ==>
      r[k] == if HasOrder(ns, orders[k].id) then orders[k].(status := status) else orders[k]
  {
    seq(|orders|, k requires 0 <= k < |orders| =>
      if HasOrder(ns, orders[k].id) then orders[k].(status := status) else orders[k])
  }

  /** The generated orders that are not stored yet. */
  function Missing(orders: seq<Order>, ns: seq<Order>): seq<Order> {
    if ns == [] then []
    else
      var last := ns[|ns| - 1];
      Missing(orders, ns[..|ns| - 1]) + if HasOrder(orders, last.id) then [] else [last]
  }

  lemma {:induction false} MissingIsNew(orders: seq<Order>, ns: seq<Order>, id: OrderId)
    ensures HasOrder(Missing(orders, ns), id) ==> HasOrder(ns, id) && !HasOrder(orders, id)
  {
    if ns != [] {
      var n := |ns| - 1;
      var before := Missing(orders, ns[..n]);
      MissingIsNew(orders, ns[..n], id);
      if HasOrder(Missing(orders, ns), id) {
        var k :| 0 <= k < |Missing(orders, ns)| && Missing(orders, ns)[k].id == id;
        if k < |before| {
          assert before[k].id == id;
          var j :| 0 <= j < n && ns[..n][j].id == id;
          assert ns[j].id == id;
        } else {
          assert ns[n].id == id;
        }
      }
    }
  }

  lemma HasOrderOfPrefix(ns: seq<Order>, id: OrderId)
    requires ns != []
    ensures HasOrder(ns, id) <==> HasOrder(ns[..|ns| - 1], id) || ns[|ns| - 1].id == id
  {
    var n := |ns| - 1;
    if HasOrder(ns[..n], id) {
      var k :| 0 <= k < n && ns[..n][k].id == id;
      assert ns[k].id == id;
    }
    if HasOrder(ns, id) && ns[n].id != id {
      var k :| 0 <= k < |ns| && ns[k].id == id;
      assert ns[..n][k].id == id;
    }
  }

  lemma HasOrderConcat(a: seq<Order>, b: seq<Order>, id: OrderId)
    ensures HasOrder(a + b, id) <==> HasOrder(a, id) || HasOrder(b, id)
  {
    if HasOrder(a, id) {
      var k :| 0 <= k < |a| && a[k].id == id;
      assert (a + b)[k].id == id;
    }
    if HasOrder(b, id) {
      var k :| 0 <= k < |b| && b[k].id == id;
      assert (a + b)[|a| + k].id == id;
    }
  }

  /** Upserting is: refresh what is stored, then append what is missing. */
  lemma {:induction false} UpsertAllIs(orders: seq<Order>, ns: seq<Order>, status: PaymentStatus)
    requires Distinct(OrderIds(orders)) && Distinct(OrderIds(ns))
    requires forall k :: 0 <= k < |ns| ==> ns[k].status == status
    ensures UpsertAll(orders, ns) == Refreshed(orders, ns, status) + Missing(orders, ns)
  {
    if ns == [] {
      assert Refreshed(orders, ns, status) == orders;
    } else {
      var before, last := ns[..|ns| - 1], ns[|ns| - 1];
      DistinctPrefix(ns);
      UpsertAllIs(orders, before, status);
      UpsertLast(orders, ns, status);
    }
  }

  lemma DistinctPrefix(ns: seq<Order>)
    requires ns != [] && Distinct(OrderIds(ns))
    ensures Distinct(OrderIds(ns[..|ns| - 1])) && !HasOrder(ns[..|ns| - 1], ns[|ns| - 1].id)
  {
    var before := ns[..|ns| - 1];
    forall i, j | 0 <= i < j < |before| ensures OrderIds(before)[i] != OrderIds(before)[j] {
      assert OrderIds(ns)[i] != OrderIds(ns)[j];
    }
    forall i | 0 <= i < |before| ensures before[i].id != ns[|ns| - 1].id {
      assert OrderIds(ns)[i] != OrderIds(ns)[|ns| - 1];
    }
  }

  lemma {:induction false} IndexInFirst(a: seq<Order>, b: seq<Order>, id: OrderId)
    requires HasOrder(a, id)
    ensures HasOrder(a + b, id) && OrderIndex(a + b, id) == OrderIndex(a, id)
  {
    HasOrderConcat(a, b, id);
    if a[0].id != id {
      assert HasOrder(a[1..], id) by {
        var k :| 0 <= k < |a| && a[k].id == id;
        assert a[1..][k - 1].id == id;
      }
      IndexInFirst(a[1..], b, id);
      assert (a + b)[1..] == a[1..] + b;
    }
  }

  lemma RefreshedHasSame(orders: seq<Order>, ns: seq<Order>, status: PaymentStatus, id: OrderId)
    ensures HasOrder(Refreshed(orders, ns, status), id) <==> HasOrder(orders, id)
  {
    var r := Refreshed(orders, ns, status);
    if HasOrder(orders, id) {
      var k :| 0 <= k < |orders| && orders[k].id == id;
      assert r[k].id == id;
    }
    if HasOrder(r, id) {
      var k :| 0 <= k < |r| && r[k].id == id;
      assert orders[k].id == id;
    }
  }

  lemma UpsertLast(orders: seq<Order>, ns: seq<Order>, status: PaymentStatus)
    requires Distinct(OrderIds(orders)) && Distinct(OrderIds(ns)) && ns != [] && ns[|ns| - 1].status == status
    ensures var before, last := ns[..|ns| - 1], ns[|ns| - 1];
      UpsertOrder(Refreshed(orders, before, status) + Missing(orders, before), last)
      == Refreshed(orders, ns, status) + Missing(orders, ns)
  {
    var before, last := ns[..|ns| - 1], ns[|ns| - 1];
    var kept, added := Refreshed(orders, before, status), Missing(orders, before);
    DistinctPrefix(ns);
    forall k | 0 <= k < |orders|
      ensures HasOrder(ns, orders[k].id) <==> HasOrder(before, orders[k].id) || last.id == orders[k].id
    {
      HasOrderOfPrefix(ns, orders[k].id);
    }
    HasOrderConcat(kept, added, last.id);
    RefreshedHasSame(orders, before, status, last.id);
    MissingIsNew(orders, before, last.id);
    if HasOrder(orders, last.id) {
      UpsertPresent(orders, kept, added, last);
      assert OrderIds(kept) == OrderIds(orders);
      RefreshOne(kept, Refreshed(orders, ns, status), last, status);
    } else {
      assert Refreshed(orders, ns, status) == kept;
    }
  }

  /** An order that is stored is updated in its place. */
  lemma UpsertPresent(orders: seq<Order>, kept: seq<Order>, added: seq<Order>, n: Order)
    requires HasOrder(kept, n.id)
    ensures var i := OrderIndex(kept, n.id);
      UpsertOrder(kept + added, n) == kept[i := kept[i].(status := n.status)] + added
  {
    IndexInFirst(kept, added, n.id);
  }

  lemma {:induction false} RefreshOne(kept: seq<Order>, after: seq<Order>, n: Order, status: PaymentStatus)
    requires Distinct(OrderIds(kept)) && HasOrder(kept, n.id) && |kept| == |after|
    requires forall k :: 0 <= k < |kept| ==>
      after[k] == if kept[k].id == n.id then kept[k].(status := status) else kept[k]
    ensures var i := OrderIndex(kept, n.id); kept[i := kept[i].(status := status)] == after
  {
    var i := OrderIndex(kept, n.id);
    forall k | 0 <= k < |kept| && k != i ensures kept[k].id != n.id {
      assert OrderIds(kept)[k] != OrderIds(kept)[i];
    }
  }

  // ---- Orders of a payment

  lemma OrdersAreDistinct(p: Payment)
    ensures Distinct(OrderIds(OrdersOf(p)))
  {
    var groups, ids := Grouped(SellerRows(p.items)), OrderIds(OrdersOf(p));
    GroupedIsSound(SellerRows(p.items));
    forall i, j | 0 <= i < j < |ids| ensures ids[i] != ids[j] { assert RowKeys(groups)[i] != RowKeys(groups)[j]; }
  }

  function OrderRows(orders: seq<Order>): (rows: seq<Row<OrderId>>)
    ensures |rows| == |orders| && forall k :: 0 <= k < |rows| ==> rows[k] == Row(orders[k].id, orders[k].money)
  {
    seq(|orders|, k requires 0 <= k < |orders| => Row(orders[k].id, orders[k].money))
  }

  lemma {:induction false} MissingFromNothing(orders: seq<Order>, ns: seq<Order>)
    requires forall k :: 0 <= k < |ns| ==> !HasOrder(orders, ns[k].id)
    ensures Missing(orders, ns) == ns
  {
    if ns != [] {
      MissingFromNothing(orders, ns[..|ns| - 1]);
      assert !HasOrder(orders, ns[|ns| - 1].id);
    }
  }

  lemma {:induction false} NothingMissing(orders: seq<Order>, ns: seq<Order>)
    requires forall k :: 0 <= k < |ns| ==> HasOrder(orders, ns[k].id)
    ensures Missing(orders, ns) == []
  {
    if ns != [] {
      NothingMissing(orders, ns[..|ns| - 1]);
      assert HasOrder(orders, ns[|ns| - 1].id);
    }
  }

  lemma {:induction false} MissingKeepsDistinct(orders: seq<Order>, ns: seq<Order>)
    requires Distinct(OrderIds(ns))
    ensures Distinct(OrderIds(Missing(orders, ns)))
  {
    if ns != [] {
      var before, last := ns[..|ns| - 1], ns[|ns| - 1];
      var m := Missing(orders, before);
      DistinctPrefix(ns);
      MissingKeepsDistinct(orders, before);
      MissingIsNew(orders, before, last.id);
      forall k | 0 <= k < |m| ensures m[k].id != last.id { assert HasOrder(m, m[k].id); }
      var all := Missing(orders, ns);
      forall i, j | 0 <= i < j < |all| ensures OrderIds(all)[i] != OrderIds(all)[j] {
        if j < |m| { assert OrderIds(m)[i] != OrderIds(m)[j]; }
      }
    }
  }

  /** Upserting never creates a second order of one identity. */
  lemma UpsertKeepsDistinct(orders: seq<Order>, ns: seq<Order>, status: PaymentStatus)
    requires Distinct(OrderIds(orders)) && Distinct(OrderIds(ns))
    requires forall k :: 0 <= k < |ns| ==> ns[k].status == status
    ensures Distinct(OrderIds(UpsertAll(orders, ns)))
  {
    UpsertAllIs(orders, ns, status);
    MissingKeepsDistinct(orders, ns);
    var kept, added := Refreshed(orders, ns, status), Missing(orders, ns);
    var all := kept + added;
    forall i, j | 0 <= i < j < |all| ensures OrderIds(all)[i] != OrderIds(all)[j] {
      if j < |kept| {
        assert OrderIds(orders)[i] != OrderIds(orders)[j];
      } else if i < |kept| {
        assert HasOrder(added, added[j - |kept|].id) && HasOrder(orders, orders[i].id);
        MissingIsNew(orders, ns, added[j - |kept|].id);
      } else {
        assert OrderIds(added)[i - |kept|] != OrderIds(added)[j - |kept|];
      }
    }
  }

  lemma {:induction false} UpsertedAreThere(orders: seq<Order>, ns: seq<Order>, k: nat)
    requires k < |ns|
    ensures HasOrder(Missing(orders, ns), ns[k].id) || HasOrder(orders, ns[k].id)
  {
    var n := |ns| - 1;
    if k < n {
      UpsertedAreThere(orders, ns[..n], k);
      HasOrderConcat(Missing(orders, ns[..n]), Missing(orders, ns)[|Missing(orders, ns[..n])|..], ns[k].id);
      assert Missing(orders, ns)
        == Missing(orders, ns[..n]) + Missing(orders, ns)[|Missing(orders, ns[..n])|..];
    } else if !HasOrder(orders, ns[n].id) {
      assert Missing(orders, ns)[|Missing(orders, ns)| - 1] == ns[n];
    }
  }

  /**
   Generating the orders of a payment again, even under a new status, keeps every order there is and creates none:
   only the status of that payment's orders changes.
   */
  lemma OrderRegeneration(orders: seq<Order>, p: Payment, status: PaymentStatus)
    requires Distinct(OrderIds(orders))
    ensures var once := UpsertAll(orders, OrdersOf(p));
      && Distinct(OrderIds(once))
      && UpsertAll(once, OrdersOf(p.(status := status))) == Refreshed(once, OrdersOf(p), status)
  {
    var ns, again := OrdersOf(p), OrdersOf(p.(status := status));
    var once := UpsertAll(orders, ns);
    OrdersAreDistinct(p);
    OrdersAreDistinct(p.(status := status));
    UpsertKeepsDistinct(orders, ns, p.status);
    UpsertAllIs(orders, ns, p.status);
    UpsertAllIs(once, again, status);
    assert |again| == |ns| && forall k :: 0 <= k < |ns| ==> again[k].id == ns[k].id;
    forall k | 0 <= k < |ns| ensures HasOrder(once, again[k].id) {
      UpsertedAreThere(orders, ns, k);
      HasOrderConcat(Refreshed(orders, ns, p.status), Missing(orders, ns), ns[k].id);
      RefreshedHasSame(orders, ns, p.status, ns[k].id);
    }
    NothingMissing(once, again);
    forall id ensures HasOrder(again, id) <==> HasOrder(ns, id) { SameIdsSameOrders(ns, again, id); }
    assert Refreshed(once, again, status) == Refreshed(once, ns, status);
  }

  lemma SameIdsSameOrders(a: seq<Order>, b: seq<Order>, id: OrderId)
    requires |a| == |b| && forall k :: 0 <= k < |a| ==> a[k].id == b[k].id
    ensures HasOrder(a, id) <==> HasOrder(b, id)
  {
    if HasOrder(a, id) { assert b[OrderIndex(a, id)].id == id; }
    if HasOrder(b, id) { assert a[OrderIndex(b, id)].id == id; }
  }

  // ---- The account ledger

  datatype Side = CREDIT | DEBIT

  datatype LedgerRow = LedgerRow(
    account: string, paymentId: string, side: Side, money: Money, status: PaymentStatus,
    roundingOperation: Option<string>)

  function CustomerSide(kind: PaymentType): Side { if kind == PURCHASE then DEBIT else CREDIT }

  function SellerSide(kind: PaymentType): Side { if kind == PURCHASE then CREDIT else DEBIT }

  function SellerRow(p: Payment, group: Row<string>): LedgerRow {
    LedgerRow(group.key, p.id, SellerSide(p.kind), Saved(group.money), p.status, None)
  }

  function CustomerRow(p: Payment): LedgerRow {
    LedgerRow(p.customer, p.id, CustomerSide(p.kind), Saved(p.total), p.status, None)
  }

  function SellerLedger(p: Payment): (rows: seq<LedgerRow>)
    ensures var groups := Grouped(SellerRows(p.items));
      |rows| == |groups| && forall k :: 0 <= k < |rows| ==> rows[k] == SellerRow(p, groups[k])
  {
    var groups := Grouped(SellerRows(p.items));
    seq(|groups|, k requires 0 <= k < |groups| => SellerRow(p, groups[k]))
  }

  /** `fromPayment`: one row per seller on one side, the customer's total on the other. */
  function LedgerOf(p: Payment): seq<LedgerRow> { SellerLedger(p) + [CustomerRow(p)] }

  predicate SameEntry(a: LedgerRow, b: LedgerRow) {
    a.account == b.account && a.paymentId == b.paymentId && a.side == b.side
  }

  /** The nominal row that a new row replaces. */
  predicate Replaced(row: LedgerRow, news: seq<LedgerRow>) {
    row.roundingOperation.None? && exists k :: 0 <= k < |news| && SameEntry(row, news[k])
  }

  function DeleteOld(ledger: seq<LedgerRow>, news: seq<LedgerRow>): seq<LedgerRow> {
    if ledger == [] then []
    else
      var last := ledger[|ledger| - 1];
      DeleteOld(ledger[..|ledger| - 1], news) + if Replaced(last, news) then [] else [last]
  }

  /** `createNew`: delete, then insert. */
  function CreateNew(ledger: seq<LedgerRow>, news: seq<LedgerRow>): seq<LedgerRow> { DeleteOld(ledger, news) + news }

  lemma {:induction false} DeleteOldConcat(a: seq<LedgerRow>, b: seq<LedgerRow>, news: seq<LedgerRow>)
    ensures DeleteOld(a + b, news) == DeleteOld(a, news) + DeleteOld(b, news)
  {
    if b == [] {
      assert a + b == a;
    } else {
      assert (a + b)[..|a + b| - 1] == a + b[..|b| - 1];
      DeleteOldConcat(a, b[..|b| - 1], news);
    }
  }

  predicate SameEntries(a: seq<LedgerRow>, b: seq<LedgerRow>) {
    |a| == |b| && forall k :: 0 <= k < |a| ==> SameEntry(a[k], b[k])
  }

  lemma {:induction false} DeleteTwice(ledger: seq<LedgerRow>, a: seq<LedgerRow>, b: seq<LedgerRow>)
    requires SameEntries(a, b)
    ensures DeleteOld(DeleteOld(ledger, a), b) == DeleteOld(ledger, b)
  {
    if ledger != [] {
      var before, last := ledger[..|ledger| - 1], ledger[|ledger| - 1];
      DeleteTwice(before, a, b);
      SameReplaced(last, a, b);
      DeleteOldConcat(DeleteOld(before, a), if Replaced(last, a) then [] else [last], b);
      assert [last][..0] == [];
    }
  }

  lemma SameReplaced(row: LedgerRow, a: seq<LedgerRow>, b: seq<LedgerRow>)
    requires SameEntries(a, b)
    ensures Replaced(row, a) <==> Replaced(row, b)
  {
    if Replaced(row, a) {
      var k :| 0 <= k < |a| && SameEntry(row, a[k]);
      assert SameEntry(row, b[k]);
    }
    if Replaced(row, b) {
      var k :| 0 <= k < |b| && SameEntry(row, b[k]);
      assert SameEntry(row, a[k]);
    }
  }

  lemma {:induction false} DeleteAll(rows: seq<LedgerRow>, news: seq<LedgerRow>)
    requires forall k :: 0 <= k < |rows| ==> Replaced(rows[k], news)
    ensures DeleteOld(rows, news) == []
  {
    if rows != [] {
      assert Replaced(rows[|rows| - 1], news);
      DeleteAll(rows[..|rows| - 1], news);
    }
  }

  /**
   Generating the ledger rows of a payment again leaves what generating them once, at the last status, would have
   left.
   */
  lemma LedgerRegeneration(ledger: seq<LedgerRow>, p: Payment, status: PaymentStatus)
    ensures var again := LedgerOf(p.(status := status));
      CreateNew(CreateNew(ledger, LedgerOf(p)), again) == CreateNew(ledger, again)
  {
    var a, b := LedgerOf(p), LedgerOf(p.(status := status));
    assert SameEntries(a, b);
    DeleteOldConcat(DeleteOld(ledger, a), a, b);
    DeleteTwice(ledger, a, b);
    forall k | 0 <= k < |a| ensures Replaced(a[k], b) { assert SameEntry(a[k], b[k]); }
    DeleteAll(a, b);
    assert DeleteOld(ledger, b) + [] == DeleteOld(ledger, b);
  }

  /** The rounding rows, which carry the refund operation they belong to. */
  function RoundingRows(ledger: seq<LedgerRow>): seq<LedgerRow> {
    if ledger == [] then []
    else
      var last := ledger[|ledger| - 1];
      RoundingRows(ledger[..|ledger| - 1]) + if last.roundingOperation.Some? then [last] else []
  }

  lemma {:induction false} RoundingRowsConcat(a: seq<LedgerRow>, b: seq<LedgerRow>)
    ensures RoundingRows(a + b) == RoundingRows(a) + RoundingRows(b)
  {
    if b == [] {
      assert a + b == a;
    } else {
      assert (a + b)[..|a + b| - 1] == a + b[..|b| - 1];
      RoundingRowsConcat(a, b[..|b| - 1]);
    }
  }

  lemma {:induction false} NoRoundingRows(rows: seq<LedgerRow>)
    requires forall k :: 0 <= k < |rows| ==> rows[k].roundingOperation.None?
    ensures RoundingRows(rows) == []
  {
    if rows != [] {
      assert rows[|rows| - 1].roundingOperation.None?;
      NoRoundingRows(rows[..|rows| - 1]);
    }
  }

  lemma {:induction false} DeleteKeepsRounding(ledger: seq<LedgerRow>, news: seq<LedgerRow>)
    ensures RoundingRows(DeleteOld(ledger, news)) == RoundingRows(ledger)
  {
    if ledger != [] {
      var before, last := ledger[..|ledger| - 1], ledger[|ledger| - 1];
      DeleteKeepsRounding(before, news);
      RoundingRowsConcat(DeleteOld(before, news), if Replaced(last, news) then [] else [last]);
      assert [last][..0] == [];
    }
  }

  /** No posted rounding entry is ever touched by regeneration. */
  lemma RoundingIsUntouched(ledger: seq<LedgerRow>, p: Payment)
    ensures RoundingRows(CreateNew(ledger, LedgerOf(p))) == RoundingRows(ledger)
  {
    DeleteKeepsRounding(ledger, LedgerOf(p));
    RoundingRowsConcat(DeleteOld(ledger, LedgerOf(p)), LedgerOf(p));
    NoRoundingRows(LedgerOf(p));
    assert RoundingRows(ledger) + [] == RoundingRows(ledger);
  }

  /** The nominal rows of one account, payment and side. */
  function NominalRows(ledger: seq<LedgerRow>, like: LedgerRow): seq<LedgerRow> {
    if ledger == [] then []
    else
      var last := ledger[|ledger| - 1];
      NominalRows(ledger[..|ledger| - 1], like)
      + if last.roundingOperation.None? && SameEntry(last, like) then [last] else []
  }

  lemma {:induction false} NominalRowsConcat(a: seq<LedgerRow>, b: seq<LedgerRow>, like: LedgerRow)
    ensures NominalRows(a + b, like) == NominalRows(a, like) + NominalRows(b, like)
  {
    if b == [] {
      assert a + b == a;
    } else {
      assert (a + b)[..|a + b| - 1] == a + b[..|b| - 1];
      NominalRowsConcat(a, b[..|b| - 1], like);
    }
  }

  lemma {:induction false} DeletedAreGone(ledger: seq<LedgerRow>, news: seq<LedgerRow>, like: LedgerRow)
    requires exists k :: 0 <= k < |news| && SameEntry(like, news[k])
    ensures NominalRows(DeleteOld(ledger, news), like) == []
  {
    if ledger != [] {
      var before, last := ledger[..|ledger| - 1], ledger[|ledger| - 1];
      DeletedAreGone(before, news, like);
      NominalRowsConcat(DeleteOld(before, news), if Replaced(last, news) then [] else [last], like);
      var k :| 0 <= k < |news| && SameEntry(like, news[k]);
      if SameEntry(last, like) { assert SameEntry(last, news[k]); }
      assert [last][..0] == [];
    }
  }

  lemma {:induction false} OnlyOneLike(rows: seq<LedgerRow>, k: nat)
    requires k < |rows| && rows[k].roundingOperation.None?
    requires forall j :: 0 <= j < |rows| && j != k ==> !SameEntry(rows[j], rows[k])
    ensures NominalRows(rows, rows[k]) == [rows[k]]
  {
    var n := |rows| - 1;
    if k < n {
      assert !SameEntry(rows[n], rows[k]);
      OnlyOneLike(rows[..n], k);
    } else {
      NoneLike(rows[..n], rows[k]);
    }
  }

  lemma {:induction false} NoneLike(rows: seq<LedgerRow>, like: LedgerRow)
    requires forall j :: 0 <= j < |rows| ==> !SameEntry(rows[j], like)
    ensures NominalRows(rows, like) == []
  {
    if rows != [] {
      assert !SameEntry(rows[|rows| - 1], like);
      NoneLike(rows[..|rows| - 1], like);
    }
  }

  lemma GeneratedRowsDiffer(p: Payment, j: nat, k: nat)
    requires j < |LedgerOf(p)| && k < |LedgerOf(p)| && j != k
    ensures !SameEntry(LedgerOf(p)[j], LedgerOf(p)[k])
  {
    var keys := RowKeys(Grouped(SellerRows(p.items)));
    GroupedIsSound(SellerRows(p.items));
    if j < |keys| && k < |keys| { assert keys[j] != keys[k]; }
  }

  /** Every generated row is the only nominal row of its account, payment and side, whatever was there before. */
  lemma {:induction false} OneRowPerAccount(ledger: seq<LedgerRow>, p: Payment, k: nat)
    requires k < |LedgerOf(p)|
    ensures NominalRows(CreateNew(ledger, LedgerOf(p)), LedgerOf(p)[k]) == [LedgerOf(p)[k]]
  {
    var news := LedgerOf(p);
    assert SameEntry(news[k], news[k]);
    DeletedAreGone(ledger, news, news[k]);
    NominalRowsConcat(DeleteOld(ledger, news), news, news[k]);
    forall j | 0 <= j < |news| && j != k ensures !SameEntry(news[j], news[k]) { GeneratedRowsDiffer(p, j, k); }
    OnlyOneLike(news, k);
  }

  // ---- Which way the money goes

  /** An order and a ledger row of one seller: the same parties, payment and status, and the same direction. */
  predicate SameDirection(p: Payment, order: Order, row: LedgerRow) {
    && order.id.source == p.customer && order.id.target == row.account && order.id.currency == p.currency
    && order.id.paymentId == p.id == row.paymentId && order.status == p.status == row.status
    && row.roundingOperation.None?
    && (order.id.kind == CREDIT_TO_SELLER <==> p.kind == PURCHASE) && (row.side == CREDIT <==> p.kind == PURCHASE)
  }

  /** A purchase credits every seller, in orders and ledger alike, and debits the customer; a refund goes back. */
  lemma ViewsPointTheSameWay(p: Payment)
    ensures |OrdersOf(p)| == |SellerLedger(p)|
    ensures forall k :: 0 <= k < |OrdersOf(p)| ==> SameDirection(p, OrdersOf(p)[k], SellerLedger(p)[k])
    ensures LedgerOf(p) == SellerLedger(p) + [CustomerRow(p)]
    ensures var row := CustomerRow(p);
      && row.account == p.customer && row.paymentId == p.id && row.status == p.status && row.roundingOperation.None?
      && (row.side == DEBIT <==> p.kind == PURCHASE)
  {
  }

  function Signed(row: LedgerRow): Money {
    if row.side == CREDIT then row.money else Money(-row.money.amount, -row.money.tax)
  }

  /** Credits minus debits of one account. */
  function AccountNet(rows: seq<LedgerRow>, account: string): Money {
    if rows == [] then ZERO
    else
      var last := rows[|rows| - 1];
      AccountNet(rows[..|rows| - 1], account).Plus(if last.account == account then Signed(last) else ZERO)
  }

  lemma {:induction false} NetOfConcat(a: seq<LedgerRow>, b: seq<LedgerRow>, account: string)
    ensures AccountNet(a + b, account) == AccountNet(a, account).Plus(AccountNet(b, account))
  {
    if b == [] {
      assert a + b == a;
    } else {
      assert (a + b)[..|a + b| - 1] == a + b[..|b| - 1];
      NetOfConcat(a, b[..|b| - 1], account);
    }
  }

  lemma {:induction false} OppositesCancel(a: seq<LedgerRow>, b: seq<LedgerRow>, account: string)
    requires |a| == |b|
    requires forall k :: 0 <= k < |a| ==>
      a[k].account == b[k].account && a[k].money == b[k].money && a[k].side != b[k].side
    ensures AccountNet(a, account).Plus(AccountNet(b, account)) == ZERO
  {
    if a != [] { OppositesCancel(a[..|a| - 1], b[..|b| - 1], account); }
  }

  /** A refund of all items of a purchase leaves every account where it was, in amount and in tax. */
  lemma WholeRefundCancels(purchase: Payment, refund: Payment, account: string)
    requires purchase.kind == PURCHASE && refund.kind == REFUND && refund.customer == purchase.customer
    requires refund.items == purchase.items && refund.total == purchase.total
    ensures AccountNet(LedgerOf(purchase) + LedgerOf(refund), account) == ZERO
  {
    NetOfConcat(LedgerOf(purchase), LedgerOf(refund), account);
    OppositesCancel(LedgerOf(purchase), LedgerOf(refund), account);
  }

  // ---- The views agree

  lemma {:induction false} SameMoney<K, L>(a: seq<Row<K>>, b: seq<Row<L>>)
    requires |a| == |b| && forall k :: 0 <= k < |a| ==> a[k].money == b[k].money
    ensures MoneyOf(a) == MoneyOf(b)
  {
    if a != [] { SameMoney(a[..|a| - 1], b[..|b| - 1]); }
  }

  function LedgerMoney(rows: seq<LedgerRow>): (r: seq<Row<string>>)
    ensures |r| == |rows| && forall k :: 0 <= k < |r| ==> r[k] == Row(rows[k].account, rows[k].money)
  {
    seq(|rows|, k requires 0 <= k < |rows| => Row(rows[k].account, rows[k].money))
  }

  function SavedItems(items: seq<Item>): (r: seq<Item>)
    ensures |r| == |items| && forall k :: 0 <= k < |r| ==> r[k] == items[k].(money := Saved(items[k].money))
  {
    seq(|items|, k requires 0 <= k < |items| => items[k].(money := Saved(items[k].money)))
  }

  /** The payment was saved from this calculation, and read back. */
  predicate StoredFrom(p: Payment, c: Calculation, groups: seq<TaxGroup>) {
    p.items == SavedItems(c.items) && p.total == Saved(c.total) && p.taxes == SavedRows(GroupRows(groups))
  }

  /** One order and one ledger row for each seller that occurs, both holding exactly that seller's items. */
  predicate SellersAgree(p: Payment) {
    && |OrdersOf(p)| == |SellerLedger(p)|
    && (forall k :: 0 <= k < |OrdersOf(p)| ==>
          var order := OrdersOf(p)[k]; var row := SellerLedger(p)[k];
          && order.id.target == row.account && order.money == row.money == MoneyFor(SellerRows(p.items), row.account)
          && order.untaxed + order.money.tax == order.money.amount)
    && forall k :: 0 <= k < |p.items| ==>
         exists j :: 0 <= j < |OrdersOf(p)| && OrdersOf(p)[j].id.target == p.items[k].seller
  }

  /** Stored items, seller orders and seller ledger rows agree, in total and per seller, whatever the items are. */
  lemma StoredRowsAgree(p: Payment)
    requires WholeRows(SellerRows(p.items))
    ensures SellersAgree(p)
    ensures MoneyOf(SellerRows(p.items)) == MoneyOf(OrderRows(OrdersOf(p))) == MoneyOf(LedgerMoney(SellerLedger(p)))
  {
    var rows := SellerRows(p.items);
    var sellers := Grouped(rows);
    GroupedIsSound(rows);
    WholeGroups(rows);
    forall k | 0 <= k < |sellers|
      ensures OrderOf(p, sellers[k]).money == sellers[k].money == SellerRow(p, sellers[k]).money
      ensures OrderOf(p, sellers[k]).untaxed + OrderOf(p, sellers[k]).money.tax == OrderOf(p, sellers[k]).money.amount
    {
      WholeOrder(p, sellers[k]);
    }
    forall k | 0 <= k < |p.items|
      ensures exists j :: 0 <= j < |OrdersOf(p)| && OrdersOf(p)[j].id.target == p.items[k].seller
    {
      SellersHaveOrders(p, k);
    }
    SameMoney(OrderRows(OrdersOf(p)), sellers);
    SameMoney(LedgerMoney(SellerLedger(p)), sellers);
  }

  lemma WholeOrder(p: Payment, group: Row<string>)
    requires Whole(group.money)
    ensures var order := OrderOf(p, group);
      order.money == group.money == SellerRow(p, group).money && order.untaxed + order.money.tax == order.money.amount
  {
    var m := group.money;
    SavingIsIdempotent(m);
    assert m.amount - m.tax == (m.amount.Floor - m.tax.Floor) as real;
    WholeNumber(m.amount.Floor - m.tax.Floor);
    RoundOfWhole(m.amount - m.tax);
  }

  /** Every seller that occurs has an order. */
  lemma SellersHaveOrders(p: Payment, k: nat)
    requires k < |p.items|
    ensures exists j :: 0 <= j < |OrdersOf(p)| && OrdersOf(p)[j].id.target == p.items[k].seller
  {
    var rows := SellerRows(p.items);
    var sellers := Grouped(rows);
    GroupedIsSound(rows);
    assert rows[k].key == p.items[k].seller && HasKey(sellers, p.items[k].seller);
    var j :| 0 <= j < |sellers| && sellers[j].key == p.items[k].seller;
    assert OrdersOf(p)[j].id.target == p.items[k].seller;
  }

  lemma StoredItemsAreWhole(p: Payment, c: Calculation, groups: seq<TaxGroup>)
    requires StoredFrom(p, c, groups)
    ensures SellerRows(p.items) == SavedRows(SellerRows(c.items)) && WholeRows(SellerRows(p.items))
  {
    forall k | 0 <= k < |p.items| ensures Whole(p.items[k].money) { SavedIsWhole(c.items[k].money); }
  }

  /**
   The stored views of a payment, in amount and in tax. Items, seller orders and seller ledger rows always agree. The
   payment total and the customer's row, on the opposite side, agree with them if and only if the rounded sum of the
   calculated items is the sum of the rounded items, and with the tax groups if and only if the same holds of those;
   neither ever differs by more than half a unit for each rounding.
   */
  lemma ViewsAgree(p: Payment, c: Calculation, groups: seq<TaxGroup>)
    requires Carries(c) && GroupsOf(groups, c.taxes) && StoredFrom(p, c, groups)
    ensures SellersAgree(p)
    ensures MoneyOf(SellerRows(p.items)) == MoneyOf(OrderRows(OrdersOf(p))) == MoneyOf(LedgerMoney(SellerLedger(p)))
    ensures CustomerRow(p).money == p.total && CustomerRow(p).side != SellerSide(p.kind)
    ensures p.total == MoneyOf(LedgerMoney(SellerLedger(p))) <==> NoDrift(SellerRows(c.items))
    ensures p.total == MoneyOf(p.taxes) <==> NoDrift(Grouped(TaxRows(c.taxes)))
    ensures Close(p.total, MoneyOf(LedgerMoney(SellerLedger(p))), (|c.items| + 1) as real * 0.5)
    ensures Close(p.total, MoneyOf(p.taxes), (|groups| + 1) as real * 0.5)
  {
    StoredItemsAreWhole(p, c, groups);
    StoredRowsAgree(p);
    ViewsAgreeIff(p, c, groups);
    ViewsAreClose(p, c, groups);
  }

  lemma ViewsAgreeIff(p: Payment, c: Calculation, groups: seq<TaxGroup>)
    requires Carries(c) && GroupsOf(groups, c.taxes) && StoredFrom(p, c, groups)
    ensures CustomerRow(p).money == p.total && CustomerRow(p).side != SellerSide(p.kind)
    ensures p.total == MoneyOf(SellerRows(p.items)) <==> NoDrift(SellerRows(c.items))
    ensures p.total == MoneyOf(p.taxes) <==> NoDrift(Grouped(TaxRows(c.taxes)))
  {
    StoredItemsAreWhole(p, c, groups);
    SavedIsWhole(c.total);
    SavingIsIdempotent(p.total);
    GroupsAddUp(groups, c.taxes);
    SameMoney(TaxRows(c.taxes), SellerRows(c.items));
  }

  lemma ViewsAreClose(p: Payment, c: Calculation, groups: seq<TaxGroup>)
    requires Carries(c) && GroupsOf(groups, c.taxes) && StoredFrom(p, c, groups)
    ensures Close(p.total, MoneyOf(SellerRows(p.items)), (|c.items| + 1) as real * 0.5)
    ensures Close(p.total, MoneyOf(p.taxes), (|groups| + 1) as real * 0.5)
  {
    StoredItemsAreWhole(p, c, groups);
    GroupsAddUp(groups, c.taxes);
    SameMoney(TaxRows(c.taxes), SellerRows(c.items));
    TotalIsClose(SellerRows(c.items));
    TotalIsClose(GroupRows(groups));
  }

  lemma TotalIsClose<K>(rows: seq<Row<K>>)
    ensures Close(Saved(MoneyOf(rows)), MoneyOf(SavedRows(rows)), (|rows| + 1) as real * 0.5)
  {
    SavedTotals(rows);
    assert (|rows| + 1) as real * 0.5 == |rows| as real * 0.5 + 0.5;
  }

  predicate WholeItems(c: Calculation) { WholeRows(SellerRows(c.items)) }

  lemma WholeCalculation(c: Calculation)
    requires Carries(c) && WholeItems(c)
    ensures NoDrift(SellerRows(c.items)) && NoDrift(Grouped(TaxRows(c.taxes)))
    ensures SavedRows(SellerRows(c.items)) == SellerRows(c.items) && Saved(c.total) == c.total
  {
    WholeRowsDoNotDrift(SellerRows(c.items));
    forall k | 0 <= k < |c.taxes| ensures Whole(TaxRows(c.taxes)[k].money) {
      assert SellerRows(c.items)[k].money == TaxRow(c.taxes[k]).money;
    }
    WholeGroups(TaxRows(c.taxes));
    WholeRowsDoNotDrift(Grouped(TaxRows(c.taxes)));
  }

  /** Items that are whole already, as those of every refund, make all views of the payment agree. */
  lemma {:induction false} WholeItemsAgree(p: Payment, c: Calculation, groups: seq<TaxGroup>)
    requires Carries(c) && GroupsOf(groups, c.taxes) && StoredFrom(p, c, groups) && WholeItems(c)
    ensures p.total == c.total == MoneyOf(p.taxes) == MoneyOf(SellerRows(p.items))
    ensures p.total == MoneyOf(OrderRows(OrdersOf(p))) == MoneyOf(LedgerMoney(SellerLedger(p))) == CustomerRow(p).money
  {
    WholeCalculation(c);
    ViewsAgree(p, c, groups);
  }

  // ---- Three items of 10.00 at 18 percent

  const TEN: PricedLine := PricedLine("s", 100000.0, 1.0, Some(18.0))

  const TEN_TAX: Tax := Tax(100000.0, 18.0, 1800000.0 / 118.0, 100000.0 - 1800000.0 / 118.0)

  const TEN_ITEM: Item := Item("s", 18.0, Money(100000.0, 1800000.0 / 118.0))

  const THREE: seq<Item> := [TEN_ITEM, TEN_ITEM, TEN_ITEM]

  lemma TenIsCalculated()
    ensures Calculated(TEN, TEN_ITEM, TEN_TAX)
  {
  }

  lemma TenIsRounded()
    ensures Saved(TEN_ITEM.money) == Money(100000.0, 15254.0)
    ensures Saved(Money(300000.0, 3.0 * (1800000.0 / 118.0))) == Money(300000.0, 45763.0)
  {
  }

  lemma {:induction false} MoneyOfThree<K>(a: Row<K>, b: Row<K>, c: Row<K>)
    ensures MoneyOf([a, b, c]) == a.money.Plus(b.money).Plus(c.money)
  {
    assert [a, b, c][..2] == [a, b] && [a, b][..1] == [a] && [a][..0] == [];
    assert MoneyOf([a]) == ZERO.Plus(a.money) == a.money;
  }

  const THREE_LINES: seq<PricedLine> := [TEN, TEN, TEN]

  const THREE_CALCULATED: Calculation :=
    Calculation(THREE, MoneyOf(SellerRows(THREE)), [TEN_TAX, TEN_TAX, TEN_TAX])

  /** The one tax group: the calculation's taxes, merged. */
  const THREE_GROUPS: seq<TaxGroup> :=
    [TaxGroup(18.0, Tax(300000.0, 18.0, 3.0 * (1800000.0 / 118.0), 300000.0 - 3.0 * (1800000.0 / 118.0)))]

  const THREE_STORED: Payment := Payment(
    "p", PURCHASE, "c", "TRY", WAITING, SavedItems(THREE), Saved(MoneyOf(SellerRows(THREE))),
    SavedRows(GroupRows(THREE_GROUPS)))

  /** The items and taxes are what three lines of 10.00 at 18 percent give. */
  lemma ThreeAreCalculated()
    ensures |THREE_LINES| == |THREE_CALCULATED.items| == |THREE_CALCULATED.taxes|
    ensures forall k :: 0 <= k < |THREE_LINES| ==>
      Calculated(THREE_LINES[k], THREE_CALCULATED.items[k], THREE_CALCULATED.taxes[k])
    ensures Carries(THREE_CALCULATED)
  {
    TenIsCalculated();
  }

  lemma ThreeAreGrouped()
    ensures GroupsOf(THREE_GROUPS, THREE_CALCULATED.taxes)
  {
    var row := TaxRow(TEN_TAX);
    var rows := TaxRows(THREE_CALCULATED.taxes);
    var two := Row(18.0, row.money.Plus(row.money));
    assert rows == [row, row, row] && rows[..2] == [row, row] && [row, row][..1] == [row] && [row][..0] == [];
    assert Grouped([row]) == AddTo([], row) == [row];
    assert [row][0].key == 18.0;
    assert Grouped([row, row]) == AddTo([row], row) == [two];
    assert [two][0].key == 18.0;
    assert Grouped(rows) == AddTo([two], row) == [Row(18.0, two.money.Plus(row.money))];
    assert GroupRows(THREE_GROUPS) == Grouped(rows);
  }

  lemma ThreeDrift(p: Payment, c: Calculation, groups: seq<TaxGroup>)
    requires Carries(c) && GroupsOf(groups, c.taxes) && StoredFrom(p, c, groups) && c.items == THREE
    ensures MoneyOf(LedgerMoney(SellerLedger(p))) == Money(300000.0, 45762.0)
    ensures CustomerRow(p).money == p.total == Money(300000.0, 45763.0) && !NoDrift(SellerRows(c.items))
  {
    var row := Row("s", TEN_ITEM.money);
    var saved := Row("s", Saved(TEN_ITEM.money));
    TenIsRounded();
    assert SellerRows(c.items) == [row, row, row] && SavedRows(SellerRows(c.items)) == [saved, saved, saved];
    MoneyOfThree(row, row, row);
    MoneyOfThree(saved, saved, saved);
    ViewsAgree(p, c, groups);
    StoredItemsAreWhole(p, c, groups);
  }

  /**
   Three lines of 10.00 at 18 percent, calculated, saved and read back: each tax is saved as 1.5254 and the sellers hold
   4.5762, but the payment and the customer's row hold 4.5763.
   */
  lemma StoredTaxesCanDrift()
    ensures forall k :: 0 <= k < |THREE_LINES| ==>
      Calculated(THREE_LINES[k], THREE_CALCULATED.items[k], THREE_CALCULATED.taxes[k])
    ensures Carries(THREE_CALCULATED) && GroupsOf(THREE_GROUPS, THREE_CALCULATED.taxes)
    ensures StoredFrom(THREE_STORED, THREE_CALCULATED, THREE_GROUPS)
    ensures MoneyOf(LedgerMoney(SellerLedger(THREE_STORED))) == Money(300000.0, 45762.0)
    ensures CustomerRow(THREE_STORED).money == THREE_STORED.total == Money(300000.0, 45763.0)
  {
    ThreeAreCalculated();
    ThreeAreGrouped();
    ThreeDrift(THREE_STORED, THREE_CALCULATED, THREE_GROUPS);
  }

  lemma {:induction false} NothingToDelete(ledger: seq<LedgerRow>, news: seq<LedgerRow>)
    requires forall k :: 0 <= k < |ledger| ==> !Replaced(ledger[k], news)
    ensures DeleteOld(ledger, news) == ledger
  {
    if ledger != [] {
      assert !Replaced(ledger[|ledger| - 1], news);
      NothingToDelete(ledger[..|ledger| - 1], news);
    }
  }

  /** The first generation only appends, so the stored orders and rows of the payment are the ones that agree. */
  lemma {:induction false} FirstGeneration(orders: seq<Order>, ledger: seq<LedgerRow>, p: Payment)
    requires Distinct(OrderIds(orders))
    requires forall k :: 0 <= k < |orders| ==> orders[k].id.paymentId != p.id
    requires forall k :: 0 <= k < |ledger| ==> ledger[k].paymentId != p.id
    ensures UpsertAll(orders, OrdersOf(p)) == orders + OrdersOf(p)
    ensures CreateNew(ledger, LedgerOf(p)) == ledger + LedgerOf(p)
  {
    var ns := OrdersOf(p);
    OrdersAreDistinct(p);
    UpsertAllIs(orders, ns, p.status);
    MissingFromNothing(orders, ns);
    forall k | 0 <= k < |orders| ensures !HasOrder(ns, orders[k].id) { }
    assert Refreshed(orders, ns, p.status) == orders;
    NothingToDelete(ledger, LedgerOf(p));
  }

  // ---- The stored views

  class AccountingStore {
    var orders: seq<Order>
    var ledger: seq<LedgerRow>

    /** One order per source, target, type, payment and currency. */
    predicate Valid() reads this { Distinct(OrderIds(orders)) }

    constructor ()
      ensures Valid() && orders == [] && ledger == []
    {
      orders, ledger := [], [];
    }

    method AddTransaction(n: Order)
      modifies this`orders
      ensures orders == UpsertOrder(old(orders), n)
    {
      if HasOrder(orders, n.id) {
        var i := OrderIndex(orders, n.id);
        orders := orders[i := orders[i].(status := n.status)];
      } else {
        orders := orders + [n];
      }
    }

    method AddSellerPaymentOrders(p: Payment)
      requires Valid()
      modifies this`orders
      ensures Valid() && orders == UpsertAll(old(orders), OrdersOf(p))
    {
      var groups := Group(SellerRows(p.items));
      ghost var before := orders;
      for i := 0 to |groups|
        invariant orders == UpsertAll(before, OrdersOf(p)[..i])
      {
        assert OrdersOf(p)[..i + 1][..i] == OrdersOf(p)[..i];
        AddTransaction(OrderOf(p, groups[i]));
      }
      assert OrdersOf(p)[..|groups|] == OrdersOf(p);
      OrdersAreDistinct(p);
      UpsertKeepsDistinct(before, OrdersOf(p), p.status);
    }

    /**
     `fromPayment`: add up the items per seller, then insert the rows; outside a caller's transaction the nominal rows
     they replace are deleted first.
     */
    method FromPayment(p: Payment, inTransaction: bool)
      modifies this`ledger
      ensures ledger == if inTransaction then old(ledger) + LedgerOf(p) else CreateNew(old(ledger), LedgerOf(p))
    {
      var groups := Group(SellerRows(p.items));
      var news: seq<LedgerRow> := [];
      for i := 0 to |groups|
        invariant news == SellerLedger(p)[..i]
      {
        news := news + [SellerRow(p, groups[i])];
      }
      assert SellerLedger(p)[..|groups|] == SellerLedger(p);
      news := news + [CustomerRow(p)];
      if inTransaction {
        ledger := ledger + news;
        return;
      }
      var kept := DeleteOldTransactions(news);
      ledger := kept + news;
    }

    method DeleteOldTransactions(news: seq<LedgerRow>) returns (kept: seq<LedgerRow>)
      ensures kept == DeleteOld(ledger, news)
    {
      kept := [];
      for i := 0 to |ledger|
        invariant kept == DeleteOld(ledger[..i], news)
      {
        assert ledger[..i + 1][..i] == ledger[..i];
        if !Replaced(ledger[i], news) { kept := kept + [ledger[i]]; }
      }
      assert ledger[..|ledger|] == ledger;
    }

    /** `postPaymentOperation`, whenever the payment moves on. */
    method PostPaymentOperation(p: Payment)
      requires Valid()
      modifies this
      ensures Valid() && orders == UpsertAll(old(orders), OrdersOf(p)) && ledger == CreateNew(old(ledger), LedgerOf(p))
      ensures RoundingRows(ledger) == RoundingRows(old(ledger))
    {
      RoundingIsUntouched(ledger, p);
      AddSellerPaymentOrders(p);
      FromPayment(p, false);
    }
  }
}
