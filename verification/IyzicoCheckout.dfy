/**
 The iyzico checkout operation: one persisted row moved by guarded updates from concurrent callbacks, checks and
 cancellations. Amounts are integers in units of 1e-4.
 */
module IyzicoCheckout {
  import opened Wrappers
  import opened Sums
  import opened RefundSplit
  import opened RefundRounding

  datatype BasketLine = BasketLine(itemId: string, price: int)

  /** Prices in a provider's answer are written without a sign. */
  datatype ItemTransaction = ItemTransaction(itemId: string, transactionId: string, price: nat, paidPrice: nat)

  datatype Initialization = INITIALIZING | INITIALIZED | RECONCILIATION_REQUIRED

  datatype Cancellation = NotCancelled | Cancelled | PaidAfterCancel

  datatype Checkout = Checkout(
    id: string, paymentId: string, currency: string, amount: int, status: OperationStatus,
    initialization: Initialization, token: Option<string>, providerPaymentId: Option<string>,
    basket: seq<BasketLine>, transactions: Option<seq<ItemTransaction>>, callbackReceived: bool,
    cancellation: Cancellation)

  // ---- The basket

  datatype CartItem = CartItem(id: string, total: Decimal)

  /** `checkoutMoney`: positive, at most two decimals. */
  function CheckoutMoney(value: Decimal): (r: Result<int>)
    ensures r.Success? <==> value.coefficient > 0 && FourDecimals(value) && Units(value) % 100 == 0
    ensures r.Success? ==> r.value == Units(value) > 0
    ensures r.Failure? ==> r.error == BadRequest
  {
    if value.coefficient <= 0 then Failure(BadRequest)
    else
      WholeCents(value);
      if value.coefficient * 100 % Pow10(value.scale) != 0 then Failure(BadRequest)
      else
        UnitsPositive(value);
        Success(Units(value))
  }

  /** At most two decimals is: at most four, and whole cents. */
  lemma WholeCents(value: Decimal)
    requires value.coefficient > 0
    ensures value.coefficient * 100 % Pow10(value.scale) == 0 <==> FourDecimals(value) && Units(value) % 100 == 0
  {
    var c, p := value.coefficient, Pow10(value.scale);
    if c * 100 % p == 0 { TwoDecimalsAreFour(value); }
    if FourDecimals(value) && Units(value) % 100 == 0 {
      var u := Units(value);
      var v := u / 100;
      DividesExactly(c * 10000, p);
      assert u * p == (100 * v) * p == 100 * (v * p);
      assert c * 100 == v * p;
      ExactQuotient(v, p);
    }
  }

  lemma DividesExactly(n: int, p: int)
    requires p > 0 && n % p == 0
    ensures (n / p) * p == n
  {
  }

  lemma TwoDecimalsAreFour(value: Decimal)
    requires value.coefficient > 0 && value.coefficient * 100 % Pow10(value.scale) == 0
    ensures FourDecimals(value) && Units(value) % 100 == 0
  {
    var p, n := Pow10(value.scale), value.coefficient * 100;
    var q := n / p;
    assert value.coefficient * 10000 == (100 * q) * p;
    ExactQuotient(100 * q, p);
  }

  lemma ExactQuotient(q: int, p: int)
    requires p > 0
    ensures (q * p) % p == 0 && (q * p) / p == q
  {
    var n := q * p;
    assert n == (n / p) * p + n % p;
    assert (q - n / p) * p == n % p;
    if q - n / p >= 1 { ProductMonotone(1, q - n / p, p); }
    if q - n / p <= -1 { ProductMonotone(q - n / p, -1, p); }
  }

  function BasketPairs(basket: seq<BasketLine>): (ps: seq<Pair>)
    ensures |ps| == |basket| && forall k :: 0 <= k < |ps| ==> ps[k] == (basket[k].itemId, basket[k].price)
  {
    seq(|basket|, k requires 0 <= k < |basket| => (basket[k].itemId, basket[k].price))
  }

  function PricePairs(ts: seq<ItemTransaction>): (ps: seq<Pair>)
    ensures |ps| == |ts| && forall k :: 0 <= k < |ps| ==> ps[k] == (ts[k].itemId, ts[k].price)
  {
    seq(|ts|, k requires 0 <= k < |ts| => (ts[k].itemId, ts[k].price))
  }

  function PaidPairs(ts: seq<ItemTransaction>): (ps: seq<Pair>)
    ensures |ps| == |ts| && forall k :: 0 <= k < |ps| ==> ps[k] == (ts[k].itemId, ts[k].paidPrice)
  {
    seq(|ts|, k requires 0 <= k < |ts| => (ts[k].itemId, ts[k].paidPrice))
  }

  function TransactionIds(ts: seq<ItemTransaction>): (ids: seq<string>)
    ensures |ids| == |ts| && forall k :: 0 <= k < |ids| ==> ids[k] == ts[k].transactionId
  {
    seq(|ts|, k requires 0 <= k < |ts| => ts[k].transactionId)
  }

  predicate SoundBasket(basket: seq<BasketLine>, amount: int) {
    && basket != [] && Distinct(Keys(BasketPairs(basket))) && Total(BasketPairs(basket)) == amount
    && forall k :: 0 <= k < |basket| ==> basket[k].price > 0
  }

  /** The basket part of `mapCheckout`: priced lines with unique identities that add up to the captured amount. */
  method MapBasket(items: seq<CartItem>, total: Decimal, paid: Decimal) returns (r: Result<(int, seq<BasketLine>)>)
    ensures r.Success? ==>
      && SoundBasket(r.value.1, r.value.0) && CheckoutMoney(total) == CheckoutMoney(paid) == Success(r.value.0)
      && |r.value.1| == |items|
      && forall k :: 0 <= k < |items| ==>
           r.value.1[k].itemId == items[k].id && CheckoutMoney(items[k].total) == Success(r.value.1[k].price)
    ensures r.Failure? <==>
      || CheckoutMoney(total).Failure? || CheckoutMoney(paid) != CheckoutMoney(total) || items == []
      || (exists k :: 0 <= k < |items| && (items[k].id == "" || CheckoutMoney(items[k].total).Failure?))
      || !SoundBasket(Priced(items), CheckoutMoney(total).value)
  {
    var amount, captured := CheckoutMoney(total), CheckoutMoney(paid);
    if amount.Failure? || captured != amount || items == [] {
      return Failure(BadRequest);
    }
    var basket: seq<BasketLine> := [];
    for i := 0 to |items|
      invariant basket == Priced(items)[..i]
      invariant forall k :: 0 <= k < i ==> items[k].id != "" && CheckoutMoney(items[k].total).Success?
    {
      var price := CheckoutMoney(items[i].total);
      if items[i].id == "" || price.Failure? {
        return Failure(BadRequest);
      }
      basket := basket + [BasketLine(items[i].id, price.value)];
    }
    assert basket == Priced(items);
    if !Distinct(Keys(BasketPairs(basket))) || Total(BasketPairs(basket)) != amount.value {
      return Failure(BadRequest);
    }
    return Success((amount.value, basket));
  }

  function Priced(items: seq<CartItem>): (b: seq<BasketLine>)
    ensures |b| == |items|
    ensures forall k :: 0 <= k < |b| ==>
      b[k] == BasketLine(items[k].id,
        if CheckoutMoney(items[k].total).Success? then CheckoutMoney(items[k].total).value else 0)
  {
    seq(|items|, k requires 0 <= k < |items| => BasketLine(items[k].id,
      if CheckoutMoney(items[k].total).Success? then CheckoutMoney(items[k].total).value else 0))
  }

  // ---- The provider's answer

  datatype ProviderPayment = Paid | Declined | Unexpected

  datatype ProviderItem = ProviderItem(transaction: ItemTransaction, approved: bool)

  datatype Retrieved = Retrieved(
    basketId: string, currency: string, price: int, paidPrice: int, payment: ProviderPayment, fraud: Option<int>,
    installment: int, items: Option<seq<ProviderItem>>, paymentId: string)

  /** What a check decides to write. */
  datatype Verdict = Verdict(
    status: OperationStatus, providerPaymentId: string, transactions: Option<seq<ItemTransaction>>)

  function Transactions(items: seq<ProviderItem>): (ts: seq<ItemTransaction>)
    ensures |ts| == |items| && forall k :: 0 <= k < |ts| ==> ts[k] == items[k].transaction
  {
    seq(|items|, k requires 0 <= k < |items| => items[k].transaction)
  }

  /** The mapping test of the code, one direction only: every basket line has a transaction. */
  predicate MapsBasket(basket: seq<BasketLine>, ts: seq<ItemTransaction>, amount: int) {
    && |ts| == |basket|
    && Distinct(Keys(PricePairs(ts))) && Distinct(TransactionIds(ts))
    && (forall k :: 0 <= k < |basket| ==>
          exists j :: 0 <= j < |ts| && ts[j].itemId == basket[k].itemId && ts[j].price == basket[k].price)
    && Total(PaidPairs(ts)) == amount
  }

  function Judge(op: Checkout, r: Retrieved): Result<Verdict> {
    if r.basketId != op.paymentId || r.currency != op.currency || r.price != op.amount || r.paidPrice != op.amount
    then Failure(BadGateway)
    else if r.payment == Unexpected || r.fraud.None? || r.fraud.value !in [-1, 0, 1] then Failure(BadGateway)
    else
      var status := if r.payment == Declined || r.fraud.value == -1 then FAILED
                    else if r.fraud.value == 1 then COMPLETED else WAITING;
      if status == COMPLETED &&
         (r.installment != 1 || r.items.None? || (exists k :: 0 <= k < |r.items.value| && !r.items.value[k].approved)
          || !MapsBasket(op.basket, Transactions(r.items.value), op.amount))
      then Failure(BadGateway)
      else if r.paymentId == "" then Failure(BadGateway)
      else Success(Verdict(status, r.paymentId,
                           if status == COMPLETED then Some(Transactions(r.items.value)) else op.transactions))
  }

  // ---- What an answer says about a checkout

  /** The answer is about this checkout: its basket, currency and amounts, with readable statuses. */
  predicate SameDeal(op: Checkout, r: Retrieved) {
    && r.basketId == op.paymentId && r.currency == op.currency && r.price == op.amount == r.paidPrice
    && r.paymentId != "" && r.payment != Unexpected && r.fraud in {Some(-1), Some(0), Some(1)}
  }

  /** Each basket line has its own transaction at its price, and the paid prices add up to the captured amount. */
  predicate PaysBasket(op: Checkout, items: seq<ProviderItem>) {
    var ts := Transactions(items);
    && (forall k :: 0 <= k < |items| ==> items[k].approved)
    && multiset(PricePairs(ts)) == multiset(BasketPairs(op.basket))
    && Distinct(TransactionIds(ts)) && Total(PaidPairs(ts)) == op.amount
  }

  /** Paid in one instalment, cleared of fraud, every line approved. */
  predicate Approves(op: Checkout, r: Retrieved) {
    && SameDeal(op, r) && r.payment == Paid && r.fraud == Some(1) && r.installment == 1
    && r.items.Some? && PaysBasket(op, r.items.value)
  }

  /** Declined, or refused as fraud. */
  predicate Declines(op: Checkout, r: Retrieved) { SameDeal(op, r) && (r.payment == Declined || r.fraud == Some(-1)) }

  /** Paid, and still under review. */
  predicate Reviews(op: Checkout, r: Retrieved) { SameDeal(op, r) && r.payment == Paid && r.fraud == Some(0) }

  /** An approval completes, a refusal fails, a review waits, and anything else is an error. */
  lemma JudgeMeans(op: Checkout, r: Retrieved)
    requires SoundBasket(op.basket, op.amount)
    ensures var v := Judge(op, r);
      && (v.Success? && v.value.status == COMPLETED <==> Approves(op, r))
      && (v.Success? && v.value.status == FAILED <==> Declines(op, r))
      && (v.Success? && v.value.status == WAITING <==> Reviews(op, r))
      && (v.Success? ==> v.value.status != READY && v.value.providerPaymentId == r.paymentId)
      && (Approves(op, r) ==> v.value.transactions == Some(Transactions(r.items.value)))
      && (v.Success? && !Approves(op, r) ==> v.value.transactions == op.transactions)
  {
    if r.items.Some? { MapsBasketIff(op.basket, Transactions(r.items.value), op.amount); }
  }

  lemma {:induction false} TwiceInMultiset<T>(s: seq<T>, i: nat, j: nat)
    requires i < j < |s| && s[i] == s[j]
    ensures multiset(s)[s[i]] >= 2
  {
    assert s == s[..j] + [s[j]] + s[j + 1..];
    InMultiset(s[..j], i);
  }

  lemma SamePairsAreMapped(basket: seq<BasketLine>, ts: seq<ItemTransaction>)
    requires Distinct(Keys(BasketPairs(basket))) && multiset(PricePairs(ts)) == multiset(BasketPairs(basket))
    ensures |ts| == |basket| && Distinct(Keys(PricePairs(ts)))
    ensures forall k :: 0 <= k < |basket| ==>
      exists j :: 0 <= j < |ts| && ts[j].itemId == basket[k].itemId && ts[j].price == basket[k].price
  {
    var wanted, got := BasketPairs(basket), PricePairs(ts);
    assert |got| == |multiset(got)| == |multiset(wanted)| == |wanted|;
    DistinctPairs(wanted);
    forall i, j | 0 <= i < j < |got| ensures got[i].0 != got[j].0 {
      InMultiset(got, i);
      InMultiset(got, j);
      var k :| 0 <= k < |wanted| && wanted[k] == got[i];
      var l :| 0 <= l < |wanted| && wanted[l] == got[j];
      DistinctMultiset(wanted, got[i]);
      if got[i] == got[j] {
        TwiceInMultiset(got, i, j);
      } else {
        assert Keys(wanted)[k] != Keys(wanted)[l];
      }
    }
    forall k | 0 <= k < |basket|
      ensures exists j :: 0 <= j < |ts| && ts[j].itemId == basket[k].itemId && ts[j].price == basket[k].price {
      InMultiset(wanted, k);
      var j :| 0 <= j < |got| && got[j] == wanted[k];
      assert ts[j].itemId == basket[k].itemId;
    }
  }

  lemma DistinctPairs(pairs: seq<Pair>)
    requires Distinct(Keys(pairs))
    ensures Distinct(pairs)
  {
    forall i, j | 0 <= i < j < |pairs| ensures pairs[i] != pairs[j] { assert Keys(pairs)[i] != Keys(pairs)[j]; }
  }

  /** The mapping test of the code, one direction only, is exactly the one-to-one match. */
  lemma MapsBasketIff(basket: seq<BasketLine>, ts: seq<ItemTransaction>, amount: int)
    requires SoundBasket(basket, amount)
    ensures MapsBasket(basket, ts, amount) <==>
      && multiset(PricePairs(ts)) == multiset(BasketPairs(basket))
      && Distinct(TransactionIds(ts)) && Total(PaidPairs(ts)) == amount
  {
    if MapsBasket(basket, ts, amount) { MapsBasketIsBijection(basket, ts, amount); }
    if multiset(PricePairs(ts)) == multiset(BasketPairs(basket)) { SamePairsAreMapped(basket, ts); }
  }

  // ---- The guarded updates

  function ApplyVerdict(row: Checkout, v: Verdict): Checkout {
    if row.status != WAITING then row
    else row.(status := v.status, providerPaymentId := Some(v.providerPaymentId), transactions := v.transactions)
  }

  function CancelLocally(row: Checkout): Checkout {
    if row.status != WAITING then row else row.(status := FAILED, cancellation := Cancelled)
  }

  function FlagPaid(row: Checkout): Checkout {
    if row.cancellation != Cancelled then row else row.(cancellation := PaidAfterCancel)
  }

  // ---- The concurrent machine

  /** Where one call stands; it works on the snapshot it read. */
  datatype Phase =
    | Idle
    | Initializing
    | AwaitingForm
    | Checking(read: Checkout)
    | Judged(verdict: Verdict)
    | Cancelling(read: Checkout)
    | Confirmed
    | Called(read: Checkout)
    | Flagging

  datatype State = State(row: Option<Checkout>, inits: nat, callers: map<string, Phase>)

  datatype Step =
    | Insert(caller: string, created: Checkout)
    | SendInit(caller: string)
    | Initialized(caller: string, answer: Option<string>)
    | ReadCheck(caller: string)
    | Retrieve(caller: string, result: Option<Retrieved>)
    | Apply(caller: string)
    | ReadCancel(caller: string)
    | AskPaid(caller: string, paid: bool)
    | ApplyCancel(caller: string)
    | ReadCallback(caller: string, token: string)
    | MarkCallback(caller: string)
    | Flag(caller: string, paid: bool)
    | Crash(caller: string)

  function PhaseOf(s: State, caller: string): Phase {
    if caller in s.callers then s.callers[caller] else Idle
  }

  function To(s: State, caller: string, phase: Phase): State { s.(callers := s.callers[caller := phase]) }

  function Write(s: State, caller: string, phase: Phase, row: Checkout): State {
    To(s, caller, phase).(row := Some(row))
  }

  predicate FreshCheckout(c: Checkout) {
    && SoundBasket(c.basket, c.amount) && c.status == WAITING && c.initialization == INITIALIZING
    && c.token.None? && c.transactions.None? && !c.callbackReceived && c.cancellation == NotCancelled
  }

  /** One atomic step; a step that is not enabled changes nothing. */
  function Next(s: State, step: Step): State {
    var phase := PhaseOf(s, step.caller);
    if s.row.None? then
      if step.Insert? && phase.Idle? && FreshCheckout(step.created)
      then Write(s, step.caller, Initializing, step.created) else s
    else
      var row := s.row.value;
      match step
      case Insert(c, created) => s
      case SendInit(c) =>
        if phase.Initializing? then To(s, c, AwaitingForm).(inits := s.inits + 1) else s
      case Initialized(c, answer) =>
        if !phase.AwaitingForm? then s
        else if answer.Some?
        then Write(s, c, Idle, row.(token := answer, initialization := INITIALIZED))
        else Write(s, c, Idle, row.(initialization := RECONCILIATION_REQUIRED))
      case ReadCheck(c) =>
        if phase.Idle? && row.status == WAITING && row.callbackReceived && row.token.Some?
        then To(s, c, Checking(row)) else s
      case Retrieve(c, result) =>
        if !phase.Checking? then s
        else if result.Some? && Judge(phase.read, result.value).Success?
        then To(s, c, Judged(Judge(phase.read, result.value).value)) else To(s, c, Idle)
      case Apply(c) => if phase.Judged? then Write(s, c, Idle, ApplyVerdict(row, phase.verdict)) else s
      case ReadCancel(c) => if phase.Idle? && row.status == WAITING then To(s, c, Cancelling(row)) else s
      case AskPaid(c, paid) =>
        if !phase.Cancelling? then s
        else if phase.read.token.Some? && paid then To(s, c, Idle) else To(s, c, Confirmed)
      case ApplyCancel(c) => if phase.Confirmed? then Write(s, c, Idle, CancelLocally(row)) else s
      case ReadCallback(c, token) =>
        if phase.Idle? && row.token == Some(token) then To(s, c, Called(row)) else s
      case MarkCallback(c) =>
        if !phase.Called? then s
        else
          Write(s, c, if phase.read.cancellation == Cancelled then Flagging else Idle, row.(callbackReceived := true))
      case Flag(c, paid) =>
        if !phase.Flagging? then s else Write(s, c, Idle, if paid then FlagPaid(row) else row)
      case Crash(c) => To(s, c, Idle)
  }

  function Run(s: State, steps: seq<Step>): State {
    if steps == [] then s else Next(Run(s, steps[..|steps| - 1]), steps[|steps| - 1])
  }

  const INITIAL: State := State(None, 0, map[])

  // ---- What every interleaving keeps

  predicate SameCapture(a: Checkout, b: Checkout) {
    && a.id == b.id && a.paymentId == b.paymentId && a.currency == b.currency
    && a.amount == b.amount && a.basket == b.basket
  }

  predicate SoundRow(row: Checkout) {
    && SoundBasket(row.basket, row.amount)
    && row.status != READY
    && (row.status == COMPLETED ==>
          row.cancellation == NotCancelled && row.providerPaymentId.Some? && row.providerPaymentId.value != ""
          && row.transactions.Some? && MapsBasket(row.basket, row.transactions.value, row.amount))
    && (row.status != COMPLETED ==> row.transactions.None?)
    && (row.cancellation != NotCancelled ==> row.status == FAILED)
  }

  predicate SoundCaller(row: Checkout, phase: Phase) {
    && (phase.Checking? ==> SameCapture(phase.read, row) && phase.read.transactions.None?)
    && (phase.Judged? ==>
          && phase.verdict.status != READY && phase.verdict.providerPaymentId != ""
          && (phase.verdict.status == COMPLETED ==>
                && phase.verdict.transactions.Some?
                && MapsBasket(row.basket, phase.verdict.transactions.value, row.amount))
          && (phase.verdict.status != COMPLETED ==> phase.verdict.transactions.None?))
  }

  predicate Inv(s: State) {
    && (s.row.None? ==> s.inits == 0 && forall c :: c in s.callers ==> s.callers[c].Idle?)
    && (s.row.Some? ==> SoundRow(s.row.value) && forall c :: c in s.callers ==> SoundCaller(s.row.value, s.callers[c]))
    && s.inits <= 1
    && (forall c :: c in s.callers && s.callers[c].Initializing? ==> s.inits == 0)
    && (forall c, d ::
          c in s.callers && d in s.callers && s.callers[c].Initializing? && s.callers[d].Initializing? ==> c == d)
  }

  /** What a step may do to an existing row. */
  predicate RowMoves(a: Checkout, b: Checkout) {
    && SameCapture(a, b)
    && (a.status != WAITING ==>
        b.status == a.status && b.transactions == a.transactions && b.providerPaymentId == a.providerPaymentId)
    && (a.cancellation == PaidAfterCancel ==> b.cancellation == PaidAfterCancel)
    && (a.cancellation == Cancelled ==> b.cancellation != NotCancelled)
  }

  lemma StepMoves(s: State, step: Step)
    requires Inv(s) && s.row.Some?
    ensures var t := Next(s, step); t.row.Some? && RowMoves(s.row.value, t.row.value) && SoundRow(t.row.value)
  {
  }

  lemma StepKeepsCaller(s: State, step: Step, c: string)
    requires Inv(s) && s.row.Some? && c in Next(s, step).callers
    ensures SoundCaller(Next(s, step).row.value, Next(s, step).callers[c])
  {
    StepMoves(s, step);
    if c in s.callers { assert SoundCaller(s.row.value, s.callers[c]); }
  }

  lemma StepKeepsInv(s: State, step: Step)
    requires Inv(s)
    ensures Inv(Next(s, step))
  {
    var t := Next(s, step);
    if s.row.Some? {
      StepMoves(s, step);
      forall c | c in t.callers ensures SoundCaller(t.row.value, t.callers[c]) { StepKeepsCaller(s, step, c); }
      forall c | c in t.callers && t.callers[c].Initializing? ensures c in s.callers && s.callers[c].Initializing? { }
    }
  }

  lemma {:induction false} RunKeepsInv(steps: seq<Step>)
    ensures Inv(Run(INITIAL, steps))
  {
    if steps != [] {
      RunKeepsInv(steps[..|steps| - 1]);
      StepKeepsInv(Run(INITIAL, steps[..|steps| - 1]), steps[|steps| - 1]);
    }
  }

  lemma {:induction false} RunMoves(s: State, steps: seq<Step>)
    requires Inv(s) && s.row.Some?
    ensures var t := Run(s, steps); Inv(t) && t.row.Some? && RowMoves(s.row.value, t.row.value)
  {
    if steps != [] {
      var mid := Run(s, steps[..|steps| - 1]);
      RunMoves(s, steps[..|steps| - 1]);
      StepKeepsInv(mid, steps[|steps| - 1]);
      StepMoves(mid, steps[|steps| - 1]);
    }
  }

  /**
   Safety of the checkout under any interleaving of callbacks, checks, cancellations and crashes: completed excludes
   any cancellation mark, a mark implies failed, the form is initialised at the provider at most once, and from
   a terminal status no later step changes status or transactions.
   */
  lemma CheckoutSafety(steps: seq<Step>, more: seq<Step>)
    ensures var s := Run(INITIAL, steps);
      && s.inits <= 1
      && (s.row.Some? ==>
            var row, later := s.row.value, Run(s, more).row;
            && (row.status == COMPLETED ==> row.cancellation == NotCancelled)
            && (row.cancellation != NotCancelled ==> row.status == FAILED)
            && later.Some? && SameCapture(row, later.value)
            && (row.status != WAITING ==>
                later.value.status == row.status && later.value.transactions == row.transactions))
  {
    RunKeepsInv(steps);
    if Run(INITIAL, steps).row.Some? { RunMoves(Run(INITIAL, steps), more); }
  }

  // ---- A completed capture matches its basket one to one

  lemma {:induction false} InMultiset<T>(s: seq<T>, i: nat)
    requires i < |s|
    ensures s[i] in multiset(s)
  {
    assert s == s[..i] + [s[i]] + s[i + 1..];
  }

  lemma {:induction false} DistinctMultiset<T>(s: seq<T>, x: T)
    requires Distinct(s)
    ensures multiset(s)[x] <= 1
  {
    if s != [] {
      DistinctMultiset(s[1..], x);
      assert s == [s[0]] + s[1..];
      assert s[0] !in s[1..];
    }
  }

  lemma SubMultisetSameSize<T>(a: multiset<T>, b: multiset<T>)
    requires a <= b && |a| == |b|
    ensures a == b
  {
    assert b == a + (b - a);
    assert |b| == |a| + |b - a|;
  }

  lemma WithoutOne(a: seq<Pair>, b: seq<Pair>, j: nat)
    requires multiset(a) == multiset(b) && a != [] && j < |b| && b[j] == a[0]
    ensures multiset(a[1..]) == multiset(b[..j] + b[j + 1..])
  {
    assert a == [a[0]] + a[1..];
    assert multiset(a[1..]) == multiset(a) - multiset{a[0]};
    assert b == b[..j] + [b[j]] + b[j + 1..];
    assert multiset(b) == multiset(b[..j]) + multiset{b[j]} + multiset(b[j + 1..]);
  }

  lemma {:induction false} TotalWithoutOne(b: seq<Pair>, j: nat)
    requires j < |b|
    ensures Total(b) == b[j].1 + Total(b[..j] + b[j + 1..])
  {
    var before, after := b[..j], b[j + 1..];
    var rest := [b[j]] + after;
    assert b == before + rest;
    TotalConcat(before, rest);
    TotalConcat(before, after);
    assert rest[0] == b[j] && rest[1..] == after;
  }

  lemma {:induction false} TotalOfPermutation(a: seq<Pair>, b: seq<Pair>)
    requires multiset(a) == multiset(b)
    ensures Total(a) == Total(b)
  {
    if a == [] {
      assert |multiset(b)| == 0;
    } else {
      assert a[0] in multiset(a);
      var j :| 0 <= j < |b| && b[j] == a[0];
      WithoutOne(a, b, j);
      TotalOfPermutation(a[1..], b[..j] + b[j + 1..]);
      TotalWithoutOne(b, j);
    }
  }

  /**
   The one-directional test of the code is a bijection: same item identities with the same prices, and nothing else.
   */
  lemma MapsBasketIsBijection(basket: seq<BasketLine>, ts: seq<ItemTransaction>, amount: int)
    requires SoundBasket(basket, amount) && MapsBasket(basket, ts, amount)
    ensures multiset(BasketPairs(basket)) == multiset(PricePairs(ts))
    ensures Total(PricePairs(ts)) == amount == Total(PaidPairs(ts))
  {
    var wanted, got := BasketPairs(basket), PricePairs(ts);
    forall i, j | 0 <= i < j < |wanted| ensures wanted[i] != wanted[j] {
      assert Keys(wanted)[i] != Keys(wanted)[j];
    }
    forall x ensures multiset(wanted)[x] <= multiset(got)[x] {
      DistinctMultiset(wanted, x);
      if x in wanted {
        var k :| 0 <= k < |wanted| && wanted[k] == x;
        var j :| 0 <= j < |ts| && ts[j].itemId == basket[k].itemId && ts[j].price == basket[k].price;
        assert got[j] == x;
        InMultiset(got, j);
      }
    }
    SubMultisetSameSize(multiset(wanted), multiset(got));
    TotalOfPermutation(wanted, got);
  }

  /**
   In every reachable state a completed capture's transactions and its basket are the same set of (item, price)
   pairs, each once, and both the prices and the paid prices add up to the captured amount.
   */
  lemma CompletedCaptureMatchesBasket(steps: seq<Step>)
    ensures var row := Run(INITIAL, steps).row;
      row.Some? && row.value.status == COMPLETED ==>
        && row.value.transactions.Some?
        && var ts := row.value.transactions.value;
           && multiset(BasketPairs(row.value.basket)) == multiset(PricePairs(ts))
           && Distinct(Keys(PricePairs(ts))) && Distinct(TransactionIds(ts))
           && Total(PricePairs(ts)) == row.value.amount == Total(PaidPairs(ts))
  {
    RunKeepsInv(steps);
    var row := Run(INITIAL, steps).row;
    if row.Some? && row.value.status == COMPLETED {
      MapsBasketIsBijection(row.value.basket, row.value.transactions.value, row.value.amount);
    }
  }

  // ---- The service code, run without interference

  class CheckoutStore {
    var row: Checkout

    constructor (created: Checkout)
      ensures row == created
    {
      row := created;
    }

    /** `check`: ask the provider once the callback has arrived, and write the verdict only while still waiting. */
    method Check(result: Option<Retrieved>) returns (r: Result<OperationStatus>)
      modifies this
      ensures row == AfterCheck(old(row), result)
      ensures r.Success? ==> r.value == row.status
      ensures r.Failure? <==> AsksProvider(old(row)) && (result.None? || Judge(old(row), result.value).Failure?)
      ensures SoundBasket(old(row).basket, old(row).amount) ==> Decided(old(row), result, r, row)
    {
      if SoundBasket(row.basket, row.amount) { CheckDecides(row, result); }
      if row.status == WAITING && row.callbackReceived && row.token.Some? {
        if result.None? {
          return Failure(BadGateway);
        }
        var judged := Judge(row, result.value);
        if judged.Failure? {
          return Failure(judged.error);
        }
        UpdateWhileWaiting(judged.value);
      }
      return Success(row.status);
    }

    method UpdateWhileWaiting(v: Verdict)
      modifies this
      ensures row == ApplyVerdict(old(row), v)
    {
      if row.status == WAITING {
        row := row.(status := v.status, providerPaymentId := Some(v.providerPaymentId), transactions := v.transactions);
      }
    }

    /** `callback`: remember it, then either flag a payment after cancellation or check. */
    method Callback(token: string, result: Option<Retrieved>) returns (r: Result<Checkout>)
      modifies this
      ensures row == AfterCallback(old(row), token, result)
      ensures r.Success? ==> r.value == row
      ensures r.Failure? <==>
        || old(row).token != Some(token)
        || (if old(row).cancellation == Cancelled then result.None?
            else AsksProvider(old(row).(callbackReceived := true))
                 && (result.None? || Judge(old(row).(callbackReceived := true), result.value).Failure?))
      ensures old(row).cancellation == Cancelled && old(row).token == Some(token) ==>
        && row.cancellation == (if result.Some? && result.value.payment == Paid then PaidAfterCancel else Cancelled)
        && row.callbackReceived && row.status == old(row).status
    {
      if row.token != Some(token) {
        return Failure(BadRequest);
      }
      var read := row;
      row := row.(callbackReceived := true);
      if read.cancellation == Cancelled {
        if result.None? {
          return Failure(BadGateway);
        }
        if result.value.payment == Paid && row.cancellation == Cancelled {
          row := row.(cancellation := PaidAfterCancel);
        }
        return Success(row);
      }
      var checked := Check(result);
      if checked.Failure? {
        return Failure(checked.error);
      }
      return Success(row);
    }

    /** `cancel`: only an unpaid, still waiting checkout is cancelled, and only locally. */
    method Cancel(paid: bool) returns (r: Result<OperationStatus>)
      modifies this
      ensures row == if old(row).token.Some? && paid then old(row) else CancelLocally(old(row))
      ensures r.Success? <==>
        old(row).status == FAILED || (old(row).status == WAITING && !(old(row).token.Some? && paid))
      ensures r.Success? ==> r.value == FAILED == row.status
      ensures r.Success? && old(row).status == WAITING ==> row.cancellation == Cancelled
    {
      if row.status == FAILED {
        return Success(row.status);
      }
      if row.status != WAITING || (row.token.Some? && paid) {
        return Failure(Conflict);
      }
      row := row.(status := FAILED, cancellation := Cancelled);
      return Success(row.status);
    }
  }

  predicate AsksProvider(row: Checkout) { row.status == WAITING && row.callbackReceived && row.token.Some? }

  /**
   What a check makes of a row: it asks only for one that waits, whose callback has arrived and whose form is known; an
   approval completes it with the approved transactions, a refusal fails it, a review leaves it waiting, and anything
   else is an error and leaves it alone.
   */
  predicate Decided(before: Checkout, result: Option<Retrieved>, r: Result<OperationStatus>, after: Checkout) {
    if before.status != WAITING || !before.callbackReceived || before.token.None? then
      r == Success(before.status) && after == before
    else if result.Some? && Approves(before, result.value) then
      && r == Success(COMPLETED)
      && after == before.(status := COMPLETED, providerPaymentId := Some(result.value.paymentId),
                          transactions := Some(Transactions(result.value.items.value)))
    else if result.Some? && Declines(before, result.value) then
      r == Success(FAILED)
      && after == before.(status := FAILED, providerPaymentId := Some(result.value.paymentId))
    else if result.Some? && Reviews(before, result.value) then
      r == Success(WAITING) && after == before.(providerPaymentId := Some(result.value.paymentId))
    else r == Failure(BadGateway) && after == before
  }

  lemma CheckDecides(row: Checkout, result: Option<Retrieved>)
    requires SoundBasket(row.basket, row.amount)
    ensures var after := AfterCheck(row, result);
      var r := if AsksProvider(row) && (result.None? || Judge(row, result.value).Failure?)
               then Failure(BadGateway) else Success(after.status);
      Decided(row, result, r, after)
  {
    if result.Some? { JudgeMeans(row, result.value); }
  }

  function AfterCheck(row: Checkout, result: Option<Retrieved>): Checkout {
    if AsksProvider(row) && result.Some? && Judge(row, result.value).Success?
    then ApplyVerdict(row, Judge(row, result.value).value) else row
  }

  function AfterCallback(row: Checkout, token: string, result: Option<Retrieved>): Checkout {
    if row.token != Some(token) then row
    else
      var marked := row.(callbackReceived := true);
      if row.cancellation != Cancelled then AfterCheck(marked, result)
      else if result.Some? && result.value.payment == Paid then FlagPaid(marked) else marked
  }

  lemma RunSnoc(s: State, steps: seq<Step>, step: Step)
    ensures Run(s, steps + [step]) == Next(Run(s, steps), step)
  {
    assert (steps + [step])[..|steps|] == steps;
  }

  /** Without interference the steps of a check are the code of `Check`. */
  lemma CheckIsRun(s: State, c: string, result: Option<Retrieved>)
    requires s.row.Some? && PhaseOf(s, c).Idle?
    ensures Run(s, [ReadCheck(c)] + [Retrieve(c, result)] + [Apply(c)]).row == Some(AfterCheck(s.row.value, result))
  {
    RunSnoc(s, [], ReadCheck(c));
    assert [] + [ReadCheck(c)] == [ReadCheck(c)];
    RunSnoc(s, [ReadCheck(c)], Retrieve(c, result));
    RunSnoc(s, [ReadCheck(c)] + [Retrieve(c, result)], Apply(c));
  }

  /** Without interference the steps of a callback, and of the check it goes on to, are the code of `Callback`. */
  lemma CallbackIsRun(s: State, c: string, token: string, result: Option<Retrieved>)
    requires s.row.Some? && PhaseOf(s, c).Idle?
    ensures Run(s, CallbackSteps(s.row.value, c, token, result)).row == Some(AfterCallback(s.row.value, token, result))
  {
    var row, begin := s.row.value, [ReadCallback(c, token)] + [MarkCallback(c)];
    RunSnoc(s, [], ReadCallback(c, token));
    assert [] + [ReadCallback(c, token)] == [ReadCallback(c, token)];
    RunSnoc(s, [ReadCallback(c, token)], MarkCallback(c));
    var t := Run(s, begin);
    if row.token == Some(token) {
      if row.cancellation == Cancelled {
        if result.Some? { RunSnoc(s, begin, Flag(c, result.value.payment == Paid)); }
      } else {
        CheckIsRun(t, c, result);
        RunConcat(s, begin, [ReadCheck(c)] + [Retrieve(c, result)] + [Apply(c)]);
      }
    } else {
      assert Run(s, [ReadCallback(c, token)]) == s;
    }
  }

  /** The steps of one callback: a payment after cancellation is looked up and flagged, anything else is checked. */
  function CallbackSteps(row: Checkout, c: string, token: string, result: Option<Retrieved>): seq<Step> {
    var begin := [ReadCallback(c, token)] + [MarkCallback(c)];
    if row.token != Some(token) then [ReadCallback(c, token)]
    else if row.cancellation != Cancelled then begin + ([ReadCheck(c)] + [Retrieve(c, result)] + [Apply(c)])
    else if result.Some? then begin + [Flag(c, result.value.payment == Paid)]
    else begin
  }

  lemma {:induction false} RunConcat(s: State, a: seq<Step>, b: seq<Step>)
    ensures Run(s, a + b) == Run(Run(s, a), b)
  {
    if b == [] {
      assert a + b == a;
    } else {
      RunConcat(s, a, b[..|b| - 1]);
      AppendLast(a, b);
      RunSnoc(s, a + b[..|b| - 1], b[|b| - 1]);
    }
  }

  /** And likewise for `Cancel`. */
  lemma CancelIsRun(s: State, c: string, paid: bool)
    requires s.row.Some? && PhaseOf(s, c).Idle?
    ensures var row := s.row.value;
      Run(s, [ReadCancel(c)] + [AskPaid(c, paid)] + [ApplyCancel(c)]).row
      == Some(if row.token.Some? && paid then row else CancelLocally(row))
  {
    RunSnoc(s, [], ReadCancel(c));
    assert [] + [ReadCancel(c)] == [ReadCancel(c)];
    RunSnoc(s, [ReadCancel(c)], AskPaid(c, paid));
    RunSnoc(s, [ReadCancel(c)] + [AskPaid(c, paid)], ApplyCancel(c));
  }
}
