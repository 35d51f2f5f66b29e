# The refund path of a payment system, and the books around it

This project models how a payment system refunds a purchase and keeps its accounts, and proves what the design relies
on when callers retry, race or crash.

- **Core.** A refund total is split over the original captures (`RefundSplit`), checked against the plans that channels
  prepare (`RefundPlan`), reserved row by row before any network call (`CoreRefund`, `RefundCapacity`, `RefundStart`),
  settled from channel reports with balanced rounding entries (`RefundSettlement`) and turned into the status of the
  refund payment (`RefundCompletion`).
- **iyzico adapter.** Checkouts move by guarded updates (`IyzicoCheckout`, and `CheckoutHistory` for what their status
  goes back to). Refunds are prepared (`IyzicoPrepare`,
  `RefundRounding`), reserved, claimed and submitted line by line (`IyzicoRefund` is the concurrent machine,
  `IyzicoService` the code of a call), reported (`IyzicoStatus`) and kept within capacity (`IyzicoCapacity`).
- **Composition.** `RefundComposition` runs checkouts, adapter and core together and proves the end-to-end results.
- **Accounting.** Totals, tax groups, seller orders and the account ledger (`Grouping`, `Taxes`, `PaymentViews`), and
  the billing of sellers from reports (`Billing` is the code of a run, `BillingRuns` runs that overlap and stop anywhere).
  `Payments`, `Sums` and `Wrappers` hold what the others share.

Conventions. Money on the refund path is an integer number of units of 1e-4, the precision of the database; calculated
amounts of the accounting views are exact reals in the same unit, rounded to whole units when they are saved. A database
transaction, and an update guarded by a state, is one atomic step; a network call is a step of its own with any outcome;
a call may stop between any two steps. Where the source changes rows in
place there is a class whose methods are proved equal to a specification function, and the results are proved
of that function. Over interleavings there is a state machine, and lemmas show that the code of a call is a run of it
(`RefundStart.RefundStore.StartRefundPaymentOperations`, `IyzicoService.InitializeIsRun`, `IyzicoCheckout.CheckIsRun`).

Assumed: approvals of one purchase are serialised by the lease described in README.md:57-62, whose code is not part of
this model. Only the capacity of the core's captures uses it; the at-most-once and adapter results do not.

What the proofs turned up:

- A refund start that stopped part-way and is retried after other refunds splits again. If its share on a capture it
  already reserved truncates to zero, that row is skipped rather than compared, and its rows then exceed its total
  (`RefundStart.RetryReservesTooMuch`); `RefundCapacity.FinishedStartReserves` says exactly when. Capacity still holds,
  but the payment can complete before its parts do (`RefundCompletion.RetriedRefundCompletesEarly`). A plan for that
  capture is then refused, so channels that only take amounts are the ones exposed.
- Plans cover the requested lines exactly if and only if every allocated capture has a plan.
- `prepare` compares nominal amounts with prices; a rounded amount above the paid price is refused only when the
  refund is reserved (`IyzicoPrepare.FirstPlanFits`).
- Merging taxes whose amounts cancel out loses the rate (`Taxes.ZeroTotalLosesRate`).
- Every column is rounded when it is saved, so the tax of a payment and of its customer's ledger row can differ from that
  of its sellers' orders and ledger rows (`PaymentViews.StoredTaxesCanDrift`); `PaymentViews.ViewsAgree` says exactly when
  and bounds it.
- A delayed status answer is refused if and only if it lists fewer lines than are settled by then
  (`RefundComposition.DelayedAnswer`).
- An update whose acknowledgement is lost makes the adapter take back a line it has stored as succeeded and may have
  reported (`IyzicoStatus.ReportsShrinkIff`). A core that settled it refuses every later answer
  (`RefundComposition.UnheardSuccessCanConflict`); what it settled was accepted by the provider all the same
  (`RefundComposition.RefundIsConservedEndToEnd`).
- A run that stops between creating a billing payment and marking its reports makes a later run bill them again
  (`BillingRuns.CrashBillsTwice`), and so do two runs that overlap, with no failure at all
  (`BillingRuns.OverlapBillsTwice`); `BillingRuns.BilledOnceIff` says exactly when.

## Model

| member | source | states |
|---|---|---|
| `RefundSplit.SplitIsExact` | libs/payment-core-webservice/src/service/payment-operation-management.service.ts:341-349 | for every list of non-negative remaining amounts and every total not above their sum, the shares sum to exactly the total and each lies between 0 and what its capture has left |
| `RefundSplit.SplitDrains` | libs/payment-core-webservice/src/service/payment-operation-management.service.ts:341-349 | a total equal to everything that is left takes every capture's whole remainder |
| `RefundSplit.SplitIsFair` | libs/payment-core-webservice/src/service/payment-operation-management.service.ts:341-349 | share k differs from the exact proportional share by more than -1 and less than max(k, 1) units of 1e-4 |
| `RefundSplit.AllocationsAreSafe` | libs/payment-core-webservice/src/service/payment-operation-management.service.ts:331-350 | the allocations after dropping zero shares are distinct, positive, within what is left of their capture, and sum to the refund total |
| `RefundSplit.SplitAccepts` | libs/payment-core-webservice/src/service/payment-operation-management.service.ts:331-340 | a refund is split if and only if no capture is overdrawn and its total, with all that refunds hold on these captures, is within what they collected; a capture that is drained already does not stand in the way |
| `RefundSplit.RefundCaptureAllocations` | libs/payment-core-webservice/src/service/payment-operation-management.service.ts:331-350 | the imperative split (running remainder and running available) computes the specified allocations, and succeeds exactly when enough is left |
| `RefundPlan.PrepareRefundChannelPlan` | libs/payment-core-webservice/src/service/payment-operation-management.service.ts:144-235 | the loop over channels, captures and plans accepts exactly an eligible request with plans that pass every check, and gives an account that is not the customer's to exactly the plans with a line whose amounts differ |
| `RefundPlan.AcceptedPlansAreBought` | libs/payment-core-webservice/src/service/payment-operation-management.service.ts:149-219 | what an accepted preparation promises: a completed purchase in one currency, lines refunded for no more than was paid for them, plans of the channels that hold the captures, for no more of any line than was requested, each worth exactly its capture's share |
| `RefundPlan.ExactPlanIsAccepted` | libs/payment-core-webservice/src/service/payment-operation-management.service.ts:144-235 | the refund of bought lines of a completed purchase with one capture that has enough left, planned exactly by its channel, is never refused if its rounding has an account to go to |
| `RefundPlan.ExactCoverage` | libs/payment-core-webservice/src/service/payment-operation-management.service.ts:206-219 | plans that pass "not more than requested" per line and equality per capture cover every requested line exactly if and only if every allocated capture has a plan |
| `RefundPlan.AcceptedPlansCoverExactly` | libs/payment-core-webservice/src/service/payment-operation-management.service.ts:206-219 | the same for whatever `prepareRefundChannelPlan` accepts, over the split it validates against |
| `CoreRefund.AtMostOnce` | libs/payment-core-webservice/src/service/payment-operation-management.service.ts:276-328 | over any interleaving of callers, retries and crashes: one row per (refund payment, capture), at most one `init` for it, and none before its row |
| `CoreRefund.StepKeepsInv` | libs/payment-core-webservice/src/service/payment-operation-management.service.ts:276-328 | every atomic step (reserve, send, record, crash) keeps the protocol invariant, in which every share a call has passed has its row, of that amount and answered by its channel |
| `RefundCapacity.CapacityHolds` | libs/payment-core-webservice/src/service/payment-operation-management.service.ts:259-303 | in every run with starts serialised per purchase, each finding whichever captures are completed by then, free to stop anywhere and be retried after others, the refund rows of any status against a capture never exceed its amount |
| `RefundCapacity.StartGetsShares` | libs/payment-core-webservice/src/service/payment-operation-management.service.ts:255-274 | in every quiet state of a serial history a start on matching captures begins to walk its shares if and only if what other payments hold on those captures leaves room for its total, and its plans, if any, are worth those shares |
| `RefundCapacity.FinishedStartReserves` | libs/payment-core-webservice/src/service/payment-operation-management.service.ts:274-290 | in every serial history: once a start of a payment has gone through all its shares, and until another start of it begins, its rows hold at least its total, and exactly it if and only if none lies on a capture to which that start gave no share, whatever other payments, polls and crashes do since |
| `RefundCapacity.StepKeepsCapacity` | libs/payment-core-webservice/src/service/payment-operation-management.service.ts:278-300 | every step of a serialised history keeps every share that is still to be reserved within what its capture has left beside all other refunds |
| `RefundCapacity.FullRefundDrains` | libs/payment-core-webservice/src/service/payment-operation-management.service.ts:331-350 | in every serial history in which a start of each refund went through, with totals adding up to the captures, every capture is at exactly zero and each refund has reserved exactly its total, however many starts stopped part-way and were retried |
| `RefundStart.RefundStore.ReserveOperation` | libs/payment-core-webservice/src/service/payment-operation-management.service.ts:278-300 | the reservation transaction: a new row, or a conflict, or the existing row unchanged |
| `RefundStart.RefundStore.StartRefundPaymentOperations` | libs/payment-core-webservice/src/service/payment-operation-management.service.ts:250-329 | the code of one start, over the captures it finds completed, is a run of the concurrent machine, keeps its invariant, and on success has walked every share, each known to its channel; it succeeds if and only if it gets shares and each of them is there already, answered, unfailed and of the same amount, or is accepted now by its channel |
| `RefundStart.RetryReservesTooMuch` | libs/payment-core-webservice/src/service/payment-operation-management.service.ts:267-303 | a serial history of two refunds in which a retried start reserves 3 units for a total of 2: its recomputed share on an already reserved capture truncates to zero and is skipped |
| `RefundStart.OverlappingStartsOverReserve` | libs/payment-core-webservice/src/service/payment-operation-management.service.ts:267-303 | without the serialisation of README.md:57-62 two overlapping starts reserve more than a capture holds |
| `RefundCompletion.PaidTestMatchesParts` | libs/payment-core-webservice/src/service/payment.service.ts:469-478 | "paid >= total" says that every part is READY or COMPLETED, in whatever statuses the parts are, if and only if the excess of the rows over the total is smaller than every part |
| `RefundCompletion.RefundCompletesExactly` | libs/payment-core-webservice/src/service/payment.service.ts:469-478 | once some start of a payment went through, whatever happens since: one call makes it COMPLETED if and only if all its operations are done, if the excess of its rows is smaller than each of them; and in every possible state of its operations only then |
| `RefundCompletion.NoStrayRowNoExcess` | libs/payment-core-webservice/src/service/payment.service.ts:469-478 | between a finished start and the next one there is no excess if no row lies on a capture to which that start gave no share, so the payment completes exactly when all its operations are done |
| `RefundCompletion.RetriedRefundCompletesEarly` | libs/payment-core-webservice/src/service/payment.service.ts:469-478 | the history of `RetryReservesTooMuch`, continued by the machine's own poll of the last operation, completes the payment while one of its operations is still waiting |
| `RefundCompletion.UnresolvedBecomes` | libs/payment-core-webservice/src/service/payment.service.ts:478-519 | when an unresolved payment completes, fails through an operation, expires, starts over, or stays: a refund, an open payment and one with a failed operation never expire |
| `RefundCompletion.Payment.UpdateByOperationStatuses` | libs/payment-core-webservice/src/service/payment.service.ts:449-523 | one call leaves the payment in the status the decision function gives, and never changes a COMPLETED or FAILED payment |
| `RefundSettlement.SettlementStore.SaveRefundSettlementRecord` | libs/payment-core-webservice/src/service/payment-operation-management.service.ts:75-142 | one transaction: settled set, entries and status take effect together or the exception leaves everything as it was |
| `RefundSettlement.SettleKeeps` | libs/payment-core-webservice/src/service/payment-operation-management.service.ts:95-139 | an accepted report keeps the book consistent, only adds lines and entries, and leaves exactly the reported lines settled |
| `RefundSettlement.RefundConservation` | libs/payment-core-webservice/src/service/payment-operation-management.service.ts:75-142 | after any history of reports (repeated, stale, partial, refused) entries balance, the customer's net is provider minus nominal over exactly the settled lines, the rounding account bears just that, and COMPLETED means nominal plus rounding is what the provider paid back |
| `RefundSettlement.AcceptedReportIsBooked` | libs/payment-core-webservice/src/service/payment-operation-management.service.ts:83-139 | every line of an accepted report is one of the plan at the plan's provider amount, and together they are the nominal amounts of the settled lines plus the customer's rounding, for COMPLETED the whole amount plus the rounding; the report is of the operation's own channel, payment and channel operation |
| `RefundSettlement.LastReportIsBooked` | libs/payment-core-webservice/src/service/payment-operation-management.service.ts:83-139 | the same after any history of reports |
| `RefundSettlement.ConflictGoesBack` | libs/payment-core-webservice/src/service/payment-operation-management.service.ts:83-106 | a report is refused as a conflict exactly if it is a proper one that would take COMPLETED back or misses a settled line; every other refusal is a bad request |
| `RefundSettlement.EntriesCorrelate` | libs/payment-core-webservice/src/service/payment-operation-management.service.ts:113-129 | every entry is the operation's own, of a settled line and on the customer's or the rounding account, and two entries share a correlation exactly if they are of one line |
| `RefundSettlement.AcceptedPlanCanPost` | libs/payment-core-webservice/src/service/payment-operation-management.service.ts:107-118 | an operation saved with an accepted plan can always post its rounding as soon as both accounts exist |
| `RefundSettlement.OrderDoesNotMatter` | libs/payment-core-webservice/src/service/payment-operation-management.service.ts:102-131 | two histories that settled the same lines, in whatever order, leave the customer the same net rounding |
| `RefundSettlement.OnePairPerLine` | libs/payment-core-webservice/src/service/payment-operation-management.service.ts:107-130 | each line has exactly one pair of entries if it settled with a difference, and none otherwise |
| `RefundSettlement.CompletedIsFinal` | libs/payment-core-webservice/src/service/payment-operation-management.service.ts:96-101 | once completed, no report changes status, settled lines or entries |
| `RefundRounding.RefundProviderAmount` | apps/integration-iyzico/src/refund-rounding.util.ts:14-33 | which amounts are accepted under which mode, and that the result is whole cents, positive and within what the mode allows |
| `RefundRounding.RoundedIsUnique` | apps/integration-iyzico/src/refund-rounding.util.ts:28 | there is only one whole-cent amount that a mode allows, so rounding is determined by its bounds |
| `RefundRounding.RoundingExposure` | libs/payment-core-webservice/src/service/payment-operation-management.service.ts:108-129 | after any history of reports, the net rounding of n settled lines: 0 under THROW, at most n half cents under ROUND, under n cents and one-sided under FLOOR and USE_FIRST_TWO |
| `IyzicoCheckout.CheckoutMoney` | apps/integration-iyzico/src/iyzico-checkout.mapper.ts:14-25 | exactly the positive amounts of at most two decimals are accepted, with their exact value in whole cents |
| `IyzicoCheckout.MapBasket` | apps/integration-iyzico/src/iyzico-checkout.mapper.ts:147-157 | the mapped basket has unique identities, keeps each item's price and sums to the capture amount; it fails exactly otherwise |
| `IyzicoCheckout.CheckoutSafety` | apps/integration-iyzico/src/integration-iyzico.service.ts:215-248 | under any interleaving of initialisation, callback, check, cancel and crash: terminal statuses and their transactions never change, COMPLETED excludes a cancellation mark, a mark implies FAILED, one initialisation at the provider |
| `IyzicoCheckout.MapsBasketIsBijection` | apps/integration-iyzico/src/integration-iyzico.service.ts:326-351 | the one-directional mapping test of the code already makes transactions and basket the same set of (item, price) pairs |
| `IyzicoCheckout.CompletedCaptureMatchesBasket` | apps/integration-iyzico/src/integration-iyzico.service.ts:326-368 | in every reachable state a completed capture's transactions match its basket one to one, and prices and paid prices each sum to the captured amount |
| `IyzicoCheckout.JudgeMeans` | apps/integration-iyzico/src/integration-iyzico.service.ts:260-351 | in terms of the answer's own fields: paid, in one instalment, cleared of fraud, with every basket line approved at its price, completes; declined or fraud fails; paid and under review waits; anything else is an error |
| `IyzicoCheckout.MapsBasketIff` | apps/integration-iyzico/src/integration-iyzico.service.ts:326-351 | the mapping test is exactly the one-to-one match |
| `IyzicoCheckout.CheckoutStore.Check` | apps/integration-iyzico/src/integration-iyzico.service.ts:250-371 | when the provider is asked, and what each answer makes of the row: completed with its transactions, failed, still waiting, or untouched with an error |
| `CheckoutHistory.StatusIsFounded` | apps/integration-iyzico/src/integration-iyzico.service.ts:250-371 | over all histories: a completed checkout goes back to an answer that approved it, with that answer's payment and transactions, after its callback; one that failed without a mark to an answer that declined it; a mark of payment after cancellation to the provider saying so |
| `CheckoutHistory.FormIsFounded` | apps/integration-iyzico/src/integration-iyzico.service.ts:215-232 | over all histories: a checkout is initialised exactly if it has a form, the one the provider answered its only initialisation with, and its callback counts as received only if one came with the token of that form |
| `CheckoutHistory.AnswerDecides` | apps/integration-iyzico/src/integration-iyzico.service.ts:250-371 | from every reachable state in which a checkout waits after its callback, a check by itself completes it, fails it, leaves it waiting or leaves it alone exactly as the answer says |
| `IyzicoCheckout.CheckoutStore.Callback` | apps/integration-iyzico/src/integration-iyzico.service.ts:215-248 | the new row after a callback, that a payment after cancellation is flagged exactly if the provider reports one, and exactly when the call fails |
| `IyzicoCheckout.CheckoutStore.Cancel` | apps/integration-iyzico/src/integration-iyzico.service.ts:398-422 | cancels only an unpaid waiting checkout, succeeds exactly then or when already failed |
| `IyzicoCheckout.CheckIsRun` | apps/integration-iyzico/src/integration-iyzico.service.ts:250-371 | without interference the machine's read, retrieve and apply steps are the code of `check` |
| `IyzicoCheckout.CallbackIsRun` | apps/integration-iyzico/src/integration-iyzico.service.ts:215-248 | the machine's steps of a callback, with the flag or the check it goes on to, are the code of `callback` |
| `IyzicoCheckout.CancelIsRun` | apps/integration-iyzico/src/integration-iyzico.service.ts:398-422 | likewise for `cancel` |
| `IyzicoRefund.MatchingItemsCoverPlan` | apps/integration-iyzico/src/iyzico-refund.service.ts:83-102 | items that match a plan in number, with unique origins and equal amounts, name every plan line, and add up to the refunded amount |
| `IyzicoRefund.ActKeeps` | apps/integration-iyzico/src/iyzico-refund.service.ts:152-173 | each step of a running call (claim, mark, submit, persist, stop, finish) leaves its refund and itself sound, with the plan unchanged, never fewer accepted lines, and never fewer succeeded ones unless it takes back a line whose update it did not hear of |
| `IyzicoRefund.StepKeepsInv` | apps/integration-iyzico/src/iyzico-refund.service.ts:108-174 | every atomic step of any call keeps the adapter invariant: sound refunds, one owner per refund, submissions accounted for |
| `IyzicoPrepare.Prepare` | apps/integration-iyzico/src/iyzico-refund.service.ts:21-53 | succeeds exactly for one iyzico capture of the whole purchase amount, completed, in the currency of the request, with unique lines and roundable amounts within price; the plan keeps identities and nominal amounts and is rounded under the mode, line by line |
| `IyzicoPrepare.FirstPlanFits` | apps/integration-iyzico/src/iyzico-refund.service.ts:134-138 | a prepared plan against an unrefunded capture is reserved if and only if no rounded amount exceeds its item's paid price |
| `IyzicoPrepare.PreparedCanBeRefused` | apps/integration-iyzico/src/iyzico-refund.service.ts:134-138 | a sound capture of two items at 1.00, attributed as 0.90 and 1.10, for which a plan is prepared and then refused by the reservation |
| `IyzicoPrepare.RoundedPlanFits` | apps/integration-iyzico/src/iyzico-refund.service.ts:32-41 | with items paid at whole-cent prices, a first prepared plan always fits, under every mode |
| `IyzicoService.RefundTable.Reserve` | apps/integration-iyzico/src/iyzico-refund.service.ts:108-150 | the reservation transaction: the table after it, or the reason for refusing |
| `IyzicoPrepare.PreparedMessageIsValid` | apps/integration-iyzico/src/iyzico-refund.service.ts:62-104 | the message of a refund with a prepared plan always passes the validation |
| `IyzicoService.ValidMessageIsReserved` | apps/integration-iyzico/src/iyzico-refund.service.ts:108-150 | a valid message for a new refund is reserved, exactly as it is, if and only if its capture is completed in its currency, every line has room in its item's transaction, and the payment has no other refund |
| `IyzicoService.ReusedIdentity` | apps/integration-iyzico/src/iyzico-refund.service.ts:118-125 | a refund identity that is taken finds its refund if payment, capture, currency, rounding and every line are the stored ones, and is refused as a conflict otherwise |
| `IyzicoService.InvalidCallIsBad` | apps/integration-iyzico/src/iyzico-refund.service.ts:62-104 | a message that is not a refund of a payment against the capture it was planned for, or whose lines do not add up to the payment, is a bad request |
| `IyzicoService.AcceptedCallMeans` | apps/integration-iyzico/src/iyzico-refund.service.ts:62-150 | whatever `initialize` accepts, first or again, is a refund against a completed capture in its currency, stored exactly as the message says, in whole cents, with nominal amounts that add up to the payment |
| `IyzicoService.RefundTable.Claim` | apps/integration-iyzico/src/iyzico-refund.service.ts:152-153 | the compare-and-set succeeds exactly for an unclaimed refund |
| `IyzicoService.RefundTable.SubmitLines` | apps/integration-iyzico/src/iyzico-refund.service.ts:154-173 | the submission loop leaves the refund and the submissions as specified for the provider's answers, stopping at the first doubt |
| `IyzicoService.RefundTable.Initialize` | apps/integration-iyzico/src/iyzico-refund.service.ts:106-175 | a whole call from its message: refused by validation or by the reservation with nothing changed, or carried on to table, submissions and reported status |
| `IyzicoService.AttemptIsRun` | apps/integration-iyzico/src/iyzico-refund.service.ts:154-173 | the specified loop is a run of the concurrent machine |
| `IyzicoService.InitializeIsRun` | apps/integration-iyzico/src/iyzico-refund.service.ts:106-175 | a whole call with a valid message is a run of the concurrent machine with the same table and submissions |
| `IyzicoStatus.SettlementsArePrefix` | apps/integration-iyzico/src/iyzico-refund.service.ts:180-190 | in a well-shaped refund the reported lines are a prefix of the plan |
| `IyzicoStatus.SubmissionShape` | apps/integration-iyzico/src/iyzico-refund.service.ts:152-184 | in every reachable state lines read succeeded, at most one under way or stopped, then reserved; no line is sent twice; COMPLETED means all accepted; FAILED means only the first line was sent and definitely rejected |
| `IyzicoStatus.ReportsGrow` | apps/integration-iyzico/src/iyzico-refund.service.ts:177-191 | as long as the acknowledgement of no update that stores a success of the refund is lost, later reports list everything earlier ones did, and COMPLETED and FAILED are final |
| `IyzicoStatus.ReportsShrinkIff` | apps/integration-iyzico/src/iyzico-refund.service.ts:159-171 | exactly the histories in which such an acknowledgement is lost pass a point at which the next step can make the report of the refund shrink |
| `IyzicoCapacity.StepKeepsWithin` | apps/integration-iyzico/src/iyzico-refund.service.ts:127-150 | a reservation that passes its checks keeps every capture within its limits and every line on its item's transaction, and no other step reserves or redirects anything |
| `IyzicoCapacity.SubmittedPerTransaction` | apps/integration-iyzico/src/iyzico-refund.service.ts:129-159 | what is submitted out of a transaction is exactly what is submitted of its item: no line is ever paid out of another item's transaction |
| `IyzicoCapacity.SubmittedWithinReserved` | apps/integration-iyzico/src/iyzico-refund.service.ts:126-149 | what was submitted of an item, over all refunds, is at most what is reserved of it |
| `IyzicoCapacity.NeverOverRefunded` | apps/integration-iyzico/src/iyzico-refund.service.ts:108-172 | submissions and reservations stay within paid price and price per item, what is submitted of an item is submitted out of its own transaction, and all within the captured amount |
| `RefundComposition.AdapterRefinesCore` | libs/payment-core-webservice/src/service/payment-operation-management.service.ts:83-107 | in any run of checkouts, adapter, core and answers in flight, as long as no stored success of the refund went unheard: an answer read after every answer settled so far is never a conflict, and is accepted (if the accounts of its rounding exist) with exactly its lines and status |
| `RefundComposition.UnheardSuccessCanConflict` | apps/integration-iyzico/src/iyzico-refund.service.ts:159-171 | that condition is needed: from any point of any run at which a call is about to store a success, its not hearing of the update can lead to an answer read after all that were settled, and yet refused as a conflict |
| `RefundComposition.DelayedAnswer` | libs/payment-core-webservice/src/service/payment-operation-management.service.ts:96-101 | an answer delivered however late, or crossing others, is accepted if and only if it lists every line settled by now and does not take COMPLETED back, which is to say no fewer lines than are settled; otherwise it is a conflict |
| `RefundComposition.RefundIsConservedEndToEnd` | libs/payment-core-webservice/src/service/payment-operation-management.service.ts:75-142 | at any point of any run, whatever order answers arrive in: settled lines were sent once and accepted by the provider, entries balance, COMPLETED means nominal plus rounding equals what the provider accepted, FAILED means it accepted nothing |
| `RefundComposition.RoundingIsBounded` | libs/payment-core-webservice/src/service/payment-operation-management.service.ts:108-129 | at any point of any run, for a plan rounded under the operation's mode: the customer's net rounding is within the mode's bounds for the settled lines, and what the provider accepted for a COMPLETED operation is as close to its amount |
| `RefundComposition.CheckoutIsNeverOverRefunded` | apps/integration-iyzico/src/iyzico-refund.service.ts:108-172 | at any point of any run what was ever submitted against a completed checkout stays within the paid price of each transaction and within the captured amount |
| `RefundComposition.LinesArePaidFromTheirOwn` | apps/integration-iyzico/src/iyzico-refund.service.ts:129-140 | at any point of any run every line of every refund points to a transaction of its checkout that was for its item, and no two lines of a refund to the same one |
| `RefundComposition.MoveKeepsWorld` | apps/integration-iyzico/src/iyzico-refund.service.ts:106-191 | every move of the whole system, asking and settling apart, keeps the joint invariant |
| `Grouping.Group` | libs/common-utils/src/array-to-object.ts:51-69 | the grouping fold yields one group per key, each worth what its rows add up to, together worth all rows |
| `Grouping.GroupedIsSound` | libs/common-utils/src/array-to-object.ts:51-69 | the same of the fold as a function, with exactly the keys that occur |
| `Taxes.GenerateTax` | libs/common-utils/src/tax-calculations.ts:50-89 | when a tax can be generated, and that tax plus untaxed is the full amount at the given or derived rate |
| `Taxes.Merge` | libs/common-utils/src/tax-calculations.ts:91-107 | two taxes of one rate always merge into their totals at that rate, with that percent unless the amounts cancel out |
| `Taxes.MergePreservesRate` | libs/common-utils/src/tax-calculations.ts:91-107 | merging any number of taxes of one rate never fails and stays at that rate; the derived percent is that rate if and only if the merged tax is not zero (or the rate is, or there was only one) |
| `Taxes.PositiveTaxesKeepRate` | libs/common-utils/src/tax-calculations.ts:91-107 | positive amounts always come back with the percent of their rate |
| `Taxes.ZeroTotalLosesRate` | libs/common-utils/src/tax-calculations.ts:20-35 | a sale and its return at 10 percent merge to percent 0 |
| `Taxes.MergeTaxesByPercent` | libs/common-utils/src/tax-calculations.ts:109-126 | one group per rate, worth the taxes at that rate, split at that rate; groups add up to all taxes |
| `PaymentViews.CalculateTotalAmount` | libs/payment-core-webservice/src/service/order-calculation.service.ts:43-190 | each item is its seller's, worth unit price times quantity, with the rate's share of that as tax; the total is the sum of unit prices times quantities over the lines; it fails exactly for an unknown rate or a division by zero |
| `PaymentViews.ViewsPointTheSameWay` | libs/payment-core-webservice/src/mapper/transaction.mapper.ts:17-33 | orders and ledger rows of a payment have its parties, identity, currency and status, and one direction: a purchase credits its sellers and debits its customer, a refund goes back |
| `PaymentViews.WholeRefundCancels` | libs/payment-core-webservice/src/service/account-payment-transaction.service.ts:81-135 | a refund of all items of a purchase leaves every account at zero, in amount and in tax |
| `PaymentViews.GroupingKeySeparatesSellers` | libs/payment-core-webservice/src/service/seller-payment-order.service.ts:108-124 | the joined text under which orders are grouped is the same for two items of a payment if and only if the seller is |
| `PaymentViews.ViewsAgree` | libs/payment-core-webservice/src/service/seller-payment-order.service.ts:104-159 | for every item list saved and read back: items, seller orders and seller ledger rows agree; the payment total, which the customer's opposite row holds, agrees with them if and only if the rounded sum of the items is the sum of the rounded items, and with the tax groups if and only if that holds of those; differences are at most half a unit per rounding |
| `PaymentViews.Round` | libs/postral-entities/src/entity/base.ts:2-9 | a saved amount is the nearest whole unit of 1e-4, halves away from zero |
| `PaymentViews.StoredRowsAgree` | libs/payment-core-webservice/src/service/account-payment-transaction.service.ts:81-127 | stored items, seller orders and seller ledger rows agree in total and per seller, whatever the items are; every order is amount equals tax plus untaxed |
| `PaymentViews.WholeItemsAgree` | libs/payment-core-webservice/src/service/payment.service.ts:156-181 | items already in four decimals, as those of every refund, make all views agree |
| `PaymentViews.StoredTaxesCanDrift` | libs/payment-core-webservice/src/service/payment.service.ts:203-216 | three items of 10.00 at 18 percent, as `generateTax` makes them, saved: the sellers hold a tax of 4.5762, the payment and the customer's row 4.5763 |
| `PaymentViews.UpsertAllIs` | libs/payment-core-webservice/src/service/seller-payment-order.service.ts:67-102 | storing generated orders is: refresh the status of those stored, append the missing, touch nothing else |
| `PaymentViews.UpsertKeepsDistinct` | libs/payment-core-webservice/src/service/seller-payment-order.service.ts:73-101 | one order per (source, target, type, payment, currency), always |
| `PaymentViews.OrderRegeneration` | libs/payment-core-webservice/src/service/seller-payment-order.service.ts:67-102 | generating orders again under any status changes only that payment's order statuses |
| `PaymentViews.LedgerRegeneration` | libs/payment-core-webservice/src/service/account-payment-transaction.service.ts:24-54 | generating ledger rows again leaves what generating them once at the last status would have left |
| `PaymentViews.RoundingIsUntouched` | libs/payment-core-webservice/src/service/account-payment-transaction.service.ts:37-54 | regeneration leaves every rounding entry as it was |
| `PaymentViews.OneRowPerAccount` | libs/payment-core-webservice/src/service/account-payment-transaction.service.ts:24-54 | after regeneration each generated row is the only nominal one of its account, payment and type, whatever was there |
| `PaymentViews.FirstGeneration` | libs/payment-core-webservice/src/service/payment.service.ts:215-216 | for a new payment both generators only append |
| `PaymentViews.AccountingStore.AddSellerPaymentOrders` | libs/payment-core-webservice/src/service/seller-payment-order.service.ts:104-159 | grouping and upserting in the store is the specified order table |
| `PaymentViews.AccountingStore.FromPayment` | libs/payment-core-webservice/src/service/account-payment-transaction.service.ts:81-135 | the loop over items is the specified ledger: rows replaced, or only inserted inside a caller's transaction |
| `PaymentViews.AccountingStore.PostPaymentOperation` | libs/payment-core-webservice/src/service/payment.service.ts:232-242 | both views regenerated, rounding entries kept |
| `Billing.BillForEffect` | libs/payment-core-webservice/src/service/billing.service.ts:86-161 | one billing touches only its own seller, currency and kind, and leaves nothing positive due there |
| `Billing.RunBillsEveryKey` | libs/payment-core-webservice/src/service/billing.service.ts:68-74 | a run bills each seller, currency and kind once: positive sums whole, others carried forward whole, the billing account and strangers untouched |
| `Billing.RunBillsRipeReports` | libs/payment-core-webservice/src/service/billing.service.ts:172-189 | which reports a run bills: a daily one of a day that is over, not archived, with payments, unbilled, of a seller that is not the billing account, exactly if what is due of its key adds up to more than zero; every other report stays as it is |
| `Billing.BillingService.RunBilling` | libs/payment-core-webservice/src/service/billing.service.ts:44-78 | the nested loops do the specified run; a missing billing account changes nothing |
| `BillingRuns.ReportConservation` | libs/payment-core-webservice/src/service/billing.service.ts:86-161 | after any history of days, digestion and runs that overlap and stop anywhere, the payments made from a report are its mark, plus those whose run stopped before marking it or marked it when it was marked already, plus those whose run has not come to it yet |
| `BillingRuns.BilledOnceIff` | libs/payment-core-webservice/src/service/billing.service.ts:91-120 | a report has exactly the payment its mark says if and only if no run strayed on it in one of these ways and none is between paying and marking it; it has at most one payment if and only if these and its mark are at most one in all |
| `BillingRuns.SeparateRunsBillOnce` | libs/payment-core-webservice/src/service/billing.service.ts:91-120 | if runs never start on a seller, currency and kind another run is working on, and none stops between paying and marking there, each of its reports has one payment if it is marked or its payment is under way, and none otherwise |
| `BillingRuns.SeparateRunsTotal` | libs/payment-core-webservice/src/service/billing.service.ts:91-120 | and with no run under way the payments total exactly the marked reports |
| `BillingRuns.BillingConservation` | libs/payment-core-webservice/src/service/billing.service.ts:86-161 | after any history, overlaps and stops included, the payments of a seller, currency and kind total its reports, each counted as often as it was paid |
| `BillingRuns.PaymentsAreFromRipeReports` | libs/payment-core-webservice/src/service/billing.service.ts:172-189 | after any history, however runs overlap and stop, payments were made only from daily reports of days that were over, not archived, with payments in them |
| `BillingRuns.CrashBillsTwice` | libs/payment-core-webservice/src/service/billing.service.ts:110-120 | one report of 10 billed twice because a run stopped between paying and marking it |
| `BillingRuns.OverlapBillsTwice` | libs/payment-core-webservice/src/controller/admin-operations.controller.ts:33-36 | one report of 10 billed twice by two runs that both finish: nothing keeps a requested run from overlapping the scheduled one or another |
| `BillingRuns.RunIsHistory` | libs/payment-core-webservice/src/service/billing.service.ts:44-78 | a whole run by itself is a stretch of history with the effect of `runBilling`, so what holds of histories holds after any runs |

## Left out

- RefundPlan.PrepareRefundChannelPlan: the shape of `channelData`, the text formats of amounts and the lookup of the billing account are not modelled; amounts enter as units of 1e-4 and the account as an argument.
- RefundSettlement.SettlementStore.SaveRefundSettlementRecord: provider amounts are compared by value where the code compares their texts.
- RefundCompletion.Payment.UpdateByOperationStatuses: the firing of READY operations, the cancellation of operations on expiry and the other side effects of a status change are not modelled; whether a payment is overdue is an argument.
- IyzicoCheckout.CheckoutStore.Check: does not write the provider fee.
- IyzicoPrepare.Prepare: does not sort the lines by identity or put the rounding mode into `channelData`.
- PaymentViews.CalculateTotalAmount: a line enters with what the lookups of items, prices, taxes and commissions returned.
- RefundCapacity.CapacityHolds: stated for serialised starts, since without them it is false (`OverlappingStartsOverReserve`).
- The lease that serialises approvals, and what happens after it expires: only its effect is assumed.
- Ordering of plan lines by identity: plans are taken as already in the order the code sorts them into.
- A lost acknowledgement of any other update of the adapter has no step of its own: the call ends there, as one that stops right after the step, which the runs include.
- Transaction prices are whole units of 1e-4, although `responseDecimal` (apps/integration-iyzico/src/iyzico-client.service.ts:35-43) admits any number of decimals.
- `paymentErrorStatus`, provider fees, conversation identities, the provider's payment identity sent along with a submission, error codes and texts of rows.
- Floating point: sums are exact before they are saved, and the 20-digit limit of division is taken as exact floor on the refund path.
- Rounding of stored percents.
- `failPaymentIfSetFailFieldTrue`, whose update has no guard: no result is claimed over runs that include it.
- The checks of a repeated checkout `initialize` against the stored reservation: only that the second call sends nothing.
- The billing payment's own tax, items and seller orders; the day on which a run is due; archived reports appearing later.
- Report digestion, refund requests and their approval, network clients, signatures, controllers, redirects, sub-merchant synchronisation, open payments, invoices and catalogues.
