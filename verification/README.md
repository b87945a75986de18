# Splite backend, verified

Splite takes orders and payments at restaurant tables: diners open a bill by
ordering, split it, pay their parts from several phones, and receive fiscal
invoices whose numbers may have no gap. This project models the parts of it in
which money, numbers or credentials could go wrong, and proves what they promise
over every input and every interleaving.

One module per component:

- `LargestRemainder`, `Apportion`, `SplitEngine`, `SplitPreview`: the exact division
  of an amount and the four ways to split a bill (`src/services/split.js`,
  `src/services/splitEngine.js`).
- `Money`, `FiscalAllocation`, `FiscalShares`, `FiscalMatch`: rounding, the division
  of each payment over the VAT rates still to be declared, and its agreement with the
  bill's own total (`src/services/money.js`, `src/services/fiscalAllocation.js`,
  `src/services/billItems.js`).
- `BillState`, `BillSafety`, `BillTheorems`, `BillOutcomes`, `BillServer`: opening,
  ordering, editing, paying, settling and voiding bills as concurrent transactions
  (`src/routes/bills.js`, `src/services/locks.js`, `src/services/guestOrders.js`).
- `Idempotency`, `IdempotentReplies`: one idempotency key around a charge
  (`src/services/idempotency.js`, `src/routes/bills.js`, `src/routes/guest.js`).
- `SplitState`, `SplitSafety`, `SplitCommits`, `SplitTheorems`, `SplitHistory`,
  `SplitOutcomes`, `SplitRefusals`, `SplitRaces`: stored splits, the money that
  settles them, and the locks in between (`src/services/splits.js`,
  `src/services/payments.js`, `src/services/paymentClaims.js`,
  `src/services/billItems.js`, migrations 020 and 022).
- `Decimals`, `FiscalNumbering`: gapless control and document numbers and their
  printed forms (`src/services/fiscalNumbering.js`).
- `RateLimit`, `WebhookReplay`: the two Redis protocols.
- `Migrate`, `Credentials`, `Resilient`, `Bcv`: the migration runner, stored bank
  credentials and key rotation, bounded reads and retries, and the exchange-rate
  page.

The concurrent parts share a shape. A `State` holds the committed tables, the
locks and a program counter for each handler; an `Event` lets one handler run its
next statement, arrive, or crash; `Exec` is one event and `Run` any sequence of
them. What is proved is proved of every `Run`. Classes (`BillServer.Server`,
`Idempotency.Service`, `RateLimit.Limiter`, and so on) are the handlers'
statements as methods that update fields in place; each method's `ensures` ties
the new state to `Exec` of the old one, so the results about runs are results
about them.

Three kinds of results stand side by side: what no run can break (the `Safety` and
`Theorems` modules), what an accepted request adds to the tables, and when one is
refused or waits (`BillOutcomes`, `IdempotentReplies`, `SplitPreview`,
`FiscalShares`, `SplitOutcomes`, `SplitRefusals`, and the sections on answers in
`FiscalNumbering`, `RateLimit` and `WebhookReplay`). The second kind is stated in
terms of the request and the rows before and after it, not of the steps in between.

## Assumptions

- PostgreSQL runs at READ COMMITTED. A statement sees what was committed when it
  began; `FOR UPDATE` waits for the row and then reads its last committed version,
  and excludes `FOR KEY SHARE`, which a foreign key takes on the row it names. A
  row joined but not locked is read from the statement's snapshot. Inserting a
  payment takes the key of the share it names, and inserting a split the key of
  its bill. Deadlocks end in one of the transactions rolling back, which is a
  crash here.
- A unique index waits for another transaction's pending row and fails on a
  committed one. A transaction's writes appear at COMMIT, all at once.
- Redis executes one command at a time and does not lose data; its clock and the
  process's are the same clock.
- Amounts are whole minor units, as in the source, and unbounded; the source
  rejects what does not fit a 64-bit column.
- Sealing opens to what was sealed and only under its own key; signatures of
  different content differ.
- A row's identifier is fresh when it is drawn.

## Findings

Places where the code does less than its comments or documentation say. The code
is modelled as it is; each has a run or an input that shows it and the exact
condition under which the promise does hold.

- **IVA of one invoice.** `README.md:1650-1657` and the test beside it promise
  that an invoice's IVA is within one céntimo of its rate on its own base. With
  payments of 18, 18, 18 and then the rest of a bill of 1000 at 16%, the last
  invoice is two céntimos off (`FiscalAllocation.DriftPastOneCentimo`). What holds
  is one céntimo on the first invoice and k on the k-th
  (`FiscalAllocation.IvaWithinItsPosition`), and no fixed bound does: the invoice
  at position 2m + 1 can be m céntimos off (`FiscalAllocation.DriftHasNoCeiling`).
- **Migrations 038 to 049 and 053** hold their own `BEGIN` and `COMMIT`, so the
  runner's transaction ends inside the file and the ledger row follows on its own.
  A crash in between runs the file again. "Either the whole file and its ledger
  row land, or neither does" holds exactly when no file commits itself
  (`Migrate.AtMostOnceIffNoneCommitsItself`).
- **Editing the fiscal series** reads whether anything was issued and then writes,
  with no lock, although `src/routes/account.js:165-168` says no issue can come in
  between. One can (`FiscalNumbering.EditRacesTheFirstIssue`): there the issue
  commits in a format the edit has replaced. Over a whole run the series stays
  frozen exactly when every edit commits while its check would still pass and
  every issue commits in the format and range the series then has
  (`FiscalNumbering.FrozenThroughoutIff`).
- **Key rotation** writes a row back by its key alone. If credentials were put in
  between, it restores the old ones under whatever switches the row now has
  (`Credentials.RotationUndoesAPut`). A row holds what was put last, in every state
  of a run, exactly when no rotation writes it back after other credentials than
  it read were the last to be put (`Credentials.HoldsTheLastIffNothingUndone`), and
  a rail is on with what it was proven with exactly when no rotation writes back
  others than that (`Credentials.OnIsProvenIffNothingUnproven`). Its `remaining` is
  always zero, however many rows are stale (`Credentials.Vault.Rotate`), and one
  row that cannot be opened keeps any number of calls from finishing
  (`Credentials.Vault.RotateAgain`).
- **The void route** can answer that a bill that is OPEN is not open, exactly when
  the bill was created between its update and its read
  (`BillTheorems.OpenIsNotOpenOnlyIfNew`).
- **A response without a stream** is read whole whatever its size
  (`Resilient.ReadCapped`, last clause).
- **A currency block without its own figure** takes the next block's, if that is
  within the lookahead, and only then (`Bcv.TakesTheNextBlocksFigureIff`), which
  `src/connectors/bcv.js:36-38` means to exclude; `Bcv.DollarAtTheEurosRate` is a
  page that quotes the dollar at the euro's rate.
- **`complete` and `abort`** address the key's row by key alone, so an abort can
  delete the row of a request that has paid: its own, after a lost COMMIT answer or
  a `complete` that threw, or that of another, after it outlived its own
  (`Idempotency.AbortForgetsAPaymentIff` is the exact condition,
  `Idempotency.ThrowingCompleteForgetsThePaid` and
  `Idempotency.OutlivedAbortForgetsAnother` are the runs). The ledger's unique index
  makes up for it (`Idempotency.EverySuccessIsTheOnePayment`). Without the index a
  key pays at most once, and once more for each day gone by, as long as nothing of
  this goes wrong (`Idempotency.OnePaymentADay`); each of the three breaks that
  discipline on its own
  (`Idempotency.ThrowingCompleteChargesTwice`, `Idempotency.LostCommitChargesTwice`,
  `Idempotency.ExpiredClaimChargesTwice`).
- **The migration lock** sits on a session of its own. A runner that loses it goes
  on, and two runners can apply the same file until one fails on the ledger's key
  (`Migrate.DroppedLockTakesAKey`).
- **A split can be agreed on figures the bill no longer has.** `createSplit` reads
  the bill and divides its balance before its transaction begins, and nothing
  compares the two when it inserts, although `README.md:2994-3000` says that a
  split stops governing a bill that changed. An edit or a payment in between
  leaves an ACTIVE plan of the old figure (`SplitRaces.AgreementOnAnOldTotal`,
  `SplitRaces.AgreementOnAnOldBalance`). The plan is of the present total exactly
  when no edit committed between the reading and the INSERT, and settles the bill
  exactly when no payment did either
  (`SplitHistory.PresentTotalUnlessEditedBetween`,
  `SplitHistory.SettlesBillUnlessPaidBetween`); from the INSERT on, the foreign
  key on the bill and `markSplitsStale` keep it right.
- **A claim can name a share of a voided plan**: `declareClaim` does not look at
  the plan (`SplitRaces.ClaimOnTheVoid`). What voiding promises holds all the
  same: a claim that is pending against a voided plan came after the voiding
  (`SplitHistory.VoidStrandsNoClaim`).

## Model

| member | source | states |
|---|---|---|
| LargestRemainder.Allocate | src/services/split.js:13-38 | Refuses a negative total, no shares and a non-positive share; otherwise returns the one largest-remainder division of the total |
| LargestRemainder.Unique | src/services/split.js:9-11 | There is only one largest-remainder division of an amount by given weights: ties leave no choice |
| LargestRemainder.AllocationExists | src/services/split.js:28-35 | There always is one: the units left over are fewer than the shares |
| LargestRemainder.WithinOneUnit | src/services/split.js:25-35 | Every part is less than one unit away from its exact rational share |
| LargestRemainder.NeverAboveWeight | src/services/fiscalAllocation.js:126-136 | Dividing no more than there is by what there is never gives a part more than its weight |
| LargestRemainder.NoWeightNoPart | src/services/splitEngine.js:36-39 | A zero weight gets nothing |
| LargestRemainder.OrderPreserving | src/services/split.js:29-35 | Who weighs more never gets less; equal weights differ by at most one unit, the earlier first |
| LargestRemainder.SortByRemainder | src/services/split.js:26-31 | The order of the leftover units: each index once, larger remainder first, then smaller index |
| LargestRemainder.HandOut | src/services/split.js:33-35 | One unit each to the first so many in that order, and nothing else |
| Apportion.PickIsAllocation | src/services/splitEngine.js:36-39 | Holding zero weights out of the division and putting them back with zero is dividing with them in |
| Apportion.AmongPositive | src/services/splitEngine.js:41-60 | The division over all weights, computed over the positive ones |
| SplitEngine.AllocateWithZeros | src/services/splitEngine.js:41-60 | Refuses money nobody has a share of; otherwise the division by the positive weights, zeros elsewhere |
| SplitEngine.ItemsSplitIsExact | src/services/splitEngine.js:71-82 | Lines by subtotal, claims by units, people evenly: the three stages together hand out exactly the outstanding balance |
| SplitEngine.ItemsSplitIsFair | README.md:2907-2910 | Each participant is less than three céntimos per seat they take away from their exact rational share |
| SplitEngine.AllocateByItems | src/services/splitEngine.js:83-174 | Refuses an unitemised bill, unknown lines or people, unclaimed lines and units that do not add up, in that order; otherwise the ITEMS split |
| SplitEngine.AllocateCustom | src/services/splitEngine.js:176-195 | Accepts stated amounts exactly when none is negative and they add up to what is outstanding |
| SplitEngine.EqualSharesAreEven | src/services/splitEngine.js:225-227 | The parts of an even division differ by at most one céntimo, the earlier ones taking the odd céntimos; `SplitPreview.EqualIsEven` says that EQUAL answers with it |
| SplitEngine.Preview | src/services/splitEngine.js:202-263 | Every mode that accepts hands out exactly what is outstanding, one amount a participant; what each mode answers and refuses is stated by the lemmas of `SplitPreview` about the same outcome |
| Money.DivideRound | src/services/money.js:75-80 | The nearest integer, halves away from zero, on both sides of zero |
| Money.ApplyBps | src/services/money.js:94-100 | A rate in basis points, within half a unit |
| Money.ApplyRate | src/services/money.js:82-86 | Conversion to bolívares, within half a céntimo |
| Money.RateRoundTrip | src/services/money.js:82-92 | At a rate of one or more, converting to bolívares and back returns the amount |
| Money.RoundTripsIffOneOrMore | src/services/money.js:82-92 | Converting to bolívares and back returns every amount if and only if the rate is one or more |
| FiscalAllocation.AllocateCapped | src/services/fiscalAllocation.js:57-117 | The rounds end, neither throw is reachable, and the result is the capped division as a function |
| FiscalAllocation.Pour | src/services/fiscalAllocation.js:67-78 | The rounds place every céntimo within the caps |
| FiscalAllocation.WeighedFirst | src/services/fiscalAllocation.js:76-78 | Money reaches a bucket nobody weighed only when every weighed bucket is full |
| FiscalAllocation.PlainWhereItFits | src/services/fiscalAllocation.js:99-110 | Where the plain division by weight fits under the caps, it is the result |
| FiscalAllocation.ProportionalIsPlain | src/services/fiscalAllocation.js:60-63 | Weighed by what is left, one round places everything and nothing overflows |
| FiscalAllocation.AllocatePayment | src/services/fiscalAllocation.js:137-202 | Refuses a negative payment and one above what is left; otherwise the invoice and the remainder of `Declare`, which the lemmas of `FiscalShares` state bucket by bucket |
| FiscalAllocation.DeclareBalances | src/services/fiscalAllocation.js:125-136 | One payment: every bucket splits in two, and the invoice adds up to what was paid |
| FiscalAllocation.NothingLostOrInvented | README.md:1629-1644 | After any payments, declared plus left is the bill, per rate and for base, tax and service separately |
| FiscalAllocation.EachInvoiceIsItsPayment | README.md:1656-1657 | Each invoice is worth exactly its payment |
| FiscalAllocation.FullyPaidIsFullyDeclared | README.md:1629-1632 | Once the bill is paid every rate is declared to the céntimo, in any number and order of free amounts |
| FiscalAllocation.CoveredIsPayable | README.md:1634-1642 | A sequence of payments can be declared exactly when the bill covers its sum |
| FiscalAllocation.NearestOfTwo | src/services/fiscalAllocation.js:171-179 | Base and tax of a slice are the exact ones, each rounded to the nearest céntimo |
| FiscalAllocation.DriftIsBounded | src/services/fiscalAllocation.js:38-47 | How far an invoice can be from its rate grows by at most half a céntimo and its tax a payment |
| FiscalAllocation.IvaWithinItsPosition | README.md:1650-1657 | The IVA of the k-th invoice is within k céntimos of its rate on its base |
| FiscalAllocation.DriftPastOneCentimo | README.md:1650-1657 | A fully paid bill whose last invoice is two céntimos off its rate |
| FiscalAllocation.DriftHasNoCeiling | README.md:1650-1657 | For every m a fully paid bill whose invoice at position 2m + 1 is m céntimos or more off its rate, so a bound that grows with the position is the right shape |
| FiscalAllocation.StateFromLines | src/services/fiscalAllocation.js:204-230 | One group a rate some line has, in order of rate, its base the sum of that rate, taxed once |
| FiscalMatch.DeclaresWhatIsCharged | src/services/billItems.js:89-108 | What the groups and the service charge come to is what the lines and the service charge come to |
| FiscalMatch.DeclaresTheBill | src/services/billItems.js:134-142 | For a bill in bolívares what its invoices declare is what it charges |
| BillState.WriteStatements | src/routes/bills.js:678-700 | The statements between the lock and COMMIT change nothing committed |
| BillState.InsertBill | src/routes/bills.js:260-280 | Inserting waits, fails on the unique index, or holds a new row; nothing is committed yet |
| BillSafety.PrepareIsLawful | src/services/locks.js:110-126 | Whatever an order, an edit, a settlement or a payment writes: only to an open bill, never past what is due, closed only when paid and forgiven add up |
| BillSafety.RunKeeps | src/routes/bills.js:131-757 | The invariant of the tables, the locks and every handler holds of every run |
| BillTheorems.MoneyIsConserved | src/services/locks.js:73-86 | Paid is the ledger and never past due; a closed bill is paid but for what was forgiven; a void bill never took money |
| BillTheorems.TotalsFollowTheLines | src/services/billItems.js:17-22 | However many edit at once, an itemised bill comes to its lines at its own rate |
| BillTheorems.SettleWritesTheOnlyAdjustment | migrations/037_bill_adjustments.sql:58-62 | Settling an open bill never meets another adjustment |
| BillTheorems.RunIsOnward | src/routes/bills.js:733-757 | Between any two moments money only comes in and only open bills change |
| BillTheorems.SettledIsFinal | src/services/locks.js:102-108 | A closed or void bill keeps its figures, its money and its adjustment in every later state |
| BillTheorems.OneOpenBillPerTable | migrations/004_open_bill_invariant.sql:16-21 | A table has at most one open bill, whoever opens it |
| BillTheorems.PostNeverConflicts | src/routes/bills.js:132-157 | POST looks under the table lock, so its insert never meets the unique index |
| BillTheorems.OrderConflictsExactlyWhenOvertaken | src/routes/bills.js:231-280 | In every run: there is the event in which the order looked and found none, and its insert fails on the index if and only if a bill of its table was opened after that event and is still open; either way nothing committed changes |
| BillTheorems.OneInsertInFlight | src/routes/bills.js:254-258 | Two inserts for one table are never in flight together |
| BillTheorems.OvertakenOrderLoses | src/routes/bills.js:231-289 | An order that looked before the table had a bill ends refused and takes nothing with it |
| BillTheorems.OrderCanLose | src/routes/bills.js:231-280 | A run in which it does |
| BillTheorems.DiagnosisIsTrue | src/routes/bills.js:738-757 | The reason the void route reads later is the one its update met, and never that an open bill is not open |
| BillTheorems.OpenIsNotOpenOnlyIfNew | src/routes/bills.js:746-757 | It says so exactly of a bill created between the update and the read |
| BillTheorems.VoidCanSayOpen | src/routes/bills.js:746-757 | A run in which it does |
| BillTheorems.EachCommitIsAWholeHandler | src/connectors/base.js:54-75 | One event changes nothing committed, or does exactly what a whole handler does alone at that instant |
| BillTheorems.Serializable | src/connectors/base.js:54-75 | Every run ends where its accepted requests, one at a time in commit order, would have |
| BillTheorems.RefusedWroteNothing | src/connectors/base.js:66-71 | A request refused for any reason at any point wrote nothing on its way |
| BillServer.Server.FindOpen | src/routes/bills.js:147-150 | The open bill of a table, if it has one |
| BillServer.Server.TakeTable | src/routes/bills.js:139-145 | The table row: not found, waited for, or locked |
| BillServer.Server.ChooseBill | src/routes/bills.js:147-155 | POST refuses a table with an open bill; an order goes by what it read before |
| BillServer.Server.Insert | src/routes/bills.js:160-179 | The insert under its unique index |
| BillServer.Server.TakeBill | src/services/locks.js:88-108 | The bill row: not found, not open, waited for, or locked and read |
| BillServer.Server.WriteAll | src/services/locks.js:110-126 | Prepares the write or rolls back with the reason: `BillOutcomes.GoesOnUnlessWhyNot` states which, and `BillOutcomes.AcceptedIsGained` what is written |
| BillServer.Server.CommitWrite | src/connectors/base.js:64-66 | Row, ledger and adjustment land together and the locks go |
| BillServer.Server.UpdateToVoid | src/routes/bills.js:738-744 | Voids an open unpaid bill in one statement, or passes it over |
| BillServer.Server.ReadWhyNotVoid | src/routes/bills.js:746-757 | The read that words the error |
| BillServer.Server.Advance | src/routes/bills.js:131-757 | The next statement of a handler keeps the invariant |
| BillServer.Server.Crash | src/connectors/base.js:67-74 | Any error rolls back and gives up the locks |
| Idempotency.EverySuccessIsTheOnePayment | migrations/007_payment_ledger.sql:87-91 | With the ledger index: at most one payment, and every success is its answer, whatever fails, expires or races |
| Idempotency.OnePaymentPerClaim | src/services/idempotency.js:24-68 | Without it, in order: while the row lives at most one payment, by the request that claimed it and for its payload |
| Idempotency.OnePaymentADay | src/services/idempotency.js:41-46 | Without it, in order: at most one payment a key in the first day, and one more for each day gone by |
| Idempotency.ChargesUnderItsClaimIff | src/routes/bills.js:766-830 | In every run, in order or not: a request that is about to charge has not paid yet, and its own claim is the row that is there if and only if no event has taken that row away |
| Idempotency.AbortSparesThePaid | src/routes/bills.js:823-830 | In order: an abort deletes only the row of the request that aborts, and that request has not paid |
| Idempotency.AbortForgetsAPaymentIff | src/services/idempotency.js:91-96 | In every run: an abort deletes the row of a request that has paid if and only if it still has its own row and its COMMIT went unanswered or its `complete` threw, or it has outlived its own row and the one there now has paid |
| Idempotency.SuccessIsTheClaimsPayment | src/services/idempotency.js:70-75 | In order: a success is the payment of the row it was read from, made for the very payload of the request |
| Idempotency.TrustChargesTwice | README.md:263-271 | Granting a vanished row on trust charges twice within the day, with every event in order |
| Idempotency.ThrowingCompleteChargesTwice | src/services/idempotency.js:83-87 | Without the index: two payments within the day, in a run in which nothing but a throwing `complete` is out of order |
| Idempotency.LostCommitChargesTwice | src/routes/bills.js:823-830 | The same with nothing but a COMMIT whose answer is lost |
| Idempotency.ExpiredClaimChargesTwice | src/services/idempotency.js:33-38 | Two payments in the life of one row, in a run in which nothing is out of order but a request that outlives its own |
| Idempotency.ThrowingCompleteForgetsThePaid | src/services/idempotency.js:83-87 | Even with the index: a run, in order but for a throwing `complete`, in which an abort deletes the row of the request itself, which has paid |
| Idempotency.OutlivedAbortForgetsAnother | src/services/idempotency.js:91-96 | Even with the index: a run, in order but for a request that outlives its row, in which its abort deletes the row of another request, which has paid |
| Idempotency.Service.DeleteExpired | src/services/idempotency.js:33-38 | Deletes the row exactly when it has expired |
| Idempotency.Service.TryClaim | src/services/idempotency.js:40-47 | Owner exactly when there was no row |
| Idempotency.Service.ReadExisting | src/services/idempotency.js:49-75 | Replays, refuses another payload, reports a claim in flight, or goes round again at most once |
| Idempotency.Service.RecordPayment | src/services/locks.js:197-214 | One more payment, or none where the index has one |
| Idempotency.Service.StoreResponse | src/services/idempotency.js:77-94 | Stores the response in whatever row the key has, and leaves the rest of the row as it was |
| Idempotency.Service.ReleaseKey | src/services/idempotency.js:96-101 | Deletes the row unless it holds a response |
| Idempotency.Service.Advance | src/routes/bills.js:788-838 | The next statement of a request |
| SplitEngine.PreviewIsNonNegative | migrations/020_persistent_bill_splits.sql:96-98 | Whatever the mode, no accepted split asks anybody for less than nothing, which is what the CHECK on a share wants |
| SplitSafety.CannotVoidUnder | src/services/splits.js:261-293 | Of two transactions only one can have a share: the one settling it, or the one voiding its split. A payment holds the share by the key of its foreign key, a confirmation by the pending claim that the voiding counts |
| SplitSafety.LiveStays | src/services/splits.js:364-402 | While a transaction settles a share whose split it saw ACTIVE, nothing anybody commits ends that split, although the split itself is never locked |
| SplitSafety.NothingPendingArrives | src/services/splits.js:277-293 | Between the count of pending payments and the COMMIT of the voiding nobody can declare one against the locked shares |
| SplitSafety.AgreeingHeld | migrations/020_persistent_bill_splits.sql:64-71 | From INSERT to COMMIT the bill stays as it was, and no other split of it can become live |
| SplitCommits.ReceiptIsSound | src/services/payments.js:220-262 | Money that lands, through a share or past it, keeps every total: the ledger of each share, its ceiling, the bill and what its live plan has been paid; which of the two it is, `SplitOutcomes.ConfirmationCreditsExactly` and `SplitOutcomes.PaymentCreditsExactly` state |
| SplitCommits.RetireIsSound | src/services/billItems.js:173-208 | An edit that moves the total leaves no live plan behind, and one that does not leaves the plan standing |
| SplitCommits.DiscardIsSound | src/services/splits.js:260-300 | A voiding leaves the invariant of all tables as it was |
| SplitCommits.AgreeIsSound | src/services/splits.js:64-140 | An agreement that reached its INSERT commits, voids the plan it replaces and leaves one live plan of the engine's own amounts |
| SplitTheorems.NextIsSound | src/services/splits.js:33-420 | Every statement of every transaction keeps its locks to itself and writes only what it has locked |
| SplitTheorems.RunKeeps | migrations/020_persistent_bill_splits.sql:1-30 | The invariant of tables, locks and every transaction holds of every run of agreements, voidings, edits, payments, claims and crashes |
| SplitTheorems.SharesAddUp | src/services/splits.js:56-59 | In every reachable state a split is the engine's own division of what its bill had outstanding when it was read, to the céntimo; each share is paid what the ledger says and never past its amount |
| SplitTheorems.AgreementsCommit | migrations/020_persistent_bill_splits.sql:147-185 | The deferred constraint that shares sum to the basis never refuses an agreement |
| SplitTheorems.VoidHoldsNoMoney | src/services/splits.js:246-259 | In every reachable state a voided plan holds nobody's money, by its shares and by the ledger |
| SplitTheorems.RunOnward | src/services/splits.js:15-19 | From any moment on plans keep their terms, shares are credited and never debited, and a payment once resolved stays resolved |
| SplitTheorems.RetiredTakesNoMoney | src/services/splits.js:379-401 | Once a plan is STALE or VOID it stays so, and no share of it takes another céntimo in any later state |
| SplitTheorems.ReplacingNeverConflicts | src/services/splits.js:86-100 | An agreement that replaces a live plan never fails on the unique index; only one that found no plan can lose to another |
| SplitTheorems.LosingAgreementLeavesNothing | src/services/splits.js:171-182 | A transaction that ended refused or crashed wrote nothing at any of its statements: no split, no share, and the plan it meant to replace kept its status and its money |
| SplitHistory.SplitsAreTraced | src/services/splits.js:56-106 | Every stored split has the three moments of its agreement: the event that read the bill, the event that inserted it, the event that committed it, and its figures are those of the first |
| SplitHistory.CountersTell | src/services/billItems.js:182-184 | Between two moments of a run nothing edited a bill exactly when its edit counter stood still, and nothing paid it exactly when its receipt counter did |
| SplitHistory.PresentTotalUnlessEditedBetween | README.md:2994-3000 | In every run a live plan is of the bill's present total if and only if no edit of the bill committed between that agreement's reading of the bill and its INSERT |
| SplitHistory.SettlesBillUnlessPaidBetween | README.md:2944-2945 | And what its shares still ask for is what the bill still owes, less money that came in past them, if and only if no payment landed in between either |
| SplitHistory.FiguresAgreeIff | README.md:2994-3009 | By the figures alone, when edits cancel out: the plan is of the present total exactly when the total was the same at the reading and at the INSERT, and it settles the bill exactly when the balance was |
| SplitHistory.VoidStrandsNoClaim | README.md:2959-2963 | In every run a payment that is pending against a share of a voided plan was declared after the voiding had committed |
| SplitRaces.SumThenPayThenVoid | README.md:2955-2959 | Without the share locks of the voiding: from any state with an unpaid plan, a run that leaves it VOID with its share paid |
| SplitRaces.UnlockedSumVoidsMoney | README.md:2955-2959 | And such a state is reached from an empty ledger |
| SplitRaces.LookThenVoidThenPay | migrations/020_persistent_bill_splits.sql:243-249 | Without the key lock of the foreign key: a payment whose snapshot saw the plan ACTIVE waits for its share while the plan is voided, and credits it |
| SplitRaces.StaleSnapshotPaysTheVoid | migrations/020_persistent_bill_splits.sql:243-249 | And such a state is reached from an empty ledger |
| SplitRaces.AgreementOnAnOldTotal | src/services/splits.js:56-59 | A run of the code as it is: an edit lands between the reading and the INSERT, and the live plan is of the old total |
| SplitRaces.AgreementOnAnOldBalance | src/services/splits.js:56-59 | A run of the code as it is: a payment lands in between, and the live plan asks for more than the bill still owes |
| SplitRaces.ClaimOnTheVoid | src/services/paymentClaims.js:46-100 | A claim may name a share of a plan that is VOID already |
| SplitPreview.FullIsTheBalance | src/services/splitEngine.js:216-224 | An accepted FULL preview names one participant, who owes the balance |
| SplitPreview.EqualIsEven | src/services/splitEngine.js:225-227 | An accepted EQUAL preview hands out the balance so that nobody owes more than a céntimo above another, the earlier participants taking the odd ones |
| SplitPreview.ItemsIsFair | src/services/splitEngine.js:83-174 | An accepted ITEMS preview asks everyone for their exact share by subtotal, units and heads, within three céntimos a seat |
| SplitPreview.CustomIsAsStated | src/services/splitEngine.js:177-198 | An accepted CUSTOM preview asks everyone for what they stated, and for nothing where they stated nothing |
| SplitPreview.RefusedExactlyFor | src/services/splitEngine.js:63-263 | A preview is refused for the first reason that holds, in terms of the bill, the lines and the claims, and is accepted when none does |
| FiscalShares.DrawnInProportion | src/services/fiscalAllocation.js:137-161 | With no composition each rate, and the service charge, gives its exact share of the payment by what is left in it, within a céntimo |
| FiscalShares.OthersWait | src/services/fiscalAllocation.js:65-93 | With a composition, a bucket the diner had nothing of is drawn on only once every bucket they had something of is empty |
| FiscalShares.DrawnByComposition | src/services/fiscalAllocation.js:156-161 | Where the exact shares by composition fit, each bucket gives its share within a céntimo |
| FiscalShares.GivesItsShareOrAll | src/services/fiscalAllocation.js:65-110 | Whether they fit or not, each bucket the diner had something of gives its share or all it has |
| FiscalShares.NeverMindTheFull | src/services/fiscalAllocation.js:65-117 | Whatever other buckets refuse, two that are not emptied are drawn on in the proportion of the composition, within a céntimo of each a round |
| FiscalShares.NothingHadIsProportion | src/services/fiscalAllocation.js:80-93 | A composition of nothing that is left draws in proportion to what is left |
| FiscalShares.BaseAndTaxInProportion | src/services/fiscalAllocation.js:171-190 | What an invoice takes of a rate is base and tax in the proportion in which they are left, to the nearest céntimo |
| BillOutcomes.AcceptedIsGained | src/routes/bills.js:222-300 | In every reachable state and for every accepting event: an order leaves the lines its table had and its items after them, or opened the bill with exactly its items; an edit changed exactly its line; a payment is in the ledger, on the bill, and closed it exactly on equality; a settlement closed the bill and forgave what was short; POST opened the bill at its own total; a void voided an unpaid bill; and nothing else changed |
| BillOutcomes.GoesOnUnlessWhyNot | src/services/billItems.js:313-356 | With its row locked a handler goes on to commit unless the row itself gives a reason not to, and then that reason is the answer |
| BillOutcomes.PreparedCommits | src/routes/bills.js:287-300 | What is prepared commits |
| BillOutcomes.RefusalsAreTrue | src/routes/bills.js:240-275 | In every reachable state a refusal states what is true of the tables, or of the locked row, as it is given |
| BillOutcomes.MovesUnlessWaiting | src/services/locks.js:87-96 | In every reachable state a handler that is not done moves on, unless its table or its bill is locked or its identifier is taken |
| IdempotentReplies.RetriesAreAnswered | src/services/idempotency.js:54-74 | Over any run: once a request has stored its response, and while nothing takes its row away, every request that finds the row is told the same for the same payload and refused for another; with the ledger index unconditionally, without it while nobody else stores a response |
| IdempotentReplies.RowsGoFor | src/services/idempotency.js:36-40 | A row goes only because its day is over or by an abort while it holds no response |
| IdempotentReplies.RetryAlone | src/services/idempotency.js:36-75 | A request that comes while the row lives is replayed the response, refused for another payload, or told that the first is in flight; nothing changes |
| IdempotentReplies.ClaimAlone | src/services/idempotency.js:36-47 | A request that finds the key free holds it for exactly a day |
| IdempotentReplies.ChargeAlone | src/services/idempotency.js:77-81 | It charges once, for its own payload, stores the response in its row and is told it |
| IdempotentReplies.FailureFreesTheKey | src/services/idempotency.js:98-103 | A charge that failed leaves nothing paid and the key free |
| IdempotentReplies.VanishedRowIsClaimed | README.md:263-271 | A request that conflicted with a row and finds it gone claims the key itself |
| SplitOutcomes.AcceptedIsGained | src/services/payments.js:180-262 | Over any run: a transaction of a stored split that is accepted has added to the tables exactly what it was asked to add, and nothing else changed |
| SplitOutcomes.ConfirmationCreditsExactly | src/services/payments.js:228-262 | Over any run, for an accepted confirmation of a claim that names a share: if the share was of a live split of that bill when the transaction looked and had room when it was locked, it is paid exactly that much more and the payment still names it; otherwise the confirmation may detach, the payment names nobody and no share moved |
| SplitOutcomes.PaymentCreditsExactly | src/services/splits.js:364-410 | Over any run: an accepted payment of a share found its plan live and room in it, and credits it by exactly its amount |
| SplitRefusals.StatementsAnswer | src/services/splits.js:260-410 | In every state of every run a statement is refused only for the reason that goes with it, and for that reason always, waits only for what somebody else has locked, and otherwise goes on |
| FiscalNumbering.PrintedIsPadded | src/services/fiscalNumbering.js:64-67 | A number prints as its prefix and its digits, with zeros up to the width and no further |
| FiscalNumbering.StatementsAnswer | src/services/fiscalNumbering.js:80-207 | A statement waits only for a counter somebody else has, fails only for its reason and always for it, and otherwise goes on |
| FiscalNumbering.IssuedIsNext | src/services/fiscalNumbering.js:80-124 | An issue that commits takes the next number of all and the next of its type |
| FiscalNumbering.EditIsWritten | src/services/fiscalNumbering.js:185-207 | An edit that commits leaves the series it was asked for and the numbers as they were |
| FiscalNumbering.NoTwoPrintAlike | migrations/045_fiscal_own_numbering.sql:104-118 | In any run, frozen or not, no two documents print alike, by control number or by the number of their type |
| RateLimit.PassesIffAmongTheFirst | src/middleware/rateLimit.js:41-66 | A request without a backend error of its own passes if and only if it was among the first of its counter life that the limit allows |
| RateLimit.ErrorsAnswerByPolicy | src/middleware/rateLimit.js:41-66 | One with an error is rejected when failing closed and let through otherwise |
| WebhookReplay.GuardsAnswerInOrder | src/middleware/webhookSignature.js:18-42 | The first guard that does not hold answers; a delivery that passes them all goes on |
| WebhookReplay.AcceptedIffNoneRemembered | src/middleware/webhookSignature.js:44-57 | Over any run: a delivery that passed the guards is accepted if and only if no SET of the same pair took effect within twice the tolerance before |
| Migrate.FilesApplyInOrder | scripts/migrate.js:26-42 | If no file commits itself, what is in effect is the first files of the list, in order, each once |
| Migrate.FinishedMeansAll | scripts/migrate.js:26-46 | A runner that ends well has left every file in the ledger |
| Migrate.AloneItFinishes | scripts/migrate.js:26-46 | Left alone, a new runner ends well |
| BillOutcomes.LocksAreGivenBack | src/connectors/base.js:55-75 | In every state of every run whoever has a table or bill row locked is inside its transaction: nothing stays locked for good |
| SplitRefusals.LocksAreGivenBack | src/connectors/base.js:55-75 | The same of the rows and keys a transaction of a stored split holds |
| FiscalNumbering.LocksAreGivenBack | src/connectors/base.js:55-75 | The same of the counters an issue holds |
| Credentials.IsAsLastTold | src/payments/providerConfigs.js:64-190 | Rotations and changes of key, in any run and however interleaved, lose no row and move no switch: a row is there, proven and on exactly as the last put, deletion or validation of it left it |
| Credentials.SealedByAKeyInForce | src/payments/providerConfigs.js:64-190 | What was put is only ever sealed by a key that was the active one then or later |
| Decimals.ReadDigits | src/services/fiscalNumbering.js:64-67 | Digits read back as the number they were written from |
| FiscalNumbering.PrintedFormsDiffer | src/services/fiscalNumbering.js:64-67 | Different numbers never print alike, within the width and beyond it |
| FiscalNumbering.ControlNumbersAreContiguous | src/services/fiscalNumbering.js:10-25 | Over commits, rollbacks and edits in any order: control numbers are an unbroken run, none past the range its transaction read |
| FiscalNumbering.DocumentNumbersAreContiguous | src/services/fiscalNumbering.js:113-118 | Each document type counts from one without a gap |
| FiscalNumbering.FrozenThroughoutIff | src/services/fiscalNumbering.js:142-183 | Over any run: the series is frozen in every state if and only if every edit commits while its check would still pass and every issue commits in the format and range the series then has |
| FiscalNumbering.EditKeepsIff | src/services/fiscalNumbering.js:160-183 | One edit keeps the series frozen exactly when its check would still pass as it commits |
| FiscalNumbering.IssueKeepsIff | src/services/fiscalNumbering.js:80-124 | One issue keeps it frozen exactly when what it read is in the format and range the series has as it commits |
| FiscalNumbering.ApartStillStands | src/services/fiscalNumbering.js:160-183 | Keeping the reading and writing of edits and of issues apart is enough for that |
| FiscalNumbering.SeriesIsFrozen | src/services/fiscalNumbering.js:142-158 | In such a run every document has the series own format and range, and no two print alike, by control number or by the number of their type |
| FiscalNumbering.IndexesNeverFire | migrations/045_fiscal_own_numbering.sql:114-118 | In such a run neither unique index ever stops a document in the format of the series |
| FiscalNumbering.EditRacesTheFirstIssue | src/routes/account.js:164-170 | A run in which an edit and the first issue both commit, in different formats |
| FiscalNumbering.PreviewIsTheNextNumber | src/dto.js:557-571 | The panel shows the number the next document carries |
| FiscalNumbering.Ledger.TakeCounter | src/services/fiscalNumbering.js:40-54 | The counter value, created at its start if it is the first |
| FiscalNumbering.Ledger.Allocate | src/services/fiscalNumbering.js:80-124 | No series, an exhausted range, or the next pair of numbers with both counters moved on |
| FiscalNumbering.Ledger.WriteSeries | src/services/fiscalNumbering.js:160-207 | Writes exactly what the freeze allows |
| RateLimit.TwiceTheMaximum | src/middleware/rateLimit.js:41-63 | Failing closed, at most twice the maximum pass in any half-open window, for every delay of EXPIRE and every error |
| RateLimit.AnsweredLeavesAnExpiry | src/middleware/rateLimit.js:42-47 | A request answered without an error leaves the counter to expire within a window |
| RateLimit.WaitingIsEnough | src/middleware/rateLimit.js:53-56 | With no EXPIRE in flight nobody puts off the end of a window: waiting the Retry-After is being counted afresh |
| RateLimit.LostExpiryHeals | src/middleware/rateLimit.js:42-47 | A key that lost its expiry is given one by the next request |
| RateLimit.SixPerRecipientAnHour | src/routes/onboarding.js:44-69 | However many addresses, at most six registrations an hour reach one recipient |
| RateLimit.Limiter.IncrAndTtl | src/middleware/rateLimit.js:45-47 | The count after one more, and whether the key lacks an expiry |
| RateLimit.Limiter.Handle | src/middleware/rateLimit.js:41-63 | The middleware up to its EXPIRE or its answer, for every outcome of the command |
| RateLimit.Limiter.SetExpire | src/middleware/rateLimit.js:47-63 | The EXPIRE and the answer after it |
| WebhookReplay.ToleranceIsAnInterval | src/middleware/webhookSignature.js:28-33 | The whole-second check is an interval of milliseconds, one second longer than twice the tolerance |
| WebhookReplay.OnceOutsideTheEdge | src/middleware/webhookSignature.js:44-54 | Accepted outside the first second and latency of the tolerance, a signed pair is accepted once |
| WebhookReplay.NeverThrice | src/middleware/webhookSignature.js:44-54 | In any run it is accepted at most twice |
| WebhookReplay.TwiceInTheEdge | src/middleware/webhookSignature.js:28-54 | From any instant of that edge, the latency included, there is a run that accepts the pair again as its key expires |
| WebhookReplay.AgainIffInTheEdge | src/middleware/webhookSignature.js:28-54 | First accepted at an instant, a signed pair can be accepted again if and only if that instant is in the edge |
| WebhookReplay.Middleware.Verify | src/middleware/webhookSignature.js:18-42 | The guards in order |
| WebhookReplay.Middleware.Remember | src/middleware/webhookSignature.js:44-57 | Stores the signature if it is not there; any error is a rejection |
| Migrate.LedgerIsAPrefix | scripts/migrate.js:23-38 | With or without the lock, whoever crashes: the ledger is the first so many files |
| Migrate.ExactlyOnce | scripts/migrate.js:31-36 | If no file commits itself, its SQL is in effect once if it is in the ledger and not at all if it is not |
| Migrate.NoKeyIsTaken | scripts/migrate.js:17-24 | While no runner loses the session of its advisory lock, none fails on the ledger key |
| Migrate.DroppedLockTakesAKey | scripts/migrate.js:22-24 | When one loses it and goes on, two runners apply the same file and the later fails on the ledger key |
| Migrate.SelfCommitRunsTwice | scripts/migrate.js:31-36 | A file that commits itself can run twice |
| Migrate.AtMostOnceIffNoneCommitsItself | scripts/migrate.js:31-36 | Every file runs at most once in every run exactly when none commits itself |
| Migrate.Database.RunAll | scripts/migrate.js:23-38 | Undisturbed: every missing file in order, until one fails; the ledger stays a prefix |
| Credentials.RunKeeps | src/payments/providerConfigs.js:64-190 | Interleaved row by row, puts and rotations keeping apart: what is stored is what was put last, a rail that is on was proven with it, and the column is the version of the blob |
| Credentials.HoldsTheLastIffNothingUndone | src/payments/providerConfigs.js:163-190 | Over any run: a row holds the credentials put last in every state if and only if no rotation writes it back after credentials other than those its SELECT read were the last to be put |
| Credentials.OnIsProvenIffNothingUnproven | src/payments/providerConfigs.js:56-63 | Over any run: a rail is on only with what it was proven with, in every state, if and only if no rotation writes its row back to credentials other than those it was switched on with |
| Credentials.RotationUndoesAPut | src/payments/providerConfigs.js:165-184 | A run in which a rotation restores old credentials on a rail switched on with new ones |
| Credentials.Vault.RotateAgain | src/payments/providerConfigs.js:155-190 | Called again and again it leaves no stale row exactly when every stale row can still be opened and the calls were enough |
| Credentials.SomeCallsAreEnough | src/payments/providerConfigs.js:163-172 | Some number of calls is enough exactly when the batch is not empty or nothing was stale |
| Credentials.Vault.PutCredentials | src/payments/providerConfigs.js:64-95 | New credentials, switched off and unproven |
| Credentials.Vault.MarkAsValidated | src/payments/providerConfigs.js:124-134 | Proven, and on or off as asked; unknown rows are reported |
| Credentials.Vault.LoadCredentials | src/payments/providerConfigs.js:144-154 | The credentials put last, or an error when their key is not in the ring |
| Credentials.Vault.Rotate | src/payments/providerConfigs.js:163-190 | Every row keeps its credentials and switches; stale rows drop by exactly what was resealed; `remaining` is zero |
| Resilient.SplitAnywhere | src/connectors/resilient.js:28-36 | Where a body is cut into chunks does not matter |
| Resilient.Collector.Push | src/connectors/resilient.js:45-55 | Keeps a chunk exactly when the total stays within the ceiling |
| Resilient.ReadCapped | src/connectors/resilient.js:69-96 | The whole body exactly when neither what is declared nor what arrives is over the ceiling, holding at most the ceiling; a response without a stream is held whole, whatever its size |
| Resilient.WithRetries | src/connectors/resilient.js:98-112 | Stops at the first success or fatal error or the last attempt, and waits within a quarter above base times two to the attempts less one |
| Bcv.PrintThenParse | src/connectors/bcv.js:24-31 | Printing a figure as a Venezuelan does and reading it returns it |
| Bcv.ExtractRate | src/connectors/bcv.js:40-47 | The nearest figure after the first block that has one in reach, or nothing |
| Bcv.TakesTheNextBlocksFigureIff | src/connectors/bcv.js:33-42 | The figure taken for a block lies past the next block if and only if the block has none of its own and the next figure is within the lookahead |
| Bcv.ItIsTheNextBlocks | src/connectors/bcv.js:33-42 | And then it is the nearest figure of that next block, read as the rate of the wrong currency |
| Bcv.DollarAtTheEurosRate | src/connectors/bcv.js:33-42 | A page on which the dollar is quoted at the figure of the euro |
| Bcv.ParseBcvPage | src/connectors/bcv.js:53-71 | Each currency the page has a rate for; a failure when it has none |

## Left out

- Express wiring, request schemas, roles, rate plans, audit rows and responses other than the refusals named here.
- Refunds: the ledger's refund states exist, but no statement modelled here performs one, so payments only come in.
- The C2P and webhook rails' own steps before they settle; they settle through the same `applyToBill` and `transitionPayment` that are modelled.
- `assertMayOpenBills` and other refusals that read nothing modelled here: they are crashes of the handler before it writes.
- Deactivating a table while a handler waits for it: the set of active tables is fixed in `BillState`.
- Tips, tendered amounts, the dollar reference and other figures that are shown and not settled.
- 64-bit range checks on amounts; the source turns an overflow into a refused request.
- HMAC, AES-GCM, SHA-256 and JSON: abstract, with the laws listed above.
- UTF-8 decoding in `readCappedText`: one function of the bytes, applied once at the end, so what is proved of the bytes holds of the text.
- `Array.prototype.sort` in `allocate` and `stateFromLines`: an insertion sort here; the orders are total, so any sort gives the same result.
- `src/connectors/bcv.js`: binary floating point is replaced by exact decimals, and `\s` by the four ASCII spaces.
- FiscalAllocation.IvaWithinItsPosition: a bound that grows with the position of the invoice, as `DriftHasNoCeiling` shows it must; not the exact set of payment sequences for which one céntimo suffices.
- Idempotency.OnePaymentPerClaim: for runs in order; outside them `ChargesUnderItsClaimIff` and `AbortForgetsAPaymentIff` say exactly what a single charge and a single abort meet.
- Credentials.RunKeeps: for puts and rotations that keep apart; the exact conditions over any run are `HoldsTheLastIffNothingUndone` and `OnIsProvenIffNothingUnproven`, row by row.
- The race in which `markValidated` proves credentials that were replaced after the adapter loaded them: no caller in the repository does this yet.
- RateLimit.TwiceTheMaximum: a request is timed by its INCR; requests that wait for their EXPIRE are let through later than they are counted.
- Settling or voiding a bill while a split is live: in `SplitState` a bill closes only by being paid; `BillState` has the other ways.
- The lines an ITEMS split reads are whatever the request's transaction found: `SplitState` does not tie their subtotals to the bill's total, and the engine divides the balance over them.
- The foreign keys of `bill_split_items`: an ITEMS agreement whose line was deleted in between fails on one, which is a crash here; nobody takes the rows they lock FOR UPDATE in `SplitState`.
- `nameShare`, `getSplit` and `getActiveSplit`: names and reads.
- The statement timeout, which is a crash here.
- SplitHistory.SettlesBillUnlessPaidBetween: counts money that came in past the shares since the INSERT as such; the source lets cash settle a bill outside its split.
