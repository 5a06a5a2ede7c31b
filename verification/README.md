# Verification of the retail back office

A Dafny model of the money and stock rules of the system: supplier invoices matched to receipts,
their settlement and postings, the double-entry ledger, inter-store transfers and write-offs,
attendance and payroll, sale returns, the checkout protocol, the rate limiter, the log exporter, and the data
migrations that rewrite these tables. The properties are proved for every input and every run.

Each module follows one component. A step of the system (one committed transaction) is a function on
the rows of its tables; the class beside it has the rows as fields and the service's loops as
methods, each proved to do what the step says. Runs are lists of steps. Database constraints, row
locks and revoked privileges appear as the conditions under which a step is taken. Every lemma turns
automatic induction off, so its proof is the one that is written.

| module | about |
|---|---|
| Sums, Options, Rounding, JournalEntries, StoreAccess | totals over rows, nullable columns, decimal rounding, building one journal entry, who may act on a store |
| FifoMatching, ReceiptMatching | receipt lots and the invoices matched to them |
| ClearingAccount, ClearingPrices | the Purchase Clearing account, purchase returns, its reconciliation at every price |
| InventoryValuation | stock at moving average cost beside the Inventory account |
| InvoicePosting | invoice totals, the amounts a posting takes from its matches, its journal entry |
| Settlement | payments, credit notes, reversals, voids, the control account, statements |
| Ledger | the deferred balance trigger, reversals, closed periods, trial balance |
| PaymentMigration, TransferMigrations, PermissionUpserts | data migrations, there and back |
| RateLimiter, Checkout, LogTail | the request limiter, exactly-once checkout, the log exporter |
| Transfers | shipment, receipt, discrepancies, write-offs, the in-transit account |
| Attendance, EffectiveDates, Payroll, PayrollCoverage, PayrollRuns | shifts, dated pay rates, payroll periods, which worked time they pay |
| SaleReturns | refunds of partial returns |

Where the code does not do what its own comments say, the model follows the code:

- `ap/models.py` and `ap/service.py` present persisted matches as safe under voids. The FIFO walk skips
  by the invoiced quantity alone, so after an older invoice is voided the next posting is matched to
  units already taken. FifoMatching and ReceiptMatching prove exactly when it is safe, and one run
  where it is not.
- `accounting/service.py:498-507` says clearing plus variance is exactly the subtotal. It is not when a
  line's value has digits below the cent; InvoicePosting proves exactly when the entry balances.
- `ap/models.py:213-217` says the recorded variances add up to the posted one; `ap/service.py:22-27`
  says they need not, and they do not.
- `docs/M10_DESIGN.md` computes overtime from the period's hours; `payroll/calculation.py` applies the
  threshold to each pay rate's stretch of the period.
- `payroll/service.py:218-222` says approval is refused when attendance was created since the
  calculation; a row inserted by a correction has no update time and is not seen.
- The M7 and M25 downgrades refuse to lose data, yet drop receipt matches and approval policy rules
  without a guard.
- `ap/service.py:2367-2374` reconciles Purchase Clearing with the FIFO price of what is not invoiced. A
  purchase return debits the account and the report does not look at it; receipts are rounded line by
  line and the report item by item. ClearingAccount bounds the discrepancy over every run, and
  ClearingPrices proves exactly when it is nothing.
- `payroll_periods` are unique by store and exact range only, so two of a store may share dates and pay a
  shift twice; a shift at a store without an assignment is paid by none. A period pays the records as they
  stood when it was calculated, and nothing keeps them from being corrected afterwards: a correction can
  move paid hours into another period, and a late clock-out is paid by none. PayrollCoverage proves which
  lists of periods pay every instant once on one list of records, PayrollRuns the same for whole runs.
- `accounting/service.py:1664-1675` expects the Inventory account and the stock to match exactly, and
  section 11 of `docs/M4_ACCOUNTING_CORE.md` within a bound per receipt that does not compound. The rounding
  of an average counts once for every unit in stock, and every movement at a cost with more decimals adds
  its own; negative stock received back to zero strands its value, and a credit note for returned goods
  counts twice. InventoryValuation proves which receipts keep the two matching, whatever moves in between.
- A reload of the till's page drops the key of an attempt whose sale may be there already.
- `accounting/service.py:1568-1571` means to keep every account in a filtered trial balance; an account
  whose entries all lie outside the filter is dropped. The totals agree all the same.
- `transfers/service.py:380-397` lets a shipment name a line twice: both quantities leave the stock, the
  last is on record. The in-transit account is proved up to exactly that value.
- `sales/service.py:546-573` rounds each partial refund on its own; SaleReturns proves for which items
  every split still refunds the charge.

## Model

| member | source | states |
|---|---|---|
| FifoMatching.FifoMatchSlices | backend/app/modules/ap/service.py:560-613 | answers exactly when the receipts cover the requested range (or nothing is asked for), with the slices of that range in each lot, and with the data-inconsistency error otherwise |
| FifoMatching.SlicesInReceiptOrder | backend/app/modules/ap/service.py:592-605 | slices are positive, at their lot's own cost, oldest lot first, and draw from no lot twice |
| FifoMatching.SlicesFromLot | backend/app/modules/ap/service.py:592-605 | each lot gives exactly its part of the range |
| FifoMatching.SlicesCoverTheLine | backend/app/modules/ap/service.py:575-578 | the slices of a covered range add up to its quantity |
| FifoMatching.SafeIffOldestFirst | backend/app/modules/ap/models.py:177-193 | every next posting the three-way match admits stays within every lot's receipt if and only if the live matches are the oldest units received |
| FifoMatching.VoidKeepsOldestFirst | backend/app/modules/ap/service.py:968-971 | giving slices back keeps the oldest-first shape if and only if they are the youngest units invoiced |
| FifoMatching.LeftoverWorthIffOldestFirst | backend/app/modules/ap/service.py:616-637 | of one item: receipts less used units are worth the FIFO price of the un-invoiced units, for all lot costs, if and only if the used units are the oldest |
| ReceiptMatching.PostEffect | backend/app/modules/ap/service.py:749-783 | one posting, by item and lot: the invoiced quantity moves by the requested quantity, each lot by its part of that range, and earlier match rows stay as they were |
| ReceiptMatching.VoidEffect | backend/app/modules/ap/service.py:911-971 | a void gives each lot exactly what the invoice's own persisted rows hold of it, and touches no match row and no other invoice |
| ReceiptMatching.ReceiveDoneIff | backend/app/modules/purchasing/service.py:467-680 | which receipts are taken, as one more lot |
| ReceiptMatching.CreateDoneIff | backend/app/modules/ap/service.py:296-328 | which drafts are stored |
| ReceiptMatching.PostDoneIff | backend/app/modules/ap/service.py:733-747 | a draft is posted if and only if no item would be invoiced beyond what was received of it, all of that included |
| ReceiptMatching.VoidDoneIff | backend/app/modules/ap/service.py:895-999 | which invoices are voided, and what a posted one gives back |
| ReceiptMatching.RunConsistent | backend/app/modules/ap/models.py:177-217 | over every interleaving of receipts, drafts, postings and voids: quantity_invoiced equals the live matches, lies between zero and the quantity received, and each posted line is matched for exactly its quantity |
| ReceiptMatching.OpenedConsistent | backend/alembic/versions/36173e29a9f0_m6_accounts_payable_purchase_invoices_.py:165-178 | the invariant holds of freshly opened order items |
| ReceiptMatching.OpenedOldestFirst | backend/app/modules/ap/service.py:560-613 | and is oldest-first |
| ReceiptMatching.PostingIsCovered | backend/app/modules/ap/service.py:606-612 | no line of an admitted posting can meet receipts that do not cover it |
| ReceiptMatching.StepKeepsOldestFirstIff | backend/app/modules/ap/service.py:874-971 | from an oldest-first book a step stays oldest-first if and only if it voids nothing but the youngest units |
| ReceiptMatching.VoidKeepsOldestFirstIff | backend/app/modules/ap/service.py:968-971 | the same for one void: if and only if the invoice holds the youngest units of every item |
| ReceiptMatching.DisciplinedRunRespectsLots | backend/app/modules/ap/models.py:177-193 | over every run whose voids are all of the youngest units, no lot is matched beyond its receipt |
| ReceiptMatching.NextInvoiceSafeIffOldestFirst | backend/app/modules/ap/service.py:560-613 | on any reachable book within its lots, the next invoice stays within them, whatever it is for, if and only if the live matches are the oldest units |
| ReceiptMatching.VoidingOlderOverMatchesALot | backend/app/modules/ap/service.py:593-605 | a nine-step run from an empty book after which a receipt of ten units is matched for twenty |
| ReceiptMatching.MatchBook.ReceiveGoods | backend/app/modules/purchasing/service.py:467-680 | a receipt appends one lot |
| ReceiptMatching.MatchBook.CreateInvoice | backend/app/modules/ap/service.py:296-328 | a draft is refused or appended as the model's step says |
| ReceiptMatching.MatchBook.RequestedByItem | backend/app/modules/ap/service.py:726-731 | per item, the sum of the lines that name it |
| ReceiptMatching.MatchBook.Admitted | backend/app/modules/ap/service.py:733-747 | accepts exactly when no item would be invoiced beyond what was received of it |
| ReceiptMatching.MatchBook.MatchLines | backend/app/modules/ap/service.py:749-779 | the one pass over the lines, with its per-item consumed quantities, leaves the matches of the specification |
| ReceiptMatching.MatchBook.CountInvoiced | backend/app/modules/ap/service.py:781-783 | the invoiced quantities of the specification |
| ReceiptMatching.MatchBook.PostInvoice | backend/app/modules/ap/service.py:640-814 | outcome and whole new state, errors and the idempotent repeat included; the invariant is kept |
| ReceiptMatching.MatchBook.VoidInvoice | backend/app/modules/ap/service.py:874-999 | outcome and whole new state; the invariant is kept |
| InventoryValuation.RunDrifts | backend/app/modules/inventory/service.py:48-77 | over every run the difference of valuation and Inventory account is the sum of its steps' drifts, each read off its inputs |
| InventoryValuation.AlwaysMatchesIff | backend/app/modules/accounting/service.py:1664-1675 | over every run from products without stock, whatever receipts cost: the reconciliation matches at every point, and would after any movements from there, if and only if each accepted receipt fits the stock it meets and no credit note is for returned goods |
| InventoryValuation.EveryMovementMatchesIff | backend/app/modules/accounting/service.py:1671-1675 | every movement from a state leaves it matching if and only if its costs have at most three decimals and the valuation is the balance to the last digit |
| InventoryValuation.IssueDoneIff | backend/app/modules/inventory/service.py:135-188 | goods go out if and only if they are there, to the last unit, or the product may go negative; at the cost they stand at |
| InventoryValuation.FoundDoneIff | backend/app/modules/inventory/service.py:135-188 | the same for stock found |
| InventoryValuation.TakeInDoneIff | backend/app/modules/inventory/service.py:48-77 | which goods are taken in, at which average, and which error the others get |
| InventoryValuation.StepKeepsMatchIff | backend/app/modules/inventory/service.py:48-77 | from such a state one step leads to another if and only if it fits: for a receipt, a condition on its quantity and cost and on the stock it meets |
| InventoryValuation.WholeReceiptFitsIff | backend/app/modules/inventory/service.py:68-77 | for a receipt at a three-decimal cost: the pooled value divides evenly by the new quantity, or the cost is the one that stood when nothing is left in stock |
| InventoryValuation.RoundDivIs | backend/app/modules/inventory/service.py:76-77 | exactly which quotients round to a given cost |
| InventoryValuation.FindsCompound | backend/app/modules/accounting/service.py:806-841 | what rounding drops of one movement, n movements drop n times |
| InventoryValuation.DriftBounded | backend/app/modules/inventory/service.py:60-66 | without credit notes and receipts that bring negative stock to zero: half a ledger unit per amount and half a millionth per unit in stock at each receipt |
| InventoryValuation.RoundDivNear | backend/app/modules/inventory/service.py:76-77 | the rounded average times the quantity is off by at most half the quantity |
| InventoryValuation.AverageDrifts | backend/app/modules/inventory/service.py:76-77 | seven units at 10 and five at 20: four millionths apart |
| InventoryValuation.ZeroStockStrandsValue | backend/app/modules/inventory/service.py:68-74 | negative stock received back to zero: nothing in stock and ten on the account |
| InventoryValuation.CreditNoteCountsTwice | backend/app/modules/accounting/service.py:706-741 | a credit note for returned goods takes its amount off the account with no movement |
| InventoryValuation.StoreStock.RecordMovement | backend/app/modules/inventory/service.py:135-188 | outcome and new state of a movement |
| InventoryValuation.StoreStock.TakeInGoods | backend/app/modules/purchasing/service.py:608-629 | outcome and whole new state of goods taken in at a cost |
| InventoryValuation.StoreStock.IssueGoods | backend/app/modules/sales/service.py:384-395 | outcome and whole new state of goods going out |
| InventoryValuation.StoreStock.Reconcile | backend/app/modules/accounting/service.py:1664-1722 | the discrepancy as reported |
| ClearingAccount.RunAccountNear | backend/app/modules/accounting/service.py:419-495 | over every interleaving of receipts, drafts, postings, voids and purchase returns: Purchase Clearing holds receipts less live matches less goods sent back, within half a ledger unit per rounded amount |
| ClearingAccount.RunInvariant | backend/app/modules/purchasing/service.py:770-820 | over every run: match rows carry their lots' costs, and no product of an order is sent back beyond what the order received of it |
| ClearingAccount.OpenedNear | backend/app/modules/ap/service.py:2367-2379 | the account and the invariant of freshly opened orders |
| ClearingAccount.BookStepEffect | backend/app/modules/accounting/service.py:419-455 | what each step puts on the account: a receipt its value, a posting what its rows cost, a void the same again, each rounded once; a draft nothing |
| ClearingAccount.ReturnDoneIff | backend/app/modules/purchasing/service.py:716-904 | goods go back if and only if each quantity is positive, no product goes back beyond what its order received of it and still has, and all are in stock; the account gives up each line's rounded value |
| ClearingAccount.ReceivedOfOneMore | backend/app/modules/purchasing/service.py:770-820 | what was received of a product of an order counts all its items and no other |
| ClearingAccount.OutstandingIs | backend/app/modules/ap/service.py:616-637 | the report prices an item at the worth of its youngest units, rounded half up to six decimals |
| ClearingAccount.DiscrepancyNear | backend/app/modules/ap/service.py:2367-2405 | the reported discrepancy is the worth of the oldest units less the live matches less the goods sent back, within half a ledger unit per amount rounded into the account or the report |
| ClearingAccount.RoundingAlone | backend/app/modules/accounting/service.py:438-442 | two receipts, nothing invoiced or sent back, and a discrepancy of one ledger unit |
| ClearingAccount.Reconcile | backend/app/modules/ap/service.py:2367-2405 | the discrepancy as reported, item by item, and its bound |
| ClearingAccount.ReturnDesk.CreateReturn | backend/app/modules/purchasing/service.py:716-904 | outcome and whole new state of a purchase return; invariant and account bound are kept |
| ClearingPrices.DiscrepancyExact | backend/app/modules/ap/service.py:2367-2405 | over every run at costs of at most three decimals nothing is rounded and the discrepancy is exact |
| ClearingPrices.RepricedRuns | backend/app/modules/ap/service.py:560-613 | costs decide no outcome: the same operations at other costs lead to the same quantities, matches and statuses |
| ClearingPrices.OffByReturnsIff | backend/app/modules/ap/service.py:2367-2405 | over every run: at all the exact prices its goods could have had, the reconciliation is off by the value sent back and nothing else if and only if live matches are the oldest units of every item |
| ClearingPrices.ReconcilesIff | backend/app/modules/ap/service.py:2367-2374 | and it reports no discrepancy at any of those prices if and only if, besides, nothing was ever sent back |
| Rounding.MoneyShift | backend/app/modules/ap/service.py:91-96 | rounding commutes with adding whole cents except for a tie whose sign changes |
| InvoicePosting.LineCheckIff | backend/app/modules/ap/models.py:146-149 | the CHECK accepts the service's line total except on half a cent of gross with a negative net |
| InvoicePosting.LineCheckCanFail | backend/app/modules/ap/service.py:424-425 | a line whose stored and checked totals differ by a cent |
| InvoicePosting.TotalsAgree | backend/alembic/versions/36173e29a9f0_m6_accounts_payable_purchase_invoices_.py:242-246 | subtotal less discounts plus taxes is the sum of the line totals |
| InvoicePosting.GrandTotalNearExact | backend/app/modules/ap/service.py:415-446 | the grand total is within half a cent per line of the unrounded total |
| InvoicePosting.CreateDraft | backend/app/modules/ap/service.py:415-446 | a draft is stored exactly when it has lines, positive quantities, passing line checks and a non-negative total; the stored totals |
| InvoicePosting.StoredTotals | backend/app/modules/ap/service.py:415-446 | each stored total is its own column's sum |
| InvoicePosting.RowCarries | backend/app/modules/ap/service.py:752-779 | each match row carries its slice's quantity and cost, its line's price, and the difference rounded to the cent |
| InvoicePosting.EntryNets | backend/app/modules/accounting/service.py:510-544 | what the entry moves on each account |
| InvoicePosting.PostMatches | backend/app/modules/ap/service.py:752-786 | rows and the two ledger amounts of a posting, each rounded once from the raw sum |
| InvoicePosting.AmountsFromRows | backend/app/modules/ap/service.py:817-846 | a void recovers the posted amounts from the persisted rows |
| InvoicePosting.RawAmountsAddUp | backend/app/modules/accounting/service.py:498-507 | before rounding, clearing and variance do add up to the invoiced value |
| InvoicePosting.EntryBalancesIff | backend/app/modules/accounting/service.py:510-544 | each journal line has one positive side whatever the variance's sign, and the entry or its mirror balances exactly when its five amounts do |
| InvoicePosting.VoidMirrorsPosting | backend/app/modules/accounting/service.py:599-657 | posting and void together leave nothing on any account |
| InvoicePosting.PostingBalancesIff | backend/app/modules/accounting/service.py:498-507 | the posted entry balances if and only if the raw amounts round back, a condition on cost, variance and the invoice's sub-cent remainder |
| InvoicePosting.WholeCentPostingBalancesIff | backend/app/modules/accounting/service.py:498-507 | when every line is worth whole cents the posted entry balances if and only if the cost is not on half a ledger unit of an invoice at or above cost |
| InvoicePosting.SomeReceiptsBalanceIff | backend/app/modules/ap/service.py:785-786 | some receipts let an invoice's entry balance if and only if its subtotals leave out between -1000 and 999 billionths of its value: a condition on the invoice alone |
| InvoicePosting.SubCentValueNeverBalances | backend/app/modules/ap/service.py:785-786 | an invoice whose subtotals leave out more than one ledger unit of its value posts no balanced entry, whichever receipts it is matched with |
| InvoicePosting.AnInvoiceThatCannotPost | backend/app/modules/accounting/service.py:498-507 | 0.333 units at 1.10 passes every draft check and can never be posted, whatever receipts it is matched with |
| InvoicePosting.RecordedVarianceIff | backend/app/modules/ap/models.py:213-217 | the recorded variances add up to the posted one if and only if what the rows drop is under half a ledger unit in all, or half of one that the total gap rounds away |
| InvoicePosting.OneMatchRecordedIff | backend/app/modules/ap/models.py:213-217 | for an invoice that one receipt covers: if and only if quantity times the difference of price and cost lies within half a ledger unit of whole cents |
| InvoicePosting.WholeCentGapsRecordedExactly | backend/app/modules/ap/models.py:213-217 | so whenever every match differs from its receipt by whole cents |
| InvoicePosting.RecordedVarianceNearPosted | backend/app/modules/ap/service.py:22-27 | and within half a cent per row always |
| InvoicePosting.RecordedVarianceCanDiffer | backend/app/modules/ap/models.py:213-217 | one cent recorded, half a cent posted |
| Settlement.AllocateShare | backend/app/modules/ap/service.py:1219-1229 | each invoice moves by its own share and no other row changes |
| Settlement.RunConsistent | backend/app/modules/ap/models.py:18-31 | over every run of drafts, postings, voids, payments, credit notes and reversals: both settled amounts are the sums of un-reversed allocations, within the total; the status says how far; documents are fully allocated to distinct invoices of their own store and supplier; keys are unique; the control account agrees |
| Settlement.EmptyConsistent | backend/app/modules/ap/models.py:18-31 | the invariant holds of an empty database |
| Settlement.OwedTelescopes | backend/app/modules/ap/service.py:2106-2112 | what is owed, invoice by invoice, is what was billed less what was settled, document by document, for any stores and suppliers |
| Settlement.ControlAccountReconciles | backend/app/modules/ap/service.py:2329-2356 | the Accounts Payable balance equals the subledger for any selection of stores |
| Settlement.VoidableIffUnsettled | backend/app/modules/ap/service.py:902-909 | an accounting invoice can be voided exactly when no un-reversed document settles any of it |
| Settlement.ReverseUndoesSettle | backend/app/modules/ap/service.py:1298-1303 | a reversal right after a payment or credit note restores every invoice row, status included, and the control account |
| Settlement.RetryAtAnyTime | backend/app/modules/ap/service.py:1025-1065 | however much later and whatever happened since, a repeated request gets its own document and changes nothing; the key on a different request is refused |
| Settlement.SettleDoneIff | backend/app/modules/ap/service.py:1068-1250 | a payment or credit note is entered if and only if it is well formed and fully allocated, key and number are free, the caller may act, and each invoice it names is posted or partially paid, of its store and supplier, and owes at least its share |
| Settlement.WholeBalancePaid | backend/app/modules/ap/service.py:1187-1192 | whatever an invoice still owes can be paid at once, which leaves it PAID |
| Settlement.SettleRepeated | backend/app/modules/ap/service.py:1025-1065 | a used key is answered with its document when the request is the same, and refused when not |
| Settlement.RefusedAsMalformed | backend/app/modules/ap/service.py:1103-1126 | which of its own faults a request is refused for |
| Settlement.RefusedForInvoice | backend/app/modules/ap/service.py:1169-1193 | which invoice a request is refused for, and why |
| Settlement.RefusedOtherwise | backend/app/modules/ap/service.py:1128-1167 | the remaining refusals |
| Settlement.SettleRecords | backend/app/modules/ap/service.py:1195-1250 | an accepted request adds its document and one posting of its amount |
| Settlement.NamedInvoiceSettled | backend/app/modules/ap/service.py:1219-1229 | each invoice named is settled by its own allocation, and its status says how far |
| Settlement.OthersUnsettled | backend/app/modules/ap/service.py:1219-1229 | no other invoice changes |
| Settlement.PostDoneIff | backend/app/modules/ap/service.py:669-677 | which invoices are posted, and what then is owed |
| Settlement.VoidDoneIff | backend/app/modules/ap/service.py:895-999 | which invoices are voided; what was posted is posted back |
| Settlement.ReverseDoneIff | backend/app/modules/ap/service.py:1280-1330 | which documents are reversed |
| Settlement.ReverseEffect | backend/app/modules/ap/service.py:1332-1402 | each invoice a reversed document had settled has its amount back, and one posting takes the whole back |
| Settlement.RunPostsEachSourceOnce | backend/app/modules/accounting/models.py:224-243 | no run ever posts two entries for one source |
| Settlement.EmptySourcesUnique | backend/app/modules/accounting/models.py:224-243 | nor has the empty database |
| Settlement.Statement | backend/app/modules/ap/service.py:2210-2241 | opening balance, running lines and closing balance of a dated list of events |
| Settlement.StatementClosesAtOwed | backend/app/modules/ap/service.py:2106-2118 | the unfiltered statement closes at the summary's total owed, for any stores and suppliers and any order of events |
| Settlement.StatementsChain | backend/app/modules/ap/service.py:2210-2218 | a statement opens where the statement of the days before it closed |
| Settlement.StatementOpensAndCloses | backend/app/modules/ap/service.py:2159-2218 | for any stores and suppliers the statement opens at what was billed before its first day less what was settled and not reversed before it, and closes at the same of the day after its last |
| Settlement.LinesRun | backend/app/modules/ap/service.py:2210-2241 | one line for each event of the days asked for, in order, with the opening balance and the amounts up to it |
| Settlement.SettlementBook.PostInvoice | backend/app/modules/ap/service.py:669-677 | status, posting and outcome of a posting |
| Settlement.SettlementBook.VoidInvoice | backend/app/modules/ap/service.py:895-999 | status, mirror posting and outcome of a void |
| Settlement.SettlementBook.CheckRequest | backend/app/modules/ap/service.py:1103-1126 | the static checks, in the service's order |
| Settlement.SettlementBook.CheckInvoices | backend/app/modules/ap/service.py:1169-1193 | the first allocation its invoice cannot take, and why |
| Settlement.SettlementBook.SettleDocument | backend/app/modules/ap/service.py:1068-1250 | whole new state and outcome of a payment |
| Settlement.SettlementBook.ReverseDocument | backend/app/modules/ap/service.py:1280-1402 | whole new state and outcome of a reversal |
| Settlement.SettlementBook.Reconcile | backend/app/modules/ap/service.py:2329-2356 | both sides of the reconciliation, equal |
| Ledger.TriggerIffWholeLedger | backend/alembic/versions/8df037a45976_m4_accounting_core_chart_of_accounts_.py:221-271 | on a balanced ledger the per-row trigger accepts a batch exactly when the whole resulting ledger is balanced |
| Ledger.InsertOrderIrrelevant | backend/alembic/versions/8df037a45976_m4_accounting_core_chart_of_accounts_.py:255-271 | the order and grouping of the inserted rows do not matter |
| Ledger.CheckEntryBalance | backend/alembic/versions/8df037a45976_m4_accounting_core_chart_of_accounts_.py:221-254 | one firing of the trigger: lines present, debits equal credits, total not zero |
| Ledger.DeferredChecks | backend/alembic/versions/8df037a45976_m4_accounting_core_chart_of_accounts_.py:255-271 | all firings at commit |
| Ledger.CommitsIff | backend/alembic/versions/8df037a45976_m4_accounting_core_chart_of_accounts_.py:221-271 | a batch is committed, all of it, if and only if each line has one positive side and the whole ledger is balanced with it |
| Ledger.EveryCommitBalanced | backend/app/modules/accounting/models.py:26-29 | every committed state of every run of batches is balanced |
| Ledger.FilteredTotalsAgree | backend/app/modules/accounting/service.py:1560-1581 | for any filter that selects whole entries, debits equal credits |
| Ledger.TrialBalance | backend/app/modules/accounting/service.py:1508-1581 | which accounts are listed (never posted to, or with a line in a selected entry) and the totals of their selected lines |
| Ledger.TrialBalanceBalances | backend/scripts/integrity_snapshot.py:107-116 | the columns of a trial balance add up to each other and to the selected lines, though it leaves accounts out |
| Ledger.PostedAccountDropped | backend/app/modules/accounting/service.py:1568-1571 | a filter on another store drops an account that was posted to |
| Ledger.ImbalanceCount | backend/scripts/integrity_snapshot.py:122-127 | zero exactly when every entry balances |
| Ledger.NoImbalanceTotalsAgree | backend/scripts/integrity_snapshot.py:116-127 | no imbalanced entry forces equal ledger totals |
| Ledger.EqualTotalsProveLittle | backend/scripts/integrity_snapshot.py:116-127 | the converse fails |
| Ledger.ReversalAccepted | backend/app/modules/accounting/service.py:1334-1345 | a reversal never meets the balance trigger |
| Ledger.RunSound | backend/app/modules/accounting/models.py:211-243 | over every run: balanced, no entry without lines, each source posted once, each entry reversed at most once and to nothing on every account, closed periods disjoint |
| Ledger.ClosedPeriodFrozen | backend/app/modules/accounting/service.py:129-149 | what any report says about entries inside a closed period never changes again |
| Ledger.PostDoneIff | backend/app/modules/accounting/service.py:213-270 | a posting is accepted if and only if it has lines, each with one positive side, equal totals, known accounts, an open period and a source not yet posted |
| Ledger.PostEffect | backend/app/modules/accounting/service.py:241-270 | it adds one entry and its lines, account by account and side by side; each account's net moves by the debits less the credits asked for on it |
| Ledger.PostRefusedFor | backend/app/modules/accounting/service.py:213-270 | which error a refused posting gets |
| Ledger.PostingReported | backend/app/modules/accounting/service.py:1560-1581 | every trial balance that selects the new entry grows by its debits and credits on their own sides, every other stays |
| Ledger.ReverseDoneIff | backend/app/modules/accounting/service.py:1236-1356 | which entries may be reversed, which are answered with their reversal, and which error the others get; the reversing entry's own columns |
| Ledger.ReverseEffect | backend/app/modules/accounting/service.py:1334-1345 | a reversal takes every account back by what its original put on it |
| Ledger.CloseDoneIff | backend/app/modules/accounting/service.py:1362-1415 | a period is closed if and only if the caller may and none of its days is closed already |
| Ledger.GeneralLedger.Post | backend/app/modules/accounting/service.py:213-270 | outcome and whole new state of a posting |
| Ledger.GeneralLedger.Reverse | backend/app/modules/accounting/service.py:1236-1356 | outcome and whole new state of a reversal; an entry without lines cannot occur |
| Ledger.GeneralLedger.Close | backend/app/modules/accounting/service.py:1362-1415 | outcome and whole new state of closing a period |
| PaymentMigration.DownAfterUp | backend/alembic/versions/a4f2c8e91b6d_m7_ap_settlement_credit_notes_payment_.py:79-108 | every old database upgrades into one that meets the new constraints, and the downgrade gives every invoice, payment and journal row back |
| PaymentMigration.UpgradeEffect | backend/alembic/versions/a4f2c8e91b6d_m7_ap_settlement_credit_notes_payment_.py:69-210 | one allocation of the whole amount for each payment, nothing credited, the permission to its roles, and nothing else changed |
| PaymentMigration.DowngradeEffect | backend/alembic/versions/a4f2c8e91b6d_m7_ap_settlement_credit_notes_payment_.py:459-520 | each payment has its allocation's invoice, and what only the new schema has is gone |
| PaymentMigration.PermissionsBackIff | backend/alembic/versions/a4f2c8e91b6d_m7_ap_settlement_credit_notes_payment_.py:358-390 | the permission rows come back if and only if the code was not there before |
| PaymentMigration.DowngradesIff | backend/alembic/versions/a4f2c8e91b6d_m7_ap_settlement_credit_notes_payment_.py:413-482 | exactly which databases can be downgraded, and that the result meets the old constraints |
| PaymentMigration.RefusedFor | backend/alembic/versions/a4f2c8e91b6d_m7_ap_settlement_credit_notes_payment_.py:413-482 | what a downgrade is refused for, in the guards' order |
| PaymentMigration.AllocationsBackIff | backend/alembic/versions/a4f2c8e91b6d_m7_ap_settlement_credit_notes_payment_.py:198-208 | after a downgrade, upgrading restores the allocations if and only if each was for its payment's whole amount |
| PaymentMigration.UpAfterDownIff | backend/alembic/versions/a4f2c8e91b6d_m7_ap_settlement_credit_notes_payment_.py:459-502 | after a downgrade, upgrading restores the database if and only if also no receipt matches existed and the permission had its default grants |
| PaymentMigration.SettledPaymentsHaveFullAmounts | backend/app/modules/ap/models.py:222-228 | allocations that add up to their payment satisfy that amount condition |
| PaymentMigration.Schema.Upgrade | backend/alembic/versions/a4f2c8e91b6d_m7_ap_settlement_credit_notes_payment_.py:69-210 | the statements of the upgrade, in order |
| PaymentMigration.Schema.Downgrade | backend/alembic/versions/a4f2c8e91b6d_m7_ap_settlement_credit_notes_payment_.py:393-520 | guards first, then the statements; a refusal changes nothing |
| RateLimiter.KeysIndependent | backend/app/core/rate_limit.py:60-74 | in every interleaving a key's window and next answer depend on its own operations alone |
| RateLimiter.WindowSummarisesHistory | backend/app/core/rate_limit.py:46-74 | the stored window began at the last opening, counts exactly the calls let through since, and never more than the limit or one |
| RateLimiter.RefusedIff | backend/app/core/rate_limit.py:64-73 | a call is refused exactly when the window is open at its reading and full |
| RateLimiter.SlidingBound | backend/app/core/rate_limit.py:60-74 | while no call is counted in a window that began after its reading, and without a reset, an interval of the window's length sees at most twice the limit less one calls |
| RateLimiter.OrderedSlidingBound | backend/app/core/rate_limit.py:60-74 | so whenever a key's readings are in lock order |
| RateLimiter.SlidingBoundAttained | backend/app/core/rate_limit.py:60-74 | the bound is attained for every limit and window |
| RateLimiter.UnorderedClockExceedsBound | backend/app/core/rate_limit.py:63-64 | it fails when a reading taken before the lock is late |
| RateLimiter.FixedWindowRateLimiter.CheckCall | backend/app/core/rate_limit.py:60-74 | the answer in terms of the whole history; other keys untouched; a refusal changes nothing |
| RateLimiter.FixedWindowRateLimiter.ResetKey | backend/app/core/rate_limit.py:76-81 | forgets one key |
| Checkout.RunSound | backend/alembic/versions/89a42dfbfaea_m2_hardening_sale_idempotency_key.py:7-20 | with requests and replies lost, repeated and raced, at most one sale per key, each with the key and quantity of a call that was sent, and stock taken once for each |
| Checkout.StartSound | backend/app/modules/sales/service.py:195-208 | the invariant holds before the first attempt |
| Checkout.SuccessReturnsTheSale | backend/app/modules/sales/service.py:195-208 | a successful call returns the one sale of its key |
| Checkout.NewRequestSold | backend/app/modules/sales/service.py:366-400 | a request under a new key, delivered, inserted and committed, leaves exactly the sale it asked for and takes that quantity from stock |
| Checkout.RepeatAnswered | backend/app/modules/sales/service.py:195-208 | a request whose key has a sale is answered with it and sells nothing |
| Checkout.AbortSellsNothing | backend/app/modules/sales/service.py:344-365 | a transaction that has not ended may abort, sells nothing and answers with a failure |
| Checkout.PressSends | frontend/src/pages/PosPage.tsx:164-211 | a press sends the cart under the attempt's key, or a new one when there is none |
| Checkout.AnswerEndsCall | frontend/src/pages/PosPage.tsx:164-211 | success lets go of the key, failure or silence keeps it for the next try |
| Checkout.TillStartsOver | frontend/src/pages/PosPage.tsx:164-211 | what the next customer and a reloaded page start with |
| Checkout.InsertSound | backend/app/modules/sales/service.py:344-365 | the unique constraint keeps the invariant when two requests have passed the fast path |
| Checkout.GuardedRunTillSound | frontend/src/pages/PosPage.tsx:164-211 | with the button as it is: one call at a time with the current key, and every key let go of has exactly one sale unless it was lost with its page |
| Checkout.StartTillSound | frontend/src/pages/PosPage.tsx:164-211 | a till that has just been opened |
| Checkout.AttemptsCounted | frontend/src/pages/PosPage.tsx:164-211 | the number of sales is the number of attempts, less those lost with their page that came to nothing, but for the one under way |
| Checkout.NothingAbandoned | frontend/src/pages/PosPage.tsx:164-211 | a till that is never reloaded loses no key |
| Checkout.ReloadForgetsASale | frontend/src/pages/PosPage.tsx:172-174 | a reload before the answer leaves a committed sale and a till that will use another key |
| Checkout.OverlappingCallsClearTheWrongKey | frontend/src/pages/PosPage.tsx:393 | without the disabled button a late answer clears a key no sale carries |
| Checkout.BackfillCannotCollide | backend/alembic/versions/89a42dfbfaea_m2_hardening_sale_idempotency_key.py:38-45 | no two rows are backfilled with the same key |
| Transfers.RunSound | backend/app/modules/transfers/models.py:93-122 | over every run: received, damaged and short are the sums of the receipt items, within shipped, within requested; what is written off is the sum of the posted write-offs |
| Transfers.WrittenOffWithinFaults | backend/alembic/versions/a1b2c3d4e5f6_m25_phase4_approval_gated_write_offs.py:281-286 | written off stays within damaged plus short, through a guard per discrepancy |
| Transfers.DecisionGuardsHold | backend/app/modules/writeoffs/service.py:457-475 | a pending request still fits when it is decided, and its discrepancy is still resolved |
| Transfers.CreateDoneIff | backend/app/modules/transfers/service.py:76-208 | which drafts are stored, with which lines |
| Transfers.CancelDoneIff | backend/app/modules/transfers/service.py:725-772 | only a draft is cancelled, and a repeat is answered |
| Transfers.ShipDoneIff | backend/app/modules/transfers/service.py:282-378 | a shipment goes ahead if and only if the transfer is a draft and every input is of a positive quantity within what was requested on one of its lines |
| Transfers.ShipRefusedFor | backend/app/modules/transfers/service.py:282-378 | which input a shipment is refused for, and why |
| Transfers.ShipEffect | backend/app/modules/transfers/service.py:380-417 | lines record their last input and the cost of the moment, other lines stay, the account moves by every input's worth |
| Transfers.ReceiveDoneIff | backend/app/modules/transfers/service.py:437-560 | a receipt goes ahead if and only if its inputs are on lines of a shipped transfer and within what is still under way |
| Transfers.ReceiveRefusedFor | backend/app/modules/transfers/service.py:437-560 | which input a receipt is refused for, and why |
| Transfers.ReceiveEffect | backend/app/modules/transfers/service.py:562-700 | good, damaged and short quantities grow by those of their own inputs; the account gives up what the good ones are worth |
| Transfers.DiscrepancyOfInput | backend/app/modules/discrepancies/service.py:49-110 | one discrepancy for each faulty input, of its faulty units at the line's frozen cost |
| Transfers.FindingDoneIff | backend/app/modules/discrepancies/service.py:175-284 | which discrepancies are investigated and resolved, and whose fault is recorded |
| Transfers.RequestDoneIff | backend/app/modules/writeoffs/service.py:176-342 | a write-off is requested if and only if its discrepancy is resolved, not the vendor's fault, has none pending, and covers the quantity |
| Transfers.ApproveDoneIff | backend/app/modules/writeoffs/service.py:399-525 | a pending one is approved by anybody but its initiator if it is worth anything; line and account move by its quantity and amount |
| Transfers.DenyDoneIff | backend/app/modules/writeoffs/service.py:528-604 | a pending one is denied by anybody but its initiator; its discrepancy is open again |
| Transfers.ReverseDoneIff | backend/app/modules/writeoffs/service.py:610-690 | a posted one is reversed once, line and account move back |
| Transfers.ShipRecordsWhatMovedIff | backend/app/modules/transfers/service.py:380-397 | a shipment records what it moved if and only if it names each line once |
| Transfers.DoubleInputLosesRecord | backend/app/modules/transfers/service.py:380-385 | five units moved, three recorded |
| Transfers.RunAccountNear | backend/app/modules/transfers/service.py:784-830 | over every run the in-transit account differs from the exact value of the goods and what was shipped without staying on record by at most half a ledger unit per rounded amount |
| Transfers.UnrecordedGrowsIff | backend/app/modules/transfers/service.py:380-397 | what goes unrecorded never shrinks, and grows, when goods cost something, exactly by shipments that name a line more than once |
| Transfers.EmptyAccountNear | backend/app/modules/transfers/service.py:784-830 | the account of an empty database |
| Transfers.RunAccountExact | backend/app/modules/transfers/service.py:784-830 | and by nothing more when costs have at most three decimals |
| Transfers.Reconcile | backend/app/modules/transfers/service.py:784-830 | the reported discrepancy, and that it is what went unrecorded, within rounding |
| Transfers.WorthlessWriteOffStuck | backend/app/modules/accounting/service.py:943-991 | a pending write-off can be approved if and only if its value rounds to something |
| Transfers.TransferBook.CreateTransfer | backend/app/modules/transfers/service.py:76-208 | a draft with its lines, or a refusal |
| Transfers.TransferBook.CancelTransfer | backend/app/modules/transfers/service.py:725-772 | only a draft is cancelled; a repeat changes nothing |
| Transfers.TransferBook.InvestigateDiscrepancy | backend/app/modules/discrepancies/service.py:175-217 | recorded to investigating, nothing else |
| Transfers.TransferBook.ResolveDiscrepancy | backend/app/modules/discrepancies/service.py:220-284 | investigating to resolved, nothing else |
| Transfers.TransferBook.ShipTransfer | backend/app/modules/transfers/service.py:282-417 | outcome and whole new state of a shipment |
| Transfers.TransferBook.ReceiveTransfer | backend/app/modules/transfers/service.py:437-700 | outcome and whole new state of a receipt, its discrepancies included |
| Transfers.TransferBook.RequestWriteOff | backend/app/modules/writeoffs/service.py:176-342 | outcome and whole new state of a request |
| Transfers.TransferBook.ApproveWriteOff | backend/app/modules/writeoffs/service.py:399-525 | outcome and whole new state of an approval |
| Transfers.TransferBook.DenyWriteOff | backend/app/modules/writeoffs/service.py:528-604 | outcome and whole new state of a denial, the reopened discrepancy included |
| Transfers.TransferBook.ReverseWriteOff | backend/app/modules/writeoffs/service.py:610-690 | outcome and whole new state of a reversal |
| TransferMigrations.DownAfterUp | backend/alembic/versions/b628fc058834_m25_phase2_extended_receiving_and_.py:43-104 | up through the chain and down again restores every row and meets each level's constraints |
| TransferMigrations.UpgradeEffect | backend/alembic/versions/b628fc058834_m25_phase2_extended_receiving_and_.py:43-104 | zeros are added, every row keeps its own columns |
| TransferMigrations.RefusedFor | backend/alembic/versions/a1b2c3d4e5f6_m25_phase4_approval_gated_write_offs.py:296-343 | what a downgrade is refused for |
| TransferMigrations.ReceivingRefusedFor | backend/alembic/versions/b628fc058834_m25_phase2_extended_receiving_and_.py:173-212 | what the receiving downgrade is refused for, in its order |
| TransferMigrations.DowngradesIff | backend/alembic/versions/a1b2c3d4e5f6_m25_phase4_approval_gated_write_offs.py:296-343 | exactly which databases the guards let all the way down; what is left meets the narrowest constraints |
| TransferMigrations.DowngradesFrom2Iff | backend/alembic/versions/b628fc058834_m25_phase2_extended_receiving_and_.py:173-212 | the same for the last of the three |
| TransferMigrations.UpAfterDownIff | backend/alembic/versions/a1b2c3d4e5f6_m25_phase4_approval_gated_write_offs.py:342-343 | upgrading again restores the database if and only if no approval policy rule had been configured |
| TransferMigrations.Schema.DowngradeReceiving | backend/alembic/versions/b628fc058834_m25_phase2_extended_receiving_and_.py:173-250 | counts, refuses or narrows; a refusal changes nothing |
| Attendance.RunSound | backend/alembic/versions/be26de9d9459_m10_hr_workforce_payroll_employee_.py:423-465 | over every run: non-voided records of an employee never overlap, and a record is voided exactly when one later record corrects it |
| Attendance.ClockOutSound | backend/app/modules/hr/service.py:692-732 | closing a record can never meet the no-overlap constraint |
| Attendance.OneOpenRecord | backend/app/modules/hr/service.py:622-689 | no employee has two open records |
| Attendance.ClockInDoneIff | backend/app/modules/hr/service.py:622-689 | a clock-in is accepted if and only if the caller and the employee may and no standing record of the employee is open or ends later; the record it appends and the error otherwise |
| Attendance.ClockOutDoneIff | backend/app/modules/hr/service.py:692-732 | an open record is closed later than it began, and nothing else of it changes |
| Attendance.CorrectDoneIff | backend/app/modules/hr/service.py:735-813 | a correction is accepted if and only if the record stands and the employee's other standing records leave the new time free; the error otherwise |
| Attendance.CorrectEffect | backend/app/modules/hr/service.py:761-785 | the original keeps its times and is voided, its replacement is appended |
| Attendance.SelectionCountsOnce | backend/app/modules/payroll/service.py:379-400 | over every run, adding up the closed records of one selection, such as one store and its dates, counts each instant worked in it once |
| Attendance.ApprovedTimeUnchangedIff | backend/app/modules/payroll/service.py:248-264 | when approval finds nothing stale, paid time is as calculated if and only if no correction since moved a shift into the period |
| Attendance.ShiftMovedInUnnoticed | backend/app/modules/payroll/service.py:218-222 | a shift corrected into the period after the calculation, and nothing to object to |
| Attendance.AttendanceBook.ClockInAt | backend/app/modules/hr/service.py:622-689 | outcome and whole new state of a clock-in |
| Attendance.AttendanceBook.ClockOutAt | backend/app/modules/hr/service.py:692-732 | outcome and whole new state of a clock-out |
| Attendance.AttendanceBook.CorrectRecord | backend/app/modules/hr/service.py:735-813 | outcome and whole new state of a correction; a refused one voids nothing |
| EffectiveDates.ChangesContiguous | backend/app/modules/hr/service.py:524-585 | every run of changes keeps the ranges contiguous and the last one open |
| EffectiveDates.ExactlyOne | backend/alembic/versions/be26de9d9459_m10_hr_workforce_payroll_employee_.py:304-390 | no two ranges overlap, and every date from the first on has exactly one |
| EffectiveDates.ChangeKeepsHistory | backend/app/modules/hr/service.py:548-562 | a change leaves every earlier date as it was |
| EffectiveDates.ChangeDoneIff | backend/app/modules/hr/service.py:524-563 | a change is accepted if and only if it begins after the current range does; its value then holds from its own date on |
| EffectiveDates.SegmentValues | backend/app/modules/payroll/service.py:354-376 | on every date of the period the segments carry the value of the range that covers it |
| EffectiveDates.SegmentIsOfRange | backend/app/modules/payroll/service.py:369-375 | every date of a segment lies in the period and in a range of the segment's value |
| EffectiveDates.OneSegmentPerDate | backend/app/modules/payroll/service.py:354-376 | no date lies in two segments |
| EffectiveDates.History.ChangeFrom | backend/app/modules/hr/service.py:540-563 | outcome and whole new history of a change |
| EffectiveDates.ResolveSegments | backend/app/modules/payroll/service.py:354-376 | the clipped ranges that touch the period |
| EffectiveDates.CheckCoverage | backend/app/modules/payroll/calculation.py:145-160 | for any segments in any order: accepted exactly when there is one and no date of the period, nor before a later segment, is without |
| EffectiveDates.CoverageIff | backend/app/modules/payroll/calculation.py:145-160 | for a contiguous history that is: there was a rate by the first day; then the segments count each day once |
| PayrollCoverage.RunSound | backend/app/modules/payroll/models.py:149-156 | over every run of the list of periods: ranges of a store are distinct and not empty |
| PayrollCoverage.CreateDoneIff | backend/app/modules/payroll/service.py:88-138 | a period is created if and only if it is not empty, pays no earlier than it ends, and none of its store has the same two dates |
| PayrollCoverage.AssignedIff | backend/app/modules/payroll/service.py:331-351 | an employee is on a period if and only if on one of its days the assignment is at its store |
| PayrollCoverage.EveryInstantPaidOnceIff | backend/app/modules/payroll/service.py:331-400 | with every period calculated on one and the same list of records: every instant worked is paid exactly once if and only if each closed record's store and work date lie in exactly one posted period that has the employee on it |
| PayrollCoverage.NeverPaidTwiceIff | backend/app/modules/payroll/service.py:115-124 | on one and the same list of records, whatever it is, no instant is paid twice if and only if the periods that pay the employee share no store and date |
| PayrollCoverage.PaidPerRecord | backend/app/modules/payroll/service.py:379-400 | on one list of records, what all periods pay is each record's length as often as periods pay for it |
| PayrollCoverage.PayIsWorkedTimeIff | backend/app/modules/payroll/service.py:379-400 | on one list of records, while none is paid twice or none left out, total pay is the time worked if and only if every record is paid once |
| PayrollCoverage.FaultsCanCancel | backend/app/modules/payroll/service.py:331-400 | without that, a shift paid twice and one left out can add up to the time worked |
| PayrollCoverage.OverlappingPeriodsPayTwice | backend/app/modules/payroll/service.py:115-124 | two periods that share a day, both created and posted: eight units worked, sixteen paid |
| PayrollCoverage.ShiftElsewhereUnpaid | backend/app/modules/payroll/service.py:331-351 | a shift at a store without an assignment is paid by none |
| PayrollCoverage.SegmentsPayThePeriod | backend/app/modules/payroll/service.py:354-400 | over all segments of covering rates together, the hours are the instants worked at the store on the period's dates |
| PayrollCoverage.PayrollCalendar.CreatePeriod | backend/app/modules/payroll/service.py:88-138 | outcome and whole new list of periods |
| PayrollRuns.RunConsistent | backend/app/modules/payroll/service.py:456-660 | over every run of clocks, corrections, assignments and payroll: what a period was calculated from is an earlier state of the records, which have only been closed, voided or added to since |
| PayrollRuns.BasisIsOfCalculation | backend/app/modules/payroll/service.py:456-660 | an accepted calculation keeps the records and assignments it was made from, and nothing else touches them |
| PayrollRuns.ApprovedIff | backend/app/modules/payroll/service.py:211-279 | an approval goes through if and only if the period stands calculated, someone is named, and no record of its store and dates was updated later |
| PayrollRuns.AssignmentTaken | backend/app/modules/hr/service.py:449-521 | an assignment is taken if it begins after the current one, which then ends the day before; nothing else moves |
| PayrollRuns.PeriodCreated | backend/app/modules/payroll/service.py:88-138 | a period is added under the calendar's rule, with nothing calculated |
| PayrollRuns.EachInstantOnceIff | backend/app/modules/payroll/service.py:379-400 | over every such run, while no record that a standing period paid for was corrected since: every instant worked is paid exactly once if and only if each closed record was closed already when exactly one standing period of its store and date was calculated |
| PayrollRuns.EachInstantOnceEitherWay | backend/app/modules/payroll/service.py:379-400 | over every such run, corrected or not: if and only if each closed record either is counted by one standing period and none pays its instants through a corrected record, or is counted by none and has each of its instants paid through exactly one |
| PayrollRuns.NeverPaidTwiceIff | backend/app/modules/payroll/service.py:115-124 | over every such run: whatever attendance leads to the same calendar without a later correction, no instant is paid twice if and only if the periods that pay the employee share no store and date |
| PayrollRuns.RunDoublyPaidIsCorrected | backend/app/modules/hr/service.py:735-813 | among periods kept apart, an instant paid twice lies in a record that a standing period paid for and that was corrected since |
| PayrollRuns.PayIsTimeWorkedIff | backend/app/modules/payroll/service.py:379-400 | over every such run, while no paid record was corrected and none is paid twice or none left out: pay is the time worked if and only if every closed record is paid once |
| PayrollRuns.CorrectionPaysTwice | backend/app/modules/hr/service.py:761-785 | an overnight shift moved past the day boundary after its period was posted: six units paid by two periods kept apart |
| PayrollRuns.LateClockOutUnpaid | backend/app/modules/payroll/service.py:165-186 | a shift still open when its period is calculated: its date lies in one standing period, and nobody pays it |
| PayrollRuns.PayrollOffice.Calculate | backend/app/modules/payroll/service.py:456-660 | outcome and whole new state of a calculation, with the records and assignments it was made from |
| PayrollRuns.PayrollOffice.Approve | backend/app/modules/payroll/service.py:211-279 | outcome and whole new state of an approval, with the search for records updated since the calculation |
| Payroll.SplitHours | backend/app/modules/payroll/calculation.py:162-207 | regular and overtime hours, and that they add up to all hours |
| Payroll.OvertimePerPeriodIff | backend/app/modules/payroll/calculation.py:171-179 | the threshold applied per pay rate finds the period's overtime if and only if there is none or one rate has all the hours; otherwise less |
| Payroll.RaiseLosesOvertime | backend/app/modules/payroll/calculation.py:171-179 | sixty hours around a raise: no overtime instead of twenty |
| Payroll.TotalsBalance | backend/alembic/versions/be26de9d9459_m10_hr_workforce_payroll_employee_.py:655-658 | net equals gross less deductions for the period when it does for each employee |
| Payroll.PostingBalances | backend/app/modules/accounting/service.py:1030-1093 | for any number of employees posting and reversal balance and cancel on every account; there is an entry unless nothing was earned or contributed |
| Payroll.RunSound | backend/alembic/versions/be26de9d9459_m10_hr_workforce_payroll_employee_.py:576-585 | over every run the calculation, approval and posting checks hold together; a posted period keeps its results, entry and totals; a cancelled one never changes |
| Payroll.RunPostsResults | backend/app/modules/accounting/service.py:1030-1124 | over every run: each stored total is its own column's sum; the entry of a posted period moves wages, payroll payable, deduction payable and the contribution accounts by the sums of the results' own columns, and a reversal takes them back |
| Payroll.StepDoneIff | backend/app/modules/payroll/service.py:173-317 | from which status each operation goes ahead, who must be named, what else must hold, and what it leaves |
| Payroll.StepRepeatedOrRefused | backend/app/modules/payroll/service.py:211-279 | which repeats are answered as done, and which error everything else gets |
| Payroll.LedgerOfRun | backend/app/modules/payroll/service.py:691-845 | in every state the period's entries balance, and once reversed leave nothing on any account |
| Payroll.ButtonsMatchService | frontend/src/pages/PayrollPage.tsx:196-274 | the screen offers exactly the operations the status admits |
| Payroll.PayrollPeriod.Calculate | backend/app/modules/payroll/service.py:456-660 | outcome and whole new state of a calculation |
| Payroll.PayrollPeriod.Approve | backend/app/modules/payroll/service.py:211-279 | outcome and whole new state of an approval |
| Payroll.PayrollPeriod.Post | backend/app/modules/payroll/service.py:691-772 | outcome and whole new state of a posting |
| Payroll.PayrollPeriod.Reverse | backend/app/modules/payroll/service.py:775-845 | outcome and whole new state of a reversal |
| Payroll.PayrollPeriod.Cancel | backend/app/modules/payroll/service.py:282-317 | outcome and whole new state of a cancellation |
| SaleReturns.SharesTelescope | backend/app/modules/sales/service.py:517-543 | in any number of parts, discount and tax shares are differences of cumulative entitlements and never negative |
| SaleReturns.SharesNeverExceed | backend/app/modules/sales/service.py:530-536 | they never exceed the line's discount and tax, and reach them exactly when all is back |
| SaleReturns.EntitledIs | backend/app/modules/sales/service.py:517-543 | the entitlement is the exact proportion rounded half up |
| SaleReturns.RefundIs | backend/app/modules/sales/service.py:546-573 | one return refunds its price rounded half up and the units' own shares of discount and tax |
| SaleReturns.EverySplitRefundsChargeIff | backend/app/modules/sales/service.py:546-573 | every way of returning a line in parts refunds exactly its charge if and only if what one thousandth's price is off by, times the quantity, stays within half a cent: a condition on the item alone |
| SaleReturns.RefundsChargeIffRoundingsAgree | backend/app/modules/sales/service.py:546-573 | one split: the refund is off by the difference of the roundings, at most half a cent per part and one more |
| SaleReturns.TwoHalvesRefundMore | backend/app/modules/sales/service.py:559 | one unit at 1.01 in two halves is refunded 1.02 |
| SaleReturns.SaleItem.Return | backend/app/modules/sales/service.py:771-900 | refund and new state of one return, with the running totals of all refunds |
| LogTail.CountersMean | deploy/prometheus/erp_exporter.py:84-104 | each counter is the number of requests it is about |
| LogTail.ClassesPartitionRequests | deploy/prometheus/erp_exporter.py:92-99 | the classes together count every request once, and the 429s are among the 4xx |
| LogTail.PollsArePass | deploy/prometheus/erp_exporter.py:66-82 | any polls of a growing log leave the offset and counters of one pass |
| LogTail.LinesRejoin | deploy/prometheus/erp_exporter.py:66-84 | the lines hold no line end and put together again are the log |
| LogTail.Exporter.TailLog | deploy/prometheus/erp_exporter.py:66-104 | offset and counters after one poll |
| PermissionUpserts.MigrateEffect | backend/alembic/versions/e0d2359bb08a_m14_return_void_approval_threshold.py:95-126 | a migration adds its codes and grants to existing roles, takes nothing away, and keeps every id |
| PermissionUpserts.MigrateTwice | backend/alembic/versions/e0d2359bb08a_m14_return_void_approval_threshold.py:80-94 | running it again changes nothing |
| PermissionUpserts.FreshAndOldAgreeIff | backend/alembic/versions/e6180fca2ee0_m2_seed_rbac_roles_and_permissions.py:34-66 | a freshly seeded and an old database reach the same rights if and only if their seeds agree outside what the migrations add; no existing id changes |
| PermissionUpserts.FreshAndOldAgree | backend/alembic/versions/e6180fca2ee0_m2_seed_rbac_roles_and_permissions.py:34-66 | so whenever the newer seed only runs ahead of its migrations |
| PermissionUpserts.Permissions.Upgrade | backend/alembic/versions/8df037a45976_m4_accounting_core_chart_of_accounts_.py:307-349 | the upsert loop and the grant loop |

## Left out

- Concurrency inside one transaction: locking order and isolation. A committed transaction is one step, except in Checkout, where the fast path, the insert and the commit of a sale are separate steps, and RateLimiter, where the clock is read before the lock.
- Inactive stores and suppliers, product and tax-rate lookups, the purchase-return limit on a GOODS_RETURN credit note, and the free-text fields: they only refuse more requests.
- Receipt matching without persisted rows: the fallback for invoices posted before M7 (`ap/service.py:849-871`).
- ReceiptMatching: a posting whose journal entry does not balance is rolled back as a whole and is then no step; which ones do is InvoicePosting's subject. The statuses PARTIALLY_PAID and PAID are POSTED with `settled` true.
- InvoicePosting and Settlement take amounts at column precision; a request with more decimals is rounded by the column first.
- Settlement records what each entry does to Accounts Payable; the other side of the entry is fixed by the payment method or credit reason. Idempotency of invoice creation follows the payments' pattern and is not repeated; aging buckets are sums of the same balances.
- Ledger.EveryCommitBalanced: says nothing about an entry without lines, which the trigger never sees; only the service's own runs exclude it.
- Ledger: the account names, types and normal balances, and the profit-and-loss figures derived from the trial balance.
- Checkout: the number of sales per key, not that the cart was unchanged between retries. The service's other refusals are the transaction's abort. It is a state machine on values: client, network and server state change together in one step.
- Transfers: stock levels and weighted average cost, idempotency keys, the approval-policy tiers and who may act; the journal's closed-period check.
- Attendance: the conversion of a clock-in to a work date is a parameter, and so is whether an employee may clock in.
- Payroll: the amounts of earning and deduction lines (decimal division and configured formulas); the results of the calculation are a parameter that the table's checks constrain.
- SaleReturns: products, restocking and the approval gate; the quotient is rounded exactly where the service divides with 28 digits first.
- LogTail.PollsArePass: for logs that only grow and polls that end at a line end; the code counts a cut line's pieces separately, and other line separators are not modelled.
- PaymentMigration, TransferMigrations: surrogate ids and timestamps of rows a migration re-creates; tables no step reads are represented by their number of rows.
- User interface, authentication, reports, stock counts, replenishment and fiscalization.
- ReceiptMatching.MatchBook.ReceiveGoods: not the purchase order's status, the store checks, the stock movement or the moving average cost of a receipt.
- ReceiptMatching.MatchBook.CreateInvoice: not prices (InvoicePosting), supplier and purchase order checks, nor the idempotency key.
- ReceiptMatching.MatchBook.PostInvoice: not the journal entry, whose imbalance rolls the posting back as a whole; such a posting is no step.
- ReceiptMatching.MatchBook.VoidInvoice: whether anything is settled is a parameter, and the mirror entry is InvoicePosting's and ClearingAccount's.
- InvoicePosting.CreateDraft: not the supplier, purchase order, invoice number and key checks, which come before the amounts.
- ClearingAccount.ReturnDesk.CreateReturn: not the store and purchase order checks or the key; the product's cost of the moment and its stock are parameters, and the stock movement is left out.
- ClearingAccount: the balance over all stores; a report for some of them is the same over their orders. A posting that is rolled back is no step here either.
- Settlement.SettlementBook.PostInvoice: not the refusal of an entry that does not balance, which InvoicePosting decides.
- Settlement.SettlementBook.SettleDocument: not inactive stores and suppliers, nor the cap on a credit note for returned goods.
- Transfers.TransferBook.CreateTransfer: not the store and product checks or the key.
- Transfers.TransferBook.ShipTransfer: not the stock movements or the key; each line's cost is a parameter.
- Transfers.TransferBook.ReceiveTransfer: not the stock movements, the averaging of costs at the receiving store, or the key.
- Transfers.TransferBook.RequestWriteOff: not the approval tier that is recorded, or the key.
- Transfers.TransferBook.ApproveWriteOff: not whether the actor's role reaches the tier, or the closed-period check.
- Transfers.TransferBook.DenyWriteOff: not whether the actor's role reaches the tier.
- Transfers.TransferBook.ReverseWriteOff: not the check that the actor is an administrator.
- SaleReturns.SaleItem.Return: not restocking, the approval gate or the sale's status.
- Payroll.PayrollPeriod.Calculate: the results are a parameter; PayrollRuns says from which records they come, Payroll.SplitHours how their hours are split.
- Payroll.PayrollPeriod.Approve: whether the calculation is stale is a parameter; PayrollRuns.PayrollOffice.Approve looks at the records.
- PayrollCoverage and PayrollRuns: time, not money. What is paid is the time that hourly rates are applied to; a salary is paid by days, and its hours by nothing. A calculation refused for an employee without a rate, and store access, only make fewer steps. A period pays while its entry is posted and not reversed.
- PayrollRuns.PayrollOffice.Calculate: the results are a parameter here too, and the idempotency key is left out.
- InventoryValuation: one store; a document with several lines is its lines' steps, and one that is rolled back is none. The average's quotient is rounded exactly where the service divides with 28 digits first. The steps are the lines' movements and amounts, not the documents' own checks.
- InventoryValuation.StoreStock.RecordMovement: not the movement row itself, its reference or its reason.
- InventoryValuation.StoreStock.TakeInGoods: not the purchase order, transfer or sale the goods come with.
- InventoryValuation.StoreStock.IssueGoods: not the sale, return, shipment or count the goods leave with.
