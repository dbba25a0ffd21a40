# Billing ledger: a verified model

This project models a multi-tenant invoicing back end and proves the properties its billing ledger and its
protocols are built for. It has five parts.

1. **The ledger.** `Ledger` gives every billing transaction (create, update, delete, send, credit, remind,
   generate from a template, mark overdue, book a payment, settings, templates) as a function on the tables.
   `LedgerRules` says of each, in sums, day numbers and rows alone, when it commits and what it leaves behind.
   `LedgerInvariants` proves what each of them keeps, `LedgerHistory` what holds over whole runs (statuses,
   numbers, chains, credit notes), `LedgerMoney` the ledger identity and `LedgerPayments` independence of the
   order of payments and of what goes on beside them. `Billing` and `Automation` are the services and the nightly
   job as they update the tables step by step, proved against those functions; `Schedule` says what the nightly
   job amounts to.
2. **Concurrency.** `Transactions` lets any number of transactions begin, lock row by row, read, draw identity
   values, write, commit and roll back in any order. `TransactionPlans` and `Serializability` prove every run
   equivalent to its committed transactions in commit order, so the ledger's results hold under concurrency.
3. **Idempotency keys.** `Canonical` is the canonical JSON printer and an independent reader, `CanonicalProofs`
   shows when two texts are the same, `Idempotency` is the claim, run and complete protocol with crashes,
   cleanups, takeovers and purges, and `KeyTable` its statements in sequence.
4. **Messages.** `Outbox` is the publisher's round, `Broker` the pipeline of outbox, duplicating and
   reordering broker, payment consumer and ledger, `Consumer` the message handler, and `Deliveries` the
   delivery reports.
5. **Arithmetic.** `Dates` is the calendar and the recurrence rule, `Cron` the search for the instant of a
   local time, `Ocr` the payment reference and `Vat` line amounts and totals.

Amounts are integers in öre and quantities integers in thousandths. Times are integers; today's date, the
clock, failures and the broker's answers are inputs. `dafny verify dfyconfig.toml` covers the whole project.

## What is not as one might expect

- A payment can be booked on a draft. When the draft is sent its outstanding debt starts below its total, so the
  ledger identity needs a term for what was paid before sending. `LedgerMoney.PlainIdentityIff` gives the exact
  condition for doing without it, and `LedgerPayments.PrepaidRunExists` a run that needs it.
- `Date.UTC` reads the years 0 to 99 as 1900 to 1999, so adding no days to such a date moves it, and day
  addition is additive exactly when the intermediate date avoids those years (`Dates.AddZeroIsIdentity`,
  `Dates.AddDaysAdditive`).
- A swap of two neighbouring digits of an OCR goes unnoticed exactly if they are 0 and 9 inside the number part
  (`Ocr.SwapUndetectedIff`).
- The comment in `createReminderInTx` says that every condition of the selection is checked again under the lock.
  The due date is not; the model follows the code.
- Deleting a draft with booked payments fails on the foreign key of `invoice_payments`; the model has that error.
- The next daily run can be earlier than now during the second pass of an overlap. `Cron.NextIsLaterIff` gives the
  exact condition and `Cron.NextCanBeEarlier` an input, under the former rule of St. John's in Newfoundland. It needs
  a zone west of Greenwich whose clock does not go back from a full hour to the full hour before
  (`Cron.EarlierIsRare`); at 03:00 Swedish time it cannot happen.
- The timer looks for its next run when it is set up and whenever a job has ended, and starts at once if the instant
  found has passed. A job that takes a day or more by the wall clock skips dates. A job that ends in such a second pass
  is started again at once, and again after each end until the second pass reaches the hour
  (`Cron.RunsAgainAtOnce`, `Cron.RunsTwiceADay`). `Cron.RunsAreConsecutiveDays` gives the exact condition for runs at
  the hour on consecutive dates; at 03:00 Swedish time only the length of the job matters (`Cron.SwedishRuns`).

## Assumptions

- Idempotency: a live request commits or cleans up within the ten minutes of its claim, one whose commit was reported
  as an error does its cleanup within them too, and a claim is written no later than ten minutes before the expiry it
  computed on arrival. Completion and cleanup check no owner, so without the first a late request could complete a
  claim that is no longer its own. One clock is used for application and database. Timestamps are compared as opaque
  values; a takeover may also fail spuriously.
- SHA-256 does not collide: the hash is identified with the canonical text.
- A payment id belongs to one invoice and one amount, and an event id to one message. Schema-valid payments have a
  positive amount.
- A timer fires at the instant it was set for.
- The broker loses no confirmed message. It may duplicate, reorder and redeliver.
- The database gives row locks, unique keys on which a concurrent insert waits, atomic commit and rollback, and
  identity values that are never given twice.

## Model

| member | source | states |
|---|---|---|
| Dates.DayBijection | services/billing/src/domain/dates.ts:18-24 | Day numbers and valid Gregorian dates are in bijection: reading back the day number of a date gives the date. |
| Dates.DayFromYearClosedForm | services/billing/src/domain/dates.ts:18-24 | The day a year begins, counted year by year, is the closed formula of section 21.4.1 of ECMA-262. |
| Dates.MonthTable | services/billing/src/domain/dates.ts:18-24 | The days before each month are the table of section 21.4.1 of ECMA-262: 0, 31, 59 and so on, and one more after February in a year of 366 days. |
| Dates.ValidIff | services/billing/src/domain/dates.ts:18-24 | A date exists exactly if its day number comes before that of the next month. |
| Dates.DayNumberOrder | services/billing/src/domain/dates.ts:18-24 | Comparing year, month and day is comparing day numbers, for all valid dates. |
| Dates.AddDaysMovesDayNumber | services/billing/src/domain/dates.ts:18-24 | addDays moves the day number by exactly n outside the years 0 to 99. |
| Dates.AddZeroIsIdentity | services/billing/src/domain/dates.ts:18-24 | Adding no days returns the date exactly when its year is not one that Date.UTC reads as 1900 to 1999. |
| Dates.AddDaysAdditive | services/billing/src/domain/dates.ts:18-24 | For every valid date, adding m and then n days is adding m + n days exactly when the date in between is not in the years 0 to 99. |
| Dates.IsoRoundTrip | services/billing/src/domain/dates.ts:18-29 | Printing a date as YYYY-MM-DD and parsing it gives the date back, and dayOfMonth reads its day. |
| Dates.AddDaysStringsAdditive | services/billing/src/domain/dates.ts:18-24 | The same additivity on the strings themselves, whenever the date in between is in the years 100 to 9999. |
| Dates.IsoOrderIsDayOrder | services/billing/src/invoices/repository.ts:322-348 | Comparing YYYY-MM-DD strings character by character is comparing day numbers, which every due and overdue test relies on. |
| Dates.AdvanceIsClampedDate | services/billing/src/domain/dates.ts:55-69 | advanceByInterval is the billing day clamped to the length of the month so many months on. |
| Dates.LastDayOfMonth | services/billing/src/domain/dates.ts:64-64 | Day 0 of the following month in Date.UTC is the last day of the month. |
| Dates.PeriodStep | services/billing/src/domain/dates.ts:55-69 | Rolling forward n times lands on the closed form (start month + n steps, clamped anchor day) and is strictly later: a short month causes no drift. |
| Dates.PeriodsIncrease | services/billing/src/domain/dates.ts:55-69 | Period dates never repeat: they increase strictly with their index. |
| Dates.AdvanceIsLater | services/billing/src/domain/dates.ts:55-69 | Whatever the anchor day, one period on is a valid, strictly later date. |
| Dates.RollRule | services/billing/src/domain/dates.ts:55-69 | A monthly template moves on by one month, a quarterly one by three and a yearly one by twelve, to the billing day or the last day of the month if that comes first. |
| Dates.PeriodRule | services/billing/src/domain/dates.ts:55-69 | The n-th period lies n times as many months after the first. |
| Ocr.LuhnCheckDigit | packages/shared/src/ocr/index.ts:16-29 | The loop computes the check digit of the weighted digit sum (Annex B of ISO/IEC 7812-1). |
| Ocr.Luhn | packages/shared/src/swedish-id/index.ts:11-25 | The validator loop accepts exactly the non-empty digit strings whose weighted sum is a multiple of ten. |
| Ocr.LuhnIff | packages/shared/src/swedish-id/index.ts:11-25 | The separate luhn accepts exactly the digit strings in which the digits of even places from the right and the doubled digits, digit by digit, of the odd ones add up to a multiple of ten. |
| Ocr.CheckDigitAgreesWithLuhn | packages/shared/src/ocr/index.ts:16-29 | Appending a digit satisfies the separate luhn exactly if it is the digit luhnCheckDigit computes. |
| Ocr.DerivedIsValid | packages/shared/src/ocr/index.ts:31-50 | Every OCR derived from a positive invoice number is valid. |
| Ocr.DeriveInjective | packages/shared/src/ocr/index.ts:31-39 | Different invoice numbers have different OCRs. |
| Ocr.DerivedImage | packages/shared/src/ocr/index.ts:31-50 | The derived OCRs are exactly the valid ones whose base has no leading zero. |
| Ocr.DerivedIff | packages/shared/src/ocr/index.ts:31-39 | The OCR of n is the one valid string without a leading zero whose digits before the last two read n. |
| Ocr.ValidIsLuhn | packages/shared/src/ocr/index.ts:42-50 | A valid OCR passes the separate luhn as a whole. |
| Ocr.ValidOcrIff | packages/shared/src/ocr/index.ts:42-50 | An OCR is valid exactly if its last digit but one is its length modulo ten and its place values add up to a multiple of ten. |
| Ocr.SingleErrorDetected | packages/shared/src/ocr/index.ts:42-50 | Changing any single digit of a valid OCR makes it invalid. |
| Ocr.AdjacentSwapDetected | packages/shared/src/ocr/index.ts:42-50 | Swapping two adjacent unequal digits other than 0 and 9 makes a valid OCR invalid. |
| Ocr.ZeroNineSwapUndetected | packages/shared/src/ocr/index.ts:42-50 | A 0/9 swap inside the number part is never detected. |
| Ocr.SwapUndetectedIff | packages/shared/src/ocr/index.ts:42-50 | A swap of two unequal neighbours goes unnoticed exactly if they are 0 and 9 and both in the number part. |
| Vat.RoundHalfUp | services/billing/src/domain/vat.ts:27-29 | The result is within half a unit of the exact quotient, ties going up. |
| Vat.RoundHalfUpUnique | services/billing/src/domain/vat.ts:27-29 | No other integer is: rounding half up is the only such function. |
| Vat.SplitIsExact | services/billing/src/domain/vat.ts:46-58 | The split into whole and thousandth parts loses nothing: it is exactly quantity times price, for either sign. |
| Vat.SchemaLineSafe | services/billing/src/domain/vat.ts:46-69 | For a schema-valid line the safe-integer error is unreachable, every intermediate stays below 2^53, and the amount is the rounded exact product. |
| Vat.VatErrorBound | services/billing/src/domain/vat.ts:61-87 | Total VAT over n lines differs from the unrounded VAT on the rounded line amounts by at most n/2 öre, and incl = excl + vat in total. |
| Vat.TotalsSafe | services/billing/src/invoices/schema.ts:21-34 | No total of up to 200 schema-valid lines reaches 2^53. |
| Vat.TotalsNegate | services/billing/src/domain/vat.ts:78-96 | The totals of negated lines are the negated totals. |
| Vat.ZeroVatLine | services/billing/src/invoices/services.ts:100-110 | A line of one unit without VAT costs its price, for every price in the safe range. |
| LedgerInvariants.SendKeeps | services/billing/src/invoices/services.ts:363-422 | Sending keeps every whole-state invariant. |
| LedgerInvariants.CreditKeeps | services/billing/src/invoices/services.ts:424-512 | Crediting keeps every whole-state invariant: among them one credit note per credited invoice, with mirrored lines. |
| LedgerInvariants.RemindKeeps | services/billing/src/invoices/services.ts:600-691 | Reminding keeps every whole-state invariant: among them that original and reminder point at each other. |
| LedgerInvariants.GenerateKeeps | services/billing/src/invoices/services.ts:710-783 | Generating keeps every whole-state invariant: among them that a template never has two invoices for one day. |
| LedgerInvariants.CreateKeeps | services/billing/src/invoices/services.ts:213-270 | Creating a draft keeps every whole-state invariant. |
| LedgerInvariants.UpdateKeeps | services/billing/src/invoices/services.ts:303-339 | Updating a draft keeps every whole-state invariant: totals stay the sums of the stored lines. |
| LedgerInvariants.RemoveKeeps | services/billing/src/invoices/services.ts:341-361 | Deleting a draft keeps every whole-state invariant: no gap, no dangling link, no orphaned payment. |
| LedgerInvariants.MarkOverdueKeeps | services/billing/src/invoices/repository.ts:322-328 | Marking any of the matching rows overdue keeps every whole-state invariant. |
| LedgerInvariants.PayKeeps | services/billing/src/payments/service.ts:52-137 | Booking a payment keeps every whole-state invariant: paid implies that the payment rows cover the total. |
| LedgerInvariants.StepKeeps | services/billing/src/invoices/services.ts:213-783 | Every transaction keeps every whole-state invariant (rows and totals, numbers, links, payments, outbox, templates, fees). |
| LedgerInvariants.RunKeeps | services/billing/src/invoices/services.ts:213-783 | So does every run of transactions. |
| LedgerRules.PaidIsSum | services/billing/src/payments/repository.ts:81-89 | The paid sum of an invoice is the sum over the tenant's payment rows of it. |
| LedgerRules.TotalsAddUp | services/billing/src/domain/vat.ts:78-96 | Each of the three totals of an invoice is the sum of that amount over its items. |
| LedgerRules.ItemsPrice | services/billing/src/domain/vat.ts:27-69 | Each item is its line with both amounts rounded to the nearest öre, a half going up, the VAT on the rounded amount. |
| LedgerRules.AcceptableIff | services/billing/src/invoices/schema.ts:20-34 | The request schema lets through one to two hundred lines, each within 100 000 units and 1 000 000 kronor, at 0, 6, 12 or 25 per cent. |
| LedgerRules.CreateRule | services/billing/src/invoices/services.ts:213-270 | A draft is made exactly from acceptable lines, issued today or before and due then or later; it is the tenant's and the customer's, with one priced item per line, and nothing else changes. |
| LedgerRules.UpdateDemands | services/billing/src/invoices/services.ts:303-339 | Exactly the drafts of the tenant are updated, with acceptable lines or none. |
| LedgerRules.UpdateDoes | services/billing/src/invoices/services.ts:303-339 | What is given is replaced, what is left out stays, the totals are those of the lines, and nothing else changes. |
| LedgerRules.RemoveRule | services/billing/src/invoices/services.ts:341-361 | Exactly the drafts of the tenant without a payment row are deleted, with their items and nothing else. |
| LedgerRules.SendDemands | services/billing/src/invoices/services.ts:363-422 | Exactly the drafts of a tenant with complete sender details are sent. |
| LedgerRules.SendDoes | services/billing/src/invoices/services.ts:363-422 | Sending takes the next number with its OCR, moves the series on by one, writes the event, and changes nothing of the invoice but number, OCR and status. |
| LedgerRules.CreditDemands | services/billing/src/invoices/services.ts:424-512 | Exactly the sent, overdue and paid plain invoices of a tenant with complete sender details are credited. |
| LedgerRules.CreditDoes | services/billing/src/invoices/services.ts:424-512 | A settled credit note of the same customer, numbered, dated today, with quantities and amounts of every line negated and prices and rates kept; the original is credited and nothing else changes. |
| LedgerRules.RemindDemands | services/billing/src/invoices/services.ts:600-651 | A reminder is made exactly for a sent or overdue plain invoice of the tenant with something left to pay (below 2^53 öre, like the fee) and complete sender details; without the first two nothing is done. |
| LedgerRules.RemindDoes | services/billing/src/invoices/services.ts:600-691 | A numbered reminder of the same customer over two VAT-free units, what was left to pay and the fee, due its terms after today; the original is superseded by it and nothing else changes. |
| LedgerRules.GenerateDemands | services/billing/src/invoices/services.ts:710-783 | Exactly an active template of the tenant whose day has come is invoiced, given complete sender details and computable lines; otherwise nothing is done. |
| LedgerRules.GenerateDoes | services/billing/src/invoices/services.ts:710-783 | The template's customer gets a numbered invoice with one priced item per template line, dated on the day the template stood at; the template moves on by its period, and nothing else changes. |
| LedgerRules.AddTemplateRule | services/billing/src/invoices/services.ts:789-821 | A template is made exactly from acceptable lines, first due today or later; it is the customer's, stands at that day and is anchored on its day of the month. |
| LedgerRules.MarkOverdueRule | services/billing/src/invoices/repository.ts:322-328 | A sweep marks exactly the tenant's sent rows it reaches whose due date lies before today, by day number, and changes nothing else. |
| LedgerRules.PayDemands | services/billing/src/payments/service.ts:52-85 | An event is skipped exactly if it has been processed, and booked exactly if it is new and its invoice is the tenant's. |
| LedgerRules.PayDoes | services/billing/src/payments/service.ts:103-137 | The payment joins the rows unless the tenant has its id, the invoice is paid exactly if it was sent or overdue and the rows leave nothing to pay, and nothing else changes. |
| LedgerRules.ConfigureRule | services/billing/src/company-settings/repository.ts:20-52 | A settings update sets details and fee of the tenant and leaves its number series where it was, or at 1. |
| LedgerHistory.StepEvolves | services/billing/src/invoices/services.ts:303-691 | Every transaction moves each invoice along an edge of the status order or leaves its status, and only drafts disappear. |
| LedgerHistory.AtMostFourTransitions | services/billing/src/invoices/services.ts:303-691 | Over any run an invoice changes status at most four times. |
| LedgerHistory.SentIsFrozen | services/billing/src/invoices/services.ts:303-339 | Over any run a numbered invoice keeps its number, OCR, kind, dates, totals and lines. |
| LedgerHistory.GoneForever | services/billing/src/invoices/services.ts:341-361 | A deleted id never comes back. |
| LedgerHistory.GapFreeNumbering | services/billing/src/invoices/services.ts:196-210 | After any run the numbers of a tenant are exactly 1 to next - 1, each on one invoice, and a row is unnumbered exactly if it is a draft. |
| LedgerHistory.OcrIsUnique | packages/shared/src/ocr/index.ts:31-39 | Two invoices of a tenant never share an OCR. |
| LedgerHistory.RemindedAtMostOnce | services/billing/src/invoices/services.ts:600-691 | In any reachable state an invoice has at most one reminder, and exactly if it is superseded and points to it. |
| LedgerHistory.ChainsAreShort | services/billing/src/invoices/services.ts:600-651 | A reminder is never itself superseded: chains have length one at most. |
| LedgerHistory.CreditNoteCancels | services/billing/src/invoices/services.ts:424-476 | A credit note and its original add up to zero in quantity and amounts on every line, at the same price and rate, and in every total. |
| LedgerHistory.CreditedExactlyOnce | services/billing/src/invoices/services.ts:424-512 | An invoice is credited exactly if it has a credit note, and then it has exactly one. |
| LedgerHistory.StepAnnounces | packages/shared/src/outbox/index.ts:43-51 | A committed transaction that takes a number writes exactly one event, of its own kind, in the same transaction, and no other transaction writes any. |
| LedgerHistory.OutboxAnnounces | services/billing/src/invoices/services.ts:363-783 | In every reachable state the outbox holds exactly one event per numbered invoice, of the kind the invoice is. |
| LedgerHistory.ReminderDue | services/billing/src/invoices/services.ts:630-648 | A reminder is issued on the day it is made and due its terms later by the calendar. |
| LedgerHistory.GeneratedDue | services/billing/src/invoices/services.ts:725-731 | A generated invoice is dated on its scheduled day, whenever the job ran, and due its terms later. |
| LedgerHistory.ResolveCurrent | services/billing/src/invoices/services.ts:118-128 | On any table, cyclic ones included, the guarded loop ends at the last row of a walk that visits no row twice. |
| LedgerHistory.ResolvesToCurrent | services/billing/src/invoices/services.ts:118-128 | On reachable tables it ends at the row itself or its reminder, which is never superseded and has the same customer. |
| LedgerMoney.StepBalances | services/billing/src/portal/repository.ts:70-85 | Every transaction changes what a customer owes by exactly what it issues and charges less what it pays and credits while open. |
| LedgerMoney.ReminderAddsFee | services/billing/src/invoices/services.ts:600-651 | A reminder changes the customer's outstanding sum by exactly the fee. |
| LedgerMoney.PayBalances | services/billing/src/payments/service.ts:52-137 | A payment on an open invoice lowers the outstanding sum by its amount, capped at the remainder when it closes the invoice. |
| LedgerMoney.RunBalances | services/billing/src/portal/repository.ts:70-85 | The same over any run, as the difference of two account summaries. |
| LedgerMoney.LedgerIdentity | services/billing/src/portal/repository.ts:70-85 | Issued + fees = outstanding + applied while open + credited while open + booked before sending, per customer, over any run. |
| LedgerMoney.PrepaidIffPaidDraft | services/billing/src/invoices/services.ts:363-422 | The term booked before sending is zero for a step exactly if it does not send a draft with payments. |
| LedgerMoney.PlainIdentityIff | services/billing/src/portal/repository.ts:70-85 | The identity without that term holds exactly for the runs that never send a draft on which a payment is already booked. |
| LedgerPayments.PrepaidRunExists | services/billing/src/payments/service.ts:86-109 | A run of four transactions, a payment on a draft among them, for which the plain identity fails. |
| LedgerPayments.ApplyClosesCovered | services/billing/src/payments/repository.ts:98-106 | No booking leaves its invoice open with payments covering the total, and it closes one only if they do. |
| LedgerPayments.DeliveriesApplied | services/billing/src/payments/service.ts:52-137 | Any history that delivers the events of an open invoice, each any number of times and among any sweeps and any other transactions that leave the invoice alone, books each distinct payment once; the invoice is paid exactly if something was delivered and the sum covers its total, and otherwise overdue exactly if it was or a sweep found it past its due date. |
| LedgerPayments.OrderDoesNotMatter | services/billing/src/payments/service.ts:63-135 | Two such histories that deliver the same payments, in any order, with any repeats and with different transactions in between, leave the same paid sum and the same invoice row; only an invoice that stays open can be overdue after one and not after the other, if just one had a sweep. |
| TransactionPlans.PlanIsNext | services/billing/src/invoices/services.ts:196-783 | The writes a transaction makes under its locks add up to its effect as a whole, provided what it read still stands. |
| TransactionPlans.Untouched | services/billing/src/invoices/services.ts:196-783 | A transaction changes nothing that can be read under a key outside its own locks and its own new row. |
| TransactionPlans.StaysDecided | services/billing/src/payments/repository.ts:33-79 | Once an event id or payment id is committed, every later transaction finds it committed. |
| Serializability.CommitIsNext | services/billing/src/invoices/services.ts:363-783 | In every reachable state a commit has the effect of the whole transaction on the tables of that moment. |
| Serializability.CommitKeepsSlice | services/billing/src/invoices/repository.ts:201-206 | No row another transaction has read under its lock changes when a transaction commits. |
| Serializability.Serializable | services/billing/src/invoices/services.ts:196-783 | Under any interleaving of lock, read, write, commit and rollback the tables are those of the committed transactions run in commit order, and all invariants hold. |
| Serializability.InterleavedNumbersGapFree | services/billing/src/company-settings/repository.ts:59-78 | Numbering stays gap-free under any interleaving and any rollback. |
| Serializability.InterleavedIdentity | services/billing/src/portal/repository.ts:70-85 | The ledger identity holds over the committed transactions of any interleaving. |
| Serializability.InterleavedPaymentsApplied | services/billing/src/payments/service.ts:55-136 | The same over any interleaving of lock, read, write, commit and rollback, for the transactions that committed since the invoice was open and unpaid. |
| Serializability.InterleavedPaymentsCommute | services/billing/src/payments/service.ts:63-135 | Two interleavings that commit the same payments leave the same paid sum and, but for a sweep over an invoice that stays open, the same invoice row. |
| Serializability.DeadlocksAreBulk | services/billing/src/invoices/services.ts:363-783 | Locks are taken in a fixed order, so a cycle of waiting transactions can only consist of bulk overdue updates. |
| Billing.BillingDb.AllocateNumber | services/billing/src/invoices/services.ts:196-210 | Creates the settings row if missing, and takes and counts on the number, or none if the sender details are incomplete. |
| Billing.BillingDb.LockForUpdate | services/billing/src/company-settings/repository.ts:59-69 | Reads the tenant's settings, creating the default row if there is none. |
| Billing.BillingDb.CreateInTx | services/billing/src/invoices/services.ts:213-270 | From the customer on, the statements leave exactly the tables of the whole transaction, or those before it. |
| Billing.BillingDb.UpdateDraft | services/billing/src/invoices/services.ts:303-339 | The same for updating a draft, without its date checks: lines left out keep the stored items and totals. |
| Billing.BillingDb.RemoveDraft | services/billing/src/invoices/services.ts:341-361 | The same for deleting a draft. |
| Billing.BillingDb.SendInTx | services/billing/src/invoices/services.ts:363-422 | The same for sending, the rollback of a half-done transaction included. |
| Billing.BillingDb.CreditInTx | services/billing/src/invoices/services.ts:424-512 | The same for crediting. |
| Billing.BillingDb.CreateReminderInTx | services/billing/src/invoices/services.ts:600-691 | The same for reminding, with the paid sum computed by a loop over the rows. |
| Billing.BillingDb.GenerateFromTemplateInTx | services/billing/src/invoices/services.ts:710-783 | The same for generating from a template. |
| Billing.BillingDb.CreateTemplateInTx | services/billing/src/invoices/services.ts:789-821 | The same for creating a template, anchored on the day of its first date. |
| Billing.BillingDb.SumPayments | services/billing/src/invoices/repository.ts:307-314 | The loop sums exactly the payment rows of the invoice and the tenant. |
| Billing.BillingDb.ApplyPayment | services/billing/src/payments/service.ts:52-137 | Marks the event, books the payment and closes the invoice, all or nothing, and reports truly what it did. |
| Billing.BillingDb.InsertPayment | services/billing/src/payments/repository.ts:67-79 | Adds the row unless the tenant already has the payment id, and says which. |
| Billing.BillingDb.SetPaidIfCovered | services/billing/src/payments/repository.ts:98-106 | Closes an open invoice whose sum covers the total and touches no other. |
| Billing.BillingDb.MarkOverdueBulk | services/billing/src/invoices/repository.ts:322-328 | Marks every sent row past its due date and no other, and counts them. |
| Billing.DueRowsChange | services/billing/src/invoices/repository.ts:322-328 | The rows it counts are exactly those whose status it changes. |
| Billing.BillingDb.ResolveByOcr | services/billing/src/invoices/services.ts:526-545 | Finds the only invoice with the OCR, follows it to the invoice that is never superseded, and gives the remaining debt there; nothing exactly if there is none. |
| Billing.BillingDb.Resolve | services/billing/src/invoices/services.ts:553-570 | The same from an id. |
| Automation.CatchUp | services/billing/src/automation/service.ts:88-117 | Generates at most 36 invoices, all from this template; unless an attempt fails or the cap is hit the template is no longer due, and an attempt fails only if it is lost or the template cannot be invoiced. |
| Automation.ListReminderCandidates | services/billing/src/invoices/repository.ts:337-348 | The candidates are exactly the rows of the query. |
| Automation.UnremindedIff | services/billing/src/invoices/repository.ts:337-348 | In reachable tables an invoice is one that gets a reminder exactly if it is a sent or overdue plain invoice with something left to pay whose due date lies before today, by day number. |
| Automation.RemindOne | services/billing/src/automation/service.ts:65-80 | One candidate in its own transaction; whatever it does makes no new candidate. |
| Automation.SendReminders | services/billing/src/automation/service.ts:63-86 | If no reminder fails, no overdue invoice with something left to pay is left; every reminder made is for such an invoice in the tables it met, at its customer's terms. |
| Automation.GenerateDue | services/billing/src/automation/service.ts:88-117 | If no attempt fails and no template hits the cap, no template of the tenant is due any more; every invoice generated was due in the tables it met, and no invoice there before has changed. |
| Automation.RunForTenant | services/billing/src/automation/service.ts:44-155 | A nightly run, any query or transaction of which may be lost, is a run of the ledger: its sweep, its reminders, all of them for invoices past due, its generated invoices, all of them due, with true counters; without an error no overdue invoice it found has anything left to pay unreminded, and without a cap no template stays due. |
| Automation.RunNights | services/billing/src/automation/service.ts:88-117 | The job on any days in order, losses, failures and cap hits included: if the last run has none, the template has exactly one invoice for each period date up to that day. |
| Schedule.StepReaches | services/billing/src/invoices/services.ts:710-783 | Only generating from a template moves it, by one period and only when that period has come; everything else leaves its series alone. |
| Schedule.HistoryReaches | services/billing/src/automation/service.ts:88-117 | After any history of transactions the template stands at some period whose predecessors have all come and are all invoiced. |
| Schedule.OneInvoicePerPeriod | services/billing/src/automation/service.ts:88-117 | Whatever days the job ran on and whatever else happened, once the template is no longer due there is exactly one invoice for each period date up to that day, and none besides. |
| Schedule.ScheduleDoesNotMatter | services/billing/src/automation/service.ts:88-117 | Two different schedules caught up to the same day have generated the same periods. |
| Schedule.NewTemplateReached | services/billing/src/invoices/services.ts:789-821 | A template just created stands at its first period. |
| Cron.UtcInstant | packages/shared/src/cron/index.ts:169-200 | The three-step loop over calendar fields computes the fixed point of the target in milliseconds, or fails. |
| Cron.NextDailyRunAt | packages/shared/src/cron/index.ts:35-46 | Targets the hour on the same local day if it is still to come, otherwise on the next. |
| Cron.SearchFindsExactly | packages/shared/src/cron/index.ts:169-200 | With at most one transition near, the search succeeds exactly if the clock ever shows the wall time, and its result reads back as exactly that. |
| Cron.SearchResult | packages/shared/src/cron/index.ts:169-200 | Which of the two readings around a transition the search settles on. |
| Cron.NextIsLaterIff | packages/shared/src/cron/index.ts:35-46 | The next run is later than now exactly unless now is in the second pass of an overlap whose first pass was chosen. |
| Cron.NextCanBeEarlier | packages/shared/src/cron/index.ts:35-46 | It can be earlier: under the former rule of St. John's, at 23:30 of the second pass, the midnight found lies half an hour back. |
| Cron.EarlierIsRare | packages/shared/src/cron/index.ts:35-46 | It takes a zone west of Greenwich, and a clock that does not go back from a full hour to the full hour before. |
| Cron.UnambiguousIsLater | packages/shared/src/cron/index.ts:35-46 | A wall time that no transition shows twice is always ahead. |
| Cron.StartIsOnTimeIff | packages/shared/src/cron/index.ts:71-76 | The timer starts a run at the hour it waits for exactly unless it looks in the second pass of an overlap whose first pass was chosen; then it starts at once, before the hour. |
| Cron.DueDates | packages/shared/src/cron/index.ts:71-87 | Whatever the runs do, run k waits for the hour k local dates after the first one, one more for each whole day by which earlier runs overran, one less for each that ended before the hour it had waited for. |
| Cron.NextRunIsNextDayIff | packages/shared/src/cron/index.ts:71-87 | After a run at the hour the next one is at the hour one local day later exactly if the job took less than a day by the wall clock, the clock did not end up behind its start, and the job did not end in such a second pass. |
| Cron.RunsAreConsecutiveDays | packages/shared/src/cron/index.ts:71-87 | All runs are at the hour on consecutive local dates exactly if the timer was not set up in such a second pass and every run but the last meets that condition. |
| Cron.RunsAgainAtOnce | packages/shared/src/cron/index.ts:71-87 | Three runs for one midnight under the former rule of St. John's: a job that ends in the second pass is started again at once. |
| Cron.RunsTwiceADay | packages/shared/src/cron/index.ts:71-87 | A job of less than a day that ends in the second pass is followed at once by a run on the local date on which it had started. |
| Cron.RunsMoveOn | packages/shared/src/cron/index.ts:35-46 | An instant that shows the hour one day after another is later in time unless the clock goes back a whole day. |
| Cron.AddOneIsNextDay | packages/shared/src/cron/index.ts:146-153 | addOneUtcDay of a date is the date of the next day number. |
| Cron.ThreeOClockIsSafe | packages/shared/src/cron/index.ts:1-21 | Under the Swedish rule 03:00 exists exactly once on every day, so the next run always exists and is later. |
| Cron.SwedishRuns | packages/shared/src/cron/index.ts:1-21 | Under the Swedish rule every run of the nightly job starts at 03:00 sharp, on consecutive dates exactly if each job but the last took less than a day by the wall clock. |
| CanonicalProofs.ReadsBack | services/billing/src/idempotency.ts:63-71 | A JSON reader (RFC 8259) applied to a canonical text gives the value back, keys in order, and stops where the text stops. |
| CanonicalProofs.StringReads | services/billing/src/idempotency.ts:64-64 | Reading a quoted string, escapes and lone surrogates included, gives the string back (section 7 of RFC 8259). |
| CanonicalProofs.SortedFacts | services/billing/src/idempotency.ts:66-68 | The entries are sorted strictly by key and are the same members. |
| CanonicalProofs.TextLessIff | services/billing/src/idempotency.ts:66-68 | Keys are ordered by the first code unit in which they differ, a proper prefix coming first. |
| CanonicalProofs.Example | services/billing/src/idempotency.ts:63-71 | One object, printed character by character. |
| CanonicalProofs.CanonicalIffSame | services/billing/src/idempotency.ts:63-71 | Two JSON values have the same canonical text exactly if they are equal up to the order of object keys at every depth. |
| Idempotency.StepKeeps | services/billing/src/idempotency.ts:83-185 | Every step of the protocol, crashes, purges and commits whose answer is lost included, keeps its invariants. |
| Idempotency.UnsureCleanUp | services/billing/src/idempotency.ts:107-120 | When the commit succeeded but the caller was told of an error, the cleanup that follows deletes nothing. |
| Idempotency.OneCommitPerLifetime | services/billing/src/idempotency.ts:83-185 | Two commits on one key are of different requests, and the later one claimed the key after the earlier one had expired. |
| Idempotency.KeysLiveADay | services/billing/src/idempotency.ts:37-42 | Every committed key expires at most 24 hours, and at least ten minutes, after its claim. |
| Idempotency.KeysLiveFromArrival | services/billing/src/idempotency.ts:132-137 | A committed key expires 24 hours to the millisecond after the request that committed it arrived. |
| Idempotency.CommittedIsSettled | services/billing/src/idempotency.ts:98-104 | Within the lifetime of a committed key its row is completed with that response and nobody holds a claim on it. |
| Idempotency.SettledAnswers | services/billing/src/idempotency.ts:143-168 | On such a key the same endpoint and hash are replayed and anything else is refused. |
| Idempotency.ReplayedForADay | services/billing/src/idempotency.ts:143-168 | For those 24 hours the same endpoint and hash are answered with the committed response and anything else is refused, in every run. |
| Idempotency.RunsOnlyOwn | services/billing/src/idempotency.ts:151-182 | In every run a request starts its work only on a free key, or on an unfinished claim of its own endpoint that is at least ten minutes old. |
| Idempotency.ReplayIffSameBody | services/billing/src/idempotency.ts:59-71 | A request is replayed exactly if endpoint and body are the same up to key order. |
| Idempotency.RepliesAreCommitted | services/billing/src/idempotency.ts:148-168 | A completed row is committed work; every replay and every fresh answer is the response of a commit of the same request. |
| KeyTable.Store.Claim | services/billing/src/idempotency.ts:126-185 | Claims, refuses or replays exactly as the row and its age decide. |
| KeyTable.Store.WithIdempotency | services/billing/src/idempotency.ts:83-122 | One whole request: the table and the answer afterwards, for work that succeeds, work that throws and work whose commit is reported as an error. |
| KeyTable.HandledRule | services/billing/src/idempotency.ts:83-185 | Every case of a request by the row it meets: another endpoint is refused whatever the state and age, a completed row replays the same body and refuses another, a claim is respected for ten minutes and then taken over, and work done is kept for 24 hours. |
| KeyTable.HandledIsRun | services/billing/src/idempotency.ts:83-185 | At any state of the protocol one undisturbed request is a run of it, with the table and the answer of the sequential service. |
| KeyTable.RetryReplays | services/billing/src/idempotency.ts:83-122 | A retry of completed work changes nothing and gets the response of the first attempt, even if the first attempt was told of an error. |
| KeyTable.FailureIsForgotten | services/billing/src/idempotency.ts:107-120 | A retry after failed work on a new key is as if the first attempt had not been made. |
| Outbox.BackoffShape | packages/shared/src/outbox/index.ts:82-84 | Waits never get shorter, double for the first nine failures, and are an hour exactly from the eleventh failure on. |
| Outbox.BackoffTable | packages/shared/src/outbox/index.ts:82-84 | The waits are 5, 10, 20, 40, 80, 160, 320, 640, 1280 and 2560 seconds and an hour from then on. |
| Outbox.Batch | packages/shared/src/outbox/index.ts:103-113 | The first twenty due, pending, unlocked rows in order: one that is left out comes after twenty that are not. |
| Outbox.BatchRule | packages/shared/src/outbox/index.ts:103-113 | At most twenty pending, due, unlocked rows in order; one is left out only after twenty others. |
| Outbox.Table.Select | packages/shared/src/outbox/index.ts:103-113 | The loop selects exactly the batch. |
| Outbox.Table.Tick | packages/shared/src/outbox/index.ts:99-165 | Rows up to the first timeout take their answers, no other row changes, and the events reported dead are the twelfth failures. |
| Outbox.AppliedAt | packages/shared/src/outbox/index.ts:117-155 | Each row tried has its own answer and every other row is as it was. |
| Outbox.AttemptRule | packages/shared/src/outbox/index.ts:117-155 | A confirmed row is published; one that is not is given up at its twelfth failure and otherwise due again after its backoff. |
| Outbox.RoundRule | packages/shared/src/outbox/index.ts:114-155 | A row of the batch keeps its place and state exactly if an earlier one of the batch timed out; otherwise it takes its answer. |
| Outbox.DeadRule | packages/shared/src/outbox/index.ts:133-142 | The events reported dead are those tried, not confirmed, and failed eleven times before. |
| Outbox.StopsOnce | packages/shared/src/outbox/index.ts:116-117 | There is only one place where a round can stop. |
| Outbox.RoundIsRun | packages/shared/src/outbox/index.ts:99-165 | A round, committed or rolled back after any number of attempts, is a run of sender steps of the pipeline, so what holds there of every run holds of the publisher. |
| Outbox.GivenUpAtTwelve | packages/shared/src/outbox/index.ts:133-142 | A row is given up at its twelfth failure and not before. |
| Outbox.GivenUpNotBefore | packages/shared/src/outbox/index.ts:82-84 | It is never given up within 8715 seconds of its first attempt. |
| Broker.StepKeepsOk | services/billing/src/payments/consumer.ts:71-167 | Every step of sender, broker, consumer or billing keeps the invariants of the pipeline. |
| Broker.ExactlyOnce | services/billing/src/payments/service.ts:52-137 | In every run each event takes effect at most once, each tenant and payment id is in the ledger at most once, and the rows are exactly the payments of the events that took effect. |
| Broker.BookedIsApplied | services/billing/src/payments/service.ts:111-117 | The booked sum of an invoice is the sum over its distinct applied payments. |
| Broker.NothingIsLost | services/billing/src/payments/consumer.ts:71-167 | A payment that reached the broker, schema-valid or not even parsable, is a queued copy, an unanswered delivery, a dead letter or a committed effect, and no copy has three attempts. |
| Consumer.OutcomeIsActs | services/billing/src/payments/consumer.ts:90-167 | Every branch of the handler (schema error, content that does not parse, booked, failed before or after the commit) is a run of consumer acts of the protocol. |
| Consumer.NonconformingIsDropped | services/billing/src/payments/consumer.ts:126-131 | Content that violates a schema is acknowledged and changes nothing. |
| Consumer.PaymentIsAcknowledged | services/billing/src/payments/consumer.ts:93-125 | A payment whose event has been processed, or whose invoice is the tenant's, is acknowledged and queued or dead-lettered nowhere; it is booked if its event is new and changes nothing if not. |
| Consumer.FailureIsRetried | services/billing/src/payments/consumer.ts:132-167 | An unparsable message, an unknown invoice or a failed transaction leads to the dead letters at the third attempt, and before that to a copy with one more attempt, acknowledged only if confirmed. |
| Consumer.LostAnswerIsBooked | services/billing/src/payments/service.ts:52-137 | A booking whose commit is reported as an error is in the ledger like one that is not. |
| Consumer.PaymentConsumer.OnMessage | services/billing/src/payments/consumer.ts:90-167 | The handler leaves the ledger and the broker in the state of its branch. |
| Consumer.PaymentConsumer.RepublishWithAttempt | services/billing/src/payments/consumer.ts:71-88 | The original is acknowledged only if the copy was confirmed. |
| Deliveries.Service.AdvanceDeliveryStatus | services/billing/src/deliveries/repository.ts:55-66 | Writes the status only for the tenant's invoice and only if it ranks above the current one; an unranked status is never written. |
| Deliveries.Service.Apply | services/billing/src/deliveries/service.ts:39-77 | One report: the tables afterwards, and true answers about what changed. |
| Deliveries.ReportRule | services/billing/src/deliveries/service.ts:39-77 | One new report writes its status exactly if it stands later in the shared order than the current one, and turns the address off exactly by a permanent bounce. |
| Deliveries.UnrankedRule | services/billing/src/deliveries/repository.ts:55-66 | A status outside the order, or an invoice of another tenant, changes no status. |
| Deliveries.ReportsConverge | services/billing/src/deliveries/service.ts:39-77 | After any sequence of reports each status is the highest-ranked of the first and the reported ones, and an address is valid exactly if it was and no hard bounce concerned the customer. |
| Deliveries.EveryChangeRises | services/billing/src/deliveries/repository.ts:55-66 | Every change of a status is a strict rise in the shared order. |
| Deliveries.StatusRises | services/billing/src/deliveries/repository.ts:55-66 | A report moves a status only to a later place in the order. |
| Deliveries.LastIsLatest | services/billing/src/deliveries/service.ts:39-77 | After any reports neither the first status nor any reported one stands later in the order than the last, which is one of them. |
| Deliveries.AddressesAfter | services/billing/src/deliveries/service.ts:60-72 | After any reports an address is good exactly if it was and no permanent bounce of the tenant's mail to that customer was reported. |
| Deliveries.OrderDoesNotMatter | packages/contracts/src/delivery-rank.ts:13-28 | The order and the number of deliveries of the reports make no difference to any table. |

## Left out

- Customers: payment terms come in as a number of days, customer rows are not locked or changed, and an invoice
  created together with its customer is modelled from the invoice on.
- Descriptions, units, currency, snapshots, e-mail addresses other than their validity flag, and the audit log.
- Editing, deactivating and deleting templates: an edit reads the template without a lock, so schedule
  independence is stated for templates that are not edited.
- Tenant status, the loop over all active tenants, the deletion of expired keys as part of the nightly job (it is a
  step of the protocol instead), and the deletion of published outbox rows after thirty days.
- What the daily timer does once the search for its next run has thrown: it sets no further one.
- Binary floating point: quantities are taken as integers in thousandths, and 2^53 enters as a bound.
- `undefined` inside a request body, which JSON cannot carry; numbers in a body are taken as the text that
  Number::toString gives them.
- Taking over a stale claim eventually succeeding: timestamps lose precision on the way, so only safety is proved.
- No-loss for delivery reports and for the Python consumer: neither confirms a republished copy before it
  acknowledges the original.
- Bank matching, file import, webhooks, the payments admin queue, documents, e-mail, portal pages, authentication,
  configuration, HTTP routes and deployment.
- Years above 9999 in the string forms of dates, and strings that pass through the years 0 to 99 on the way.
- Serializability.DeadlocksAreBulk: says where a cycle of waiting can be, not that the database resolves one.
- Billing.BillingDb.CreateInTx: begins after the customer has been looked up or created in the same transaction, because customers are not modelled.
- Billing.BillingDb.UpdateDraft: leaves out the comparison of issue and due date, because stored dates come back as Date objects and the comparison with strings is not the intended one.
