/**
 Recurring invoices: whatever days the nightly job runs on, a template ends up with exactly one invoice for
 each period date that has come.
 */
module Schedule {
  import opened Wrappers
  import opened Dates
  import opened Ledger
  import opened LedgerInvariants

  /** How often and from when on a template invoices. */
  datatype Plan = Plan(tenant: nat, template: nat, first: Date, interval: Interval)

  predicate IsPlan(p: Plan) {
    IsValid(p.first) && p.first.year >= 100
  }

  function Period(p: Plan, n: nat): Date {
    PeriodDate(p.first, p.interval, n)
  }

  /** Invoice i was generated for period k of the plan. */
  ghost predicate ForPeriod(db: Db, p: Plan, i: nat, k: nat) {
    i in db.invoices && db.invoices[i].template == Some(p.template) && db.invoices[i].issued == Period(p, k)
  }

  ghost predicate HasPeriod(db: Db, p: Plan, k: nat) {
    exists i :: ForPeriod(db, p, i, k)
  }

  ghost predicate IsSomePeriod(p: Plan, n: nat, d: Date) {
    exists k: nat :: k < n && d == Period(p, k)
  }

  /** The template stands at period n, and its invoices are those of the periods before. */
  ghost predicate Reached(db: Db, p: Plan, n: nat) {
    && p.template in db.templates
    && (var tpl := db.templates[p.template];
        && tpl.active && tpl.tenant == p.tenant && tpl.interval == p.interval
        && tpl.billingDay == p.first.day && tpl.next == Period(p, n))
    && (forall k: nat :: k < n ==> HasPeriod(db, p, k))
    && (forall i :: i in db.invoices && db.invoices[i].template == Some(p.template) ==>
          IsSomePeriod(p, n, db.invoices[i].issued))
  }

  // ---- Every transaction keeps the plan ----------------------------------------------------------------

  /** The template's invoices keep their dates and no other row joins them. */
  ghost predicate SameSeries(db: Db, after: Db, p: nat) {
    && p in db.templates && p in after.templates && after.templates[p] == db.templates[p]
    && (forall i :: i in db.invoices && db.invoices[i].template == Some(p) ==>
          && i in after.invoices && after.invoices[i].template == Some(p)
          && after.invoices[i].issued == db.invoices[i].issued)
    && (forall i :: i in after.invoices && after.invoices[i].template == Some(p) ==>
          i in db.invoices && db.invoices[i].template == Some(p))
  }

  lemma SeriesKept(db: Db, after: Db, p: Plan, n: nat)
    requires Reached(db, p, n) && SameSeries(db, after, p.template)
    ensures Reached(after, p, n)
  {
    forall k: nat | k < n ensures HasPeriod(after, p, k) {
      assert HasPeriod(db, p, k);
      var i :| ForPeriod(db, p, i, k);
      assert ForPeriod(after, p, i, k);
    }
  }

  lemma CreateKeepsSeries(db: Db, op: Op, p: nat)
    requires RowsOk(db) && Enabled(db, op) && p in db.templates && op.OpCreate?
    ensures SameSeries(db, Next(db, op), p)
  {
    hide TotalsOf, ToItems, Ocr.DeriveOcr, Vat.Computable, Before, ItemsOf, ShapeOk;
  }

  lemma DraftsKeepSeries(db: Db, op: Op, p: nat)
    requires RowsOk(db) && p in db.templates && (op.OpUpdate? || op.OpRemove?)
    ensures SameSeries(db, Next(db, op), p)
  {
    hide TotalsOf, ToItems, HasPaymentFor, Ocr.DeriveOcr, Vat.Computable, Before, ItemsOf;
    if op.id in db.invoices {
      DraftHasNoTemplate(db.invoices[op.id]);
      hide ShapeOk;
    }
  }

  lemma DraftHasNoTemplate(row: Invoice)
    requires ShapeOk(row)
    ensures row.status == Draft ==> row.template.None?
  {
  }

  lemma NumbersKeepSeries(db: Db, op: Op, p: nat)
    requires RowsOk(db) && Enabled(db, op) && p in db.templates && (op.OpSend? || op.OpCredit? || op.OpRemind?)
    ensures SameSeries(db, Next(db, op), p)
  {
    hide TotalsOf, ToItems, CreditItems, PaidOre, Ocr.DeriveOcr, Vat.Computable, AddDaysTo, ShapeOk, ItemsOf;
  }

  lemma GeneratesKeepSeries(db: Db, op: Op, p: nat)
    requires RowsOk(db) && Enabled(db, op) && p in db.templates && op.OpGenerate? && op.id != p
    ensures SameSeries(db, Next(db, op), p)
  {
    hide TotalsOf, ToItems, Ocr.DeriveOcr, Vat.Computable, AddDaysTo, AdvanceByInterval, ShapeOk, Before;
  }

  /** Everything except generating from this template leaves its series alone. */
  lemma OthersKeepSeries(db: Db, op: Op, p: nat)
    requires Inv(db) && Enabled(db, op) && p in db.templates && !(op.OpGenerate? && op.id == p)
    ensures SameSeries(db, Next(db, op), p)
  {
    hide Next, SameSeries, RowsOk, NumbersOk, LinksOk, PaymentsOk, PaidOk, OutboxOk, TemplatesOk, FeesOk;
    match op
    case OpCreate(_, _, _, _, _, _, _) => CreateKeepsSeries(db, op, p);
    case OpUpdate(_, _, _, _, _) => DraftsKeepSeries(db, op, p);
    case OpRemove(_, _) => DraftsKeepSeries(db, op, p);
    case OpGenerate(_, _, _, _, _) => GeneratesKeepSeries(db, op, p);
    case OpSend(_, _) => NumbersKeepSeries(db, op, p);
    case OpCredit(_, _, _, _) => NumbersKeepSeries(db, op, p);
    case OpRemind(_, _, _, _, _) => NumbersKeepSeries(db, op, p);
    case _ => PlainKeepSeries(db, op, p);
  }

  lemma PlainKeepSeries(db: Db, op: Op, p: nat)
    requires Enabled(db, op) && p in db.templates
    requires op.OpMarkOverdue? || op.OpPay? || op.OpConfigure? || op.OpAddTemplate?
    ensures SameSeries(db, Next(db, op), p)
  {
    hide HasPaymentKey, PaidOre, PaidIfCovered, Vat.Computable, Before;
    if op.OpPay? && op.id in db.invoices {
      var payments := WithPayment(db.payments, Payment(op.t, op.id, op.paymentId, op.amount));
      PaidKeepsOrigin(db.invoices[op.id], PaidOre(payments, op.t, op.id));
    }
  }

  lemma PaidKeepsOrigin(row: Invoice, paid: int)
    ensures PaidIfCovered(row, paid).template == row.template && PaidIfCovered(row, paid).issued == row.issued
  {
  }

  /** One more invoice, dated on the period the template stood at. */
  lemma GenerateMovesOn(db: Db, op: Op, p: Plan, n: nat)
    requires Inv(db) && Enabled(db, op) && op.OpGenerate? && op.id == p.template
    requires IsPlan(p) && Reached(db, p, n)
    ensures Apply(db, op).Committed? ==> Reached(Next(db, op), p, n + 1) && !Before(op.today, Period(p, n))
    ensures !Apply(db, op).Committed? ==> Next(db, op) == db
  {
    hide TotalsOf, ToItems, Ocr.DeriveOcr, Vat.Computable, AddDaysTo, AdvanceByInterval, PeriodDate, ShapeOk;
    if Apply(db, op).Committed? {
      var after := Next(db, op);
      PeriodStep(p.first, p.interval, n);
      assert ForPeriod(after, p, op.newId, n);
      forall k: nat | k < n + 1 ensures HasPeriod(after, p, k) {
        if k < n {
          assert HasPeriod(db, p, k);
          var i :| ForPeriod(db, p, i, k);
          assert ForPeriod(after, p, i, k);
        }
      }
      forall i | i in after.invoices && after.invoices[i].template == Some(p.template)
        ensures IsSomePeriod(p, n + 1, after.invoices[i].issued)
      {
        if i != op.newId {
          assert IsSomePeriod(p, n, db.invoices[i].issued);
        }
      }
    }
  }

  // ---- Any history -------------------------------------------------------------------------------------

  /** The template is generated from only by jobs whose date is at most `last`. */
  ghost predicate UpTo(ops: seq<Op>, p: nat, last: Date) {
    forall k :: 0 <= k < |ops| && ops[k].OpGenerate? && ops[k].id == p ==>
      ops[k].today == last || Before(ops[k].today, last)
  }

  /** After any history the template stands at some period, all earlier ones due by `last`. */
  lemma {:induction false} HistoryReaches(db: Db, ops: seq<Op>, p: Plan, n: nat, last: Date) returns (m: nat)
    requires Inv(db) && EnabledRun(db, ops) && IsPlan(p) && Reached(db, p, n) && UpTo(ops, p.template, last)
    requires forall k: nat :: k < n ==> !Before(last, Period(p, k))
    ensures Inv(Run(db, ops)) && Reached(Run(db, ops), p, m) && n <= m
    ensures forall k: nat :: k < m ==> !Before(last, Period(p, k))
    decreases |ops|
  {
    hide Inv, Next, Enabled, Reached, PeriodDate;
    m := n;
    if ops != [] {
      var op, after := ops[0], Next(db, ops[0]);
      StepKeeps(db, op);
      StepReaches(db, op, p, n);
      if op.OpGenerate? && op.id == p.template && Apply(db, op).Committed? {
        assert !Before(last, Period(p, n)) by {
          assert op.today == last || Before(op.today, last);
          StillDue(op.today, last, Period(p, n));
        }
        m := HistoryReaches(after, ops[1..], p, n + 1, last);
      } else {
        m := HistoryReaches(after, ops[1..], p, n, last);
      }
    }
  }

  lemma StillDue(today: Date, last: Date, d: Date)
    requires !Before(today, d) && (today == last || Before(today, last))
    ensures !Before(last, d)
  {
  }

  lemma StepReaches(db: Db, op: Op, p: Plan, n: nat)
    requires Inv(db) && Enabled(db, op) && IsPlan(p) && Reached(db, p, n)
    ensures var moves := op.OpGenerate? && op.id == p.template && Apply(db, op).Committed?;
      && Reached(Next(db, op), p, if moves then n + 1 else n)
      && (moves ==> !Before(op.today, Period(p, n)))
  {
    if op.OpGenerate? && op.id == p.template {
      hide Inv, Enabled, Apply, Next, Reached;
      GenerateMovesOn(db, op, p, n);
    } else {
      OthersKeepSeries(db, op, p.template);
      hide Inv, Enabled, Apply, Next;
      SeriesKept(db, Next(db, op), p, n);
    }
  }

  /** Period k has come by `last` exactly if it has exactly one invoice, and nothing else was generated. */
  ghost predicate OnePerPeriod(db: Db, p: Plan, last: Date) {
    && (forall k: nat :: HasPeriod(db, p, k) <==> !Before(last, Period(p, k)))
    && (forall i, j, k: nat | ForPeriod(db, p, i, k) && ForPeriod(db, p, j, k) :: i == j)
    && (forall i :: i in db.invoices && db.invoices[i].template == Some(p.template) ==>
          exists k: nat :: ForPeriod(db, p, i, k))
  }

  /**
   Schedule independence: take any history, with the job run on whatever days up to `last`, mixed with anything
   else; if the last run left the template no longer due, there is exactly one invoice for each period date
   up to `last`, and none besides.
   */
  lemma OneInvoicePerPeriod(db: Db, ops: seq<Op>, p: Plan, last: Date)
    requires Inv(db) && EnabledRun(db, ops) && IsPlan(p) && Reached(db, p, 0) && UpTo(ops, p.template, last)
    requires !DueTemplate(Run(db, ops), p.tenant, p.template, last)
    ensures OnePerPeriod(Run(db, ops), p, last)
  {
    hide Inv, EnabledRun, Run, PeriodDate;
    var m := HistoryReaches(db, ops, p, 0, last);
    ReachedIsAll(Run(db, ops), p, m, last);
  }

  lemma ReachedIsAll(db: Db, p: Plan, m: nat, last: Date)
    requires Inv(db) && IsPlan(p) && Reached(db, p, m) && Before(last, Period(p, m))
    requires forall k: nat :: k < m ==> !Before(last, Period(p, k))
    ensures OnePerPeriod(db, p, last)
  {
    hide Before, PeriodDate;
    forall k: nat ensures HasPeriod(db, p, k) <==> !Before(last, Period(p, k)) {
      if k >= m {
        LaterPeriod(p, m, k, last);
        NotYet(db, p, m, k);
      }
    }
    forall i, j, k: nat | ForPeriod(db, p, i, k) && ForPeriod(db, p, j, k) ensures i == j {
      assert SamePeriod(db.invoices[i], db.invoices[j]);
    }
    forall i | i in db.invoices && db.invoices[i].template == Some(p.template)
      ensures exists k: nat :: ForPeriod(db, p, i, k)
    {
      assert IsSomePeriod(p, m, db.invoices[i].issued);
      var k: nat :| k < m && db.invoices[i].issued == Period(p, k);
      assert ForPeriod(db, p, i, k);
    }
  }

  lemma LaterPeriod(p: Plan, m: nat, k: nat, last: Date)
    requires IsPlan(p) && m <= k && Before(last, Period(p, m))
    ensures Before(last, Period(p, k))
  {
    hide Before, PeriodDate;
    if m < k {
      PeriodsIncrease(p.first, p.interval, m, k);
      BeforeTransitive(last, Period(p, m), Period(p, k));
    }
  }

  /** A period not yet reached has no invoice: period dates never repeat. */
  lemma NotYet(db: Db, p: Plan, m: nat, k: nat)
    requires IsPlan(p) && Reached(db, p, m) && m <= k
    ensures !HasPeriod(db, p, k)
  {
  }

  /** Two jobs that ran on different days, caught up to the same day, generated the same periods. */
  lemma ScheduleDoesNotMatter(db: Db, p: Plan, last: Date, a: seq<Op>, b: seq<Op>)
    requires Inv(db) && IsPlan(p) && Reached(db, p, 0)
    requires EnabledRun(db, a) && UpTo(a, p.template, last) && EnabledRun(db, b) && UpTo(b, p.template, last)
    requires !DueTemplate(Run(db, a), p.tenant, p.template, last)
    requires !DueTemplate(Run(db, b), p.tenant, p.template, last)
    ensures forall k: nat :: HasPeriod(Run(db, a), p, k) <==> HasPeriod(Run(db, b), p, k)
  {
    OneInvoicePerPeriod(db, a, p, last);
    OneInvoicePerPeriod(db, b, p, last);
  }

  /** A template just made stands at its first period. */
  lemma NewTemplateReached(db: Db, op: Op)
    requires Inv(db) && Enabled(db, op) && op.OpAddTemplate? && Apply(db, op).Committed?
    ensures var p := Plan(op.t, op.newId, op.next, op.interval); IsPlan(p) && Reached(Next(db, op), p, 0)
  {
    hide Vat.Computable, Before, PeriodDate;
    FirstPeriod(op.next, op.interval);
  }
}
