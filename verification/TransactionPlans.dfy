/** The buffered writes of a transaction add up to its effect, and reach only rows it has locked or made. */
module TransactionPlans {
  import opened Wrappers
  import opened Dates
  import opened Ledger
  import opened LedgerInvariants
  import opened Transactions
  import Ocr
  import Vat

  // ---- A plan is the transaction -------------------------------------------------------------------

  /** What was seen under the locks is still what the tables say. */
  ghost predicate Agrees(db: Db, t: nat, seen: Seen) {
    forall k :: k in seen ==> Lockable(db, t, k) && seen[k] == SliceOf(db, t, k)
  }

  ghost predicate ReachedDue(db: Db, req: Op) {
    req.OpMarkOverdue? ==> forall i :: i in req.which ==> OverdueNow(db, req.t, req.today, i)
  }

  /** The tables a transaction leaves behind. */
  function Left(db: Db, o: Outcome): Db {
    if o.Committed? then o.db else db
  }

  lemma ApplySnoc(db: Db, ws: seq<Write>, w: Write)
    ensures ApplyAll(db, ws + [w]) == ApplyWrite(ApplyAll(db, ws), w)
  {
  }

  lemma ApplyNone(db: Db)
    ensures ApplyAll(db, []) == db
  {
  }

  lemma Apply1(db: Db, a: Write)
    ensures ApplyAll(db, [a]) == ApplyWrite(db, a)
  {
  }

  lemma Apply2(db: Db, a: Write, b: Write)
    ensures ApplyAll(db, [a, b]) == ApplyWrite(ApplyWrite(db, a), b)
  {
    hide ApplyWrite;
    assert [a, b] == [a] + [b];
    Apply1(db, a);
    ApplySnoc(db, [a], b);
  }

  lemma Apply3(db: Db, a: Write, b: Write, c: Write)
    ensures ApplyAll(db, [a, b, c]) == ApplyWrite(ApplyWrite(ApplyWrite(db, a), b), c)
  {
    hide ApplyWrite;
    assert [a, b, c] == [a, b] + [c];
    Apply2(db, a, b);
    ApplySnoc(db, [a, b], c);
  }

  lemma Apply5(db: Db, a: Write, b: Write, c: Write, d: Write, e: Write)
    ensures ApplyAll(db, [a, b, c, d, e]) ==
            ApplyWrite(ApplyWrite(ApplyWrite(ApplyWrite(ApplyWrite(db, a), b), c), d), e)
  {
    hide ApplyWrite;
    assert [a, b, c, d, e] == ([a, b, c] + [d]) + [e];
    Apply3(db, a, b, c);
    ApplySnoc(db, [a, b, c], d);
    ApplySnoc(db, [a, b, c] + [d], e);
  }

  lemma CreatePlanned(db: Db, req: Op)
    requires req.OpCreate?
    ensures ApplyAll(db, CreatePlan(req)) ==
            Left(db, Create(db, req.t, req.customer, req.lines, req.issued, req.due, req.today, req.newId))
  {
    hide ApplyAll, TotalsOf, ToItems;
    var plan := CreatePlan(req);
    ApplyNone(db);
    if plan != [] { Apply2(db, plan[0], plan[1]); }
  }

  lemma UpdatePlanned(db: Db, req: Op, s: Slice)
    requires req.OpUpdate? && Visible(db, req.t, req.id) && s == SliceOf(db, req.t, InvoiceKey(req.id)) && RowsOk(db)
    ensures ApplyAll(db, UpdatePlan(req, s)) ==
            Left(db, Update(db, req.t, req.id, req.newLines, req.newIssued, req.newDue))
  {
    hide ApplyAll, TotalsOf, ToItems, PaidOre, HasPaymentFor, ShapeOk;
    var plan := UpdatePlan(req, s);
    ApplyNone(db);
    if |plan| == 1 {
      Apply1(db, plan[0]);
      assert db.items[req.id := ItemsOf(db, req.id)] == db.items;
      assert db.ids + {req.id} == db.ids;
    } else if |plan| == 2 {
      Apply2(db, plan[0], plan[1]);
      assert db.ids + {req.id} == db.ids;
    }
  }

  lemma RemovePlanned(db: Db, req: Op, s: Slice)
    requires req.OpRemove? && Visible(db, req.t, req.id) && s == SliceOf(db, req.t, InvoiceKey(req.id))
    ensures ApplyAll(db, RemovePlan(req, s)) == Left(db, Remove(db, req.t, req.id))
  {
  }

  lemma SendPlanned(db: Db, req: Op, s: Slice, series: Settings)
    requires req.OpSend? && Visible(db, req.t, req.id) && s == SliceOf(db, req.t, InvoiceKey(req.id)) && RowsOk(db)
    requires series == SettingsOf(db, req.t)
    ensures ApplyAll(db, SendPlan(req, s, series)) == Left(db, Send(db, req.t, req.id))
  {
    hide ApplyAll, TotalsOf, PaidOre, HasPaymentFor, ShapeOk, Ocr.DeriveOcr;
    var plan := SendPlan(req, s, series);
    ApplyNone(db);
    if plan != [] {
      Apply3(db, plan[0], plan[1], plan[2]);
      assert db.items[req.id := ItemsOf(db, req.id)] == db.items;
      assert db.ids + {req.id} == db.ids;
    }
  }

  lemma CreditPlanned(db: Db, req: Op, s: Slice, series: Settings)
    requires req.OpCredit? && Visible(db, req.t, req.id) && s == SliceOf(db, req.t, InvoiceKey(req.id))
    requires series == SettingsOf(db, req.t)
    ensures ApplyAll(db, CreditPlan(req, s, series)) == Left(db, Credit(db, req.t, req.id, req.today, req.newId))
  {
    hide ApplyAll, TotalsOf, CreditItems, PaidOre, HasPaymentFor, Ocr.DeriveOcr;
    var plan := CreditPlan(req, s, series);
    ApplyNone(db);
    if plan != [] { Apply5(db, plan[0], plan[1], plan[2], plan[3], plan[4]); }
  }

  lemma RemindPlanned(db: Db, req: Op, s: Slice, series: Settings)
    requires req.OpRemind? && Visible(db, req.t, req.id) && s == SliceOf(db, req.t, InvoiceKey(req.id))
    requires series == SettingsOf(db, req.t)
    ensures ApplyAll(db, RemindPlan(req, s, series)) ==
            Left(db, Remind(db, req.t, req.id, req.today, req.terms, req.newId))
  {
    hide ApplyAll, TotalsOf, ToItems, PaidOre, HasPaymentFor, Ocr.DeriveOcr, Vat.Computable, AddDaysTo;
    var plan := RemindPlan(req, s, series);
    ApplyNone(db);
    if plan != [] { Apply5(db, plan[0], plan[1], plan[2], plan[3], plan[4]); }
  }

  lemma GeneratePlanned(db: Db, req: Op, tpl: Template, series: Settings)
    requires req.OpGenerate? && Lockable(db, req.t, TemplateKey(req.id)) && tpl == db.templates[req.id]
    requires series == SettingsOf(db, req.t)
    ensures ApplyAll(db, GeneratePlan(req, tpl, series)) ==
            Left(db, Generate(db, req.t, req.id, req.today, req.terms, req.newId))
  {
    hide ApplyAll, TotalsOf, ToItems, Ocr.DeriveOcr, Vat.Computable, AddDaysTo, AdvanceByInterval;
    var plan := GeneratePlan(req, tpl, series);
    ApplyNone(db);
    if plan != [] { Apply5(db, plan[0], plan[1], plan[2], plan[3], plan[4]); }
  }

  lemma PayPlanned(db: Db, req: Op, s: Slice, booked: bool)
    requires req.OpPay? && Visible(db, req.t, req.id) && s == SliceOf(db, req.t, InvoiceKey(req.id))
    requires req.eventId !in db.processed && booked == HasPaymentKey(db.payments, req.t, req.paymentId)
    ensures ApplyAll(db, PayPlan(req, s, booked)) ==
            Left(db, Pay(db, req.t, req.eventId, req.id, req.paymentId, req.amount))
  {
    hide ApplyAll, PaidOre, HasPaymentFor, HasPaymentKey, PaidIfCovered;
    var plan := PayPlan(req, s, booked);
    var p := Payment(req.t, req.id, req.paymentId, req.amount);
    PaidOreAppend(db.payments, p, req.t, req.id);
    if booked { Apply2(db, plan[0], plan[1]); } else { Apply3(db, plan[0], plan[1], plan[2]); }
  }

  /** Overwriting the rows reached is the same as updating every row that matches. */
  lemma MarkedRows(db: Db, t: nat, today: Date, rows: map<nat, Invoice>)
    requires forall i :: i in rows ==> OverdueNow(db, t, today, i) && rows[i] == db.invoices[i].(status := Overdue)
    ensures db.invoices + rows == Marked(db, t, today, rows.Keys)
  {
  }

  lemma MarkPlanned(db: Db, req: Op, seen: Seen)
    requires req.OpMarkOverdue? && Reached(req, seen) && ReachedDue(db, req) && Agrees(db, req.t, seen)
    ensures ApplyAll(db, MarkPlan(req, seen)) == Left(db, MarkOverdue(db, req.t, req.today, req.which))
  {
    hide ApplyAll, PaidOre, HasPaymentFor, ItemsOf, Marked, Before;
    var rows := MarkPlan(req, seen)[0].rows;
    Apply1(db, PutInvoices(rows));
    forall i | i in rows ensures rows[i] == db.invoices[i].(status := Overdue) {
      assert seen[InvoiceKey(i)] == SliceOf(db, req.t, InvoiceKey(i));
    }
    MarkedRows(db, req.t, req.today, rows);
    assert rows.Keys == req.which;
  }

  lemma AddTemplatePlanned(db: Db, req: Op)
    requires req.OpAddTemplate?
    ensures ApplyAll(db, AddTemplatePlan(req)) ==
            Left(db, AddTemplate(db, req.t, req.customer, req.interval, req.next, req.lines, req.today, req.newId))
  {
  }

  lemma ConfigurePlanned(db: Db, req: Op)
    requires req.OpConfigure?
    ensures ApplyAll(db, ConfigurePlan(req, SettingsOf(db, req.t))) ==
            Left(db, Configure(db, req.t, req.complete, req.fee))
  {
  }

  lemma PaymentPlanned(db: Db, req: Op, seen: Seen)
    requires req.OpPay? && Agrees(db, req.t, seen) && NextKey(req, seen).None?
    ensures ApplyAll(db, Plan(req, seen)) == Next(db, req)
  {
    hide ApplyAll, PaidOre, HasPaymentFor, HasPaymentKey, PayPlan;
    ApplyNone(db);
    if !seen[EventKey(req.eventId)].processed {
      PayPlanned(db, req, seen[InvoiceKey(req.id)], seen[PaymentKey(req.t, req.paymentId)].booked);
    }
  }

  /** The transactions that take a number, and the ones that stop before they lock the series. */
  lemma NumberPlanned(db: Db, req: Op, seen: Seen)
    requires req.OpSend? || req.OpCredit? || req.OpRemind? || req.OpGenerate?
    requires RowsOk(db) && Agrees(db, req.t, seen) && NextKey(req, seen).None?
    ensures ApplyAll(db, Plan(req, seen)) == Next(db, req)
  {
    hide ApplyAll, RowsOk, PaidOre, HasPaymentFor, HasPaymentKey, SendPlan, CreditPlan, RemindPlan, GeneratePlan;
    hide CreditNoteFor, ReminderFor, GeneratedFrom, Register, TotalsOf, ToItems, CreditItems, Vat.Computable;
    ApplyNone(db);
    if SettingsKey(req.t) in seen {
      var series := seen[SettingsKey(req.t)].settings;
      if req.OpSend? { SendPlanned(db, req, seen[InvoiceKey(req.id)], series); }
      else if req.OpCredit? { CreditPlanned(db, req, seen[InvoiceKey(req.id)], series); }
      else if req.OpRemind? { RemindPlanned(db, req, seen[InvoiceKey(req.id)], series); }
      else { GeneratePlanned(db, req, seen[TemplateKey(req.id)].template, series); }
    }
  }

  /** Writing a complete plan is the whole transaction, provided what it saw still stands. */
  lemma PlanIsNext(db: Db, req: Op, seen: Seen)
    requires RowsOk(db) && Agrees(db, req.t, seen) && Reached(req, seen) && ReachedDue(db, req)
    requires NextKey(req, seen).None?
    ensures ApplyAll(db, Plan(req, seen)) == Next(db, req)
  {
    hide ApplyAll, RowsOk, Create, Update, Remove, Send, Credit, Remind, Generate, MarkOverdue, Pay, AddTemplate;
    hide CreatePlan, UpdatePlan, RemovePlan, SendPlan, CreditPlan, RemindPlan, GeneratePlan, PayPlan, AddTemplatePlan;
    match req
    case OpCreate(_, _, _, _, _, _, _) => CreatePlanned(db, req);
    case OpUpdate(_, id, _, _, _) => UpdatePlanned(db, req, seen[InvoiceKey(id)]);
    case OpRemove(_, id) => RemovePlanned(db, req, seen[InvoiceKey(id)]);
    case OpMarkOverdue(_, _, _) => MarkPlanned(db, req, seen);
    case OpAddTemplate(_, _, _, _, _, _, _) => AddTemplatePlanned(db, req);
    case OpConfigure(_, _, _) => ConfigurePlanned(db, req);
    case OpPay(_, _, _, _, _) => PaymentPlanned(db, req, seen);
    case _ => NumberPlanned(db, req, seen);
  }

  // ---- What a transaction can change of what others have seen ----------------------------------------

  /** The keys whose slice a transaction may change; it holds the lock of each, or has just made the row. */
  predicate Touches(op: Op, k: Key) {
    match op
    case OpCreate(_, _, _, _, _, _, n) => k == InvoiceKey(n)
    case OpUpdate(_, id, _, _, _) => k == InvoiceKey(id)
    case OpRemove(_, id) => k == InvoiceKey(id)
    case OpSend(t, id) => k == InvoiceKey(id) || k == SettingsKey(t)
    case OpCredit(t, id, _, n) => k == InvoiceKey(id) || k == InvoiceKey(n) || k == SettingsKey(t)
    case OpRemind(t, id, _, _, n) => k == InvoiceKey(id) || k == InvoiceKey(n) || k == SettingsKey(t)
    case OpGenerate(t, p, _, _, n) => k == TemplateKey(p) || k == InvoiceKey(n) || k == SettingsKey(t)
    case OpMarkOverdue(_, _, which) => k.InvoiceKey? && k.id in which
    case OpPay(t, e, id, p, _) => k == EventKey(e) || k == InvoiceKey(id) || k == PaymentKey(t, p)
    case OpConfigure(t, _, _) => k == SettingsKey(t)
    case OpAddTemplate(_, _, _, _, _, _, n) => k == TemplateKey(n)
  }

  /** The tables of two states look the same under key k. */
  ghost predicate SameUnder(db: Db, after: Db, k: Key) {
    match k
    case InvoiceKey(id) =>
      && (id in db.invoices ==>
            && id in after.invoices && after.invoices[id] == db.invoices[id] && ItemsOf(after, id) == ItemsOf(db, id)
            && HasPaymentFor(after.payments, id) == HasPaymentFor(db.payments, id)
            && PaidOre(after.payments, db.invoices[id].tenant, id) == PaidOre(db.payments, db.invoices[id].tenant, id))
    case SettingsKey(t) => SettingsOf(after, t) == SettingsOf(db, t)
    case TemplateKey(id) => id in db.templates ==> id in after.templates && after.templates[id] == db.templates[id]
    case EventKey(e) => (e in after.processed) == (e in db.processed)
    case PaymentKey(t, p) => HasPaymentKey(after.payments, t, p) == HasPaymentKey(db.payments, t, p)
  }

  lemma SameUnderSlice(db: Db, after: Db, t: nat, k: Key)
    requires Lockable(db, t, k) && SameUnder(db, after, k)
    ensures Lockable(after, t, k) && SliceOf(after, t, k) == SliceOf(db, t, k)
  {
  }

  lemma PaymentsElsewhere(payments: seq<Payment>, p: Payment, t: nat, paymentId: string, id: nat)
    ensures p.invoice != id ==> HasPaymentFor(payments + [p], id) == HasPaymentFor(payments, id)
    ensures p.invoice != id ==> PaidOre(payments + [p], t, id) == PaidOre(payments, t, id)
    ensures p.tenant != t || p.paymentId != paymentId ==>
              HasPaymentKey(payments + [p], t, paymentId) == HasPaymentKey(payments, t, paymentId)
  {
    PaidOreAppend(payments, p, t, id);
    forall k | 0 <= k < |payments| ensures (payments + [p])[k] == payments[k] {}
  }

  lemma PayUntouched(db: Db, op: Op, k: Key)
    requires op.OpPay? && !Touches(op, k)
    ensures SameUnder(db, Next(db, op), k)
  {
    hide PaidOre, HasPaymentFor, HasPaymentKey, PaidIfCovered;
    var p := Payment(op.t, op.id, op.paymentId, op.amount);
    match k
    case InvoiceKey(id) =>
      if id in db.invoices { PaymentsElsewhere(db.payments, p, db.invoices[id].tenant, "", id); }
    case PaymentKey(t, paymentId) => PaymentsElsewhere(db.payments, p, t, paymentId, 0);
    case _ =>
  }

  /** A row inserted under a fresh id hides nothing that was there. */
  predicate FreshRow(db: Db, op: Op) {
    && (Inserts(op) && !op.OpAddTemplate? ==> op.newId !in db.invoices)
    && (op.OpAddTemplate? ==> op.newId !in db.templates)
  }

  predicate Numbers(op: Op) {
    op.OpSend? || op.OpCredit? || op.OpRemind? || op.OpGenerate?
  }

  lemma NumberUntouched(db: Db, op: Op, k: Key)
    requires Numbers(op) && FreshRow(db, op) && !Touches(op, k)
    ensures SameUnder(db, Next(db, op), k)
  {
    hide PaidOre, HasPaymentFor, HasPaymentKey, TotalsOf, ToItems, CreditItems, Numbered, Ocr.DeriveOcr;
    hide AddDaysTo, AdvanceByInterval, Vat.Computable, CanNumber, Before, NewInvoice, CreditNoteFor, ReminderFor;
    hide GeneratedFrom;
  }

  lemma Untouched(db: Db, op: Op, k: Key)
    requires FreshRow(db, op) && !Touches(op, k)
    ensures SameUnder(db, Next(db, op), k)
  {
    hide PaidOre, HasPaymentFor, HasPaymentKey, TotalsOf, ToItems, CreditItems, Vat.Computable, Before, NewInvoice;
    if op.OpPay? {
      PayUntouched(db, op, k);
    } else if Numbers(op) {
      NumberUntouched(db, op, k);
    }
  }

  /** What is committed under a unique key stays committed. */
  lemma StaysDecided(db: Db, op: Op, t: nat, k: Key)
    requires Decided(db, t, k)
    ensures Decided(Next(db, op), t, k)
    ensures Lockable(db, t, k) && Lockable(Next(db, op), t, k) && SliceOf(Next(db, op), t, k) == SliceOf(db, t, k)
  {
    hide PaidOre, HasPaymentFor, TotalsOf, ToItems, CreditItems, Numbered, Ocr.DeriveOcr, Next;
    LogsGrow(db, op);
  }

  lemma LogsGrow(db: Db, op: Op)
    ensures db.processed <= Next(db, op).processed
    ensures db.payments <= Next(db, op).payments
  {
    hide PaidOre, HasPaymentFor, HasPaymentKey, TotalsOf, ToItems, CreditItems, Numbered, Ocr.DeriveOcr, PaidIfCovered;
    hide AddDaysTo, AdvanceByInterval, Vat.Computable, CanNumber, Before, NewInvoice, CreditNoteFor, ReminderFor;
    hide GeneratedFrom;
  }
}
