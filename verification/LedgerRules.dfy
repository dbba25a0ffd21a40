/**
 What every billing transaction demands and what it does, said of the tables alone: in day numbers, sums over rows
 and rounding bands, and without the predicates and row constructors the transactions are made of.
 */
module LedgerRules {
  import opened Wrappers
  import opened Dates
  import opened Ledger
  import opened LedgerInvariants
  import Ocr
  import Vat

  // ---- Sums ----------------------------------------------------------------------------------------------

  /** What row k of the payments adds to an invoice. */
  function PaidBy(payments: seq<Payment>, t: nat, id: nat, k: int): int {
    if 0 <= k < |payments| && payments[k].tenant == t && payments[k].invoice == id then payments[k].amount else 0
  }

  /** The paid sum is the sum over the tenant's payment rows of the invoice. */
  lemma {:induction false} PaidIsSum(payments: seq<Payment>, t: nat, id: nat)
    ensures PaidOre(payments, t, id) == Sum(k => PaidBy(payments, t, id, k), |payments|)
  {
    if payments != [] {
      var front := payments[..|payments| - 1];
      PaidIsSum(front, t, id);
      SumSame(k => PaidBy(payments, t, id, k), k => PaidBy(front, t, id, k), |front|);
    }
  }

  function ExclAt(items: seq<Item>, k: int): int {
    if 0 <= k < |items| then items[k].amounts.excl else 0
  }

  function VatAt(items: seq<Item>, k: int): int {
    if 0 <= k < |items| then items[k].amounts.vat else 0
  }

  function InclAt(items: seq<Item>, k: int): int {
    if 0 <= k < |items| then items[k].amounts.incl else 0
  }

  /** Each total is the sum of that amount over the items. */
  ghost predicate AddsUp(totals: Vat.Amounts, items: seq<Item>) {
    && totals.excl == Sum(k => ExclAt(items, k), |items|)
    && totals.vat == Sum(k => VatAt(items, k), |items|)
    && totals.incl == Sum(k => InclAt(items, k), |items|)
  }

  lemma {:induction false} TotalsAddUp(items: seq<Item>)
    ensures AddsUp(TotalsOf(items), items)
  {
    if items != [] {
      var front := items[..|items| - 1];
      TotalsAddUp(front);
      LastTotals(items);
      SumSame(k => ExclAt(items, k), k => ExclAt(front, k), |front|);
      SumSame(k => VatAt(items, k), k => VatAt(front, k), |front|);
      SumSame(k => InclAt(items, k), k => InclAt(front, k), |front|);
      hide TotalsOf;
    }
  }

  lemma LastTotals(items: seq<Item>)
    requires items != []
    ensures TotalsOf(items) == Vat.Plus(TotalsOf(items[..|items| - 1]), items[|items| - 1].amounts)
  {
    assert AmountsOf(items)[..|items| - 1] == AmountsOf(items[..|items| - 1]);
  }

  // ---- Lines ---------------------------------------------------------------------------------------------

  /** The item of a line: both amounts to the nearest öre, a half going up, the VAT on the rounded amount. */
  predicate Prices(l: Vat.LineInput, it: Item) {
    && it.milli == l.milli && it.unitPrice == l.unitPrice && it.vatRate == l.vatRate
    && 2 * l.milli * l.unitPrice - 1000 < 2000 * it.amounts.excl <= 2 * l.milli * l.unitPrice + 1000
    && 2 * it.amounts.excl * l.vatRate - 100 < 200 * it.amounts.vat <= 2 * it.amounts.excl * l.vatRate + 100
    && it.amounts.incl == it.amounts.excl + it.amounts.vat
  }

  /** One item per line, in order. */
  predicate PricesAll(lines: seq<Vat.LineInput>, items: seq<Item>) {
    |items| == |lines| && forall k :: 0 <= k < |lines| ==> Prices(lines[k], items[k])
  }

  lemma ItemPrices(l: Vat.LineInput)
    requires Vat.Computable(l)
    ensures Prices(l, ToItem(l))
  {
    Vat.SplitIsExact(l.milli, l.unitPrice);
    Band(l.milli * l.unitPrice, 1000, ToItem(l).amounts.excl);
    Band(ToItem(l).amounts.excl * l.vatRate, 100, ToItem(l).amounts.vat);
  }

  lemma Band(x: int, y: int, r: int)
    requires y > 0 && r == Vat.RoundHalfUp(x, y)
    ensures 2 * x - y < 2 * (r * y) <= 2 * x + y
  {
  }

  lemma ItemsPrice(lines: seq<Vat.LineInput>)
    requires Vat.AllComputable(lines)
    ensures PricesAll(lines, ToItems(lines)) && AddsUp(TotalsOf(ToItems(lines)), ToItems(lines))
  {
    hide Prices, ToItem, Vat.Computable;
    forall k | 0 <= k < |lines| ensures Prices(lines[k], ToItems(lines)[k]) {
      ItemPrices(lines[k]);
    }
    TotalsAddUp(ToItems(lines));
  }

  /** What the request schema lets through. */
  predicate Acceptable(lines: seq<Vat.LineInput>) {
    && 1 <= |lines| <= 200
    && forall k :: 0 <= k < |lines| ==>
         && 0 <= lines[k].milli <= 100_000_000 && 0 <= lines[k].unitPrice <= 100_000_000
         && lines[k].vatRate in {0, 6, 12, 25}
  }

  lemma AcceptableIff(lines: seq<Vat.LineInput>)
    ensures Vat.SchemaLines(lines) && Vat.AllComputable(lines) <==> Acceptable(lines)
  {
    if Acceptable(lines) {
      forall k | 0 <= k < |lines| ensures Vat.Computable(lines[k]) {
        Vat.SchemaLineSafe(lines[k]);
      }
    }
  }

  // ---- What transactions have in common ------------------------------------------------------------------

  /** What is left to pay: the total less the sum of the payment rows. */
  function Debt(db: Db, id: nat): int
    requires id in db.invoices
  {
    var row := db.invoices[id];
    row.totals.incl - Sum(k => PaidBy(db.payments, row.tenant, id, k), |db.payments|)
  }

  /** Sender details are complete; they are not before the first settings update. */
  predicate Configured(db: Db, t: nat) {
    t in db.settings && db.settings[t].complete
  }

  /** Invoice id has the tenant's next number and its reference, the series has moved on, and the event is out. */
  ghost predicate TakesNumber(db: Db, after: Db, t: nat, id: nat, kind: EventKind) {
    && t in db.settings && id in after.invoices
    && var n := db.settings[t].next;
    && after.invoices[id].number == Some(n)
    && after.invoices[id].ocr.Some? && Ocr.IsReference(after.invoices[id].ocr.value, n)
    && after.settings == db.settings[t := db.settings[t].(next := n + 1)]
    && after.outbox == db.outbox + [Event(kind, id)]
  }

  /** No other invoice, no payment and no processed event has changed. */
  ghost predicate OnlyRows(db: Db, after: Db, ids: set<nat>) {
    && (forall i :: i !in ids ==>
          && (i in after.invoices <==> i in db.invoices) && (i in after.items <==> i in db.items)
          && (i in db.invoices ==> after.invoices[i] == db.invoices[i])
          && (i in db.items ==> after.items[i] == db.items[i]))
    && after.payments == db.payments && after.processed == db.processed
  }

  ghost predicate OnlyDraft(db: Db, after: Db, id: nat) {
    OnlyRows(db, after, {id}) && after.settings == db.settings && after.templates == db.templates
    && after.outbox == db.outbox
  }

  /** An invoice as it is made, before any number. */
  ghost predicate IsMade(row: Invoice, t: nat, customer: nat, kind: Kind, issued: Date, due: Date) {
    row.tenant == t && row.customer == customer && row.kind == kind && row.issued == issued && row.due == due
  }

  lemma SeriesFacts(db: Db, t: nat)
    requires Inv(db)
    ensures CanNumber(SettingsOf(db, t)) <==> Configured(db, t)
    ensures Configured(db, t) ==> SettingsOf(db, t) == db.settings[t] && db.settings[t].next > 0
  {
    hide RowsOk, LinksOk, PaymentsOk, PaidOk, OutboxOk, TemplatesOk;
  }

  lemma ReferenceOf(n: nat)
    requires n > 0
    ensures Ocr.IsReference(Ocr.DeriveOcr(n), n)
  {
    Ocr.DerivedIff(n, Ocr.DeriveOcr(n));
  }

  // ---- Drafts ------------------------------------------------------------------------------------------------

  /** A draft is made from acceptable lines, issued today or before, and due then or later. */
  lemma CreateRule(db: Db, op: Op)
    requires op.OpCreate? && IsValid(op.issued) && IsValid(op.due) && IsValid(op.today)
    ensures Apply(db, op).Committed? <==>
              && Acceptable(op.lines) && DayNumber(op.issued) <= DayNumber(op.today)
              && DayNumber(op.issued) <= DayNumber(op.due)
    ensures !Acceptable(op.lines) ==> Apply(db, op) == Rejected(BadLines)
    ensures Acceptable(op.lines) && !Apply(db, op).Committed? ==> Apply(db, op) == Rejected(BadDates)
    ensures Apply(db, op).Committed? ==>
              var after := Next(db, op);
              && OnlyDraft(db, after, op.newId) && op.newId in after.invoices && op.newId in after.items
              && var row := after.invoices[op.newId];
              && IsMade(row, op.t, op.customer, Plain, op.issued, op.due) && row.status == Draft && row.number.None?
              && PricesAll(op.lines, after.items[op.newId]) && AddsUp(row.totals, after.items[op.newId])
  {
    AcceptableIff(op.lines);
    DayNumberOrder(op.today, op.issued);
    DayNumberOrder(op.due, op.issued);
    hide Vat.SchemaLines, Vat.Computable, Acceptable, IsValid, DayNumber, Before, TotalsOf, ToItems, PricesAll, AddsUp;
    hide OnlyDraft;
    if Apply(db, op).Committed? {
      ItemsPrice(op.lines);
      Inserted(db, op.newId, Next(db, op).invoices[op.newId], ToItems(op.lines));
    }
  }

  /** Only a draft of the tenant is updated, with acceptable lines or none. */
  lemma UpdateDemands(db: Db, op: Op)
    requires op.OpUpdate?
    ensures Apply(db, op).Committed? <==>
              && (op.newLines.Some? ==> Acceptable(op.newLines.value))
              && op.id in db.invoices && db.invoices[op.id].tenant == op.t && db.invoices[op.id].status == Draft
  {
    if op.newLines.Some? {
      AcceptableIff(op.newLines.value);
    }
    hide Vat.SchemaLines, Vat.Computable, Acceptable, TotalsOf, ToItems;
  }

  /** What is given is replaced, what is left out stays, and the totals are those of the lines. */
  lemma UpdateDoes(db: Db, op: Op)
    requires op.OpUpdate? && Inv(db) && Apply(db, op).Committed?
    ensures var after := Next(db, op);
      && OnlyDraft(db, after, op.id) && op.id in after.invoices && op.id in after.items && op.id in db.items
      && var a := db.invoices[op.id]; var b := after.invoices[op.id];
      && b == a.(issued := b.issued, due := b.due, totals := b.totals)
      && b.issued == (if op.newIssued.Some? then op.newIssued.value else a.issued)
      && b.due == (if op.newDue.Some? then op.newDue.value else a.due)
      && AddsUp(b.totals, after.items[op.id])
      && (op.newLines.Some? ==> PricesAll(op.newLines.value, after.items[op.id]))
      && (op.newLines.None? ==> after.items[op.id] == db.items[op.id])
  {
    HasItems(db, op.id);
    hide Inv, Acceptable, Vat.SchemaLines, Vat.Computable, TotalsOf, ToItems, PricesAll, AddsUp, OnlyDraft;
    if op.newLines.Some? {
      ItemsPrice(op.newLines.value);
      Inserted(db, op.id, Next(db, op).invoices[op.id], ToItems(op.newLines.value));
    } else {
      TotalsAddUp(db.items[op.id]);
      Inserted(db, op.id, Next(db, op).invoices[op.id], ItemsOf(db, op.id));
    }
  }

  lemma Inserted(db: Db, id: nat, row: Invoice, items: seq<Item>)
    ensures var after := Insert(db, id, row, items);
      OnlyDraft(db, after, id) && after.invoices == db.invoices[id := row] && after.items == db.items[id := items]
  {
  }

  lemma HasItems(db: Db, id: nat)
    requires Inv(db) && id in db.invoices
    ensures id in db.items && db.items[id := ItemsOf(db, id)] == db.items
    ensures db.invoices[id].totals == TotalsOf(db.items[id])
  {
    hide NumbersOk, LinksOk, PaymentsOk, PaidOk, OutboxOk, TemplatesOk, FeesOk, ShapeOk, TotalsOf;
  }

  /** Only a draft of the tenant without payment rows is deleted, and with it its items. */
  lemma RemoveRule(db: Db, op: Op)
    requires op.OpRemove?
    ensures Apply(db, op).Committed? <==>
              && op.id in db.invoices && db.invoices[op.id].tenant == op.t && db.invoices[op.id].status == Draft
              && forall k :: 0 <= k < |db.payments| ==> db.payments[k].invoice != op.id
    ensures Apply(db, op).Committed? ==>
              var after := Next(db, op);
              OnlyDraft(db, after, op.id) && op.id !in after.invoices && op.id !in after.items
  {
  }

  // ---- Numbered invoices -------------------------------------------------------------------------------------

  /** Only a draft of the tenant is sent, and only with complete sender details. */
  lemma SendDemands(db: Db, op: Op)
    requires op.OpSend? && Inv(db)
    ensures Apply(db, op).Committed? <==>
              && op.id in db.invoices && db.invoices[op.id].tenant == op.t && db.invoices[op.id].status == Draft
              && Configured(db, op.t)
    ensures op.id !in db.invoices || db.invoices[op.id].tenant != op.t ==> Apply(db, op) == Rejected(NotFound)
  {
    SeriesFacts(db, op.t);
    hide Inv, CanNumber, Ocr.DeriveOcr;
  }

  /** The writes shared by what takes a number. */
  lemma Registered(db: Db, t: nat, kind: EventKind, id: nat, row: Invoice, items: seq<Item>)
    requires Inv(db) && Configured(db, t) && row == Numbered(row, db.settings[t].next)
    ensures var after := Register(db, t, kind, id, row, items);
      && TakesNumber(db, after, t, id, kind) && OnlyRows(db, after, {id}) && after.templates == db.templates
      && after.invoices == db.invoices[id := row] && after.items == db.items[id := items]
  {
    RegisteredRows(db, t, kind, id, row, items);
    SeriesFacts(db, t);
    ReferenceOf(db.settings[t].next);
    hide Inv, Ocr.DeriveOcr, Ocr.IsReference, CanNumber, OnlyRows;
  }

  lemma RegisteredRows(db: Db, t: nat, kind: EventKind, id: nat, row: Invoice, items: seq<Item>)
    ensures OnlyRows(db, Register(db, t, kind, id, row, items), {id})
  {
  }

  /** It takes the next number, and nothing of the invoice but its number, reference and status changes. */
  lemma SendDoes(db: Db, op: Op)
    requires op.OpSend? && Inv(db) && Apply(db, op).Committed?
    ensures var after := Next(db, op);
      && TakesNumber(db, after, op.t, op.id, InvoiceSent)
      && OnlyRows(db, after, {op.id}) && after.templates == db.templates && after.items == db.items
      && op.id in db.invoices && var a := db.invoices[op.id]; var b := after.invoices[op.id];
      b == a.(status := Sent, number := b.number, ocr := b.ocr)
  {
    SendDemands(db, op);
    SeriesFacts(db, op.t);
    HasItems(db, op.id);
    var row := Numbered(db.invoices[op.id].(status := Sent), db.settings[op.t].next);
    Registered(db, op.t, InvoiceSent, op.id, row, ItemsOf(db, op.id));
    hide Inv, Ocr.DeriveOcr, TakesNumber, OnlyRows, Register, Configured, CanNumber, SettingsOf;
  }

  /** Only a sent, overdue or paid plain invoice of the tenant is credited. */
  lemma CreditDemands(db: Db, op: Op)
    requires op.OpCredit? && Inv(db)
    ensures Apply(db, op).Committed? <==>
              && op.id in db.invoices && db.invoices[op.id].tenant == op.t && db.invoices[op.id].kind == Plain
              && db.invoices[op.id].status in {Sent, Overdue, Status.Paid} && Configured(db, op.t)
    ensures op.id !in db.invoices || db.invoices[op.id].tenant != op.t ==> Apply(db, op) == Rejected(NotFound)
  {
    SeriesFacts(db, op.t);
    hide Inv, CanNumber, Ocr.DeriveOcr, CreditItems, TotalsOf;
  }

  /** The mirrored item: quantity and amounts with the sign changed, the price and the rate as they were. */
  predicate Mirrors(it: Item, original: Item) {
    && it.milli == -original.milli && it.unitPrice == original.unitPrice && it.vatRate == original.vatRate
    && it.amounts.excl == -original.amounts.excl && it.amounts.vat == -original.amounts.vat
    && it.amounts.incl == -original.amounts.incl
  }

  /** A settled credit note of the same customer with the mirrored lines, dated today; the original is credited. */
  lemma CreditDoes(db: Db, op: Op)
    requires op.OpCredit? && Inv(db) && Apply(db, op).Committed? && op.newId !in db.invoices
    ensures var after := Next(db, op);
      && TakesNumber(db, after, op.t, op.newId, InvoiceCredited)
      && OnlyRows(db, after, {op.id, op.newId}) && after.templates == db.templates
      && op.id in db.invoices && op.id in after.invoices && op.id in db.items && op.newId in after.items
      && after.items == db.items[op.newId := after.items[op.newId]]
      && var o := db.invoices[op.id]; var note := after.invoices[op.newId];
      && after.invoices[op.id] == o.(status := Credited)
      && IsMade(note, o.tenant, o.customer, CreditNote, op.today, op.today)
      && note.status == Settled && note.credits == Some(op.id)
      && |after.items[op.newId]| == |db.items[op.id]|
      && (forall k :: 0 <= k < |db.items[op.id]| ==> Mirrors(after.items[op.newId][k], db.items[op.id][k]))
      && AddsUp(note.totals, after.items[op.newId])
  {
    CreditDemands(db, op);
    SeriesFacts(db, op.t);
    HasItems(db, op.id);
    var items := CreditItems(ItemsOf(db, op.id));
    var note := CreditNoteFor(db, op.id, op.today, db.settings[op.t].next);
    var noted := Register(db, op.t, InvoiceCredited, op.newId, note, items);
    CreditIs(db, op);
    NoteIs(db, op.id, op.today, db.settings[op.t].next);
    Registered(db, op.t, InvoiceCredited, op.newId, note, items);
    OneMore(db, noted, op.t, op.newId, InvoiceCredited, op.id, db.invoices[op.id].(status := Credited));
    hide Inv, Apply, Next, TakesNumber, OnlyRows, Register, CreditNoteFor, CreditItems, Configured, AddsUp, IsMade;
    hide Mirrors, Numbered, SettingsOf, CanNumber;
  }

  lemma CreditIs(db: Db, op: Op)
    requires op.OpCredit? && Apply(db, op).Committed? && Configured(db, op.t) && db.settings[op.t].next > 0
    ensures op.id in db.invoices
    ensures var note := CreditNoteFor(db, op.id, op.today, db.settings[op.t].next);
      Next(db, op) == SetRow(Register(db, op.t, InvoiceCredited, op.newId, note, CreditItems(ItemsOf(db, op.id))),
                             op.id, db.invoices[op.id].(status := Credited))
  {
    hide CreditNoteFor, Register, SetRow, CreditItems;
  }

  lemma NoteIs(db: Db, id: nat, today: Date, n: nat)
    requires id in db.invoices && n > 0
    ensures var o := db.invoices[id]; var note := CreditNoteFor(db, id, today, n);
            var items := CreditItems(ItemsOf(db, id));
      && note == Numbered(note, n) && IsMade(note, o.tenant, o.customer, CreditNote, today, today)
      && note.status == Settled && note.credits == Some(id) && AddsUp(note.totals, items)
      && |items| == |ItemsOf(db, id)|
      && (forall k :: 0 <= k < |items| ==> Mirrors(items[k], ItemsOf(db, id)[k]))
  {
    TotalsAddUp(CreditItems(ItemsOf(db, id)));
    hide Ocr.DeriveOcr, TotalsOf, AddsUp;
  }

  /** One more row changes, which is not the numbered one. */
  lemma OneMore(db: Db, noted: Db, t: nat, id: nat, kind: EventKind, o: nat, row: Invoice)
    requires TakesNumber(db, noted, t, id, kind) && OnlyRows(db, noted, {id}) && o != id
    requires o in db.invoices && id in noted.items && noted.items == db.items[id := noted.items[id]]
    ensures var after := SetRow(noted, o, row);
      TakesNumber(db, after, t, id, kind) && OnlyRows(db, after, {o, id}) && after.items == noted.items
  {
    hide Ocr.IsReference;
  }

  predicate Demandable(db: Db, t: nat, id: nat) {
    && id in db.invoices && db.invoices[id].tenant == t && db.invoices[id].kind == Plain
    && db.invoices[id].status in {Sent, Overdue} && Debt(db, id) > 0
  }

  const SAFE: int := 0x20_0000_0000_0000

  /** Only a sent or overdue plain invoice of the tenant with something left to pay gets a reminder. */
  lemma RemindDemands(db: Db, op: Op)
    requires op.OpRemind? && Inv(db)
    ensures Apply(db, op).Skipped? <==> !Demandable(db, op.t, op.id)
    ensures Apply(db, op).Committed? <==>
              && Demandable(db, op.t, op.id) && Configured(db, op.t)
              && Debt(db, op.id) < SAFE && db.settings[op.t].fee < SAFE
  {
    SeriesFacts(db, op.t);
    FeeFacts(db, op.t);
    RemindOutcome(db, op);
    if op.id in db.invoices {
      ReminderFacts(db, op.t, op.id);
      if Configured(db, op.t) && Remaining(db, op.id) > 0 {
        ReminderSafe(Remaining(db, op.id), db.settings[op.t].fee);
      }
    }
    hide Inv, CanNumber, Debt, Remaining, Remindable, ReminderLines, Vat.AllComputable, Apply, SettingsOf;
  }

  lemma RemindOutcome(db: Db, op: Op)
    requires op.OpRemind?
    ensures Apply(db, op).Skipped? <==>
              !(Visible(db, op.t, op.id) && Remindable(db.invoices[op.id]) && Remaining(db, op.id) > 0)
    ensures Apply(db, op).Committed? <==>
              && Visible(db, op.t, op.id) && Remindable(db.invoices[op.id]) && Remaining(db, op.id) > 0
              && CanNumber(SettingsOf(db, op.t))
              && Vat.AllComputable(ReminderLines(Remaining(db, op.id), SettingsOf(db, op.t).fee))
  {
    hide Remindable, Remaining, ReminderLines, ReminderFor, ToItems, Vat.AllComputable, Register, AddDaysTo;
  }

  lemma ReminderFacts(db: Db, t: nat, id: nat)
    requires Inv(db) && id in db.invoices
    ensures Debt(db, id) == Remaining(db, id)
    ensures Remindable(db.invoices[id]) <==>
              db.invoices[id].kind == Plain && db.invoices[id].status in {Sent, Overdue}
  {
    PaidIsSum(db.payments, db.invoices[id].tenant, id);
    hide NumbersOk, LinksOk, PaymentsOk, PaidOk, OutboxOk, TemplatesOk, FeesOk, PaidOre, TotalsOf;
  }

  lemma FeeFacts(db: Db, t: nat)
    requires Inv(db)
    ensures t in db.settings ==> db.settings[t].fee >= 0
  {
    hide RowsOk, NumbersOk, LinksOk, PaymentsOk, PaidOk, OutboxOk, TemplatesOk;
  }

  lemma ReminderSafe(remaining: int, fee: int)
    requires remaining >= 0 && fee >= 0
    ensures Vat.AllComputable(ReminderLines(remaining, fee)) <==> remaining < SAFE && fee < SAFE
  {
    OneUnitSafe(remaining);
    OneUnitSafe(fee);
    hide Vat.Computable, ZeroVatLine;
    var lines := ReminderLines(remaining, fee);
    assert lines[0] == ZeroVatLine(remaining) && lines[1] == ZeroVatLine(fee);
  }

  lemma OneUnitSafe(price: int)
    requires price >= 0
    ensures Vat.Computable(ZeroVatLine(price)) <==> price < SAFE
  {
    Vat.ZeroVatLine(price);
    hide Vat.Computable;
  }

  /** One unit at the price, without VAT. */
  predicate IsUnit(it: Item, price: int) {
    && it.milli == 1000 && it.unitPrice == price && it.vatRate == 0
    && it.amounts.excl == price && it.amounts.vat == 0 && it.amounts.incl == price
  }

  /** What was left to pay and the fee move to a reminder of the same customer; the original is superseded by it. */
  lemma RemindDoes(db: Db, op: Op)
    requires op.OpRemind? && Inv(db) && Apply(db, op).Committed? && op.newId !in db.invoices
    ensures var after := Next(db, op);
      && TakesNumber(db, after, op.t, op.newId, ReminderSent)
      && OnlyRows(db, after, {op.id, op.newId}) && after.templates == db.templates
      && op.id in db.invoices && op.id in after.invoices && op.newId in after.items
      && after.items == db.items[op.newId := after.items[op.newId]]
      && var o := db.invoices[op.id]; var reminder := after.invoices[op.newId]; var items := after.items[op.newId];
      && after.invoices[op.id] == o.(status := Superseded, supersededBy := Some(op.newId))
      && IsMade(reminder, o.tenant, o.customer, Reminder, op.today, AddDaysTo(op.today, op.terms))
      && reminder.status == Sent && reminder.reminds == Some(op.id)
      && |items| == 2 && IsUnit(items[0], Debt(db, op.id)) && IsUnit(items[1], db.settings[op.t].fee)
      && reminder.totals == Vat.Amounts(Debt(db, op.id) + db.settings[op.t].fee, 0,
                                        Debt(db, op.id) + db.settings[op.t].fee)
  {
    hide Inv, Apply, Next, TakesNumber, OnlyRows, Register, ReminderFor, ToItems, IsMade, IsUnit, Debt;
    hide Numbered, SettingsOf, CanNumber, ReminderLines, Remaining, Remindable, Vat.AllComputable, AddDaysTo;
    RemindDemands(db, op);
    SeriesFacts(db, op.t);
    ReminderFacts(db, op.t, op.id);
    RemindOutcome(db, op);
    var fee, n := db.settings[op.t].fee, db.settings[op.t].next;
    var lines := ReminderLines(Remaining(db, op.id), fee);
    RemindIs(db, op);
    ReminderIs(db, op.id, fee, op.today, AddDaysTo(op.today, op.terms), n);
    var reminder := ReminderFor(db, op.id, lines, op.today, AddDaysTo(op.today, op.terms), n);
    Registered(db, op.t, ReminderSent, op.newId, reminder, ToItems(lines));
    OneMore(db, Register(db, op.t, ReminderSent, op.newId, reminder, ToItems(lines)), op.t, op.newId, ReminderSent,
            op.id, db.invoices[op.id].(status := Superseded, supersededBy := Some(op.newId)));
  }

  lemma RemindIs(db: Db, op: Op)
    requires op.OpRemind? && Apply(db, op).Committed? && Configured(db, op.t) && db.settings[op.t].next > 0
    requires SettingsOf(db, op.t) == db.settings[op.t]
    ensures op.id in db.invoices && Vat.AllComputable(ReminderLines(Remaining(db, op.id), db.settings[op.t].fee))
    ensures var lines := ReminderLines(Remaining(db, op.id), db.settings[op.t].fee);
            var due := AddDaysTo(op.today, op.terms);
            var reminder := ReminderFor(db, op.id, lines, op.today, due, db.settings[op.t].next);
      Next(db, op) == SetRow(Register(db, op.t, ReminderSent, op.newId, reminder, ToItems(lines)), op.id,
                             db.invoices[op.id].(status := Superseded, supersededBy := Some(op.newId)))
  {
    hide ReminderFor, Register, SetRow, ToItems, Vat.Computable, ReminderLines, Remaining, Remindable, AddDaysTo;
  }

  lemma ReminderIs(db: Db, id: nat, fee: int, today: Date, due: Date, n: nat)
    requires id in db.invoices && n > 0 && Vat.AllComputable(ReminderLines(Remaining(db, id), fee))
    ensures var o := db.invoices[id]; var debt := Remaining(db, id); var items := ToItems(ReminderLines(debt, fee));
            var reminder := ReminderFor(db, id, ReminderLines(debt, fee), today, due, n);
      && reminder == Numbered(reminder, n) && IsMade(reminder, o.tenant, o.customer, Reminder, today, due)
      && reminder.status == Sent && reminder.reminds == Some(id)
      && |items| == 2 && IsUnit(items[0], debt) && IsUnit(items[1], fee)
      && reminder.totals == Vat.Amounts(debt + fee, 0, debt + fee)
  {
    var debt := Remaining(db, id);
    ReminderItems(debt, fee);
    hide Ocr.DeriveOcr, TotalsOf, ToItems, Vat.AllComputable, ReminderLines, Remaining, IsUnit;
  }

  lemma ReminderItems(debt: int, fee: int)
    requires Vat.AllComputable(ReminderLines(debt, fee))
    ensures var items := ToItems(ReminderLines(debt, fee));
      && |items| == 2 && IsUnit(items[0], debt) && IsUnit(items[1], fee)
      && TotalsOf(items) == Vat.Amounts(debt + fee, 0, debt + fee)
  {
    var lines := ReminderLines(debt, fee);
    assert Vat.Computable(lines[0]) && Vat.Computable(lines[1]);
    Vat.ZeroVatLine(debt);
    Vat.ZeroVatLine(fee);
    var items := ToItems(lines);
    hide Vat.Computable, Vat.ComputeLine;
    LastTotals(items);
    LastTotals(items[..1]);
    assert items[..1][..0] == [];
  }

  // ---- Recurring invoices ------------------------------------------------------------------------------------

  /** The template's day has come. */
  predicate HasCome(db: Db, t: nat, p: nat, today: Date)
    requires p in db.templates ==> IsValid(db.templates[p].next)
    requires IsValid(today)
  {
    && p in db.templates && db.templates[p].tenant == t && db.templates[p].active
    && DayNumber(db.templates[p].next) <= DayNumber(today)
  }

  /** An active template of the tenant is invoiced from the day it stands at, and not before. */
  lemma GenerateDemands(db: Db, op: Op)
    requires op.OpGenerate? && Inv(db) && IsValid(op.today)
    ensures op.id in db.templates ==> IsValid(db.templates[op.id].next)
    ensures Apply(db, op).Skipped? <==> !HasCome(db, op.t, op.id, op.today)
    ensures Apply(db, op).Committed? <==>
              && HasCome(db, op.t, op.id, op.today) && Configured(db, op.t)
              && Vat.AllComputable(db.templates[op.id].lines)
  {
    SeriesFacts(db, op.t);
    if op.id in db.templates {
      TemplateFacts(db, op.id);
      DayNumberOrder(op.today, db.templates[op.id].next);
    }
    hide Inv, CanNumber, IsValid, DayNumber, Before, ToItems, Vat.AllComputable, Register, GeneratedFrom;
    hide AdvanceByInterval;
  }

  lemma TemplateFacts(db: Db, p: nat)
    requires Inv(db) && p in db.templates
    ensures IsValid(db.templates[p].next) && db.templates[p].next.year >= 100 && 1 <= db.templates[p].next.month <= 12
  {
    hide RowsOk, NumbersOk, LinksOk, PaymentsOk, PaidOk, OutboxOk, FeesOk;
  }

  /** The month the template moves on to. */
  ghost predicate Rolls(a: Template, b: Template) {
    && b == a.(next := b.next)
    && (a.interval == Monthly ==> MonthsOn(a.next, b.next, 1, a.billingDay))
    && (a.interval == Quarterly ==> MonthsOn(a.next, b.next, 3, a.billingDay))
    && (a.interval == Yearly ==> MonthsOn(a.next, b.next, 12, a.billingDay))
  }

  /**
   The template's customer gets an invoice with the template's lines, dated on the day the template stood at; the
   template moves on by its period, and no other one changes.
   */
  lemma GenerateDoes(db: Db, op: Op)
    requires op.OpGenerate? && Inv(db) && Apply(db, op).Committed? && op.newId !in db.invoices && IsValid(op.today)
    ensures var after := Next(db, op);
      && TakesNumber(db, after, op.t, op.newId, InvoiceSent) && OnlyRows(db, after, {op.newId})
      && op.id in db.templates && op.id in after.templates && op.newId in after.items
      && after.templates == db.templates[op.id := after.templates[op.id]]
      && var tpl := db.templates[op.id]; var row := after.invoices[op.newId];
      && IsMade(row, op.t, tpl.customer, Plain, tpl.next, AddDaysTo(tpl.next, op.terms))
      && row.status == Sent && row.template == Some(op.id)
      && PricesAll(tpl.lines, after.items[op.newId]) && AddsUp(row.totals, after.items[op.newId])
      && Rolls(tpl, after.templates[op.id])
  {
    hide Inv, Apply, Next, Ocr.IsReference, Register, GeneratedFrom, ToItems, AddsUp, IsMade, PricesAll;
    hide Numbered, SettingsOf, CanNumber, IsValid, DayNumber, AdvanceByInterval, AddDaysTo, Vat.AllComputable, MonthsOn;
    GenerateDemands(db, op);
    SeriesFacts(db, op.t);
    TemplateFacts(db, op.id);
    var tpl, n := db.templates[op.id], db.settings[op.t].next;
    var items := ToItems(tpl.lines);
    GenerateIs(db, op);
    GeneratedIs(db, op.id, op.terms, n);
    Registered(db, op.t, InvoiceSent, op.newId, GeneratedFrom(db, op.id, items, op.terms, n), items);
    RollRule(tpl.next, tpl.interval, tpl.billingDay);
  }

  lemma GenerateIs(db: Db, op: Op)
    requires op.OpGenerate? && Apply(db, op).Committed? && Configured(db, op.t) && db.settings[op.t].next > 0
    ensures op.id in db.templates && db.templates[op.id].tenant == op.t
    ensures Vat.AllComputable(db.templates[op.id].lines)
    ensures var tpl := db.templates[op.id]; var items := ToItems(tpl.lines);
            var row := GeneratedFrom(db, op.id, items, op.terms, db.settings[op.t].next);
      Next(db, op) == Register(db, op.t, InvoiceSent, op.newId, row, items).(
        templates := db.templates[op.id := tpl.(next := AdvanceByInterval(tpl.next, tpl.interval, tpl.billingDay))])
  {
    hide GeneratedFrom, Register, ToItems, Vat.AllComputable, AdvanceByInterval, Before;
  }

  lemma GeneratedIs(db: Db, p: nat, terms: int, n: nat)
    requires p in db.templates && n > 0 && Vat.AllComputable(db.templates[p].lines)
    ensures var tpl := db.templates[p]; var items := ToItems(tpl.lines);
            var row := GeneratedFrom(db, p, items, terms, n);
      && row == Numbered(row, n) && IsMade(row, tpl.tenant, tpl.customer, Plain, tpl.next, AddDaysTo(tpl.next, terms))
      && row.status == Sent && row.template == Some(p)
      && PricesAll(tpl.lines, items) && AddsUp(row.totals, items)
  {
    ItemsPrice(db.templates[p].lines);
    hide Ocr.DeriveOcr, TotalsOf, ToItems, PricesAll, AddsUp, AddDaysTo, Vat.AllComputable;
  }

  /** A template is made from acceptable lines, first due today or later, and stands at that day. */
  lemma AddTemplateRule(db: Db, op: Op)
    requires op.OpAddTemplate? && IsValid(op.next) && IsValid(op.today)
    ensures Apply(db, op).Committed? <==> Acceptable(op.lines) && DayNumber(op.today) <= DayNumber(op.next)
    ensures Apply(db, op).Committed? ==>
              var after := Next(db, op); op.newId in after.templates && var tpl := after.templates[op.newId];
              && after == db.(templates := db.templates[op.newId := tpl])
              && tpl.tenant == op.t && tpl.customer == op.customer && tpl.interval == op.interval && tpl.active
              && tpl.next == op.next && tpl.billingDay == op.next.day && tpl.lines == op.lines
  {
    AcceptableIff(op.lines);
    DayNumberOrder(op.next, op.today);
    hide Vat.SchemaLines, Vat.Computable, Acceptable, IsValid, DayNumber, Before;
  }

  // ---- Sweeps, payments, settings ----------------------------------------------------------------------------

  /** A sweep marks exactly the tenant's sent rows that it reaches past their due date, and changes nothing else. */
  lemma MarkOverdueRule(db: Db, op: Op)
    requires op.OpMarkOverdue? && IsValid(op.today)
    ensures var after := Next(db, op);
      && Apply(db, op).Committed? && after == db.(invoices := after.invoices)
      && after.invoices.Keys == db.invoices.Keys
      && forall i :: i in db.invoices && IsValid(db.invoices[i].due) ==>
           var a := db.invoices[i];
           after.invoices[i] == a.(status :=
             if i in op.which && a.tenant == op.t && a.status == Sent && DayNumber(a.due) < DayNumber(op.today)
             then Overdue else a.status)
  {
    forall i | i in db.invoices && IsValid(db.invoices[i].due)
      ensures Before(db.invoices[i].due, op.today) <==> DayNumber(db.invoices[i].due) < DayNumber(op.today)
    {
      DayNumberOrder(db.invoices[i].due, op.today);
    }
    hide Before, IsValid, DayNumber;
  }

  /** An event is booked once, on an invoice of its tenant. */
  lemma PayDemands(db: Db, op: Op)
    requires op.OpPay?
    ensures Apply(db, op).Skipped? <==> op.eventId in db.processed
    ensures Apply(db, op).Committed? <==>
              op.eventId !in db.processed && op.id in db.invoices && db.invoices[op.id].tenant == op.t
    ensures Apply(db, op).Rejected? ==> Apply(db, op) == Rejected(NotFound)
  {
  }

  /**
   The payment joins the rows unless the tenant has its id, and the invoice is paid if it was sent or overdue and
   nothing is left to pay; nothing else changes.
   */
  lemma PayDoes(db: Db, op: Op)
    requires op.OpPay? && Apply(db, op).Committed?
    ensures var after := Next(db, op);
      && op.id in db.invoices && op.id in after.invoices
      && after == db.(invoices := after.invoices, payments := after.payments, processed := db.processed + {op.eventId})
      && after.invoices == db.invoices[op.id := after.invoices[op.id]]
      && ((exists k :: 0 <= k < |db.payments| && db.payments[k].tenant == op.t
                       && db.payments[k].paymentId == op.paymentId)
          ==> after.payments == db.payments)
      && ((forall k :: 0 <= k < |db.payments| && db.payments[k].tenant == op.t ==>
                         db.payments[k].paymentId != op.paymentId)
          ==> after.payments == db.payments + [Payment(op.t, op.id, op.paymentId, op.amount)])
      && var a := db.invoices[op.id];
      after.invoices[op.id] ==
        a.(status := if a.status in {Sent, Overdue} && Debt(after, op.id) <= 0 then Status.Paid else a.status)
  {
    PaidIsSum(Next(db, op).payments, op.t, op.id);
    PayIs(db, op);
    hide PaidOre, Next, Apply;
  }

  lemma PayIs(db: Db, op: Op)
    requires op.OpPay? && Apply(db, op).Committed?
    ensures var payments := WithPayment(db.payments, Payment(op.t, op.id, op.paymentId, op.amount));
      && op.id in db.invoices && db.invoices[op.id].tenant == op.t
      && Next(db, op) == db.(
           invoices := db.invoices[op.id := PaidIfCovered(db.invoices[op.id], PaidOre(payments, op.t, op.id))],
           payments := payments, processed := db.processed + {op.eventId})
  {
    hide PaidOre, WithPayment, PaidIfCovered;
  }

  /** Settings are the tenant's own; the number series goes on, or starts at 1. */
  lemma ConfigureRule(db: Db, op: Op)
    requires op.OpConfigure?
    ensures Apply(db, op).Committed?
    ensures var after := Next(db, op);
      && after == db.(settings := after.settings) && op.t in after.settings
      && after.settings == db.settings[op.t := after.settings[op.t]]
      && after.settings[op.t] ==
           Settings(if op.t in db.settings then db.settings[op.t].next else 1, op.complete, op.fee)
  {
  }
}
