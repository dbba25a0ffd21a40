/**
 The billing tables and the effect of every transaction on them, as functions on table values.
 A rejected or skipped transaction leaves the tables as they were: its writes are rolled back.
 */
module Ledger {
  import opened Wrappers
  import opened Dates
  import Ocr
  import Vat

  datatype Kind = Plain | CreditNote | Reminder

  datatype Status = Draft | Sent | Overdue | Paid | Credited | Superseded | Settled

  datatype Invoice = Invoice(
    tenant: nat,
    customer: nat,
    number: Option<nat>,
    ocr: Option<string>,
    kind: Kind,
    status: Status,
    issued: Date,
    due: Date,
    totals: Vat.Amounts,
    credits: Option<nat>,
    reminds: Option<nat>,
    supersededBy: Option<nat>,
    template: Option<nat>)

  datatype Item = Item(milli: int, unitPrice: int, vatRate: int, amounts: Vat.Amounts)

  datatype Payment = Payment(tenant: nat, invoice: nat, paymentId: string, amount: int)

  /** `complete`: company name, organisation number and bankgiro are all filled in. */
  datatype Settings = Settings(next: nat, complete: bool, fee: int)

  /** The defaults of a lazily created row. */
  const DEFAULT_SETTINGS := Settings(1, false, 6000)

  datatype Template = Template(
    tenant: nat,
    customer: nat,
    interval: Interval,
    next: Date,
    billingDay: int,
    active: bool,
    lines: seq<Vat.LineInput>)

  datatype EventKind = InvoiceSent | InvoiceCredited | ReminderSent

  datatype Event = Event(kind: EventKind, invoice: nat)

  /** `ids` are the identity values of all rows ever committed; the sequence never repeats one. */
  datatype Db = Db(
    invoices: map<nat, Invoice>,
    items: map<nat, seq<Item>>,
    payments: seq<Payment>,
    settings: map<nat, Settings>,
    templates: map<nat, Template>,
    processed: set<string>,
    outbox: seq<Event>,
    ids: set<nat>)

  const EMPTY := Db(map[], map[], [], map[], map[], {}, [], {})

  datatype Error =
    | NotFound
    | NotDraft
    | NotCreditable
    | Incomplete
    | BadLines
    | BadDates
    | HasPayments
    | UnsafeAmount

  /** Committed with a new table state, committed without doing anything, or rolled back. */
  datatype Outcome = Committed(db: Db) | Skipped | Rejected(error: Error)

  // ---- Reads -----------------------------------------------------------------------------------

  /** Every lookup by id is filtered on the tenant. */
  predicate Visible(db: Db, t: nat, id: nat) {
    id in db.invoices && db.invoices[id].tenant == t
  }

  function SettingsOf(db: Db, t: nat): Settings {
    if t in db.settings then db.settings[t] else DEFAULT_SETTINGS
  }

  /** The sender details are complete, and the next number is one deriveOcr accepts. */
  predicate CanNumber(s: Settings) {
    s.complete && s.next > 0
  }

  /** SUM(amount_ore) over the payment rows of one invoice. */
  function PaidOre(payments: seq<Payment>, t: nat, id: nat): int {
    if payments == [] then 0
    else
      var last := payments[|payments| - 1];
      PaidOre(payments[..|payments| - 1], t, id) + (if last.tenant == t && last.invoice == id then last.amount else 0)
  }

  predicate HasPaymentKey(payments: seq<Payment>, t: nat, paymentId: string) {
    exists k :: 0 <= k < |payments| && payments[k].tenant == t && payments[k].paymentId == paymentId
  }

  predicate HasPaymentFor(payments: seq<Payment>, id: nat) {
    exists k :: 0 <= k < |payments| && payments[k].invoice == id
  }

  predicate Open(s: Status) {
    s == Sent || s == Overdue
  }

  // ---- Rows ------------------------------------------------------------------------------------

  function ToItem(l: Vat.LineInput): Item
    requires Vat.Computable(l)
  {
    Item(l.milli, l.unitPrice, l.vatRate, Vat.ComputeLine(l))
  }

  /** toItems: one computed item per line. */
  function ToItems(lines: seq<Vat.LineInput>): (r: seq<Item>)
    requires Vat.AllComputable(lines)
    ensures |r| == |lines|
  {
    seq(|lines|, i requires 0 <= i < |lines| => ToItem(lines[i]))
  }

  /** A line of exactly one unit without VAT. */
  function ZeroVatLine(price: int): Vat.LineInput {
    Vat.LineInput(1000, price, 0)
  }

  /** The mirrored line of a credit note: quantity and amounts with the sign changed. */
  function CreditItem(it: Item): Item {
    Item(-it.milli, it.unitPrice, it.vatRate, Vat.Negate(it.amounts))
  }

  function CreditItems(items: seq<Item>): (r: seq<Item>)
    ensures |r| == |items|
  {
    seq(|items|, i requires 0 <= i < |items| => CreditItem(items[i]))
  }

  function AmountsOf(items: seq<Item>): (r: seq<Vat.Amounts>)
    ensures |r| == |items|
    ensures forall i :: 0 <= i < |r| ==> r[i] == items[i].amounts
  {
    seq(|items|, i requires 0 <= i < |items| => items[i].amounts)
  }

  function TotalsOf(items: seq<Item>): Vat.Amounts {
    Vat.SumTotals(AmountsOf(items))
  }

  // ---- Table edits -----------------------------------------------------------------------------

  /** The row and its items are written. */
  function Insert(db: Db, id: nat, row: Invoice, items: seq<Item>): Db {
    db.(invoices := db.invoices[id := row], items := db.items[id := items], ids := db.ids + {id})
  }

  function SetRow(db: Db, id: nat, row: Invoice): Db {
    db.(invoices := db.invoices[id := row])
  }

  /**
   The writes shared by everything that takes a number: the row and its items, the tenant's number
   series (lockForUpdate creates a missing settings row, bumpInvoiceNumber counts on), and the outbox event.
   */
  function Register(db: Db, t: nat, kind: EventKind, id: nat, row: Invoice, items: seq<Item>): Db {
    var s := SettingsOf(db, t);
    db.(invoices := db.invoices[id := row],
        items := db.items[id := items],
        settings := db.settings[t := s.(next := s.next + 1)],
        outbox := db.outbox + [Event(kind, id)],
        ids := db.ids + {id})
  }

  /** findItems. */
  function ItemsOf(db: Db, id: nat): seq<Item> {
    if id in db.items then db.items[id] else []
  }

  function Numbered(row: Invoice, number: nat): Invoice
    requires number > 0
  {
    row.(number := Some(number), ocr := Some(Ocr.DeriveOcr(number)))
  }

  // ---- Transactions ----------------------------------------------------------------------------

  function NewInvoice(t: nat, customer: nat, kind: Kind, status: Status, issued: Date, due: Date,
                      items: seq<Item>): Invoice {
    Invoice(t, customer, None, None, kind, status, issued, due, TotalsOf(items), None, None, None, None)
  }

  /** createInTx. */
  function Create(db: Db, t: nat, customer: nat, lines: seq<Vat.LineInput>, issued: Date, due: Date,
                  today: Date, newId: nat): Outcome {
    if !Vat.SchemaLines(lines) || !Vat.AllComputable(lines) then Rejected(BadLines)
    else if Before(today, issued) || Before(due, issued) then Rejected(BadDates)
    else
      var items := ToItems(lines);
      Committed(Insert(db, newId, NewInvoice(t, customer, Plain, Draft, issued, due, items), items))
  }

  /** deleteInvoice, with the items by cascade. */
  function Delete(db: Db, id: nat): Db {
    db.(invoices := db.invoices - {id}, items := db.items - {id})
  }

  /** update: only drafts; lines left out keep the stored items and totals. */
  function Update(db: Db, t: nat, id: nat, lines: Option<seq<Vat.LineInput>>, issued: Option<Date>,
                  due: Option<Date>): Outcome {
    if lines.Some? && !(Vat.SchemaLines(lines.value) && Vat.AllComputable(lines.value)) then Rejected(BadLines)
    else if !Visible(db, t, id) then Rejected(NotFound)
    else if db.invoices[id].status != Draft then Rejected(NotDraft)
    else
      var row := db.invoices[id].(
        issued := if issued.Some? then issued.value else db.invoices[id].issued,
        due := if due.Some? then due.value else db.invoices[id].due);
      if lines.None? then Committed(Insert(db, id, row, ItemsOf(db, id)))
      else
        var items := ToItems(lines.value);
        Committed(Insert(db, id, row.(totals := TotalsOf(items)), items))
  }

  /** remove: only drafts; the foreign key of invoice_payments restricts the delete. */
  function Remove(db: Db, t: nat, id: nat): Outcome {
    if !Visible(db, t, id) then Rejected(NotFound)
    else if db.invoices[id].status != Draft then Rejected(NotDraft)
    else if HasPaymentFor(db.payments, id) then Rejected(HasPayments)
    else Committed(Delete(db, id))
  }

  /** sendInTx. */
  function Send(db: Db, t: nat, id: nat): Outcome {
    var s := SettingsOf(db, t);
    if !Visible(db, t, id) then Rejected(NotFound)
    else if db.invoices[id].status != Draft then Rejected(NotDraft)
    else if !CanNumber(s) then Rejected(Incomplete)
    else
      var row := Numbered(db.invoices[id].(status := Sent), s.next);
      Committed(Register(db, t, InvoiceSent, id, row, ItemsOf(db, id)))
  }

  predicate Creditable(row: Invoice) {
    row.kind == Plain && (row.status == Sent || row.status == Overdue || row.status == Paid)
  }

  function CreditNoteFor(db: Db, id: nat, today: Date, number: nat): Invoice
    requires id in db.invoices && number > 0
  {
    var o := db.invoices[id];
    Numbered(NewInvoice(o.tenant, o.customer, CreditNote, Settled, today, today, CreditItems(ItemsOf(db, id))), number)
      .(credits := Some(id))
  }

  /** creditInTx: a settled credit note, and the original credited. */
  function Credit(db: Db, t: nat, id: nat, today: Date, newId: nat): Outcome {
    var s := SettingsOf(db, t);
    if !Visible(db, t, id) then Rejected(NotFound)
    else if !Creditable(db.invoices[id]) then Rejected(NotCreditable)
    else if !CanNumber(s) then Rejected(Incomplete)
    else
      var note := CreditNoteFor(db, id, today, s.next);
      var noted := Register(db, t, InvoiceCredited, newId, note, CreditItems(ItemsOf(db, id)));
      Committed(SetRow(noted, id, db.invoices[id].(status := Credited)))
  }

  predicate Remindable(row: Invoice) {
    row.kind == Plain && Open(row.status) && row.reminds.None? && row.supersededBy.None?
  }

  function Remaining(db: Db, id: nat): int
    requires id in db.invoices
  {
    var row := db.invoices[id];
    row.totals.incl - PaidOre(db.payments, row.tenant, id)
  }

  function ReminderLines(remaining: int, fee: int): seq<Vat.LineInput> {
    [ZeroVatLine(remaining), ZeroVatLine(fee)]
  }

  function ReminderFor(db: Db, id: nat, lines: seq<Vat.LineInput>, today: Date, due: Date, number: nat): Invoice
    requires id in db.invoices && Vat.AllComputable(lines) && number > 0
  {
    var o := db.invoices[id];
    Numbered(NewInvoice(o.tenant, o.customer, Reminder, Sent, today, due, ToItems(lines)), number).(reminds := Some(id))
  }

  /** createReminderInTx: the remaining debt plus the fee moves to a new invoice. */
  function Remind(db: Db, t: nat, id: nat, today: Date, terms: int, newId: nat): Outcome {
    var s := SettingsOf(db, t);
    if !Visible(db, t, id) || !Remindable(db.invoices[id]) || Remaining(db, id) <= 0 then Skipped
    else if !CanNumber(s) then Rejected(Incomplete)
    else
      var lines := ReminderLines(Remaining(db, id), s.fee);
      if !Vat.AllComputable(lines) then Rejected(UnsafeAmount)
      else
        var reminder := ReminderFor(db, id, lines, today, AddDaysTo(today, terms), s.next);
        var reminded := Register(db, t, ReminderSent, newId, reminder, ToItems(lines));
        Committed(SetRow(reminded, id, db.invoices[id].(status := Superseded, supersededBy := Some(newId))))
  }

  predicate DueTemplate(db: Db, t: nat, id: nat, today: Date) {
    && id in db.templates && db.templates[id].tenant == t
    && db.templates[id].active && !Before(today, db.templates[id].next)
  }

  function GeneratedFrom(db: Db, id: nat, items: seq<Item>, terms: int, number: nat): Invoice
    requires id in db.templates && number > 0
  {
    var tpl := db.templates[id];
    Numbered(NewInvoice(tpl.tenant, tpl.customer, Plain, Sent, tpl.next, AddDaysTo(tpl.next, terms), items), number)
      .(template := Some(id))
  }

  /** generateFromTemplateInTx: an invoice dated on the scheduled day, and the template one period on. */
  function Generate(db: Db, t: nat, id: nat, today: Date, terms: int, newId: nat): Outcome {
    var s := SettingsOf(db, t);
    if !DueTemplate(db, t, id, today) then Skipped
    else
      var tpl := db.templates[id];
      if !Vat.AllComputable(tpl.lines) then Rejected(UnsafeAmount)
      else if !CanNumber(s) then Rejected(Incomplete)
      else
        var items := ToItems(tpl.lines);
        var generated := Register(db, t, InvoiceSent, newId, GeneratedFrom(db, id, items, terms, s.next), items);
        var rolled := tpl.(next := AdvanceByInterval(tpl.next, tpl.interval, tpl.billingDay));
        Committed(generated.(templates := db.templates[id := rolled]))
  }

  predicate OverdueNow(db: Db, t: nat, today: Date, id: nat) {
    Visible(db, t, id) && db.invoices[id].status == Sent && Before(db.invoices[id].due, today)
  }

  /** The rows an UPDATE reached: those of `which` that (still) match its condition. */
  function Marked(db: Db, t: nat, today: Date, which: set<nat>): (m: map<nat, Invoice>)
    ensures m.Keys == db.invoices.Keys
  {
    map i | i in db.invoices ::
      if i in which && OverdueNow(db, t, today, i) then db.invoices[i].(status := Overdue) else db.invoices[i]
  }

  /** markOverdueBulk. */
  function MarkOverdue(db: Db, t: nat, today: Date, which: set<nat>): Outcome {
    Committed(db.(invoices := Marked(db, t, today, which)))
  }

  /** insertPayment with ON CONFLICT (tenant_id, payment_id) DO NOTHING. */
  function WithPayment(payments: seq<Payment>, p: Payment): seq<Payment> {
    if HasPaymentKey(payments, p.tenant, p.paymentId) then payments else payments + [p]
  }

  /** setPaidIfCovered. */
  function PaidIfCovered(row: Invoice, paid: int): Invoice {
    if Open(row.status) && paid >= row.totals.incl then row.(status := Paid) else row
  }

  /** The payment consumer's apply. */
  function Pay(db: Db, t: nat, eventId: string, id: nat, paymentId: string, amount: int): Outcome {
    if eventId in db.processed then Skipped
    else if !Visible(db, t, id) then Rejected(NotFound)
    else
      var payments := WithPayment(db.payments, Payment(t, id, paymentId, amount));
      var row := PaidIfCovered(db.invoices[id], PaidOre(payments, t, id));
      Committed(SetRow(db, id, row).(payments := payments, processed := db.processed + {eventId}))
  }

  /** A settings update: never touches the number series. */
  function Configure(db: Db, t: nat, complete: bool, fee: int): Outcome {
    Committed(db.(settings := db.settings[t := SettingsOf(db, t).(complete := complete, fee := fee)]))
  }

  /** createTemplateInTx: the anchor day is the day of the first date. */
  function AddTemplate(db: Db, t: nat, customer: nat, interval: Interval, next: Date,
                       lines: seq<Vat.LineInput>, today: Date, newId: nat): Outcome {
    if !Vat.SchemaLines(lines) || !Vat.AllComputable(lines) then Rejected(BadLines)
    else if Before(next, today) then Rejected(BadDates)
    else
      var tpl := Template(t, customer, interval, next, next.day, true, lines);
      Committed(db.(templates := db.templates[newId := tpl]))
  }

  // ---- Steps and runs --------------------------------------------------------------------------

  datatype Op =
    | OpCreate(t: nat, customer: nat, lines: seq<Vat.LineInput>, issued: Date, due: Date, today: Date, newId: nat)
    | OpUpdate(t: nat, id: nat, newLines: Option<seq<Vat.LineInput>>, newIssued: Option<Date>, newDue: Option<Date>)
    | OpRemove(t: nat, id: nat)
    | OpSend(t: nat, id: nat)
    | OpCredit(t: nat, id: nat, today: Date, newId: nat)
    | OpRemind(t: nat, id: nat, today: Date, terms: int, newId: nat)
    | OpGenerate(t: nat, id: nat, today: Date, terms: int, newId: nat)
    | OpMarkOverdue(t: nat, today: Date, which: set<nat>)
    | OpPay(t: nat, eventId: string, id: nat, paymentId: string, amount: int)
    | OpConfigure(t: nat, complete: bool, fee: int)
    | OpAddTemplate(t: nat, customer: nat, interval: Interval, next: Date, lines: seq<Vat.LineInput>, today: Date,
                    newId: nat)

  /** What the request schemas and the identity sequences guarantee before a transaction starts. */
  predicate Enabled(db: Db, op: Op) {
    match op
    case OpCreate(_, _, _, _, _, _, newId) => newId !in db.ids
    case OpCredit(_, _, _, newId) => newId !in db.ids
    case OpRemind(_, _, _, _, newId) => newId !in db.ids
    case OpGenerate(_, _, _, _, newId) => newId !in db.ids
    case OpPay(_, _, _, _, amount) => amount >= 1
    case OpConfigure(_, _, fee) => fee >= 0
    case OpAddTemplate(_, _, _, next, _, _, newId) => newId !in db.templates && IsValid(next) && next.year >= 100
    case _ => true
  }

  function Apply(db: Db, op: Op): Outcome {
    match op
    case OpCreate(t, customer, lines, issued, due, today, newId) =>
      Create(db, t, customer, lines, issued, due, today, newId)
    case OpUpdate(t, id, lines, issued, due) => Update(db, t, id, lines, issued, due)
    case OpRemove(t, id) => Remove(db, t, id)
    case OpSend(t, id) => Send(db, t, id)
    case OpCredit(t, id, today, newId) => Credit(db, t, id, today, newId)
    case OpRemind(t, id, today, terms, newId) => Remind(db, t, id, today, terms, newId)
    case OpGenerate(t, id, today, terms, newId) => Generate(db, t, id, today, terms, newId)
    case OpMarkOverdue(t, today, which) => MarkOverdue(db, t, today, which)
    case OpPay(t, eventId, id, paymentId, amount) => Pay(db, t, eventId, id, paymentId, amount)
    case OpConfigure(t, complete, fee) => Configure(db, t, complete, fee)
    case OpAddTemplate(t, customer, interval, next, lines, today, newId) =>
      AddTemplate(db, t, customer, interval, next, lines, today, newId)
  }

  function Next(db: Db, op: Op): Db {
    match Apply(db, op)
    case Committed(after) => after
    case _ => db
  }

  predicate EnabledRun(db: Db, ops: seq<Op>)
    decreases |ops|
  {
    ops == [] || (Enabled(db, ops[0]) && EnabledRun(Next(db, ops[0]), ops[1..]))
  }

  function Run(db: Db, ops: seq<Op>): Db
    decreases |ops|
  {
    if ops == [] then db else Run(Next(db, ops[0]), ops[1..])
  }
}
