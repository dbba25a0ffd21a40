/**
 Transactions as they interleave: each begins, takes row locks one at a time and reads under them, draws
 an identity value, buffers its writes, and commits or rolls back at any point. Every run of this machine
 commits exactly what the same transactions would do one after the other, in commit order.
 */
module Transactions {
  import opened Wrappers
  import opened Dates
  import opened Ledger
  import Vat

  // ---- Locks and what is read under them ------------------------------------------------------------

  /** Row locks, and the unique keys an INSERT ... ON CONFLICT waits on. */
  datatype Key =
    | InvoiceKey(id: nat)
    | SettingsKey(tenant: nat)
    | TemplateKey(id: nat)
    | EventKey(eventId: string)
    | PaymentKey(tenant: nat, paymentId: string)

  datatype Slice =
    | InvoiceSlice(row: Invoice, items: seq<Item>, paid: int, hasPayments: bool)
    | SettingsSlice(settings: Settings)
    | TemplateSlice(template: Template)
    | EventSlice(processed: bool)
    | PaymentSlice(booked: bool)

  predicate SliceFits(k: Key, s: Slice) {
    match k
    case InvoiceKey(_) => s.InvoiceSlice?
    case SettingsKey(_) => s.SettingsSlice?
    case TemplateKey(_) => s.TemplateSlice?
    case EventKey(_) => s.EventSlice?
    case PaymentKey(_, _) => s.PaymentSlice?
  }

  /** The row is there for the tenant; SELECT ... FOR UPDATE on a missing row locks nothing. */
  predicate Lockable(db: Db, t: nat, k: Key) {
    match k
    case InvoiceKey(id) => Visible(db, t, id)
    case TemplateKey(id) => id in db.templates && db.templates[id].tenant == t
    case SettingsKey(u) => u == t
    case EventKey(_) => true
    case PaymentKey(u, _) => u == t
  }

  /** What a transaction of tenant t sees once it holds key k. */
  function SliceOf(db: Db, t: nat, k: Key): (s: Slice)
    requires Lockable(db, t, k)
    ensures SliceFits(k, s)
  {
    match k
    case InvoiceKey(id) =>
      InvoiceSlice(db.invoices[id], ItemsOf(db, id), PaidOre(db.payments, t, id), HasPaymentFor(db.payments, id))
    case SettingsKey(_) => SettingsSlice(SettingsOf(db, t))
    case TemplateKey(id) => TemplateSlice(db.templates[id])
    case EventKey(e) => EventSlice(e in db.processed)
    case PaymentKey(_, p) => PaymentSlice(HasPaymentKey(db.payments, t, p))
  }

  /** A unique key already committed: an INSERT ... ON CONFLICT DO NOTHING neither waits for it nor locks it. */
  predicate Decided(db: Db, t: nat, k: Key) {
    || (k.EventKey? && k.eventId in db.processed)
    || (k.PaymentKey? && k.tenant == t && HasPaymentKey(db.payments, t, k.paymentId))
  }

  type Seen = r: map<Key, Slice> | forall k :: k in r ==> SliceFits(k, r[k]) witness map[]

  // ---- The program of each transaction -------------------------------------------------------------

  function RemainingIn(s: Slice): int
    requires s.InvoiceSlice?
  {
    s.row.totals.incl - s.paid
  }

  /** The next key to lock: the invoice or template row first, the number series as late as possible. */
  function NextKey(req: Op, seen: Seen): Option<Key> {
    match req
    case OpUpdate(_, id, _, _, _) => if InvoiceKey(id) in seen then None else Some(InvoiceKey(id))
    case OpRemove(_, id) => if InvoiceKey(id) in seen then None else Some(InvoiceKey(id))
    case OpSend(t, id) =>
      if InvoiceKey(id) !in seen then Some(InvoiceKey(id))
      else if seen[InvoiceKey(id)].row.status != Draft || SettingsKey(t) in seen then None
      else Some(SettingsKey(t))
    case OpCredit(t, id, _, _) =>
      if InvoiceKey(id) !in seen then Some(InvoiceKey(id))
      else if !Creditable(seen[InvoiceKey(id)].row) || SettingsKey(t) in seen then None
      else Some(SettingsKey(t))
    case OpRemind(t, id, _, _, _) =>
      if InvoiceKey(id) !in seen then Some(InvoiceKey(id))
      else
        var s := seen[InvoiceKey(id)];
        if !Remindable(s.row) || RemainingIn(s) <= 0 || SettingsKey(t) in seen then None
        else Some(SettingsKey(t))
    case OpGenerate(t, id, today, _, _) =>
      if TemplateKey(id) !in seen then Some(TemplateKey(id))
      else
        var tpl := seen[TemplateKey(id)].template;
        if !tpl.active || Before(today, tpl.next) || SettingsKey(t) in seen then None
        else Some(SettingsKey(t))
    case OpPay(t, e, id, p, _) =>
      if EventKey(e) !in seen then Some(EventKey(e))
      else if seen[EventKey(e)].processed then None
      else if InvoiceKey(id) !in seen then Some(InvoiceKey(id))
      else if PaymentKey(t, p) !in seen then Some(PaymentKey(t, p))
      else None
    case OpConfigure(t, _, _) => if SettingsKey(t) in seen then None else Some(SettingsKey(t))
    case _ => None
  }

  predicate Inserts(req: Op) {
    req.OpCreate? || req.OpCredit? || req.OpRemind? || req.OpGenerate? || req.OpAddTemplate?
  }

  function WithId(req: Op, id: nat): Op {
    match req
    case OpCreate(t, customer, lines, issued, due, today, _) => OpCreate(t, customer, lines, issued, due, today, id)
    case OpCredit(t, o, today, _) => OpCredit(t, o, today, id)
    case OpRemind(t, o, today, terms, _) => OpRemind(t, o, today, terms, id)
    case OpGenerate(t, p, today, terms, _) => OpGenerate(t, p, today, terms, id)
    case OpAddTemplate(t, customer, interval, next, lines, today, _) =>
      OpAddTemplate(t, customer, interval, next, lines, today, id)
    case _ => req
  }

  datatype Write =
    | PutSettings(tenant: nat, settings: Settings)
    | PutInvoice(id: nat, row: Invoice)
    | NewRow(id: nat, row: Invoice)
    | PutItems(id: nat, items: seq<Item>)
    | DeleteInvoice(id: nat)
    | PutInvoices(rows: map<nat, Invoice>)
    | PutTemplate(id: nat, template: Template)
    | AddPayment(payment: Payment)
    | AddEvent(event: Event)
    | AddProcessed(eventId: string)

  function ApplyWrite(db: Db, w: Write): Db {
    match w
    case PutSettings(t, s) => db.(settings := db.settings[t := s])
    case PutInvoice(id, row) => db.(invoices := db.invoices[id := row])
    case NewRow(id, row) => db.(invoices := db.invoices[id := row], ids := db.ids + {id})
    case PutItems(id, items) => db.(items := db.items[id := items])
    case DeleteInvoice(id) => Delete(db, id)
    case PutInvoices(rows) => db.(invoices := db.invoices + rows)
    case PutTemplate(id, tpl) => db.(templates := db.templates[id := tpl])
    case AddPayment(p) => db.(payments := db.payments + [p])
    case AddEvent(e) => db.(outbox := db.outbox + [e])
    case AddProcessed(e) => db.(processed := db.processed + {e})
  }

  function ApplyAll(db: Db, writes: seq<Write>): Db {
    if writes == [] then db else ApplyWrite(ApplyAll(db, writes[..|writes| - 1]), writes[|writes| - 1])
  }

  function CreatePlan(req: Op): seq<Write>
    requires req.OpCreate?
  {
    if !Vat.SchemaLines(req.lines) || !Vat.AllComputable(req.lines) then []
    else if Before(req.today, req.issued) || Before(req.due, req.issued) then []
    else
      var items := ToItems(req.lines);
      [NewRow(req.newId, NewInvoice(req.t, req.customer, Plain, Draft, req.issued, req.due, items)),
       PutItems(req.newId, items)]
  }

  function UpdatePlan(req: Op, s: Slice): seq<Write>
    requires req.OpUpdate? && s.InvoiceSlice?
  {
    if req.newLines.Some? && !(Vat.SchemaLines(req.newLines.value) && Vat.AllComputable(req.newLines.value)) then []
    else if s.row.status != Draft then []
    else
      var row := s.row.(
        issued := if req.newIssued.Some? then req.newIssued.value else s.row.issued,
        due := if req.newDue.Some? then req.newDue.value else s.row.due);
      if req.newLines.None? then [PutInvoice(req.id, row)]
      else
        var items := ToItems(req.newLines.value);
        [PutItems(req.id, items), PutInvoice(req.id, row.(totals := TotalsOf(items)))]
  }

  function RemovePlan(req: Op, s: Slice): seq<Write>
    requires req.OpRemove? && s.InvoiceSlice?
  {
    if s.row.status != Draft || s.hasPayments then [] else [DeleteInvoice(req.id)]
  }

  function BumpWrite(t: nat, s: Settings): Write {
    PutSettings(t, s.(next := s.next + 1))
  }

  function SendPlan(req: Op, s: Slice, series: Settings): seq<Write>
    requires req.OpSend? && s.InvoiceSlice?
  {
    if s.row.status != Draft || !CanNumber(series) then []
    else [BumpWrite(req.t, series), PutInvoice(req.id, Numbered(s.row.(status := Sent), series.next)),
          AddEvent(Event(InvoiceSent, req.id))]
  }

  function CreditPlan(req: Op, s: Slice, series: Settings): seq<Write>
    requires req.OpCredit? && s.InvoiceSlice?
  {
    if !Creditable(s.row) || !CanNumber(series) then []
    else
      var items := CreditItems(s.items);
      var note := NewInvoice(s.row.tenant, s.row.customer, CreditNote, Settled, req.today, req.today, items);
      [BumpWrite(req.t, series), NewRow(req.newId, Numbered(note, series.next).(credits := Some(req.id))),
       PutItems(req.newId, items), PutInvoice(req.id, s.row.(status := Credited)),
       AddEvent(Event(InvoiceCredited, req.newId))]
  }

  function RemindPlan(req: Op, s: Slice, series: Settings): seq<Write>
    requires req.OpRemind? && s.InvoiceSlice?
  {
    var lines := ReminderLines(RemainingIn(s), series.fee);
    if !Remindable(s.row) || RemainingIn(s) <= 0 || !CanNumber(series) || !Vat.AllComputable(lines) then []
    else
      var items := ToItems(lines);
      var due := AddDaysTo(req.today, req.terms);
      var reminder := NewInvoice(s.row.tenant, s.row.customer, Reminder, Sent, req.today, due, items);
      [BumpWrite(req.t, series), NewRow(req.newId, Numbered(reminder, series.next).(reminds := Some(req.id))),
       PutItems(req.newId, items), PutInvoice(req.id, s.row.(status := Superseded, supersededBy := Some(req.newId))),
       AddEvent(Event(ReminderSent, req.newId))]
  }

  function GeneratePlan(req: Op, tpl: Template, series: Settings): seq<Write>
    requires req.OpGenerate?
  {
    if !tpl.active || Before(req.today, tpl.next) || !Vat.AllComputable(tpl.lines) || !CanNumber(series) then []
    else
      var items := ToItems(tpl.lines);
      var due := AddDaysTo(tpl.next, req.terms);
      var row := NewInvoice(tpl.tenant, tpl.customer, Plain, Sent, tpl.next, due, items);
      [BumpWrite(req.t, series), NewRow(req.newId, Numbered(row, series.next).(template := Some(req.id))),
       PutItems(req.newId, items), AddEvent(Event(InvoiceSent, req.newId)),
       PutTemplate(req.id, tpl.(next := AdvanceByInterval(tpl.next, tpl.interval, tpl.billingDay)))]
  }

  /** paidOre sums under the invoice lock, the transaction's own insert included. */
  function PayPlan(req: Op, s: Slice, booked: bool): seq<Write>
    requires req.OpPay? && s.InvoiceSlice?
  {
    if booked then [AddProcessed(req.eventId), PutInvoice(req.id, PaidIfCovered(s.row, s.paid))]
    else [AddProcessed(req.eventId), AddPayment(Payment(req.t, req.id, req.paymentId, req.amount)),
          PutInvoice(req.id, PaidIfCovered(s.row, s.paid + req.amount))]
  }

  function AddTemplatePlan(req: Op): seq<Write>
    requires req.OpAddTemplate?
  {
    if !Vat.SchemaLines(req.lines) || !Vat.AllComputable(req.lines) || Before(req.next, req.today) then []
    else [PutTemplate(req.newId, Template(req.t, req.customer, req.interval, req.next, req.next.day, true, req.lines))]
  }

  /** The rows a bulk update has reached, all of them locked. */
  predicate Reached(req: Op, seen: Seen) {
    req.OpMarkOverdue? ==> forall i :: i in req.which ==> InvoiceKey(i) in seen
  }

  function MarkPlan(req: Op, seen: Seen): seq<Write>
    requires req.OpMarkOverdue? && Reached(req, seen)
  {
    [PutInvoices(map i | i in req.which :: seen[InvoiceKey(i)].row.(status := Overdue))]
  }

  function ConfigurePlan(req: Op, series: Settings): seq<Write>
    requires req.OpConfigure?
  {
    [PutSettings(req.t, series.(complete := req.complete, fee := req.fee))]
  }

  /** Everything a transaction will write once it has its locks; nothing if it stops before taking them all. */
  function Plan(req: Op, seen: Seen): seq<Write>
    requires NextKey(req, seen).None? && Reached(req, seen)
  {
    match req
    case OpCreate(_, _, _, _, _, _, _) => CreatePlan(req)
    case OpUpdate(_, id, _, _, _) => UpdatePlan(req, seen[InvoiceKey(id)])
    case OpRemove(_, id) => RemovePlan(req, seen[InvoiceKey(id)])
    case OpSend(t, id) =>
      if SettingsKey(t) !in seen then [] else SendPlan(req, seen[InvoiceKey(id)], seen[SettingsKey(t)].settings)
    case OpCredit(t, id, _, _) =>
      if SettingsKey(t) !in seen then [] else CreditPlan(req, seen[InvoiceKey(id)], seen[SettingsKey(t)].settings)
    case OpRemind(t, id, _, _, _) =>
      if SettingsKey(t) !in seen then [] else RemindPlan(req, seen[InvoiceKey(id)], seen[SettingsKey(t)].settings)
    case OpGenerate(t, id, _, _, _) =>
      if SettingsKey(t) !in seen then []
      else GeneratePlan(req, seen[TemplateKey(id)].template, seen[SettingsKey(t)].settings)
    case OpMarkOverdue(_, _, _) => MarkPlan(req, seen)
    case OpPay(t, e, id, p, _) =>
      if seen[EventKey(e)].processed then [] else PayPlan(req, seen[InvoiceKey(id)], seen[PaymentKey(t, p)].booked)
    case OpConfigure(t, _, _) => ConfigurePlan(req, seen[SettingsKey(t)].settings)
    case OpAddTemplate(_, _, _, _, _, _, _) => AddTemplatePlan(req)
  }

  // ---- The machine -----------------------------------------------------------------------------------

  /** `named`: the identity value of the row to insert has been drawn into the request. */
  datatype Tx = Tx(req: Op, named: bool, seen: Seen, written: seq<Write>)

  /** The identity sequences are not transactional: a rolled-back value is not given again. */
  datatype State = State(
    db: Db,
    txs: map<nat, Tx>,
    locks: map<Key, nat>,
    nextInvoice: nat,
    nextTemplate: nat,
    history: seq<Op>)

  const INITIAL := State(EMPTY, map[], map[], 1, 1, [])

  datatype Step =
    | Begin(x: nat, req: Op)
    | Acquire(x: nat)
    | Reach(x: nat, id: nat)
    | DrawId(x: nat)
    | Perform(x: nat)
    | Commit(x: nat)
    | Abort(x: nat)

  /** What the request schemas guarantee; a bulk update has reached no row yet. */
  predicate Asked(req: Op) {
    match req
    case OpPay(_, _, _, _, amount) => amount >= 1
    case OpConfigure(_, _, fee) => fee >= 0
    case OpAddTemplate(_, _, _, next, _, _, _) => IsValid(next) && next.year >= 100
    case _ => true
  }

  predicate Ready(tx: Tx) {
    && NextKey(tx.req, tx.seen).None? && Reached(tx.req, tx.seen)
    && (Inserts(tx.req) ==> tx.named)
  }

  predicate MayStep(s: State, step: Step) {
    match step
    case Begin(x, req) => x !in s.txs && Asked(req) && (req.OpMarkOverdue? ==> req.which == {})
    case Acquire(x) =>
      && x in s.txs
      && var key := NextKey(s.txs[x].req, s.txs[x].seen);
      && key.Some? && Lockable(s.db, s.txs[x].req.t, key.value)
      && (key.value !in s.locks || Decided(s.db, s.txs[x].req.t, key.value))
    case Reach(x, id) =>
      && x in s.txs && s.txs[x].req.OpMarkOverdue? && s.txs[x].written == []
      && OverdueNow(s.db, s.txs[x].req.t, s.txs[x].req.today, id) && InvoiceKey(id) !in s.locks
    case DrawId(x) => x in s.txs && Inserts(s.txs[x].req) && !s.txs[x].named
    case Perform(x) =>
      && x in s.txs && Ready(s.txs[x])
      && s.txs[x].written < Plan(s.txs[x].req, s.txs[x].seen)
    case Commit(x) =>
      && x in s.txs && NextKey(s.txs[x].req, s.txs[x].seen).None? && Reached(s.txs[x].req, s.txs[x].seen)
      && s.txs[x].written == Plan(s.txs[x].req, s.txs[x].seen)
    case Abort(x) => x in s.txs
  }

  function Released(locks: map<Key, nat>, x: nat): map<Key, nat> {
    map k | k in locks && locks[k] != x :: locks[k]
  }

  function Do(s: State, step: Step): State
    requires MayStep(s, step)
  {
    match step
    case Begin(x, req) => s.(txs := s.txs[x := Tx(req, false, map[], [])])
    case Acquire(x) =>
      var tx := s.txs[x];
      var k := NextKey(tx.req, tx.seen).value;
      s.(txs := s.txs[x := tx.(seen := tx.seen[k := SliceOf(s.db, tx.req.t, k)])],
         locks := if Decided(s.db, tx.req.t, k) then s.locks else s.locks[k := x])
    case Reach(x, id) =>
      var tx := s.txs[x];
      var k := InvoiceKey(id);
      var reached := tx.(req := tx.req.(which := tx.req.which + {id}),
                         seen := tx.seen[k := SliceOf(s.db, tx.req.t, k)]);
      s.(txs := s.txs[x := reached], locks := s.locks[k := x])
    case DrawId(x) =>
      var tx := s.txs[x];
      if tx.req.OpAddTemplate? then
        s.(txs := s.txs[x := tx.(req := WithId(tx.req, s.nextTemplate), named := true)],
           nextTemplate := s.nextTemplate + 1)
      else
        s.(txs := s.txs[x := tx.(req := WithId(tx.req, s.nextInvoice), named := true)],
           nextInvoice := s.nextInvoice + 1)
    case Perform(x) =>
      var tx := s.txs[x];
      s.(txs := s.txs[x := tx.(written := tx.written + [Plan(tx.req, tx.seen)[|tx.written|]])])
    case Commit(x) =>
      var tx := s.txs[x];
      s.(db := ApplyAll(s.db, tx.written), txs := s.txs - {x}, locks := Released(s.locks, x),
         history := if tx.written == [] then s.history else s.history + [tx.req])
    case Abort(x) => s.(txs := s.txs - {x}, locks := Released(s.locks, x))
  }
}
