/** The billing service as it updates its tables, statement by statement inside each transaction. */
module Billing {
  import opened Wrappers
  import opened Dates
  import opened Ledger
  import LedgerHistory
  import LedgerInvariants
  import Ocr
  import Vat

  /** What a caller sees: it was done, there was nothing to do, or it failed and was rolled back. */
  datatype Reply = Done | Nothing | Failed(error: Error)

  /** The tables and the reply a transaction ends with. */
  function Effect(db: Db, o: Outcome): (Db, Reply) {
    match o
    case Committed(after) => (after, Done)
    case Skipped => (db, Nothing)
    case Rejected(e) => (db, Failed(e))
  }

  // ---- The outcomes, spelled out table by table ------------------------------------------------------------

  function Bumped(db: Db, t: nat): map<nat, Settings> {
    db.settings[t := SettingsOf(db, t).(next := SettingsOf(db, t).next + 1)]
  }

  lemma CreditCases(db: Db, t: nat, id: nat, today: Date, newId: nat)
    ensures !Visible(db, t, id) ==> Credit(db, t, id, today, newId) == Rejected(NotFound)
    ensures Visible(db, t, id) && !Creditable(db.invoices[id]) ==>
            Credit(db, t, id, today, newId) == Rejected(NotCreditable)
    ensures Visible(db, t, id) && Creditable(db.invoices[id]) && !CanNumber(SettingsOf(db, t)) ==>
              Credit(db, t, id, today, newId) == Rejected(Incomplete)
    ensures Visible(db, t, id) && Creditable(db.invoices[id]) && CanNumber(SettingsOf(db, t)) ==>
              Credit(db, t, id, today, newId) == Committed(db.(
                invoices := db.invoices[newId := CreditNoteFor(db, id, today, SettingsOf(db, t).next)][
                                        id := db.invoices[id].(status := Credited)],
                items := db.items[newId := CreditItems(ItemsOf(db, id))], settings := Bumped(db, t),
                outbox := db.outbox + [Event(InvoiceCredited, newId)], ids := db.ids + {newId}))
  {
  }

  lemma RemindCases(db: Db, t: nat, id: nat, today: Date, terms: int, newId: nat)
    ensures !(Visible(db, t, id) && Remindable(db.invoices[id]) && Remaining(db, id) > 0) ==>
              Remind(db, t, id, today, terms, newId) == Skipped
    ensures Visible(db, t, id) && Remindable(db.invoices[id]) && Remaining(db, id) > 0
            && !CanNumber(SettingsOf(db, t)) ==>
              Remind(db, t, id, today, terms, newId) == Rejected(Incomplete)
    ensures Visible(db, t, id) && Remindable(db.invoices[id]) && Remaining(db, id) > 0
            && CanNumber(SettingsOf(db, t)) ==>
              Remind(db, t, id, today, terms, newId) == RemindWrites(db, t, id, today, terms, newId)
  {
  }

  function RemindWrites(db: Db, t: nat, id: nat, today: Date, terms: int, newId: nat): Outcome
    requires id in db.invoices && SettingsOf(db, t).next > 0
  {
    var s := SettingsOf(db, t);
    var lines := ReminderLines(Remaining(db, id), s.fee);
    if !Vat.AllComputable(lines) then Rejected(UnsafeAmount)
    else
      Committed(db.(
        invoices := db.invoices[newId := ReminderFor(db, id, lines, today, AddDaysTo(today, terms), s.next)][
                                id := db.invoices[id].(status := Superseded, supersededBy := Some(newId))],
        items := db.items[newId := ToItems(lines)], settings := Bumped(db, t),
        outbox := db.outbox + [Event(ReminderSent, newId)], ids := db.ids + {newId}))
  }

  lemma GenerateCases(db: Db, t: nat, p: nat, today: Date, terms: int, newId: nat)
    ensures !DueTemplate(db, t, p, today) ==> Generate(db, t, p, today, terms, newId) == Skipped
    ensures DueTemplate(db, t, p, today) && !Vat.AllComputable(db.templates[p].lines) ==>
              Generate(db, t, p, today, terms, newId) == Rejected(UnsafeAmount)
    ensures DueTemplate(db, t, p, today) && Vat.AllComputable(db.templates[p].lines)
            && !CanNumber(SettingsOf(db, t)) ==>
              Generate(db, t, p, today, terms, newId) == Rejected(Incomplete)
    ensures DueTemplate(db, t, p, today) && Vat.AllComputable(db.templates[p].lines) && CanNumber(SettingsOf(db, t)) ==>
              Generate(db, t, p, today, terms, newId) == GenerateWrites(db, t, p, terms, newId)
  {
  }

  function GenerateWrites(db: Db, t: nat, p: nat, terms: int, newId: nat): Outcome
    requires p in db.templates && Vat.AllComputable(db.templates[p].lines) && SettingsOf(db, t).next > 0
  {
    var tpl := db.templates[p];
    var items := ToItems(tpl.lines);
    Committed(db.(
      invoices := db.invoices[newId := GeneratedFrom(db, p, items, terms, SettingsOf(db, t).next)],
      items := db.items[newId := items], settings := Bumped(db, t),
      templates := db.templates[p := tpl.(next := AdvanceByInterval(tpl.next, tpl.interval, tpl.billingDay))],
      outbox := db.outbox + [Event(InvoiceSent, newId)], ids := db.ids + {newId}))
  }

  lemma PayCases(db: Db, t: nat, eventId: string, id: nat, paymentId: string, amount: int)
    ensures eventId in db.processed ==> Pay(db, t, eventId, id, paymentId, amount) == Skipped
    ensures eventId !in db.processed && !Visible(db, t, id) ==>
            Pay(db, t, eventId, id, paymentId, amount) == Rejected(NotFound)
    ensures eventId !in db.processed && Visible(db, t, id) ==>
              Pay(db, t, eventId, id, paymentId, amount) == PayWrites(db, t, eventId, id, paymentId, amount)
    ensures WithPayment(db.payments, Payment(t, id, paymentId, amount)) != db.payments <==>
              !HasPaymentKey(db.payments, t, paymentId)
  {
  }

  function PayWrites(db: Db, t: nat, eventId: string, id: nat, paymentId: string, amount: int): Outcome
    requires id in db.invoices
  {
    var payments := WithPayment(db.payments, Payment(t, id, paymentId, amount));
    Committed(db.(invoices := db.invoices[id := PaidIfCovered(db.invoices[id], PaidOre(payments, t, id))],
                  payments := payments, processed := db.processed + {eventId}))
  }

  class BillingDb {
    var invoices: map<nat, Invoice>
    var items: map<nat, seq<Item>>
    var payments: seq<Payment>
    var settings: map<nat, Settings>
    var templates: map<nat, Template>
    var processed: set<string>
    var outbox: seq<Event>
    var ids: set<nat>
    /** The identity sequences; a rolled-back transaction does not give its values back. */
    var nextInvoice: nat
    var nextTemplate: nat

    constructor ()
      ensures Db() == EMPTY && Valid()
    {
      invoices, items, payments, settings, templates := map[], map[], [], map[], map[];
      processed, outbox, ids := {}, [], {};
      nextInvoice, nextTemplate := 1, 1;
    }

    function Db(): Db
      reads this
    {
      Ledger.Db(invoices, items, payments, settings, templates, processed, outbox, ids)
    }

    /** No committed row has an identity value still to be drawn, and every row and its items are there. */
    ghost predicate Valid()
      reads this
    {
      && (forall i :: i in ids ==> i < nextInvoice)
      && (forall p :: p in templates ==> p < nextTemplate)
      && invoices.Keys <= ids && items.Keys == invoices.Keys
    }

    // ---- Statements ----------------------------------------------------------------------------------

    method Rollback(db: Db)
      modifies this`invoices, this`items, this`payments, this`settings
      modifies this`templates, this`processed, this`outbox, this`ids
      ensures Db() == db
    {
      invoices, items, payments, settings := db.invoices, db.items, db.payments, db.settings;
      templates, processed, outbox, ids := db.templates, db.processed, db.outbox, db.ids;
    }

    method DrawInvoiceId() returns (id: nat)
      modifies this`nextInvoice
      ensures id == old(nextInvoice) && nextInvoice == id + 1
    {
      id := nextInvoice;
      nextInvoice := nextInvoice + 1;
    }

    /** Creates the tenant's row if it is missing, and reads it under the lock. */
    method LockForUpdate(t: nat) returns (s: Settings)
      modifies this`settings
      ensures s == SettingsOf(old(Db()), t) && settings == old(settings)[t := s]
    {
      if t !in settings {
        settings := settings[t := DEFAULT_SETTINGS];
      }
      s := settings[t];
    }

    method BumpInvoiceNumber(t: nat)
      requires t in settings
      modifies this`settings
      ensures settings == old(settings)[t := old(settings)[t].(next := old(settings)[t].next + 1)]
    {
      settings := settings[t := settings[t].(next := settings[t].next + 1)];
    }

    method InsertInvoice(id: nat, row: Invoice, rows: seq<Item>)
      modifies this`invoices, this`items, this`ids
      ensures Db() == Insert(old(Db()), id, row, rows)
    {
      invoices := invoices[id := row];
      ids := ids + {id};
      items := items[id := rows];
    }

    method MarkSent(id: nat, number: nat, ocr: string)
      requires id in invoices
      modifies this`invoices
      ensures Db() == SetRow(old(Db()), id,
                             old(invoices)[id].(status := Sent, number := Some(number), ocr := Some(ocr)))
    {
      invoices := invoices[id := invoices[id].(status := Sent, number := Some(number), ocr := Some(ocr))];
    }

    method SetStatus(id: nat, status: Status)
      requires id in invoices
      modifies this`invoices
      ensures Db() == SetRow(old(Db()), id, old(invoices)[id].(status := status))
    {
      invoices := invoices[id := invoices[id].(status := status)];
    }

    method Supersede(id: nat, reminder: nat)
      requires id in invoices
      modifies this`invoices
      ensures Db() == SetRow(old(Db()), id, old(invoices)[id].(status := Superseded, supersededBy := Some(reminder)))
    {
      invoices := invoices[id := invoices[id].(status := Superseded, supersededBy := Some(reminder))];
    }

    method DeleteInvoice(id: nat)
      modifies this`invoices, this`items
      ensures invoices == old(invoices) - {id} && items == old(items) - {id}
    {
      invoices := invoices - {id};
      items := items - {id};
    }

    method WriteEvent(kind: EventKind, id: nat)
      modifies this`outbox
      ensures Db() == old(Db()).(outbox := old(outbox) + [Event(kind, id)])
    {
      outbox := outbox + [Event(kind, id)];
    }

    /** The sum of the payment rows of an invoice. */
    method SumPayments(t: nat, id: nat) returns (paid: int)
      ensures paid == PaidOre(payments, t, id)
    {
      paid := 0;
      for k := 0 to |payments|
        invariant paid == PaidOre(payments[..k], t, id)
      {
        assert payments[..k + 1][..k] == payments[..k];
        if payments[k].tenant == t && payments[k].invoice == id {
          paid := paid + payments[k].amount;
        }
      }
      assert payments[..|payments|] == payments;
    }

    /** The next number of the tenant's series, or None if the sender details are incomplete. */
    method AllocateNumber(t: nat) returns (number: Option<nat>, s: Settings)
      modifies this`settings
      ensures s == SettingsOf(old(Db()), t)
      ensures number == if CanNumber(s) then Some(s.next) else None
      ensures number.Some? ==> Db() == old(Db()).(settings := Bumped(old(Db()), t))
    {
      s := LockForUpdate(t);
      if !s.complete || s.next == 0 {
        return None, s;
      }
      BumpInvoiceNumber(t);
      number := Some(s.next);
    }

    // ---- Drafts ----------------------------------------------------------------------------------------

    method CreateInTx(t: nat, customer: nat, lines: seq<Vat.LineInput>, issued: Date, due: Date, today: Date)
      returns (r: Reply)
      requires Valid()
      modifies this
      ensures Valid()
      ensures (Db(), r) ==
              Effect(old(Db()), Create(old(Db()), t, customer, lines, issued, due, today, old(nextInvoice)))
    {
      if !Vat.SchemaLines(lines) || !Vat.AllComputable(lines) {
        return Failed(BadLines);
      }
      var rows := ToItems(lines);
      if Before(today, issued) || Before(due, issued) {
        return Failed(BadDates);
      }
      var id := DrawInvoiceId();
      InsertInvoice(id, NewInvoice(t, customer, Plain, Draft, issued, due, rows), rows);
      r := Done;
    }

    method UpdateDraft(t: nat, id: nat, lines: Option<seq<Vat.LineInput>>, issued: Option<Date>, due: Option<Date>)
      returns (r: Reply)
      requires Valid()
      modifies this
      ensures Valid() && (Db(), r) == Effect(old(Db()), Update(old(Db()), t, id, lines, issued, due))
    {
      if lines.Some? && !(Vat.SchemaLines(lines.value) && Vat.AllComputable(lines.value)) {
        return Failed(BadLines);
      }
      if id !in invoices || invoices[id].tenant != t {
        return Failed(NotFound);
      }
      var current := invoices[id];
      if current.status != Draft {
        return Failed(NotDraft);
      }
      var totals := current.totals;
      if lines.Some? {
        var rows := ToItems(lines.value);
        totals := TotalsOf(rows);
        items := items[id := rows];
      }
      var newIssued := if issued.Some? then issued.value else current.issued;
      var newDue := if due.Some? then due.value else current.due;
      invoices := invoices[id := current.(issued := newIssued, due := newDue, totals := totals)];
      assert ids + {id} == ids;
      assert lines.None? ==> items[id := items[id]] == items;
      r := Done;
    }

    method RemoveDraft(t: nat, id: nat) returns (r: Reply)
      requires Valid()
      modifies this
      ensures Valid() && (Db(), r) == Effect(old(Db()), Remove(old(Db()), t, id))
    {
      if id !in invoices || invoices[id].tenant != t {
        return Failed(NotFound);
      }
      if invoices[id].status != Draft {
        return Failed(NotDraft);
      }
      if HasPaymentFor(payments, id) {
        return Failed(HasPayments);
      }
      DeleteInvoice(id);
      r := Done;
    }

    // ---- Numbered invoices -----------------------------------------------------------------------------

    method SendInTx(t: nat, id: nat) returns (r: Reply)
      requires Valid()
      modifies this
      ensures Valid() && (Db(), r) == Effect(old(Db()), Send(old(Db()), t, id))
    {
      ghost var before := Db();
      if id !in invoices || invoices[id].tenant != t {
        return Failed(NotFound);
      }
      if invoices[id].status != Draft {
        return Failed(NotDraft);
      }
      var saved := Db();
      var number, s := AllocateNumber(t);
      if number.None? {
        Rollback(saved);
        return Failed(Incomplete);
      }
      MarkSent(id, number.value, Ocr.DeriveOcr(number.value));
      WriteEvent(InvoiceSent, id);
      assert ids + {id} == ids;
      assert items[id := ItemsOf(before, id)] == items;
      r := Done;
    }

    method CreditInTx(t: nat, id: nat, today: Date) returns (r: Reply)
      requires Valid()
      modifies this
      ensures Valid() && (Db(), r) == Effect(old(Db()), Credit(old(Db()), t, id, today, old(nextInvoice)))
    {
      CreditCases(Db(), t, id, today, nextInvoice);
      hide Credit, TotalsOf, CreditItems, Ocr.DeriveOcr;
      if id !in invoices || invoices[id].tenant != t {
        return Failed(NotFound);
      }
      var original := invoices[id];
      if original.kind != Plain || !(original.status == Sent || original.status == Overdue || original.status == Paid) {
        return Failed(NotCreditable);
      }
      var creditItems := CreditItems(items[id]);
      var saved := Db();
      var number, s := AllocateNumber(t);
      if number.None? {
        Rollback(saved);
        return Failed(Incomplete);
      }
      var noteId := DrawInvoiceId();
      var note := Numbered(NewInvoice(original.tenant, original.customer, CreditNote, Settled, today, today,
                                      creditItems),
                           number.value);
      InsertInvoice(noteId, note.(credits := Some(id)), creditItems);
      SetStatus(id, Credited);
      WriteEvent(InvoiceCredited, noteId);
      r := Done;
    }

    /** `terms` are the customer's or the tenant's payment terms in days. */
    method CreateReminderInTx(t: nat, id: nat, today: Date, terms: int) returns (r: Reply)
      requires Valid()
      modifies this
      ensures Valid() && (Db(), r) == Effect(old(Db()), Remind(old(Db()), t, id, today, terms, old(nextInvoice)))
      ensures nextInvoice >= old(nextInvoice)
    {
      RemindCases(Db(), t, id, today, terms, nextInvoice);
      hide Remind, TotalsOf, ToItems, Ocr.DeriveOcr, PaidOre, Vat.AllComputable, AddDaysTo;
      if id !in invoices || invoices[id].tenant != t {
        return Nothing;
      }
      var original := invoices[id];
      if original.kind != Plain || !Open(original.status) || original.reminds.Some? || original.supersededBy.Some? {
        return Nothing;
      }
      var paid := SumPayments(t, id);
      var remaining := original.totals.incl - paid;
      if remaining <= 0 {
        return Nothing;
      }
      var saved := Db();
      var number, s := AllocateNumber(t);
      if number.None? {
        Rollback(saved);
        return Failed(Incomplete);
      }
      var lines := ReminderLines(remaining, s.fee);
      if !Vat.AllComputable(lines) {
        Rollback(saved);
        return Failed(UnsafeAmount);
      }
      var rows := ToItems(lines);
      var reminderId := DrawInvoiceId();
      var reminder := Numbered(NewInvoice(original.tenant, original.customer, Reminder, Sent, today,
                                          AddDaysTo(today, terms), rows),
                               number.value);
      InsertInvoice(reminderId, reminder.(reminds := Some(id)), rows);
      Supersede(id, reminderId);
      WriteEvent(ReminderSent, reminderId);
      r := Done;
    }

    method GenerateFromTemplateInTx(t: nat, p: nat, today: Date, terms: int) returns (r: Reply)
      requires Valid()
      modifies this
      ensures Valid() && (Db(), r) == Effect(old(Db()), Generate(old(Db()), t, p, today, terms, old(nextInvoice)))
      ensures nextInvoice >= old(nextInvoice)
    {
      GenerateCases(Db(), t, p, today, terms, nextInvoice);
      hide Generate, TotalsOf, ToItems, Ocr.DeriveOcr, Vat.AllComputable, AddDaysTo, AdvanceByInterval, Before;
      if p !in templates || templates[p].tenant != t {
        return Nothing;
      }
      var template := templates[p];
      if !template.active || Before(today, template.next) {
        return Nothing;
      }
      if !Vat.AllComputable(template.lines) {
        return Failed(UnsafeAmount);
      }
      var rows := ToItems(template.lines);
      var saved := Db();
      var number, s := AllocateNumber(t);
      if number.None? {
        Rollback(saved);
        return Failed(Incomplete);
      }
      var id := DrawInvoiceId();
      var row := Numbered(NewInvoice(template.tenant, template.customer, Plain, Sent, template.next,
                                     AddDaysTo(template.next, terms), rows), number.value);
      InsertInvoice(id, row.(template := Some(p)), rows);
      WriteEvent(InvoiceSent, id);
      var next := AdvanceByInterval(template.next, template.interval, template.billingDay);
      templates := templates[p := template.(next := next)];
      r := Done;
    }

    method CreateTemplateInTx(t: nat, customer: nat, interval: Interval, next: Date, lines: seq<Vat.LineInput>,
                              today: Date)
      returns (r: Reply)
      requires Valid()
      modifies this
      ensures Valid()
      ensures (Db(), r) ==
              Effect(old(Db()), AddTemplate(old(Db()), t, customer, interval, next, lines, today, old(nextTemplate)))
    {
      if !Vat.SchemaLines(lines) || !Vat.AllComputable(lines) {
        return Failed(BadLines);
      }
      if Before(next, today) {
        return Failed(BadDates);
      }
      templates := templates[nextTemplate := Template(t, customer, interval, next, next.day, true, lines)];
      nextTemplate := nextTemplate + 1;
      r := Done;
    }

    // ---- Payments --------------------------------------------------------------------------------------

    method MarkProcessed(eventId: string) returns (isNew: bool)
      modifies this`processed
      ensures isNew == (eventId !in old(processed)) && Db() == old(Db()).(processed := old(processed) + {eventId})
    {
      isNew := eventId !in processed;
      processed := processed + {eventId};
    }

    method InsertPayment(p: Payment) returns (inserted: bool)
      modifies this`payments
      ensures Db() == old(Db()).(payments := WithPayment(old(payments), p))
      ensures inserted == !HasPaymentKey(old(payments), p.tenant, p.paymentId)
    {
      inserted := !HasPaymentKey(payments, p.tenant, p.paymentId);
      if inserted {
        payments := payments + [p];
      }
    }

    method SetPaidIfCovered(id: nat, paid: int) returns (count: nat)
      requires id in invoices
      modifies this`invoices
      ensures Db() == SetRow(old(Db()), id, PaidIfCovered(old(invoices)[id], paid))
      ensures count == if invoices[id] == old(invoices)[id] then 0 else 1
    {
      count := 0;
      if Open(invoices[id].status) && paid >= invoices[id].totals.incl {
        invoices := invoices[id := invoices[id].(status := Paid)];
        count := 1;
      }
      assert count == 0 ==> invoices == invoices[id := invoices[id]];
    }

    /** The booking of one payment event, all of it or none of it. */
    method ApplyPayment(t: nat, eventId: string, id: nat, paymentId: string, amount: int)
      returns (r: Reply, paymentInserted: bool, invoiceMarkedPaid: bool)
      requires Valid()
      modifies this
      ensures Valid() && (Db(), r) == Effect(old(Db()), Pay(old(Db()), t, eventId, id, paymentId, amount))
      ensures paymentInserted == (payments != old(payments))
      ensures invoiceMarkedPaid <==>
                id in old(invoices) && Open(old(invoices)[id].status) && invoices[id].status == Paid
    {
      PayCases(Db(), t, eventId, id, paymentId, amount);
      hide Pay, PaidOre, HasPaymentKey, WithPayment;
      paymentInserted, invoiceMarkedPaid := false, false;
      var saved := Db();
      var isNew := MarkProcessed(eventId);
      if !isNew {
        assert processed == old(processed);
        return Nothing, false, false;
      }
      if id !in invoices || invoices[id].tenant != t {
        Rollback(saved);
        return Failed(NotFound), false, false;
      }
      paymentInserted := InsertPayment(Payment(t, id, paymentId, amount));
      var paid := SumPayments(t, id);
      var marked := SetPaidIfCovered(id, paid);
      invoiceMarkedPaid := marked > 0;
      r := Done;
    }

    // ---- Sweeps and lookups ----------------------------------------------------------------------------

    method MarkIfDue(t: nat, today: Date, i: nat) returns (count: nat)
      requires i in invoices
      modifies this`invoices
      ensures invoices == old(invoices)[i := if OverdueNow(old(Db()), t, today, i)
                                             then old(invoices)[i].(status := Overdue) else old(invoices)[i]]
      ensures count == if OverdueNow(old(Db()), t, today, i) then 1 else 0
    {
      count := 0;
      var row := invoices[i];
      if row.tenant == t && row.status == Sent && Before(row.due, today) {
        invoices := invoices[i := row.(status := Overdue)];
        count := 1;
      }
    }

    /** One UPDATE over every row that is sent and past its due date. */
    method MarkOverdueBulk(t: nat, today: Date) returns (count: nat)
      requires Valid()
      modifies this`invoices
      ensures Valid() && Committed(Db()) == MarkOverdue(old(Db()), t, today, old(invoices).Keys)
      ensures count == |DueRows(old(Db()), t, today, old(invoices).Keys)|
    {
      hide Before, Marked, DueRows, OverdueNow;
      ghost var before := Db();
      var todo := invoices.Keys;
      count := 0;
      NoneMarked(before, t, today);
      while todo != {}
        invariant todo <= before.invoices.Keys
        invariant invoices == Marked(before, t, today, before.invoices.Keys - todo)
        invariant count == |DueRows(before, t, today, before.invoices.Keys - todo)|
        decreases |todo|
      {
        var i :| i in todo;
        MarkOneMore(before, t, today, todo, i);
        var marked := MarkIfDue(t, today, i);
        count := count + marked;
        todo := todo - {i};
      }
      assert before.invoices.Keys - todo == before.invoices.Keys;
    }

    /** The first row of the tenant with an OCR reference. */
    method FindByOcr(t: nat, ocr: string) returns (found: Option<nat>)
      ensures found.Some? ==> Visible(Db(), t, found.value) && invoices[found.value].ocr == Some(ocr)
      ensures found.None? ==> forall i :: Visible(Db(), t, i) ==> invoices[i].ocr != Some(ocr)
    {
      var todo := invoices.Keys;
      while todo != {}
        invariant todo <= invoices.Keys
        invariant forall i :: i in invoices && i !in todo && invoices[i].tenant == t ==> invoices[i].ocr != Some(ocr)
        decreases |todo|
      {
        var i :| i in todo;
        if invoices[i].tenant == t && invoices[i].ocr == Some(ocr) {
          return Some(i);
        }
        todo := todo - {i};
      }
      found := None;
    }

    /**
     Where a payment with this OCR reference belongs: the invoice itself, or the reminder that replaced it,
     with what is left to pay there.
     */
    method ResolveByOcr(t: nat, ocr: string) returns (r: Option<Resolved>)
      requires LedgerInvariants.Inv(Db())
      ensures r.None? <==> forall i :: Visible(Db(), t, i) ==> invoices[i].ocr != Some(ocr)
      ensures r.Some? ==> Visible(Db(), t, r.value.matched) && invoices[r.value.matched].ocr == Some(ocr)
                          && ResolvedOk(Db(), t, r.value)
      ensures r.Some? ==> forall i :: Visible(Db(), t, i) && invoices[i].ocr == Some(ocr) ==> i == r.value.matched
    {
      hide LedgerInvariants.Inv;
      var found := FindByOcr(t, ocr);
      if found.None? {
        return None;
      }
      var resolved := Resolve(t, found.value);
      forall i | Visible(Db(), t, i) && invoices[i].ocr == Some(ocr) ensures i == found.value {
        LedgerHistory.OcrIsUnique(Db(), i, found.value);
      }
      r := Some(resolved);
    }

    method Resolve(t: nat, start: nat) returns (r: Resolved)
      requires LedgerInvariants.Inv(Db()) && Visible(Db(), t, start)
      ensures r.matched == start && ResolvedOk(Db(), t, r)
    {
      hide LedgerInvariants.RowsOk, LedgerInvariants.LinksOk, LedgerInvariants.NumbersOk, LedgerHistory.IsWalk, PaidOre;
      ghost var walk;
      var current;
      current, walk := LedgerHistory.ResolveCurrent(Db(), t, start);
      ChainEnds(Db(), t, walk);
      var paid := SumPayments(t, current);
      var row := invoices[current];
      r := Resolved(start, current, row.status, row.totals.incl, row.totals.incl - paid);
    }
  }

  datatype Resolved = Resolved(matched: nat, current: nat, status: Status, total: int, remaining: int)

  /** The end of the chain: never itself superseded, of the same customer, with its own remaining debt. */
  ghost predicate ResolvedOk(db: Db, t: nat, r: Resolved) {
    && Visible(db, t, r.matched) && Visible(db, t, r.current)
    && r.current == (
         if db.invoices[r.matched].supersededBy.Some? then db.invoices[r.matched].supersededBy.value else r.matched)
    && db.invoices[r.current].customer == db.invoices[r.matched].customer
    && r.status == db.invoices[r.current].status && r.status != Superseded
    && r.total == db.invoices[r.current].totals.incl && r.remaining == Remaining(db, r.current)
  }

  lemma ChainEnds(db: Db, t: nat, walk: seq<nat>)
    requires LedgerInvariants.RowsOk(db) && LedgerInvariants.LinksOk(db) && LedgerHistory.IsWalk(db, t, walk)
    requires walk[0] in db.invoices && db.invoices[walk[0]].tenant == t
    requires var last := walk[|walk| - 1];
             && last in db.invoices
             && (LedgerHistory.Successor(db, t, last).None? || LedgerHistory.Successor(db, t, last).value in walk)
    ensures var start, last := walk[0], walk[|walk| - 1];
      && Visible(db, t, last) && db.invoices[last].status != Superseded
      && last == (if db.invoices[start].supersededBy.Some? then db.invoices[start].supersededBy.value else start)
      && db.invoices[last].customer == db.invoices[start].customer
  {
    hide LedgerInvariants.RowsOk, LedgerInvariants.LinksOk;
    LedgerHistory.ResolvesToCurrent(db, t, walk);
  }

  /** The rows a sweep over `which` marks. */
  function DueRows(db: Db, t: nat, today: Date, which: set<nat>): set<nat> {
    set i | i in which && OverdueNow(db, t, today, i)
  }

  /** They are the rows the sweep changes. */
  lemma DueRowsChange(db: Db, t: nat, today: Date)
    ensures DueRows(db, t, today, db.invoices.Keys) ==
            set i | i in db.invoices && Marked(db, t, today, db.invoices.Keys)[i].status != db.invoices[i].status
  {
    hide Before;
  }

  lemma NoneMarked(db: Db, t: nat, today: Date)
    ensures db.invoices.Keys - db.invoices.Keys == {}
    ensures Marked(db, t, today, {}) == db.invoices && DueRows(db, t, today, {}) == {}
  {
  }

  lemma MarkOneMore(db: Db, t: nat, today: Date, todo: set<nat>, i: nat)
    requires i in db.invoices && i in todo
    ensures var done := db.invoices.Keys - todo; var more := db.invoices.Keys - (todo - {i});
            var swept := db.(invoices := Marked(db, t, today, done));
      && OverdueNow(swept, t, today, i) == OverdueNow(db, t, today, i)
      && Marked(db, t, today, more) == Marked(db, t, today, done)[i := if OverdueNow(db, t, today, i)
                                         then Marked(db, t, today, done)[i].(status := Overdue)
                                         else Marked(db, t, today, done)[i]]
      && |DueRows(db, t, today, more)| == |DueRows(db, t, today, done)| + (if OverdueNow(db, t, today, i) then 1 else 0)
  {
    hide Before;
    var done, more := db.invoices.Keys - todo, db.invoices.Keys - (todo - {i});
    assert more == done + {i} && i !in done;
    if OverdueNow(db, t, today, i) {
      assert DueRows(db, t, today, more) == DueRows(db, t, today, done) + {i};
    } else {
      assert DueRows(db, t, today, more) == DueRows(db, t, today, done);
    }
  }
}
