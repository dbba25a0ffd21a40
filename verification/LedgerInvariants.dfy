/** What every transaction keeps: the whole-state invariants of the billing tables. */
module LedgerInvariants {
  import opened Wrappers
  import opened Dates
  import opened Ledger
  import Ocr
  import Vat

  // ---- The invariant ---------------------------------------------------------------------------

  /** The part of a row's consistency that looks at the row alone. */
  ghost predicate ShapeOk(row: Invoice) {
    && (row.number.None? <==> row.status == Draft)
    && (row.number.Some? ==> row.number.value > 0 && row.ocr == Some(Ocr.DeriveOcr(row.number.value)))
    && (row.number.None? ==> row.ocr.None?)
    && (row.status == Settled <==> row.kind == CreditNote)
    && (row.status == Superseded <==> row.supersededBy.Some?)
    && (row.status == Credited || row.status == Superseded || row.status == Draft ==> row.kind == Plain)
    && (row.kind == CreditNote <==> row.credits.Some?)
    && (row.kind == Reminder <==> row.reminds.Some?)
    && (row.template.Some? ==> row.kind == Plain && row.status != Draft)
  }

  ghost predicate RowsOk(db: Db) {
    && db.items.Keys == db.invoices.Keys
    && db.invoices.Keys <= db.ids
    && forall i :: i in db.invoices ==> ShapeOk(db.invoices[i]) && db.invoices[i].totals == TotalsOf(db.items[i])
  }

  ghost predicate HasNumber(db: Db, t: nat, n: nat) {
    exists i :: i in db.invoices && db.invoices[i].tenant == t && db.invoices[i].number == Some(n)
  }

  ghost predicate SameNumber(a: Invoice, b: Invoice) {
    a.tenant == b.tenant && a.number.Some? && a.number == b.number
  }

  /** The numbers of each tenant are exactly 1 .. next - 1, each on one invoice. */
  ghost predicate NumbersOk(db: Db) {
    && (forall t :: t in db.settings ==> db.settings[t].next >= 1)
    && (forall i :: i in db.invoices && db.invoices[i].number.Some? ==>
          1 <= db.invoices[i].number.value < SettingsOf(db, db.invoices[i].tenant).next)
    && (forall i, j | i in db.invoices && j in db.invoices && SameNumber(db.invoices[i], db.invoices[j]) :: i == j)
    && (forall t, n: nat :: 1 <= n < SettingsOf(db, t).next ==> HasNumber(db, t, n))
  }

  /** A superseded original and its reminder point at each other; a credit note points at a credited original. */
  ghost predicate LinkOk(db: Db, i: nat)
    requires i in db.invoices
  {
    var row := db.invoices[i];
    && (row.supersededBy.Some? ==>
          var r := row.supersededBy.value;
          && r in db.invoices && db.invoices[r].reminds == Some(i)
          && db.invoices[r].tenant == row.tenant && db.invoices[r].customer == row.customer)
    && (row.reminds.Some? ==>
          row.reminds.value in db.invoices && db.invoices[row.reminds.value].supersededBy == Some(i))
    && (row.credits.Some? ==>
          var o := row.credits.value;
          && o in db.invoices && db.invoices[o].status == Credited
          && row.tenant == db.invoices[o].tenant && row.customer == db.invoices[o].customer
          && o in db.items && i in db.items && db.items[i] == CreditItems(db.items[o]))
  }

  ghost predicate HasCreditNote(db: Db, i: nat) {
    exists n :: n in db.invoices && db.invoices[n].credits == Some(i)
  }

  ghost predicate SameCredit(a: Invoice, b: Invoice) {
    a.credits.Some? && a.credits == b.credits
  }

  ghost predicate LinksOk(db: Db) {
    && (forall i :: i in db.invoices ==> LinkOk(db, i))
    && (forall m, n | m in db.invoices && n in db.invoices && SameCredit(db.invoices[m], db.invoices[n]) :: m == n)
    && (forall i :: i in db.invoices && db.invoices[i].status == Credited ==> HasCreditNote(db, i))
  }

  /** Payment rows: one per tenant and payment id, positive, on a row of the tenant. */
  ghost predicate PaymentsOk(db: Db) {
    && (forall k :: 0 <= k < |db.payments| ==>
          db.payments[k].amount >= 1 && Visible(db, db.payments[k].tenant, db.payments[k].invoice))
    && (forall j, k :: 0 <= j < k < |db.payments| ==>
          db.payments[j].tenant != db.payments[k].tenant || db.payments[j].paymentId != db.payments[k].paymentId)
  }

  ghost predicate PaidOk(db: Db) {
    forall i :: i in db.invoices && db.invoices[i].status == Status.Paid ==>
      PaidOre(db.payments, db.invoices[i].tenant, i) >= db.invoices[i].totals.incl
  }

  ghost predicate IsAnnounced(outbox: seq<Event>, i: nat) {
    exists k :: 0 <= k < |outbox| && outbox[k].invoice == i
  }

  /** The outbox holds exactly one event per numbered invoice. */
  ghost predicate OutboxOk(db: Db) {
    && (forall k :: 0 <= k < |db.outbox| ==>
          db.outbox[k].invoice in db.invoices && db.invoices[db.outbox[k].invoice].number.Some?)
    && (forall j, k :: 0 <= j < k < |db.outbox| ==> db.outbox[j].invoice != db.outbox[k].invoice)
    && (forall i :: i in db.invoices && db.invoices[i].number.Some? ==> IsAnnounced(db.outbox, i))
  }

  ghost predicate SamePeriod(a: Invoice, b: Invoice) {
    a.template.Some? && a.template == b.template && a.issued == b.issued
  }

  /** A template's invoices are dated on distinct days, all before its next date. */
  ghost predicate TemplatesOk(db: Db) {
    && (forall p :: p in db.templates ==>
          IsValid(db.templates[p].next) && db.templates[p].next.year >= 100 && db.templates[p].billingDay >= 1)
    && (forall i :: i in db.invoices && db.invoices[i].template.Some? ==>
          var p := db.invoices[i].template.value;
          p in db.templates && Before(db.invoices[i].issued, db.templates[p].next))
    && (forall i, j | i in db.invoices && j in db.invoices && SamePeriod(db.invoices[i], db.invoices[j]) :: i == j)
  }

  ghost predicate Inv(db: Db) {
    && RowsOk(db) && NumbersOk(db) && LinksOk(db) && PaymentsOk(db) && PaidOk(db)
    && OutboxOk(db) && TemplatesOk(db) && FeesOk(db)
  }

  ghost predicate FeesOk(db: Db) {
    forall t :: t in db.settings ==> db.settings[t].fee >= 0
  }

  lemma EmptyInv()
    ensures Inv(EMPTY)
  {
  }

  // ---- Frame lemmas: what a change of the tables has to leave alone --------------------------------

  /** Every numbered row keeps its tenant and number, and no other row has one. */
  ghost predicate SameNumbers(db: Db, after: Db) {
    && (forall i :: i in db.invoices && db.invoices[i].number.Some? ==>
          i in after.invoices && SameNumber(db.invoices[i], after.invoices[i]))
    && (forall i :: i in after.invoices && after.invoices[i].number.Some? ==>
          i in db.invoices && SameNumber(after.invoices[i], db.invoices[i]))
  }

  ghost predicate SameSeries(db: Db, after: Db) {
    && (forall t :: SettingsOf(after, t).next == SettingsOf(db, t).next)
    && (forall t :: t in after.settings ==> after.settings[t].next >= 1)
  }

  lemma NumbersFrame(db: Db, after: Db)
    requires NumbersOk(db) && SameNumbers(db, after) && SameSeries(db, after)
    ensures NumbersOk(after)
  {
    forall t, n: nat | 1 <= n < SettingsOf(after, t).next ensures HasNumber(after, t, n) {
      assert HasNumber(db, t, n);
    }
  }

  /** Row `id` takes the next number of tenant t; every other row keeps its own. */
  ghost predicate TakesNumber(db: Db, after: Db, t: nat, id: nat) {
    && id in after.invoices && after.invoices[id].tenant == t
    && after.invoices[id].number == Some(SettingsOf(db, t).next)
    && (id in db.invoices ==> db.invoices[id].number.None?)
    && (forall i :: i in db.invoices && db.invoices[i].number.Some? ==>
          i in after.invoices && SameNumber(db.invoices[i], after.invoices[i]))
    && (forall i :: i in after.invoices && i != id && after.invoices[i].number.Some? ==>
          i in db.invoices && SameNumber(after.invoices[i], db.invoices[i]))
    && after.settings == db.settings[t := SettingsOf(db, t).(next := SettingsOf(db, t).next + 1)]
  }

  lemma NumbersTaken(db: Db, after: Db, t: nat, id: nat)
    requires NumbersOk(db) && TakesNumber(db, after, t, id)
    ensures NumbersOk(after)
  {
    forall u, n: nat | 1 <= n < SettingsOf(after, u).next ensures HasNumber(after, u, n) {
      if u != t || n < SettingsOf(db, t).next {
        assert HasNumber(db, u, n);
      }
    }
  }

  /** Rows with payments survive with their tenant; no payment is added. */
  lemma PaymentsFrame(db: Db, after: Db)
    requires PaymentsOk(db) && after.payments == db.payments
    requires forall i :: i in db.invoices && HasPaymentFor(db.payments, i) ==>
               i in after.invoices && after.invoices[i].tenant == db.invoices[i].tenant
    ensures PaymentsOk(after)
  {
  }

  lemma PaidFrame(db: Db, after: Db)
    requires PaidOk(db) && after.payments == db.payments
    requires forall i :: i in after.invoices && after.invoices[i].status == Status.Paid ==>
               i in db.invoices && after.invoices[i] == db.invoices[i]
    ensures PaidOk(after)
  {
  }

  lemma OutboxFrame(db: Db, after: Db)
    requires OutboxOk(db) && after.outbox == db.outbox && SameNumbers(db, after)
    ensures OutboxOk(after)
  {
  }

  lemma OutboxTaken(db: Db, after: Db, t: nat, id: nat, kind: EventKind)
    requires OutboxOk(db) && after.outbox == db.outbox + [Event(kind, id)] && TakesNumber(db, after, t, id)
    ensures OutboxOk(after)
  {
    assert after.outbox[|db.outbox|].invoice == id;
    forall i | i in after.invoices && after.invoices[i].number.Some? ensures IsAnnounced(after.outbox, i) {
      if i != id {
        assert IsAnnounced(db.outbox, i);
        var k :| 0 <= k < |db.outbox| && db.outbox[k].invoice == i;
        assert after.outbox[k].invoice == i;
      }
    }
  }

  /** Rows of a template keep it and their date; templates are untouched. */
  lemma TemplatesFrame(db: Db, after: Db)
    requires TemplatesOk(db)
    requires forall p :: p in db.templates ==> p in after.templates && after.templates[p] == db.templates[p]
    requires forall p :: p in after.templates && p !in db.templates ==>
               && IsValid(after.templates[p].next) && after.templates[p].next.year >= 100
               && after.templates[p].billingDay >= 1
    requires forall i :: i in after.invoices && after.invoices[i].template.Some? ==>
               i in db.invoices && SamePeriod(after.invoices[i], db.invoices[i])
    ensures TemplatesOk(after)
  {
  }

  /** Links survive a change that keeps the linked fields, the credited status and the items of every old row. */
  ghost predicate SameLinks(a: Invoice, b: Invoice) {
    && a.tenant == b.tenant && a.customer == b.customer
    && a.credits == b.credits && a.reminds == b.reminds && a.supersededBy == b.supersededBy
    && (a.status == Credited <==> b.status == Credited)
  }

  ghost predicate Linked(row: Invoice) {
    row.credits.Some? || row.reminds.Some? || row.supersededBy.Some? || row.status == Credited
  }

  lemma LinksFrame(db: Db, after: Db)
    requires LinksOk(db)
    requires forall i :: i in db.invoices && Linked(db.invoices[i]) ==>
               i in after.invoices && SameLinks(db.invoices[i], after.invoices[i])
               && (i in db.items ==> i in after.items && after.items[i] == db.items[i])
    requires forall i :: i in after.invoices && Linked(after.invoices[i]) ==>
               i in db.invoices && SameLinks(db.invoices[i], after.invoices[i])
    ensures LinksOk(after)
  {
    forall i | i in after.invoices ensures LinkOk(after, i) {
      if Linked(after.invoices[i]) {
        assert LinkOk(db, i);
      }
    }
    forall i | i in after.invoices && after.invoices[i].status == Credited ensures HasCreditNote(after, i) {
      assert HasCreditNote(db, i);
    }
  }

  // ---- Transactions that take a number ---------------------------------------------------------

  /** A row leaves the open statuses, or paid, for good; nothing else about it changes. */
  ghost predicate Closes(a: Invoice, b: Invoice) {
    && b == a.(status := b.status, supersededBy := b.supersededBy)
    && a.number.Some? && (b.status == Credited || b.status == Superseded)
  }

  /**
   Row `id` is sent or inserted with the next number of tenant t, and announced; `original`, if any,
   is closed; all other rows stay as they are.
   */
  ghost predicate Taken(db: Db, after: Db, t: nat, id: nat, original: Option<nat>, kind: EventKind) {
    && (id in db.invoices ==> db.invoices[id].number.None? && db.invoices[id].tenant == t)
    && id in after.invoices && after.invoices[id].tenant == t
    && after.invoices[id].number == Some(SettingsOf(db, t).next) && after.invoices[id].status != Status.Paid
    && after.settings == db.settings[t := SettingsOf(db, t).(next := SettingsOf(db, t).next + 1)]
    && after.outbox == db.outbox + [Event(kind, id)]
    && after.payments == db.payments
    && (forall i :: i in db.invoices ==> i in after.invoices)
    && (forall i :: i in after.invoices && i != id ==> i in db.invoices)
    && (forall i :: i in db.invoices && i != id && original != Some(i) ==> after.invoices[i] == db.invoices[i])
    && (original.Some? ==>
          var o := original.value;
          o != id && o in db.invoices && Closes(db.invoices[o], after.invoices[o]))
  }

  lemma TakenNumbers(db: Db, after: Db, t: nat, id: nat, original: Option<nat>, kind: EventKind)
    requires NumbersOk(db) && OutboxOk(db) && Taken(db, after, t, id, original, kind)
    ensures NumbersOk(after) && OutboxOk(after)
  {
    assert TakesNumber(db, after, t, id);
    NumbersTaken(db, after, t, id);
    OutboxTaken(db, after, t, id, kind);
  }

  lemma TakenMoney(db: Db, after: Db, t: nat, id: nat, original: Option<nat>, kind: EventKind)
    requires PaymentsOk(db) && PaidOk(db) && Taken(db, after, t, id, original, kind)
    ensures PaymentsOk(after) && PaidOk(after)
  {
    PaymentsFrame(db, after);
    PaidFrame(db, after);
  }

  lemma TakenTemplates(db: Db, after: Db, t: nat, id: nat, original: Option<nat>, kind: EventKind)
    requires TemplatesOk(db) && Taken(db, after, t, id, original, kind)
    requires after.templates == db.templates && after.invoices[id].template.None?
    ensures TemplatesOk(after)
  {
    TemplatesFrame(db, after);
  }

  /** The items of every other old row are kept. */
  ghost predicate SameItems(db: Db, after: Db, id: nat) {
    forall i :: i in db.items && i != id ==> i in after.items && after.items[i] == db.items[i]
  }

  lemma TakenLinks(db: Db, after: Db, t: nat, id: nat, kind: EventKind)
    requires LinksOk(db) && Taken(db, after, t, id, None, kind) && SameItems(db, after, id)
    requires !Linked(after.invoices[id]) && (id in db.invoices ==> !Linked(db.invoices[id]))
    ensures LinksOk(after)
  {
    LinksFrame(db, after);
  }

  /** The tables of rows after taking a number: one new or rewritten row with its items. */
  ghost predicate TakenItems(db: Db, after: Db, id: nat, original: Option<nat>)
    requires id in after.invoices && (original.Some? ==> original.value in after.invoices)
  {
    && SameItems(db, after, id)
    && after.items.Keys == db.items.Keys + {id} && after.ids >= db.ids + {id}
    && id in after.items && after.invoices[id].totals == TotalsOf(after.items[id])
    && ShapeOk(after.invoices[id])
    && (original.Some? ==> ShapeOk(after.invoices[original.value]))
  }

  lemma TakenRows(db: Db, after: Db, t: nat, id: nat, original: Option<nat>, kind: EventKind)
    requires RowsOk(db) && FeesOk(db) && SettingsOf(db, t).fee >= 0
    requires Taken(db, after, t, id, original, kind) && TakenItems(db, after, id, original)
    ensures RowsOk(after) && FeesOk(after)
  {
    hide ShapeOk, TotalsOf;
  }

  /** What a registered row has to look like. */
  ghost predicate Registrable(db: Db, t: nat, id: nat, row: Invoice, items: seq<Item>) {
    && (id in db.invoices ==> db.invoices[id].number.None? && db.invoices[id].tenant == t)
    && row.tenant == t && row.number == Some(SettingsOf(db, t).next) && row.status != Status.Paid
    && ShapeOk(row) && row.totals == TotalsOf(items)
  }

  lemma RegisterTakes(db: Db, t: nat, kind: EventKind, id: nat, row: Invoice, items: seq<Item>)
    requires Registrable(db, t, id, row, items)
    ensures var after := Register(db, t, kind, id, row, items);
            Taken(db, after, t, id, None, kind) && TakenItems(db, after, id, None)
  {
    hide ShapeOk, TotalsOf;
  }

  lemma RegisterCloses(db: Db, t: nat, kind: EventKind, id: nat, row: Invoice, items: seq<Item>, o: nat,
                       closed: Invoice)
    requires Registrable(db, t, id, row, items)
    requires o in db.invoices && o != id && Closes(db.invoices[o], closed) && ShapeOk(closed)
    ensures var after := SetRow(Register(db, t, kind, id, row, items), o, closed);
            Taken(db, after, t, id, Some(o), kind) && TakenItems(db, after, id, Some(o))
  {
    hide ShapeOk, TotalsOf;
  }

  // ---- Every transaction keeps the invariant -------------------------------------------------------

  lemma NumberedShape(row: Invoice, n: nat)
    requires n > 0 && row.status != Draft
    requires row.status == Settled <==> row.kind == CreditNote
    requires row.status == Superseded <==> row.supersededBy.Some?
    requires row.status == Credited || row.status == Superseded ==> row.kind == Plain
    requires (row.kind == CreditNote <==> row.credits.Some?) && (row.kind == Reminder <==> row.reminds.Some?)
    requires row.template.Some? ==> row.kind == Plain
    ensures ShapeOk(Numbered(row, n))
  {
  }

  lemma SendEffect(db: Db, t: nat, id: nat)
    requires RowsOk(db) && Send(db, t, id).Committed?
    ensures var after := Send(db, t, id).db;
            && Taken(db, after, t, id, None, InvoiceSent) && TakenItems(db, after, id, None)
            && after.templates == db.templates
            && !Linked(after.invoices[id]) && !Linked(db.invoices[id]) && after.invoices[id].template.None?
  {
    hide TotalsOf, Taken, TakenItems;
    assert ShapeOk(db.invoices[id]);
    var row, n := db.invoices[id].(status := Sent), SettingsOf(db, t).next;
    NumberedShape(row, n);
    RegisterTakes(db, t, InvoiceSent, id, Numbered(row, n), ItemsOf(db, id));
  }

  lemma SendKeeps(db: Db, t: nat, id: nat)
    requires Inv(db) && Send(db, t, id).Committed?
    ensures Inv(Send(db, t, id).db)
  {
    hide Send;
    var after := Send(db, t, id).db;
    SendEffect(db, t, id);
    TakenRows(db, after, t, id, None, InvoiceSent);
    TakenNumbers(db, after, t, id, None, InvoiceSent);
    TakenMoney(db, after, t, id, None, InvoiceSent);
    TakenLinks(db, after, t, id, InvoiceSent);
    TakenTemplates(db, after, t, id, None, InvoiceSent);
  }

  lemma CreditNoteFields(db: Db, id: nat, today: Date, n: nat)
    requires id in db.invoices && n > 0
    ensures var row := CreditNoteFor(db, id, today, n);
            && ShapeOk(row) && row.number == Some(n) && row.totals == TotalsOf(CreditItems(ItemsOf(db, id)))
            && row.credits == Some(id) && row.reminds.None? && row.supersededBy.None? && row.template.None?
            && row.status == Settled
            && row.tenant == db.invoices[id].tenant && row.customer == db.invoices[id].customer
  {
  }

  lemma CreditEffect(db: Db, t: nat, id: nat, today: Date, newId: nat)
    requires RowsOk(db) && newId !in db.ids && Credit(db, t, id, today, newId).Committed?
    ensures var after := Credit(db, t, id, today, newId).db;
            && Taken(db, after, t, newId, Some(id), InvoiceCredited) && TakenItems(db, after, newId, Some(id))
            && after.templates == db.templates && IsCreditNote(db, after, id, newId)
            && after.invoices[newId].template.None?
  {
    hide TotalsOf, CreditItems, CreditNoteFor, Taken, TakenItems;
    assert ShapeOk(db.invoices[id]);
    var n := SettingsOf(db, t).next;
    CreditNoteFields(db, id, today, n);
    RegisterCloses(db, t, InvoiceCredited, newId, CreditNoteFor(db, id, today, n), CreditItems(ItemsOf(db, id)),
                   id, db.invoices[id].(status := Credited));
  }

  /** `n` is a new credit note for `o`, which becomes credited. */
  ghost predicate IsCreditNote(db: Db, after: Db, o: nat, n: nat) {
    && o in db.invoices && n !in db.invoices && o in after.invoices && n in after.invoices
    && !Linked(db.invoices[o])
    && after.invoices[o] == db.invoices[o].(status := Credited)
    && after.invoices[n].credits == Some(o) && after.invoices[n].reminds.None? && after.invoices[n].supersededBy.None?
    && after.invoices[n].status == Settled
    && after.invoices[n].tenant == db.invoices[o].tenant && after.invoices[n].customer == db.invoices[o].customer
    && o in db.items && n in after.items && after.items[n] == CreditItems(db.items[o])
  }

  lemma CreditLinks(db: Db, after: Db, t: nat, o: nat, n: nat)
    requires LinksOk(db) && Taken(db, after, t, n, Some(o), InvoiceCredited) && SameItems(db, after, n)
    requires IsCreditNote(db, after, o, n)
    ensures LinksOk(after)
  {
    hide CreditItems;
    forall i | i in after.invoices ensures LinkOk(after, i) {
      if i != n {
        assert LinkOk(db, i);
      }
    }
    forall i | i in after.invoices && after.invoices[i].status == Credited ensures HasCreditNote(after, i) {
      if i == o {
        assert after.invoices[n].credits == Some(i);
      } else {
        assert HasCreditNote(db, i);
      }
    }
    CreditUnique(db, after, t, o, n);
  }

  lemma CreditUnique(db: Db, after: Db, t: nat, o: nat, n: nat)
    requires LinksOk(db) && Taken(db, after, t, n, Some(o), InvoiceCredited)
    requires IsCreditNote(db, after, o, n)
    ensures forall i, j | i in after.invoices && j in after.invoices
                       && SameCredit(after.invoices[i], after.invoices[j]) :: i == j
  {
  }

  lemma CreditKeeps(db: Db, t: nat, id: nat, today: Date, newId: nat)
    requires Inv(db) && newId !in db.ids && Credit(db, t, id, today, newId).Committed?
    ensures Inv(Credit(db, t, id, today, newId).db)
  {
    hide Credit;
    var after := Credit(db, t, id, today, newId).db;
    CreditEffect(db, t, id, today, newId);
    TakenRows(db, after, t, newId, Some(id), InvoiceCredited);
    TakenNumbers(db, after, t, newId, Some(id), InvoiceCredited);
    TakenMoney(db, after, t, newId, Some(id), InvoiceCredited);
    TakenTemplates(db, after, t, newId, Some(id), InvoiceCredited);
    CreditLinks(db, after, t, id, newId);
  }

  /** `n` is a new reminder for `o`, which becomes superseded by it. */
  ghost predicate IsReminder(db: Db, after: Db, o: nat, n: nat) {
    && o in db.invoices && n !in db.invoices && o in after.invoices && n in after.invoices
    && !Linked(db.invoices[o])
    && after.invoices[o] == db.invoices[o].(status := Superseded, supersededBy := Some(n))
    && after.invoices[n].reminds == Some(o) && after.invoices[n].credits.None? && after.invoices[n].supersededBy.None?
    && after.invoices[n].status == Sent
    && after.invoices[n].tenant == db.invoices[o].tenant && after.invoices[n].customer == db.invoices[o].customer
  }

  lemma ReminderFields(db: Db, id: nat, lines: seq<Vat.LineInput>, today: Date, due: Date, n: nat)
    requires id in db.invoices && Vat.AllComputable(lines) && n > 0
    ensures var row := ReminderFor(db, id, lines, today, due, n);
            && ShapeOk(row) && row.number == Some(n) && row.totals == TotalsOf(ToItems(lines))
            && row.reminds == Some(id) && row.credits.None? && row.supersededBy.None? && row.template.None?
            && row.status == Sent
            && row.tenant == db.invoices[id].tenant && row.customer == db.invoices[id].customer
  {
  }

  lemma RemindEffect(db: Db, t: nat, id: nat, today: Date, terms: int, newId: nat)
    requires RowsOk(db) && newId !in db.ids && Remind(db, t, id, today, terms, newId).Committed?
    ensures var after := Remind(db, t, id, today, terms, newId).db;
            && Taken(db, after, t, newId, Some(id), ReminderSent) && TakenItems(db, after, newId, Some(id))
            && after.templates == db.templates && IsReminder(db, after, id, newId)
            && after.invoices[newId].template.None?
  {
    hide TotalsOf, ToItems, ReminderFor, Remaining, AddDaysTo, Taken, TakenItems;
    assert ShapeOk(db.invoices[id]);
    var n := SettingsOf(db, t).next;
    var lines := ReminderLines(Remaining(db, id), SettingsOf(db, t).fee);
    ReminderFields(db, id, lines, today, AddDaysTo(today, terms), n);
    RegisterCloses(db, t, ReminderSent, newId, ReminderFor(db, id, lines, today, AddDaysTo(today, terms), n),
                   ToItems(lines), id, db.invoices[id].(status := Superseded, supersededBy := Some(newId)));
  }

  lemma RemindLink(db: Db, after: Db, t: nat, o: nat, n: nat, i: nat)
    requires LinksOk(db) && Taken(db, after, t, n, Some(o), ReminderSent) && SameItems(db, after, n)
    requires IsReminder(db, after, o, n) && i in after.invoices
    ensures LinkOk(after, i)
  {
    hide CreditItems;
    if i != n {
      assert LinkOk(db, i);
    }
  }

  lemma RemindLinks(db: Db, after: Db, t: nat, o: nat, n: nat)
    requires LinksOk(db) && Taken(db, after, t, n, Some(o), ReminderSent) && SameItems(db, after, n)
    requires IsReminder(db, after, o, n)
    ensures LinksOk(after)
  {
    forall i | i in after.invoices ensures LinkOk(after, i) {
      RemindLink(db, after, t, o, n, i);
    }
    hide LinkOk;
    forall i | i in after.invoices && after.invoices[i].status == Credited ensures HasCreditNote(after, i) {
      assert HasCreditNote(db, i);
    }
  }

  lemma RemindKeeps(db: Db, t: nat, id: nat, today: Date, terms: int, newId: nat)
    requires Inv(db) && newId !in db.ids && Remind(db, t, id, today, terms, newId).Committed?
    ensures Inv(Remind(db, t, id, today, terms, newId).db)
  {
    hide Remind;
    var after := Remind(db, t, id, today, terms, newId).db;
    RemindEffect(db, t, id, today, terms, newId);
    TakenRows(db, after, t, newId, Some(id), ReminderSent);
    TakenNumbers(db, after, t, newId, Some(id), ReminderSent);
    TakenMoney(db, after, t, newId, Some(id), ReminderSent);
    TakenTemplates(db, after, t, newId, Some(id), ReminderSent);
    RemindLinks(db, after, t, id, newId);
  }

  lemma GeneratedFields(db: Db, p: nat, items: seq<Item>, terms: int, n: nat)
    requires p in db.templates && n > 0
    ensures var row := GeneratedFrom(db, p, items, terms, n);
            && ShapeOk(row) && row.number == Some(n) && row.totals == TotalsOf(items)
            && !Linked(row) && row.template == Some(p) && row.issued == db.templates[p].next
            && row.tenant == db.templates[p].tenant && row.status == Sent
  {
  }

  lemma GenerateEffect(db: Db, t: nat, p: nat, today: Date, terms: int, newId: nat)
    requires RowsOk(db) && newId !in db.ids && Generate(db, t, p, today, terms, newId).Committed?
    ensures var after := Generate(db, t, p, today, terms, newId).db;
            && Taken(db, after, t, newId, None, InvoiceSent) && TakenItems(db, after, newId, None)
            && newId !in db.invoices && !Linked(after.invoices[newId])
            && IsPeriod(db, after, p, newId)
  {
    hide TotalsOf, ToItems, GeneratedFrom, AddDaysTo, AdvanceByInterval;
    var items, n := ToItems(db.templates[p].lines), SettingsOf(db, t).next;
    GeneratedFields(db, p, items, terms, n);
    RegisterTakes(db, t, InvoiceSent, newId, GeneratedFrom(db, p, items, terms, n), items);
  }

  /** `n` is a new invoice of template `p` for its next date, and the template rolls one period on. */
  ghost predicate IsPeriod(db: Db, after: Db, p: nat, n: nat) {
    && p in db.templates && n in after.invoices
    && after.invoices[n].template == Some(p) && after.invoices[n].issued == db.templates[p].next
    && after.templates == db.templates[p := db.templates[p].(
         next := AdvanceByInterval(db.templates[p].next, db.templates[p].interval, db.templates[p].billingDay))]
  }

  lemma GenerateTemplates(db: Db, after: Db, t: nat, p: nat, n: nat)
    requires TemplatesOk(db) && Taken(db, after, t, n, None, InvoiceSent) && n !in db.invoices
    requires IsPeriod(db, after, p, n)
    ensures TemplatesOk(after)
  {
    hide AdvanceByInterval;
    var tpl := db.templates[p];
    AdvanceIsLater(tpl.next, tpl.interval, tpl.billingDay);
  }

  lemma GenerateKeeps(db: Db, t: nat, p: nat, today: Date, terms: int, newId: nat)
    requires Inv(db) && newId !in db.ids && Generate(db, t, p, today, terms, newId).Committed?
    ensures Inv(Generate(db, t, p, today, terms, newId).db)
  {
    hide Generate;
    var after := Generate(db, t, p, today, terms, newId).db;
    GenerateEffect(db, t, p, today, terms, newId);
    TakenRows(db, after, t, newId, None, InvoiceSent);
    TakenNumbers(db, after, t, newId, None, InvoiceSent);
    TakenMoney(db, after, t, newId, None, InvoiceSent);
    TakenLinks(db, after, t, newId, InvoiceSent);
    GenerateTemplates(db, after, t, p, newId);
  }

  // ---- Drafts ----------------------------------------------------------------------------------

  ghost predicate IsBlank(row: Invoice) {
    row.status == Draft && row.number.None? && row.template.None? && !Linked(row)
  }

  /** Only the draft `id` is inserted, rewritten or deleted. */
  ghost predicate DraftChange(db: Db, after: Db, id: nat) {
    && (id in db.invoices ==> IsBlank(db.invoices[id]))
    && (id in after.invoices ==> IsBlank(after.invoices[id]))
    && (forall i :: i != id ==> (i in db.invoices <==> i in after.invoices))
    && (forall i :: i in db.invoices && i != id ==> after.invoices[i] == db.invoices[i])
    && SameItems(db, after, id)
    && after.payments == db.payments && after.settings == db.settings && after.templates == db.templates
    && after.outbox == db.outbox
  }

  lemma DraftNumbers(db: Db, after: Db, id: nat)
    requires NumbersOk(db) && OutboxOk(db) && PaidOk(db) && DraftChange(db, after, id)
    ensures NumbersOk(after) && OutboxOk(after) && PaidOk(after)
  {
    assert SameNumbers(db, after);
    NumbersFrame(db, after);
    OutboxFrame(db, after);
    PaidFrame(db, after);
  }

  lemma DraftLinks(db: Db, after: Db, id: nat)
    requires LinksOk(db) && TemplatesOk(db) && DraftChange(db, after, id)
    ensures LinksOk(after) && TemplatesOk(after)
  {
    LinksFrame(db, after);
    TemplatesFrame(db, after);
  }

  lemma DraftsAreBlank(db: Db, id: nat)
    requires RowsOk(db) && id in db.invoices && db.invoices[id].status == Draft
    ensures IsBlank(db.invoices[id]) && ShapeOk(db.invoices[id])
  {
  }

  /** The row and items of draft `id` afterwards, consistent with each other. */
  ghost predicate DraftRow(db: Db, after: Db, id: nat) {
    && after.ids >= db.ids && after.invoices.Keys <= after.ids && after.items.Keys == after.invoices.Keys
    && (id in after.invoices ==>
          ShapeOk(after.invoices[id]) && id in after.items && after.invoices[id].totals == TotalsOf(after.items[id]))
  }

  lemma DraftRows(db: Db, after: Db, id: nat)
    requires RowsOk(db) && DraftChange(db, after, id) && DraftRow(db, after, id)
    ensures RowsOk(after)
  {
  }

  lemma InsertDraft(db: Db, id: nat, row: Invoice, items: seq<Item>)
    requires RowsOk(db) && (id in db.invoices ==> IsBlank(db.invoices[id]))
    requires IsBlank(row) && ShapeOk(row) && row.totals == TotalsOf(items)
    ensures DraftChange(db, Insert(db, id, row, items), id) && DraftRow(db, Insert(db, id, row, items), id)
  {
    hide IsBlank, ShapeOk, TotalsOf;
  }

  lemma DeleteDraft(db: Db, id: nat)
    requires RowsOk(db) && id in db.invoices && IsBlank(db.invoices[id])
    ensures DraftChange(db, Delete(db, id), id) && DraftRow(db, Delete(db, id), id)
  {
    hide IsBlank, ShapeOk, TotalsOf;
  }

  lemma CreateEffect(db: Db, t: nat, customer: nat, lines: seq<Vat.LineInput>, issued: Date, due: Date, today: Date,
                     newId: nat)
    requires RowsOk(db) && newId !in db.ids && Create(db, t, customer, lines, issued, due, today, newId).Committed?
    ensures var after := Create(db, t, customer, lines, issued, due, today, newId).db;
            DraftChange(db, after, newId) && DraftRow(db, after, newId)
  {
    hide TotalsOf, ToItems, DraftChange, DraftRow;
    var items := ToItems(lines);
    InsertDraft(db, newId, NewInvoice(t, customer, Plain, Draft, issued, due, items), items);
  }

  lemma CreateKeeps(db: Db, t: nat, customer: nat, lines: seq<Vat.LineInput>, issued: Date, due: Date, today: Date,
                    newId: nat)
    requires Inv(db) && newId !in db.ids && Create(db, t, customer, lines, issued, due, today, newId).Committed?
    ensures Inv(Create(db, t, customer, lines, issued, due, today, newId).db)
  {
    hide Create, DraftChange;
    var after := Create(db, t, customer, lines, issued, due, today, newId).db;
    CreateEffect(db, t, customer, lines, issued, due, today, newId);
    DraftRows(db, after, newId);
    DraftKeeps(db, after, newId);
  }

  lemma DraftKeeps(db: Db, after: Db, id: nat)
    requires Inv(db) && RowsOk(after) && DraftChange(db, after, id)
    requires id in after.invoices && id in db.invoices ==> after.invoices[id].tenant == db.invoices[id].tenant
    requires HasPaymentFor(db.payments, id) ==> id in after.invoices
    ensures Inv(after)
  {
    DraftNumbers(db, after, id);
    DraftLinks(db, after, id);
    DraftPayments(db, after, id);
    hide RowsOk, NumbersOk, LinksOk, PaymentsOk, PaidOk, OutboxOk, TemplatesOk;
  }

  lemma DraftPayments(db: Db, after: Db, id: nat)
    requires PaymentsOk(db) && DraftChange(db, after, id)
    requires id in after.invoices && id in db.invoices ==> after.invoices[id].tenant == db.invoices[id].tenant
    requires HasPaymentFor(db.payments, id) ==> id in after.invoices
    ensures PaymentsOk(after)
  {
  }

  lemma UpdateEffect(db: Db, t: nat, id: nat, lines: Option<seq<Vat.LineInput>>, issued: Option<Date>,
                     due: Option<Date>)
    requires RowsOk(db) && Update(db, t, id, lines, issued, due).Committed?
    ensures var after := Update(db, t, id, lines, issued, due).db;
            && DraftChange(db, after, id) && DraftRow(db, after, id)
            && id in after.invoices && id in db.invoices && after.invoices[id].tenant == db.invoices[id].tenant
  {
    hide TotalsOf, ToItems, DraftChange, DraftRow;
    DraftsAreBlank(db, id);
    var after := Update(db, t, id, lines, issued, due).db;
    InsertDraft(db, id, after.invoices[id], after.items[id]);
  }

  lemma UpdateKeeps(db: Db, t: nat, id: nat, lines: Option<seq<Vat.LineInput>>, issued: Option<Date>, due: Option<Date>)
    requires Inv(db) && Update(db, t, id, lines, issued, due).Committed?
    ensures Inv(Update(db, t, id, lines, issued, due).db)
  {
    hide Update, DraftChange, DraftRow;
    var after := Update(db, t, id, lines, issued, due).db;
    UpdateEffect(db, t, id, lines, issued, due);
    DraftRows(db, after, id);
    DraftKeeps(db, after, id);
  }

  lemma RemoveEffect(db: Db, t: nat, id: nat)
    requires RowsOk(db) && Remove(db, t, id).Committed?
    ensures var after := Remove(db, t, id).db;
            && DraftChange(db, after, id) && DraftRow(db, after, id) && !HasPaymentFor(db.payments, id)
            && id in db.invoices && id !in after.invoices
  {
    hide TotalsOf, DraftChange, DraftRow, HasPaymentFor;
    DraftsAreBlank(db, id);
    DeleteDraft(db, id);
  }

  lemma RemoveKeeps(db: Db, t: nat, id: nat)
    requires Inv(db) && Remove(db, t, id).Committed?
    ensures Inv(Remove(db, t, id).db)
  {
    hide Remove, DraftChange, DraftRow;
    RemoveEffect(db, t, id);
    DraftRows(db, Remove(db, t, id).db, id);
    DraftKeeps(db, Remove(db, t, id).db, id);
  }

  // ---- Overdue and payments --------------------------------------------------------------------

  /** The row is unchanged, or moved from an open status to overdue or paid. */
  ghost predicate MarkedRow(a: Invoice, b: Invoice) {
    b == a || (Open(a.status) && (b.status == Overdue || b.status == Status.Paid) && b == a.(status := b.status))
  }

  ghost predicate Marks(db: Db, after: Db) {
    && after.invoices.Keys == db.invoices.Keys
    && (forall i :: i in db.invoices ==> MarkedRow(db.invoices[i], after.invoices[i]))
    && after.items == db.items && after.settings == db.settings && after.templates == db.templates
    && after.outbox == db.outbox && after.ids == db.ids
  }

  lemma MarkRows(db: Db, after: Db)
    requires RowsOk(db) && Marks(db, after)
    ensures RowsOk(after)
  {
    hide TotalsOf, Ocr.DeriveOcr;
    forall i | i in after.invoices
      ensures ShapeOk(after.invoices[i]) && after.invoices[i].totals == TotalsOf(after.items[i])
    {
      assert ShapeOk(db.invoices[i]);
    }
  }

  lemma MarkNumbers(db: Db, after: Db)
    requires RowsOk(db) && NumbersOk(db) && OutboxOk(db) && Marks(db, after)
    ensures NumbersOk(after) && OutboxOk(after)
  {
    hide RowsOk;
    assert SameNumbers(db, after);
    NumbersFrame(db, after);
    OutboxFrame(db, after);
  }

  lemma MarkLinks(db: Db, after: Db)
    requires LinksOk(db) && Marks(db, after)
    ensures LinksOk(after)
  {
    hide LinksOk;
    LinksFrame(db, after);
  }

  lemma MarkTemplates(db: Db, after: Db)
    requires TemplatesOk(db) && Marks(db, after)
    ensures TemplatesOk(after)
  {
    TemplatesFrame(db, after);
  }

  lemma MarkKeeps(db: Db, after: Db)
    requires Inv(db) && Marks(db, after) && PaymentsOk(after) && PaidOk(after)
    ensures Inv(after)
  {
    MarkRows(db, after);
    MarkNumbers(db, after);
    MarkLinks(db, after);
    MarkTemplates(db, after);
    hide RowsOk, NumbersOk, LinksOk, PaymentsOk, PaidOk, OutboxOk, TemplatesOk;
  }

  lemma MarkOverdueKeeps(db: Db, t: nat, today: Date, which: set<nat>)
    requires Inv(db)
    ensures Inv(MarkOverdue(db, t, today, which).db)
  {
    hide RowsOk, NumbersOk, LinksOk, OutboxOk, TemplatesOk;
    var after := MarkOverdue(db, t, today, which).db;
    PaymentsFrame(db, after);
    MarkKeeps(db, after);
  }

  lemma PaidOreAppend(payments: seq<Payment>, p: Payment, t: nat, id: nat)
    ensures PaidOre(payments + [p], t, id)
         == PaidOre(payments, t, id) + (if p.tenant == t && p.invoice == id then p.amount else 0)
  {
  }

  lemma PayMarks(db: Db, t: nat, eventId: string, id: nat, paymentId: string, amount: int)
    requires PaymentsOk(db) && amount >= 1 && Pay(db, t, eventId, id, paymentId, amount).Committed?
    ensures var after := Pay(db, t, eventId, id, paymentId, amount).db;
            Marks(db, after) && PaymentsOk(after)
  {
    hide PaidOre;
  }

  lemma PayCovers(db: Db, t: nat, eventId: string, id: nat, paymentId: string, amount: int)
    requires PaidOk(db) && amount >= 1 && Pay(db, t, eventId, id, paymentId, amount).Committed?
    ensures PaidOk(Pay(db, t, eventId, id, paymentId, amount).db)
  {
  }

  lemma PayKeeps(db: Db, t: nat, eventId: string, id: nat, paymentId: string, amount: int)
    requires Inv(db) && amount >= 1 && Pay(db, t, eventId, id, paymentId, amount).Committed?
    ensures Inv(Pay(db, t, eventId, id, paymentId, amount).db)
  {
    hide Pay, Marks;
    PayMarks(db, t, eventId, id, paymentId, amount);
    PayCovers(db, t, eventId, id, paymentId, amount);
    MarkKeeps(db, Pay(db, t, eventId, id, paymentId, amount).db);
  }

  // ---- Settings and templates ------------------------------------------------------------------

  /** Only the settings and template tables differ. */
  ghost predicate SameRows(db: Db, after: Db) {
    && after.invoices == db.invoices && after.items == db.items && after.payments == db.payments
    && after.outbox == db.outbox && after.ids == db.ids
  }

  lemma SameRowsKeep(db: Db, after: Db)
    requires RowsOk(db) && LinksOk(db) && SameRows(db, after)
    ensures RowsOk(after) && LinksOk(after)
  {
    SameRowsLinks(db, after);
  }

  lemma SameRowsLinks(db: Db, after: Db)
    requires LinksOk(db) && SameRows(db, after)
    ensures LinksOk(after)
  {
  }

  lemma SameRowsMoney(db: Db, after: Db)
    requires PaymentsOk(db) && PaidOk(db) && OutboxOk(db) && SameRows(db, after)
    ensures PaymentsOk(after) && PaidOk(after) && OutboxOk(after)
  {
  }

  lemma ConfigureKeeps(db: Db, t: nat, complete: bool, fee: int)
    requires Inv(db) && fee >= 0
    ensures Inv(Configure(db, t, complete, fee).db)
  {
    hide RowsOk, LinksOk, PaymentsOk, PaidOk, OutboxOk;
    var after := Configure(db, t, complete, fee).db;
    SameRowsKeep(db, after);
    SameRowsMoney(db, after);
    ConfigureNumbers(db, t, complete, fee);
    hide NumbersOk, TemplatesOk;
  }

  lemma ConfigureNumbers(db: Db, t: nat, complete: bool, fee: int)
    requires NumbersOk(db) && TemplatesOk(db)
    ensures NumbersOk(Configure(db, t, complete, fee).db) && TemplatesOk(Configure(db, t, complete, fee).db)
  {
    NumbersFrame(db, Configure(db, t, complete, fee).db);
  }

  lemma AddTemplateKeeps(db: Db, t: nat, customer: nat, interval: Interval, next: Date, lines: seq<Vat.LineInput>,
                         today: Date, newId: nat)
    requires Inv(db) && newId !in db.templates && IsValid(next) && next.year >= 100
    requires AddTemplate(db, t, customer, interval, next, lines, today, newId).Committed?
    ensures Inv(AddTemplate(db, t, customer, interval, next, lines, today, newId).db)
  {
    hide RowsOk, LinksOk, PaymentsOk, PaidOk, OutboxOk, TemplatesOk, NumbersOk;
    var after := AddTemplate(db, t, customer, interval, next, lines, today, newId).db;
    SameRowsKeep(db, after);
    SameRowsMoney(db, after);
    SameSettingsKeep(db, after);
    TemplatesFrame(db, after);
  }

  lemma SameSettingsKeep(db: Db, after: Db)
    requires NumbersOk(db) && SameRows(db, after) && after.settings == db.settings
    ensures NumbersOk(after)
  {
    NumbersFrame(db, after);
  }

  // ---- All steps and runs ----------------------------------------------------------------------

  lemma StepKeeps(db: Db, op: Op)
    requires Inv(db) && Enabled(db, op)
    ensures Inv(Next(db, op))
  {
    hide Inv, Create, Update, Remove, Send, Credit, Remind, Generate, MarkOverdue, Pay, Configure, AddTemplate;
    if Apply(db, op).Committed? {
      match op
      case OpCreate(t, customer, lines, issued, due, today, newId) =>
        CreateKeeps(db, t, customer, lines, issued, due, today, newId);
      case OpUpdate(t, id, lines, issued, due) => UpdateKeeps(db, t, id, lines, issued, due);
      case OpRemove(t, id) => RemoveKeeps(db, t, id);
      case OpSend(t, id) => SendKeeps(db, t, id);
      case OpCredit(t, id, today, newId) => CreditKeeps(db, t, id, today, newId);
      case OpRemind(t, id, today, terms, newId) => RemindKeeps(db, t, id, today, terms, newId);
      case OpGenerate(t, id, today, terms, newId) => GenerateKeeps(db, t, id, today, terms, newId);
      case OpMarkOverdue(t, today, which) => MarkOverdueKeeps(db, t, today, which);
      case OpPay(t, eventId, id, paymentId, amount) => PayKeeps(db, t, eventId, id, paymentId, amount);
      case OpConfigure(t, complete, fee) => ConfigureKeeps(db, t, complete, fee);
      case OpAddTemplate(t, customer, interval, next, lines, today, newId) =>
        AddTemplateKeeps(db, t, customer, interval, next, lines, today, newId);
    }
  }

  lemma {:induction false} RunKeeps(db: Db, ops: seq<Op>)
    requires Inv(db) && EnabledRun(db, ops)
    ensures Inv(Run(db, ops))
    decreases |ops|
  {
    hide Inv;
    if ops != [] {
      StepKeeps(db, ops[0]);
      RunKeeps(Next(db, ops[0]), ops[1..]);
    }
  }

  lemma {:induction false} RunAppend(db: Db, ops: seq<Op>, op: Op)
    ensures Run(db, ops + [op]) == Next(Run(db, ops), op)
    decreases |ops|
  {
    hide Next;
    if ops == [] {
      assert (ops + [op])[1..] == [];
    } else {
      assert (ops + [op])[1..] == ops[1..] + [op];
      RunAppend(Next(db, ops[0]), ops[1..], op);
    }
  }

  lemma {:induction false} EnabledAppend(db: Db, ops: seq<Op>, op: Op)
    ensures EnabledRun(db, ops + [op]) <==> EnabledRun(db, ops) && Enabled(Run(db, ops), op)
    decreases |ops|
  {
    hide Next, Enabled;
    if ops == [] {
      assert (ops + [op])[1..] == [];
    } else {
      assert (ops + [op])[1..] == ops[1..] + [op];
      EnabledAppend(Next(db, ops[0]), ops[1..], op);
    }
  }
}
