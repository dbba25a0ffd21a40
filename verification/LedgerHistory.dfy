/**
 What a single invoice can go through: the status machine, what is frozen once a draft is sent,
 reminder chains, and the lookup that follows them.
 */
module LedgerHistory {
  import opened Wrappers
  import opened Dates
  import opened Ledger
  import opened LedgerInvariants
  import Ocr
  import Vat

  // ---- Status machine --------------------------------------------------------------------------

  function Rank(s: Status): (r: nat)
    ensures r <= 4
  {
    match s
    case Draft => 0
    case Sent => 1
    case Overdue => 2
    case Paid => 3
    case Credited => 4
    case Superseded => 4
    case Settled => 4
  }

  /** The only status changes there are. */
  predicate Edge(a: Status, b: Status) {
    || (a == Draft && b == Sent)
    || (a == Sent && b == Overdue)
    || (Open(a) && (b == Status.Paid || b == Superseded || b == Credited))
    || (a == Status.Paid && b == Credited)
  }

  /** One step of one row: along an edge or not at all, and frozen in every other respect unless a draft. */
  ghost predicate Evolves(a: Invoice, b: Invoice) {
    && (b.status == a.status || Edge(a.status, b.status))
    && b.tenant == a.tenant && b.customer == a.customer && b.kind == a.kind
    && b.credits == a.credits && b.reminds == a.reminds && b.template == a.template
    && (b.status != Draft ==> b.totals == a.totals && b.issued == a.issued && b.due == a.due)
    && (a.status != Draft ==> b.number == a.number && b.ocr == a.ocr)
    && (b.supersededBy != a.supersededBy ==> b.status == Superseded && a.supersededBy.None?)
  }

  ghost predicate RowEvolves(db: Db, after: Db, i: nat)
    requires i in db.invoices
  {
    && (i in after.invoices ==> Evolves(db.invoices[i], after.invoices[i]))
    && (i !in after.invoices ==> db.invoices[i].status == Draft)
    && (db.invoices[i].status != Draft && i in db.items ==> i in after.items && after.items[i] == db.items[i])
  }

  ghost predicate AllEvolve(db: Db, after: Db) {
    && (forall i :: i in db.invoices ==> RowEvolves(db, after, i))
    && db.ids <= after.ids
    && (forall i :: i in after.invoices && i !in db.invoices ==> i !in db.ids)
  }

  lemma TakenEvolves(db: Db, after: Db, t: nat, id: nat, original: Option<nat>, kind: EventKind)
    requires RowsOk(db) && Taken(db, after, t, id, original, kind) && TakenItems(db, after, id, original)
    requires id in db.invoices ==> Evolves(db.invoices[id], after.invoices[id]) && after.items[id] == db.items[id]
    requires id !in db.invoices ==> id !in db.ids
    requires original.Some? ==> Evolves(db.invoices[original.value], after.invoices[original.value])
    ensures AllEvolve(db, after)
  {
    hide TotalsOf, ShapeOk;
  }

  lemma DraftEvolves(db: Db, after: Db, id: nat)
    requires DraftChange(db, after, id) && DraftRow(db, after, id)
    requires id in db.invoices && id in after.invoices ==> Evolves(db.invoices[id], after.invoices[id])
    requires id !in db.invoices ==> id !in db.ids
    ensures AllEvolve(db, after)
  {
  }

  lemma MarksEvolve(db: Db, after: Db)
    requires Marks(db, after)
    requires forall i :: i in db.invoices ==> Evolves(db.invoices[i], after.invoices[i])
    ensures AllEvolve(db, after)
  {
  }

  lemma HasItems(db: Db, id: nat)
    requires RowsOk(db) && id in db.invoices
    ensures id in db.items && id in db.ids
  {
  }

  lemma SendEvolves(db: Db, t: nat, id: nat)
    requires RowsOk(db) && Send(db, t, id).Committed?
    ensures AllEvolve(db, Send(db, t, id).db)
  {
    hide RowsOk, Taken, TakenItems, AllEvolve;
    SendEffect(db, t, id);
    HasItems(db, id);
    TakenEvolves(db, Send(db, t, id).db, t, id, None, InvoiceSent);
  }

  lemma CreditEvolves(db: Db, t: nat, id: nat, today: Date, newId: nat)
    requires RowsOk(db) && newId !in db.ids && Credit(db, t, id, today, newId).Committed?
    ensures AllEvolve(db, Credit(db, t, id, today, newId).db)
  {
    hide Taken, TakenItems, AllEvolve, CreditItems, CreditNoteFor;
    CreditEffect(db, t, id, today, newId);
    TakenEvolves(db, Credit(db, t, id, today, newId).db, t, newId, Some(id), InvoiceCredited);
  }

  lemma RemindEvolves(db: Db, t: nat, id: nat, today: Date, terms: int, newId: nat)
    requires RowsOk(db) && newId !in db.ids && Remind(db, t, id, today, terms, newId).Committed?
    ensures AllEvolve(db, Remind(db, t, id, today, terms, newId).db)
  {
    hide Taken, TakenItems, AllEvolve, ReminderFor, ToItems, Remaining, AddDaysTo;
    RemindEffect(db, t, id, today, terms, newId);
    TakenEvolves(db, Remind(db, t, id, today, terms, newId).db, t, newId, Some(id), ReminderSent);
  }

  lemma GenerateEvolves(db: Db, t: nat, p: nat, today: Date, terms: int, newId: nat)
    requires RowsOk(db) && newId !in db.ids && Generate(db, t, p, today, terms, newId).Committed?
    ensures AllEvolve(db, Generate(db, t, p, today, terms, newId).db)
  {
    hide Generate, Taken, TakenItems, AllEvolve;
    GenerateEffect(db, t, p, today, terms, newId);
    TakenEvolves(db, Generate(db, t, p, today, terms, newId).db, t, newId, None, InvoiceSent);
  }

  lemma CreateEvolves(db: Db, t: nat, customer: nat, lines: seq<Vat.LineInput>, issued: Date, due: Date, today: Date,
                      newId: nat)
    requires RowsOk(db) && newId !in db.ids && Create(db, t, customer, lines, issued, due, today, newId).Committed?
    ensures AllEvolve(db, Create(db, t, customer, lines, issued, due, today, newId).db)
  {
    hide Create, DraftChange, DraftRow, AllEvolve;
    CreateEffect(db, t, customer, lines, issued, due, today, newId);
    DraftEvolves(db, Create(db, t, customer, lines, issued, due, today, newId).db, newId);
  }

  lemma UpdateEvolves(db: Db, t: nat, id: nat, lines: Option<seq<Vat.LineInput>>, issued: Option<Date>,
                      due: Option<Date>)
    requires RowsOk(db) && Update(db, t, id, lines, issued, due).Committed?
    ensures AllEvolve(db, Update(db, t, id, lines, issued, due).db)
  {
    hide RowsOk, DraftChange, DraftRow, AllEvolve, TotalsOf, ToItems;
    UpdateEffect(db, t, id, lines, issued, due);
    DraftEvolves(db, Update(db, t, id, lines, issued, due).db, id);
  }

  lemma RemoveEvolves(db: Db, t: nat, id: nat)
    requires RowsOk(db) && Remove(db, t, id).Committed?
    ensures AllEvolve(db, Remove(db, t, id).db)
  {
    hide Remove, DraftChange, DraftRow, AllEvolve;
    RemoveEffect(db, t, id);
    DraftEvolves(db, Remove(db, t, id).db, id);
  }

  lemma MarkOverdueEvolves(db: Db, t: nat, today: Date, which: set<nat>)
    ensures AllEvolve(db, MarkOverdue(db, t, today, which).db)
  {
    hide AllEvolve;
    MarksEvolve(db, MarkOverdue(db, t, today, which).db);
  }

  lemma PayEvolves(db: Db, t: nat, eventId: string, id: nat, paymentId: string, amount: int)
    requires Pay(db, t, eventId, id, paymentId, amount).Committed?
    ensures AllEvolve(db, Pay(db, t, eventId, id, paymentId, amount).db)
  {
    hide AllEvolve, PaidOre;
    MarksEvolve(db, Pay(db, t, eventId, id, paymentId, amount).db);
  }

  /** Every committed transaction moves every row along an edge of the status machine, or not at all. */
  lemma StepEvolves(db: Db, op: Op)
    requires RowsOk(db) && Enabled(db, op)
    ensures AllEvolve(db, Next(db, op))
  {
    hide RowsOk, Create, Update, Remove, Send, Credit, Remind, Generate, MarkOverdue, Pay;
    if Apply(db, op).Committed? {
      hide AllEvolve;
      match op
      case OpCreate(t, customer, lines, issued, due, today, newId) =>
        CreateEvolves(db, t, customer, lines, issued, due, today, newId);
      case OpUpdate(t, id, lines, issued, due) => UpdateEvolves(db, t, id, lines, issued, due);
      case OpRemove(t, id) => RemoveEvolves(db, t, id);
      case OpSend(t, id) => SendEvolves(db, t, id);
      case OpCredit(t, id, today, newId) => CreditEvolves(db, t, id, today, newId);
      case OpRemind(t, id, today, terms, newId) => RemindEvolves(db, t, id, today, terms, newId);
      case OpGenerate(t, id, today, terms, newId) => GenerateEvolves(db, t, id, today, terms, newId);
      case OpMarkOverdue(t, today, which) => MarkOverdueEvolves(db, t, today, which);
      case OpPay(t, eventId, id, paymentId, amount) => PayEvolves(db, t, eventId, id, paymentId, amount);
      case OpConfigure(t, complete, fee) => SameRowsEvolve(db, Next(db, op));
      case OpAddTemplate(t, customer, interval, next, lines, today, newId) => SameRowsEvolve(db, Next(db, op));
    } else {
      SameRowsEvolve(db, db);
    }
  }

  lemma SameRowsEvolve(db: Db, after: Db)
    requires SameRows(db, after)
    ensures AllEvolve(db, after)
  {
  }

  /** How often the status of row i changes while a run is applied. */
  ghost function Transitions(db: Db, ops: seq<Op>, i: nat): nat
    decreases |ops|
  {
    if ops == [] then 0
    else
      var after := Next(db, ops[0]);
      var moved :=
        if i in db.invoices && i in after.invoices && after.invoices[i].status != db.invoices[i].status then 1 else 0;
      moved + Transitions(after, ops[1..], i)
  }

  /** Once an identity value is used up its row, if gone, never comes back. */
  lemma {:induction false} GoneForever(db: Db, ops: seq<Op>, i: nat)
    requires Inv(db) && EnabledRun(db, ops) && i !in db.invoices && i in db.ids
    ensures Transitions(db, ops, i) == 0 && i !in Run(db, ops).invoices
    decreases |ops|
  {
    hide Inv, RowEvolves;
    if ops != [] {
      RowsOfInv(db);
      StepKeeps(db, ops[0]);
      StepEvolves(db, ops[0]);
      GoneForever(Next(db, ops[0]), ops[1..], i);
    }
  }

  lemma RowsOfInv(db: Db)
    requires Inv(db)
    ensures RowsOk(db)
  {
  }

  /** What a run can do to an invoice that has been sent. */
  ghost predicate Frozen(db: Db, after: Db, i: nat)
    requires i in db.invoices && i in after.invoices
  {
    var a, b := db.invoices[i], after.invoices[i];
    && Rank(a.status) <= Rank(b.status)
    && b == a.(status := b.status, supersededBy := b.supersededBy)
    && (i in db.items ==> i in after.items && after.items[i] == db.items[i])
  }

  lemma EvolvedRow(db: Db, after: Db, i: nat)
    requires AllEvolve(db, after) && i in db.invoices && db.invoices[i].status != Draft
    ensures i in after.invoices && after.invoices[i].status != Draft && Frozen(db, after, i)
    ensures Rank(after.invoices[i].status) == Rank(db.invoices[i].status) ==>
            after.invoices[i].status == db.invoices[i].status
  {
  }

  lemma StepFrozen(db: Db, op: Op, i: nat)
    requires RowsOk(db) && Enabled(db, op) && i in db.invoices && db.invoices[i].status != Draft
    ensures i in Next(db, op).invoices && Next(db, op).invoices[i].status != Draft
    ensures Frozen(db, Next(db, op), i)
    ensures Rank(Next(db, op).invoices[i].status) == Rank(db.invoices[i].status) ==>
              Next(db, op).invoices[i].status == db.invoices[i].status
  {
    hide RowsOk, Next;
    StepEvolves(db, op);
    EvolvedRow(db, Next(db, op), i);
  }

  /**
   Along any run a sent invoice stays in the table, its number, reference, totals, dates and lines never
   change, and its status rises at every change.
   */
  lemma {:induction false} SentIsFrozen(db: Db, ops: seq<Op>, i: nat)
    requires Inv(db) && EnabledRun(db, ops) && i in db.invoices && db.invoices[i].status != Draft
    ensures i in Run(db, ops).invoices && Frozen(db, Run(db, ops), i)
    ensures Transitions(db, ops, i) <= Rank(Run(db, ops).invoices[i].status) - Rank(db.invoices[i].status)
    decreases |ops|
  {
    hide Inv;
    if ops != [] {
      RowsOfInv(db);
      StepKeeps(db, ops[0]);
      StepFrozen(db, ops[0], i);
      SentIsFrozen(Next(db, ops[0]), ops[1..], i);
    }
  }

  /** Every invoice has at most four status transitions, from creation on. */
  lemma {:induction false} AtMostFourTransitions(db: Db, ops: seq<Op>, i: nat)
    requires Inv(db) && EnabledRun(db, ops) && i in db.invoices
    ensures Transitions(db, ops, i) <= 4 - Rank(db.invoices[i].status)
    decreases |ops|
  {
    hide Inv;
    if ops != [] {
      if db.invoices[i].status == Draft {
        RowsOfInv(db);
        HasItems(db, i);
        StepKeeps(db, ops[0]);
        StepEvolves(db, ops[0]);
        assert RowEvolves(db, Next(db, ops[0]), i);
        if i in Next(db, ops[0]).invoices {
          AtMostFourTransitions(Next(db, ops[0]), ops[1..], i);
        } else {
          GoneForever(Next(db, ops[0]), ops[1..], i);
        }
      } else {
        SentIsFrozen(db, ops, i);
      }
    }
  }

  // ---- Numbering, read off the invariant -------------------------------------------------------

  ghost predicate NumberTable(db: Db, t: nat) {
    && (forall n: nat :: 1 <= n < SettingsOf(db, t).next <==> HasNumber(db, t, n))
    && (forall i :: i in db.invoices ==> (db.invoices[i].number.None? <==> db.invoices[i].status == Draft))
  }

  /** After any run from the empty tables the numbers of a tenant are exactly 1 .. next - 1, each used once. */
  lemma GapFreeNumbering(ops: seq<Op>, t: nat)
    requires EnabledRun(EMPTY, ops)
    ensures NumberTable(Run(EMPTY, ops), t)
    ensures forall i, j | i in Run(EMPTY, ops).invoices && j in Run(EMPTY, ops).invoices
                       && SameNumber(Run(EMPTY, ops).invoices[i], Run(EMPTY, ops).invoices[j]) :: i == j
  {
    EmptyInv();
    RunKeeps(EMPTY, ops);
    NumbersAreTable(Run(EMPTY, ops), t);
  }

  lemma NumbersAreTable(db: Db, t: nat)
    requires NumbersOk(db) && RowsOk(db)
    ensures NumberTable(db, t)
  {
  }

  /** Distinct invoices of a tenant have distinct OCR references. */
  lemma OcrIsUnique(db: Db, i: nat, j: nat)
    requires Inv(db) && i in db.invoices && j in db.invoices && db.invoices[i].tenant == db.invoices[j].tenant
    requires db.invoices[i].ocr.Some? && db.invoices[i].ocr == db.invoices[j].ocr
    ensures i == j
  {
    hide Ocr.DeriveOcr;
    assert ShapeOk(db.invoices[i]) && ShapeOk(db.invoices[j]);
    Ocr.DeriveInjective(db.invoices[i].number.value, db.invoices[j].number.value);
    assert SameNumber(db.invoices[i], db.invoices[j]);
  }

  // ---- Reminders and credit notes --------------------------------------------------------------

  /** An invoice has at most one reminder, exists one exactly if it is superseded, and points to it. */
  lemma RemindedAtMostOnce(db: Db, o: nat, r: nat)
    requires Inv(db) && o in db.invoices && r in db.invoices
    ensures db.invoices[r].reminds == Some(o) <==> db.invoices[o].supersededBy == Some(r)
    ensures db.invoices[o].status == Superseded <==> db.invoices[o].supersededBy.Some?
  {
  }

  /** A reminder is never itself superseded, so chains have length at most one. */
  lemma ChainsAreShort(db: Db, r: nat)
    requires RowsOk(db) && r in db.invoices && db.invoices[r].reminds.Some?
    ensures db.invoices[r].supersededBy.None?
  {
    assert ShapeOk(db.invoices[r]);
  }

  /** A credit note cancels its original: quantities, line amounts and totals of the two add up to zero. */
  lemma CreditNoteCancels(db: Db, n: nat)
    requires RowsOk(db) && LinksOk(db) && n in db.invoices && db.invoices[n].credits.Some?
    ensures var o := db.invoices[n].credits.value;
            && o in db.invoices && o in db.items && n in db.items
            && Vat.Plus(db.invoices[n].totals, db.invoices[o].totals) == Vat.ZERO
            && |db.items[n]| == |db.items[o]|
            && (forall k :: 0 <= k < |db.items[o]| ==>
                  && Vat.Plus(db.items[n][k].amounts, db.items[o][k].amounts) == Vat.ZERO
                  && db.items[n][k].milli + db.items[o][k].milli == 0
                  && db.items[n][k].unitPrice == db.items[o][k].unitPrice
                  && db.items[n][k].vatRate == db.items[o][k].vatRate)
  {
    hide TotalsOf, ShapeOk, CreditItems, HasCreditNote;
    assert LinkOk(db, n);
    var o := db.invoices[n].credits.value;
    CreditTotals(db.items[o]);
    CreditLines(db.items[o]);
  }

  lemma CreditLines(items: seq<Item>)
    ensures |CreditItems(items)| == |items|
    ensures forall k :: 0 <= k < |items| ==>
              && Vat.Plus(CreditItems(items)[k].amounts, items[k].amounts) == Vat.ZERO
              && CreditItems(items)[k].milli + items[k].milli == 0
              && CreditItems(items)[k].unitPrice == items[k].unitPrice
              && CreditItems(items)[k].vatRate == items[k].vatRate
  {
  }

  lemma CreditTotals(items: seq<Item>)
    ensures TotalsOf(CreditItems(items)) == Vat.Negate(TotalsOf(items))
  {
    assert AmountsOf(CreditItems(items)) == Vat.NegateAll(AmountsOf(items));
    Vat.TotalsNegate(AmountsOf(items));
  }

  /** Each invoice has at most one credit note, and one exactly if it is credited. */
  lemma CreditedExactlyOnce(db: Db, o: nat)
    requires Inv(db) && o in db.invoices
    ensures db.invoices[o].status == Credited <==> HasCreditNote(db, o)
    ensures forall m, n | m in db.invoices && n in db.invoices
                       && db.invoices[m].credits == Some(o) && db.invoices[n].credits == Some(o) :: m == n
  {
    if HasCreditNote(db, o) {
      var n :| n in db.invoices && db.invoices[n].credits == Some(o);
      assert LinkOk(db, n);
    }
    forall m, n | m in db.invoices && n in db.invoices
               && db.invoices[m].credits == Some(o) && db.invoices[n].credits == Some(o) ensures m == n {
      assert SameCredit(db.invoices[m], db.invoices[n]);
    }
  }

  /** Invoice n is issued on a day and due so many days later by the calendar. */
  ghost predicate IsDue(after: Db, n: nat, issued: Date, days: int) {
    && n in after.invoices && after.invoices[n].issued == issued
    && IsValid(issued) && IsValid(after.invoices[n].due)
    && DayNumber(after.invoices[n].due) == DayNumber(issued) + days
  }

  /** A reminder is due its terms after the day it is made. */
  lemma ReminderDue(db: Db, op: Op)
    requires op.OpRemind? && Apply(db, op).Committed? && Enabled(db, op) && db.invoices.Keys <= db.ids
    requires IsValid(op.today) && op.today.year >= 100
    ensures IsDue(Next(db, op), op.newId, op.today, op.terms)
  {
    hide TotalsOf, ToItems, Ocr.DeriveOcr, PaidOre, Vat.Computable, DayNumber, IsValid, AddDaysTo;
    AddDaysMovesDayNumber(op.today, op.terms);
  }

  /** A generated invoice is dated on its scheduled day, whenever the job ran, and due its terms later. */
  lemma GeneratedDue(db: Db, op: Op)
    requires op.OpGenerate? && Apply(db, op).Committed? && TemplatesOk(db)
    ensures op.id in db.templates && IsDue(Next(db, op), op.newId, db.templates[op.id].next, op.terms)
  {
    hide TotalsOf, ToItems, Ocr.DeriveOcr, Vat.Computable, DayNumber, IsValid, AddDaysTo, AdvanceByInterval, Before;
    AddDaysMovesDayNumber(db.templates[op.id].next, op.terms);
  }

  // ---- Announcements ------------------------------------------------------------------------------

  /** The event that carries an invoice of a kind to the document service. */
  function Announces(k: Kind): EventKind {
    match k
    case Plain => InvoiceSent
    case CreditNote => InvoiceCredited
    case Reminder => ReminderSent
  }

  ghost predicate EventOk(db: Db, e: Event) {
    e.invoice in db.invoices && e.kind == Announces(db.invoices[e.invoice].kind)
  }

  ghost predicate EventsMatch(db: Db) {
    forall k :: 0 <= k < |db.outbox| ==> EventOk(db, db.outbox[k])
  }

  predicate TakesNumber(op: Op) {
    op.OpSend? || op.OpCredit? || op.OpRemind? || op.OpGenerate?
  }

  /** The event a transaction that takes a number writes with it. */
  function EventOf(op: Op): Event
    requires TakesNumber(op)
  {
    if op.OpSend? then Event(InvoiceSent, op.id)
    else Event(if op.OpCredit? then InvoiceCredited else if op.OpRemind? then ReminderSent else InvoiceSent, op.newId)
  }

  lemma NumberAnnounced(db: Db, op: Op)
    requires RowsOk(db) && Enabled(db, op) && Apply(db, op).Committed? && TakesNumber(op)
    ensures var after := Next(db, op); after.outbox == db.outbox + [EventOf(op)] && EventOk(after, EventOf(op))
  {
    hide TotalsOf, ToItems, CreditItems, PaidOre, Ocr.DeriveOcr, Vat.Computable, AddDaysTo, AdvanceByInterval, Before;
    assert op.OpSend? ==> ShapeOk(db.invoices[op.id]);
  }

  lemma OthersAnnounceNothing(db: Db, op: Op)
    requires !TakesNumber(op)
    ensures Next(db, op).outbox == db.outbox
  {
    hide TotalsOf, ToItems, PaidOre, PaidIfCovered, HasPaymentKey, HasPaymentFor, Vat.Computable, Before, NewInvoice;
  }

  /** What has been announced stays, as the kind of invoice it was. */
  lemma AnnouncedStays(db: Db, after: Db)
    requires RowsOk(db) && OutboxOk(db) && EventsMatch(db) && AllEvolve(db, after)
    ensures forall k :: 0 <= k < |db.outbox| ==> EventOk(after, db.outbox[k])
  {
    hide TotalsOf, IsAnnounced;
    forall k | 0 <= k < |db.outbox| ensures EventOk(after, db.outbox[k]) {
      var i := db.outbox[k].invoice;
      assert EventOk(db, db.outbox[k]) && RowEvolves(db, after, i) && ShapeOk(db.invoices[i]);
    }
  }

  /** Every transaction that takes a number announces it with the event of that kind of invoice, and no other does. */
  lemma StepAnnounces(db: Db, op: Op)
    requires Inv(db) && Enabled(db, op) && EventsMatch(db)
    ensures EventsMatch(Next(db, op))
    ensures Next(db, op).outbox ==
            if TakesNumber(op) && Apply(db, op).Committed? then db.outbox + [EventOf(op)] else db.outbox
  {
    hide Next, Apply, Enabled, AllEvolve, RowsOk, NumbersOk, LinksOk, PaymentsOk, PaidOk, OutboxOk, TemplatesOk;
    hide FeesOk, EventOk;
    var after := Next(db, op);
    StepEvolves(db, op);
    AnnouncedStays(db, after);
    if !TakesNumber(op) {
      OthersAnnounceNothing(db, op);
    } else if Apply(db, op).Committed? {
      NumberAnnounced(db, op);
    } else {
      NothingCommitted(db, op);
    }
  }

  lemma NothingCommitted(db: Db, op: Op)
    requires !Apply(db, op).Committed?
    ensures Next(db, op) == db
  {
  }

  /** In every reachable state the outbox holds exactly one event per numbered invoice, of the kind the invoice is. */
  lemma {:induction false} OutboxAnnounces(db: Db, ops: seq<Op>)
    requires Inv(db) && EnabledRun(db, ops) && EventsMatch(db)
    ensures EventsMatch(Run(db, ops)) && OutboxOk(Run(db, ops))
    decreases |ops|
  {
    hide Inv, Next, Enabled, EventsMatch, OutboxOk;
    if ops == [] {
      InvOutbox(db);
    } else {
      StepKeeps(db, ops[0]);
      StepAnnounces(db, ops[0]);
      OutboxAnnounces(Next(db, ops[0]), ops[1..]);
    }
  }

  lemma InvOutbox(db: Db)
    requires Inv(db)
    ensures OutboxOk(db)
  {
    hide RowsOk, NumbersOk, LinksOk, PaymentsOk, PaidOk, OutboxOk, TemplatesOk, FeesOk;
  }

  // ---- Following the chain ---------------------------------------------------------------------

  /** The successor of a row, as findByIdBasic finds it: the link of another tenant leads nowhere. */
  function Successor(db: Db, t: nat, i: nat): Option<nat>
    requires i in db.invoices
  {
    var link := db.invoices[i].supersededBy;
    if link.Some? && Visible(db, t, link.value) then link else None
  }

  /** A walk along the links that never visits a row twice. */
  ghost predicate IsWalk(db: Db, t: nat, walk: seq<nat>) {
    && walk != []
    && (forall k :: 0 <= k < |walk| ==> walk[k] in db.invoices)
    && (forall k :: 0 < k < |walk| ==> Successor(db, t, walk[k - 1]) == Some(walk[k]))
    && (forall j, k :: 0 <= j < k < |walk| ==> walk[j] != walk[k])
  }

  /**
   resolveCurrent: on any table, cyclic ones included, the loop ends at the last row of a longest walk:
   one without a successor, or whose successor was already visited.
   */
  method ResolveCurrent(db: Db, t: nat, start: nat) returns (current: nat, ghost walk: seq<nat>)
    requires start in db.invoices
    ensures IsWalk(db, t, walk) && walk[0] == start && walk[|walk| - 1] == current
    ensures Successor(db, t, current).None? || Successor(db, t, current).value in walk
  {
    current := start;
    var guard := {start};
    walk := [start];
    while db.invoices[current].supersededBy.Some?
      invariant IsWalk(db, t, walk) && walk[0] == start && walk[|walk| - 1] == current
      invariant forall x :: x in guard <==> x in walk
      invariant guard <= db.invoices.Keys
      decreases |db.invoices.Keys - guard|
    {
      var next := db.invoices[current].supersededBy.value;
      if !Visible(db, t, next) || next in guard {
        return;
      }
      WalkExtends(db, t, walk, next);
      ShrinkingSets(db.invoices.Keys - (guard + {next}), db.invoices.Keys - guard, next);
      guard := guard + {next};
      walk := walk + [next];
      current := next;
    }
  }

  lemma WalkExtends(db: Db, t: nat, walk: seq<nat>, next: nat)
    requires IsWalk(db, t, walk) && next !in walk && Successor(db, t, walk[|walk| - 1]) == Some(next)
    ensures IsWalk(db, t, walk + [next])
  {
  }

  lemma ShrinkingSets(a: set<nat>, b: set<nat>, x: nat)
    requires a <= b && x in b && x !in a
    ensures |a| < |b|
  {
    assert b == a + (b - a);
  }

  /** On reachable tables the lookup ends at the row itself or at its reminder, which is never superseded. */
  lemma ResolvesToCurrent(db: Db, t: nat, walk: seq<nat>)
    requires RowsOk(db) && LinksOk(db) && IsWalk(db, t, walk) && db.invoices[walk[0]].tenant == t
    requires var last := walk[|walk| - 1];
             Successor(db, t, last).None? || Successor(db, t, last).value in walk
    ensures var start, last := db.invoices[walk[0]], db.invoices[walk[|walk| - 1]];
            && last.supersededBy.None? && last.status != Superseded
            && walk[|walk| - 1] == (if start.supersededBy.Some? then start.supersededBy.value else walk[0])
            && last.tenant == t && last.customer == start.customer
  {
    hide ShapeOk, TotalsOf;
    ShortWalk(db, t, walk);
    var start := walk[0];
    assert LinkOk(db, start);
    assert |walk| == 1 ==> forall x :: x in walk ==> x == start;
    if db.invoices[start].supersededBy.Some? {
      ChainsAreShort(db, db.invoices[start].supersededBy.value);
    }
  }

  lemma WalkStep(db: Db, t: nat, walk: seq<nat>, k: nat)
    requires IsWalk(db, t, walk) && 0 < k < |walk|
    ensures walk[k - 1] in db.invoices && db.invoices[walk[k - 1]].supersededBy == Some(walk[k])
  {
  }

  lemma ShortWalk(db: Db, t: nat, walk: seq<nat>)
    requires RowsOk(db) && LinksOk(db) && IsWalk(db, t, walk)
    ensures |walk| <= 2
    ensures db.invoices[walk[|walk| - 1]].status == Superseded <==> db.invoices[walk[|walk| - 1]].supersededBy.Some?
    ensures |walk| == 2 ==>
              db.invoices[walk[1]].supersededBy.None? && db.invoices[walk[0]].supersededBy == Some(walk[1])
  {
    if |walk| >= 2 {
      assert LinkOk(db, walk[0]);
      assert Successor(db, t, walk[0]) == Some(walk[1]);
      ChainsAreShort(db, walk[1]);
      if |walk| >= 3 {
        WalkStep(db, t, walk, 2);
        assert false;
      }
    }
  }
}
