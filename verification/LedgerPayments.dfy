/** What payments do to an invoice, whatever their order and duplication and whatever else is going on. */
module LedgerPayments {
  import opened Dates
  import opened Ledger
  import opened LedgerInvariants
  import opened LedgerMoney
  import opened TransactionPlans
  import opened Transactions
  import Vat

  /** A committed apply never leaves its invoice open although its payments cover the total. */
  lemma ApplyClosesCovered(db: Db, t: nat, eventId: string, id: nat, paymentId: string, amount: int)
    requires Pay(db, t, eventId, id, paymentId, amount).Committed?
    ensures var after := Pay(db, t, eventId, id, paymentId, amount).db;
            && id in after.invoices
            && (Open(after.invoices[id].status) ==>
                  PaidOre(after.payments, t, id) < after.invoices[id].totals.incl)
            && (after.invoices[id].status != db.invoices[id].status ==>
                  Open(db.invoices[id].status) && after.invoices[id].status == Status.Paid
                  && PaidOre(after.payments, t, id) >= db.invoices[id].totals.incl)
  {
  }

  // ---- Payments among everything else --------------------------------------------------------------------

  /** A set of payments for one invoice: what each event id pays, and what each payment id amounts to. */
  datatype Bookings = Bookings(t: nat, id: nat, events: map<string, string>, amounts: map<string, int>)

  ghost predicate IsBookings(b: Bookings) {
    && (forall e :: e in b.events ==> b.events[e] in b.amounts)
    && (forall p :: p in b.amounts ==> b.amounts[p] >= 1)
  }

  /** One delivery of one of the events. */
  predicate Delivers(op: Op, b: Bookings) {
    && op.OpPay? && op.t == b.t && op.id == b.id
    && op.eventId in b.events && op.paymentId == b.events[op.eventId]
    && op.paymentId in b.amounts && op.amount == b.amounts[op.paymentId]
  }

  /** A transaction that leaves the invoice, the events and the payments alone, or a sweep that may mark it overdue. */
  ghost predicate Elsewhere(op: Op, b: Bookings) {
    && (Touches(op, InvoiceKey(b.id)) ==> op.OpMarkOverdue?)
    && (forall e :: e in b.events ==> !Touches(op, EventKey(e)) && !Touches(op, PaymentKey(b.t, b.events[e])))
  }

  ghost predicate Mixed(ops: seq<Op>, b: Bookings) {
    forall k :: 0 <= k < |ops| ==> Delivers(ops[k], b) || Elsewhere(ops[k], b)
  }

  /** The events that have been delivered at least once. */
  ghost function Delivered(ops: seq<Op>, b: Bookings): set<string> {
    if ops == [] then {}
    else
      var last := ops[|ops| - 1];
      Delivered(ops[..|ops| - 1], b) + (if Delivers(last, b) then {last.eventId} else {})
  }

  /** A sweep on a day after the invoice is due. */
  predicate Sweeps(db: Db, op: Op, b: Bookings)
    requires b.id in db.invoices
  {
    op.OpMarkOverdue? && op.t == b.t && b.id in op.which && Before(db.invoices[b.id].due, op.today)
  }

  predicate Swept(db: Db, ops: seq<Op>, b: Bookings)
    requires b.id in db.invoices
  {
    exists k :: 0 <= k < |ops| && Sweeps(db, ops[k], b)
  }

  /** The payments of some of the events. */
  ghost function PaidBy(b: Bookings, events: set<string>): set<string> {
    set e | e in events && e in b.events :: b.events[e]
  }

  ghost function Booked(amounts: map<string, int>, ids: set<string>): int {
    Sum(ids, p => if p in amounts then amounts[p] else 0)
  }

  /** The invoice is open and none of the events or payments has been seen. */
  ghost predicate Unbooked(db: Db, b: Bookings) {
    && Visible(db, b.t, b.id) && Open(db.invoices[b.id].status)
    && (forall e :: e in b.events ==> e !in db.processed && !HasPaymentKey(db.payments, b.t, b.events[e]))
  }

  /** What some of the events, and a sweep if there was one, leave of an open invoice's status. */
  function StatusAfter(row: Invoice, paid: int, some: bool, swept: bool): Status {
    if some && paid >= row.totals.incl then Status.Paid else if swept then Overdue else row.status
  }

  /** What the tables look like after some of the events, each of them delivered any number of times, and any sweeps. */
  ghost predicate After(db: Db, now: Db, b: Bookings, events: set<string>, swept: bool)
    requires b.id in db.invoices
  {
    && Visible(now, b.t, b.id)
    && events <= b.events.Keys
    && (forall e :: e in b.events ==> (e in now.processed <==> e in events))
    && (forall e :: e in b.events ==>
          (HasPaymentKey(now.payments, b.t, b.events[e]) <==> b.events[e] in PaidBy(b, events)))
    && PaidOre(now.payments, b.t, b.id) == PaidOre(db.payments, b.t, b.id) + Booked(b.amounts, PaidBy(b, events))
    && now.invoices[b.id] == db.invoices[b.id].(
         status := StatusAfter(db.invoices[b.id], PaidOre(now.payments, b.t, b.id), events != {}, swept))
  }

  lemma BookedInsert(amounts: map<string, int>, ids: set<string>, p: string)
    requires p in amounts && p !in ids
    ensures Booked(amounts, ids + {p}) == Booked(amounts, ids) + amounts[p]
  {
    SumInsert(ids, q => if q in amounts then amounts[q] else 0, p);
  }

  lemma BookedNothing(amounts: map<string, int>)
    ensures Booked(amounts, {}) == 0
  {
  }

  /** The effect of one delivery whose event is new. */
  lemma FreshDelivery(now: Db, t: nat, eventId: string, id: nat, p: string, amount: int)
    requires Visible(now, t, id) && eventId !in now.processed
    ensures var after := Next(now, OpPay(t, eventId, id, p, amount));
            var inserted := if HasPaymentKey(now.payments, t, p) then 0 else amount;
            && after.processed == now.processed + {eventId} && Visible(after, t, id)
            && (forall q :: HasPaymentKey(after.payments, t, q) <==> HasPaymentKey(now.payments, t, q) || q == p)
            && PaidOre(after.payments, t, id) == PaidOre(now.payments, t, id) + inserted
            && after.invoices[id] == PaidIfCovered(now.invoices[id], PaidOre(after.payments, t, id))
  {
  }

  lemma PaidByMore(b: Bookings, events: set<string>, e: string)
    requires e in b.events
    ensures PaidBy(b, events + {e}) == PaidBy(b, events) + {b.events[e]}
  {
  }

  lemma BookedMore(b: Bookings, events: set<string>, e: string)
    requires IsBookings(b) && e in b.events
    ensures Booked(b.amounts, PaidBy(b, events + {e})) == Booked(b.amounts, PaidBy(b, events))
              + (if b.events[e] in PaidBy(b, events) then 0 else b.amounts[b.events[e]])
  {
    hide PaidBy, Booked;
    PaidByMore(b, events, e);
    if b.events[e] in PaidBy(b, events) {
      assert PaidBy(b, events) + {b.events[e]} == PaidBy(b, events);
    } else {
      BookedInsert(b.amounts, PaidBy(b, events), b.events[e]);
    }
  }

  /** A delivery, new or repeated. */
  lemma DeliveryStep(db: Db, now: Db, b: Bookings, events: set<string>, swept: bool, op: Op)
    requires IsBookings(b) && Unbooked(db, b) && After(db, now, b, events, swept) && Delivers(op, b)
    ensures After(db, Next(now, op), b, events + {op.eventId}, swept)
  {
    hide PaidOre, HasPaymentKey, Booked, PaidBy;
    if op.eventId in now.processed {
      assert events + {op.eventId} == events;
      assert Next(now, op) == now;
    } else {
      FreshDelivery(now, b.t, op.eventId, b.id, op.paymentId, op.amount);
      hide Next;
      PaidByMore(b, events, op.eventId);
      BookedMore(b, events, op.eventId);
      NeverLess(b, events, op.eventId);
    }
  }

  lemma {:induction false} NeverLess(b: Bookings, events: set<string>, e: string)
    requires IsBookings(b) && e in b.events
    ensures Booked(b.amounts, PaidBy(b, events + {e})) >= Booked(b.amounts, PaidBy(b, events))
  {
    hide PaidBy, Booked;
    BookedMore(b, events, e);
  }

  /** Any other transaction. */
  lemma ElsewhereStep(db: Db, now: Db, b: Bookings, events: set<string>, swept: bool, op: Op)
    requires b.id in db.invoices && After(db, now, b, events, swept)
    requires FreshRow(now, op) && !Touches(op, InvoiceKey(b.id)) && Elsewhere(op, b)
    ensures After(db, Next(now, op), b, events, swept)
  {
    hide PaidOre, HasPaymentKey, Booked, PaidBy, Touches, FreshRow, Next;
    TransactionPlans.Untouched(now, op, InvoiceKey(b.id));
    forall e | e in b.events
      ensures e in Next(now, op).processed <==> e in now.processed
      ensures HasPaymentKey(Next(now, op).payments, b.t, b.events[e]) <==> HasPaymentKey(now.payments, b.t, b.events[e])
    {
      TransactionPlans.Untouched(now, op, EventKey(e));
      TransactionPlans.Untouched(now, op, PaymentKey(b.t, b.events[e]));
    }
  }

  /** A sweep that reaches the invoice. */
  lemma SweepStep(db: Db, now: Db, b: Bookings, events: set<string>, swept: bool, op: Op)
    requires Unbooked(db, b) && After(db, now, b, events, swept)
    requires op.OpMarkOverdue? && Touches(op, InvoiceKey(b.id))
    ensures After(db, Next(now, op), b, events, swept || Sweeps(db, op, b))
  {
    hide PaidOre, HasPaymentKey, Booked, PaidBy, Before;
  }

  lemma EnabledIsFresh(db: Db, op: Op)
    requires RowsOk(db) && Enabled(db, op)
    ensures FreshRow(db, op)
  {
    hide ShapeOk, TotalsOf;
  }

  /**
   Any history that delivers some of the events, in any order and each any number of times, among any other
   transactions, sweeps included: each payment is booked once, and the invoice is paid exactly if they cover its
   total, and otherwise overdue exactly if it was or a sweep found it past its due date.
   */
  lemma {:induction false} DeliveriesApplied(db: Db, ops: seq<Op>, b: Bookings)
    requires Inv(db) && EnabledRun(db, ops) && IsBookings(b) && Unbooked(db, b) && Mixed(ops, b)
    ensures b.id in db.invoices && After(db, Run(db, ops), b, Delivered(ops, b), Swept(db, ops, b))
    decreases |ops|
  {
    hide Inv, Next, Enabled, After, Unbooked, Elsewhere, Delivers, Sweeps;
    OpenRow(db, b);
    if ops == [] {
      NothingDelivered(db, b);
    } else {
      var front, last := ops[..|ops| - 1], ops[|ops| - 1];
      assert ops == front + [last];
      EnabledAppend(db, front, last);
      RunAppend(db, front, last);
      DeliveriesApplied(db, front, b);
      SweptAppend(db, front, last, b);
      MixedStep(db, front, last, b);
    }
  }

  lemma SweptAppend(db: Db, front: seq<Op>, last: Op, b: Bookings)
    requires b.id in db.invoices
    ensures Swept(db, front + [last], b) <==> Swept(db, front, b) || Sweeps(db, last, b)
  {
    hide Sweeps;
    assert (front + [last])[|front|] == last;
    forall k | 0 <= k < |front| ensures (front + [last])[k] == front[k] {
    }
  }

  lemma NothingDelivered(db: Db, b: Bookings)
    requires Unbooked(db, b)
    ensures After(db, db, b, {}, false)
  {
    hide PaidOre, HasPaymentKey, Booked;
    BookedNothing(b.amounts);
    assert PaidBy(b, {}) == {};
  }

  lemma FreshAfter(db: Db, front: seq<Op>, op: Op)
    requires Inv(db) && EnabledRun(db, front) && Enabled(Run(db, front), op)
    ensures FreshRow(Run(db, front), op)
  {
    RunKeeps(db, front);
    EnabledIsFresh(Run(db, front), op);
  }

  lemma MixedStep(db: Db, front: seq<Op>, op: Op, b: Bookings)
    requires Inv(db) && EnabledRun(db, front) && Enabled(Run(db, front), op)
    requires IsBookings(b) && Unbooked(db, b) && b.id in db.invoices && (Delivers(op, b) || Elsewhere(op, b))
    requires After(db, Run(db, front), b, Delivered(front, b), Swept(db, front, b))
    ensures After(db, Next(Run(db, front), op), b,
                  Delivered(front, b) + (if Delivers(op, b) then {op.eventId} else {}),
                  Swept(db, front, b) || Sweeps(db, op, b))
  {
    hide Inv, EnabledRun, Enabled, Run, Next, IsBookings, Unbooked, After, Delivered, FreshRow, Touches, Swept;
    if Delivers(op, b) {
      DeliveryStep(db, Run(db, front), b, Delivered(front, b), Swept(db, front, b), op);
    } else {
      assert Delivered(front, b) + {} == Delivered(front, b);
      if Touches(op, InvoiceKey(b.id)) {
        SweepStep(db, Run(db, front), b, Delivered(front, b), Swept(db, front, b), op);
      } else {
        SweepsTouch(db, op, b);
        FreshAfter(db, front, op);
        ElsewhereStep(db, Run(db, front), b, Delivered(front, b), Swept(db, front, b), op);
      }
    }
  }

  lemma SweepsTouch(db: Db, op: Op, b: Bookings)
    requires b.id in db.invoices
    ensures Sweeps(db, op, b) ==> Touches(op, InvoiceKey(b.id))
  {
  }

  /**
   Two histories that deliver the same payments, in any order, with any duplicates and with whatever else
   happened in between, leave the same amount paid and the same invoice row; if the payments do not cover the
   invoice and only one history had a sweep, the rows may differ in being sent or overdue.
   */
  lemma OrderDoesNotMatter(db: Db, b: Bookings, first: seq<Op>, second: seq<Op>)
    requires Inv(db) && IsBookings(b) && Unbooked(db, b)
    requires EnabledRun(db, first) && Mixed(first, b) && EnabledRun(db, second) && Mixed(second, b)
    requires PaidBy(b, Delivered(first, b)) == PaidBy(b, Delivered(second, b))
    ensures b.id in db.invoices
    ensures SameInvoice(Run(db, first), Run(db, second), b, Swept(db, first, b) == Swept(db, second, b))
  {
    hide Inv, Run, EnabledRun, PaidOre, Booked, HasPaymentKey, Delivered, Mixed, Swept;
    OpenRow(db, b);
    DeliveriesApplied(db, first, b);
    DeliveriesApplied(db, second, b);
    SomePaid(b, Delivered(first, b));
    SomePaid(b, Delivered(second, b));
  }

  /** The same sum is booked on the invoice, and its row is the same but for a sweep while it is open. */
  ghost predicate SameInvoice(x: Db, y: Db, b: Bookings, alike: bool) {
    && Visible(x, b.t, b.id) && Visible(y, b.t, b.id)
    && PaidOre(x.payments, b.t, b.id) == PaidOre(y.payments, b.t, b.id)
    && x.invoices[b.id].(status := y.invoices[b.id].status) == y.invoices[b.id]
    && (x.invoices[b.id] == y.invoices[b.id]
        || (!alike && Open(x.invoices[b.id].status) && Open(y.invoices[b.id].status)))
  }

  lemma OpenRow(db: Db, b: Bookings)
    requires Unbooked(db, b)
    ensures b.id in db.invoices
  {
  }

  lemma SomePaid(b: Bookings, events: set<string>)
    requires events <= b.events.Keys
    ensures events == {} <==> PaidBy(b, events) == {}
  {
    if e :| e in events {
      assert b.events[e] in PaidBy(b, events);
    }
  }

  // ---- A payment on a draft ------------------------------------------------------------------------

  const DAY := Date(2026, 1, 1)
  const LINE := Vat.LineInput(1000, 100, 0)

  /** One line of 100 öre is drafted, 40 öre are booked on the draft, and only then is it sent. */
  const CONFIGURE := OpConfigure(1, true, 0)
  const DRAFT := OpCreate(1, 7, [LINE], DAY, DAY, DAY, 1)
  const PAY := OpPay(1, "event", 1, "payment", 40)
  const SEND := OpSend(1, 1)

  lemma PrepaidStepOne()
    ensures Enabled(EMPTY, CONFIGURE)
    ensures Next(EMPTY, CONFIGURE) == EMPTY.(settings := map[1 := Settings(1, true, 0)])
  {
  }

  lemma PrepaidStepTwo(db: Db)
    requires db == EMPTY.(settings := map[1 := Settings(1, true, 0)])
    ensures Enabled(db, DRAFT) && Create(db, 1, 7, [LINE], DAY, DAY, DAY, 1).Committed?
    ensures var after := Next(db, DRAFT);
            && Belongs(after, 1, 1, 7) && after.invoices[1].status == Draft
            && after.settings == db.settings && after.payments == [] && after.processed == {}
  {
  }

  lemma PrepaidStepThree(db: Db)
    requires Belongs(db, 1, 1, 7) && db.invoices[1].status == Draft && db.payments == [] && db.processed == {}
    ensures Enabled(db, PAY)
    ensures var after := Next(db, PAY);
            && Belongs(after, 1, 1, 7) && after.invoices[1].status == Draft
            && after.settings == db.settings && HasPaymentFor(after.payments, 1)
  {
  }

  lemma PrepaidStepFour(db: Db)
    requires Belongs(db, 1, 1, 7) && db.invoices[1].status == Draft && HasPaymentFor(db.payments, 1)
    requires db.settings == map[1 := Settings(1, true, 0)]
    ensures Enabled(db, SEND) && SendsPaidDraft(db, SEND, 1, 7)
  {
  }

  /** The code does book payments on drafts, so the plain identity really fails for some run. */
  lemma PrepaidRunExists()
    ensures EnabledRun(EMPTY, [CONFIGURE, DRAFT, PAY, SEND])
    ensures RunSendsPaidDraft(EMPTY, [CONFIGURE, DRAFT, PAY, SEND], 1, 7)
  {
    hide Next, Enabled, SendsPaidDraft, CONFIGURE, DRAFT, PAY, SEND;
    var one := Next(EMPTY, CONFIGURE);
    var two := Next(one, DRAFT);
    var three := Next(two, PAY);
    PrepaidStepOne();
    PrepaidStepTwo(one);
    PrepaidStepThree(two);
    PrepaidStepFour(three);
    TailOfRun(three, SEND, [], 1, 7);
    TailOfRun(two, PAY, [SEND], 1, 7);
    TailOfRun(one, DRAFT, [PAY, SEND], 1, 7);
    TailOfRun(EMPTY, CONFIGURE, [DRAFT, PAY, SEND], 1, 7);
    assert [SEND] + [] == [SEND] && [PAY] + [SEND] == [PAY, SEND] && [DRAFT] + [PAY, SEND] == [DRAFT, PAY, SEND];
    assert [CONFIGURE] + [DRAFT, PAY, SEND] == [CONFIGURE, DRAFT, PAY, SEND];
  }

  lemma TailOfRun(db: Db, op: Op, rest: seq<Op>, t: nat, c: nat)
    ensures EnabledRun(db, [op] + rest) <==> Enabled(db, op) && EnabledRun(Next(db, op), rest)
    ensures RunSendsPaidDraft(db, [op] + rest, t, c) <==>
              SendsPaidDraft(db, op, t, c) || RunSendsPaidDraft(Next(db, op), rest, t, c)
  {
  }
}
