/**
 The ledger identity: what a customer owes, as the portal's account summary computes it, against
 everything that was ever issued, charged, paid and credited.
 */
module LedgerMoney {
  import opened Wrappers
  import opened Dates
  import opened Ledger
  import opened LedgerInvariants
  import Ocr
  import Vat

  // ---- Sums over the rows of a table -----------------------------------------------------------

  ghost function Sum<T(!new)>(s: set<T>, f: T -> int): int {
    if s == {} then 0
    else
      var x :| x in s;
      f(x) + Sum(s - {x}, f)
  }

  lemma {:induction false} SumPick<T(!new)>(s: set<T>, f: T -> int, x: T)
    requires x in s
    ensures Sum(s, f) == f(x) + Sum(s - {x}, f)
    decreases |s|
  {
    var y :| y in s && Sum(s, f) == f(y) + Sum(s - {y}, f);
    if y != x {
      SumPick(s - {y}, f, x);
      SumPick(s - {x}, f, y);
      assert s - {y} - {x} == s - {x} - {y};
    }
  }

  lemma {:induction false} SumSame<T(!new)>(s: set<T>, f: T -> int, g: T -> int)
    requires forall x :: x in s ==> f(x) == g(x)
    ensures Sum(s, f) == Sum(s, g)
    decreases |s|
  {
    if s != {} {
      var x :| x in s;
      SumPick(s, f, x);
      SumPick(s, g, x);
      SumSame(s - {x}, f, g);
    }
  }

  /** If two functions agree on s except at x, their sums differ by their difference at x. */
  lemma SumShift<T(!new)>(s: set<T>, f: T -> int, g: T -> int, x: T)
    requires x in s
    requires forall y :: y in s && y != x ==> f(y) == g(y)
    ensures Sum(s, g) - Sum(s, f) == g(x) - f(x)
  {
    SumPick(s, f, x);
    SumPick(s, g, x);
    SumSame(s - {x}, f, g);
  }

  /** An extra element contributes its own value. */
  lemma SumInsert<T(!new)>(s: set<T>, f: T -> int, x: T)
    requires x !in s
    ensures Sum(s + {x}, f) == Sum(s, f) + f(x)
  {
    SumPick(s + {x}, f, x);
    assert s + {x} - {x} == s;
  }

  // ---- Account summary -------------------------------------------------------------------------

  /** total_incl_vat_ore - paid_ore of a sent or overdue invoice of the customer, else nothing. */
  function Owed(db: Db, t: nat, c: nat, i: nat): int {
    if i in db.invoices && db.invoices[i].tenant == t && db.invoices[i].customer == c && Open(db.invoices[i].status)
    then Remaining(db, i) else 0
  }

  /** outstanding_ore of accountSummary. */
  ghost function Outstanding(db: Db, t: nat, c: nat): int {
    Sum(db.invoices.Keys, (i: nat) => Owed(db, t, c, i))
  }

  predicate Belongs(db: Db, i: nat, t: nat, c: nat) {
    i in db.invoices && db.invoices[i].tenant == t && db.invoices[i].customer == c
  }

  // ---- What one transaction adds to the books of one customer --------------------------------------

  /** Totals issued, reminder fees, payments applied, remainders credited away, and prepaid amounts. */
  datatype Flow = Flow(issued: int, fees: int, applied: int, credited: int, prepaid: int)

  const NONE := Flow(0, 0, 0, 0, 0)

  function Add(a: Flow, b: Flow): Flow {
    Flow(a.issued + b.issued, a.fees + b.fees, a.applied + b.applied, a.credited + b.credited, a.prepaid + b.prepaid)
  }

  /** What an insertPayment really adds to an invoice. */
  function Inserted(db: Db, t: nat, paymentId: string, amount: int): int {
    if HasPaymentKey(db.payments, t, paymentId) then 0 else amount
  }

  /**
   The entries of a committed transaction. A payment to an open invoice counts up to the remainder before
   it; what was already booked on a draft when it is sent counts as prepaid.
   */
  function FlowOf(db: Db, op: Op, t: nat, c: nat): Flow {
    if !Apply(db, op).Committed? then NONE
    else
      match op
      case OpSend(_, id) => SendFlow(db, id, t, c)
      case OpGenerate(_, p, _, _, _) => TemplateFlow(db, p, t, c)
      case OpRemind(u, id, _, _, _) => FeeFlow(db, u, id, t, c)
      case OpCredit(_, id, _, _) => NONE.(credited := Owed(db, t, c, id))
      case OpPay(u, _, id, paymentId, amount) => PayFlow(db, u, id, paymentId, amount, t, c)
      case _ => NONE
  }

  function SendFlow(db: Db, id: nat, t: nat, c: nat): Flow {
    if Belongs(db, id, t, c)
    then NONE.(issued := db.invoices[id].totals.incl, prepaid := PaidOre(db.payments, t, id)) else NONE
  }

  /** What the template's lines come to, for its customer. */
  function TemplateFlow(db: Db, p: nat, t: nat, c: nat): Flow {
    if p in db.templates && db.templates[p].tenant == t && db.templates[p].customer == c
       && Vat.AllComputable(db.templates[p].lines)
    then NONE.(issued := Vat.SumTotals(Vat.Lines(db.templates[p].lines)).incl) else NONE
  }

  function FeeFlow(db: Db, u: nat, id: nat, t: nat, c: nat): Flow {
    if Belongs(db, id, t, c) then NONE.(fees := SettingsOf(db, u).fee) else NONE
  }

  function PayFlow(db: Db, u: nat, id: nat, paymentId: string, amount: int, t: nat, c: nat): Flow {
    if Belongs(db, id, t, c) && Open(db.invoices[id].status)
    then NONE.(applied := Min(Inserted(db, u, paymentId, amount), Remaining(db, id))) else NONE
  }

  function Balance(f: Flow): int {
    f.issued + f.fees - f.applied - f.credited - f.prepaid
  }

  ghost predicate Balances(db: Db, op: Op, t: nat, c: nat) {
    Outstanding(Next(db, op), t, c) - Outstanding(db, t, c) == Balance(FlowOf(db, op, t, c))
  }

  // ---- How the summary moves with the table --------------------------------------------------------

  lemma OutstandingSame(db: Db, after: Db, t: nat, c: nat)
    requires after.invoices.Keys == db.invoices.Keys
    requires forall i :: i in db.invoices ==> Owed(after, t, c, i) == Owed(db, t, c, i)
    ensures Outstanding(after, t, c) == Outstanding(db, t, c)
  {
    SumSame(db.invoices.Keys, (i: nat) => Owed(db, t, c, i), (i: nat) => Owed(after, t, c, i));
  }

  lemma OutstandingShift(db: Db, after: Db, t: nat, c: nat, id: nat)
    requires after.invoices.Keys == db.invoices.Keys && id in db.invoices
    requires forall i :: i in db.invoices && i != id ==> Owed(after, t, c, i) == Owed(db, t, c, i)
    ensures Outstanding(after, t, c) - Outstanding(db, t, c) == Owed(after, t, c, id) - Owed(db, t, c, id)
  {
    SumShift(db.invoices.Keys, (i: nat) => Owed(db, t, c, i), (i: nat) => Owed(after, t, c, i), id);
  }

  lemma OutstandingInsert(db: Db, after: Db, t: nat, c: nat, id: nat)
    requires id !in db.invoices && after.invoices.Keys == db.invoices.Keys + {id}
    requires forall i :: i in db.invoices ==> Owed(after, t, c, i) == Owed(db, t, c, i)
    ensures Outstanding(after, t, c) == Outstanding(db, t, c) + Owed(after, t, c, id)
  {
    SumInsert(db.invoices.Keys, (i: nat) => Owed(after, t, c, i), id);
    SumSame(db.invoices.Keys, (i: nat) => Owed(db, t, c, i), (i: nat) => Owed(after, t, c, i));
  }

  lemma OutstandingInsertShift(db: Db, after: Db, t: nat, c: nat, id: nat, o: nat)
    requires id !in db.invoices && o in db.invoices && after.invoices.Keys == db.invoices.Keys + {id}
    requires forall i :: i in db.invoices && i != o ==> Owed(after, t, c, i) == Owed(db, t, c, i)
    ensures Outstanding(after, t, c) - Outstanding(db, t, c)
         == Owed(after, t, c, id) + Owed(after, t, c, o) - Owed(db, t, c, o)
  {
    SumInsert(db.invoices.Keys, (i: nat) => Owed(after, t, c, i), id);
    SumShift(db.invoices.Keys, (i: nat) => Owed(db, t, c, i), (i: nat) => Owed(after, t, c, i), o);
  }

  lemma {:induction false} PaidOreOfNone(payments: seq<Payment>, t: nat, id: nat)
    requires !HasPaymentFor(payments, id)
    ensures PaidOre(payments, t, id) == 0
  {
    if payments != [] {
      var front := payments[..|payments| - 1];
      assert forall k :: 0 <= k < |front| ==> front[k] == payments[k];
      PaidOreOfNone(front, t, id);
    }
  }

  lemma FreshIdUnpaid(db: Db, t: nat, id: nat)
    requires PaymentsOk(db) && id !in db.invoices
    ensures PaidOre(db.payments, t, id) == 0
  {
    PaidOreOfNone(db.payments, t, id);
  }

  // ---- Each transaction balances -------------------------------------------------------------------

  lemma TakenNewOwed(db: Db, after: Db, u: nat, id: nat, kind: EventKind, t: nat, c: nat)
    requires PaymentsOk(db) && Taken(db, after, u, id, None, kind) && id !in db.invoices
    ensures Outstanding(after, t, c) == Outstanding(db, t, c) + Owed(after, t, c, id)
    ensures Belongs(after, id, t, c) && Open(after.invoices[id].status) ==>
              Owed(after, t, c, id) == after.invoices[id].totals.incl
  {
    assert after.invoices.Keys == db.invoices.Keys + {id};
    FreshIdUnpaid(db, t, id);
    OutstandingInsert(db, after, t, c, id);
  }

  lemma TakenClosingOwed(db: Db, after: Db, u: nat, id: nat, o: nat, kind: EventKind, t: nat, c: nat)
    requires PaymentsOk(db) && Taken(db, after, u, id, Some(o), kind) && id !in db.invoices
    ensures Outstanding(after, t, c) - Outstanding(db, t, c) == Owed(after, t, c, id) - Owed(db, t, c, o)
    ensures Belongs(after, id, t, c) && Open(after.invoices[id].status) ==>
              Owed(after, t, c, id) == after.invoices[id].totals.incl
  {
    assert after.invoices.Keys == db.invoices.Keys + {id};
    FreshIdUnpaid(db, t, id);
    OutstandingInsertShift(db, after, t, c, id, o);
  }

  lemma SendOwed(db: Db, u: nat, id: nat, t: nat, c: nat)
    requires RowsOk(db) && Send(db, u, id).Committed?
    ensures Outstanding(Send(db, u, id).db, t, c) - Outstanding(db, t, c) == Balance(SendFlow(db, id, t, c))
  {
    hide Outstanding, RowsOk, Owed, SendFlow;
    SendRow(db, u, id);
    hide Send;
    var after := Send(db, u, id).db;
    forall i | i in db.invoices && i != id ensures Owed(after, t, c, i) == Owed(db, t, c, i) {
      SameRowOwed(db, after, t, c, i);
    }
    OutstandingShift(db, after, t, c, id);
    SentOwed(db, after, u, id, t, c);
  }

  lemma SameRowOwed(db: Db, after: Db, t: nat, c: nat, i: nat)
    requires i in db.invoices && i in after.invoices && after.invoices[i] == db.invoices[i]
    requires after.payments == db.payments
    ensures Owed(after, t, c, i) == Owed(db, t, c, i)
  {
    hide PaidOre;
  }

  lemma SentOwed(db: Db, after: Db, u: nat, id: nat, t: nat, c: nat)
    requires id in db.invoices && db.invoices[id].tenant == u && db.invoices[id].status == Draft && id in after.invoices
    requires after.invoices[id].tenant == u && after.invoices[id].customer == db.invoices[id].customer
    requires after.invoices[id].status == Sent && after.invoices[id].totals == db.invoices[id].totals
    requires after.payments == db.payments
    ensures Owed(after, t, c, id) - Owed(db, t, c, id) == Balance(SendFlow(db, id, t, c))
  {
    hide PaidOre;
    var paid := PaidOre(db.payments, u, id);
    assert Remaining(after, id) == after.invoices[id].totals.incl - paid;
    assert Owed(db, t, c, id) == 0;
    if Belongs(db, id, t, c) {
      assert Owed(after, t, c, id) == db.invoices[id].totals.incl - paid;
    } else {
      assert Owed(after, t, c, id) == 0;
    }
  }

  lemma SendRow(db: Db, u: nat, id: nat)
    requires Send(db, u, id).Committed?
    ensures var after := Send(db, u, id).db;
            && id in db.invoices && db.invoices[id].tenant == u && db.invoices[id].status == Draft
            && after.payments == db.payments && after.invoices.Keys == db.invoices.Keys
            && after.invoices[id].tenant == u && after.invoices[id].customer == db.invoices[id].customer
            && after.invoices[id].status == Sent && after.invoices[id].totals == db.invoices[id].totals
            && forall i :: i in db.invoices && i != id ==> after.invoices[i] == db.invoices[i]
  {
  }

  lemma SendBalances(db: Db, u: nat, id: nat, t: nat, c: nat)
    requires RowsOk(db) && Send(db, u, id).Committed?
    ensures Balances(db, OpSend(u, id), t, c)
  {
    hide RowsOk, Send, Outstanding, SendFlow;
    SendOwed(db, u, id, t, c);
  }

  lemma GenerateBalances(db: Db, u: nat, p: nat, today: Date, terms: int, newId: nat, t: nat, c: nat)
    requires RowsOk(db) && PaymentsOk(db) && newId !in db.ids && Generate(db, u, p, today, terms, newId).Committed?
    ensures Balances(db, OpGenerate(u, p, today, terms, newId), t, c)
  {
    hide RowsOk, PaymentsOk, Generate, Outstanding, TemplateFlow;
    GenerateOwed(db, u, p, today, terms, newId, t, c);
  }

  lemma GenerateOwed(db: Db, u: nat, p: nat, today: Date, terms: int, newId: nat, t: nat, c: nat)
    requires RowsOk(db) && PaymentsOk(db) && newId !in db.ids && Generate(db, u, p, today, terms, newId).Committed?
    ensures Outstanding(Generate(db, u, p, today, terms, newId).db, t, c)
         == Outstanding(db, t, c) + TemplateFlow(db, p, t, c).issued
    ensures TemplateFlow(db, p, t, c) == NONE.(issued := TemplateFlow(db, p, t, c).issued)
  {
    hide Generate, Taken, TakenItems, PaymentsOk, RowsOk, PaidOre, Outstanding;
    hide Vat.SumTotals, Vat.Lines, Vat.AllComputable;
    GenerateEffect(db, u, p, today, terms, newId);
    GenerateIssues(db, u, p, today, terms, newId);
    NewIdIsNew(db, newId);
    TakenNewOwed(db, Generate(db, u, p, today, terms, newId).db, u, newId, InvoiceSent, t, c);
  }

  lemma NewIdIsNew(db: Db, newId: nat)
    requires RowsOk(db) && newId !in db.ids
    ensures newId !in db.invoices
  {
    hide ShapeOk, TotalsOf;
  }

  lemma GenerateIssues(db: Db, u: nat, p: nat, today: Date, terms: int, newId: nat)
    requires Generate(db, u, p, today, terms, newId).Committed?
    ensures p in db.templates && Vat.AllComputable(db.templates[p].lines) && db.templates[p].tenant == u
    ensures var after := Generate(db, u, p, today, terms, newId).db;
      && newId in after.invoices && after.invoices[newId].status == Sent && after.invoices[newId].tenant == u
      && after.invoices[newId].customer == db.templates[p].customer
      && after.invoices[newId].totals == Vat.SumTotals(Vat.Lines(db.templates[p].lines))
  {
    LinesTotal(db.templates[p].lines);
    hide TotalsOf, ToItems, Vat.SumTotals, Vat.Lines, Vat.AllComputable, AddDaysTo, AdvanceByInterval, Ocr.DeriveOcr;
  }

  lemma LinesTotal(lines: seq<Vat.LineInput>)
    requires Vat.AllComputable(lines)
    ensures TotalsOf(ToItems(lines)) == Vat.SumTotals(Vat.Lines(lines))
  {
    assert AmountsOf(ToItems(lines)) == Vat.Lines(lines);
  }

  lemma CreditBalances(db: Db, u: nat, id: nat, today: Date, newId: nat, t: nat, c: nat)
    requires RowsOk(db) && PaymentsOk(db) && newId !in db.ids && Credit(db, u, id, today, newId).Committed?
    ensures Balances(db, OpCredit(u, id, today, newId), t, c)
  {
    hide RowsOk, PaymentsOk, Credit, Outstanding, Owed;
    CreditOwed(db, u, id, today, newId, t, c);
  }

  lemma CreditOwed(db: Db, u: nat, id: nat, today: Date, newId: nat, t: nat, c: nat)
    requires RowsOk(db) && PaymentsOk(db) && newId !in db.ids && Credit(db, u, id, today, newId).Committed?
    ensures Outstanding(Credit(db, u, id, today, newId).db, t, c) == Outstanding(db, t, c) - Owed(db, t, c, id)
  {
    hide PaidOre, TakenItems, Credit, RowsOk, PaymentsOk, Outstanding, Taken, Remaining;
    CreditEffect(db, u, id, today, newId);
    NewIdIsNew(db, newId);
    NoteIsSettled(db, u, id, today, newId);
    TakenClosingOwed(db, Credit(db, u, id, today, newId).db, u, newId, id, InvoiceCredited, t, c);
  }

  lemma NoteIsSettled(db: Db, u: nat, id: nat, today: Date, newId: nat)
    requires Credit(db, u, id, today, newId).Committed? && newId !in db.invoices
    ensures newId in Credit(db, u, id, today, newId).db.invoices
    ensures Credit(db, u, id, today, newId).db.invoices[newId].status == Settled
  {
    hide CreditItems, TotalsOf, Ocr.DeriveOcr;
  }

  lemma ReminderTotal(remaining: int, fee: int)
    requires Vat.AllComputable(ReminderLines(remaining, fee))
    ensures TotalsOf(ToItems(ReminderLines(remaining, fee))).incl == remaining + fee
  {
    var lines := ReminderLines(remaining, fee);
    assert Vat.Computable(lines[0]) && Vat.Computable(lines[1]);
    Vat.ZeroVatLine(remaining);
    Vat.ZeroVatLine(fee);
    var a := AmountsOf(ToItems(lines));
    assert a[..1] == [Vat.Amounts(remaining, 0, remaining)] && a[1] == Vat.Amounts(fee, 0, fee);
    assert Vat.SumTotals(a[..1]) == Vat.Plus(Vat.SumTotals(a[..1][..0]), a[0]);
  }

  /** A reminder moves what the customer owes by exactly the fee. */
  lemma ReminderAddsFee(db: Db, u: nat, id: nat, today: Date, terms: int, newId: nat, t: nat, c: nat)
    requires RowsOk(db) && PaymentsOk(db) && newId !in db.ids && Remind(db, u, id, today, terms, newId).Committed?
    ensures Outstanding(Remind(db, u, id, today, terms, newId).db, t, c)
         == Outstanding(db, t, c) + (if Belongs(db, id, t, c) then SettingsOf(db, u).fee else 0)
  {
    hide PaidOre, TakenItems;
    var after := Remind(db, u, id, today, terms, newId).db;
    RemindEffect(db, u, id, today, terms, newId);
    RemindTotal(db, u, id, today, terms, newId);
    hide Remind, Outstanding;
    TakenClosingOwed(db, after, u, newId, id, ReminderSent, t, c);
    hide Taken;
  }

  lemma RemindBalances(db: Db, u: nat, id: nat, today: Date, terms: int, newId: nat, t: nat, c: nat)
    requires RowsOk(db) && PaymentsOk(db) && newId !in db.ids && Remind(db, u, id, today, terms, newId).Committed?
    ensures Balances(db, OpRemind(u, id, today, terms, newId), t, c)
  {
    hide RowsOk, PaymentsOk, Remind, Outstanding;
    ReminderAddsFee(db, u, id, today, terms, newId, t, c);
  }

  lemma RemindTotal(db: Db, u: nat, id: nat, today: Date, terms: int, newId: nat)
    requires Remind(db, u, id, today, terms, newId).Committed?
    ensures var after := Remind(db, u, id, today, terms, newId).db;
            && id in db.invoices && Remindable(db.invoices[id]) && db.invoices[id].tenant == u
            && newId in after.invoices
            && (newId != id ==> after.invoices[newId].totals.incl == Remaining(db, id) + SettingsOf(db, u).fee)
  {
    hide TotalsOf, ToItems, Remaining, AddDaysTo, Ocr.DeriveOcr;
    ReminderTotal(Remaining(db, id), SettingsOf(db, u).fee);
  }

  lemma DraftBalances(db: Db, after: Db, id: nat, t: nat, c: nat)
    requires DraftChange(db, after, id)
    ensures Outstanding(after, t, c) == Outstanding(db, t, c)
  {
    hide PaidOre, SameItems;
    if id in db.invoices && id !in after.invoices {
      assert db.invoices.Keys == after.invoices.Keys + {id};
      OutstandingInsert(after, db, t, c, id);
    } else if id !in db.invoices && id in after.invoices {
      assert after.invoices.Keys == db.invoices.Keys + {id};
      OutstandingInsert(db, after, t, c, id);
    } else {
      assert after.invoices.Keys == db.invoices.Keys;
      OutstandingSame(db, after, t, c);
    }
  }

  lemma MarkOverdueBalances(db: Db, u: nat, today: Date, which: set<nat>, t: nat, c: nat)
    ensures Outstanding(MarkOverdue(db, u, today, which).db, t, c) == Outstanding(db, t, c)
  {
    hide PaidOre;
    OutstandingSame(db, MarkOverdue(db, u, today, which).db, t, c);
  }

  lemma PayOthers(db: Db, u: nat, eventId: string, id: nat, paymentId: string, amount: int, t: nat, c: nat, i: nat)
    requires Pay(db, u, eventId, id, paymentId, amount).Committed? && i in db.invoices && i != id
    ensures Owed(Pay(db, u, eventId, id, paymentId, amount).db, t, c, i) == Owed(db, t, c, i)
  {
  }

  lemma PayPaidOre(db: Db, u: nat, eventId: string, id: nat, paymentId: string, amount: int, i: nat)
    requires Pay(db, u, eventId, id, paymentId, amount).Committed? && i in db.invoices
    ensures PaidOre(Pay(db, u, eventId, id, paymentId, amount).db.payments, db.invoices[i].tenant, i)
         == PaidOre(db.payments, db.invoices[i].tenant, i) + (if i == id then Inserted(db, u, paymentId, amount) else 0)
  {
    hide HasPaymentKey, PaidIfCovered;
    PaidOreAppend(db.payments, Payment(u, id, paymentId, amount), db.invoices[i].tenant, i);
  }

  lemma PayOwed(db: Db, u: nat, eventId: string, id: nat, paymentId: string, amount: int, t: nat, c: nat)
    requires Pay(db, u, eventId, id, paymentId, amount).Committed?
    ensures Owed(Pay(db, u, eventId, id, paymentId, amount).db, t, c, id) - Owed(db, t, c, id)
         == Balance(PayFlow(db, u, id, paymentId, amount, t, c))
  {
    hide PaidOre, Inserted;
    PayPaidOre(db, u, eventId, id, paymentId, amount, id);
    PayRow(db, u, eventId, id, paymentId, amount);
    CoverArithmetic(db.invoices[id], PaidOre(db.payments, u, id), Inserted(db, u, paymentId, amount));
    hide Pay, PaidIfCovered;
  }

  lemma CoverArithmetic(row: Invoice, before: int, inserted: int)
    ensures var covered := PaidIfCovered(row, before + inserted);
            && covered.tenant == row.tenant && covered.customer == row.customer && covered.totals == row.totals
            && (!Open(row.status) ==> covered == row)
            && (Open(row.status) ==>
                  var owed := if Open(covered.status) then row.totals.incl - (before + inserted) else 0;
                  owed == row.totals.incl - before - Min(inserted, row.totals.incl - before))
  {
  }

  lemma PayRow(db: Db, u: nat, eventId: string, id: nat, paymentId: string, amount: int)
    requires Pay(db, u, eventId, id, paymentId, amount).Committed?
    ensures var after := Pay(db, u, eventId, id, paymentId, amount).db;
            && id in db.invoices && db.invoices[id].tenant == u && id in after.invoices
            && after.invoices[id] == PaidIfCovered(db.invoices[id], PaidOre(after.payments, u, id))
  {
    hide PaidIfCovered, WithPayment, PaidOre;
  }

  /** Paying an open invoice lowers what it leaves owed by the amount, capped at the remainder before. */
  lemma PayBalances(db: Db, u: nat, eventId: string, id: nat, paymentId: string, amount: int, t: nat, c: nat)
    requires Pay(db, u, eventId, id, paymentId, amount).Committed?
    ensures Balances(db, OpPay(u, eventId, id, paymentId, amount), t, c)
  {
    hide Owed, Outstanding, PaidIfCovered, WithPayment, PayFlow, PaidOre;
    var after := Pay(db, u, eventId, id, paymentId, amount).db;
    forall i | i in db.invoices && i != id ensures Owed(after, t, c, i) == Owed(db, t, c, i) {
      PayOthers(db, u, eventId, id, paymentId, amount, t, c, i);
    }
    PayOwed(db, u, eventId, id, paymentId, amount, t, c);
    OutstandingShift(db, after, t, c, id);
  }

  lemma NoFlow(db: Db, op: Op, t: nat, c: nat)
    requires op.OpCreate? || op.OpUpdate? || op.OpRemove? || op.OpMarkOverdue? || op.OpConfigure? || op.OpAddTemplate?
    requires Outstanding(Next(db, op), t, c) == Outstanding(db, t, c)
    ensures Balances(db, op, t, c)
  {
    hide Outstanding, SendFlow, TemplateFlow, FeeFlow, PayFlow, Owed;
  }

  /** issued + fees == change of outstanding + applied + credited + prepaid, for every transaction and customer. */
  lemma StepBalances(db: Db, op: Op, t: nat, c: nat)
    requires Inv(db) && Enabled(db, op)
    ensures Balances(db, op, t, c)
  {
    hide RowsOk, PaymentsOk, Outstanding, Create, Update, Remove, Send, Credit, Remind, Generate, Pay;
    if Apply(db, op).Committed? {
      hide FlowOf, Balances, DraftChange, DraftRow;
      match op
      case OpCreate(u, customer, lines, issued, due, today, newId) =>
        CreateEffect(db, u, customer, lines, issued, due, today, newId);
        DraftBalances(db, Next(db, op), newId, t, c);
        NoFlow(db, op, t, c);
      case OpUpdate(u, id, lines, issued, due) =>
        UpdateEffect(db, u, id, lines, issued, due);
        DraftBalances(db, Next(db, op), id, t, c);
        NoFlow(db, op, t, c);
      case OpRemove(u, id) =>
        RemoveEffect(db, u, id);
        DraftBalances(db, Next(db, op), id, t, c);
        NoFlow(db, op, t, c);
      case OpSend(u, id) => SendBalances(db, u, id, t, c);
      case OpCredit(u, id, today, newId) => CreditBalances(db, u, id, today, newId, t, c);
      case OpRemind(u, id, today, terms, newId) => RemindBalances(db, u, id, today, terms, newId, t, c);
      case OpGenerate(u, p, today, terms, newId) => GenerateBalances(db, u, p, today, terms, newId, t, c);
      case OpMarkOverdue(u, today, which) =>
        MarkOverdueBalances(db, u, today, which, t, c);
        NoFlow(db, op, t, c);
      case OpPay(u, eventId, id, paymentId, amount) => PayBalances(db, u, eventId, id, paymentId, amount, t, c);
      case OpConfigure(u, complete, fee) =>
        SameRowsOwe(db, Next(db, op), t, c);
        NoFlow(db, op, t, c);
      case OpAddTemplate(u, customer, interval, next, lines, today, newId) =>
        SameRowsOwe(db, Next(db, op), t, c);
        NoFlow(db, op, t, c);
    }
  }

  lemma SameRowsOwe(db: Db, after: Db, t: nat, c: nat)
    requires SameRows(db, after)
    ensures Outstanding(after, t, c) == Outstanding(db, t, c)
  {
    OutstandingSame(db, after, t, c);
  }

  // ---- Whole runs ------------------------------------------------------------------------------

  /** The books of a customer over a run. */
  ghost function Books(db: Db, ops: seq<Op>, t: nat, c: nat): Flow
    decreases |ops|
  {
    if ops == [] then NONE else Add(FlowOf(db, ops[0], t, c), Books(Next(db, ops[0]), ops[1..], t, c))
  }

  lemma {:induction false} RunBalances(db: Db, ops: seq<Op>, t: nat, c: nat)
    requires Inv(db) && EnabledRun(db, ops)
    ensures Outstanding(Run(db, ops), t, c) - Outstanding(db, t, c) == Balance(Books(db, ops, t, c))
    decreases |ops|
  {
    hide Inv, FlowOf, Outstanding, Next;
    if ops != [] {
      StepBalances(db, ops[0], t, c);
      StepKeeps(db, ops[0]);
      RunBalances(Next(db, ops[0]), ops[1..], t, c);
    }
  }

  /**
   The ledger identity over any run from the empty tables: everything issued and charged is outstanding,
   was paid while open, was credited away while open, or had been paid before the invoice was sent.
   */
  lemma LedgerIdentity(ops: seq<Op>, t: nat, c: nat)
    requires EnabledRun(EMPTY, ops)
    ensures var b := Books(EMPTY, ops, t, c);
            b.issued + b.fees == Outstanding(Run(EMPTY, ops), t, c) + b.applied + b.credited + b.prepaid
  {
    hide Books, Run, EnabledRun;
    EmptyInv();
    RunBalances(EMPTY, ops, t, c);
  }

  // ---- The identity without the prepaid term -------------------------------------------------------

  lemma {:induction false} PaidOrePositive(payments: seq<Payment>, t: nat, id: nat)
    requires forall k :: 0 <= k < |payments| ==> payments[k].amount >= 1
    ensures PaidOre(payments, t, id) >= 0
    ensures PaidOre(payments, t, id) == 0 <==>
              forall k :: 0 <= k < |payments| ==> !(payments[k].tenant == t && payments[k].invoice == id)
  {
    if payments != [] {
      var n := |payments| - 1;
      var front := payments[..n];
      PaidOrePositive(front, t, id);
      assert forall k :: 0 <= k < n ==> front[k] == payments[k];
      if !(payments[n].tenant == t && payments[n].invoice == id) && PaidOre(front, t, id) == 0 {
        forall k | 0 <= k < |payments| ensures !(payments[k].tenant == t && payments[k].invoice == id) {
          assert k < n ==> front[k] == payments[k];
        }
      }
    }
  }

  /** The step sends a draft of the customer that already has a payment row. */
  ghost predicate SendsPaidDraft(db: Db, op: Op, t: nat, c: nat) {
    op.OpSend? && Send(db, op.t, op.id).Committed? && Belongs(db, op.id, t, c) && HasPaymentFor(db.payments, op.id)
  }

  lemma PrepaidIffPaidDraft(db: Db, op: Op, t: nat, c: nat)
    requires PaymentsOk(db)
    ensures FlowOf(db, op, t, c).prepaid >= 0
    ensures FlowOf(db, op, t, c).prepaid > 0 <==> SendsPaidDraft(db, op, t, c)
  {
    hide Credit, Remind, Generate, Create, Update, Remove, MarkOverdue, Pay;
    if op.OpSend? && Send(db, op.t, op.id).Committed? && Belongs(db, op.id, t, c) {
      PaidOrePositive(db.payments, t, op.id);
    }
  }

  /** Some transaction of the run sends a draft of the customer that already has a payment row. */
  ghost predicate RunSendsPaidDraft(db: Db, ops: seq<Op>, t: nat, c: nat)
    decreases |ops|
  {
    ops != [] && (SendsPaidDraft(db, ops[0], t, c) || RunSendsPaidDraft(Next(db, ops[0]), ops[1..], t, c))
  }

  lemma {:induction false} PrepaidOverRun(db: Db, ops: seq<Op>, t: nat, c: nat)
    requires Inv(db) && EnabledRun(db, ops)
    ensures Books(db, ops, t, c).prepaid >= 0
    ensures Books(db, ops, t, c).prepaid > 0 <==> RunSendsPaidDraft(db, ops, t, c)
    decreases |ops|
  {
    hide FlowOf, SendsPaidDraft, RowsOk, NumbersOk, LinksOk, PaymentsOk, PaidOk, OutboxOk, TemplatesOk, Next;
    if ops != [] {
      PrepaidIffPaidDraft(db, ops[0], t, c);
      StepKeeps(db, ops[0]);
      PrepaidOverRun(Next(db, ops[0]), ops[1..], t, c);
    }
  }

  /**
   The identity as it is usually put, without the prepaid term, holds exactly for the runs that never
   send a draft on which a payment is already booked.
   */
  lemma PlainIdentityIff(ops: seq<Op>, t: nat, c: nat)
    requires EnabledRun(EMPTY, ops)
    ensures var b := Books(EMPTY, ops, t, c);
            b.issued + b.fees == Outstanding(Run(EMPTY, ops), t, c) + b.applied + b.credited
            <==> !RunSendsPaidDraft(EMPTY, ops, t, c)
  {
    hide Books, Run, EnabledRun, RunSendsPaidDraft;
    EmptyInv();
    LedgerIdentity(ops, t, c);
    PrepaidOverRun(EMPTY, ops, t, c);
  }
}
