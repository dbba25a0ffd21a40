/**
 Every run of the transaction machine is equivalent to its committed transactions in commit order, so
 gap-free numbering and the ledger identity hold under any interleaving and any rollback.
 */
module Serializability {
  import opened Wrappers
  import opened Dates
  import opened Ledger
  import opened LedgerInvariants
  import opened Transactions
  import opened TransactionPlans
  import LedgerHistory
  import LedgerMoney
  import LedgerPayments
  import Ocr
  import Vat

  // ---- The invariant of the machine -----------------------------------------------------------------

  predicate InsertsInvoice(req: Op) {
    Inserts(req) && !req.OpAddTemplate?
  }

  /** A drawn identity value is below the sequence and on no committed row. */
  ghost predicate NameOk(s: State, tx: Tx) {
    && (tx.named ==> Inserts(tx.req))
    && (tx.written != [] && Inserts(tx.req) ==> tx.named)
    && (tx.named && InsertsInvoice(tx.req) ==> tx.req.newId < s.nextInvoice && tx.req.newId !in s.db.ids)
    && (tx.named && tx.req.OpAddTemplate? ==> tx.req.newId < s.nextTemplate && tx.req.newId !in s.db.templates)
  }

  /** Everything seen is locked, or is a committed unique key that no one can change any more. */
  ghost predicate Holds(s: State, x: nat, t: nat, seen: Seen) {
    forall k :: k in seen ==> Decided(s.db, t, k) || (k in s.locks && s.locks[k] == x)
  }

  ghost predicate ReachedOk(req: Op, seen: Seen) {
    req.OpMarkOverdue? ==>
      forall i :: i in req.which ==>
        && InvoiceKey(i) in seen && seen[InvoiceKey(i)].row.status == Sent
        && Before(seen[InvoiceKey(i)].row.due, req.today)
  }

  ghost predicate TxOk(s: State, x: nat, tx: Tx) {
    && Asked(tx.req) && NameOk(s, tx) && ReachedOk(tx.req, tx.seen)
    && Agrees(s.db, tx.req.t, tx.seen) && Holds(s, x, tx.req.t, tx.seen)
  }

  ghost predicate SameName(a: Tx, b: Tx) {
    && a.named && b.named && Inserts(a.req) && Inserts(b.req)
    && a.req.OpAddTemplate? == b.req.OpAddTemplate? && a.req.newId == b.req.newId
  }

  ghost predicate NamesOk(s: State) {
    && (forall i :: i in s.db.ids ==> i < s.nextInvoice)
    && (forall i :: i in s.db.templates ==> i < s.nextTemplate)
    && (forall x, y | x in s.txs && y in s.txs && SameName(s.txs[x], s.txs[y]) :: x == y)
  }

  /** The tables are those of the committed transactions run one after the other in commit order. */
  ghost predicate Serial(s: State) {
    EnabledRun(EMPTY, s.history) && Run(EMPTY, s.history) == s.db
  }

  ghost predicate Ok(s: State) {
    && Serial(s) && NamesOk(s)
    && (forall x :: x in s.txs ==> TxOk(s, x, s.txs[x]))
    && (forall k :: k in s.locks ==> s.locks[k] in s.txs)
  }

  lemma SerialInv(s: State)
    requires Serial(s)
    ensures Inv(s.db)
  {
    EmptyInv();
    RunKeeps(EMPTY, s.history);
  }

  lemma Standing(s: State, x: nat)
    requires Ok(s) && x in s.txs
    ensures Reached(s.txs[x].req, s.txs[x].seen) && ReachedDue(s.db, s.txs[x].req)
    ensures s.txs[x].written != [] ==> Enabled(s.db, s.txs[x].req) && FreshRow(s.db, s.txs[x].req)
  {
    hide Serial, PaidOre, HasPaymentFor, HasPaymentKey, ItemsOf, SettingsOf;
    SerialRows(s);
    var tx := s.txs[x];
    assert TxOk(s, x, tx);
    if tx.req.OpMarkOverdue? {
      forall i | i in tx.req.which ensures OverdueNow(s.db, tx.req.t, tx.req.today, i) {
        assert tx.seen[InvoiceKey(i)] == SliceOf(s.db, tx.req.t, InvoiceKey(i));
      }
    }
  }

  lemma SerialRows(s: State)
    requires Serial(s)
    ensures RowsOk(s.db) && s.db.invoices.Keys <= s.db.ids
  {
    hide Serial;
    SerialInv(s);
  }

  /** A commit is the serial transaction on the tables of that moment. */
  lemma CommitIsNext(s: State, x: nat)
    requires Ok(s) && MayStep(s, Commit(x))
    ensures Do(s, Commit(x)).db == Next(s.db, s.txs[x].req)
  {
    hide Serial, RowsOk, NextKey, Plan, Agrees, Next, Apply;
    SerialRows(s);
    Standing(s, x);
    assert TxOk(s, x, s.txs[x]);
    PlanIsNext(s.db, s.txs[x].req, s.txs[x].seen);
  }

  lemma CommitSerial(s: State, x: nat)
    requires Ok(s) && MayStep(s, Commit(x))
    ensures Serial(Do(s, Commit(x)))
  {
    hide Next, Apply, Plan, Enabled;
    CommitIsNext(s, x);
    Standing(s, x);
    if s.txs[x].written != [] {
      RunAppend(EMPTY, s.history, s.txs[x].req);
      EnabledAppend(EMPTY, s.history, s.txs[x].req);
    } else {
      ApplyNone(s.db);
    }
  }

  /** A complete plan touches only rows it has locked and the row it makes. */
  lemma TouchesHeld(tx: Tx, k: Key)
    requires NextKey(tx.req, tx.seen).None? && ReachedOk(tx.req, tx.seen)
    requires Plan(tx.req, tx.seen) != [] && Touches(tx.req, k)
    ensures k in tx.seen || (InsertsInvoice(tx.req) && k == InvoiceKey(tx.req.newId))
         || (tx.req.OpAddTemplate? && k == TemplateKey(tx.req.newId))
  {
  }

  lemma NotTouched(s: State, x: nat, y: nat, k: Key)
    requires Ok(s) && MayStep(s, Commit(x)) && y in s.txs && y != x && k in s.txs[y].seen
    requires s.txs[x].written != [] && !Decided(s.db, s.txs[y].req.t, k)
    ensures !Touches(s.txs[x].req, k)
  {
    hide Plan, NextKey, SliceOf, Touches, Serial, Decided;
    var tx := s.txs[x];
    SerialRows(s);
    assert TxOk(s, y, s.txs[y]) && TxOk(s, x, tx);
    OwnHeld(s, x, y, k);
    assert Lockable(s.db, s.txs[y].req.t, k);
    if Touches(tx.req, k) {
      TouchesHeld(tx, k);
    }
  }

  /** Two transactions never hold the same undecided key. */
  lemma OwnHeld(s: State, x: nat, y: nat, k: Key)
    requires Ok(s) && x in s.txs && y in s.txs && y != x && k in s.txs[y].seen
    requires !Decided(s.db, s.txs[y].req.t, k)
    ensures k !in s.txs[x].seen
  {
  }

  /** Nothing another transaction has seen changes when x commits. */
  lemma CommitKeepsSlice(s: State, x: nat, y: nat, k: Key)
    requires Ok(s) && MayStep(s, Commit(x)) && y in s.txs && y != x && k in s.txs[y].seen
    ensures var t := s.txs[y].req.t; var after := Do(s, Commit(x));
      && Lockable(after.db, t, k) && SliceOf(after.db, t, k) == s.txs[y].seen[k]
      && (Decided(after.db, t, k) || (k in after.locks && after.locks[k] == y))
  {
    hide Next, Apply, Plan, Enabled, NextKey, SliceOf, Lockable, ApplyAll, SameUnder, Touches, NamesOk, Serial;
    var t := s.txs[y].req.t;
    var tx := s.txs[x];
    CommitIsNext(s, x);
    assert TxOk(s, y, s.txs[y]) && TxOk(s, x, tx);
    if tx.written == [] {
      ApplyNone(s.db);
    } else if Decided(s.db, t, k) {
      StaysDecided(s.db, tx.req, t, k);
    } else {
      Standing(s, x);
      NotTouched(s, x, y, k);
      Untouched(s.db, tx.req, k);
      SameUnderSlice(s.db, Next(s.db, tx.req), t, k);
    }
  }

  /** A step that leaves the tables alone leaves every transaction alone that keeps its locks. */
  lemma OthersKeep(s: State, after: State, y: nat, tx: Tx)
    requires TxOk(s, y, tx) && after.db == s.db
    requires after.nextInvoice >= s.nextInvoice && after.nextTemplate >= s.nextTemplate
    requires forall k :: k in s.locks && s.locks[k] == y ==> k in after.locks && after.locks[k] == y
    ensures TxOk(after, y, tx)
  {
  }

  /** A step of x alone that leaves the tables as they are. */
  ghost predicate Alone(s: State, after: State, x: nat) {
    && after.db == s.db && after.history == s.history
    && after.nextInvoice >= s.nextInvoice && after.nextTemplate >= s.nextTemplate
    && (forall y :: y in after.txs && y != x ==> y in s.txs && after.txs[y] == s.txs[y])
    && (forall k :: k in s.locks && s.locks[k] != x ==> k in after.locks && after.locks[k] == s.locks[k])
    && (forall k :: k in after.locks ==> after.locks[k] in after.txs)
  }

  lemma AloneKeeps(s: State, after: State, x: nat)
    requires Ok(s) && Alone(s, after, x) && NamesOk(after)
    requires x in after.txs ==> TxOk(after, x, after.txs[x])
    ensures Ok(after)
  {
    hide Decided, NamesOk, TxOk;
    forall y | y in after.txs && y != x ensures TxOk(after, y, after.txs[y]) {
      OthersKeep(s, after, y, s.txs[y]);
    }
  }

  /** One more key seen, under its lock or decided for good. */
  lemma SeeKeeps(s: State, after: State, x: nat, t: nat, seen: Seen, k: Key)
    requires Agrees(s.db, t, seen) && Holds(s, x, t, seen) && Lockable(s.db, t, k) && after.db == s.db
    requires forall h :: h in s.locks && s.locks[h] == x ==> h in after.locks && after.locks[h] == x
    requires Decided(s.db, t, k) || (k in after.locks && after.locks[k] == x)
    ensures Agrees(after.db, t, seen[k := SliceOf(s.db, t, k)]) && Holds(after, x, t, seen[k := SliceOf(s.db, t, k)])
  {
  }

  lemma AcquireTx(s: State, x: nat)
    requires Ok(s) && MayStep(s, Acquire(x))
    ensures var after := Do(s, Acquire(x)); TxOk(after, x, after.txs[x])
  {
    hide Serial, Decided, SliceOf, NextKey, Lockable, Agrees, Holds, NamesOk;
    var tx := s.txs[x];
    assert TxOk(s, x, tx);
    KeyIsNew(tx);
    SeeKeeps(s, Do(s, Acquire(x)), x, tx.req.t, tx.seen, NextKey(tx.req, tx.seen).value);
  }

  lemma AcquireKeeps(s: State, x: nat)
    requires Ok(s) && MayStep(s, Acquire(x))
    ensures Ok(Do(s, Acquire(x)))
  {
    hide Serial, Decided, SliceOf, NextKey, Lockable, TxOk, NamesOk;
    var after := Do(s, Acquire(x));
    AcquireTx(s, x);
    assert TxOk(s, x, s.txs[x]);
    NamesStay(s, after, x);
    AloneKeeps(s, after, x);
  }

  lemma KeyIsNew(tx: Tx)
    requires NextKey(tx.req, tx.seen).Some?
    ensures NextKey(tx.req, tx.seen).value !in tx.seen && !tx.req.OpMarkOverdue?
  {
  }

  /** Names stay distinct if no transaction changes its own. */
  lemma NamesFrame(s: State, after: State)
    requires NamesOk(s) && after.db == s.db
    requires after.nextInvoice >= s.nextInvoice && after.nextTemplate >= s.nextTemplate
    requires forall x :: x in after.txs && after.txs[x].named ==> x in s.txs && SameName(s.txs[x], after.txs[x])
    ensures NamesOk(after)
  {
  }

  /** The one transaction that moved has kept its name, if it has one. */
  lemma NamesStay(s: State, after: State, x: nat)
    requires Ok(s) && Alone(s, after, x)
    requires x in after.txs && after.txs[x].named ==> x in s.txs && s.txs[x].named && s.txs[x].req == after.txs[x].req
    ensures NamesOk(after)
  {
    hide Serial, Agrees, Holds, ReachedOk;
    forall y | y in after.txs && after.txs[y].named ensures y in s.txs && SameName(s.txs[y], after.txs[y]) {
      assert y in s.txs && TxOk(s, y, s.txs[y]);
    }
    NamesFrame(s, after);
  }

  lemma ReachTx(s: State, x: nat, id: nat)
    requires Ok(s) && MayStep(s, Reach(x, id))
    ensures var after := Do(s, Reach(x, id)); TxOk(after, x, after.txs[x]) && !after.txs[x].named
  {
    hide Serial, Decided, PaidOre, HasPaymentFor, ItemsOf, Before, Agrees, Holds, NamesOk;
    var tx := s.txs[x];
    assert TxOk(s, x, tx);
    SeeKeeps(s, Do(s, Reach(x, id)), x, tx.req.t, tx.seen, InvoiceKey(id));
  }

  lemma ReachKeeps(s: State, x: nat, id: nat)
    requires Ok(s) && MayStep(s, Reach(x, id))
    ensures Ok(Do(s, Reach(x, id)))
  {
    hide Serial, Decided, SliceOf, TxOk, NamesOk, OverdueNow;
    var after := Do(s, Reach(x, id));
    ReachTx(s, x, id);
    NamesStay(s, after, x);
    AloneKeeps(s, after, x);
  }

  lemma DrawKeeps(s: State, x: nat)
    requires Ok(s) && MayStep(s, DrawId(x))
    ensures Ok(Do(s, DrawId(x)))
  {
    hide Serial, Decided, Agrees, SliceOf, NamesOk;
    var after := Do(s, DrawId(x));
    assert TxOk(s, x, s.txs[x]);
    assert Holds(after, x, s.txs[x].req.t, s.txs[x].seen);
    DrawIsFresh(s, x);
    assert TxOk(after, x, after.txs[x]);
    AloneKeeps(s, after, x);
  }

  lemma DrawIsFresh(s: State, x: nat)
    requires Ok(s) && MayStep(s, DrawId(x))
    ensures var after := Do(s, DrawId(x)); NamesOk(after) && NameOk(after, after.txs[x])
  {
    hide Serial, Holds, Agrees, SliceOf;
    var after := Do(s, DrawId(x));
    SerialRows(s);
    assert TxOk(s, x, s.txs[x]);
    forall y, z | y in after.txs && z in after.txs && SameName(after.txs[y], after.txs[z]) ensures y == z {
      assert y in s.txs && TxOk(s, y, s.txs[y]) && NameOk(s, s.txs[y]);
      assert z in s.txs && TxOk(s, z, s.txs[z]) && NameOk(s, s.txs[z]);
      assert y != x && z != x ==> SameName(s.txs[y], s.txs[z]);
    }
  }

  lemma PerformKeeps(s: State, x: nat)
    requires Ok(s) && MayStep(s, Perform(x))
    ensures Ok(Do(s, Perform(x)))
  {
    hide Serial, Decided, Agrees, Holds, SliceOf, NextKey, Plan, NamesOk, ReachedOk, Asked;
    assert TxOk(s, x, s.txs[x]);
    var after := Do(s, Perform(x));
    OthersKeep(s, after, x, s.txs[x]);
    assert TxOk(after, x, after.txs[x]);
    NamesStay(s, after, x);
    AloneKeeps(s, after, x);
  }

  lemma BeginKeeps(s: State, x: nat, req: Op)
    requires Ok(s) && MayStep(s, Begin(x, req))
    ensures Ok(Do(s, Begin(x, req)))
  {
    hide Serial, Decided, NamesOk;
    var after := Do(s, Begin(x, req));
    assert TxOk(after, x, after.txs[x]);
    NamesStay(s, after, x);
    AloneKeeps(s, after, x);
  }

  lemma AbortKeeps(s: State, x: nat)
    requires Ok(s) && MayStep(s, Abort(x))
    ensures Ok(Do(s, Abort(x)))
  {
    hide Serial, Decided, NamesOk;
    var after := Do(s, Abort(x));
    NamesStay(s, after, x);
    AloneKeeps(s, after, x);
  }

  lemma IdsGrow(db: Db, op: Op)
    requires db.invoices.Keys <= db.ids
    ensures Next(db, op).ids <= db.ids + (if InsertsInvoice(op) then {op.newId} else {})
    ensures Next(db, op).templates.Keys <= db.templates.Keys + (if op.OpAddTemplate? then {op.newId} else {})
  {
    hide PaidOre, HasPaymentFor, HasPaymentKey, TotalsOf, ToItems, CreditItems, Numbered, Ocr.DeriveOcr, PaidIfCovered;
    hide AddDaysTo, AdvanceByInterval, Vat.Computable, CanNumber, Before, NewInvoice, CreditNoteFor, ReminderFor;
    hide GeneratedFrom;
  }

  lemma CommitNames(s: State, x: nat)
    requires Ok(s) && MayStep(s, Commit(x))
    ensures var after := Do(s, Commit(x));
      && NamesOk(after)
      && forall y :: y in after.txs ==> NameOk(after, after.txs[y])
  {
    hide Serial, Next, Apply, NextKey, Plan, Agrees, Holds, ReachedOk, ApplyAll;
    var after := Do(s, Commit(x));
    var tx := s.txs[x];
    SerialRows(s);
    CommitIsNext(s, x);
    assert TxOk(s, x, tx);
    if tx.written == [] {
      ApplyNone(s.db);
    } else {
      IdsGrow(s.db, tx.req);
    }
    forall y | y in after.txs ensures NameOk(after, after.txs[y]) {
      assert TxOk(s, y, s.txs[y]);
      assert !SameName(s.txs[x], s.txs[y]);
    }
  }

  lemma CommitKeeps(s: State, x: nat)
    requires Ok(s) && MayStep(s, Commit(x))
    ensures Ok(Do(s, Commit(x)))
  {
    hide Serial, NextKey, Plan, ApplyAll, Lockable, Decided, SliceOf, NamesOk, NameOk, ReachedOk;
    var after := Do(s, Commit(x));
    CommitSerial(s, x);
    CommitNames(s, x);
    forall y | y in after.txs ensures TxOk(after, y, after.txs[y]) {
      assert TxOk(s, y, s.txs[y]);
      forall k | k in s.txs[y].seen
        ensures Lockable(after.db, s.txs[y].req.t, k) && s.txs[y].seen[k] == SliceOf(after.db, s.txs[y].req.t, k)
        ensures Decided(after.db, s.txs[y].req.t, k) || (k in after.locks && after.locks[k] == y)
      {
        CommitKeepsSlice(s, x, y, k);
      }
    }
  }

  lemma StepKeepsOk(s: State, step: Step)
    requires Ok(s) && MayStep(s, step)
    ensures Ok(Do(s, step))
  {
    hide Ok, MayStep, Do;
    match step
    case Begin(x, req) => BeginKeeps(s, x, req);
    case Acquire(x) => AcquireKeeps(s, x);
    case Reach(x, id) => ReachKeeps(s, x, id);
    case DrawId(x) => DrawKeeps(s, x);
    case Perform(x) => PerformKeeps(s, x);
    case Commit(x) => CommitKeeps(s, x);
    case Abort(x) => AbortKeeps(s, x);
  }

  // ---- Runs of the machine ----------------------------------------------------------------------------

  ghost predicate MayRun(s: State, steps: seq<Step>)
    decreases |steps|
  {
    steps == [] || (MayStep(s, steps[0]) && MayRun(Do(s, steps[0]), steps[1..]))
  }

  ghost function Ran(s: State, steps: seq<Step>): State
    requires MayRun(s, steps)
    decreases |steps|
  {
    if steps == [] then s else Ran(Do(s, steps[0]), steps[1..])
  }

  lemma {:induction false} RanOk(s: State, steps: seq<Step>)
    requires Ok(s) && MayRun(s, steps)
    ensures Ok(Ran(s, steps))
    decreases |steps|
  {
    hide Ok, MayStep, Do;
    if steps != [] {
      StepKeepsOk(s, steps[0]);
      RanOk(Do(s, steps[0]), steps[1..]);
    }
  }

  /**
   However transactions interleave, wait and roll back, the tables are what the committed ones give when
   run one after the other in commit order, and every invariant of the tables holds.
   */
  lemma Serializable(steps: seq<Step>)
    requires MayRun(INITIAL, steps)
    ensures var s := Ran(INITIAL, steps);
      EnabledRun(EMPTY, s.history) && s.db == Run(EMPTY, s.history) && Inv(s.db)
  {
    assert Ok(INITIAL);
    RanOk(INITIAL, steps);
    SerialInv(Ran(INITIAL, steps));
  }

  /** Numbers stay gap-free under every interleaving and every rollback, of this or any other transaction. */
  lemma InterleavedNumbersGapFree(steps: seq<Step>, t: nat)
    requires MayRun(INITIAL, steps)
    ensures var db := Ran(INITIAL, steps).db;
      && LedgerHistory.NumberTable(db, t)
      && forall i, j | i in db.invoices && j in db.invoices && SameNumber(db.invoices[i], db.invoices[j]) :: i == j
  {
    Serializable(steps);
    LedgerHistory.GapFreeNumbering(Ran(INITIAL, steps).history, t);
  }

  /** The ledger identity, over the transactions that committed. */
  lemma InterleavedIdentity(steps: seq<Step>, t: nat, c: nat)
    requires MayRun(INITIAL, steps)
    ensures var s := Ran(INITIAL, steps);
            var b := LedgerMoney.Books(EMPTY, s.history, t, c);
            b.issued + b.fees == LedgerMoney.Outstanding(s.db, t, c) + b.applied + b.credited + b.prepaid
  {
    hide Inv, LedgerMoney.Books, LedgerMoney.Outstanding;
    Serializable(steps);
    LedgerMoney.LedgerIdentity(Ran(INITIAL, steps).history, t, c);
  }

  /** A history in two parts: the second runs from the tables the first leaves. */
  lemma {:induction false} RunSplit(db: Db, a: seq<Op>, b: seq<Op>)
    requires EnabledRun(db, a + b)
    ensures EnabledRun(db, a) && EnabledRun(Run(db, a), b) && Run(db, a + b) == Run(Run(db, a), b)
    decreases |a|
  {
    hide Next, Enabled;
    if a == [] {
      assert a + b == b;
    } else {
      assert (a + b)[1..] == a[1..] + b;
      RunSplit(Next(db, a[0]), a[1..], b);
    }
  }

  /** The transactions in `ops` were the last to commit, from tables that satisfy every invariant. */
  lemma CommittedSince(steps: seq<Step>, before: seq<Op>, ops: seq<Op>)
    requires MayRun(INITIAL, steps) && Ran(INITIAL, steps).history == before + ops
    ensures Inv(Run(EMPTY, before)) && EnabledRun(Run(EMPTY, before), ops)
    ensures Ran(INITIAL, steps).db == Run(Run(EMPTY, before), ops)
  {
    hide Inv, Run, EnabledRun, MayRun, Ran;
    Serializable(steps);
    RunSplit(EMPTY, before, ops);
    EmptyInv();
    RunKeeps(EMPTY, before);
  }

  /**
   However the bookings of an open invoice's payments interleave with each other and with everything else, each
   payment that was delivered is booked once, and the invoice is paid exactly if they cover its total.
   */
  lemma InterleavedPaymentsApplied(steps: seq<Step>, before: seq<Op>, ops: seq<Op>, b: LedgerPayments.Bookings)
    requires MayRun(INITIAL, steps) && Ran(INITIAL, steps).history == before + ops
    requires LedgerPayments.IsBookings(b) && LedgerPayments.Unbooked(Run(EMPTY, before), b)
    requires LedgerPayments.Mixed(ops, b)
    ensures b.id in Run(EMPTY, before).invoices
    ensures LedgerPayments.After(Run(EMPTY, before), Ran(INITIAL, steps).db, b, LedgerPayments.Delivered(ops, b),
                                 LedgerPayments.Swept(Run(EMPTY, before), ops, b))
  {
    hide Inv, Run, EnabledRun, MayRun, Ran;
    CommittedSince(steps, before, ops);
    LedgerPayments.DeliveriesApplied(Run(EMPTY, before), ops, b);
  }

  /** Two interleavings that commit the same payments leave the same amount paid and the same invoice row. */
  lemma InterleavedPaymentsCommute(first: seq<Step>, second: seq<Step>, before: seq<Op>,
                                   ops: seq<Op>, others: seq<Op>, b: LedgerPayments.Bookings)
    requires MayRun(INITIAL, first) && Ran(INITIAL, first).history == before + ops
    requires MayRun(INITIAL, second) && Ran(INITIAL, second).history == before + others
    requires LedgerPayments.IsBookings(b) && LedgerPayments.Unbooked(Run(EMPTY, before), b)
    requires LedgerPayments.Mixed(ops, b) && LedgerPayments.Mixed(others, b)
    requires LedgerPayments.PaidBy(b, LedgerPayments.Delivered(ops, b))
          == LedgerPayments.PaidBy(b, LedgerPayments.Delivered(others, b))
    ensures b.id in Run(EMPTY, before).invoices
    ensures LedgerPayments.SameInvoice(Ran(INITIAL, first).db, Ran(INITIAL, second).db, b,
      LedgerPayments.Swept(Run(EMPTY, before), ops, b) == LedgerPayments.Swept(Run(EMPTY, before), others, b))
  {
    hide Inv, Run, EnabledRun, MayRun, Ran;
    CommittedSince(first, before, ops);
    CommittedSince(second, before, others);
    LedgerPayments.OrderDoesNotMatter(Run(EMPTY, before), b, ops, others);
  }

  // ---- Waiting ------------------------------------------------------------------------------------------

  /** The order in which locks are taken: event, then invoice or template, then payment key, then the series. */
  function Rank(k: Key): nat {
    match k
    case EventKey(_) => 0
    case InvoiceKey(_) => 1
    case TemplateKey(_) => 1
    case PaymentKey(_, _) => 2
    case SettingsKey(_) => 3
  }

  /** A bulk update may want any row; every other transaction wants the next key of its program. */
  predicate Wants(tx: Tx, k: Key) {
    NextKey(tx.req, tx.seen) == Some(k) || (tx.req.OpMarkOverdue? && k.InvoiceKey?)
  }

  predicate WaitsFor(s: State, x: nat, k: Key, y: nat) {
    x in s.txs && Wants(s.txs[x], k) && k in s.locks && s.locks[k] == y && y != x
  }

  /** Locks are held in order: what a transaction wants is above everything it has seen. */
  ghost predicate InOrder(tx: Tx) {
    && (!tx.req.OpMarkOverdue? && NextKey(tx.req, tx.seen).Some? ==>
          forall k :: k in tx.seen ==> Rank(k) < Rank(NextKey(tx.req, tx.seen).value))
    && (tx.req.OpMarkOverdue? ==> forall k :: k in tx.seen ==> k.InvoiceKey?)
  }

  ghost predicate AllInOrder(s: State) {
    && (forall x :: x in s.txs ==> InOrder(s.txs[x]))
    && (forall k :: k in s.locks ==> s.locks[k] in s.txs && k in s.txs[s.locks[k]].seen)
  }

  lemma NextIsHigher(tx: Tx, s: Slice)
    requires InOrder(tx) && NextKey(tx.req, tx.seen).Some? && SliceFits(NextKey(tx.req, tx.seen).value, s)
    ensures InOrder(tx.(seen := tx.seen[NextKey(tx.req, tx.seen).value := s]))
  {
  }

  /** One transaction moves, in order, and gives up no lock it still holds. */
  lemma OrderFrame(s: State, after: State, x: nat)
    requires AllInOrder(s) && (x in after.txs ==> InOrder(after.txs[x]))
    requires forall y :: y in s.txs && y != x ==> y in after.txs && after.txs[y] == s.txs[y]
    requires forall y :: y in after.txs && y != x ==> y in s.txs
    requires forall k :: k in after.locks && after.locks[k] != x ==> k in s.locks && s.locks[k] == after.locks[k]
    requires forall k :: k in after.locks && after.locks[k] == x ==> x in after.txs && k in after.txs[x].seen
    ensures AllInOrder(after)
  {
  }

  lemma OrderKept(s: State, step: Step)
    requires AllInOrder(s) && MayStep(s, step)
    ensures AllInOrder(Do(s, step))
  {
    hide SliceOf, Plan, Decided, NextKey, ApplyAll, Ready, Asked, OverdueNow, InOrder, Lockable, Reached;
    OrderFrame(s, Do(s, step), step.x) by {
      MovedInOrder(s, step);
    }
  }

  lemma MovedInOrder(s: State, step: Step)
    requires AllInOrder(s) && MayStep(s, step)
    ensures step.x in Do(s, step).txs ==> InOrder(Do(s, step).txs[step.x])
  {
    hide SliceOf, Plan, Decided, ApplyAll, Asked, OverdueNow, Lockable, Rank;
    match step
    case Begin(x, req) =>
    case Acquire(x) =>
      NextIsHigher(s.txs[x], SliceOf(s.db, s.txs[x].req.t, NextKey(s.txs[x].req, s.txs[x].seen).value));
    case DrawId(x) => NamedSameKey(s.txs[x], s.nextInvoice); NamedSameKey(s.txs[x], s.nextTemplate);
    case _ =>
  }

  lemma NamedSameKey(tx: Tx, id: nat)
    ensures NextKey(WithId(tx.req, id), tx.seen) == NextKey(tx.req, tx.seen)
    ensures WithId(tx.req, id).OpMarkOverdue? == tx.req.OpMarkOverdue?
  {
  }

  predicate IsBulk(s: State, x: nat) {
    x in s.txs && s.txs[x].req.OpMarkOverdue?
  }

  /** A wait goes up the order, strictly unless the one waited for is a bulk update. */
  lemma WaitGoesUp(s: State, x: nat, k: Key, y: nat, wanted: Key)
    requires AllInOrder(s) && WaitsFor(s, x, k, y) && y in s.txs && Wants(s.txs[y], wanted)
    ensures Rank(k) <= Rank(wanted) && (!IsBulk(s, y) ==> Rank(k) < Rank(wanted))
  {
  }

  /** Transaction xs[i] waits for xs[i + 1] over key ks[i]. */
  ghost predicate Chain(s: State, xs: seq<nat>, ks: seq<Key>) {
    && |xs| == |ks| + 1
    && forall i :: 0 <= i < |ks| ==> WaitsFor(s, xs[i], ks[i], xs[i + 1])
  }

  lemma {:induction false} ChainGoesUp(s: State, xs: seq<nat>, ks: seq<Key>, i: nat, j: nat)
    requires AllInOrder(s) && Chain(s, xs, ks) && i <= j < |ks|
    ensures Rank(ks[i]) <= Rank(ks[j])
    ensures forall m :: i < m <= j && !IsBulk(s, xs[m]) ==> Rank(ks[i]) < Rank(ks[j])
    decreases j - i
  {
    hide Wants, Rank, InOrder;
    if i < j {
      ChainGoesUp(s, xs, ks, i, j - 1);
      assert WaitsFor(s, xs[j - 1], ks[j - 1], xs[j - 1 + 1]) && WaitsFor(s, xs[j], ks[j], xs[j + 1]);
      WaitGoesUp(s, xs[j - 1], ks[j - 1], xs[j], ks[j]);
    }
  }

  /** The only cycles of waiting are among bulk updates, which take their rows in no fixed order. */
  lemma DeadlocksAreBulk(steps: seq<Step>, xs: seq<nat>, ks: seq<Key>)
    requires MayRun(INITIAL, steps) && |ks| > 0
    requires Chain(Ran(INITIAL, steps), xs, ks) && xs[0] == xs[|ks|]
    ensures forall i :: 0 <= i < |xs| ==> IsBulk(Ran(INITIAL, steps), xs[i])
  {
    hide Wants, Rank, InOrder, MayRun, Ran;
    var s := Ran(INITIAL, steps);
    RanInOrder(INITIAL, steps);
    var n := |ks|;
    ChainGoesUp(s, xs, ks, 0, n - 1);
    assert WaitsFor(s, xs[0], ks[0], xs[0 + 1]) && WaitsFor(s, xs[n - 1], ks[n - 1], xs[n - 1 + 1]);
    WaitGoesUp(s, xs[n - 1], ks[n - 1], xs[n], ks[0]);
    forall i | 0 <= i <= n ensures IsBulk(s, xs[i]) {
    }
  }

  lemma {:induction false} RanInOrder(s: State, steps: seq<Step>)
    requires AllInOrder(s) && MayRun(s, steps)
    ensures AllInOrder(Ran(s, steps))
    decreases |steps|
  {
    hide AllInOrder, MayStep, Do;
    if steps != [] {
      OrderKept(s, steps[0]);
      RanInOrder(Do(s, steps[0]), steps[1..]);
    }
  }
}
