/** The nightly job for one tenant: overdue marking, reminders, and catching up recurring invoices. */
module Automation {
  import opened Wrappers
  import opened Dates
  import opened Ledger
  import opened LedgerInvariants
  import opened Billing
  import Schedule
  import Ocr
  import Vat

  const MAX_CATCHUP := 36

  /** What a phase of the job has committed so far is a run of the ledger from its tables at the start. */
  ghost predicate IsLog(start: Db, log: seq<Op>, now: Db) {
    EnabledRun(start, log) && Run(start, log) == now
  }

  lemma LogGrows(start: Db, log: seq<Op>, db: Db, op: Op)
    requires IsLog(start, log, db) && Enabled(db, op)
    ensures IsLog(start, log + [op], Next(db, op))
  {
    hide Next, Enabled;
    RunAppend(start, log, op);
    EnabledAppend(start, log, op);
  }

  /** Ascending ids, as ORDER BY id gives them. */
  method Least(s: set<nat>) returns (m: nat)
    requires s != {}
    ensures m in s && forall x :: x in s ==> m <= x
  {
    m :| m in s;
    var rest := s - {m};
    while rest != {}
      invariant m in s && rest <= s && forall x :: x in s && x !in rest ==> m <= x
      decreases |rest|
    {
      var x :| x in rest;
      if x < m {
        m := x;
      }
      rest := rest - {x};
    }
  }

  /** The points at which the job can lose a query or a transaction for reasons outside the tables. */
  datatype Point = Sweep | Candidates | Reminding(id: nat) | Templates | Generating(template: nat, attempt: nat)

  // ---- Catching up one template ------------------------------------------------------------------------

  ghost predicate IsGeneration(op: Op, t: nat, p: nat, today: Date) {
    op.OpGenerate? && op.t == t && op.id == p && op.today == today
  }

  /** In these tables the template is active and its day has come, and the terms are its customer's. */
  ghost predicate IsDueGeneration(db: Db, op: Op, t: nat, today: Date, terms: nat -> int) {
    && op.OpGenerate? && op.t == t && op.today == today
    && op.id in db.templates && db.templates[op.id].tenant == t && db.templates[op.id].active
    && op.terms == terms(db.templates[op.id].customer)
    && (IsValid(today) && IsValid(db.templates[op.id].next) ==>
          DayNumber(db.templates[op.id].next) <= DayNumber(today))
  }

  /** Every generation from place `from` on is due in the tables it meets. */
  ghost predicate GenerationsDue(start: Db, log: seq<Op>, from: nat, t: nat, today: Date, terms: nat -> int) {
    forall k :: from <= k < |log| ==> IsDueGeneration(Run(start, log[..k]), log[k], t, today, terms)
  }

  lemma GenerationsGrow(start: Db, log: seq<Op>, from: nat, t: nat, today: Date, terms: nat -> int, op: Op)
    requires GenerationsDue(start, log, from, t, today, terms)
    requires IsDueGeneration(Run(start, log), op, t, today, terms)
    ensures GenerationsDue(start, log + [op], from, t, today, terms)
  {
    hide IsDueGeneration, Run;
    forall k | from <= k < |log| + 1
      ensures IsDueGeneration(Run(start, (log + [op])[..k]), (log + [op])[k], t, today, terms)
    {
      if k < |log| {
        assert (log + [op])[..k] == log[..k];
      } else {
        assert (log + [op])[..k] == log;
      }
    }
  }

  /** No invoice that was there has changed, and no payment has. */
  ghost predicate RowsKept(db: Db, after: Db) {
    && (forall i :: i in db.invoices ==> i in after.invoices && after.invoices[i] == db.invoices[i])
    && after.payments == db.payments
  }

  lemma GenerationIsDue(db: Db, t: nat, p: nat, today: Date, terms: nat -> int, newId: nat)
    requires newId !in db.invoices
    ensures var after := Effect(db, Generate(db, t, p, today, TermsOf(db, p, terms), newId));
      && RowsKept(db, after.0)
      && (after.1.Done? ==>
            IsDueGeneration(db, OpGenerate(t, p, today, TermsOf(db, p, terms), newId), t, today, terms))
  {
    GenerateCases(db, t, p, today, TermsOf(db, p, terms), newId);
    if p in db.templates && IsValid(today) && IsValid(db.templates[p].next) {
      DayNumberOrder(today, db.templates[p].next);
    }
    hide Before, DayNumber, IsValid, Vat.AllComputable, AddDaysTo, AdvanceByInterval, GeneratedFrom, ToItems, Generate;
  }

  ghost predicate OtherTemplatesSame(db: Db, after: Db, p: nat) {
    after.templates.Keys == db.templates.Keys && forall q :: q in db.templates && q != p ==>
        after.templates[q] == db.templates[q]
  }

  lemma GenerateTouches(db: Db, t: nat, p: nat, today: Date, terms: int, newId: nat)
    ensures var after := Effect(db, Generate(db, t, p, today, terms, newId));
      && OtherTemplatesSame(db, after.0, p)
      && (after.1.Done? ==> after.0 == Next(db, OpGenerate(t, p, today, terms, newId)))
      && (after.1.Nothing? <==> !DueTemplate(db, t, p, today))
      && (!after.1.Done? ==> after.0 == db)
      && (after.1.Failed? ==> Blocked(db, t, p, today))
  {
    GenerateCases(db, t, p, today, terms, newId);
    hide Before, TotalsOf, Vat.AllComputable, AddDaysTo, AdvanceByInterval, GeneratedFrom, ToItems;
  }

  /** The template is due and cannot be invoiced: an amount is unsafe, or the sender details are incomplete. */
  predicate Blocked(db: Db, t: nat, p: nat, today: Date) {
    && DueTemplate(db, t, p, today)
    && (!Vat.AllComputable(db.templates[p].lines) || !CanNumber(SettingsOf(db, t)))
  }

  function TermsOf(db: Db, p: nat, terms: nat -> int): int {
    if p in db.templates then terms(db.templates[p].customer) else 0
  }

  /** Generates until the template is no longer due, an attempt fails, or the cap is reached. */
  method CatchUp(db: BillingDb, t: nat, p: nat, today: Date, terms: nat -> int, lost: Point -> bool,
                 ghost start: Db, ghost log: seq<Op>)
    returns (generated: nat, failed: bool, ghost longer: seq<Op>)
    requires db.Valid() && IsLog(start, log, db.Db())
    modifies db
    ensures db.Valid() && IsLog(start, longer, db.Db())
    ensures log <= longer && |longer| == |log| + generated && generated <= 36
    ensures forall k :: |log| <= k < |longer| ==> IsGeneration(longer[k], t, p, today)
    ensures forall from: nat :: GenerationsDue(start, log, from, t, today, terms) ==>
              GenerationsDue(start, longer, from, t, today, terms)
    ensures RowsKept(old(db.Db()), db.Db())
    ensures !failed && generated < 36 ==> !DueTemplate(db.Db(), t, p, today)
    ensures failed ==> lost(Generating(p, generated)) || Blocked(db.Db(), t, p, today)
    ensures OtherTemplatesSame(old(db.Db()), db.Db(), p)
  {
    hide DueTemplate, IsLog, Generate, Blocked, GenerationsDue, IsDueGeneration;
    generated, failed, longer := 0, false, log;
    while generated < MAX_CATCHUP
      invariant db.Valid() && IsLog(start, longer, db.Db())
      invariant log <= longer && |longer| == |log| + generated && generated <= MAX_CATCHUP && !failed
      invariant forall k :: |log| <= k < |longer| ==> IsGeneration(longer[k], t, p, today)
      invariant forall from: nat :: GenerationsDue(start, log, from, t, today, terms) ==>
                  GenerationsDue(start, longer, from, t, today, terms)
      invariant RowsKept(old(db.Db()), db.Db())
      invariant OtherTemplatesSame(old(db.Db()), db.Db(), p)
    {
      if lost(Generating(p, generated)) {
        failed := true;
        return;
      }
      ghost var before := db.Db();
      var days := TermsOf(db.Db(), p, terms);
      ghost var op := OpGenerate(t, p, today, days, db.nextInvoice);
      GenerateTouches(before, t, p, today, days, db.nextInvoice);
      GenerationIsDue(before, t, p, today, terms, db.nextInvoice);
      var result := db.GenerateFromTemplateInTx(t, p, today, days);
      match result
      case Nothing =>
        return;
      case Failed(_) =>
        failed := true;
        return;
      case Done =>
        LogGrows(start, longer, before, op);
        GenerationsFollow(start, longer, before, t, today, terms, op);
        longer := longer + [op];
        generated := generated + 1;
    }
  }

  lemma GenerationsFollow(start: Db, log: seq<Op>, now: Db, t: nat, today: Date, terms: nat -> int, op: Op)
    requires IsLog(start, log, now) && IsDueGeneration(now, op, t, today, terms)
    ensures forall from: nat :: GenerationsDue(start, log, from, t, today, terms) ==>
              GenerationsDue(start, log + [op], from, t, today, terms)
  {
    forall from: nat | GenerationsDue(start, log, from, t, today, terms)
      ensures GenerationsDue(start, log + [op], from, t, today, terms)
    {
      GenerationsGrow(start, log, from, t, today, terms, op);
    }
  }

  // ---- Reminders -----------------------------------------------------------------------------------------

  /** findReminderCandidates' WHERE clause. */
  predicate Candidate(db: Db, t: nat, today: Date, i: nat) {
    && Visible(db, t, i) && Before(db.invoices[i].due, today) && Open(db.invoices[i].status)
    && db.invoices[i].kind == Plain && db.invoices[i].reminds.None?
    && forall r :: r in db.invoices ==> db.invoices[r].reminds != Some(i)
  }

  /** A candidate that a reminder would still be made for. */
  predicate Unreminded(db: Db, t: nat, today: Date, i: nat) {
    Candidate(db, t, today, i) && Remindable(db.invoices[i]) && Remaining(db, i) > 0
  }

  /** A plain invoice of the tenant, sent and not paid up, whose due date lies before today. */
  ghost predicate OverdueDebt(db: Db, t: nat, today: Date, i: nat) {
    && i in db.invoices && db.invoices[i].tenant == t && db.invoices[i].kind == Plain
    && db.invoices[i].status in {Sent, Overdue} && db.invoices[i].totals.incl > PaidOre(db.payments, t, i)
    && IsValid(today) && IsValid(db.invoices[i].due) && DayNumber(db.invoices[i].due) < DayNumber(today)
  }

  /** In reachable tables the invoices that get a reminder are exactly those. */
  lemma UnremindedIff(db: Db, t: nat, today: Date, i: nat)
    requires Inv(db) && IsValid(today) && (i in db.invoices ==> IsValid(db.invoices[i].due))
    ensures Unreminded(db, t, today, i) <==> OverdueDebt(db, t, today, i)
  {
    hide Inv, Before, DayNumber, IsValid, PaidOre;
    if i in db.invoices {
      DayNumberOrder(db.invoices[i].due, today);
      if db.invoices[i].kind == Plain && Open(db.invoices[i].status) {
        NobodyReminds(db, i);
      }
    }
  }

  lemma NobodyReminds(db: Db, i: nat)
    requires Inv(db) && i in db.invoices && db.invoices[i].kind == Plain && Open(db.invoices[i].status)
    ensures db.invoices[i].reminds.None? && db.invoices[i].supersededBy.None?
    ensures forall r :: r in db.invoices ==> db.invoices[r].reminds != Some(i)
  {
    hide NumbersOk, PaymentsOk, PaidOk, OutboxOk, TemplatesOk, FeesOk, TotalsOf;
    assert ShapeOk(db.invoices[i]);
    forall r | r in db.invoices ensures db.invoices[r].reminds != Some(i) {
      assert LinkOk(db, r);
    }
  }

  /** In these tables the invoice is owed and past its due date, and the terms are its customer's. */
  ghost predicate IsDueReminder(db: Db, op: Op, t: nat, today: Date, terms: nat -> int) {
    && op.OpRemind? && op.t == t && op.today == today
    && op.id in db.invoices && db.invoices[op.id].tenant == t && db.invoices[op.id].kind == Plain
    && db.invoices[op.id].status in {Sent, Overdue}
    && db.invoices[op.id].totals.incl > PaidOre(db.payments, t, op.id)
    && op.terms == terms(db.invoices[op.id].customer)
    && (IsValid(today) && IsValid(db.invoices[op.id].due) ==>
          DayNumber(db.invoices[op.id].due) < DayNumber(today))
  }

  /** Every reminder between two places of the log is due in the tables it meets. */
  ghost predicate RemindersDue(start: Db, log: seq<Op>, from: nat, to: nat, t: nat, today: Date, terms: nat -> int) {
    forall k :: from <= k < to && k < |log| ==> IsDueReminder(Run(start, log[..k]), log[k], t, today, terms)
  }

  lemma RemindersGrow(start: Db, log: seq<Op>, from: nat, t: nat, today: Date, terms: nat -> int, now: Db, op: Op)
    requires RemindersDue(start, log, from, |log|, t, today, terms)
    requires IsLog(start, log, now) && IsDueReminder(now, op, t, today, terms)
    ensures RemindersDue(start, log + [op], from, |log| + 1, t, today, terms)
  {
    hide IsDueReminder, Run, EnabledRun;
    forall k | from <= k < |log| + 1
      ensures IsDueReminder(Run(start, (log + [op])[..k]), (log + [op])[k], t, today, terms)
    {
      if k < |log| {
        assert (log + [op])[..k] == log[..k];
      } else {
        assert (log + [op])[..k] == log;
      }
    }
  }

  lemma RemindersStay(start: Db, log: seq<Op>, longer: seq<Op>, from: nat, t: nat, today: Date, terms: nat -> int)
    requires RemindersDue(start, log, from, |log|, t, today, terms) && log <= longer
    ensures RemindersDue(start, longer, from, |log|, t, today, terms)
  {
    hide IsDueReminder, Run;
    forall k | from <= k < |log| ensures IsDueReminder(Run(start, longer[..k]), longer[k], t, today, terms) {
      assert longer[..k] == log[..k];
    }
  }

  /** A reminder that is made is due if its invoice's due date has passed. */
  lemma ReminderIsDue(db: Db, t: nat, id: nat, today: Date, terms: nat -> int, newId: nat)
    requires newId !in db.invoices && id in db.invoices && Before(db.invoices[id].due, today)
    ensures var days := terms(db.invoices[id].customer);
      Effect(db, Remind(db, t, id, today, days, newId)).1.Done? ==>
        IsDueReminder(db, OpRemind(t, id, today, days, newId), t, today, terms)
  {
    RemindCases(db, t, id, today, terms(db.invoices[id].customer), newId);
    if IsValid(today) && IsValid(db.invoices[id].due) {
      DayNumberOrder(db.invoices[id].due, today);
    }
    hide Before, DayNumber, IsValid, TotalsOf, Vat.AllComputable, AddDaysTo, ToItems, PaidOre, Ocr.DeriveOcr, Remind;
  }

  ghost predicate DuesStand(db: Db, after: Db) {
    forall i :: i in db.invoices ==> i in after.invoices && after.invoices[i].due == db.invoices[i].due
  }

  lemma RemindTouches(db: Db, t: nat, id: nat, today: Date, terms: int, newId: nat)
    requires newId !in db.invoices
    ensures var after := Effect(db, Remind(db, t, id, today, terms, newId));
      && after.0.templates == db.templates && DuesStand(db, after.0)
      && (after.1.Done? ==>
            after.0 == Next(db, OpRemind(t, id, today, terms, newId)) && !Unreminded(after.0, t, today, id))
      && (!after.1.Done? ==> after.0 == db)
      && (after.1.Nothing? ==> !Unreminded(db, t, today, id))
  {
    RemindCases(db, t, id, today, terms, newId);
    hide Before, TotalsOf, Vat.AllComputable, AddDaysTo, ToItems, PaidOre, Ocr.DeriveOcr;
  }

  /** A reminder makes no new candidate. */
  lemma RemindMakesNone(db: Db, t: nat, id: nat, today: Date, terms: int, newId: nat, i: nat)
    requires newId !in db.invoices && i != id
    requires Unreminded(Effect(db, Remind(db, t, id, today, terms, newId)).0, t, today, i)
    ensures Unreminded(db, t, today, i)
  {
    RemindCases(db, t, id, today, terms, newId);
    hide Before, TotalsOf, Vat.AllComputable, AddDaysTo, ToItems, PaidOre, Ocr.DeriveOcr, Remind;
    var after := Effect(db, Remind(db, t, id, today, terms, newId)).0;
    assert i != newId && i in db.invoices;
    forall r | r in db.invoices ensures db.invoices[r].reminds != Some(i) {
      assert r in after.invoices && after.invoices[r].reminds == db.invoices[r].reminds;
    }
  }

  /** One candidate, in a transaction of its own. */
  method RemindOne(db: BillingDb, t: nat, today: Date, terms: nat -> int, id: nat, ghost start: Db, ghost log: seq<Op>)
    returns (r: Reply, ghost longer: seq<Op>)
    requires db.Valid() && IsLog(start, log, db.Db())
    modifies db
    ensures db.Valid() && IsLog(start, longer, db.Db()) && db.templates == old(db.templates)
    ensures if r.Done? then |longer| == |log| + 1 && log <= longer && IsReminder(longer[|log|], t, today)
            else longer == log
    ensures !r.Failed? ==> forall i :: Unreminded(db.Db(), t, today, i) ==>
            i != id && Unreminded(old(db.Db()), t, today, i)
    ensures r.Failed? ==> db.Db() == old(db.Db())
    ensures DuesStand(old(db.Db()), db.Db())
    ensures r.Done? && id in old(db.invoices) && Before(old(db.invoices)[id].due, today) ==>
              IsDueReminder(old(db.Db()), longer[|log|], t, today, terms)
  {
    hide IsLog, Remind, Unreminded, IsDueReminder, DuesStand, Before;
    longer := log;
    ghost var before := db.Db();
    var days := if id in db.invoices then terms(db.invoices[id].customer) else 0;
    ghost var newId := db.nextInvoice;
    RemindTouches(before, t, id, today, days, newId);
    forall i | i != id && Unreminded(Effect(before, Remind(before, t, id, today, days, newId)).0, t, today, i)
      ensures Unreminded(before, t, today, i)
    {
      RemindMakesNone(before, t, id, today, days, newId, i);
    }
    if id in before.invoices && Before(before.invoices[id].due, today) {
      ReminderIsDue(before, t, id, today, terms, newId);
    }
    r := db.CreateReminderInTx(t, id, today, days);
    if r.Done? {
      LogGrows(start, longer, before, OpRemind(t, id, today, days, newId));
      longer := longer + [OpRemind(t, id, today, days, newId)];
    }
  }

  ghost predicate IsReminder(op: Op, t: nat, today: Date) {
    op.OpRemind? && op.t == t && op.today == today
  }

  method ListReminderCandidates(db: BillingDb, t: nat, today: Date) returns (candidates: set<nat>)
    ensures forall i :: i in candidates <==> Candidate(db.Db(), t, today, i)
    ensures forall i :: i in candidates ==> i in db.invoices && Before(db.invoices[i].due, today)
    ensures forall i :: Unreminded(db.Db(), t, today, i) ==> i in candidates
  {
    hide Before, Remaining, Remindable;
    candidates := set i | i in db.invoices && Candidate(db.Db(), t, today, i);
  }

  /** One candidate, unless the attempt is lost before it begins. */
  method RemindNext(db: BillingDb, t: nat, today: Date, terms: nat -> int, lost: Point -> bool, id: nat,
                    ghost start: Db, ghost log: seq<Op>, ghost from: nat)
    returns (sent: nat, failed: nat, ghost longer: seq<Op>)
    requires db.Valid() && IsLog(start, log, db.Db()) && RemindersDue(start, log, from, |log|, t, today, terms)
    requires id in db.invoices && Before(db.invoices[id].due, today)
    modifies db
    ensures db.Valid() && IsLog(start, longer, db.Db()) && db.templates == old(db.templates)
    ensures log <= longer && |longer| == |log| + sent && sent <= 1
    ensures forall k :: |log| <= k < |longer| ==> IsReminder(longer[k], t, today)
    ensures RemindersDue(start, longer, from, |longer|, t, today, terms) && DuesStand(old(db.Db()), db.Db())
    ensures failed == 0 ==> forall i :: Unreminded(db.Db(), t, today, i) ==>
            i != id && Unreminded(old(db.Db()), t, today, i)
  {
    hide IsLog, Unreminded, RemindersDue, IsDueReminder, Before;
    sent, failed, longer := 0, 0, log;
    if lost(Reminding(id)) {
      failed := 1;
      return;
    }
    ghost var before := db.Db();
    var result;
    result, longer := RemindOne(db, t, today, terms, id, start, log);
    if result.Done? {
      RemindersGrow(start, log, from, t, today, terms, before, longer[|log|]);
      assert longer == log + [longer[|log|]];
      sent := 1;
    } else if result.Failed? {
      failed := 1;
    }
  }

  method SendReminders(db: BillingDb, t: nat, today: Date, terms: nat -> int, lost: Point -> bool,
                       ghost start: Db, ghost log: seq<Op>)
    returns (created: nat, errors: nat, ghost longer: seq<Op>)
    requires db.Valid() && IsLog(start, log, db.Db())
    modifies db
    ensures db.Valid() && IsLog(start, longer, db.Db()) && db.templates == old(db.templates)
    ensures log <= longer && |longer| == |log| + created
    ensures forall k :: |log| <= k < |longer| ==> IsReminder(longer[k], t, today)
    ensures RemindersDue(start, longer, |log|, |longer|, t, today, terms) && DuesStand(old(db.Db()), db.Db())
    ensures errors == 0 ==> !lost(Candidates) && forall i :: !Unreminded(db.Db(), t, today, i)
    ensures errors == 0 && Inv(start) ==> forall i :: !OverdueDebt(db.Db(), t, today, i)
  {
    hide IsLog, Candidate, Unreminded, RemindersDue, OverdueDebt, Before, Inv, DuesStand, IsReminder, AllPast;
    created, errors, longer := 0, 0, log;
    DuesStandStill(db.Db());
    NoneReminded(start, log, t, today, terms);
    if lost(Candidates) {
      errors := 1;
      return;
    }
    var candidates := ListReminderCandidates(db, t, today);
    ArePast(db.Db(), candidates, today);
    while candidates != {}
      invariant db.Valid() && IsLog(start, longer, db.Db()) && db.templates == old(db.templates)
      invariant log <= longer && |longer| == |log| + created
      invariant forall k :: |log| <= k < |longer| ==> IsReminder(longer[k], t, today)
      invariant RemindersDue(start, longer, |log|, |longer|, t, today, terms) && DuesStand(old(db.Db()), db.Db())
      invariant AllPast(db.Db(), candidates, today)
      invariant errors == 0 ==> forall i :: Unreminded(db.Db(), t, today, i) ==> i in candidates
      decreases |candidates|
    {
      ghost var before := db.Db();
      var id := Least(candidates);
      PastOnes(before, candidates, today, id);
      candidates := candidates - {id};
      var sent, failed;
      sent, failed, longer := RemindNext(db, t, today, terms, lost, id, start, longer, |log|);
      created, errors := created + sent, errors + failed;
      StillPast(old(db.Db()), before, db.Db(), candidates, today);
    }
    if errors == 0 && Inv(start) {
      NoOverdueDebt(start, longer, db.Db(), t, today);
    }
  }

  ghost predicate AllPast(db: Db, candidates: set<nat>, today: Date) {
    forall i :: i in candidates ==> i in db.invoices && Before(db.invoices[i].due, today)
  }

  lemma ArePast(db: Db, candidates: set<nat>, today: Date)
    requires forall i :: i in candidates ==> i in db.invoices && Before(db.invoices[i].due, today)
    ensures AllPast(db, candidates, today)
  {
  }

  lemma PastOnes(db: Db, candidates: set<nat>, today: Date, id: nat)
    requires AllPast(db, candidates, today) && id in candidates
    ensures id in db.invoices && Before(db.invoices[id].due, today) && AllPast(db, candidates - {id}, today)
  {
  }

  lemma StillPast(start: Db, before: Db, after: Db, candidates: set<nat>, today: Date)
    requires DuesStand(start, before) && DuesStand(before, after) && AllPast(before, candidates, today)
    ensures DuesStand(start, after) && AllPast(after, candidates, today)
  {
    hide Before;
  }

  lemma DuesStandStill(db: Db)
    ensures DuesStand(db, db)
  {
  }

  lemma NoneReminded(start: Db, log: seq<Op>, t: nat, today: Date, terms: nat -> int)
    ensures RemindersDue(start, log, |log|, |log|, t, today, terms)
  {
  }

  lemma NoOverdueDebt(start: Db, log: seq<Op>, now: Db, t: nat, today: Date)
    requires Inv(start) && IsLog(start, log, now) && forall i :: !Unreminded(now, t, today, i)
    ensures forall i :: !OverdueDebt(now, t, today, i)
  {
    hide Inv, Unreminded, DayNumber;
    RunKeeps(start, log);
    forall i ensures !OverdueDebt(now, t, today, i) {
      if OverdueDebt(now, t, today, i) {
        UnremindedIff(now, t, today, i);
      }
    }
  }

  // ---- Recurring invoices --------------------------------------------------------------------------------

  method GenerateDue(db: BillingDb, t: nat, today: Date, terms: nat -> int, lost: Point -> bool,
                     ghost start: Db, ghost log: seq<Op>)
    returns (generated: nat, errors: nat, capped: bool, ghost longer: seq<Op>)
    requires db.Valid() && IsLog(start, log, db.Db())
    modifies db
    ensures db.Valid() && IsLog(start, longer, db.Db())
    ensures log <= longer && |longer| == |log| + generated
    ensures forall k :: |log| <= k < |longer| ==> longer[k].OpGenerate? && longer[k].t == t && longer[k].today == today
    ensures GenerationsDue(start, longer, |log|, t, today, terms) && RowsKept(old(db.Db()), db.Db())
    ensures errors == 0 && !capped ==> forall p :: !DueTemplate(db.Db(), t, p, today)
    ensures errors == 0 ==> !lost(Templates)
  {
    hide IsLog, Before, GenerationsDue;
    NoneGenerated(start, log, t, today, terms);
    generated, errors, capped, longer := 0, 0, false, log;
    if lost(Templates) {
      errors := 1;
      return;
    }
    var due := set p | p in db.templates && DueTemplate(db.Db(), t, p, today);
    while due != {}
      invariant db.Valid() && IsLog(start, longer, db.Db())
      invariant log <= longer && |longer| == |log| + generated
      invariant forall k :: |log| <= k < |longer| ==>
                  longer[k].OpGenerate? && longer[k].t == t && longer[k].today == today
      invariant GenerationsDue(start, longer, |log|, t, today, terms) && RowsKept(old(db.Db()), db.Db())
      invariant errors == 0 && !capped ==> forall p :: DueTemplate(db.Db(), t, p, today) ==> p in due
      decreases |due|
    {
      var p := Least(due);
      due := due - {p};
      ghost var before := longer;
      var count, failed;
      count, failed, longer := CatchUp(db, t, p, today, terms, lost, start, longer);
      assert forall k :: |before| <= k < |longer| ==> IsGeneration(longer[k], t, p, today);
      generated := generated + count;
      if failed {
        errors := errors + 1;
      }
      if count == MAX_CATCHUP {
        capped := true;
      }
    }
  }

  lemma NoneGenerated(start: Db, log: seq<Op>, t: nat, today: Date, terms: nat -> int)
    ensures GenerationsDue(start, log, |log|, t, today, terms)
  {
  }

  // ---- The job ---------------------------------------------------------------------------------------------

  datatype Summary = Summary(overdueMarked: nat, remindersCreated: nat, recurringGenerated: nat, errors: nat)

  /** What the job has done is a run of the ledger: its sweep, then its reminders, then its generated invoices. */
  ghost predicate IsJob(log: seq<Op>, t: nat, today: Date, swept: bool, s: Summary) {
    var first := if swept then 1 else 0;
    && |log| == first + s.remindersCreated + s.recurringGenerated
    && (swept ==> log[0].OpMarkOverdue? && log[0].t == t && log[0].today == today)
    && (forall k :: first <= k < first + s.remindersCreated ==> IsReminder(log[k], t, today))
    && (forall k :: first + s.remindersCreated <= k < |log| ==>
          log[k].OpGenerate? && log[k].t == t && log[k].today == today)
  }

  /**
   One nightly run, in which any query or transaction may be lost. It commits a run of ledger transactions; if
   nothing failed and no template hit the cap, no template of the tenant is due any more. It reminds only of invoices
   past their due date, and if nothing failed it leaves none of those it found with anything left to pay.
   */
  method RunForTenant(db: BillingDb, t: nat, today: Date, terms: nat -> int, lost: Point -> bool)
    returns (summary: Summary, capped: bool, ghost log: seq<Op>)
    requires db.Valid()
    modifies db
    ensures db.Valid() && IsLog(old(db.Db()), log, db.Db()) && IsJob(log, t, today, !lost(Sweep), summary)
    ensures summary.overdueMarked ==
            if lost(Sweep) then 0 else |DueRows(old(db.Db()), t, today, old(db.invoices).Keys)|
    ensures var first := if lost(Sweep) then 0 else 1; var second := first + summary.remindersCreated;
      && RemindersDue(old(db.Db()), log, first, second, t, today, terms)
      && GenerationsDue(old(db.Db()), log, second, t, today, terms)
    ensures summary.errors == 0 && Inv(old(db.Db())) ==>
              forall i :: i in old(db.invoices) ==> !OverdueDebt(db.Db(), t, today, i)
    ensures summary.errors == 0 && !capped ==> forall p :: !DueTemplate(db.Db(), t, p, today)
    ensures summary.errors == 0 ==> !lost(Sweep) && !lost(Candidates) && !lost(Templates)
  {
    hide IsLog, DueTemplate, DueRows, Unreminded, RemindersDue, GenerationsDue, Inv, OverdueDebt, RowsKept, DuesStand;
    ghost var start := db.Db();
    var marked, unswept, created, unsent, generated, failed;
    marked, unswept, log := SweepOverdue(db, t, today, lost);
    ghost var first, swept := log, db.Db();
    created, unsent, log := SendReminders(db, t, today, terms, lost, start, log);
    ghost var reminded, middle := log, db.Db();
    generated, failed, capped, log := GenerateDue(db, t, today, terms, lost, start, log);
    assert forall k :: 0 <= k < |first| ==> reminded[k] == first[k];
    assert forall k :: 0 <= k < |reminded| ==> log[k] == reminded[k];
    RemindersStay(start, reminded, log, |first|, t, today, terms);
    KeptHaveNone(start, swept, middle, db.Db(), t, today);
    summary := Summary(marked, created, generated, unswept + unsent + failed);
  }

  method SweepOverdue(db: BillingDb, t: nat, today: Date, lost: Point -> bool)
    returns (marked: nat, errors: nat, ghost log: seq<Op>)
    requires db.Valid()
    modifies db
    ensures db.Valid() && IsLog(old(db.Db()), log, db.Db()) && DuesStand(old(db.Db()), db.Db())
    ensures log == if lost(Sweep) then [] else [OpMarkOverdue(t, today, old(db.invoices).Keys)]
    ensures marked == if lost(Sweep) then 0 else |DueRows(old(db.Db()), t, today, old(db.invoices).Keys)|
    ensures errors == if lost(Sweep) then 1 else 0
  {
    hide IsLog, DueRows, Before;
    ghost var start := db.Db();
    NothingYet(start);
    log := [];
    if lost(Sweep) {
      return 0, 1, log;
    }
    ghost var sweep := OpMarkOverdue(t, today, start.invoices.Keys);
    marked := db.MarkOverdueBulk(t, today);
    LogGrows(start, [], start, sweep);
    log := [] + [sweep];
    errors := 0;
  }

  /** Generating leaves what was there as it was. */
  lemma KeptHaveNone(start: Db, swept: Db, middle: Db, now: Db, t: nat, today: Date)
    requires DuesStand(start, swept) && DuesStand(swept, middle) && RowsKept(middle, now)
    ensures (forall i :: !OverdueDebt(middle, t, today, i)) ==>
              forall i :: i in start.invoices ==> !OverdueDebt(now, t, today, i)
  {
    hide PaidOre, DayNumber, IsValid;
    forall i | i in middle.invoices ensures OverdueDebt(middle, t, today, i) == OverdueDebt(now, t, today, i) {
    }
  }

  lemma NothingYet(db: Db)
    ensures IsLog(db, [], db)
  {
  }

  // ---- Night after night -------------------------------------------------------------------------------------

  lemma {:induction false} RunConcat(start: Db, a: seq<Op>, mid: Db, b: seq<Op>, end: Db)
    requires IsLog(start, a, mid) && IsLog(mid, b, end)
    ensures IsLog(start, a + b, end)
    decreases |a|
  {
    hide Next, Enabled;
    if a == [] {
      assert a + b == b;
    } else {
      assert (a + b)[1..] == a[1..] + b;
      RunConcat(Next(start, a[0]), a[1..], mid, b, end);
    }
  }

  predicate Chronological(days: seq<Date>) {
    forall j, k :: 0 <= j <= k < |days| ==> !Before(days[k], days[j])
  }

  lemma JobIsUpTo(log: seq<Op>, job: seq<Op>, p: nat, t: nat, today: Date, swept: bool, s: Summary, last: Date)
    requires Schedule.UpTo(log, p, last) && IsJob(job, t, today, swept, s) && !Before(last, today)
    ensures Schedule.UpTo(log + job, p, last)
  {
    forall k | 0 <= k < |log + job| && (log + job)[k].OpGenerate? && (log + job)[k].id == p
      ensures (log + job)[k].today == last || Before((log + job)[k].today, last)
    {
      if k < |log| {
        assert (log + job)[k] == log[k];
      } else {
        assert (log + job)[k] == job[k - |log|];
      }
    }
  }

  /**
   The job on any days in order, any of which may lose or fail transactions or hit the cap: if the last one does not,
   the template has exactly one invoice for each period date up to that day.
   */
  method RunNights(db: BillingDb, t: nat, days: seq<Date>, terms: nat -> int, lost: (nat, Point) -> bool,
                   ghost p: Schedule.Plan) returns (clean: bool)
    requires db.Valid() && Inv(db.Db()) && days != [] && Chronological(days)
    requires Schedule.IsPlan(p) && p.tenant == t && Schedule.Reached(db.Db(), p, 0)
    modifies db
    ensures db.Valid()
    ensures clean ==> Schedule.OnePerPeriod(db.Db(), p, days[|days| - 1])
  {
    hide IsLog, Inv, Schedule.Reached, Schedule.OnePerPeriod, IsJob, Schedule.UpTo;
    ghost var start, last := db.Db(), days[|days| - 1];
    ghost var log: seq<Op> := [];
    NothingYet(start);
    NothingUpTo(p.template, last);
    clean := false;
    for n := 0 to |days|
      invariant db.Valid() && IsLog(start, log, db.Db()) && Schedule.UpTo(log, p.template, last)
      invariant n > 0 && clean ==> !DueTemplate(db.Db(), t, p.template, days[n - 1])
    {
      ghost var before := db.Db();
      var summary, capped;
      ghost var job;
      summary, capped, job := RunForTenant(db, t, days[n], terms, x => lost(n, x));
      RunConcat(start, log, before, job, db.Db());
      JobIsUpTo(log, job, p.template, t, days[n], !lost(n, Sweep), summary, last);
      log := log + job;
      clean := summary.errors == 0 && !capped;
    }
    if clean {
      LogReaches(start, log, db.Db(), p, last);
    }
  }

  lemma NothingUpTo(p: nat, last: Date)
    ensures Schedule.UpTo([], p, last)
  {
  }

  lemma LogReaches(start: Db, log: seq<Op>, now: Db, p: Schedule.Plan, last: Date)
    requires Inv(start) && IsLog(start, log, now) && Schedule.IsPlan(p) && Schedule.Reached(start, p, 0)
    requires Schedule.UpTo(log, p.template, last) && !DueTemplate(now, p.tenant, p.template, last)
    ensures Schedule.OnePerPeriod(now, p, last)
  {
    Schedule.OneInvoicePerPeriod(start, log, p, last);
  }
}
