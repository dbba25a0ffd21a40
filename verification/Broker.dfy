/**
 A payment event on its way: the sender's outbox, a broker that loses no confirmed message but duplicates
 and reorders, and billing's consumer, crashing at any step, beside everything else billing does.
 */
module Broker {
  import opened Ledger
  import opened LedgerInvariants
  import LedgerMoney

  /** What comes of reading a message: the schemas of envelope and payload make a conforming amount positive. */
  datatype Content = Conforming | Nonconforming | Unparsable

  datatype Message = Message(eventId: string, tenant: nat, invoice: nat, paymentId: string, amount: int,
                             content: Content)

  /** Only a schema error makes the consumer throw a message away; what does not even parse is tried again. */
  predicate Kept(m: Message) {
    !m.content.Nonconforming?
  }

  /** A copy and its x-attempts header. */
  datatype Copy = Copy(message: Message, attempts: nat)

  datatype RowStatus = Pending | Published | GivenUp

  datatype OutRow = OutRow(message: Message, status: RowStatus, attempts: nat)

  /**
   How far the consumer is with an unacknowledged delivery: `Handled` has committed its effect, `Refused` has
   failed, or so the consumer was told, `Copied` has its next attempt confirmed, `Stuck` could not get it confirmed
   and stays unanswered.
   */
  datatype Phase = Received | Handled | Refused | Copied | Stuck

  datatype Delivery = Delivery(copy: Copy, phase: Phase)

  const PUBLISH_ATTEMPTS := 12
  const CONSUME_ATTEMPTS := 3

  /**
   `drafts` are outbox rows a publisher has locked and updated but not committed. `entered` are the messages
   the broker has ever held, `applied` those whose effect was committed, in that order.
   */
  datatype State = State(
    db: Db,
    outbox: map<string, OutRow>,
    drafts: map<string, OutRow>,
    queue: multiset<Copy>,
    unacked: map<nat, Delivery>,
    dead: multiset<Copy>,
    entered: set<Message>,
    applied: seq<Message>)

  const INITIAL := State(EMPTY, map[], map[], multiset{}, map[], multiset{}, {}, [])

  datatype SenderAct = Write(message: Message) | Publish | Refuse(arrived: bool) | CommitRow | RollbackRow

  /** `told`: the effect is committed, and the consumer gets to know; otherwise it sees an error. */
  datatype ConsumerAct =
    | Receive(copy: Copy)
    | Handle(told: bool)
    | Fail
    | Drop
    | Nack
    | Republish(arrived: bool, confirmed: bool)
    | Ack
    | Redeliver

  datatype Step =
    | Sender(eventId: string, send: SenderAct)
    | Consumer(tag: nat, consume: ConsumerAct)
    | Duplicate(copy: Copy)
    | Billing(op: Op)

  function PayOp(m: Message): Op {
    OpPay(m.tenant, m.eventId, m.invoice, m.paymentId, m.amount)
  }

  function PaymentOf(m: Message): Payment {
    Payment(m.tenant, m.invoice, m.paymentId, m.amount)
  }

  /** A payment id belongs to one invoice and one amount. */
  predicate Agree(a: Message, b: Message) {
    a.content.Conforming? && b.content.Conforming? && a.tenant == b.tenant && a.paymentId == b.paymentId ==>
      a.invoice == b.invoice && a.amount == b.amount
  }

  predicate InPhase(s: State, tag: nat, phase: Phase) {
    tag in s.unacked && s.unacked[tag].phase == phase
  }

  predicate MaySend(s: State, e: string, act: SenderAct) {
    match act
    case Write(m) =>
      && e == m.eventId && e !in s.outbox && (m.content.Conforming? ==> m.amount >= 1)
      && forall d :: d in s.outbox ==> Agree(s.outbox[d].message, m)
    case Publish => e in s.outbox && e !in s.drafts && s.outbox[e].status == Pending
    case Refuse(_) => e in s.outbox && e !in s.drafts && s.outbox[e].status == Pending
    case CommitRow => e in s.drafts
    case RollbackRow => e in s.drafts
  }

  predicate MayConsume(s: State, tag: nat, act: ConsumerAct) {
    match act
    case Receive(c) => tag !in s.unacked && c in s.queue
    case Handle(_) =>
      && InPhase(s, tag, Received) && s.unacked[tag].copy.message.content.Conforming?
      && !Apply(s.db, PayOp(s.unacked[tag].copy.message)).Rejected?
    case Fail => InPhase(s, tag, Received) && Kept(s.unacked[tag].copy.message)
    case Drop => InPhase(s, tag, Received) && !Kept(s.unacked[tag].copy.message)
    case Nack => InPhase(s, tag, Refused) && s.unacked[tag].copy.attempts + 1 >= CONSUME_ATTEMPTS
    case Republish(arrived, confirmed) =>
      && InPhase(s, tag, Refused) && s.unacked[tag].copy.attempts + 1 < CONSUME_ATTEMPTS && (confirmed ==> arrived)
    case Ack => InPhase(s, tag, Handled) || InPhase(s, tag, Copied)
    case Redeliver => tag in s.unacked
  }

  predicate MayStep(s: State, step: Step) {
    match step
    case Sender(e, act) => MaySend(s, e, act)
    case Consumer(tag, act) => MayConsume(s, tag, act)
    case Duplicate(c) => c in s.queue
    case Billing(op) => !op.OpPay? && Enabled(s.db, op)
  }

  function Enqueued(s: State, c: Copy): State {
    s.(queue := s.queue + multiset{c}, entered := s.entered + {c.message})
  }

  /** One more failed attempt to publish. */
  function Retried(row: OutRow): OutRow {
    row.(attempts := row.attempts + 1, status := if row.attempts + 1 >= PUBLISH_ATTEMPTS then GivenUp else Pending)
  }

  function Sent(s: State, e: string, act: SenderAct): State
    requires MaySend(s, e, act)
  {
    match act
    case Write(m) => s.(outbox := s.outbox[e := OutRow(m, Pending, 0)])
    case Publish =>
      Enqueued(s, Copy(s.outbox[e].message, 0)).(drafts := s.drafts[e := s.outbox[e].(status := Published)])
    case Refuse(arrived) =>
      (if arrived then Enqueued(s, Copy(s.outbox[e].message, 0)) else s).(drafts := s.drafts[e := Retried(s.outbox[e])])
    case CommitRow => s.(outbox := s.outbox[e := s.drafts[e]], drafts := s.drafts - {e})
    case RollbackRow => s.(drafts := s.drafts - {e})
  }

  function Moved(s: State, tag: nat, phase: Phase): State
    requires tag in s.unacked
  {
    s.(unacked := s.unacked[tag := s.unacked[tag].(phase := phase)])
  }

  function Consumed(s: State, tag: nat, act: ConsumerAct): State
    requires MayConsume(s, tag, act)
  {
    match act
    case Receive(c) => s.(queue := s.queue - multiset{c}, unacked := s.unacked[tag := Delivery(c, Received)])
    case Handle(told) =>
      var m := s.unacked[tag].copy.message;
      Moved(s, tag, if told then Handled else Refused).(
        db := Next(s.db, PayOp(m)),
        applied := if Apply(s.db, PayOp(m)).Committed? then s.applied + [m] else s.applied)
    case Fail => Moved(s, tag, Refused)
    case Drop => s.(unacked := s.unacked - {tag})
    case Nack => s.(unacked := s.unacked - {tag}, dead := s.dead + multiset{s.unacked[tag].copy})
    case Republish(arrived, confirmed) =>
      var c := s.unacked[tag].copy;
      var sent := if arrived then Enqueued(s, c.(attempts := c.attempts + 1)) else s;
      Moved(sent, tag, if confirmed then Copied else Stuck)
    case Ack => s.(unacked := s.unacked - {tag})
    case Redeliver => s.(unacked := s.unacked - {tag}, queue := s.queue + multiset{s.unacked[tag].copy})
  }

  function Do(s: State, step: Step): State
    requires MayStep(s, step)
  {
    match step
    case Sender(e, act) => Sent(s, e, act)
    case Consumer(tag, act) => Consumed(s, tag, act)
    case Duplicate(c) => s.(queue := s.queue + multiset{c})
    case Billing(op) => s.(db := Next(s.db, op))
  }

  // ---- Copies ------------------------------------------------------------------------------------------

  /** A copy that may be where it is: of a message that entered, tried fewer than three times. */
  ghost predicate CopyOk(s: State, c: Copy) {
    c.attempts < CONSUME_ATTEMPTS && c.message in s.entered
  }

  ghost predicate CopiesOk(s: State) {
    && (forall c :: c in s.queue ==> CopyOk(s, c))
    && (forall c :: c in s.dead ==> CopyOk(s, c))
    && (forall tag :: tag in s.unacked ==> CopyOk(s, s.unacked[tag].copy))
  }

  /** A row holds the message of its event id. */
  ghost predicate KeysOk(s: State) {
    && (forall e :: e in s.outbox ==>
          var m := s.outbox[e].message; m.eventId == e && (m.content.Conforming? ==> m.amount >= 1))
    && (forall e :: e in s.drafts ==> e in s.outbox && s.drafts[e].message == s.outbox[e].message)
  }

  /** What is marked published has reached the broker, and what reached the broker came from a row. */
  ghost predicate EnteredOk(s: State) {
    && (forall e :: e in s.outbox && s.outbox[e].status == Published ==> s.outbox[e].message in s.entered)
    && (forall e :: e in s.drafts && s.drafts[e].status == Published ==> s.drafts[e].message in s.entered)
    && (forall m :: m in s.entered ==> m.eventId in s.outbox && s.outbox[m.eventId].message == m)
  }

  ghost predicate AgreeOk(s: State) {
    forall d, e :: d in s.outbox && e in s.outbox ==> Agree(s.outbox[d].message, s.outbox[e].message)
  }

  ghost predicate RowsOk(s: State) {
    KeysOk(s) && EnteredOk(s) && AgreeOk(s)
  }

  lemma CopiesSent(s: State, e: string, act: SenderAct)
    requires CopiesOk(s) && MaySend(s, e, act)
    ensures CopiesOk(Sent(s, e, act))
  {
  }

  /** The consumer's side changes nothing of the sender's, and keeps copies of messages that entered. */
  lemma ConsumedFrame(s: State, tag: nat, act: ConsumerAct)
    requires CopiesOk(s) && MayConsume(s, tag, act)
    ensures var after := Consumed(s, tag, act);
      && after.outbox == s.outbox && after.drafts == s.drafts && after.entered == s.entered
  {
    hide Next, Apply, CopyOk, CopiesOk;
    match act
    case Receive(_) =>
    case Handle(_) =>
    case Republish(arrived, confirmed) => RepublishFrame(s, tag, arrived, confirmed);
    case _ =>
  }

  /** A next attempt is of a message that has already entered. */
  lemma RepublishFrame(s: State, tag: nat, arrived: bool, confirmed: bool)
    requires CopiesOk(s) && MayConsume(s, tag, Republish(arrived, confirmed))
    ensures var after := Consumed(s, tag, Republish(arrived, confirmed));
      && after.outbox == s.outbox && after.drafts == s.drafts && after.entered == s.entered
  {
    var c := s.unacked[tag].copy;
    assert CopyOk(s, c);
    assert s.entered + {c.message} == s.entered;
  }

  lemma CopiesConsumed(s: State, tag: nat, act: ConsumerAct)
    requires CopiesOk(s) && MayConsume(s, tag, act)
    ensures CopiesOk(Consumed(s, tag, act))
  {
    hide CopyOk, CopiesOk, Consumed, MayConsume;
    ConsumedFrame(s, tag, act);
    if act.Republish? {
      CopiesRepublished(s, tag, act.arrived, act.confirmed);
    } else {
      CopiesMoved(s, tag, act);
      CopiesStay(s, Consumed(s, tag, act));
    }
  }

  /** Every copy of the later state is one of the earlier state. */
  ghost predicate SameCopies(s: State, after: State) {
    forall c :: IsCopy(after, c) ==> IsCopy(s, c)
  }

  ghost predicate IsCopy(s: State, c: Copy) {
    c in s.queue || c in s.dead || exists tag :: tag in s.unacked && s.unacked[tag].copy == c
  }

  lemma CopiesStay(s: State, after: State)
    requires CopiesOk(s) && SameCopies(s, after) && after.entered == s.entered
    ensures CopiesOk(after)
  {
    forall c | IsCopy(after, c) ensures CopyOk(after, c) {
      assert IsCopy(s, c);
    }
    forall tag | tag in after.unacked ensures CopyOk(after, after.unacked[tag].copy) {
      assert IsCopy(after, after.unacked[tag].copy);
    }
  }

  lemma CopiesMoved(s: State, tag: nat, act: ConsumerAct)
    requires MayConsume(s, tag, act) && !act.Republish?
    ensures SameCopies(s, Consumed(s, tag, act))
  {
    hide Next, Apply;
  }

  lemma CopiesRepublished(s: State, tag: nat, arrived: bool, confirmed: bool)
    requires CopiesOk(s) && MayConsume(s, tag, Republish(arrived, confirmed))
    ensures CopiesOk(Consumed(s, tag, Republish(arrived, confirmed)))
  {
    hide CopyOk;
    RepublishFrame(s, tag, arrived, confirmed);
    var after := Consumed(s, tag, Republish(arrived, confirmed));
    forall c ensures CopyOk(s, c) ==> CopyOk(after, c) {
      CopyStays(s, after, c);
    }
    NextAttemptOk(s, tag);
  }

  lemma CopyStays(s: State, after: State, c: Copy)
    requires after.entered == s.entered
    ensures CopyOk(s, c) ==> CopyOk(after, c)
  {
  }

  lemma NextAttemptOk(s: State, tag: nat)
    requires CopiesOk(s) && tag in s.unacked && s.unacked[tag].copy.attempts + 1 < CONSUME_ATTEMPTS
    ensures var c := s.unacked[tag].copy; CopyOk(s, c.(attempts := c.attempts + 1))
  {
  }

  lemma KeysSent(s: State, e: string, act: SenderAct)
    requires KeysOk(s) && MaySend(s, e, act)
    ensures KeysOk(Sent(s, e, act))
  {
    hide Agree;
  }

  lemma EnteredSent(s: State, e: string, act: SenderAct)
    requires KeysOk(s) && EnteredOk(s) && MaySend(s, e, act)
    ensures EnteredOk(Sent(s, e, act))
  {
    hide Agree;
  }

  lemma AgreeSent(s: State, e: string, act: SenderAct)
    requires KeysOk(s) && AgreeOk(s) && MaySend(s, e, act)
    ensures AgreeOk(Sent(s, e, act))
  {
  }

  /** The sender's side of the state, when the step is not the sender's. */
  lemma RowsFrame(s: State, after: State)
    requires RowsOk(s) && after.outbox == s.outbox && after.drafts == s.drafts && after.entered == s.entered
    ensures RowsOk(after)
  {
  }

  // ---- Conservation ---------------------------------------------------------------------------------------

  ghost predicate Queued(s: State, m: Message) {
    exists c :: c in s.queue && c.message == m
  }

  ghost predicate Dead(s: State, m: Message) {
    exists c :: c in s.dead && c.message == m
  }

  /** A delivery that still answers for its message: no effect committed and no next attempt confirmed. */
  ghost predicate Carried(s: State, m: Message) {
    exists tag :: tag in s.unacked && s.unacked[tag].copy.message == m
               && (s.unacked[tag].phase.Received? || s.unacked[tag].phase.Refused? || s.unacked[tag].phase.Stuck?)
  }

  ghost predicate Represented(s: State, m: Message) {
    Queued(s, m) || Carried(s, m) || Dead(s, m) || m.eventId in s.db.processed
  }

  ghost predicate Conserved(s: State) {
    && (forall m :: m in s.entered && Kept(m) ==> Represented(s, m))
    && (forall tag :: tag in s.unacked && s.unacked[tag].phase.Handled? ==>
          s.unacked[tag].copy.message.eventId in s.db.processed)
    && (forall tag :: tag in s.unacked && !s.unacked[tag].phase.Received? ==> Kept(s.unacked[tag].copy.message))
  }

  lemma ConservedSent(s: State, e: string, act: SenderAct)
    requires Conserved(s) && MaySend(s, e, act)
    ensures Conserved(Sent(s, e, act))
  {
    hide Agree;
    var after := Sent(s, e, act);
    forall m | m in after.entered && Kept(m) ensures Represented(after, m) {
      if m in s.entered {
        RepresentedSent(s, e, act, m);
      } else {
        assert Copy(m, 0) in after.queue;
      }
    }
  }

  lemma RepresentedSent(s: State, e: string, act: SenderAct, m: Message)
    requires Represented(s, m) && MaySend(s, e, act)
    ensures Represented(Sent(s, e, act), m)
  {
    hide Agree;
    assert s.queue <= Sent(s, e, act).queue;
  }

  lemma QueuedConsumed(s: State, tag: nat, act: ConsumerAct, m: Message)
    requires Queued(s, m) && MayConsume(s, tag, act)
    ensures Represented(Consumed(s, tag, act), m)
  {
    hide Next, Apply;
    var after := Consumed(s, tag, act);
    var c :| c in s.queue && c.message == m;
    if act.Receive? && act.copy == c {
      assert after.unacked[tag].copy.message == m;
    } else {
      assert c in after.queue;
    }
  }

  lemma CarriedConsumed(s: State, tag: nat, act: ConsumerAct, m: Message)
    requires Carried(s, m) && Kept(m) && MayConsume(s, tag, act)
    requires !InPhase(s, tag, Handled) && !InPhase(s, tag, Copied)
    ensures Represented(Consumed(s, tag, act), m)
  {
    hide Next, Apply;
    var after := Consumed(s, tag, act);
    var d :| d in s.unacked && s.unacked[d].copy.message == m
          && (s.unacked[d].phase.Received? || s.unacked[d].phase.Refused? || s.unacked[d].phase.Stuck?);
    if d != tag {
      assert after.unacked[d] == s.unacked[d];
    } else {
      var c := s.unacked[d].copy;
      match act
      case Handle(told) => HandleProcesses(s, tag, told);
      case Nack => assert c in after.dead;
      case Republish(arrived, confirmed) =>
        assert confirmed ==> c.(attempts := c.attempts + 1) in after.queue;
        assert !confirmed ==> after.unacked[d].copy == c;
      case Redeliver => assert c in after.queue;
      case Fail => assert after.unacked[d].copy == c;
      case _ =>
    }
  }

  lemma HandleProcesses(s: State, tag: nat, told: bool)
    requires MayConsume(s, tag, Handle(told))
    ensures s.unacked[tag].copy.message.eventId in Consumed(s, tag, Handle(told)).db.processed
  {
  }

  /** A payment event only ever adds itself to the processed ones. */
  lemma ProcessedConsumed(s: State, tag: nat, act: ConsumerAct)
    requires MayConsume(s, tag, act)
    ensures s.db.processed <= Consumed(s, tag, act).db.processed
    ensures s.dead <= Consumed(s, tag, act).dead
  {
  }

  lemma RepresentedConsumed(s: State, tag: nat, act: ConsumerAct, m: Message)
    requires Conserved(s) && Represented(s, m) && Kept(m) && MayConsume(s, tag, act)
    ensures Represented(Consumed(s, tag, act), m)
  {
    ProcessedConsumed(s, tag, act);
    hide Next, Apply, Consumed, MayConsume;
    if Queued(s, m) {
      QueuedConsumed(s, tag, act, m);
    } else if Carried(s, m) {
      CarriedOrDone(s, tag, act, m);
    }
  }

  lemma CarriedOrDone(s: State, tag: nat, act: ConsumerAct, m: Message)
    requires Carried(s, m) && Kept(m) && MayConsume(s, tag, act)
    ensures Represented(Consumed(s, tag, act), m)
  {
    if InPhase(s, tag, Handled) || InPhase(s, tag, Copied) {
      hide Next, Apply;
      var after := Consumed(s, tag, act);
      var d :| d in s.unacked && s.unacked[d].copy.message == m
            && (s.unacked[d].phase.Received? || s.unacked[d].phase.Refused? || s.unacked[d].phase.Stuck?);
      assert after.unacked[d] == s.unacked[d];
    } else {
      CarriedConsumed(s, tag, act, m);
    }
  }

  lemma PhasesConsumed(s: State, tag: nat, act: ConsumerAct)
    requires Conserved(s) && MayConsume(s, tag, act)
    ensures var after := Consumed(s, tag, act);
      && (forall d :: d in after.unacked && after.unacked[d].phase.Handled? ==>
            after.unacked[d].copy.message.eventId in after.db.processed)
      && (forall d :: d in after.unacked && !after.unacked[d].phase.Received? ==> Kept(after.unacked[d].copy.message))
  {
    ProcessedConsumed(s, tag, act);
    if act.Handle? {
      HandleProcesses(s, tag, act.told);
    }
    hide Represented, Next, Apply;
    DeliveriesConsumed(s, tag, act);
    hide Consumed, MayConsume;
  }

  /** A step answers for its own delivery only. */
  lemma DeliveriesConsumed(s: State, tag: nat, act: ConsumerAct)
    requires MayConsume(s, tag, act)
    ensures var after := Consumed(s, tag, act);
      && (forall d :: d in after.unacked && d != tag ==> d in s.unacked && after.unacked[d] == s.unacked[d])
      && (tag in after.unacked && tag in s.unacked ==> after.unacked[tag].copy == s.unacked[tag].copy)
      && (tag in after.unacked && after.unacked[tag].phase.Handled? ==> act.Handle?)
      && (tag in after.unacked && tag !in s.unacked ==> after.unacked[tag].phase.Received?)
      && (act.Handle? || act.Fail? ==> Kept(s.unacked[tag].copy.message))
      && (tag in after.unacked && tag in s.unacked && !act.Handle? && !act.Fail? ==> !s.unacked[tag].phase.Received?)
  {
    hide Next, Apply;
  }

  lemma ConservedConsumed(s: State, tag: nat, act: ConsumerAct)
    requires CopiesOk(s) && Conserved(s) && MayConsume(s, tag, act)
    ensures Conserved(Consumed(s, tag, act))
  {
    hide Consumed, MayConsume, Represented, CopiesOk;
    ConsumedFrame(s, tag, act);
    PhasesConsumed(s, tag, act);
    forall m | m in s.entered && Kept(m) ensures Represented(Consumed(s, tag, act), m) {
      RepresentedConsumed(s, tag, act, m);
    }
  }

  // ---- Effects --------------------------------------------------------------------------------------------

  ghost predicate IsApplied(s: State, e: string) {
    exists i :: 0 <= i < |s.applied| && s.applied[i].eventId == e
  }

  ghost predicate IsBooked(s: State, p: Payment) {
    exists i :: 0 <= i < |s.applied| && PaymentOf(s.applied[i]) == p
  }

  /** The committed effects are those of distinct events, and the payment rows are exactly their payments. */
  ghost predicate EffectsOk(s: State) {
    && (forall i :: 0 <= i < |s.applied| ==> s.applied[i].content.Conforming? && s.applied[i] in s.entered)
    && (forall i, j :: 0 <= i < j < |s.applied| ==> s.applied[i].eventId != s.applied[j].eventId)
    && (forall e :: e in s.db.processed <==> IsApplied(s, e))
    && (forall k :: 0 <= k < |s.db.payments| ==> IsBooked(s, s.db.payments[k]))
    && (forall i :: 0 <= i < |s.applied| ==> PaymentOf(s.applied[i]) in s.db.payments)
  }

  lemma EffectsFrame(s: State, after: State)
    requires EffectsOk(s) && after.applied == s.applied && s.entered <= after.entered
    requires after.db.processed == s.db.processed && after.db.payments == s.db.payments
    ensures EffectsOk(after)
  {
  }

  /** Only the consumer writes payments and processed events. */
  lemma BillingFrame(db: Db, op: Op)
    requires !op.OpPay?
    ensures Next(db, op).payments == db.payments && Next(db, op).processed == db.processed
  {
    hide TotalsOf, ToItems, CreditItems, Numbered, PaidOre, HasPaymentFor, NewInvoice, CreditNoteFor, ReminderFor;
    hide GeneratedFrom;
  }

  /** The payment row of a handled event is there afterwards. */
  lemma PaymentIsThere(s: State, m: Message)
    requires RowsOk(s) && EffectsOk(s) && m in s.entered && m.content.Conforming?
    ensures PaymentOf(m) in WithPayment(s.db.payments, PaymentOf(m))
  {
  }

  lemma PayWrites(db: Db, m: Message)
    ensures Apply(db, PayOp(m)).Committed? ==>
              && m.eventId !in db.processed && Next(db, PayOp(m)).processed == db.processed + {m.eventId}
              && Next(db, PayOp(m)).payments == WithPayment(db.payments, PaymentOf(m))
    ensures !Apply(db, PayOp(m)).Committed? ==> Next(db, PayOp(m)) == db
  {
  }

  lemma EffectsHandled(s: State, tag: nat, told: bool)
    requires RowsOk(s) && CopiesOk(s) && EffectsOk(s) && MayConsume(s, tag, Handle(told))
    ensures EffectsOk(Consumed(s, tag, Handle(told)))
  {
    var after := Consumed(s, tag, Handle(told));
    var m := s.unacked[tag].copy.message;
    assert CopyOk(s, s.unacked[tag].copy);
    PayWrites(s.db, m);
    if Apply(s.db, PayOp(m)).Committed? {
      PaymentIsThere(s, m);
      hide Next, Apply, RowsOk, CopiesOk;
      EffectsAdded(s, after, m);
    } else {
      EffectsFrame(s, after);
    }
  }

  lemma EffectsAdded(s: State, after: State, m: Message)
    requires EffectsOk(s) && m.content.Conforming? && m in s.entered
    requires after.entered == s.entered && after.applied == s.applied + [m]
    requires m.eventId !in s.db.processed && after.db.processed == s.db.processed + {m.eventId}
    requires after.db.payments == WithPayment(s.db.payments, PaymentOf(m)) && PaymentOf(m) in after.db.payments
    ensures EffectsOk(after)
  {
    hide HasPaymentKey;
    assert forall i :: 0 <= i < |s.applied| ==> after.applied[i] == s.applied[i];
    assert after.applied[|s.applied|] == m;
    forall i | 0 <= i < |s.applied| ensures s.applied[i].eventId != m.eventId {
      assert IsApplied(s, s.applied[i].eventId);
    }
    forall e ensures e in after.db.processed <==> IsApplied(after, e) {
      AppliedAdded(s, after, m, e);
    }
    forall k | 0 <= k < |after.db.payments| ensures IsBooked(after, after.db.payments[k]) {
      if k < |s.db.payments| {
        assert IsBooked(s, s.db.payments[k]);
        var i :| 0 <= i < |s.applied| && PaymentOf(s.applied[i]) == s.db.payments[k];
        assert PaymentOf(after.applied[i]) == after.db.payments[k];
      } else {
        assert PaymentOf(after.applied[|s.applied|]) == after.db.payments[k];
      }
    }
    assert s.db.payments <= after.db.payments;
  }

  lemma AppliedAdded(s: State, after: State, m: Message, e: string)
    requires after.applied == s.applied + [m]
    ensures IsApplied(after, e) <==> IsApplied(s, e) || e == m.eventId
  {
    if IsApplied(s, e) {
      var i :| 0 <= i < |s.applied| && s.applied[i].eventId == e;
      assert after.applied[i] == s.applied[i];
    }
    assert after.applied[|s.applied|] == m;
  }

  // ---- Runs -------------------------------------------------------------------------------------------------

  ghost predicate Ok(s: State) {
    Inv(s.db) && CopiesOk(s) && RowsOk(s) && Conserved(s) && EffectsOk(s)
  }

  lemma SentFrame(s: State, e: string, act: SenderAct)
    requires MaySend(s, e, act)
    ensures var after := Sent(s, e, act); after.db == s.db && after.applied == s.applied && s.entered <= after.entered
  {
  }

  lemma SentKeeps(s: State, e: string, act: SenderAct)
    requires Ok(s) && MaySend(s, e, act)
    ensures Ok(Sent(s, e, act))
  {
    hide Inv, CopiesOk, KeysOk, EnteredOk, AgreeOk, Conserved, EffectsOk, Sent, MaySend;
    CopiesSent(s, e, act);
    KeysSent(s, e, act);
    EnteredSent(s, e, act);
    AgreeSent(s, e, act);
    ConservedSent(s, e, act);
    SentFrame(s, e, act);
    EffectsFrame(s, Sent(s, e, act));
  }

  lemma ConsumedKeeps(s: State, tag: nat, act: ConsumerAct)
    requires Ok(s) && MayConsume(s, tag, act)
    ensures Ok(Consumed(s, tag, act))
  {
    hide Inv, CopiesOk, RowsOk, Conserved, EffectsOk, Represented, Next, Apply;
    CopiesConsumed(s, tag, act);
    ConsumedFrame(s, tag, act);
    RowsFrame(s, Consumed(s, tag, act));
    ConservedConsumed(s, tag, act);
    if act.Handle? {
      EffectsHandled(s, tag, act.told);
      HandleKeepsInv(s, tag, act.told);
    } else {
      EffectsFrame(s, Consumed(s, tag, act));
    }
  }

  lemma HandleKeepsInv(s: State, tag: nat, told: bool)
    requires Inv(s.db) && RowsOk(s) && CopiesOk(s) && MayConsume(s, tag, Handle(told))
    ensures Inv(Consumed(s, tag, Handle(told)).db)
  {
    hide Inv, Next, Apply, Agree;
    assert CopyOk(s, s.unacked[tag].copy);
    StepKeeps(s.db, PayOp(s.unacked[tag].copy.message));
  }

  /** More copies, more processed events, and nothing else of the transport. */
  lemma TransportFrame(s: State, after: State)
    requires CopiesOk(s) && Conserved(s)
    requires s.queue <= after.queue && after.dead == s.dead && after.unacked == s.unacked && after.entered == s.entered
    requires forall c :: c in after.queue ==> c in s.queue
    requires s.db.processed <= after.db.processed
    ensures CopiesOk(after) && Conserved(after)
  {
  }

  lemma DuplicateKeeps(s: State, c: Copy)
    requires Ok(s) && c in s.queue
    ensures Ok(s.(queue := s.queue + multiset{c}))
  {
    hide Inv, CopiesOk, Conserved, EffectsOk, KeysOk, EnteredOk, AgreeOk;
    var after := s.(queue := s.queue + multiset{c});
    RowsFrame(s, after);
    TransportFrame(s, after);
    EffectsFrame(s, after);
  }

  lemma BillingKeeps(s: State, op: Op)
    requires Ok(s) && !op.OpPay? && Enabled(s.db, op)
    ensures Ok(s.(db := Next(s.db, op)))
  {
    hide Inv, CopiesOk, Conserved, EffectsOk, KeysOk, EnteredOk, AgreeOk, Next, Enabled;
    var after := s.(db := Next(s.db, op));
    StepKeeps(s.db, op);
    BillingFrame(s.db, op);
    RowsFrame(s, after);
    TransportFrame(s, after);
    EffectsFrame(s, after);
  }

  lemma StepKeepsOk(s: State, step: Step)
    requires Ok(s) && MayStep(s, step)
    ensures Ok(Do(s, step))
  {
    hide Ok, Sent, MaySend, Consumed, MayConsume, Next, Enabled;
    match step
    case Sender(e, act) => SentKeeps(s, e, act);
    case Consumer(tag, act) => ConsumedKeeps(s, tag, act);
    case Duplicate(c) => DuplicateKeeps(s, c);
    case Billing(op) => BillingKeeps(s, op);
  }

  ghost predicate MayRun(s: State, steps: seq<Step>)
    decreases |steps|
  {
    steps == [] || (MayStep(s, steps[0]) && MayRun(Do(s, steps[0]), steps[1..]))
  }

  ghost function Ran(s: State, steps: seq<Step>): State
    requires MayRun(s, steps)
    decreases |steps|
  {
    if steps == [] then s else Ran(Do(s, steps[0]), steps[1..])
  }

  lemma {:induction false} RanOk(s: State, steps: seq<Step>)
    requires Ok(s) && MayRun(s, steps)
    ensures Ok(Ran(s, steps))
    decreases |steps|
  {
    hide Ok, MayStep, Do;
    if steps != [] {
      StepKeepsOk(s, steps[0]);
      RanOk(Do(s, steps[0]), steps[1..]);
    }
  }

  /**
   Every event takes effect at most once and every (tenant, payment id) is in the ledger at most once, and
   the ledger's rows are exactly the payments of the events that took effect.
   */
  lemma ExactlyOnce(steps: seq<Step>)
    requires MayRun(INITIAL, steps)
    ensures var s := Ran(INITIAL, steps);
      && (forall i, j :: 0 <= i < j < |s.applied| ==> s.applied[i].eventId != s.applied[j].eventId)
      && (forall e :: e in s.db.processed <==> IsApplied(s, e))
      && (forall j, k :: 0 <= j < k < |s.db.payments| ==>
            || s.db.payments[j].tenant != s.db.payments[k].tenant
            || s.db.payments[j].paymentId != s.db.payments[k].paymentId)
      && (set p | p in s.db.payments) == (set i | 0 <= i < |s.applied| :: PaymentOf(s.applied[i]))
  {
    hide MayRun, Ran;
    InitialOk();
    RanOk(INITIAL, steps);
    var s := Ran(INITIAL, steps);
    assert EffectsOk(s) && PaymentsOk(s.db);
    hide Ok;
    RowsAreApplied(s);
  }

  lemma RowsAreApplied(s: State)
    requires EffectsOk(s)
    ensures (set p | p in s.db.payments) == (set i | 0 <= i < |s.applied| :: PaymentOf(s.applied[i]))
  {
  }

  lemma InitialOk()
    ensures Ok(INITIAL)
  {
    EmptyInv();
  }

  /**
   No payment is lost, what cannot be parsed included, and none is tried more than three times: whatever the broker
   ever held, published rows included, is a queued copy, an unanswered delivery, a dead letter or a committed effect.
   */
  lemma NothingIsLost(steps: seq<Step>, m: Message)
    requires MayRun(INITIAL, steps) && m.content != Nonconforming
    ensures var s := Ran(INITIAL, steps);
      && (m in s.entered ==> Represented(s, m))
      && (m.eventId in s.outbox && s.outbox[m.eventId] == OutRow(m, Published, s.outbox[m.eventId].attempts) ==>
            Represented(s, m))
      && (forall c :: c in s.queue || c in s.dead ==> c.attempts < 3)
      && (forall tag :: tag in s.unacked ==> s.unacked[tag].copy.attempts < 3)
  {
    hide MayRun, Ran, Represented;
    InitialOk();
    RanOk(INITIAL, steps);
    var s := Ran(INITIAL, steps);
    assert CopiesOk(s) && EnteredOk(s) && Conserved(s);
    assert forall c :: c in s.queue || c in s.dead ==> CopyOk(s, c);
    assert forall tag :: tag in s.unacked ==> CopyOk(s, s.unacked[tag].copy);
  }

  // ---- The booked sum -------------------------------------------------------------------------------------

  function AmountOf(p: Payment): int {
    p.amount
  }

  /** The payments booked on an invoice. */
  ghost function RowsOn(payments: seq<Payment>, t: nat, id: nat): set<Payment> {
    set p | p in payments && p.tenant == t && p.invoice == id
  }

  lemma RowsOnAppend(payments: seq<Payment>, p: Payment, t: nat, id: nat)
    ensures RowsOn(payments + [p], t, id) ==
            RowsOn(payments, t, id) + (if p.tenant == t && p.invoice == id then {p} else {})
  {
  }

  lemma LastApart(payments: seq<Payment>, p: Payment, t: nat, id: nat)
    requires p !in payments
    ensures p !in RowsOn(payments, t, id)
  {
  }

  lemma NoRows(t: nat, id: nat)
    ensures PaidOre([], t, id) == 0 && LedgerMoney.Sum(RowsOn([], t, id), AmountOf) == 0
  {
  }

  /** Rows with distinct payment ids add up as a set. */
  lemma {:induction false} PaidIsSum(payments: seq<Payment>, t: nat, id: nat)
    requires forall j, k :: 0 <= j < k < |payments| ==> payments[j] != payments[k]
    ensures PaidOre(payments, t, id) == LedgerMoney.Sum(RowsOn(payments, t, id), AmountOf)
  {
    hide PaidOre, RowsOn, LedgerMoney.Sum;
    if payments == [] {
      NoRows(t, id);
    } else {
      var init, last := payments[..|payments| - 1], payments[|payments| - 1];
      assert payments == init + [last];
      PaidIsSum(init, t, id);
      PaidOreAppend(init, last, t, id);
      RowsOnAppend(init, last, t, id);
      if last.tenant == t && last.invoice == id {
        LastApart(init, last, t, id);
        LedgerMoney.SumInsert(RowsOn(init, t, id), AmountOf, last);
      } else {
        assert RowsOn(init, t, id) + {} == RowsOn(init, t, id);
      }
    }
  }

  /** What is booked on an invoice is the sum over the distinct payments applied to it, however often each came. */
  lemma BookedIsApplied(steps: seq<Step>, t: nat, id: nat)
    requires MayRun(INITIAL, steps)
    ensures var s := Ran(INITIAL, steps);
            PaidOre(s.db.payments, t, id) == LedgerMoney.Sum(
              set i | 0 <= i < |s.applied| && s.applied[i].tenant == t && s.applied[i].invoice == id ::
                PaymentOf(s.applied[i]),
              AmountOf)
  {
    hide MayRun, Ran;
    ExactlyOnce(steps);
    var s := Ran(INITIAL, steps);
    PaidIsSum(s.db.payments, t, id);
    var all := set i | 0 <= i < |s.applied| :: PaymentOf(s.applied[i]);
    var on := set i | 0 <= i < |s.applied| && s.applied[i].tenant == t && s.applied[i].invoice == id ::
                PaymentOf(s.applied[i]);
    assert forall p :: p in on <==> p in all && p.tenant == t && p.invoice == id;
    assert RowsOn(s.db.payments, t, id) == on by {
      assert forall p :: p in s.db.payments <==> p in (set q | q in s.db.payments);
    }
  }
}
