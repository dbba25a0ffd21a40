/** The payment consumer's handling of one delivery, as it updates the ledger and answers the broker. */
module Consumer {
  import opened Broker
  import opened Billing
  import Ledger

  /** What a republish gets back: confirmed, or an error with or without the copy having arrived. */
  datatype Answer = Confirmed | LostAfterArrival | Lost

  /** Whether the booking transaction fails for a transient reason: before its commit, or with only the answer lost. */
  datatype Trouble = Untroubled | BeforeCommit | AfterCommit

  /** The booking transaction commits. */
  predicate Books(db: Ledger.Db, m: Message, trouble: Trouble) {
    m.content.Conforming? && !trouble.BeforeCommit? && !Ledger.Apply(db, PayOp(m)).Rejected?
  }

  /** The acts the consumer takes on a delivery that was just received. */
  function Acts(s: State, tag: nat, trouble: Trouble, answer: Answer): seq<ConsumerAct>
    requires tag in s.unacked
  {
    var c := s.unacked[tag].copy;
    if !Kept(c.message) then [Drop]
    else if Books(s.db, c.message, trouble) then
      if trouble.AfterCommit? then [Handle(false)] + RetryActs(c, answer) else [Handle(true), Ack]
    else [Fail] + RetryActs(c, answer)
  }

  function RetryActs(c: Copy, answer: Answer): seq<ConsumerAct> {
    if c.attempts + 1 >= CONSUME_ATTEMPTS then [Nack]
    else if answer.Confirmed? then [Republish(true, true), Ack]
    else [Republish(answer.LostAfterArrival?, false)]
  }

  predicate MayAll(s: State, tag: nat, acts: seq<ConsumerAct>)
    decreases |acts|
  {
    acts == [] || (MayConsume(s, tag, acts[0]) && MayAll(Consumed(s, tag, acts[0]), tag, acts[1..]))
  }

  function All(s: State, tag: nat, acts: seq<ConsumerAct>): State
    requires MayAll(s, tag, acts)
    decreases |acts|
  {
    if acts == [] then s else All(Consumed(s, tag, acts[0]), tag, acts[1..])
  }

  lemma AllTwo(s: State, tag: nat, a: ConsumerAct, b: ConsumerAct)
    requires MayConsume(s, tag, a) && MayConsume(Consumed(s, tag, a), tag, b)
    ensures MayAll(s, tag, [a, b]) && All(s, tag, [a, b]) == Consumed(Consumed(s, tag, a), tag, b)
  {
    hide Consumed, MayConsume;
    assert [a, b][1..] == [b];
    AllOne(Consumed(s, tag, a), tag, b);
  }

  lemma AllOne(s: State, tag: nat, a: ConsumerAct)
    requires MayConsume(s, tag, a)
    ensures MayAll(s, tag, [a]) && All(s, tag, [a]) == Consumed(s, tag, a)
  {
  }

  lemma AllFirst(s: State, tag: nat, a: ConsumerAct, rest: seq<ConsumerAct>)
    requires MayConsume(s, tag, a) && MayAll(Consumed(s, tag, a), tag, rest)
    ensures MayAll(s, tag, [a] + rest) && All(s, tag, [a] + rest) == All(Consumed(s, tag, a), tag, rest)
  {
    hide Consumed, MayConsume;
    assert ([a] + rest)[1..] == rest;
  }

  /** The state after the acts, branch by branch. */
  function Outcome(s: State, tag: nat, trouble: Trouble, answer: Answer): State
    requires tag in s.unacked
  {
    var m := s.unacked[tag].copy.message;
    if !Kept(m) then s.(unacked := s.unacked - {tag})
    else if Books(s.db, m, trouble) then
      if trouble.AfterCommit? then AfterFailure(Booked(s, m), tag, answer)
      else Booked(s, m).(unacked := s.unacked - {tag})
    else AfterFailure(s, tag, answer)
  }

  /** The ledger's part of a booking that commits. */
  function Booked(s: State, m: Message): State {
    s.(db := Ledger.Next(s.db, PayOp(m)),
       applied := if Ledger.Apply(s.db, PayOp(m)).Committed? then s.applied + [m] else s.applied)
  }

  /** A third failure is dead-lettered; otherwise the next attempt is queued, if the broker takes it. */
  function AfterFailure(s: State, tag: nat, answer: Answer): State
    requires tag in s.unacked
  {
    var c := s.unacked[tag].copy;
    var rest := s.unacked - {tag};
    if c.attempts + 1 >= CONSUME_ATTEMPTS then s.(unacked := rest, dead := s.dead + multiset{c})
    else
      var sent := if answer.Lost? then s else Enqueued(s, c.(attempts := c.attempts + 1));
      sent.(unacked := if answer.Confirmed? then rest else s.unacked[tag := Delivery(c, Stuck)])
  }

  /** Handling a delivery is a run of consumer acts of the protocol. */
  lemma OutcomeIsActs(s: State, tag: nat, trouble: Trouble, answer: Answer)
    requires InPhase(s, tag, Received)
    ensures MayAll(s, tag, Acts(s, tag, trouble, answer))
    ensures All(s, tag, Acts(s, tag, trouble, answer)) == Outcome(s, tag, trouble, answer)
  {
    hide Ledger.Apply, Ledger.Next, MayAll, All, RetryActs, AfterFailure, Consumed, MayConsume;
    var c := s.unacked[tag].copy;
    if !Kept(c.message) {
      DropStep(s, tag);
      AllOne(s, tag, Drop);
    } else if Books(s.db, c.message, trouble) {
      HandleStep(s, tag, trouble);
      if trouble.AfterCommit? {
        RetryIsActs(Booked(s, c.message), tag, answer);
        AllFirst(s, tag, Handle(false), RetryActs(c, answer));
      } else {
        AllTwo(s, tag, Handle(true), Ack);
      }
    } else {
      FailStep(s, tag);
      RetryIsActs(s, tag, answer);
      AllFirst(s, tag, Fail, RetryActs(c, answer));
    }
  }

  lemma DropStep(s: State, tag: nat)
    requires InPhase(s, tag, Received) && !Kept(s.unacked[tag].copy.message)
    ensures MayConsume(s, tag, Drop) && Consumed(s, tag, Drop) == s.(unacked := s.unacked - {tag})
  {
  }

  /** The booking, and what follows if the consumer gets to know of it. */
  lemma HandleStep(s: State, tag: nat, trouble: Trouble)
    requires InPhase(s, tag, Received) && Books(s.db, s.unacked[tag].copy.message, trouble)
    ensures var c := s.unacked[tag].copy; var told := !trouble.AfterCommit?;
      && MayConsume(s, tag, Handle(told))
      && (!told ==> Consumed(s, tag, Handle(told))
                    == WithPhase(Booked(s, c.message), tag, Refused))
      && (told ==> MayConsume(Consumed(s, tag, Handle(told)), tag, Ack)
                   && Consumed(Consumed(s, tag, Handle(told)), tag, Ack)
                      == Booked(s, c.message).(unacked := s.unacked - {tag}))
  {
    hide Ledger.Apply, Ledger.Next;
    Overwritten(s.unacked, tag, s.unacked[tag], s.unacked[tag].(phase := Handled));
  }

  function WithPhase(s: State, tag: nat, phase: Phase): State
    requires tag in s.unacked
  {
    s.(unacked := s.unacked[tag := Delivery(s.unacked[tag].copy, phase)])
  }

  /** What the consumer does once it takes the delivery for failed, whatever the ledger says. */
  lemma RetryIsActs(s: State, tag: nat, answer: Answer)
    requires tag in s.unacked
    ensures var acts := RetryActs(s.unacked[tag].copy, answer); var refused := WithPhase(s, tag, Refused);
      MayAll(refused, tag, acts) && All(refused, tag, acts) == AfterFailure(s, tag, answer)
  {
    hide MayAll, All, WithPhase, AfterFailure;
    if s.unacked[tag].copy.attempts + 1 >= CONSUME_ATTEMPTS {
      NackIsActs(s, tag, answer);
    } else if answer.Confirmed? {
      ConfirmedIsActs(s, tag);
    } else {
      LostIsActs(s, tag, answer);
    }
  }

  lemma NackIsActs(s: State, tag: nat, answer: Answer)
    requires tag in s.unacked && s.unacked[tag].copy.attempts + 1 >= CONSUME_ATTEMPTS
    ensures var refused := WithPhase(s, tag, Refused);
      MayAll(refused, tag, [Nack]) && All(refused, tag, [Nack]) == AfterFailure(s, tag, answer)
  {
    hide MayAll, All, Consumed, MayConsume;
    var refused := WithPhase(s, tag, Refused);
    Overwritten(s.unacked, tag, Delivery(s.unacked[tag].copy, Refused), s.unacked[tag]);
    NackStep(refused, tag);
    AllOne(refused, tag, Nack);
  }

  lemma ConfirmedIsActs(s: State, tag: nat)
    requires tag in s.unacked && s.unacked[tag].copy.attempts + 1 < CONSUME_ATTEMPTS
    ensures var acts := [Republish(true, true), Ack]; var refused := WithPhase(s, tag, Refused);
      MayAll(refused, tag, acts) && All(refused, tag, acts) == AfterFailure(s, tag, Confirmed)
  {
    hide MayAll, All, Consumed, MayConsume, Enqueued;
    var c := s.unacked[tag].copy;
    var refused := WithPhase(s, tag, Refused);
    RepublishStep(refused, tag, Confirmed);
    Overwritten(s.unacked, tag, Delivery(c, Refused), Delivery(c, Copied));
    AllTwo(refused, tag, Republish(true, true), Ack);
    SentElsewhere(s, refused.unacked, c.(attempts := c.attempts + 1));
  }

  lemma LostIsActs(s: State, tag: nat, answer: Answer)
    requires tag in s.unacked && s.unacked[tag].copy.attempts + 1 < CONSUME_ATTEMPTS && !answer.Confirmed?
    ensures var acts := [Republish(answer.LostAfterArrival?, false)]; var refused := WithPhase(s, tag, Refused);
      MayAll(refused, tag, acts) && All(refused, tag, acts) == AfterFailure(s, tag, answer)
  {
    hide MayAll, All, Consumed, MayConsume, Enqueued;
    var c := s.unacked[tag].copy;
    var refused := WithPhase(s, tag, Refused);
    RepublishStep(refused, tag, answer);
    Overwritten(s.unacked, tag, Delivery(c, Refused), Delivery(c, Stuck));
    AllOne(refused, tag, Republish(answer.LostAfterArrival?, false));
    SentElsewhere(s, refused.unacked, c.(attempts := c.attempts + 1));
  }

  lemma NackStep(s: State, tag: nat)
    requires InPhase(s, tag, Refused) && s.unacked[tag].copy.attempts + 1 >= CONSUME_ATTEMPTS
    ensures MayConsume(s, tag, Nack)
    ensures Consumed(s, tag, Nack)
         == s.(unacked := s.unacked - {tag}, dead := s.dead + multiset{s.unacked[tag].copy})
  {
  }

  /** Queueing a copy does not look at the deliveries. */
  lemma SentElsewhere(s: State, unacked: map<nat, Delivery>, c: Copy)
    ensures forall u: map<nat, Delivery> ::
              Enqueued(s.(unacked := unacked), c).(unacked := u) == Enqueued(s, c).(unacked := u)
  {
  }

  lemma Overwritten(unacked: map<nat, Delivery>, tag: nat, c: Delivery, d: Delivery)
    ensures unacked[tag := c][tag := d] == unacked[tag := d] && unacked[tag := c][tag := d] - {tag} == unacked - {tag}
  {
  }

  lemma FailStep(s: State, tag: nat)
    requires InPhase(s, tag, Received) && Kept(s.unacked[tag].copy.message)
    ensures MayConsume(s, tag, Fail) && Consumed(s, tag, Fail) == WithPhase(s, tag, Refused)
  {
    hide Ledger.Apply, Ledger.Next;
  }

  /** The next attempt of a failed delivery, and its acknowledgement if the broker has confirmed it. */
  lemma RepublishStep(s: State, tag: nat, answer: Answer)
    requires InPhase(s, tag, Refused) && s.unacked[tag].copy.attempts + 1 < CONSUME_ATTEMPTS
    ensures var c := s.unacked[tag].copy; var act := Republish(!answer.Lost?, answer.Confirmed?);
            var sent := if answer.Lost? then s else Enqueued(s, c.(attempts := c.attempts + 1));
            var tried := sent.(unacked := s.unacked[tag := Delivery(c, if answer.Confirmed? then Copied else Stuck)]);
      && MayConsume(s, tag, act) && Consumed(s, tag, act) == tried
      && (answer.Confirmed? ==>
            MayConsume(tried, tag, Ack) && Consumed(tried, tag, Ack) == tried.(unacked := tried.unacked - {tag}))
  {
    hide Ledger.Apply, Ledger.Next;
  }

  // ---- What becomes of a delivery ------------------------------------------------------------------------

  /** The ledger has had the event, or has the invoice it pays. */
  predicate Bookable(db: Ledger.Db, m: Message) {
    m.eventId in db.processed || (m.invoice in db.invoices && db.invoices[m.invoice].tenant == m.tenant)
  }

  /** Content that violates a schema is acknowledged and thrown away. */
  lemma NonconformingIsDropped(s: State, tag: nat, trouble: Trouble, answer: Answer)
    requires InPhase(s, tag, Received) && s.unacked[tag].copy.message.content.Nonconforming?
    ensures Outcome(s, tag, trouble, answer) == s.(unacked := s.unacked - {tag})
  {
  }

  /**
   A payment whose event the ledger has had, or whose invoice it has, is acknowledged: the first time it is booked,
   and a repetition changes nothing.
   */
  lemma PaymentIsAcknowledged(s: State, tag: nat, answer: Answer)
    requires InPhase(s, tag, Received) && s.unacked[tag].copy.message.content.Conforming?
    requires Bookable(s.db, s.unacked[tag].copy.message)
    ensures var m := s.unacked[tag].copy.message; var after := Outcome(s, tag, Untroubled, answer);
      && after == s.(unacked := s.unacked - {tag}, db := after.db, applied := after.applied)
      && m.eventId in after.db.processed
      && (m.eventId in s.db.processed ==> after.db == s.db && after.applied == s.applied)
      && (m.eventId !in s.db.processed ==>
            && after.applied == s.applied + [m]
            && after.db == Ledger.Next(s.db, Ledger.OpPay(m.tenant, m.eventId, m.invoice, m.paymentId, m.amount)))
  {
    hide Ledger.PaidOre, Ledger.PaidIfCovered, Ledger.WithPayment;
  }

  /** Failed: it cannot be parsed, the ledger has neither its event nor its invoice, or the transaction failed. */
  predicate Fails(db: Ledger.Db, m: Message, trouble: Trouble) {
    m.content.Unparsable? || (m.content.Conforming? && (!trouble.Untroubled? || !Bookable(db, m)))
  }

  /**
   A failed delivery is dead-lettered at its third attempt. Before, it is queued again with one more attempt, and
   acknowledged if the broker confirms the copy and left unanswered if not.
   */
  lemma FailureIsRetried(s: State, tag: nat, trouble: Trouble, answer: Answer)
    requires InPhase(s, tag, Received) && Fails(s.db, s.unacked[tag].copy.message, trouble)
    ensures var c := s.unacked[tag].copy; var after := Outcome(s, tag, trouble, answer);
      && (!(trouble.AfterCommit? && c.message.content.Conforming? && Bookable(s.db, c.message)) ==>
            after.db == s.db && after.applied == s.applied)
      && (c.attempts >= 2 ==>
            && after.unacked == s.unacked - {tag} && after.queue == s.queue && after.dead == s.dead + multiset{c})
      && (c.attempts < 2 ==>
            && after.dead == s.dead
            && after.queue == (if answer.Lost? then s.queue else s.queue + multiset{Copy(c.message, c.attempts + 1)})
            && after.unacked == (if answer.Confirmed? then s.unacked - {tag}
                                 else s.unacked[tag := Delivery(c, Stuck)]))
  {
    BooksIff(s.db, s.unacked[tag].copy.message, trouble);
    hide Books, Bookable, AfterFailure, Booked;
    if trouble.AfterCommit? && Books(s.db, s.unacked[tag].copy.message, trouble) {
      FailedShape(Booked(s, s.unacked[tag].copy.message), tag, answer);
      BookedShape(s, s.unacked[tag].copy.message);
    } else {
      FailedShape(s, tag, answer);
    }
  }

  lemma BooksIff(db: Ledger.Db, m: Message, trouble: Trouble)
    ensures Books(db, m, trouble) <==> m.content.Conforming? && !trouble.BeforeCommit? && Bookable(db, m)
  {
    hide Ledger.PaidOre, Ledger.PaidIfCovered, Ledger.WithPayment;
  }

  lemma BookedShape(s: State, m: Message)
    ensures var after := Booked(s, m); after == s.(db := after.db, applied := after.applied)
  {
    hide Ledger.Apply, Ledger.Next;
  }

  lemma FailedShape(s: State, tag: nat, answer: Answer)
    requires tag in s.unacked
    ensures var c := s.unacked[tag].copy; var after := AfterFailure(s, tag, answer);
      && after.db == s.db && after.applied == s.applied
      && (c.attempts >= 2 ==>
            && after.unacked == s.unacked - {tag} && after.queue == s.queue && after.dead == s.dead + multiset{c})
      && (c.attempts < 2 ==>
            && after.dead == s.dead
            && after.queue == (if answer.Lost? then s.queue else s.queue + multiset{Copy(c.message, c.attempts + 1)})
            && after.unacked == (if answer.Confirmed? then s.unacked - {tag}
                                 else s.unacked[tag := Delivery(c, Stuck)]))
  {
  }

  /** A transaction that commits although the consumer is told of an error has booked the payment all the same. */
  lemma LostAnswerIsBooked(s: State, tag: nat, answer: Answer)
    requires InPhase(s, tag, Received) && s.unacked[tag].copy.message.content.Conforming?
    requires Bookable(s.db, s.unacked[tag].copy.message)
    ensures var lost, heard := Outcome(s, tag, AfterCommit, answer), Outcome(s, tag, Untroubled, answer);
      lost.db == heard.db && lost.applied == heard.applied
  {
    hide Ledger.Apply, Ledger.Next;
  }

  class PaymentConsumer {
    const billing: BillingDb
    var queue: multiset<Copy>
    var unacked: map<nat, Delivery>
    var dead: multiset<Copy>
    var entered: set<Message>
    var applied: seq<Message>

    constructor (billing: BillingDb, s: State)
      ensures this.billing == billing && queue == s.queue && unacked == s.unacked && dead == s.dead
      ensures entered == s.entered && applied == s.applied
    {
      this.billing := billing;
      queue, unacked, dead, entered, applied := s.queue, s.unacked, s.dead, s.entered, s.applied;
    }

    /** The protocol's state, beside a sender's side that the consumer does not see. */
    function View(outbox: map<string, OutRow>, drafts: map<string, OutRow>): State
      reads this, billing
    {
      State(billing.Db(), outbox, drafts, queue, unacked, dead, entered, applied)
    }

    method Ack(tag: nat)
      modifies this`unacked
      ensures unacked == old(unacked) - {tag}
    {
      unacked := unacked - {tag};
    }

    /** Dead-letters the delivery. */
    method Nack(tag: nat)
      requires tag in unacked
      modifies this`unacked, this`dead
      ensures unacked == old(unacked) - {tag} && dead == old(dead) + multiset{old(unacked)[tag].copy}
    {
      dead := dead + multiset{unacked[tag].copy};
      unacked := unacked - {tag};
    }

    /** Acknowledges the original only after the broker has confirmed the copy. */
    method RepublishWithAttempt(tag: nat, attempts: nat, answer: Answer)
      requires tag in unacked
      modifies this`queue, this`entered, this`unacked
      ensures var c := old(unacked)[tag].copy.(attempts := attempts);
        && queue == (if answer.Lost? then old(queue) else old(queue) + multiset{c})
        && entered == (if answer.Lost? then old(entered) else old(entered) + {c.message})
      ensures unacked == if answer.Confirmed? then old(unacked) - {tag}
                         else old(unacked)[tag := old(unacked)[tag].(phase := Stuck)]
    {
      if !answer.Lost? {
        queue := queue + multiset{unacked[tag].copy.(attempts := attempts)};
        entered := entered + {unacked[tag].copy.message};
      }
      if answer.Confirmed? {
        Ack(tag);
      } else {
        unacked := unacked[tag := unacked[tag].(phase := Stuck)];
      }
    }

    /** The booking transaction: it fails only for an invoice the tenant does not have. */
    method Book(m: Message) returns (failed: bool)
      requires billing.Valid()
      modifies billing, this`applied
      ensures billing.Valid() && failed == Ledger.Apply(old(billing.Db()), PayOp(m)).Rejected?
      ensures billing.Db() == Ledger.Next(old(billing.Db()), PayOp(m))
      ensures failed ==> billing.Db() == old(billing.Db())
      ensures applied ==
              if Ledger.Apply(old(billing.Db()), PayOp(m)).Committed? then old(applied) + [m] else old(applied)
    {
      hide Ledger.Pay;
      var reply, inserted, paid := billing.ApplyPayment(m.tenant, m.eventId, m.invoice, m.paymentId, m.amount);
      failed := reply.Failed?;
      if reply.Done? {
        applied := applied + [m];
      }
    }

    method Retry(tag: nat, answer: Answer, ghost outbox: map<string, OutRow>, ghost drafts: map<string, OutRow>)
      requires tag in unacked && unacked[tag].phase == Received
      modifies this
      ensures View(outbox, drafts) == AfterFailure(old(View(outbox, drafts)), tag, answer)
    {
      hide BillingDb.Db;
      var attempts := unacked[tag].copy.attempts + 1;
      if attempts >= CONSUME_ATTEMPTS {
        Nack(tag);
        return;
      }
      RepublishWithAttempt(tag, attempts, answer);
    }

    /** Parsing and booking; it fails for content that does not parse, too. */
    method Process(m: Message, trouble: Trouble, ghost outbox: map<string, OutRow>, ghost drafts: map<string, OutRow>)
      returns (failed: bool)
      requires billing.Valid() && Kept(m)
      modifies billing, this`applied
      ensures billing.Valid()
      ensures var s := old(View(outbox, drafts)); var books := Books(s.db, m, trouble);
        && failed == (!books || trouble.AfterCommit?)
        && View(outbox, drafts) == if books then Booked(s, m) else s
    {
      hide Ledger.Apply, Ledger.Next;
      if m.content.Unparsable? || trouble.BeforeCommit? {
        return true;
      }
      failed := Book(m);
      if trouble.AfterCommit? {
        failed := true;
      }
    }

    /** The delivery is answered for. */
    method Settle(tag: nat, failed: bool, answer: Answer,
                  ghost outbox: map<string, OutRow>, ghost drafts: map<string, OutRow>)
      requires tag in unacked && unacked[tag].phase == Received
      modifies this
      ensures var s := old(View(outbox, drafts));
              View(outbox, drafts) == if failed then AfterFailure(s, tag, answer) else s.(unacked := s.unacked - {tag})
    {
      hide BillingDb.Db, AfterFailure;
      if !failed {
        Ack(tag);
        return;
      }
      Retry(tag, answer, outbox, drafts);
    }

    method OnMessage(tag: nat, trouble: Trouble, answer: Answer,
                     ghost outbox: map<string, OutRow>, ghost drafts: map<string, OutRow>)
      requires billing.Valid() && tag in unacked && unacked[tag].phase == Received
      modifies this, billing
      ensures billing.Valid() && View(outbox, drafts) == Outcome(old(View(outbox, drafts)), tag, trouble, answer)
    {
      hide Ledger.Apply, Ledger.Next, AfterFailure, BillingDb.Db, Books;
      var m := unacked[tag].copy.message;
      if !Kept(m) {
        Ack(tag);
        return;
      }
      var failed := Process(m, trouble, outbox, drafts);
      Settle(tag, failed, answer, outbox, drafts);
    }
  }
}
