/** The publisher's round over the outbox table: a locked batch, one broker answer at a time, and backing off. */
module Outbox {
  import opened Wrappers
  import Broker

  const BATCH_SIZE := 20
  const BACKOFF_BASE_SECONDS := 5
  const BACKOFF_CAP_SECONDS := 3600

  function Pow2(n: nat): (r: nat)
    ensures r >= 1
  {
    if n == 0 then 1 else 2 * Pow2(n - 1)
  }

  /** backoffSeconds: how long a row waits after its attempt number `attempts` failed. */
  function Backoff(attempts: nat): int {
    Min(BACKOFF_BASE_SECONDS * Pow2(attempts), BACKOFF_CAP_SECONDS)
  }

  lemma {:induction false} Pow2Grows(m: nat, n: nat)
    requires m <= n
    ensures Pow2(m) <= Pow2(n)
  {
    if m < n { Pow2Grows(m, n - 1); }
  }

  /** Waits never get shorter, double until the cap, and stay at an hour from the eleventh failure on. */
  lemma BackoffShape(attempts: nat)
    ensures Backoff(attempts) <= Backoff(attempts + 1)
    ensures attempts < 9 ==> Backoff(attempts + 1) == 2 * Backoff(attempts)
    ensures attempts >= 10 <==> Backoff(attempts) == BACKOFF_CAP_SECONDS
  {
    assert Pow2(9) == 512 && Pow2(10) == 1024 by { PowersOfTwo(); }
    if attempts >= 10 {
      Pow2Grows(10, attempts);
    } else {
      Pow2Grows(attempts, 9);
    }
  }

  lemma PowersOfTwo()
    ensures Pow2(9) == 512 && Pow2(10) == 1024
  {
  }

  /** One row per event, in order of occurrence; times in seconds. */
  datatype Row = Row(event: Broker.OutRow, due: int)

  /** The outcome of publishing one envelope. */
  datatype Answer = Confirmed | Refused | TimedOut

  /** A row after its attempt: published, to be tried again later, or given up after twelve failures. */
  function Answered(row: Row, a: Answer, now: int): Row {
    if a.Confirmed? then row.(event := row.event.(status := Broker.Published))
    else
      var failed := Broker.Retried(row.event);
      Row(failed, if failed.status.Pending? then now + Backoff(row.event.attempts) else row.due)
  }

  /** Neither published nor given up, due, and not locked by another publisher. */
  predicate Ready(row: Row, now: int, locked: set<string>) {
    row.event.status.Pending? && row.due <= now && row.event.message.eventId !in locked
  }

  /** The places of the rows selected from the first n. */
  function Batch(rows: seq<Row>, now: int, locked: set<string>, n: nat): (b: seq<nat>)
    requires n <= |rows|
    ensures |b| <= BATCH_SIZE
    ensures forall j :: 0 <= j < |b| ==> b[j] < n && Ready(rows[b[j]], now, locked)
    ensures forall j, k :: 0 <= j < k < |b| ==> b[j] < b[k]
    ensures forall i :: 0 <= i < n && Ready(rows[i], now, locked) && i !in b ==>
              |b| == BATCH_SIZE && forall j :: 0 <= j < |b| ==> b[j] < i
  {
    if n == 0 then []
    else
      var b := Batch(rows, now, locked, n - 1);
      if Ready(rows[n - 1], now, locked) && |b| < BATCH_SIZE then b + [n - 1] else b
  }

  function AnswerTo(rows: seq<Row>, i: nat, answers: string -> Answer): Answer
    requires i < |rows|
  {
    answers(rows[i].event.message.eventId)
  }

  predicate Places(rows: seq<Row>, batch: seq<nat>) {
    forall j :: 0 <= j < |batch| ==> batch[j] < |rows|
  }

  predicate InOrder(batch: seq<nat>) {
    forall j, k :: 0 <= j < k < |batch| ==> batch[j] < batch[k]
  }

  /** The round stops after k rows: the broker answered all before the last, and the last ends it. */
  predicate StopsAfter(rows: seq<Row>, batch: seq<nat>, answers: string -> Answer, k: nat)
    requires Places(rows, batch)
  {
    && k <= |batch|
    && (forall j :: 0 <= j < k - 1 ==> !AnswerTo(rows, batch[j], answers).TimedOut?)
    && (k < |batch| ==> k > 0 && AnswerTo(rows, batch[k - 1], answers).TimedOut?)
  }

  lemma StopsOnce(rows: seq<Row>, batch: seq<nat>, answers: string -> Answer, j: nat, k: nat)
    requires Places(rows, batch) && StopsAfter(rows, batch, answers, j) && StopsAfter(rows, batch, answers, k)
    ensures j == k
  {
  }

  /** The table after the first k rows of the batch have their answers. */
  function Applied(rows: seq<Row>, batch: seq<nat>, answers: string -> Answer, now: int, k: nat): (r: seq<Row>)
    requires Places(rows, batch) && k <= |batch|
    ensures |r| == |rows|
  {
    if k == 0 then rows
    else
      var i := batch[k - 1];
      Applied(rows, batch, answers, now, k - 1)[i := Answered(rows[i], AnswerTo(rows, i, answers), now)]
  }

  /** Every row tried has its answer, and no other row has changed. */
  lemma {:induction false} AppliedAt(rows: seq<Row>, batch: seq<nat>, answers: string -> Answer, now: int, k: nat,
                                     i: nat)
    requires Places(rows, batch) && InOrder(batch) && k <= |batch| && i < |rows|
    ensures i in batch[..k] ==>
              Applied(rows, batch, answers, now, k)[i] == Answered(rows[i], AnswerTo(rows, i, answers), now)
    ensures i !in batch[..k] ==> Applied(rows, batch, answers, now, k)[i] == rows[i]
  {
    if k > 0 {
      AppliedAt(rows, batch, answers, now, k - 1, i);
      assert batch[..k] == batch[..k - 1] + [batch[k - 1]];
    }
  }

  /** The events given up in the first k rows. */
  function Dead(rows: seq<Row>, batch: seq<nat>, answers: string -> Answer, now: int, k: nat): set<string>
    requires Places(rows, batch) && k <= |batch|
  {
    set j | 0 <= j < k && Answered(rows[batch[j]], AnswerTo(rows, batch[j], answers), now).event.status.GivenUp? ::
      rows[batch[j]].event.message.eventId
  }

  class Table {
    var rows: seq<Row>

    constructor (initial: seq<Row>)
      ensures rows == initial
    {
      rows := initial;
    }

    /** SELECT ... LIMIT 20 FOR UPDATE SKIP LOCKED. */
    method Select(now: int, locked: set<string>) returns (batch: seq<nat>)
      ensures batch == Batch(rows, now, locked, |rows|)
    {
      batch := [];
      for i := 0 to |rows|
        invariant batch == Batch(rows, now, locked, i)
      {
        if Ready(rows[i], now, locked) && |batch| < BATCH_SIZE {
          batch := batch + [i];
        }
      }
    }

    /** One row with its answer. */
    method Attempt(i: nat, answer: Answer, now: int) returns (gaveUp: bool)
      requires i < |rows| && rows[i].event.status.Pending?
      modifies this
      ensures rows == old(rows)[i := Answered(old(rows)[i], answer, now)]
      ensures gaveUp <==> rows[i].event.status.GivenUp?
    {
      var row := rows[i];
      gaveUp := false;
      if answer.Confirmed? {
        rows := rows[i := row.(event := row.event.(status := Broker.Published))];
      } else {
        var attempts := row.event.attempts + 1;
        if attempts >= Broker.PUBLISH_ATTEMPTS {
          rows := rows[i := row.(event := row.event.(attempts := attempts, status := Broker.GivenUp))];
          gaveUp := true;
        } else {
          rows := rows[i := Row(row.event.(attempts := attempts), now + Backoff(row.event.attempts))];
        }
      }
    }

    /**
     One committed round: every row of the batch up to the first timeout takes its answer, no other row
     changes, and the events reported dead are those that failed for the twelfth time.
     */
    method Tick(now: int, locked: set<string>, answers: string -> Answer) returns (dead: set<string>, tried: nat)
      modifies this
      ensures var batch := Batch(old(rows), now, locked, |old(rows)|);
        && StopsAfter(old(rows), batch, answers, tried)
        && rows == Applied(old(rows), batch, answers, now, tried)
        && dead == Dead(old(rows), batch, answers, now, tried)
    {
      hide Answered, Batch, Applied, Dead;
      var batch := Select(now, locked);
      dead := {};
      tried := 0;
      var brokerStalled := false;
      ghost var before := rows;
      NothingTried(before, batch, answers, now);
      while tried < |batch| && !brokerStalled
        invariant 0 <= tried <= |batch| && |rows| == |before|
        invariant rows == Applied(before, batch, answers, now, tried)
        invariant brokerStalled <==> tried > 0 && AnswerTo(before, batch[tried - 1], answers).TimedOut?
        invariant forall j :: 0 <= j < tried - 1 ==> !AnswerTo(before, batch[j], answers).TimedOut?
        invariant dead == Dead(before, batch, answers, now, tried)
      {
        var i := batch[tried];
        NextIsUntouched(before, batch, answers, now, tried);
        var eventId := rows[i].event.message.eventId;
        var answer := AnswerTo(rows, i, answers);
        var gaveUp := Attempt(i, answer, now);
        if gaveUp {
          dead := dead + {eventId};
        }
        brokerStalled := answer.TimedOut?;
        tried := tried + 1;
        RoundStep(before, batch, answers, now, tried);
      }
    }
  }

  lemma NothingTried(rows: seq<Row>, batch: seq<nat>, answers: string -> Answer, now: int)
    requires Places(rows, batch)
    ensures Applied(rows, batch, answers, now, 0) == rows && Dead(rows, batch, answers, now, 0) == {}
  {
  }

  lemma NextIsUntouched(rows: seq<Row>, batch: seq<nat>, answers: string -> Answer, now: int, k: nat)
    requires Places(rows, batch) && InOrder(batch) && k < |batch|
    ensures Applied(rows, batch, answers, now, k)[batch[k]] == rows[batch[k]]
  {
    assert batch[k] !in batch[..k];
    AppliedAt(rows, batch, answers, now, k, batch[k]);
  }

  lemma RoundStep(rows: seq<Row>, batch: seq<nat>, answers: string -> Answer, now: int, k: nat)
    requires Places(rows, batch) && 0 < k <= |batch|
    ensures var i := batch[k - 1]; var row := Answered(rows[i], AnswerTo(rows, i, answers), now);
      && Applied(rows, batch, answers, now, k) == Applied(rows, batch, answers, now, k - 1)[i := row]
      && Dead(rows, batch, answers, now, k) == Dead(rows, batch, answers, now, k - 1) +
           (if row.event.status.GivenUp? then {rows[i].event.message.eventId} else {})
  {
  }

  // ---- The round, row by row -------------------------------------------------------------------------------

  /** A row that is to be tried: pending, due now or before, and not locked by another publisher. */
  predicate Waits(row: Row, now: int, locked: set<string>) {
    row.event.status == Broker.Pending && row.due <= now && row.event.message.eventId !in locked
  }

  /** The first twenty waiting rows, in order: a waiting row is left out only after twenty others. */
  lemma BatchRule(rows: seq<Row>, now: int, locked: set<string>, i: nat)
    requires i < |rows|
    ensures var batch := Batch(rows, now, locked, |rows|);
      && |batch| <= 20 && InOrder(batch)
      && (i in batch ==> Waits(rows[i], now, locked))
      && (Waits(rows[i], now, locked) && i !in batch ==>
            |batch| == 20 && forall j :: 0 <= j < 20 ==> batch[j] < i)
  {
    hide Batch;
  }

  /** 5 seconds after the first failure, twice as long after each further one, and never more than an hour. */
  lemma BackoffTable()
    ensures [Backoff(0), Backoff(1), Backoff(2), Backoff(3), Backoff(4), Backoff(5)] == [5, 10, 20, 40, 80, 160]
    ensures [Backoff(6), Backoff(7), Backoff(8), Backoff(9), Backoff(10)] == [320, 640, 1280, 2560, 3600]
    ensures forall k: nat :: k >= 10 ==> Backoff(k) == 3600
  {
    forall k: nat | k >= 10 ensures Backoff(k) == 3600 {
      BackoffShape(k);
    }
    BackoffValues();
  }

  lemma BackoffValues()
    ensures [Backoff(0), Backoff(1), Backoff(2), Backoff(3), Backoff(4), Backoff(5)] == [5, 10, 20, 40, 80, 160]
    ensures [Backoff(6), Backoff(7), Backoff(8), Backoff(9), Backoff(10)] == [320, 640, 1280, 2560, 3600]
  {
    assert Pow2(5) == 32 && Pow2(10) == 1024;
  }

  /**
   A row after its attempt: published if the broker confirmed it; given up if that was the twelfth failure; and
   otherwise pending again, due after the backoff of the failures it had before.
   */
  lemma AttemptRule(row: Row, a: Answer, now: int)
    ensures var after, failures := Answered(row, a, now), row.event.attempts + 1;
      && after.event.message == row.event.message
      && (a == Confirmed ==> after.event.status == Broker.Published && after.event.attempts == row.event.attempts)
      && (a != Confirmed ==> after.event.attempts == failures)
      && (a != Confirmed && failures >= 12 ==> after.event.status == Broker.GivenUp)
      && (a != Confirmed && failures < 12 ==>
            after.event.status == Broker.Pending && after.due == now + Backoff(failures - 1))
  {
    hide Backoff;
  }

  /**
   A round tries the batch in order up to the first timeout: what comes after the timeout, and every row outside the
   batch, stays as it was.
   */
  lemma RoundRule(rows: seq<Row>, batch: seq<nat>, answers: string -> Answer, now: int, tried: nat, j: nat)
    requires Places(rows, batch) && InOrder(batch) && StopsAfter(rows, batch, answers, tried) && j < |batch|
    ensures var after := Applied(rows, batch, answers, now, tried);
            var stalled := exists k :: 0 <= k < j && answers(rows[batch[k]].event.message.eventId) == TimedOut;
      after[batch[j]] == if stalled then rows[batch[j]]
                         else Answered(rows[batch[j]], answers(rows[batch[j]].event.message.eventId), now)
  {
    AppliedAt(rows, batch, answers, now, tried, batch[j]);
    hide Answered, Applied;
    if j < tried {
      assert batch[..tried][j] == batch[j];
      forall k | 0 <= k < j ensures answers(rows[batch[k]].event.message.eventId) != TimedOut {
        assert !AnswerTo(rows, batch[k], answers).TimedOut?;
      }
    } else {
      assert AnswerTo(rows, batch[tried - 1], answers) == TimedOut;
    }
  }

  /** The events reported dead are those tried, not confirmed, and failed eleven times before. */
  lemma DeadRule(rows: seq<Row>, batch: seq<nat>, answers: string -> Answer, now: int, tried: nat, e: string)
    requires Places(rows, batch) && tried <= |batch|
    requires forall j :: 0 <= j < tried ==> rows[batch[j]].event.status == Broker.Pending
    ensures e in Dead(rows, batch, answers, now, tried) <==>
              exists j :: 0 <= j < tried && rows[batch[j]].event.message.eventId == e
                          && answers(e) != Confirmed && rows[batch[j]].event.attempts >= 11
  {
    hide Backoff;
  }

  // ---- A round is a run of the pipeline ------------------------------------------------------------------

  /** The table holds rows of the pipeline's outbox, each once, and the rows others have in hand are locked. */
  ghost predicate Mirrors(s: Broker.State, rows: seq<Row>, locked: set<string>) {
    && (forall i :: 0 <= i < |rows| ==>
          EventId(rows, i) in s.outbox && s.outbox[EventId(rows, i)] == rows[i].event)
    && (forall i, j :: 0 <= i < j < |rows| ==> EventId(rows, i) != EventId(rows, j))
    && s.drafts.Keys <= locked
  }

  function EventId(rows: seq<Row>, i: nat): string
    requires i < |rows|
  {
    rows[i].event.message.eventId
  }

  /** The batch of a round: rows of the table that are ready, in order. */
  ghost predicate IsBatch(rows: seq<Row>, batch: seq<nat>, now: int, locked: set<string>) {
    && Places(rows, batch) && InOrder(batch)
    && forall j :: 0 <= j < |batch| ==> Ready(rows[batch[j]], now, locked)
  }

  /** What the pipeline sees of an attempt; `arrived` says whether an unconfirmed copy got there all the same. */
  function Act(a: Answer, arrived: bool): Broker.SenderAct {
    if a.Confirmed? then Broker.Publish else Broker.Refuse(arrived)
  }

  /** The attempts on the first k rows of the batch. */
  function Attempts(rows: seq<Row>, batch: seq<nat>, answers: string -> Answer, arrived: string -> bool,
                    k: nat): seq<Broker.Step>
    requires Places(rows, batch) && k <= |batch|
  {
    if k == 0 then []
    else
      var e := EventId(rows, batch[k - 1]);
      Attempts(rows, batch, answers, arrived, k - 1) + [Broker.Sender(e, Act(answers(e), arrived(e)))]
  }

  /** The end of the transaction for the first j of the rows it has tried. */
  function Endings(rows: seq<Row>, batch: seq<nat>, commit: bool, j: nat): seq<Broker.Step>
    requires Places(rows, batch) && j <= |batch|
  {
    if j == 0 then []
    else
      Endings(rows, batch, commit, j - 1)
        + [Broker.Sender(EventId(rows, batch[j - 1]), if commit then Broker.CommitRow else Broker.RollbackRow)]
  }

  /** The uncommitted rows after k attempts. */
  function Drafted(s: Broker.State, rows: seq<Row>, batch: seq<nat>, answers: string -> Answer, now: int,
                   k: nat): map<string, Broker.OutRow>
    requires Places(rows, batch) && k <= |batch|
  {
    if k == 0 then s.drafts
    else
      var e := EventId(rows, batch[k - 1]);
      Drafted(s, rows, batch, answers, now, k - 1)[e := Answered(rows[batch[k - 1]], answers(e), now).event]
  }

  lemma {:induction false} RunAppend(s: Broker.State, steps: seq<Broker.Step>, step: Broker.Step)
    requires Broker.MayRun(s, steps) && Broker.MayStep(Broker.Ran(s, steps), step)
    ensures Broker.MayRun(s, steps + [step])
    ensures Broker.Ran(s, steps + [step]) == Broker.Do(Broker.Ran(s, steps), step)
    decreases |steps|
  {
    hide Broker.MayStep, Broker.Do;
    if steps == [] {
      assert (steps + [step])[1..] == [];
    } else {
      assert (steps + [step])[1..] == steps[1..] + [step];
      RunAppend(Broker.Do(s, steps[0]), steps[1..], step);
    }
  }

  /** Which events are in hand after k attempts: those of others, and the k tried. */
  lemma {:induction false} DraftedAt(s: Broker.State, rows: seq<Row>, batch: seq<nat>, answers: string -> Answer,
                                     now: int, k: nat, e: string)
    requires Places(rows, batch) && k <= |batch|
    ensures e in Drafted(s, rows, batch, answers, now, k) <==>
              e in s.drafts || exists j :: 0 <= j < k && EventId(rows, batch[j]) == e
  {
    hide Answered;
    if k > 0 {
      DraftedAt(s, rows, batch, answers, now, k - 1, e);
    }
  }

  /** The next row of the batch is in nobody's hands. */
  lemma NextIsFree(s: Broker.State, rows: seq<Row>, batch: seq<nat>, answers: string -> Answer, now: int,
                   locked: set<string>, k: nat)
    requires Mirrors(s, rows, locked) && IsBatch(rows, batch, now, locked) && k < |batch|
    ensures EventId(rows, batch[k]) !in Drafted(s, rows, batch, answers, now, k)
  {
    hide Answered, Drafted;
    var e := EventId(rows, batch[k]);
    DraftedAt(s, rows, batch, answers, now, k, e);
    assert Ready(rows[batch[k]], now, locked);
    forall j | 0 <= j < k ensures EventId(rows, batch[j]) != e {
      assert batch[j] < batch[k];
    }
  }

  /** Only the queue, what has entered it, and the uncommitted rows have changed. */
  ghost predicate OnlyTried(s: Broker.State, t: Broker.State) {
    && t.outbox == s.outbox && t.db == s.db && t.applied == s.applied
    && t.unacked == s.unacked && t.dead == s.dead && s.queue <= t.queue && s.entered <= t.entered
  }

  lemma {:induction false} AttemptsRun(s: Broker.State, rows: seq<Row>, batch: seq<nat>, answers: string -> Answer,
                                       arrived: string -> bool, now: int, locked: set<string>, k: nat)
    requires Mirrors(s, rows, locked) && IsBatch(rows, batch, now, locked) && k <= |batch|
    ensures Broker.MayRun(s, Attempts(rows, batch, answers, arrived, k))
    ensures var t := Broker.Ran(s, Attempts(rows, batch, answers, arrived, k));
            OnlyTried(s, t) && t.drafts == Drafted(s, rows, batch, answers, now, k)
  {
    hide Broker.MayRun, Broker.Ran, Mirrors, Ready, OnlyTried, Answered;
    if k == 0 {
      NothingTriedRun(s);
    } else {
      AttemptsRun(s, rows, batch, answers, arrived, now, locked, k - 1);
      NextIsFree(s, rows, batch, answers, now, locked, k - 1);
      var e := EventId(rows, batch[k - 1]);
      var steps := Attempts(rows, batch, answers, arrived, k - 1);
      RunTries(s, rows, batch, steps, answers(e), arrived(e), now, locked, k - 1);
    }
  }

  lemma NothingTriedRun(s: Broker.State)
    ensures Broker.MayRun(s, []) && Broker.Ran(s, []) == s && OnlyTried(s, s)
  {
  }

  /** One more row attempted. */
  lemma RunTries(s: Broker.State, rows: seq<Row>, batch: seq<nat>, steps: seq<Broker.Step>, a: Answer, arrived: bool,
                 now: int, locked: set<string>, k: nat)
    requires Mirrors(s, rows, locked) && IsBatch(rows, batch, now, locked) && k < |batch|
    requires Broker.MayRun(s, steps) && OnlyTried(s, Broker.Ran(s, steps))
    requires EventId(rows, batch[k]) !in Broker.Ran(s, steps).drafts
    ensures var e := EventId(rows, batch[k]); var longer := steps + [Broker.Sender(e, Act(a, arrived))];
      && Broker.MayRun(s, longer) && OnlyTried(s, Broker.Ran(s, longer))
      && Broker.Ran(s, longer).drafts == Broker.Ran(s, steps).drafts[e := Answered(rows[batch[k]], a, now).event]
  {
    hide Broker.MayRun, Broker.Ran, Broker.MayStep, Broker.Do, Mirrors, Ready, OnlyTried, Answered, Act;
    AttemptStep(s, Broker.Ran(s, steps), rows, batch, a, arrived, now, locked, k);
    RunAppend(s, steps, Broker.Sender(EventId(rows, batch[k]), Act(a, arrived)));
  }

  lemma AttemptStep(s: Broker.State, t: Broker.State, rows: seq<Row>, batch: seq<nat>, a: Answer, arrived: bool,
                    now: int, locked: set<string>, k: nat)
    requires Mirrors(s, rows, locked) && IsBatch(rows, batch, now, locked) && k < |batch| && OnlyTried(s, t)
    requires EventId(rows, batch[k]) !in t.drafts
    ensures var e := EventId(rows, batch[k]); var step := Broker.Sender(e, Act(a, arrived));
      && Broker.MayStep(t, step) && OnlyTried(s, Broker.Do(t, step))
      && Broker.Do(t, step).drafts == t.drafts[e := Answered(rows[batch[k]], a, now).event]
  {
    assert Ready(rows[batch[k]], now, locked);
  }

  ghost function Tried(rows: seq<Row>, batch: seq<nat>, j: nat): set<string>
    requires Places(rows, batch) && j <= |batch|
  {
    set i | 0 <= i < j :: EventId(rows, batch[i])
  }

  /** The committed rows once the answers of the first j rows of the batch are in. */
  ghost function Recorded(s: Broker.State, rows: seq<Row>, batch: seq<nat>, answers: string -> Answer, now: int,
                          j: nat): map<string, Broker.OutRow>
    requires Places(rows, batch) && j <= |batch|
  {
    if j == 0 then s.outbox
    else
      var e := EventId(rows, batch[j - 1]);
      Recorded(s, rows, batch, answers, now, j - 1)[e := Answered(rows[batch[j - 1]], answers(e), now).event]
  }

  /** The events of a batch are distinct, and none is in anyone's hands before the round. */
  lemma BatchIsDistinct(s: Broker.State, rows: seq<Row>, batch: seq<nat>, now: int, locked: set<string>)
    requires Mirrors(s, rows, locked) && IsBatch(rows, batch, now, locked)
    ensures forall i, j :: 0 <= i < j < |batch| ==> EventId(rows, batch[i]) != EventId(rows, batch[j])
    ensures forall j :: 0 <= j < |batch| ==> EventId(rows, batch[j]) !in s.drafts
  {
    forall j | 0 <= j < |batch| ensures EventId(rows, batch[j]) !in s.drafts {
      assert Ready(rows[batch[j]], now, locked);
    }
  }

  ghost predicate Distinct(s: Broker.State, rows: seq<Row>, batch: seq<nat>) {
    && Places(rows, batch)
    && (forall i, j :: 0 <= i < j < |batch| ==> EventId(rows, batch[i]) != EventId(rows, batch[j]))
    && (forall j :: 0 <= j < |batch| ==> EventId(rows, batch[j]) !in s.drafts)
  }

  lemma {:induction false} DraftedValue(s: Broker.State, rows: seq<Row>, batch: seq<nat>, answers: string -> Answer,
                                        now: int, k: nat, j: nat)
    requires Distinct(s, rows, batch) && j < k <= |batch|
    ensures var e := EventId(rows, batch[j]); var drafts := Drafted(s, rows, batch, answers, now, k);
            e in drafts && drafts[e] == Answered(rows[batch[j]], answers(e), now).event
  {
    hide Answered;
    if j < k - 1 {
      DraftedValue(s, rows, batch, answers, now, k - 1, j);
    }
  }

  lemma {:induction false} DraftedBack(s: Broker.State, rows: seq<Row>, batch: seq<nat>, answers: string -> Answer,
                                       now: int, k: nat)
    requires Distinct(s, rows, batch) && k <= |batch|
    ensures Drafted(s, rows, batch, answers, now, k) - Tried(rows, batch, k) == s.drafts
  {
    hide Answered;
    if k > 0 {
      var e := EventId(rows, batch[k - 1]);
      DraftedBack(s, rows, batch, answers, now, k - 1);
      TriedMore(rows, batch, k - 1);
      assert e !in s.drafts;
      RemoveAdded(Drafted(s, rows, batch, answers, now, k - 1), e, Answered(rows[batch[k - 1]], answers(e), now).event,
                  Tried(rows, batch, k - 1), s.drafts);
    }
  }

  lemma RemoveAdded(m: map<string, Broker.OutRow>, e: string, row: Broker.OutRow, gone: set<string>,
                    left: map<string, Broker.OutRow>)
    requires m - gone == left && e !in left
    ensures m[e := row] - (gone + {e}) == left
  {
    assert forall d :: d in m && d !in gone ==> d in left && left[d] == m[d];
    assert forall d :: d in left ==> d in m - gone;
  }

  lemma TriedMore(rows: seq<Row>, batch: seq<nat>, j: nat)
    requires Places(rows, batch) && j < |batch|
    ensures Tried(rows, batch, j + 1) == Tried(rows, batch, j) + {EventId(rows, batch[j])}
  {
  }

  /** t is s but for what the outbox and its uncommitted rows now are. */
  ghost predicate Ended(s: Broker.State, t: Broker.State, outbox: map<string, Broker.OutRow>,
                        drafts: map<string, Broker.OutRow>) {
    t == s.(outbox := outbox, drafts := drafts)
  }

  /** Ending the transaction row by row, from the state t0 that the attempts left. */
  lemma {:induction false} EndingsRun(s: Broker.State, t0: Broker.State, rows: seq<Row>, batch: seq<nat>,
                                      answers: string -> Answer, now: int, k: nat, commit: bool, j: nat)
    requires Distinct(s, rows, batch) && j <= k <= |batch|
    requires t0.outbox == s.outbox && t0.drafts == Drafted(s, rows, batch, answers, now, k)
    ensures Broker.MayRun(t0, Endings(rows, batch, commit, j))
    ensures Ended(t0, Broker.Ran(t0, Endings(rows, batch, commit, j)),
                  if commit then Recorded(s, rows, batch, answers, now, j) else s.outbox,
                  t0.drafts - Tried(rows, batch, j))
  {
    hide Broker.MayRun, Broker.Ran, Answered, Drafted, Tried, Ended;
    if j == 0 {
      NothingEnded(t0, rows, batch);
    } else {
      EndingsRun(s, t0, rows, batch, answers, now, k, commit, j - 1);
      var e := EventId(rows, batch[j - 1]);
      DraftedValue(s, rows, batch, answers, now, k, j - 1);
      NotEndedYet(s, rows, batch, j - 1);
      TriedMore(rows, batch, j - 1);
      MinusMore(t0.drafts, Tried(rows, batch, j - 1), e);
      RunEnds(t0, Endings(rows, batch, commit, j - 1), e, commit,
              if commit then Recorded(s, rows, batch, answers, now, j - 1) else s.outbox,
              t0.drafts - Tried(rows, batch, j - 1));
    }
  }

  lemma NothingEnded(t0: Broker.State, rows: seq<Row>, batch: seq<nat>)
    requires Places(rows, batch)
    ensures Broker.MayRun(t0, []) && Ended(t0, Broker.Ran(t0, []), t0.outbox, t0.drafts - Tried(rows, batch, 0))
  {
    assert t0.drafts - Tried(rows, batch, 0) == t0.drafts;
  }

  /** One more row committed or rolled back. */
  lemma RunEnds(t0: Broker.State, steps: seq<Broker.Step>, e: string, commit: bool,
                outbox: map<string, Broker.OutRow>, drafts: map<string, Broker.OutRow>)
    requires Broker.MayRun(t0, steps) && Ended(t0, Broker.Ran(t0, steps), outbox, drafts) && e in drafts
    ensures var longer := steps + [Broker.Sender(e, if commit then Broker.CommitRow else Broker.RollbackRow)];
      && Broker.MayRun(t0, longer)
      && Ended(t0, Broker.Ran(t0, longer), if commit then outbox[e := drafts[e]] else outbox, drafts - {e})
  {
    hide Broker.MayRun, Broker.Ran, Broker.MayStep, Broker.Do;
    EndStep(Broker.Ran(t0, steps), e, commit);
    RunAppend(t0, steps, Broker.Sender(e, if commit then Broker.CommitRow else Broker.RollbackRow));
  }

  lemma EndStep(t: Broker.State, e: string, commit: bool)
    requires e in t.drafts
    ensures var step := Broker.Sender(e, if commit then Broker.CommitRow else Broker.RollbackRow);
      && Broker.MayStep(t, step)
      && Broker.Do(t, step) ==
         t.(outbox := if commit then t.outbox[e := t.drafts[e]] else t.outbox, drafts := t.drafts - {e})
  {
  }

  lemma MinusMore(m: map<string, Broker.OutRow>, gone: set<string>, e: string)
    ensures m - gone - {e} == m - (gone + {e})
    ensures e in m && e !in gone ==> e in m - gone && (m - gone)[e] == m[e]
  {
  }

  lemma NotEndedYet(s: Broker.State, rows: seq<Row>, batch: seq<nat>, j: nat)
    requires Distinct(s, rows, batch) && j < |batch|
    ensures EventId(rows, batch[j]) !in Tried(rows, batch, j)
  {
  }

  lemma {:induction false} RecordedAt(s: Broker.State, rows: seq<Row>, batch: seq<nat>, answers: string -> Answer,
                                      now: int, k: nat, e: string)
    requires Places(rows, batch) && k <= |batch|
    ensures e in s.outbox ==> e in Recorded(s, rows, batch, answers, now, k)
    ensures (forall j :: 0 <= j < k ==> EventId(rows, batch[j]) != e) && e in s.outbox ==>
              Recorded(s, rows, batch, answers, now, k)[e] == s.outbox[e]
    ensures forall j :: 0 <= j < k && EventId(rows, batch[j]) == e && Distinct(s, rows, batch) ==>
              e in Recorded(s, rows, batch, answers, now, k)
              && Recorded(s, rows, batch, answers, now, k)[e] == Answered(rows[batch[j]], answers(e), now).event
  {
    hide Answered;
    if k > 0 {
      RecordedAt(s, rows, batch, answers, now, k - 1, e);
    }
  }

  lemma AnsweredSame(row: Row, a: Answer, now: int)
    ensures Answered(row, a, now).event.message == row.event.message
  {
  }

  /** The table after the answers still mirrors the pipeline's outbox. */
  lemma StillMirrors(s: Broker.State, t: Broker.State, rows: seq<Row>, batch: seq<nat>, answers: string -> Answer,
                     now: int, locked: set<string>, k: nat)
    requires Mirrors(s, rows, locked) && IsBatch(rows, batch, now, locked) && k <= |batch|
    requires t.outbox == Recorded(s, rows, batch, answers, now, k) && t.drafts == s.drafts
    ensures Mirrors(t, Applied(rows, batch, answers, now, k), locked)
  {
    hide Answered, Applied, Recorded, Ready;
    BatchIsDistinct(s, rows, batch, now, locked);
    var after := Applied(rows, batch, answers, now, k);
    forall i | 0 <= i < |rows|
      ensures EventId(after, i) == EventId(rows, i)
      ensures EventId(after, i) in t.outbox && t.outbox[EventId(after, i)] == after[i].event
    {
      AppliedAt(rows, batch, answers, now, k, i);
      RecordedAt(s, rows, batch, answers, now, k, EventId(rows, i));
      AnsweredSame(rows[i], AnswerTo(rows, i, answers), now);
      if i in batch[..k] {
        var j :| 0 <= j < k && batch[..k][j] == i;
        assert batch[j] == i;
      } else {
        forall j | 0 <= j < k ensures EventId(rows, batch[j]) != EventId(rows, i) {
          assert batch[..k][j] != i;
        }
      }
    }
  }

  /** The steps of a round that ends, by commit or rollback, after k attempts. */
  function Round(rows: seq<Row>, batch: seq<nat>, answers: string -> Answer, arrived: string -> bool, k: nat,
                 commit: bool): seq<Broker.Step>
    requires Places(rows, batch) && k <= |batch|
  {
    Attempts(rows, batch, answers, arrived, k) + Endings(rows, batch, commit, k)
  }

  lemma {:induction false} RunConcat(s: Broker.State, a: seq<Broker.Step>, b: seq<Broker.Step>)
    requires Broker.MayRun(s, a) && Broker.MayRun(Broker.Ran(s, a), b)
    ensures Broker.MayRun(s, a + b) && Broker.Ran(s, a + b) == Broker.Ran(Broker.Ran(s, a), b)
    decreases |a|
  {
    hide Broker.MayStep, Broker.Do;
    if a == [] {
      assert a + b == b;
    } else {
      assert (a + b)[1..] == a[1..] + b;
      RunConcat(Broker.Do(s, a[0]), a[1..], b);
    }
  }

  /**
   A round over the table, committed after any number of attempts or rolled back after any number of them, is a run
   of the pipeline: it leaves the outbox the table mirrors, nothing uncommitted, and no copy less in the broker.
   */
  lemma RoundIsRun(s: Broker.State, rows: seq<Row>, now: int, locked: set<string>, answers: string -> Answer,
                   arrived: string -> bool, k: nat, commit: bool)
    requires Mirrors(s, rows, locked) && k <= |Batch(rows, now, locked, |rows|)|
    ensures var batch := Batch(rows, now, locked, |rows|); var steps := Round(rows, batch, answers, arrived, k, commit);
      && Broker.MayRun(s, steps)
      && Mirrors(Broker.Ran(s, steps), if commit then Applied(rows, batch, answers, now, k) else rows, locked)
      && OnlySent(s, Broker.Ran(s, steps)) && (!commit ==> Broker.Ran(s, steps).outbox == s.outbox)
  {
    hide Broker.MayRun, Broker.Ran, Answered, Applied, Drafted, Recorded, Tried, Attempts, Endings;
    var batch := Batch(rows, now, locked, |rows|);
    var attempts, endings := Attempts(rows, batch, answers, arrived, k), Endings(rows, batch, commit, k);
    AttemptsRun(s, rows, batch, answers, arrived, now, locked, k);
    var t := Broker.Ran(s, attempts);
    BatchIsDistinct(s, rows, batch, now, locked);
    EndingsRun(s, t, rows, batch, answers, now, k, commit, k);
    DraftedBack(s, rows, batch, answers, now, k);
    RunConcat(s, attempts, endings);
    if commit {
      StillMirrors(s, Broker.Ran(t, endings), rows, batch, answers, now, locked, k);
    }
  }

  /** The consumer's side and the ledger are untouched, no row is left uncommitted, and copies have only been added. */
  ghost predicate OnlySent(s: Broker.State, t: Broker.State) {
    && t.drafts == s.drafts && t.db == s.db && t.applied == s.applied && t.unacked == s.unacked && t.dead == s.dead
    && s.queue <= t.queue && s.entered <= t.entered
  }

  // ---- A row that keeps failing ----------------------------------------------------------------------

  /** A fresh row after failures at the given times. */
  function Failing(row: Row, times: seq<int>): Row {
    if times == [] then row
    else Answered(Failing(row, times[..|times| - 1]), Refused, times[|times| - 1])
  }

  /** Each attempt is made when the row is due and still pending. */
  predicate Scheduled(row: Row, times: seq<int>) {
    forall k :: 0 <= k < |times| ==>
      Failing(row, times[..k]).due <= times[k] && Failing(row, times[..k]).event.status.Pending?
  }

  /** The seconds between the first attempt and the time attempt n may be made. */
  function Waited(n: nat): int {
    if n == 0 then 0 else Waited(n - 1) + Backoff(n - 1)
  }

  /** A fresh row is given up at its twelfth failure and not before. */
  lemma {:induction false} GivenUpAtTwelve(row: Row, times: seq<int>)
    requires row.event.status.Pending? && row.event.attempts == 0 && Scheduled(row, times)
    ensures |times| <= 12 && Failing(row, times).event.attempts == |times|
    ensures Failing(row, times).event.status.GivenUp? <==> |times| == 12
    ensures Failing(row, times).event.status.Pending? <==> |times| < 12
  {
    if times != [] {
      var init := times[..|times| - 1];
      SchedulePrefix(row, times);
      GivenUpAtTwelve(row, init);
      assert Failing(row, times[..|init|]).event.status.Pending?;
    }
  }

  lemma SchedulePrefix(row: Row, times: seq<int>)
    requires Scheduled(row, times) && times != []
    ensures Scheduled(row, times[..|times| - 1])
  {
    var init := times[..|times| - 1];
    forall k | 0 <= k < |init|
      ensures Failing(row, init[..k]).due <= init[k] && Failing(row, init[..k]).event.status.Pending?
    {
      assert init[..k] == times[..k];
    }
  }

  lemma {:induction false} WaitsAddUp(row: Row, times: seq<int>)
    requires row.event.status.Pending? && row.event.attempts == 0 && Scheduled(row, times) && times != []
    ensures times[|times| - 1] - times[0] >= Waited(|times| - 1)
  {
    if |times| > 1 {
      var init := times[..|times| - 1];
      SchedulePrefix(row, times);
      WaitsAddUp(row, init);
      SchedulePrefix(row, init);
      GivenUpAtTwelve(row, init);
      GivenUpAtTwelve(row, init[..|init| - 1]);
      assert times[..|init|] == init;
    }
  }

  /** An event is never given up within two hours and twenty-five minutes of its first attempt. */
  lemma GivenUpNotBefore(row: Row, times: seq<int>)
    requires row.event.status.Pending? && row.event.attempts == 0 && Scheduled(row, times)
    requires Failing(row, times).event.status.GivenUp?
    ensures times != [] && times[|times| - 1] - times[0] >= 8715
  {
    GivenUpAtTwelve(row, times);
    WaitsAddUp(row, times);
    WaitedEleven();
  }

  lemma WaitedEleven()
    ensures Waited(11) == 8715
  {
  }
}
