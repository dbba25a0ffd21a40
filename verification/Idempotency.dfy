/**
 Idempotency keys: claim, run, complete, as requests interleave, crash, clean up and take over each other's
 stale claims. The request hash stands for the canonical text it is taken of.
 */
module Idempotency {
  import Canonical
  import CanonicalProofs

  // ---- Rows and statements ---------------------------------------------------------------------------

  /** The primary key of idempotency_keys. */
  datatype Slot = Slot(tenant: nat, key: string)

  /** SHA-256 is taken to be collision-free: a hash is as good as the text. */
  type Digest = Canonical.Text

  datatype Response = Response(status: int, body: string)

  datatype RowState = InProgress | Completed(response: Response)

  datatype Row = Row(endpoint: string, hash: Digest, state: RowState, createdAt: nat, expiresAt: nat)

  type Rows = map<Slot, Row>

  /** Milliseconds: 24 hours and 10 minutes. */
  const TTL := 86400000
  const STALE := 600000

  /** INSERT ... ON CONFLICT DO NOTHING. */
  function Inserted(rows: Rows, slot: Slot, endpoint: string, hash: Digest, expires: nat, now: nat): Rows {
    if slot in rows then rows else rows[slot := Row(endpoint, hash, InProgress, now, expires)]
  }

  /** What claim concludes from the row it reads after its insert met a conflict. */
  datatype Verdict =
    | Vanished
    | OtherEndpoint
    | OtherBody
    | Replay(response: Response)
    | Busy
    | TakeOver(stamp: nat)

  function Judge(rows: Rows, slot: Slot, endpoint: string, hash: Digest, now: nat): Verdict {
    if slot !in rows then Vanished
    else
      var row := rows[slot];
      if row.endpoint != endpoint then OtherEndpoint
      else if row.state.Completed? then
        if row.hash != hash then OtherBody else Replay(row.state.response)
      else if now < row.createdAt + STALE then Busy
      else TakeOver(row.createdAt)
  }

  /** The takeover's WHERE clause: the claim read is still the one in the table. */
  predicate StillThere(rows: Rows, slot: Slot, stamp: nat) {
    slot in rows && rows[slot].state.InProgress? && rows[slot].createdAt == stamp
  }

  function TakenOver(rows: Rows, slot: Slot, endpoint: string, hash: Digest, expires: nat, now: nat): Rows {
    rows[slot := Row(endpoint, hash, InProgress, now, expires)]
  }

  /** The completion, without any check of whose claim it completes. */
  function Finished(rows: Rows, slot: Slot, response: Response): Rows {
    if slot in rows then rows[slot := rows[slot].(state := Completed(response))] else rows
  }

  /** The cleanup, of whichever claim is in progress. */
  function Cleaned(rows: Rows, slot: Slot): Rows {
    if slot in rows && rows[slot].state.InProgress? then rows - {slot} else rows
  }

  // ---- Requests and the machine ----------------------------------------------------------------------

  datatype Outcome =
    | Created(response: Response)
    | Replayed(response: Response)
    | Conflict
    | Unprocessable
    | Failed
    | Crashed

  /** `Unsure` has committed but been told of an error: it is about to clean up all the same. */
  datatype Phase =
    | Claiming(expires: nat)
    | Reading(expires: nat)
    | Reclaiming(stamp: nat, expires: nat)
    | Running(since: nat)
    | Cleaning(since: nat)
    | Unsure(since: nat)
    | Done(outcome: Outcome)

  datatype Request = Request(slot: Slot, endpoint: string, hash: Digest, arrived: nat, phase: Phase)

  /** One committed piece of work. */
  datatype Entry = Entry(request: nat, slot: Slot, endpoint: string, hash: Digest, response: Response,
                         claimedAt: nat, expiresAt: nat)

  datatype State = State(now: nat, rows: Rows, requests: map<nat, Request>, log: seq<Entry>)

  const INITIAL := State(0, map[], map[], [])

  datatype Step =
    | Arrive(x: nat, slot: Slot, endpoint: string, hash: Digest)
    | Insert(x: nat)
    | Select(x: nat)
    | Reclaim(x: nat, exact: bool)
    | Commit(x: nat, response: Response, told: bool)
    | Fail(x: nat)
    | CleanUp(x: nat, ok: bool)
    | Crash(x: nat)
    | Purge(slot: Slot)
    | Tick(ms: nat)

  /** Holding a claim: the work is running or being cleaned up after. */
  predicate Live(p: Phase) {
    p.Running? || p.Cleaning?
  }

  /**
   The timing assumption: a request that holds a claim commits or cleans up, and an unsure one cleans up, within the
   stale window of its claim, and a claim is written no later than one stale window before the expiry it computed on
   arrival.
   */
  predicate InTime(s: State, ms: nat) {
    forall x :: x in s.requests && (Live(s.requests[x].phase) || s.requests[x].phase.Unsure?) ==>
      s.now + ms < s.requests[x].phase.since + STALE
  }

  predicate MayStep(s: State, step: Step) {
    match step
    case Arrive(x, _, _, _) => x !in s.requests
    case Insert(x) => x in s.requests && s.requests[x].phase.Claiming? && s.now + STALE <= s.requests[x].phase.expires
    case Select(x) => x in s.requests && s.requests[x].phase.Reading?
    case Reclaim(x, _) =>
      x in s.requests && s.requests[x].phase.Reclaiming? && s.now + STALE <= s.requests[x].phase.expires
    case Commit(x, _, _) => x in s.requests && s.requests[x].phase.Running?
    case Fail(x) => x in s.requests && s.requests[x].phase.Running?
    case CleanUp(x, _) => x in s.requests && (s.requests[x].phase.Cleaning? || s.requests[x].phase.Unsure?)
    case Crash(x) => x in s.requests && !s.requests[x].phase.Done?
    case Purge(slot) => slot in s.rows && s.rows[slot].expiresAt < s.now
    case Tick(ms) => InTime(s, ms)
  }

  function Move(s: State, x: nat, phase: Phase): State
    requires x in s.requests
  {
    s.(requests := s.requests[x := s.requests[x].(phase := phase)])
  }

  function After(v: Verdict, expires: nat): Phase {
    match v
    case Vanished => Done(Conflict)
    case OtherEndpoint => Done(Unprocessable)
    case OtherBody => Done(Unprocessable)
    case Replay(response) => Done(Replayed(response))
    case Busy => Done(Conflict)
    case TakeOver(stamp) => Reclaiming(stamp, expires)
  }

  function Do(s: State, step: Step): State
    requires MayStep(s, step)
  {
    match step
    case Arrive(x, slot, endpoint, hash) =>
      s.(requests := s.requests[x := Request(slot, endpoint, hash, s.now, Claiming(s.now + TTL))])
    case Insert(x) =>
      var r := s.requests[x];
      Move(s, x, if r.slot in s.rows then Reading(r.phase.expires) else Running(s.now))
        .(rows := Inserted(s.rows, r.slot, r.endpoint, r.hash, r.phase.expires, s.now))
    case Select(x) =>
      var r := s.requests[x];
      Move(s, x, After(Judge(s.rows, r.slot, r.endpoint, r.hash, s.now), r.phase.expires))
    case Reclaim(x, exact) =>
      var r := s.requests[x];
      if exact && StillThere(s.rows, r.slot, r.phase.stamp) then
        Move(s, x, Running(s.now)).(rows := TakenOver(s.rows, r.slot, r.endpoint, r.hash, r.phase.expires, s.now))
      else Move(s, x, Done(Conflict))
    case Commit(x, response, told) =>
      var r := s.requests[x];
      var expires := if r.slot in s.rows then s.rows[r.slot].expiresAt else s.now;
      Move(s, x, if told then Done(Created(response)) else Unsure(r.phase.since)).(
        rows := Finished(s.rows, r.slot, response),
        log := s.log + [Entry(x, r.slot, r.endpoint, r.hash, response, r.phase.since, expires)])
    case Fail(x) => Move(s, x, Cleaning(s.requests[x].phase.since))
    case CleanUp(x, ok) =>
      Move(s, x, Done(Failed)).(rows := if ok then Cleaned(s.rows, s.requests[x].slot) else s.rows)
    case Crash(x) => Move(s, x, Done(Crashed))
    case Purge(slot) => s.(rows := s.rows - {slot})
    case Tick(ms) => s.(now := s.now + ms)
  }

  // ---- The invariant -----------------------------------------------------------------------------------

  /** A live request owns the row of its key. */
  ghost predicate Owns(s: State, r: Request)
    requires Live(r.phase)
  {
    && r.slot in s.rows
    && s.rows[r.slot].state == InProgress && s.rows[r.slot].createdAt == r.phase.since
    && s.rows[r.slot].endpoint == r.endpoint && s.rows[r.slot].hash == r.hash
    && s.now < r.phase.since + STALE && r.phase.since + STALE <= s.rows[r.slot].expiresAt
  }

  ghost predicate Rival(a: Request, b: Request) {
    Live(a.phase) && Live(b.phase) && a.slot == b.slot
  }

  ghost predicate Owners(s: State) {
    && (forall x :: x in s.requests && Live(s.requests[x].phase) ==> Owns(s, s.requests[x]))
    && (forall x, y | x in s.requests && y in s.requests && Rival(s.requests[x], s.requests[y]) :: x == y)
    && (forall x :: x in s.requests && s.requests[x].phase.Reclaiming? ==> s.requests[x].phase.stamp + STALE <= s.now)
    && (forall slot :: slot in s.rows ==> s.rows[slot].createdAt <= s.now)
  }

  /** An unsure request's cleanup finds its own completed row, which it does not delete. */
  ghost predicate Harmless(s: State, r: Request)
    requires r.phase.Unsure?
  {
    && r.slot in s.rows && s.rows[r.slot].state.Completed?
    && s.now < r.phase.since + STALE && r.phase.since + STALE <= s.rows[r.slot].expiresAt
  }

  ghost predicate UnsureOk(s: State) {
    forall x :: x in s.requests && s.requests[x].phase.Unsure? ==> Harmless(s, s.requests[x])
  }

  /** The row a committed piece of work leaves behind. */
  function RowOf(e: Entry): Row {
    Row(e.endpoint, e.hash, Completed(e.response), e.claimedAt, e.expiresAt)
  }

  ghost predicate Logged(log: seq<Entry>, slot: Slot, row: Row) {
    exists i :: 0 <= i < |log| && log[i].slot == slot && RowOf(log[i]) == row
  }

  ghost predicate LogOk(s: State) {
    // until its key expires, committed work is what the row says
    && (forall i :: 0 <= i < |s.log| ==>
          s.now <= s.log[i].expiresAt ==> s.log[i].slot in s.rows && s.rows[s.log[i].slot] == RowOf(s.log[i]))
    // a completed row is committed work
    && (forall slot :: slot in s.rows && s.rows[slot].state.Completed? ==> Logged(s.log, slot, s.rows[slot]))
    // an open claim was made after every earlier commit on its key had expired
    && (forall i :: 0 <= i < |s.log| && s.log[i].slot in s.rows && s.rows[s.log[i].slot].state.InProgress? ==>
          s.log[i].expiresAt < s.rows[s.log[i].slot].createdAt)
    && (forall i, j :: 0 <= i < j < |s.log| && s.log[i].slot == s.log[j].slot ==>
          s.log[i].expiresAt < s.log[j].claimedAt)
  }

  ghost predicate InLog(log: seq<Entry>, x: nat, r: Request, response: Response) {
    exists i :: 0 <= i < |log|
             && log[i] == Entry(x, r.slot, r.endpoint, r.hash, response, log[i].claimedAt, log[i].expiresAt)
  }

  ghost predicate Echoes(log: seq<Entry>, r: Request, response: Response) {
    exists i :: 0 <= i < |log| && log[i].slot == r.slot && log[i].endpoint == r.endpoint
             && log[i].hash == r.hash && log[i].response == response
  }

  /** Where a request is whose work is committed: answered, or left without the answer. */
  predicate Over(p: Phase, response: Response) {
    p == Done(Created(response)) || p.Unsure? || p == Done(Failed) || p == Done(Crashed)
  }

  /** What callers were told is what happened. */
  ghost predicate OutcomesOk(s: State) {
    && (forall x :: x in s.requests && s.requests[x].phase.Done? && s.requests[x].phase.outcome.Created? ==>
          InLog(s.log, x, s.requests[x], s.requests[x].phase.outcome.response))
    && (forall i :: 0 <= i < |s.log| ==>
          s.log[i].request in s.requests && Over(s.requests[s.log[i].request].phase, s.log[i].response))
    && (forall i, j :: 0 <= i < j < |s.log| ==> s.log[i].request != s.log[j].request)
    && (forall x :: x in s.requests && s.requests[x].phase.Done? && s.requests[x].phase.outcome.Replayed? ==>
          Echoes(s.log, s.requests[x], s.requests[x].phase.outcome.response))
  }

  ghost predicate Ok(s: State) {
    Owners(s) && UnsureOk(s) && LogOk(s) && OutcomesOk(s)
  }

  // ---- Every step keeps it: owners ---------------------------------------------------------------------

  ghost predicate OnlyMoved(s: State, after: State, x: nat) {
    && x in s.requests && x in after.requests
    && after.requests == s.requests[x := s.requests[x].(phase := after.requests[x].phase)]
  }

  /** A request moves on without touching the table; it becomes live only if it was. */
  lemma OwnersMoved(s: State, after: State, x: nat)
    requires Owners(s) && OnlyMoved(s, after, x) && after.rows == s.rows && after.now == s.now
    requires var p := after.requests[x].phase;
      && (Live(p) ==> Live(s.requests[x].phase) && p.since == s.requests[x].phase.since)
      && (p.Reclaiming? ==> p.stamp + STALE <= s.now)
    ensures Owners(after)
  {
  }

  /** No one is live on a key that is free or whose claim is stale. */
  ghost predicate Unowned(s: State, slot: Slot) {
    forall y :: y in s.requests && Live(s.requests[y].phase) ==> s.requests[y].slot != slot
  }

  ghost predicate Claims(s: State, after: State, x: nat) {
    && OnlyMoved(s, after, x) && after.now == s.now && after.log == s.log
    && after.requests[x].phase == Running(s.now)
    && var r := s.requests[x];
    && exists expires: nat :: s.now + STALE <= expires
         && after.rows == s.rows[r.slot := Row(r.endpoint, r.hash, InProgress, s.now, expires)]
  }

  lemma OwnersClaimed(s: State, after: State, x: nat)
    requires Owners(s) && Claims(s, after, x) && Unowned(s, s.requests[x].slot)
    ensures Owners(after)
  {
  }

  /** A live request ends and leaves some row, or none, under its key. */
  ghost predicate Ends(s: State, after: State, x: nat) {
    && OnlyMoved(s, after, x) && after.now == s.now
    && Live(s.requests[x].phase) && (after.requests[x].phase.Done? || after.requests[x].phase.Unsure?)
    && (forall slot :: slot in after.rows ==> slot in s.rows && after.rows[slot].createdAt == s.rows[slot].createdAt)
    && (forall slot :: slot in s.rows && slot != s.requests[x].slot ==>
            slot in after.rows && after.rows[slot] == s.rows[slot])
  }

  lemma OwnersEnded(s: State, after: State, x: nat)
    requires Owners(s) && Ends(s, after, x)
    ensures Owners(after)
  {
  }

  lemma ClaimSteps(s: State, step: Step)
    requires Owners(s) && MayStep(s, step) && (step.Insert? || step.Reclaim?)
    ensures var x := step.x; var after := Do(s, step);
      && OnlyMoved(s, after, x) && after.now == s.now && after.log == s.log
      && (after.requests[x].phase.Running? ==>
            Claims(s, after, x) && Unowned(s, s.requests[x].slot)
            && (s.requests[x].slot in s.rows ==> s.rows[s.requests[x].slot].state.InProgress?))
      && (!after.requests[x].phase.Running? ==> after.rows == s.rows && !Live(after.requests[x].phase)
                                                && !after.requests[x].phase.Reclaiming?)
  {
  }

  lemma EndSteps(s: State, step: Step)
    requires Owners(s) && MayStep(s, step) && (step.Commit? || step.CleanUp?)
    requires !s.requests[step.x].phase.Unsure?
    ensures Ends(s, Do(s, step), step.x)
  {
  }

  /** The guarded delete of an unsure request deletes nothing. */
  lemma UnsureCleanUp(s: State, x: nat, ok: bool)
    requires UnsureOk(s) && MayStep(s, CleanUp(x, ok)) && s.requests[x].phase.Unsure?
    ensures var after := Do(s, CleanUp(x, ok));
      && OnlyMoved(s, after, x) && after.rows == s.rows && after.now == s.now && after.log == s.log
      && after.requests[x].phase == Done(Failed)
  {
    assert Harmless(s, s.requests[x]);
  }

  lemma OwnersKept(s: State, step: Step)
    requires Owners(s) && UnsureOk(s) && MayStep(s, step)
    ensures Owners(Do(s, step))
  {
    hide Owns, Rival, Do, MayStep, Owners, UnsureOk;
    match step
    case Arrive(x, slot, endpoint, hash) => OwnersArrived(s, step);
    case Insert(x) => OwnersAfterClaim(s, step);
    case Reclaim(x, _) => OwnersAfterClaim(s, step);
    case Commit(x, _, _) => OwnersCommitted(s, step);
    case CleanUp(x, ok) => OwnersCleaned(s, x, ok);
    case Purge(slot) => OwnersPurgedStep(s, slot);
    case Tick(ms) => OwnersTicked(s, ms);
    case Select(x) => SelectMoves(s, x); OwnersMoved(s, Do(s, step), x);
    case Fail(x) => QuietMoves(s, step); OwnersMoved(s, Do(s, step), x);
    case Crash(x) => QuietMoves(s, step); OwnersMoved(s, Do(s, step), x);
  }

  lemma OwnersCommitted(s: State, step: Step)
    requires Owners(s) && MayStep(s, step) && step.Commit?
    ensures Owners(Do(s, step))
  {
    hide Owns, Rival, Do, Owners;
    EndSteps(s, step);
    OwnersEnded(s, Do(s, step), step.x);
  }

  lemma OwnersCleaned(s: State, x: nat, ok: bool)
    requires Owners(s) && UnsureOk(s) && MayStep(s, CleanUp(x, ok))
    ensures Owners(Do(s, CleanUp(x, ok)))
  {
    hide Owns, Rival, Do, Owners, UnsureOk;
    if s.requests[x].phase.Unsure? {
      UnsureCleanUp(s, x, ok);
      OwnersMoved(s, Do(s, CleanUp(x, ok)), x);
    } else {
      EndSteps(s, CleanUp(x, ok));
      OwnersEnded(s, Do(s, CleanUp(x, ok)), x);
    }
  }

  /** No step of another request reaches a completed row that has not expired. */
  lemma UnsureKept(s: State, step: Step)
    requires Owners(s) && UnsureOk(s) && MayStep(s, step)
    ensures UnsureOk(Do(s, step))
  {
    hide Rival, Judge;
    if step.Commit? {
      assert Owns(s, s.requests[step.x]);
    }
  }

  lemma OwnersArrived(s: State, step: Step)
    requires Owners(s) && MayStep(s, step) && step.Arrive?
    ensures Owners(Do(s, step))
  {
  }

  lemma OwnersAfterClaim(s: State, step: Step)
    requires Owners(s) && MayStep(s, step) && (step.Insert? || step.Reclaim?)
    ensures Owners(Do(s, step))
  {
    hide Owns, Rival, Do, MayStep, Owners, Claims, Unowned;
    ClaimSteps(s, step);
    var after := Do(s, step);
    if after.requests[step.x].phase.Running? {
      OwnersClaimed(s, after, step.x);
    } else {
      OwnersMoved(s, after, step.x);
    }
  }

  lemma OwnersPurgedStep(s: State, slot: Slot)
    requires Owners(s) && MayStep(s, Purge(slot))
    ensures Owners(Do(s, Purge(slot)))
  {
  }

  lemma OwnersTicked(s: State, ms: nat)
    requires Owners(s) && MayStep(s, Tick(ms))
    ensures Owners(Do(s, Tick(ms)))
  {
  }

  lemma SelectMoves(s: State, x: nat)
    requires MayStep(s, Select(x))
    ensures var after := Do(s, Select(x));
      && OnlyMoved(s, after, x) && after.rows == s.rows && after.now == s.now && after.log == s.log
      && !Live(after.requests[x].phase)
      && (after.requests[x].phase.Reclaiming? ==> after.requests[x].phase.stamp + STALE <= s.now)
      && (after.requests[x].phase.Done? && after.requests[x].phase.outcome.Replayed? ==>
            var r := s.requests[x];
            && r.slot in s.rows && s.rows[r.slot].endpoint == r.endpoint && s.rows[r.slot].hash == r.hash
            && s.rows[r.slot].state == Completed(after.requests[x].phase.outcome.response))
  {
  }

  lemma QuietMoves(s: State, step: Step)
    requires MayStep(s, step) && (step.Fail? || step.Crash?)
    ensures var after := Do(s, step);
      && OnlyMoved(s, after, step.x) && after.rows == s.rows && after.now == s.now && after.log == s.log
      && (step.Fail? ==> after.requests[step.x].phase == Cleaning(s.requests[step.x].phase.since))
      && (step.Fail? ==> Live(s.requests[step.x].phase))
      && (step.Crash? ==> after.requests[step.x].phase == Done(Crashed))
  {
  }

  // ---- Every step keeps it: the log ----------------------------------------------------------------------

  lemma LogClaimed(s: State, after: State, x: nat)
    requires Owners(s) && LogOk(s) && Claims(s, after, x)
    requires s.requests[x].slot in s.rows ==> s.rows[s.requests[x].slot].state.InProgress?
    ensures LogOk(after)
  {
  }

  lemma LogCommitted(s: State, x: nat, response: Response, told: bool)
    requires Owners(s) && LogOk(s) && MayStep(s, Commit(x, response, told))
    ensures LogOk(Do(s, Commit(x, response, told)))
  {
    var after := Do(s, Commit(x, response, told));
    var r := s.requests[x];
    assert Owns(s, r);
    var n := |s.log|;
    assert after.log[n].slot == r.slot && RowOf(after.log[n]) == after.rows[r.slot];
    forall slot | slot in after.rows && after.rows[slot].state.Completed?
      ensures Logged(after.log, slot, after.rows[slot])
    {
      if slot != r.slot {
        assert Logged(s.log, slot, s.rows[slot]);
        var i :| 0 <= i < n && s.log[i].slot == slot && RowOf(s.log[i]) == s.rows[slot];
        assert after.log[i] == s.log[i];
      }
    }
    forall i | 0 <= i < n && s.log[i].slot == r.slot ensures s.log[i].expiresAt < r.phase.since {
    }
  }

  lemma LogCleaned(s: State, x: nat, ok: bool)
    requires LogOk(s) && MayStep(s, CleanUp(x, ok))
    ensures LogOk(Do(s, CleanUp(x, ok)))
  {
  }

  lemma LogPurged(s: State, slot: Slot)
    requires LogOk(s) && MayStep(s, Purge(slot))
    ensures LogOk(Do(s, Purge(slot)))
  {
  }

  /** Only time, the rows and the log matter. */
  lemma LogStays(s: State, after: State)
    requires LogOk(s) && after.rows == s.rows && after.log == s.log && after.now >= s.now
    ensures LogOk(after)
  {
  }

  lemma LogKept(s: State, step: Step)
    requires Owners(s) && LogOk(s) && MayStep(s, step)
    ensures LogOk(Do(s, step))
  {
    hide Owns, Rival, Owners, LogOk, Claims, Unowned, Judge;
    var after := Do(s, step);
    match step
    case Insert(x) => LogAfterClaim(s, step);
    case Reclaim(x, _) => LogAfterClaim(s, step);
    case Commit(x, response, told) => LogCommitted(s, x, response, told);
    case CleanUp(x, ok) => LogCleaned(s, x, ok);
    case Purge(slot) => LogPurged(s, slot);
    case _ => LogStays(s, after);
  }

  lemma LogAfterClaim(s: State, step: Step)
    requires Owners(s) && LogOk(s) && MayStep(s, step) && (step.Insert? || step.Reclaim?)
    ensures LogOk(Do(s, step))
  {
    hide Owners, LogOk, Claims, Unowned, Do;
    ClaimSteps(s, step);
    if Do(s, step).requests[step.x].phase.Running? {
      LogClaimed(s, Do(s, step), step.x);
    } else {
      LogStays(s, Do(s, step));
    }
  }

  // ---- Every step keeps it: outcomes -------------------------------------------------------------------

  lemma LogGrows(log: seq<Entry>, e: Entry, x: nat, r: Request, response: Response)
    ensures InLog(log, x, r, response) ==> InLog(log + [e], x, r, response)
    ensures Echoes(log, r, response) ==> Echoes(log + [e], r, response)
  {
    forall i | 0 <= i < |log| ensures (log + [e])[i] == log[i] {
    }
  }

  lemma OutcomesMoved(s: State, after: State, x: nat)
    requires OutcomesOk(s) && OnlyMoved(s, after, x) && after.log == s.log && !s.requests[x].phase.Done?
    requires var p := after.requests[x].phase;
      p.Done? ==> !p.outcome.Created? && (p.outcome.Replayed? ==> Echoes(s.log, s.requests[x], p.outcome.response))
    requires s.requests[x].phase.Unsure? ==>
               after.requests[x].phase == Done(Failed) || after.requests[x].phase == Done(Crashed)
    ensures OutcomesOk(after)
  {
  }

  lemma OutcomesCommitted(s: State, x: nat, response: Response, told: bool)
    requires OutcomesOk(s) && MayStep(s, Commit(x, response, told))
    ensures OutcomesOk(Do(s, Commit(x, response, told)))
  {
    var after := Do(s, Commit(x, response, told));
    var e := after.log[|s.log|];
    var r := s.requests[x];
    assert e == Entry(x, r.slot, r.endpoint, r.hash, response, e.claimedAt, e.expiresAt);
    forall y | y in after.requests && after.requests[y].phase.Done? && after.requests[y].phase.outcome.Created?
      ensures InLog(after.log, y, after.requests[y], after.requests[y].phase.outcome.response)
    {
      if y != x {
        LogGrows(s.log, e, y, s.requests[y], s.requests[y].phase.outcome.response);
      }
    }
    forall y | y in after.requests && after.requests[y].phase.Done? && after.requests[y].phase.outcome.Replayed?
      ensures Echoes(after.log, after.requests[y], after.requests[y].phase.outcome.response)
    {
      LogGrows(s.log, e, y, s.requests[y], s.requests[y].phase.outcome.response);
    }
  }

  lemma ReplayEchoes(s: State, x: nat)
    requires LogOk(s) && MayStep(s, Select(x))
    ensures var p := Do(s, Select(x)).requests[x].phase;
      p.Done? && p.outcome.Replayed? ==> Echoes(s.log, s.requests[x], p.outcome.response)
  {
  }

  lemma OutcomesKept(s: State, step: Step)
    requires LogOk(s) && OutcomesOk(s) && MayStep(s, step)
    ensures OutcomesOk(Do(s, step))
  {
    hide LogOk, OutcomesOk, Echoes, InLog;
    match step
    case Arrive(x, _, _, _) => OutcomesArrived(s, step);
    case Commit(x, response, told) => OutcomesCommitted(s, x, response, told);
    case Select(x) => SelectMoves(s, x); ReplayEchoes(s, x); SelectNotCreated(s, x); OutcomesMoved(s, Do(s, step), x);
    case Purge(slot) => OutcomesStay(s, Do(s, step));
    case Tick(ms) => OutcomesStay(s, Do(s, step));
    case _ => OutcomesMoved(s, Do(s, step), step.x);
  }

  lemma SelectNotCreated(s: State, x: nat)
    requires MayStep(s, Select(x))
    ensures var p := Do(s, Select(x)).requests[x].phase; p.Done? ==> !p.outcome.Created?
  {
  }

  lemma OutcomesStay(s: State, after: State)
    requires OutcomesOk(s) && after.requests == s.requests && after.log == s.log
    ensures OutcomesOk(after)
  {
  }

  lemma OutcomesArrived(s: State, step: Step)
    requires OutcomesOk(s) && MayStep(s, step) && step.Arrive?
    ensures OutcomesOk(Do(s, step))
  {
  }

  // ---- Runs ------------------------------------------------------------------------------------------------

  lemma StepKeeps(s: State, step: Step)
    requires Ok(s) && MayStep(s, step)
    ensures Ok(Do(s, step))
  {
    hide Owners, UnsureOk, LogOk, OutcomesOk, Do, MayStep;
    OwnersKept(s, step);
    UnsureKept(s, step);
    LogKept(s, step);
    OutcomesKept(s, step);
  }

  ghost predicate MayRun(s: State, steps: seq<Step>)
    decreases |steps|
  {
    steps == [] || (MayStep(s, steps[0]) && MayRun(Do(s, steps[0]), steps[1..]))
  }

  ghost function Ran(s: State, steps: seq<Step>): State
    requires MayRun(s, steps)
    decreases |steps|
  {
    if steps == [] then s else Ran(Do(s, steps[0]), steps[1..])
  }

  lemma {:induction false} RanOk(s: State, steps: seq<Step>)
    requires Ok(s) && MayRun(s, steps)
    ensures Ok(Ran(s, steps))
    decreases |steps|
  {
    hide Ok, Do, MayStep;
    if steps != [] {
      StepKeeps(s, steps[0]);
      RanOk(Do(s, steps[0]), steps[1..]);
    }
  }

  /**
   At most one request's work is committed per key within the key's lifetime: a later commit's claim is
   younger than the expiry of every earlier one, under any interleaving of claims, crashes, cleanups,
   takeovers and purges.
   */
  lemma OneCommitPerLifetime(steps: seq<Step>, i: nat, j: nat)
    requires MayRun(INITIAL, steps)
    requires var log := Ran(INITIAL, steps).log; i < j < |log| && log[i].slot == log[j].slot
    ensures var log := Ran(INITIAL, steps).log;
            log[i].request != log[j].request && log[i].expiresAt < log[j].claimedAt
  {
    RanOk(INITIAL, steps);
    assert LogOk(Ran(INITIAL, steps)) && OutcomesOk(Ran(INITIAL, steps));
  }

  /** A claim expires at most a day after it was made, and not within the stale window. */
  predicate Lifetime(from: nat, expires: nat) {
    from + STALE <= expires <= from + TTL
  }

  ghost predicate LifetimesOk(s: State) {
    && (forall slot :: slot in s.rows ==> Lifetime(s.rows[slot].createdAt, s.rows[slot].expiresAt))
    && (forall i :: 0 <= i < |s.log| ==> Lifetime(s.log[i].claimedAt, s.log[i].expiresAt))
    && (forall x :: x in s.requests ==>
          var p := s.requests[x].phase; (p.Claiming? || p.Reading? || p.Reclaiming? ==> p.expires <= s.now + TTL))
  }

  lemma LifetimesKept(s: State, step: Step)
    requires Owners(s) && LifetimesOk(s) && MayStep(s, step)
    ensures LifetimesOk(Do(s, step))
  {
    hide Rival, Unowned, Judge;
    if step.Commit? {
      assert Owns(s, s.requests[step.x]);
    }
  }

  /** A claim is to expire a day after the request that makes it arrived. */
  ghost predicate ClaimsArrived(s: State) {
    forall x :: x in s.requests ==> ArrivedOk(s, s.requests[x])
  }

  ghost predicate ArrivedOk(s: State, r: Request) {
    && (r.phase.Claiming? || r.phase.Reading? || r.phase.Reclaiming? ==> r.phase.expires == r.arrived + TTL)
    && (Live(r.phase) ==> r.slot in s.rows && s.rows[r.slot].expiresAt == r.arrived + TTL)
  }

  ghost predicate LogArrived(s: State) {
    forall i :: 0 <= i < |s.log| ==>
      s.log[i].request in s.requests && s.log[i].expiresAt == s.requests[s.log[i].request].arrived + TTL
  }

  lemma ClaimsArrivedKept(s: State, step: Step)
    requires Owners(s) && UnsureOk(s) && ClaimsArrived(s) && MayStep(s, step)
    ensures ClaimsArrived(Do(s, step))
  {
    hide Judge, InTime;
    if step.CleanUp? && s.requests[step.x].phase.Unsure? {
      UnsureCleanUp(s, step.x, step.ok);
    }
  }

  lemma LogArrivedKept(s: State, step: Step)
    requires ClaimsArrived(s) && LogArrived(s) && MayStep(s, step)
    ensures LogArrived(Do(s, step))
  {
    hide Judge, InTime, Finished, Cleaned, Inserted, TakenOver;
    if step.Commit? {
      assert ArrivedOk(s, s.requests[step.x]);
    }
  }

  lemma {:induction false} RanArrived(s: State, steps: seq<Step>)
    requires Ok(s) && ClaimsArrived(s) && LogArrived(s) && MayRun(s, steps)
    ensures LogArrived(Ran(s, steps))
    decreases |steps|
  {
    hide ClaimsArrived, LogArrived, Do, MayStep, Owners, UnsureOk, LogOk, OutcomesOk;
    if steps != [] {
      StepKeeps(s, steps[0]);
      ClaimsArrivedKept(s, steps[0]);
      LogArrivedKept(s, steps[0]);
      RanArrived(Do(s, steps[0]), steps[1..]);
    }
  }

  lemma {:induction false} RanLifetimes(s: State, steps: seq<Step>)
    requires Ok(s) && LifetimesOk(s) && MayRun(s, steps)
    ensures LifetimesOk(Ran(s, steps))
    decreases |steps|
  {
    hide LifetimesOk, Do, MayStep, Owners, UnsureOk, LogOk, OutcomesOk;
    if steps != [] {
      StepKeeps(s, steps[0]);
      LifetimesKept(s, steps[0]);
      RanLifetimes(Do(s, steps[0]), steps[1..]);
    }
  }

  /** Every committed key lives for more than the stale window and at most a day from its claim. */
  lemma KeysLiveADay(steps: seq<Step>, i: nat)
    requires MayRun(INITIAL, steps) && i < |Ran(INITIAL, steps).log|
    ensures Lifetime(Ran(INITIAL, steps).log[i].claimedAt, Ran(INITIAL, steps).log[i].expiresAt)
  {
    RanLifetimes(INITIAL, steps);
  }

  /** A committed key expires a day to the millisecond after the request that committed it arrived. */
  lemma KeysLiveFromArrival(steps: seq<Step>, i: nat)
    requires MayRun(INITIAL, steps) && i < |Ran(INITIAL, steps).log|
    ensures var s := Ran(INITIAL, steps);
      && s.log[i].request in s.requests
      && s.log[i].expiresAt == s.requests[s.log[i].request].arrived + 24 * 60 * 60 * 1000
  {
    RanArrived(INITIAL, steps);
  }

  /** Within a committed key's lifetime the row is that work, and no request holds a claim on the key. */
  ghost predicate Settled(s: State, e: Entry) {
    && e.slot in s.rows && s.rows[e.slot] == RowOf(e)
    && forall y :: y in s.requests && s.requests[y].slot == e.slot ==> !Live(s.requests[y].phase)
  }

  lemma CommittedIsSettled(steps: seq<Step>, i: nat)
    requires MayRun(INITIAL, steps)
    requires i < |Ran(INITIAL, steps).log| && Ran(INITIAL, steps).now <= Ran(INITIAL, steps).log[i].expiresAt
    ensures Settled(Ran(INITIAL, steps), Ran(INITIAL, steps).log[i])
  {
    hide MayRun, Ran;
    RanOk(INITIAL, steps);
    var s := Ran(INITIAL, steps);
    assert LogOk(s) && Owners(s);
    forall y | y in s.requests && s.requests[y].slot == s.log[i].slot ensures !Live(s.requests[y].phase) {
      assert Live(s.requests[y].phase) ==> Owns(s, s.requests[y]);
    }
  }

  /** What a request on a settled key is told depends only on whether it is the same request again. */
  lemma SettledAnswers(s: State, e: Entry, x: nat)
    requires Settled(s, e) && MayStep(s, Select(x)) && s.requests[x].slot == e.slot
    ensures var r := s.requests[x]; var p := Do(s, Select(x)).requests[x].phase;
      && (r.endpoint == e.endpoint && r.hash == e.hash <==> p == Done(Replayed(e.response)))
      && (r.endpoint != e.endpoint || r.hash != e.hash <==> p == Done(Unprocessable))
  {
  }

  /**
   For a day from the arrival of the request that committed a key, the same request is answered with its response and
   any other one on that key is refused.
   */
  lemma ReplayedForADay(steps: seq<Step>, i: nat, x: nat)
    requires MayRun(INITIAL, steps) && i < |Ran(INITIAL, steps).log|
    requires var s := Ran(INITIAL, steps);
      && MayStep(s, Select(x)) && s.requests[x].slot == s.log[i].slot && s.log[i].request in s.requests
      && s.now <= s.requests[s.log[i].request].arrived + 24 * 60 * 60 * 1000
    ensures var s := Ran(INITIAL, steps); var r, e := s.requests[x], s.log[i];
      Do(s, Select(x)).requests[x].phase ==
        Done(if r.endpoint == e.endpoint && r.hash == e.hash then Replayed(e.response) else Unprocessable)
  {
    hide MayRun, Ran, MayStep, Do;
    KeysLiveFromArrival(steps, i);
    CommittedIsSettled(steps, i);
    SettledAnswers(Ran(INITIAL, steps), Ran(INITIAL, steps).log[i], x);
  }

  // ---- Whose claims are taken over -------------------------------------------------------------------------

  /** A request about to take a claim over has found it under its own endpoint. */
  ghost predicate ReclaimsOk(s: State) {
    && (forall slot :: slot in s.rows ==> s.rows[slot].createdAt <= s.now)
    && (forall x :: x in s.requests && s.requests[x].phase.Reclaiming? ==> ReclaimOk(s, s.requests[x]))
  }

  ghost predicate ReclaimOk(s: State, r: Request)
    requires r.phase.Reclaiming?
  {
    && r.phase.stamp + STALE <= s.now
    && (StillThere(s.rows, r.slot, r.phase.stamp) ==> s.rows[r.slot].endpoint == r.endpoint)
  }

  lemma ReclaimsKept(s: State, step: Step)
    requires ReclaimsOk(s) && MayStep(s, step)
    ensures ReclaimsOk(Do(s, step))
  {
    hide InTime;
  }

  lemma {:induction false} RanReclaims(s: State, steps: seq<Step>)
    requires ReclaimsOk(s) && MayRun(s, steps)
    ensures ReclaimsOk(Ran(s, steps))
    decreases |steps|
  {
    hide ReclaimsOk, Do, MayStep;
    if steps != [] {
      ReclaimsKept(s, steps[0]);
      RanReclaims(Do(s, steps[0]), steps[1..]);
    }
  }

  predicate IsRunning(s: State, x: nat) {
    x in s.requests && s.requests[x].phase.Running?
  }

  /** A request starts its work only on a free key, or on a claim of its own endpoint that is ten minutes old. */
  lemma RunsOnlyOwn(steps: seq<Step>, step: Step, x: nat)
    requires MayRun(INITIAL, steps) && MayStep(Ran(INITIAL, steps), step)
    requires !IsRunning(Ran(INITIAL, steps), x) && IsRunning(Do(Ran(INITIAL, steps), step), x)
    ensures var s := Ran(INITIAL, steps); x in s.requests && var r := s.requests[x];
      r.slot in s.rows ==>
        && s.rows[r.slot].endpoint == r.endpoint && s.rows[r.slot].state == InProgress
        && s.now >= s.rows[r.slot].createdAt + 10 * 60 * 1000
  {
    hide MayRun, Ran;
    RanReclaims(INITIAL, steps);
  }

  /** The same request is replayed whatever order its body's keys are in, and no other request is. */
  lemma ReplayIffSameBody(s: State, e: Entry, x: nat, first: Canonical.Json, body: Canonical.Json)
    requires Settled(s, e) && MayStep(s, Select(x)) && s.requests[x].slot == e.slot
    requires Canonical.IsJson(first) && e.hash == Canonical.Canonicalize(first)
    requires Canonical.IsJson(body) && s.requests[x].hash == Canonical.Canonicalize(body)
    ensures s.requests[x].endpoint == e.endpoint && Canonical.Same(body, first)
            <==> Do(s, Select(x)).requests[x].phase == Done(Replayed(e.response))
  {
    hide Canonical.Canonicalize, Canonical.Same, Canonical.IsJson;
    CanonicalProofs.CanonicalIffSame(body, first);
    SettledAnswers(s, e, x);
  }

  /** A completed row is committed work, and every replay gives the response of a commit of the same request. */
  lemma RepliesAreCommitted(steps: seq<Step>, x: nat, slot: Slot)
    requires MayRun(INITIAL, steps)
    ensures var s := Ran(INITIAL, steps);
      && (slot in s.rows && s.rows[slot].state.Completed? ==> Logged(s.log, slot, s.rows[slot]))
      && (x in s.requests && s.requests[x].phase.Done? && s.requests[x].phase.outcome.Replayed? ==>
            Echoes(s.log, s.requests[x], s.requests[x].phase.outcome.response))
      && (x in s.requests && s.requests[x].phase.Done? && s.requests[x].phase.outcome.Created? ==>
            InLog(s.log, x, s.requests[x], s.requests[x].phase.outcome.response))
  {
    hide MayRun, Ran, Logged, Echoes, InLog;
    RanOk(INITIAL, steps);
    var s := Ran(INITIAL, steps);
    assert LogOk(s) && OutcomesOk(s);
  }
}
