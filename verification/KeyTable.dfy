/** The idempotency table as the service updates it, one request after the other. */
module KeyTable {
  import opened Idempotency

  datatype Claimed = Fresh | Stored(response: Response) | Refused(outcome: Outcome)

  /** What comes of the work and its commit: a response, an error, or an error although it was committed. */
  datatype Work = Returns(response: Response) | Throws | Loses(response: Response)

  /** Whether a request arriving at time `now` may run its work. */
  predicate Admits(rows: Rows, slot: Slot, endpoint: string, hash: Digest, now: nat) {
    slot !in rows || Judge(rows, slot, endpoint, hash, now).TakeOver?
  }

  /** The table and the answer after one whole request. */
  function Handled(rows: Rows, slot: Slot, endpoint: string, hash: Digest, now: nat,
                   work: Work): (Rows, Outcome) {
    if Admits(rows, slot, endpoint, hash, now) then
      match work
      case Returns(response) =>
        (rows[slot := Row(endpoint, hash, Completed(response), now, now + TTL)], Created(response))
      case Throws => (rows - {slot}, Failed)
      case Loses(response) => (rows[slot := Row(endpoint, hash, Completed(response), now, now + TTL)], Failed)
    else
      match Judge(rows, slot, endpoint, hash, now)
      case Replay(response) => (rows, Replayed(response))
      case Busy => (rows, Conflict)
      case _ => (rows, Unprocessable)
  }

  function Answer(c: Claimed): Outcome
    requires !c.Fresh?
  {
    if c.Stored? then Replayed(c.response) else c.outcome
  }

  class Store {
    var rows: Rows

    constructor ()
      ensures rows == map[]
    {
      rows := map[];
    }

    method Insert(slot: Slot, endpoint: string, hash: Digest, expires: nat, now: nat) returns (count: nat)
      modifies this
      ensures rows == Inserted(old(rows), slot, endpoint, hash, expires, now)
      ensures count == if slot in old(rows) then 0 else 1
    {
      if slot in rows {
        return 0;
      }
      rows := rows[slot := Row(endpoint, hash, InProgress, now, expires)];
      count := 1;
    }

    method Reclaim(slot: Slot, endpoint: string, hash: Digest, expires: nat, stamp: nat, now: nat) returns (count: nat)
      modifies this
      ensures count == if StillThere(old(rows), slot, stamp) then 1 else 0
      ensures rows == if count == 1 then TakenOver(old(rows), slot, endpoint, hash, expires, now) else old(rows)
    {
      if slot !in rows || rows[slot].state != InProgress || rows[slot].createdAt != stamp {
        return 0;
      }
      rows := rows[slot := rows[slot].(hash := hash, endpoint := endpoint, createdAt := now, expiresAt := expires)];
      count := 1;
    }

    method Complete(slot: Slot, response: Response)
      modifies this
      ensures rows == Finished(old(rows), slot, response)
    {
      if slot in rows {
        rows := rows[slot := rows[slot].(state := Completed(response))];
      }
    }

    method CleanUp(slot: Slot)
      modifies this
      ensures rows == Cleaned(old(rows), slot)
    {
      if slot in rows && rows[slot].state == InProgress {
        rows := rows - {slot};
      }
    }

    method Claim(slot: Slot, endpoint: string, hash: Digest, now: nat) returns (c: Claimed)
      modifies this
      ensures c.Fresh? <==> Admits(old(rows), slot, endpoint, hash, now)
      ensures c.Fresh? ==> rows == old(rows)[slot := Row(endpoint, hash, InProgress, now, now + TTL)]
      ensures !c.Fresh? ==> rows == old(rows) && Handled(rows, slot, endpoint, hash, now, Throws).1 == Answer(c)
    {
      var expires := now + TTL;
      var inserted := Insert(slot, endpoint, hash, expires, now);
      if inserted == 1 {
        return Fresh;
      }
      var row := rows[slot];
      if row.endpoint != endpoint {
        return Refused(Unprocessable);
      }
      if row.state.Completed? {
        if row.hash != hash {
          return Refused(Unprocessable);
        }
        return Stored(row.state.response);
      }
      if now - row.createdAt < STALE {
        return Refused(Conflict);
      }
      var reclaimed := Reclaim(slot, endpoint, hash, expires, row.createdAt, now);
      c := if reclaimed == 1 then Fresh else Refused(Conflict);
    }

    method WithIdempotency(slot: Slot, endpoint: string, hash: Digest, now: nat, work: Work)
      returns (o: Outcome)
      modifies this
      ensures (rows, o) == Handled(old(rows), slot, endpoint, hash, now, work)
    {
      var claimed := Claim(slot, endpoint, hash, now);
      match claimed
      case Stored(response) => o := Replayed(response);
      case Refused(outcome) => o := outcome;
      case Fresh =>
        match work
        case Returns(response) =>
          Complete(slot, response);
          assert rows == old(rows)[slot := Row(endpoint, hash, Completed(response), now, now + TTL)];
          o := Created(response);
        case Throws =>
          CleanUp(slot);
          assert rows == old(rows) - {slot};
          o := Failed;
        case Loses(response) =>
          Complete(slot, response);
          assert rows == old(rows)[slot := Row(endpoint, hash, Completed(response), now, now + TTL)];
          CleanUp(slot);
          o := Failed;
    }
  }

  /**
   A retry of completed work changes nothing and gets the response, whatever the work would do now, and even if the
   first attempt had lost it.
   */
  lemma RetryReplays(rows: Rows, slot: Slot, endpoint: string, hash: Digest, now: nat, work: Work,
                     later: nat, again: Work)
    requires Admits(rows, slot, endpoint, hash, now) && !work.Throws?
    ensures var first := Handled(rows, slot, endpoint, hash, now, work);
            Handled(first.0, slot, endpoint, hash, later, again) == (first.0, Replayed(work.response))
  {
  }

  /** The table and the answer of the work on a key that may be claimed. */
  ghost predicate Worked(rows: Rows, slot: Slot, endpoint: string, hash: Digest, now: nat, work: Work,
                         handled: (Rows, Outcome)) {
    match work
    case Throws => handled.0 == rows - {slot} && handled.1 == Failed
    case Returns(response) =>
      Kept(rows, slot, endpoint, hash, now, response, handled.0) && handled.1 == Created(response)
    case Loses(response) => Kept(rows, slot, endpoint, hash, now, response, handled.0) && handled.1 == Failed
  }

  /** The key holds the response for a day. */
  ghost predicate Kept(rows: Rows, slot: Slot, endpoint: string, hash: Digest, now: nat, response: Response,
                       after: Rows) {
    after == rows[slot := Row(endpoint, hash, Completed(response), now, now + 24 * 60 * 60 * 1000)]
  }

  /**
   Every case of a request: a key used with another endpoint is refused whatever its state and age; a completed one
   is replayed for the same body and refused for another; a claim is respected for ten minutes and then taken over.
   */
  lemma HandledRule(rows: Rows, slot: Slot, endpoint: string, hash: Digest, now: nat, work: Work)
    ensures slot !in rows ==>
              Worked(rows, slot, endpoint, hash, now, work, Handled(rows, slot, endpoint, hash, now, work))
    ensures slot in rows && rows[slot].endpoint != endpoint ==>
              Handled(rows, slot, endpoint, hash, now, work) == (rows, Unprocessable)
    ensures slot in rows && rows[slot].endpoint == endpoint && rows[slot].state.Completed? ==>
              Handled(rows, slot, endpoint, hash, now, work) ==
                (rows, if rows[slot].hash == hash then Replayed(rows[slot].state.response) else Unprocessable)
    ensures slot in rows && rows[slot].endpoint == endpoint && rows[slot].state.InProgress? ==>
              if now < rows[slot].createdAt + 10 * 60 * 1000
              then Handled(rows, slot, endpoint, hash, now, work) == (rows, Conflict)
              else Worked(rows, slot, endpoint, hash, now, work, Handled(rows, slot, endpoint, hash, now, work))
  {
  }

  /** A retry of failed work on a new key is as if the first attempt had not been made. */
  lemma FailureIsForgotten(rows: Rows, slot: Slot, endpoint: string, hash: Digest, now: nat,
                           endpoint2: string, hash2: Digest, later: nat, work: Work)
    requires slot !in rows
    ensures var first := Handled(rows, slot, endpoint, hash, now, Throws);
            && first.1 == Failed
            && Handled(first.0, slot, endpoint2, hash2, later, work)
               == Handled(rows, slot, endpoint2, hash2, later, work)
  {
    assert rows - {slot} == rows;
  }

  // ---- A request on its own is a run of the protocol ------------------------------------------------------

  /** The steps of request x, none of them waiting. */
  function StepsOf(rows: Rows, x: nat, slot: Slot, endpoint: string, hash: Digest, now: nat,
                   work: Work): seq<Step> {
    [Arrive(x, slot, endpoint, hash), Insert(x)] +
      (if slot !in rows then Ends(x, work)
       else if Judge(rows, slot, endpoint, hash, now).TakeOver? then [Select(x)] + ([Reclaim(x, true)] + Ends(x, work))
       else [Select(x)])
  }

  lemma RunStep(s: State, step: Step, rest: seq<Step>)
    requires MayStep(s, step) && MayRun(Do(s, step), rest)
    ensures MayRun(s, [step] + rest) && Ran(s, [step] + rest) == Ran(Do(s, step), rest)
  {
    hide MayStep, Do;
    assert ([step] + rest)[1..] == rest;
  }

  lemma TwoSteps(s: State, first: Step, second: Step)
    requires MayStep(s, first) && MayStep(Do(s, first), second)
    ensures MayRun(s, [first, second]) && Ran(s, [first, second]) == Do(Do(s, first), second)
  {
    hide MayStep, Do;
    RunStep(Do(s, first), second, []);
    RunStep(s, first, [second]);
    assert [first] + [second] == [first, second];
  }

  /** With a claim in hand the work is committed or cleaned up. */
  lemma WorkIsRun(s: State, x: nat, work: Work)
    requires x in s.requests && s.requests[x].phase == Running(s.now) && s.requests[x].slot in s.rows
    requires s.rows[s.requests[x].slot].state.InProgress?
    ensures var ends := Ends(x, work); var slot := s.requests[x].slot;
      && MayRun(s, ends)
      && Ran(s, ends).rows ==
         (if work.Throws? then s.rows - {slot} else s.rows[slot := s.rows[slot].(state := Completed(work.response))])
      && x in Ran(s, ends).requests
      && Ran(s, ends).requests[x].phase == Done(if work.Returns? then Created(work.response) else Failed)
  {
    match work
    case Returns(response) =>
      RunStep(s, Commit(x, response, true), []);
    case Throws =>
      TwoSteps(s, Fail(x), CleanUp(x, true));
    case Loses(response) =>
      TwoSteps(s, Commit(x, response, false), CleanUp(x, true));
  }

  /** The steps lead from s as the rest leads from `to`. */
  ghost predicate Leads(s: State, to: State, rest: seq<Step>, steps: seq<Step>) {
    MayRun(to, rest) ==> MayRun(s, steps) && Ran(s, steps) == Ran(to, rest)
  }

  /** The steps up to the claim, for a key that is free. */
  lemma FreshIsRun(s: State, x: nat, slot: Slot, endpoint: string, hash: Digest, rest: seq<Step>)
    requires x !in s.requests && slot !in s.rows
    ensures var s1 := Do(s, Arrive(x, slot, endpoint, hash)); MayStep(s1, Insert(x)) && (var s2 := Do(s1, Insert(x));
      && s2.rows == s.rows[slot := Row(endpoint, hash, InProgress, s.now, s.now + TTL)] && s2.now == s.now
      && x in s2.requests && s2.requests[x] == Request(slot, endpoint, hash, s.now, Running(s.now))
      && Leads(s, s2, rest, [Arrive(x, slot, endpoint, hash), Insert(x)] + rest))
  {
    var s1 := Do(s, Arrive(x, slot, endpoint, hash));
    var s2 := Do(s1, Insert(x));
    if MayRun(s2, rest) {
      RunStep(s1, Insert(x), rest);
      RunStep(s, Arrive(x, slot, endpoint, hash), [Insert(x)] + rest);
      assert [Arrive(x, slot, endpoint, hash)] + ([Insert(x)] + rest)
          == [Arrive(x, slot, endpoint, hash), Insert(x)] + rest;
    }
  }

  /** The steps up to the reading of the row, for a key that is taken. */
  lemma TakenIsRun(s: State, x: nat, slot: Slot, endpoint: string, hash: Digest, rest: seq<Step>)
    requires x !in s.requests && slot in s.rows
    ensures var s1 := Do(s, Arrive(x, slot, endpoint, hash)); MayStep(s1, Insert(x)) && (var s2 := Do(s1, Insert(x));
      MayStep(s2, Select(x)) && (var s3 := Do(s2, Select(x));
      && s3.rows == s.rows && s3.now == s.now && x in s3.requests
      && s3.requests[x] == Request(slot, endpoint, hash, s.now,
                                   After(Judge(s.rows, slot, endpoint, hash, s.now), s.now + TTL))
      && Leads(s, s3, rest, [Arrive(x, slot, endpoint, hash), Insert(x)] + ([Select(x)] + rest))))
  {
    hide Judge;
    var s1 := Do(s, Arrive(x, slot, endpoint, hash));
    var s2 := Do(s1, Insert(x));
    var s3 := Do(s2, Select(x));
    if MayRun(s3, rest) {
      RunStep(s2, Select(x), rest);
      RunStep(s1, Insert(x), [Select(x)] + rest);
      RunStep(s, Arrive(x, slot, endpoint, hash), [Insert(x)] + ([Select(x)] + rest));
      assert [Arrive(x, slot, endpoint, hash)] + ([Insert(x)] + ([Select(x)] + rest))
          == [Arrive(x, slot, endpoint, hash), Insert(x)] + ([Select(x)] + rest);
    }
  }

  function Ends(x: nat, work: Work): seq<Step> {
    match work
    case Returns(response) => [Commit(x, response, true)]
    case Throws => [Fail(x), CleanUp(x, true)]
    case Loses(response) => [Commit(x, response, false), CleanUp(x, true)]
  }

  /** A stale claim is taken over and the work done. */
  lemma TakeOverIsRun(s: State, x: nat, work: Work)
    requires x in s.requests && s.requests[x].phase.Reclaiming?
    requires StillThere(s.rows, s.requests[x].slot, s.requests[x].phase.stamp)
    requires s.now + STALE <= s.requests[x].phase.expires
    ensures var r := s.requests[x]; var steps := [Reclaim(x, true)] + Ends(x, work);
      && MayRun(s, steps) && x in Ran(s, steps).requests
      && Ran(s, steps).rows == (
           if work.Throws? then s.rows - {r.slot}
           else s.rows[r.slot := Row(r.endpoint, r.hash, Completed(work.response), s.now, r.phase.expires)])
      && Ran(s, steps).requests[x].phase == Done(if work.Returns? then Created(work.response) else Failed)
  {
    var s2 := Do(s, Reclaim(x, true));
    WorkIsRun(s2, x, work);
    RunStep(s, Reclaim(x, true), Ends(x, work));
    hide Ran, MayRun;
    assert s2.rows - {s.requests[x].slot} == s.rows - {s.requests[x].slot};
  }

  /** The steps of request x, in state s, give the table and the answer. */
  ghost predicate EndsAs(s: State, x: nat, steps: seq<Step>, handled: (Rows, Outcome)) {
    && MayRun(s, steps) && x in Ran(s, steps).requests
    && Ran(s, steps).rows == handled.0 && Ran(s, steps).requests[x].phase == Done(handled.1)
  }

  lemma FreshHandled(s: State, x: nat, slot: Slot, endpoint: string, hash: Digest, work: Work)
    requires x !in s.requests && slot !in s.rows
    ensures EndsAs(s, x, StepsOf(s.rows, x, slot, endpoint, hash, s.now, work),
                   Handled(s.rows, slot, endpoint, hash, s.now, work))
  {
    var s2 := Do(Do(s, Arrive(x, slot, endpoint, hash)), Insert(x));
    FreshIsRun(s, x, slot, endpoint, hash, Ends(x, work));
    WorkIsRun(s2, x, work);
    hide Ran, MayRun, Do, MayStep;
    assert s2.rows - {slot} == s.rows - {slot};
  }

  lemma TakenHandled(s: State, x: nat, slot: Slot, endpoint: string, hash: Digest, work: Work)
    requires x !in s.requests && slot in s.rows && Judge(s.rows, slot, endpoint, hash, s.now).TakeOver?
    ensures EndsAs(s, x, StepsOf(s.rows, x, slot, endpoint, hash, s.now, work),
                   Handled(s.rows, slot, endpoint, hash, s.now, work))
  {
    hide Ran, MayRun, Do;
    TakenIsRun(s, x, slot, endpoint, hash, [Reclaim(x, true)] + Ends(x, work));
    TakeOverIsRun(Do(Do(Do(s, Arrive(x, slot, endpoint, hash)), Insert(x)), Select(x)), x, work);
  }

  lemma RefusedHandled(s: State, x: nat, slot: Slot, endpoint: string, hash: Digest, work: Work)
    requires x !in s.requests && slot in s.rows && !Judge(s.rows, slot, endpoint, hash, s.now).TakeOver?
    ensures EndsAs(s, x, StepsOf(s.rows, x, slot, endpoint, hash, s.now, work),
                   Handled(s.rows, slot, endpoint, hash, s.now, work))
  {
    hide Do, MayStep;
    TakenIsRun(s, x, slot, endpoint, hash, []);
    assert [Select(x)] + [] == [Select(x)];
  }

  /** One undisturbed request, at any state of the protocol, ends as the sequential service says. */
  lemma HandledIsRun(s: State, x: nat, slot: Slot, endpoint: string, hash: Digest, work: Work)
    requires x !in s.requests
    ensures EndsAs(s, x, StepsOf(s.rows, x, slot, endpoint, hash, s.now, work),
                   Handled(s.rows, slot, endpoint, hash, s.now, work))
  {
    hide EndsAs, StepsOf, Handled;
    if slot !in s.rows {
      FreshHandled(s, x, slot, endpoint, hash, work);
    } else if Judge(s.rows, slot, endpoint, hash, s.now).TakeOver? {
      TakenHandled(s, x, slot, endpoint, hash, work);
    } else {
      RefusedHandled(s, x, slot, endpoint, hash, work);
    }
  }
}
