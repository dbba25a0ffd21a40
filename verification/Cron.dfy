/**
 The daily run at a full local hour: the search for the UTC instant of a wall-clock time, and the runs of the
 timer that waits for it. Instants and wall-clock times are milliseconds, a wall clock's counted as if it were UTC.
 */
module Cron {
  import opened Wrappers
  import opened Dates

  const SECOND := 1000
  const MINUTE := 60000
  const HOUR := 3600000
  const DAY := 86400000

  /** The offset of a time zone from UTC at each instant: whole seconds, less than a day either way. */
  type Zone = int -> int

  ghost predicate IsZone(off: Zone) {
    forall u :: off(u) % SECOND == 0 && -DAY < off(u) < DAY
  }

  /** What the clock on the wall shows at instant u. */
  function Wall(off: Zone, u: int): int {
    u + off(u)
  }

  /** At most one transition between lo and hi: from offset a to offset b at instant T. */
  ghost predicate OneTransition(off: Zone, T: int, a: int, b: int, lo: int, hi: int) {
    forall u :: lo <= u <= hi ==> off(u) == if u < T then a else b
  }

  // ---- Reading the clock -----------------------------------------------------------------------------

  /** A local date and the second of its day. */
  datatype LocalParts = LocalParts(date: Date, second: int)

  /** Where Date.UTC does not reinterpret the year. */
  predicate Modern(wallMs: int) {
    FromDay(wallMs / DAY).year >= 100
  }

  /** localParts: the fields the formatter prints, down to the second. */
  function PartsAt(off: Zone, u: int): (p: LocalParts)
    ensures IsValid(p.date) && 0 <= p.second < 86400
  {
    LocalParts(FromDay(Wall(off, u) / DAY), Wall(off, u) % DAY / SECOND)
  }

  /** Date.UTC of the fields. */
  function UtcMs(p: LocalParts): int {
    UtcDay(p.date.year, p.date.month - 1, p.date.day) * DAY + p.second * SECOND
  }

  lemma PartsRead(off: Zone, u: int)
    requires Modern(Wall(off, u))
    ensures UtcMs(PartsAt(off, u)) == Wall(off, u) / SECOND * SECOND
  {
    hide FromDay, UtcDay, DayNumber, IsValid;
    UtcDayIsDayNumber(FromDay(Wall(off, u) / DAY));
    SplitSeconds(Wall(off, u));
  }

  lemma SplitSeconds(x: int)
    ensures x / DAY * DAY + x % DAY / SECOND * SECOND == x / SECOND * SECOND
    ensures 0 <= x % DAY / SECOND < 86400
  {
    var d, m := x / DAY, x % DAY;
    assert x == 86400 * SECOND * d + m;
    assert x / SECOND == 86400 * d + m / SECOND;
  }

  lemma ModernLater(x: int, y: int)
    requires Modern(x) && x <= y
    ensures Modern(y)
  {
    assert x / DAY <= y / DAY;
    DayNumberOrder(FromDay(x / DAY), FromDay(y / DAY));
    DayNumberOrder(FromDay(y / DAY), FromDay(x / DAY));
  }

  // ---- The search ------------------------------------------------------------------------------------

  /** The i-th guess: the target taken as UTC, then corrected by the offset at the guess before. */
  function Guess(off: Zone, w: int, i: nat): int {
    if i == 0 then w else w - off(Guess(off, w, i - 1))
  }

  /** The first of three guesses at which the clock shows the target. */
  function FixedPoint(off: Zone, w: int): Option<int> {
    if Wall(off, Guess(off, w, 0)) == w then Some(Guess(off, w, 0))
    else if Wall(off, Guess(off, w, 1)) == w then Some(Guess(off, w, 1))
    else if Wall(off, Guess(off, w, 2)) == w then Some(Guess(off, w, 2))
    else None
  }

  /** utcInstantForLocalWallTime; None stands for the error it throws. */
  method UtcInstant(off: Zone, target: LocalParts) returns (r: Option<int>)
    requires IsZone(off) && Modern(UtcMs(target) - 2 * DAY)
    ensures r == FixedPoint(off, UtcMs(target))
  {
    hide IsZone, Guess, FixedPoint, Modern, PartsAt, UtcMs, Wall;
    var targetWallMs := UtcMs(target);
    WholeTarget(target);
    GuessNext(off, targetWallMs, 0);
    var guessMs := targetWallMs;
    var converged := false;
    var i := 0;
    while i < 3 && !converged
      invariant 0 <= i <= 3 && guessMs % SECOND == 0
      invariant !converged ==> guessMs == Guess(off, targetWallMs, i)
      invariant !converged ==> forall j: nat :: j < i ==> Wall(off, Guess(off, targetWallMs, j)) != targetWallMs
      invariant converged ==> FixedPoint(off, targetWallMs) == Some(guessMs)
      invariant targetWallMs - DAY < guessMs < targetWallMs + DAY
      decreases 3 - i, !converged
    {
      GuessReads(off, targetWallMs, guessMs);
      GuessNext(off, targetWallMs, i);
      var p := PartsAt(off, guessMs);
      var diff := targetWallMs - UtcMs(p);
      if diff == 0 {
        FirstHit(off, targetWallMs, i);
        converged := true;
      } else {
        guessMs := guessMs + diff;
        i := i + 1;
      }
    }
    if !converged {
      NoHit(off, targetWallMs);
      return None;
    }
    r := Some(guessMs);
  }

  /** A guess within a day of the target is read exactly, and so is corrected by the offset there. */
  lemma GuessReads(off: Zone, w: int, g: int)
    requires IsZone(off) && Modern(w - 2 * DAY) && w % SECOND == 0 && g % SECOND == 0 && w - DAY < g < w + DAY
    ensures UtcMs(PartsAt(off, g)) == Wall(off, g)
    ensures var next := g + (w - Wall(off, g)); next == w - off(g) && next % SECOND == 0 && w - DAY < next < w + DAY
  {
    hide Modern, PartsAt, UtcMs;
    ModernLater(w - 2 * DAY, Wall(off, g));
    PartsRead(off, g);
    WholeSeconds(g, off(g));
    WholeSeconds(w, -off(g));
  }

  lemma WholeSeconds(u: int, o: int)
    requires u % SECOND == 0 && o % SECOND == 0
    ensures (u + o) / SECOND * SECOND == u + o && (u + o) % SECOND == 0
  {
  }

  lemma WholeTarget(p: LocalParts)
    ensures UtcMs(p) % SECOND == 0
  {
  }

  lemma GuessNext(off: Zone, w: int, i: nat)
    ensures Guess(off, w, 0) == w && Guess(off, w, i + 1) == w - off(Guess(off, w, i))
  {
  }

  lemma NoHit(off: Zone, w: int)
    requires forall j: nat :: j < 3 ==> Wall(off, Guess(off, w, j)) != w
    ensures FixedPoint(off, w) == None
  {
  }

  lemma FirstHit(off: Zone, w: int, i: nat)
    requires i < 3 && Wall(off, Guess(off, w, i)) == w
    requires forall j: nat :: j < i ==> Wall(off, Guess(off, w, j)) != w
    ensures FixedPoint(off, w) == Some(Guess(off, w, i))
  {
  }

  /** Both readings of a target around a transition, and the guess the search settles on. */
  lemma SearchResult(off: Zone, w: int, T: int, a: int, b: int)
    requires IsZone(off) && OneTransition(off, T, a, b, w - DAY, w + DAY)
    ensures FixedPoint(off, w) ==
      if w < T && w - a < T then Some(w - a)
      else if w >= T && w - b >= T then Some(w - b)
      else if w - b >= T then Some(w - b)
      else if w - a < T then Some(w - a)
      else None
  {
  }

  /**
   With at most one transition near the target, the search succeeds exactly if the wall clock ever shows the
   target, and what it returns is an instant at which it does.
   */
  lemma SearchFindsExactly(off: Zone, w: int, T: int, a: int, b: int)
    requires IsZone(off) && OneTransition(off, T, a, b, w - DAY, w + DAY)
    ensures FixedPoint(off, w).Some? <==> exists u :: Wall(off, u) == w
    ensures FixedPoint(off, w).Some? ==> Wall(off, FixedPoint(off, w).value) == w
  {
  }

  // ---- The next run ------------------------------------------------------------------------------------

  /** addOneUtcDay. */
  function AddOneUtcDay(d: Date): Date {
    FromDay(UtcDay(d.year, d.month - 1, d.day + 1))
  }

  lemma AddOneIsNextDay(n: int)
    requires FromDay(n).year >= 100
    ensures AddOneUtcDay(FromDay(n)) == FromDay(n + 1)
  {
    hide FromDay, UtcDay, DayNumber;
    NextUtcDay(FromDay(n));
  }

  lemma NextUtcDay(d: Date)
    requires IsValid(d) && d.year >= 100
    ensures UtcDay(d.year, d.month - 1, d.day + 1) == DayNumber(d) + 1
  {
    hide MonthLength, DayFromYear, DaysBeforeMonth;
  }

  /** The local day of the next run after `from`. */
  function NextDay(off: Zone, from: int, hour: int): int {
    Wall(off, from) / DAY + if Wall(off, from) % DAY >= hour * HOUR then 1 else 0
  }

  function Target(off: Zone, from: int, hour: int): int {
    NextDay(off, from, hour) * DAY + hour * HOUR
  }

  method NextDailyRunAt(off: Zone, from: int, hour: int) returns (r: Option<int>)
    requires IsZone(off) && 0 <= hour <= 23 && Modern(Wall(off, from) - 3 * DAY)
    ensures r == FixedPoint(off, Target(off, from, hour))
  {
    hide FromDay, UtcDay, DayNumber, IsValid, AddOneUtcDay, FixedPoint, Target, UtcMs;
    var parts := PartsAt(off, from);
    var date := parts.date;
    ModernLater(Wall(off, from) - 3 * DAY, Wall(off, from));
    if parts.second >= hour * 3600 {
      AddOneIsNextDay(Wall(off, from) / DAY);
      date := AddOneUtcDay(date);
    }
    TargetParts(off, from, hour);
    r := UtcInstant(off, LocalParts(date, hour * 3600));
  }

  lemma TargetParts(off: Zone, from: int, hour: int)
    requires 0 <= hour <= 23 && Modern(Wall(off, from) - 3 * DAY)
    ensures UtcMs(LocalParts(FromDay(NextDay(off, from, hour)), hour * 3600)) == Target(off, from, hour)
    ensures Modern(Target(off, from, hour) - 2 * DAY)
    ensures Wall(off, from) % DAY >= hour * HOUR <==> Wall(off, from) % DAY / SECOND >= hour * 3600
  {
    hide FromDay, UtcDay, DayNumber, IsValid, Modern;
    var n := NextDay(off, from, hour);
    ModernLater(Wall(off, from) - 3 * DAY, n * DAY);
    ModernDay(n);
    HourSeconds(Wall(off, from) % DAY, hour);
    ModernLater(Wall(off, from) - 3 * DAY, Target(off, from, hour) - 2 * DAY);
  }

  lemma ModernDay(n: int)
    requires Modern(n * DAY)
    ensures UtcDay(FromDay(n).year, FromDay(n).month - 1, FromDay(n).day) == n
  {
    hide FromDay, UtcDay, DayNumber, IsValid;
    assert n * DAY / DAY == n;
    UtcDayIsDayNumber(FromDay(n));
  }

  lemma HourSeconds(m: int, hour: int)
    requires 0 <= m
    ensures m >= hour * HOUR <==> m / SECOND >= hour * 3600
  {
  }

  /** The wall clock at the next run shows more than at `from`, and no more than a day more. */
  lemma TargetIsNext(off: Zone, from: int, hour: int)
    requires 0 <= hour <= 23
    ensures Wall(off, from) < Target(off, from, hour) <= Wall(off, from) + DAY
  {
  }

  /**
   The next run is strictly later than `from` unless `from` is already in the second pass of an overlap
   whose first pass the search has settled on.
   */
  lemma NextIsLaterIff(off: Zone, from: int, hour: int, T: int, a: int, b: int)
    requires IsZone(off) && 0 <= hour <= 23
    requires OneTransition(off, T, a, b, from - 2 * DAY, from + 3 * DAY)
    requires FixedPoint(off, Target(off, from, hour)).Some?
    ensures var w := Target(off, from, hour);
            FixedPoint(off, w).value > from <==> !(w < T && w - a < T <= from)
  {
  }

  /** The former rule of St. John's: from UTC-2:30 back to UTC-3:30 one minute past local midnight. */
  const ST_JOHNS_BACK := 151 * MINUTE

  function StJohns(u: int): int {
    if u < ST_JOHNS_BACK then -150 * MINUTE else -210 * MINUTE
  }

  /** At 23:30, half an hour before the second midnight of that night, the next midnight found is the first one. */
  lemma NextCanBeEarlier()
    ensures IsZone(StJohns)
    ensures var from := ST_JOHNS_BACK + 29 * MINUTE;
      && Wall(StJohns, from) == -30 * MINUTE
      && FixedPoint(StJohns, Target(StJohns, from, 0)) == Some(from - 30 * MINUTE)
  {
    var from := ST_JOHNS_BACK + 29 * MINUTE;
    assert Target(StJohns, from, 0) == 0;
    assert Guess(StJohns, 0, 1) == 150 * MINUTE;
  }

  /**
   It takes a zone west of Greenwich, and a clock that does not just go back from one full hour to the one
   before.
   */
  lemma EarlierIsRare(off: Zone, from: int, hour: int, T: int, a: int, b: int)
    requires IsZone(off) && 0 <= hour <= 23
    requires OneTransition(off, T, a, b, from - 2 * DAY, from + 3 * DAY)
    requires FixedPoint(off, Target(off, from, hour)).Some? && FixedPoint(off, Target(off, from, hour)).value <= from
    ensures b < 0 && !((T + a) % HOUR == 0 && a - b == HOUR)
  {
    NextIsLaterIff(off, from, hour, T, a, b);
    TargetIsNext(off, from, hour);
    TargetIsFullHour(off, from, hour);
    hide FixedPoint, Target;
    assert off(from) == b;
    if (T + a) % HOUR == 0 && a - b == HOUR {
      NoHourBetween(Target(off, from, hour), T + a);
    }
  }

  lemma TargetIsFullHour(off: Zone, from: int, hour: int)
    ensures Target(off, from, hour) % HOUR == 0
  {
    assert Target(off, from, hour) == HOUR * (24 * NextDay(off, from, hour) + hour);
  }

  lemma NoHourBetween(w: int, h: int)
    requires w % HOUR == 0 && h % HOUR == 0 && w < h
    ensures w <= h - HOUR
  {
  }

  /** A wall-clock time no transition shows twice is always ahead. */
  lemma UnambiguousIsLater(off: Zone, from: int, hour: int, T: int, a: int, b: int)
    requires IsZone(off) && 0 <= hour <= 23
    requires OneTransition(off, T, a, b, from - 2 * DAY, from + 3 * DAY)
    requires FixedPoint(off, Target(off, from, hour)).Some?
    requires var w := Target(off, from, hour); !(w - a < T <= w - b)
    ensures FixedPoint(off, Target(off, from, hour)).value > from
  {
  }

  // ---- Run after run ---------------------------------------------------------------------------------

  /** When the timer looks for run k: when it is set up, and then whenever a run has ended. */
  function Ready(from: int, ends: seq<int>, k: nat): int
    requires k <= |ends|
  {
    if k == 0 then from else ends[k - 1]
  }

  /** scheduleNext: it waits for the instant found, and not at all if that has passed. */
  predicate StartsAt(off: Zone, hour: int, ready: int, start: int) {
    var found := FixedPoint(off, Target(off, ready, hour));
    found.Some? && start == if found.value > ready then found.value else ready
  }

  /** startDailyTimer, as long as it finds an instant for each next run. */
  ghost predicate DailyRuns(off: Zone, hour: int, from: int, starts: seq<int>, ends: seq<int>) {
    && |starts| == |ends| && 0 <= hour <= 23
    && (forall k :: 0 <= k < |starts| ==> StartsAt(off, hour, Ready(from, ends, k), starts[k]))
    && (forall k :: 0 <= k < |starts| ==> starts[k] <= ends[k])
  }

  /** The wall-clock time that run k waits for. */
  function Due(off: Zone, hour: int, from: int, ends: seq<int>, k: nat): int
    requires k <= |ends|
  {
    Target(off, Ready(from, ends, k), hour)
  }

  /** In the second pass of an overlap, before the hour, when the search settles on the first pass. */
  predicate SecondPass(w: int, ready: int, T: int, a: int) {
    w < T && w - a < T <= ready
  }

  lemma FixedPointReads(off: Zone, w: int)
    ensures FixedPoint(off, w).Some? ==> Wall(off, FixedPoint(off, w).value) == w
  {
  }

  /** A run starts exactly at the hour it waited for, unless that instant has passed: then before the hour. */
  lemma StartIsOnTimeIff(off: Zone, hour: int, ready: int, start: int, T: int, a: int, b: int)
    requires IsZone(off) && 0 <= hour <= 23 && StartsAt(off, hour, ready, start)
    requires OneTransition(off, T, a, b, ready - 2 * DAY, ready + 3 * DAY)
    ensures var w := Target(off, ready, hour);
      && ready <= start && w - DAY <= Wall(off, start) <= w
      && (Wall(off, start) == w <==> !SecondPass(w, ready, T, a))
      && (SecondPass(w, ready, T, a) ==> start == ready)
  {
    NextIsLaterIff(off, ready, hour, T, a, b);
    TargetIsNext(off, ready, hour);
    FixedPointReads(off, Target(off, ready, hour));
    hide FixedPoint, Target, IsZone, OneTransition;
  }

  /** How long a run takes by the clock on the wall. */
  function WallTaken(off: Zone, start: int, end: int): int {
    Wall(off, end) - Wall(off, start)
  }

  /** The target from anywhere: the last one, one day on, and one more for each full day since. */
  lemma TargetAfter(off: Zone, hour: int, w: int, end: int)
    requires 0 <= hour <= 23 && w % DAY == hour * HOUR
    ensures Target(off, end, hour) == w + DAY + (Wall(off, end) - w) / DAY * DAY
    ensures Target(off, end, hour) % DAY == hour * HOUR
  {
    var d, n := w / DAY, (Wall(off, end) - w) / DAY;
    var m := (Wall(off, end) - w) % DAY;
    assert w == d * DAY + hour * HOUR;
    assert Wall(off, end) == (d + n) * DAY + (hour * HOUR + m);
    WholeDays(d + n, hour * HOUR + m);
    WholeDays(d + n + 1, hour * HOUR);
  }

  lemma WholeDays(n: int, r: int)
    requires 0 <= r < 2 * DAY
    ensures (n * DAY + r) / DAY == n + (if r >= DAY then 1 else 0)
    ensures (n * DAY + r) % DAY == r - (if r >= DAY then DAY else 0)
  {
  }

  lemma TargetAtHour(off: Zone, ready: int, hour: int)
    requires 0 <= hour <= 23
    ensures Target(off, ready, hour) % DAY == hour * HOUR
  {
    WholeDays(NextDay(off, ready, hour), hour * HOUR);
  }

  /** The local dates that the runs before run k left out, less those they repeated. */
  function Skipped(off: Zone, hour: int, from: int, ends: seq<int>, k: nat): int
    requires k <= |ends|
  {
    if k == 0 then 0
    else Skipped(off, hour, from, ends, k - 1) + (Wall(off, ends[k - 1]) - Due(off, hour, from, ends, k - 1)) / DAY
  }

  /**
   Run k is due at the hour, k local days after the first one and one more for each whole day by which earlier
   runs overran the hour they were due at, one less for each that had ended before it.
   */
  lemma {:induction false} DueDates(off: Zone, hour: int, from: int, ends: seq<int>, k: nat)
    requires 0 <= hour <= 23 && k <= |ends|
    ensures Due(off, hour, from, ends, k) % DAY == hour * HOUR
    ensures Due(off, hour, from, ends, k)
         == Due(off, hour, from, ends, 0) + (k + Skipped(off, hour, from, ends, k)) * DAY
  {
    hide Target, Wall;
    TargetAtHour(off, Ready(from, ends, k), hour);
    if k > 0 {
      DueDates(off, hour, from, ends, k - 1);
      TargetAfter(off, hour, Due(off, hour, from, ends, k - 1), ends[k - 1]);
    }
  }

  /** The transition around the instant at which a run is looked for, if there is one. */
  datatype Shift = Shift(T: int, a: int, b: int)

  ghost predicate Around(off: Zone, x: Shift, ready: int) {
    OneTransition(off, x.T, x.a, x.b, ready - 2 * DAY, ready + 3 * DAY)
  }

  /** A run that took less than a day, saw the clock not end up behind, and is not followed by one at once. */
  predicate Regular(off: Zone, hour: int, start: int, end: int, x: Shift) {
    0 <= WallTaken(off, start, end) < DAY && !SecondPass(Target(off, end, hour), end, x.T, x.a)
  }

  /**
   After a run that started at the hour, the next one starts at the hour one local day later exactly if the run took
   less than a day by the clock on the wall, the clock did not end up behind where it was, and the run did not end
   in the second pass of an overlap whose first pass has the next hour.
   */
  lemma NextRunIsNextDayIff(off: Zone, hour: int, start: int, end: int, next: int, x: Shift)
    requires IsZone(off) && 0 <= hour <= 23 && StartsAt(off, hour, end, next) && Around(off, x, end)
    requires Wall(off, start) % DAY == hour * HOUR
    ensures Wall(off, next) == Wall(off, start) + DAY <==> Regular(off, hour, start, end, x)
  {
    StartIsOnTimeIff(off, hour, end, next, x.T, x.a, x.b);
    TargetAfter(off, hour, Wall(off, start), end);
    if SecondPass(Target(off, end, hour), end, x.T, x.a) {
      SecondPassIsBefore(off, hour, end, x);
    }
    hide StartsAt, Target, IsZone, Around, SecondPass;
    if Wall(off, end) == Wall(off, start) + DAY {
      TargetAfter(off, hour, Wall(off, end), end);
    }
  }

  /** In such a second pass the hour is less than a day ahead. */
  lemma SecondPassIsBefore(off: Zone, hour: int, ready: int, x: Shift)
    requires IsZone(off) && 0 <= hour <= 23 && Around(off, x, ready)
    requires SecondPass(Target(off, ready, hour), ready, x.T, x.a)
    ensures Target(off, ready, hour) < Wall(off, ready) + DAY
  {
    hide Target;
    assert off(ready) == x.b;
  }

  /**
   Every run starts at the hour, on the local day after the run before, exactly if the timer was not set up in such
   a second pass and every run but the last was regular: otherwise a date is skipped or repeated, or a run is early.
   */
  lemma {:induction false} RunsAreConsecutiveDays(off: Zone, hour: int, from: int, starts: seq<int>, ends: seq<int>,
                                                  shifts: seq<Shift>)
    requires IsZone(off) && DailyRuns(off, hour, from, starts, ends) && 0 < |starts| == |shifts|
    requires forall k :: 0 <= k < |shifts| ==> Around(off, shifts[k], Ready(from, ends, k))
    ensures (forall k :: 0 <= k < |starts| ==> Wall(off, starts[k]) == Due(off, hour, from, ends, 0) + k * DAY)
            <==>
            && !SecondPass(Due(off, hour, from, ends, 0), from, shifts[0].T, shifts[0].a)
            && forall k :: 0 <= k < |starts| - 1 ==> Regular(off, hour, starts[k], ends[k], shifts[k + 1])
    decreases |starts|
  {
    hide IsZone, Around, Target, Wall, Regular, SecondPass, StartsAt;
    var n := |starts| - 1;
    if n == 0 {
      FirstIsOnTime(off, hour, from, starts, ends, shifts[0]);
    } else {
      forall k | 0 <= k < n ensures Ready(from, ends[..n], k) == Ready(from, ends, k) {
      }
      RunsAreConsecutiveDays(off, hour, from, starts[..n], ends[..n], shifts[..n]);
      if forall k :: 0 <= k < n ==> Wall(off, starts[..n][k]) == Due(off, hour, from, ends, 0) + k * DAY {
        assert Wall(off, starts[..n][n - 1]) == Due(off, hour, from, ends, 0) + (n - 1) * DAY;
        OneMoreRun(off, hour, from, starts, ends, n, shifts[n]);
      }
    }
  }

  lemma OneMoreRun(off: Zone, hour: int, from: int, starts: seq<int>, ends: seq<int>, n: nat, x: Shift)
    requires IsZone(off) && DailyRuns(off, hour, from, starts, ends) && 0 < n < |starts|
    requires Around(off, x, Ready(from, ends, n))
    requires Wall(off, starts[n - 1]) == Due(off, hour, from, ends, 0) + (n - 1) * DAY
    ensures Wall(off, starts[n]) == Due(off, hour, from, ends, 0) + n * DAY
            <==> Regular(off, hour, starts[n - 1], ends[n - 1], x)
  {
    hide IsZone, Around, Target, Wall, Regular, StartsAt;
    DueDates(off, hour, from, ends, 0);
    WholeDays(Due(off, hour, from, ends, 0) / DAY + n - 1, hour * HOUR);
    NextRunIsNextDayIff(off, hour, starts[n - 1], ends[n - 1], starts[n], x);
  }

  lemma FirstIsOnTime(off: Zone, hour: int, from: int, starts: seq<int>, ends: seq<int>, x: Shift)
    requires IsZone(off) && DailyRuns(off, hour, from, starts, ends) && starts != [] && Around(off, x, from)
    ensures Wall(off, starts[0]) == Due(off, hour, from, ends, 0)
            <==> !SecondPass(Due(off, hour, from, ends, 0), from, x.T, x.a)
  {
    assert StartsAt(off, hour, Ready(from, ends, 0), starts[0]);
    StartIsOnTimeIff(off, hour, from, starts[0], x.T, x.a, x.b);
  }

  /**
   The night of St. John's: the run for midnight lasts two minutes, sees the clock go back to 23:01 after the first of
   them, and is started again at once; so is every run that ends before the second midnight.
   */
  lemma RunsAgainAtOnce()
    ensures var starts, ends := [150 * MINUTE, 152 * MINUTE, 162 * MINUTE], [152 * MINUTE, 162 * MINUTE, 172 * MINUTE];
      && IsZone(StJohns) && DailyRuns(StJohns, 0, 100 * MINUTE, starts, ends)
      && (forall k :: 0 <= k < 3 ==> Due(StJohns, 0, 100 * MINUTE, ends, k) == 0)
      && Wall(StJohns, starts[0]) == 0 && Wall(StJohns, starts[1]) == -58 * MINUTE
  {
    forall ready | ready in [100 * MINUTE, 152 * MINUTE, 162 * MINUTE]
      ensures Target(StJohns, ready, 0) == 0
    {
    }
    FirstMidnight();
  }

  lemma FirstMidnight()
    ensures FixedPoint(StJohns, 0) == Some(150 * MINUTE)
  {
    assert Guess(StJohns, 0, 1) == 150 * MINUTE;
  }

  /** A run of less than a day, from one midnight into the second pass before the next: 23:02 of the same date. */
  lemma RunsTwiceADay()
    ensures var starts, ends := [-1290 * MINUTE, 152 * MINUTE], [152 * MINUTE, 153 * MINUTE];
      && DailyRuns(StJohns, 0, -1300 * MINUTE, starts, ends)
      && 0 <= WallTaken(StJohns, starts[0], ends[0]) < DAY
      && Wall(StJohns, starts[0]) == -DAY && Wall(StJohns, starts[1]) == -58 * MINUTE
  {
    assert Target(StJohns, -1300 * MINUTE, 0) == -DAY;
    assert Guess(StJohns, -DAY, 1) == -1290 * MINUTE;
    assert Target(StJohns, 152 * MINUTE, 0) == 0;
    FirstMidnight();
  }

  /** An instant that shows a day more than another is later, unless the clock goes back by a day or more between. */
  lemma RunsMoveOn(off: Zone, start: int, next: int, T: int, a: int, b: int)
    requires Wall(off, next) == Wall(off, start) + DAY
    requires OneTransition(off, T, a, b, start - 3 * DAY, start + 3 * DAY) && IsZone(off) && a - b < DAY
    ensures next > start
  {
  }

  /** The Swedish rule: the clock moves between UTC+1 and UTC+2 at 01:00 UTC. */
  ghost predicate SwedishTransition(T: int, a: int, b: int) {
    T % DAY == HOUR && (a == HOUR || a == 2 * HOUR) && (b == HOUR || b == 2 * HOUR)
  }

  /** Three o'clock exists exactly once on every Swedish day, so the job's next run always exists and is later. */
  lemma ThreeOClockIsSafe(off: Zone, from: int, T: int, a: int, b: int)
    requires IsZone(off) && SwedishTransition(T, a, b)
    requires OneTransition(off, T, a, b, from - 2 * DAY, from + 3 * DAY)
    ensures FixedPoint(off, Target(off, from, 3)).Some?
    ensures FixedPoint(off, Target(off, from, 3)).value > from
    ensures forall u, v :: Wall(off, u) == Target(off, from, 3) == Wall(off, v) ==> u == v
  {
    var w := Target(off, from, 3);
    TargetIsNext(off, from, 3);
    assert off(from) == if from < T then a else b;
    SearchResult(off, w, T, a, b);
    ThreeOClock(w, T, a, b);
    NextIsLaterIff(off, from, 3, T, a, b);
    forall u, v | Wall(off, u) == w == Wall(off, v) ensures u == v {
      assert off(u) == if u < T then a else b;
      assert off(v) == if v < T then a else b;
    }
  }

  /** No transition of the Swedish kind comes near three o'clock by either offset. */
  lemma ThreeOClock(w: int, T: int, a: int, b: int)
    requires SwedishTransition(T, a, b) && w % DAY == 3 * HOUR
    ensures w - a < T <==> w - b < T
  {
  }

  /**
   The nightly job as it is set up: every run starts at 03:00 sharp, and the runs are on consecutive dates exactly if
   each but the last took less than a day by the clock on the wall.
   */
  lemma SwedishRuns(off: Zone, from: int, starts: seq<int>, ends: seq<int>, shifts: seq<Shift>)
    requires IsZone(off) && DailyRuns(off, 3, from, starts, ends) && 0 < |starts| == |shifts|
    requires forall k :: 0 <= k < |shifts| ==>
               Around(off, shifts[k], Ready(from, ends, k)) && SwedishTransition(shifts[k].T, shifts[k].a, shifts[k].b)
    ensures forall k :: 0 <= k < |starts| ==> Wall(off, starts[k]) == Due(off, 3, from, ends, k)
    ensures (forall k :: 0 <= k < |starts| ==> Wall(off, starts[k]) == Due(off, 3, from, ends, 0) + k * DAY)
            <==> forall k :: 0 <= k < |starts| - 1 ==> WallTaken(off, starts[k], ends[k]) < DAY
  {
    hide IsZone, StartsAt, OneTransition, Target, Wall, SecondPass, WallTaken, SwedishTransition;
    forall k | 0 <= k < |starts|
      ensures Wall(off, starts[k]) == Due(off, 3, from, ends, k)
      ensures !SecondPass(Due(off, 3, from, ends, k), Ready(from, ends, k), shifts[k].T, shifts[k].a)
    {
      assert Around(off, shifts[k], Ready(from, ends, k));
      SwedishStart(off, from, starts, ends, k, shifts[k]);
    }
    forall k | 0 <= k < |starts| - 1
      ensures Regular(off, 3, starts[k], ends[k], shifts[k + 1]) <==> WallTaken(off, starts[k], ends[k]) < DAY
    {
      assert Around(off, shifts[k + 1], Ready(from, ends, k + 1));
      DueDates(off, 3, from, ends, k);
      SwedishForward(off, starts[k], ends[k], shifts[k + 1]) by {
        assert starts[k] <= ends[k] by { InOrder(off, 3, from, starts, ends, k); }
      }
    }
    RunsAreConsecutiveDays(off, 3, from, starts, ends, shifts);
  }

  lemma InOrder(off: Zone, hour: int, from: int, starts: seq<int>, ends: seq<int>, k: nat)
    requires DailyRuns(off, hour, from, starts, ends) && k < |starts|
    ensures StartsAt(off, hour, Ready(from, ends, k), starts[k]) && starts[k] <= ends[k]
  {
  }

  lemma SwedishStart(off: Zone, from: int, starts: seq<int>, ends: seq<int>, k: nat, x: Shift)
    requires IsZone(off) && DailyRuns(off, 3, from, starts, ends) && k < |starts|
    requires Around(off, x, Ready(from, ends, k)) && SwedishTransition(x.T, x.a, x.b)
    ensures Wall(off, starts[k]) == Due(off, 3, from, ends, k)
    ensures !SecondPass(Due(off, 3, from, ends, k), Ready(from, ends, k), x.T, x.a)
  {
    InOrder(off, 3, from, starts, ends, k);
    ThreeOClockIsSafe(off, Ready(from, ends, k), x.T, x.a, x.b);
    NextIsLaterIff(off, Ready(from, ends, k), 3, x.T, x.a, x.b);
    FixedPointReads(off, Due(off, 3, from, ends, k));
  }

  /** After a start at three o'clock the clock never ends up behind it. */
  lemma SwedishForward(off: Zone, start: int, end: int, x: Shift)
    requires IsZone(off) && start <= end && Wall(off, start) % DAY == 3 * HOUR
    requires Around(off, x, end) && SwedishTransition(x.T, x.a, x.b)
    ensures WallTaken(off, start, end) >= 0
  {
    if end - start <= 2 * DAY && start < x.T <= end {
      ThreeOClock(Wall(off, start), x.T, x.a, x.b);
      assert off(start) == x.a;
      NotBefore(Wall(off, start), x.T, x.a);
    }
  }

  lemma NotBefore(w: int, T: int, a: int)
    requires w % DAY == 3 * HOUR && T % DAY == HOUR && (a == HOUR || a == 2 * HOUR) && w - a < T
    ensures w - a + HOUR <= T
  {
  }
}
