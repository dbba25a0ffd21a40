/**
 Business dates: the proleptic Gregorian calendar of section 21.4.1 of ECMA-262, day addition on
 `YYYY-MM-DD` strings, and the day-clamped recurrence rule of invoice templates.
 */
module Dates {
  import opened Wrappers

  datatype Date = Date(year: int, month: int, day: int)

  datatype Interval = Monthly | Quarterly | Yearly

  predicate IsLeap(y: int) {
    y % 4 == 0 && (y % 100 != 0 || y % 400 == 0)
  }

  function MonthLength(y: int, m: int): int
    requires 1 <= m <= 12
  {
    if m == 2 then (if IsLeap(y) then 29 else 28)
    else if m == 4 || m == 6 || m == 9 || m == 11 then 30
    else 31
  }

  predicate IsValid(d: Date) {
    1 <= d.month <= 12 && 1 <= d.day <= MonthLength(d.year, d.month)
  }

  /** Chronological order, field by field. */
  predicate Before(a: Date, b: Date) {
    a.year < b.year
    || (a.year == b.year && (a.month < b.month || (a.month == b.month && a.day < b.day)))
  }

  // ---- Day numbers -----------------------------------------------------------------------------

  function DaysInYear(y: int): int {
    if IsLeap(y) then 366 else 365
  }

  /** The day number of 1 January, counted year by year from 1970. */
  function DayFromYear(y: int): int
    decreases if y >= 1970 then y - 1970 else 1970 - y
  {
    if y == 1970 then 0
    else if y > 1970 then DayFromYear(y - 1) + DaysInYear(y - 1)
    else DayFromYear(y + 1) - DaysInYear(y)
  }

  /** The closed form that section 21.4.1.3 of ECMA-262 gives for DayFromYear. */
  function YearFormula(y: int): int {
    365 * (y - 1970) + (y - 1969) / 4 - (y - 1901) / 100 + (y - 1601) / 400
  }

  lemma {:induction false} DayFromYearClosedForm(y: int)
    ensures DayFromYear(y) == YearFormula(y)
    decreases if y >= 1970 then y - 1970 else 1970 - y
  {
    if y > 1970 {
      DayFromYearClosedForm(y - 1);
      FormulaStep(y - 1);
    } else if y < 1970 {
      DayFromYearClosedForm(y + 1);
      FormulaStep(y);
    }
  }

  lemma FormulaStep(y: int)
    ensures YearFormula(y + 1) - YearFormula(y) == DaysInYear(y)
  {
    FourYears(y);
    Centuries(y);
    FourCenturies(y);
  }

  function DaysBeforeMonth(y: int, m: int): (r: int)
    requires 1 <= m <= 12
    decreases m
  {
    if m == 1 then 0 else DaysBeforeMonth(y, m - 1) + MonthLength(y, m - 1)
  }

  /** Days since 1970-01-01. */
  function DayNumber(d: Date): int
    requires 1 <= d.month <= 12
  {
    DayFromYear(d.year) + DaysBeforeMonth(d.year, d.month) + d.day - 1
  }

  /** MakeDay: month index m0 and day d may lie outside their usual ranges. */
  function MakeDay(y: int, m0: int, d: int): int {
    if 0 <= m0 <= 11 then DayNumber(Date(y, m0 + 1, d))
    else DayNumber(Date(y + m0 / 12, m0 % 12 + 1, d))
  }

  /** The day part of Date.UTC, which reads the years 0 to 99 as 1900 to 1999. */
  function UtcDay(y: int, m0: int, d: int): int {
    MakeDay(if 0 <= y <= 99 then 1900 + y else y, m0, d)
  }

  /** YearFromTime: the largest year that has begun by day n, searched upwards from y. */
  function YearFrom(n: int, y: int): (r: int)
    requires DayFromYear(y) <= n
    ensures DayFromYear(r) <= n < DayFromYear(r + 1)
    decreases n - DayFromYear(y)
  {
    YearLength(y);
    if n < DayFromYear(y + 1) then y else YearFrom(n, y + 1)
  }

  function MonthFrom(y: int, k: int, m: int): (r: int)
    requires 1 <= m <= 12
    requires DaysBeforeMonth(y, m) <= k
    requires k < DaysBeforeMonth(y, 12) + 31
    ensures 1 <= r <= 12
    ensures DaysBeforeMonth(y, r) <= k < DaysBeforeMonth(y, r) + MonthLength(y, r)
    decreases 12 - m
  {
    if m == 12 || k < DaysBeforeMonth(y, m) + MonthLength(y, m) then m else MonthFrom(y, k, m + 1)
  }

  /** The calendar date of a day number, as the Date getters return it. */
  function FromDay(n: int): (d: Date)
    ensures IsValid(d)
    ensures DayNumber(d) == n
  {
    SearchStart(n);
    var y := YearFrom(n, if n >= 0 then 1970 + n / 366 else 1970 + n / 365);
    YearLength(y);
    MonthsFillYear(y);
    var k := n - DayFromYear(y);
    var m := MonthFrom(y, k, 1);
    Date(y, m, k - DaysBeforeMonth(y, m) + 1)
  }

  lemma YearLength(y: int)
    ensures DayFromYear(y + 1) - DayFromYear(y) == DaysInYear(y)
  {
  }

  lemma FourYears(y: int)
    ensures (y - 1968) / 4 - (y - 1969) / 4 == if y % 4 == 0 then 1 else 0
  {
  }

  lemma Centuries(y: int)
    ensures (y - 1900) / 100 - (y - 1901) / 100 == if y % 100 == 0 then 1 else 0
  {
  }

  lemma FourCenturies(y: int)
    ensures (y - 1600) / 400 - (y - 1601) / 400 == if y % 400 == 0 then 1 else 0
    ensures y % 400 == 0 ==> y % 100 == 0
    ensures y % 100 == 0 ==> y % 4 == 0
  {
  }

  lemma MonthsFillYear(y: int)
    ensures DaysBeforeMonth(y, 12) + 31 == DaysInYear(y)
    ensures DaysBeforeMonth(y, 1) == 0
  {
  }

  lemma SearchStart(n: int)
    ensures n >= 0 ==> DayFromYear(1970 + n / 366) <= n
    ensures n < 0 ==> DayFromYear(1970 + n / 365) <= n
  {
    if n >= 0 {
      var k := n / 366;
      DayFromYearClosedForm(1970 + k);
      assert (k + 1) / 4 - (k + 69) / 100 + (k + 369) / 400 <= k;
    } else {
      var k := n / 365;
      DayFromYearClosedForm(1970 + k);
      assert 365 * k <= n;
      assert (k + 1) / 4 - (k + 69) / 100 + (k + 369) / 400 <= 0;
    }
  }

  lemma {:induction false} MonthsMonotone(y: int, a: int, b: int)
    requires 1 <= a < b <= 12
    ensures DaysBeforeMonth(y, a) + MonthLength(y, a) <= DaysBeforeMonth(y, b)
    decreases b
  {
    if a < b - 1 {
      MonthsMonotone(y, a, b - 1);
    }
  }

  lemma {:induction false} YearsMonotone(a: int, b: int)
    requires a < b
    ensures DayFromYear(a + 1) <= DayFromYear(b)
    decreases b - a
  {
    if a + 1 < b {
      YearLength(a + 1);
      YearsMonotone(a + 1, b);
    }
  }

  lemma DayWithinYear(d: Date)
    requires IsValid(d)
    ensures DayFromYear(d.year) <= DayNumber(d) < DayFromYear(d.year + 1)
  {
    YearLength(d.year);
    MonthsFillYear(d.year);
    if d.month > 1 {
      MonthsMonotone(d.year, 1, d.month);
    }
    if d.month < 12 {
      MonthsMonotone(d.year, d.month, 12);
    }
  }

  /** Day numbers order valid dates exactly as their fields do. */
  lemma DayNumberOrder(a: Date, b: Date)
    requires IsValid(a) && IsValid(b)
    ensures Before(a, b) <==> DayNumber(a) < DayNumber(b)
    ensures a == b <==> DayNumber(a) == DayNumber(b)
  {
    if Before(a, b) {
      BeforeGivesLess(a, b);
    } else if Before(b, a) {
      BeforeGivesLess(b, a);
    } else {
      assert a == b;
    }
  }

  lemma BeforeGivesLess(a: Date, b: Date)
    requires IsValid(a) && IsValid(b) && Before(a, b)
    ensures DayNumber(a) < DayNumber(b)
  {
    if a.year < b.year {
      DayWithinYear(a);
      DayWithinYear(b);
      YearsMonotone(a.year, b.year);
    } else if a.month < b.month {
      MonthsMonotone(a.year, a.month, b.month);
    }
  }

  /** Day numbers and valid dates are in bijection. */
  lemma DayBijection(d: Date)
    requires IsValid(d)
    ensures FromDay(DayNumber(d)) == d
  {
    DayNumberOrder(FromDay(DayNumber(d)), d);
  }

  /** The first day of the month after that of d. */
  function NextMonth(d: Date): Date {
    if d.month == 12 then Date(d.year + 1, 1, 1) else Date(d.year, d.month + 1, 1)
  }

  /** The days before each month of a common year, as in section 21.4.1 of ECMA-262; a leap year has one more. */
  const MONTH_STARTS := [0, 31, 59, 90, 120, 151, 181, 212, 243, 273, 304, 334]

  lemma MonthTable(y: int, m: int)
    requires 1 <= m <= 12
    ensures var days := DayNumber(Date(y + 1, 1, 1)) - DayNumber(Date(y, 1, 1));
      && (days == 365 || days == 366)
      && DayNumber(Date(y, m, 1)) - DayNumber(Date(y, 1, 1)) == MONTH_STARTS[m - 1] + if m > 2 then days - 365 else 0
  {
    YearLength(y);
    MonthStarts(y, m);
  }

  lemma {:induction false} MonthStarts(y: int, m: int)
    requires 1 <= m <= 12
    ensures DaysBeforeMonth(y, m) == MONTH_STARTS[m - 1] + if m > 2 && IsLeap(y) then 1 else 0
    decreases m
  {
    if m > 1 {
      MonthStarts(y, m - 1);
    }
  }

  /** A date exists exactly if its day comes before the next month. */
  lemma ValidIff(d: Date)
    ensures IsValid(d) <==> 1 <= d.month <= 12 && 1 <= d.day && DayNumber(d) < DayNumber(NextMonth(d))
  {
    if 1 <= d.month <= 12 {
      MonthFollows(d);
    }
  }

  lemma MonthFollows(d: Date)
    requires 1 <= d.month <= 12
    ensures DayNumber(NextMonth(d)) - DayNumber(Date(d.year, d.month, 1)) == MonthLength(d.year, d.month)
  {
    if d.month == 12 {
      YearLength(d.year);
      MonthsFillYear(d.year);
    }
  }

  // ---- Day addition ----------------------------------------------------------------------------

  /** addDays on the parsed components. */
  function AddDaysTo(d: Date, n: int): Date {
    FromDay(UtcDay(d.year, d.month - 1, d.day) + n)
  }

  lemma UtcDayIsDayNumber(d: Date)
    requires IsValid(d) && !(0 <= d.year <= 99)
    ensures UtcDay(d.year, d.month - 1, d.day) == DayNumber(d)
  {
  }

  /** Outside the years 0 to 99, adding n days moves the day number by exactly n. */
  lemma AddDaysMovesDayNumber(d: Date, n: int)
    requires IsValid(d)
    requires !(0 <= d.year <= 99)
    ensures IsValid(AddDaysTo(d, n))
    ensures DayNumber(AddDaysTo(d, n)) == DayNumber(d) + n
  {
  }

  /** Adding no days returns the same date exactly when the year is not one Date.UTC reinterprets. */
  lemma AddZeroIsIdentity(d: Date)
    requires IsValid(d)
    ensures AddDaysTo(d, 0) == d <==> !(0 <= d.year <= 99)
  {
    var n := UtcDay(d.year, d.month - 1, d.day);
    assert AddDaysTo(d, 0) == FromDay(n);
    if 0 <= d.year <= 99 {
      EarlyYearsMove(d);
    } else {
      UtcDayIsDayNumber(d);
      DayBijection(d);
    }
  }

  lemma UtcDayExact(d: Date)
    requires IsValid(d)
    ensures UtcDay(d.year, d.month - 1, d.day) == DayNumber(d) <==> !(0 <= d.year <= 99)
  {
    if 0 <= d.year <= 99 {
      EarlyYearsMove(d);
    } else {
      UtcDayIsDayNumber(d);
    }
  }

  lemma FromDayInjective(a: int, b: int)
    ensures FromDay(a) == FromDay(b) <==> a == b
  {
  }

  /** Day addition is additive exactly when the date in between is not in the years 0 to 99. */
  lemma AddDaysAdditive(d: Date, m: int, n: int)
    requires IsValid(d)
    ensures AddDaysTo(AddDaysTo(d, m), n) == AddDaysTo(d, m + n) <==> !(0 <= AddDaysTo(d, m).year <= 99)
  {
    hide MonthLength, DayNumber, MakeDay;
    var e := AddDaysTo(d, m);
    UtcDayExact(e);
    FromDayInjective(UtcDay(e.year, e.month - 1, e.day) + n, UtcDay(d.year, d.month - 1, d.day) + m + n);
  }

  lemma EarlyYearsMove(d: Date)
    requires IsValid(d) && 0 <= d.year <= 99
    ensures UtcDay(d.year, d.month - 1, d.day) > DayNumber(d)
  {
    FirstOfMonth(1900 + d.year, d.month);
    YearsMonotone(d.year, 1900 + d.year);
    DayWithinYear(d);
  }

  lemma FirstOfMonth(y: int, m: int)
    requires 1 <= m <= 12
    ensures DaysBeforeMonth(y, m) >= 0
  {
  }

  // ---- ISO strings -----------------------------------------------------------------------------

  function Digit(k: int): char
    requires 0 <= k <= 9
  {
    '0' + k as char
  }

  function DigitValue(c: char): (k: int)
    requires '0' <= c <= '9'
    ensures 0 <= k <= 9
  {
    c as int - '0' as int
  }

  function Pow10(k: nat): (p: int)
    ensures p >= 1
  {
    if k == 0 then 1 else 10 * Pow10(k - 1)
  }

  /** The last k decimal digits of n, left-padded with zeros. */
  function Pad(n: int, k: nat): (s: string)
    requires n >= 0
    ensures |s| == k
    ensures forall i :: 0 <= i < k ==> '0' <= s[i] <= '9'
  {
    if k == 0 then "" else Pad(n / 10, k - 1) + [Digit(n % 10)]
  }

  /** Number(...) of a run of digits. */
  function ParseDigits(s: string): (n: int)
    requires forall i :: 0 <= i < |s| ==> '0' <= s[i] <= '9'
    ensures n >= 0
  {
    if s == "" then 0 else 10 * ParseDigits(s[..|s| - 1]) + DigitValue(s[|s| - 1])
  }

  function MonthAndDay(m: string, d: string): string {
    "-" + (m + ("-" + d))
  }

  /** toISOString().slice(0, 10): years outside 0 to 9999 use the signed six-digit form. */
  function Iso(d: Date): (s: string)
    requires IsValid(d)
    ensures |s| == 10
  {
    var tail := MonthAndDay(Pad(d.month, 2), Pad(d.day, 2));
    if 0 <= d.year <= 9999 then Pad(d.year, 4) + tail
    else ((if d.year < 0 then "-" + Pad(-d.year, 6) else "+" + Pad(d.year, 6)) + tail)[..10]
  }

  predicate IsDigits(s: string) {
    forall i :: 0 <= i < |s| ==> '0' <= s[i] <= '9'
  }

  /** The `date` format the request schemas demand: four, two and two digits of an existing day. */
  predicate IsIso(s: string) {
    && |s| == 10 && s[4] == '-' && s[7] == '-'
    && IsDigits(s[..4]) && IsDigits(s[5..7]) && IsDigits(s[8..])
    && IsValid(Date(ParseDigits(s[..4]), ParseDigits(s[5..7]), ParseDigits(s[8..])))
  }

  /** split("-").map(Number). */
  function Parse(s: string): (d: Date)
    requires IsIso(s)
    ensures IsValid(d)
  {
    Date(ParseDigits(s[..4]), ParseDigits(s[5..7]), ParseDigits(s[8..]))
  }

  function AddDays(iso: string, n: int): string
    requires IsIso(iso)
  {
    Iso(AddDaysTo(Parse(iso), n))
  }

  function DayOfMonth(iso: string): int
    requires IsIso(iso)
  {
    ParseDigits(iso[8..])
  }

  lemma {:induction false} ParsePad(n: int, k: nat)
    requires 0 <= n < Pow10(k)
    ensures ParseDigits(Pad(n, k)) == n
  {
    if k > 0 {
      ParsePad(n / 10, k - 1);
      assert Pad(n, k)[..k - 1] == Pad(n / 10, k - 1);
    }
  }

  lemma Powers()
    ensures Pow10(2) == 100 && Pow10(4) == 10000
  {
  }

  /** Formatting and parsing undo each other on four-digit years. */
  lemma IsoRoundTrip(d: Date)
    requires IsValid(d) && 0 <= d.year <= 9999
    ensures IsIso(Iso(d))
    ensures Parse(Iso(d)) == d && DayOfMonth(Iso(d)) == d.day
  {
    IsoSlices(d);
    Powers();
    ParsePad(d.year, 4);
    ParsePad(d.month, 2);
    ParsePad(d.day, 2);
  }

  lemma IsoSlices(d: Date)
    requires IsValid(d) && 0 <= d.year <= 9999
    ensures Iso(d)[..4] == Pad(d.year, 4) && Iso(d)[4] == '-'
    ensures Iso(d)[5..7] == Pad(d.month, 2) && Iso(d)[7] == '-'
    ensures Iso(d)[8..] == Pad(d.day, 2)
  {
    hide Pad, MonthLength;
    var tail := MonthAndDay(Pad(d.month, 2), Pad(d.day, 2));
    assert Iso(d) == Pad(d.year, 4) + tail;
    assert Iso(d)[5..7] == tail[1..3] && Iso(d)[8..] == tail[4..];
  }

  /** The string operation is additive whenever the date in between is in the years 100 to 9999. */
  lemma AddDaysStringsAdditive(iso: string, m: int, n: int)
    requires IsIso(iso)
    requires 100 <= AddDaysTo(Parse(iso), m).year <= 9999
    ensures IsIso(AddDays(iso, m))
    ensures AddDays(AddDays(iso, m), n) == AddDays(iso, m + n)
  {
    IsoRoundTrip(AddDaysTo(Parse(iso), m));
    AddDaysAdditive(Parse(iso), m, n);
  }

  /** The `<` of JavaScript strings: by first differing character, a proper prefix being smaller. */
  predicate StringLess(s: string, t: string) {
    if t == "" then false
    else if s == "" then true
    else if s[0] != t[0] then s[0] < t[0]
    else StringLess(s[1..], t[1..])
  }

  lemma {:induction false} LessConcat(a: string, b: string, c: string, d: string)
    requires |a| == |b|
    ensures StringLess(a + c, b + d) <==> StringLess(a, b) || (a == b && StringLess(c, d))
  {
    if a == "" {
      assert a + c == c && b + d == d;
    } else {
      assert (a + c)[1..] == a[1..] + c && (b + d)[1..] == b[1..] + d;
      LessConcat(a[1..], b[1..], c, d);
    }
  }

  lemma {:induction false} PadOrder(x: int, y: int, k: nat)
    requires 0 <= x < Pow10(k) && 0 <= y < Pow10(k)
    ensures StringLess(Pad(x, k), Pad(y, k)) <==> x < y
    ensures Pad(x, k) == Pad(y, k) <==> x == y
  {
    ParsePad(x, k);
    ParsePad(y, k);
    if k > 0 {
      PadOrder(x / 10, y / 10, k - 1);
      LessConcat(Pad(x / 10, k - 1), Pad(y / 10, k - 1), [Digit(x % 10)], [Digit(y % 10)]);
      DigitOrder(x % 10, y % 10);
    }
  }

  lemma DigitOrder(a: int, b: int)
    requires 0 <= a <= 9 && 0 <= b <= 9
    ensures StringLess([Digit(a)], [Digit(b)]) <==> a < b
  {
  }

  /** Comparing `YYYY-MM-DD` strings compares days: every due and overdue test relies on it. */
  lemma IsoOrderIsDayOrder(a: Date, b: Date)
    requires IsValid(a) && 0 <= a.year <= 9999
    requires IsValid(b) && 0 <= b.year <= 9999
    ensures StringLess(Iso(a), Iso(b)) <==> DayNumber(a) < DayNumber(b)
  {
    DayNumberOrder(a, b);
    IsoFieldOrder(a, b);
  }

  lemma IsoFieldOrder(a: Date, b: Date)
    requires IsValid(a) && 0 <= a.year <= 9999
    requires IsValid(b) && 0 <= b.year <= 9999
    ensures StringLess(Iso(a), Iso(b)) <==> Before(a, b)
  {
    Powers();
    PadOrder(a.year, b.year, 4);
    PadOrder(a.month, b.month, 2);
    PadOrder(a.day, b.day, 2);
    FieldwiseLess(Pad(a.year, 4), Pad(a.month, 2), Pad(a.day, 2), Pad(b.year, 4), Pad(b.month, 2), Pad(b.day, 2));
  }

  lemma FieldwiseLess(ya: string, ma: string, da: string, yb: string, mb: string, db: string)
    requires |ya| == |yb| && |ma| == |mb| && |da| == |db|
    ensures StringLess(ya + MonthAndDay(ma, da), yb + MonthAndDay(mb, db))
         <==> StringLess(ya, yb) || (ya == yb && (StringLess(ma, mb) || (ma == mb && StringLess(da, db))))
  {
    LessConcat(ya, yb, MonthAndDay(ma, da), MonthAndDay(mb, db));
    SkipDash(ma + ("-" + da), mb + ("-" + db));
    LessConcat(ma, mb, "-" + da, "-" + db);
    SkipDash(da, db);
  }

  lemma SkipDash(s: string, t: string)
    ensures StringLess("-" + s, "-" + t) <==> StringLess(s, t)
  {
  }

  // ---- Recurrence ------------------------------------------------------------------------------

  function MonthsPer(i: Interval): (k: int)
    ensures k >= 1
  {
    match i
    case Monthly => 1
    case Quarterly => 3
    case Yearly => 12
  }

  /** advanceByInterval: one period on, the day clamped to the target month's last day. */
  function AdvanceByInterval(d: Date, interval: Interval, billingDay: int): Date {
    var total := d.month - 1 + MonthsPer(interval);
    var year := d.year + total / 12;
    var month := total % 12 + 1;
    Date(year, month, Min(billingDay, FromDay(UtcDay(year, month, 0)).day))
  }

  /** Day 0 of the next month is the last day of this one. */
  lemma LastDayOfMonth(y: int, m: int)
    requires 1 <= m <= 12 && !(0 <= y <= 99)
    ensures FromDay(UtcDay(y, m, 0)) == Date(y, m, MonthLength(y, m))
  {
    var last := Date(y, m, MonthLength(y, m));
    if m == 12 {
      YearLength(y);
      MonthsFillYear(y);
    }
    assert UtcDay(y, m, 0) == DayNumber(last);
    DayBijection(last);
  }

  /** Months counted from year 0. */
  function MonthIndex(d: Date): int {
    12 * d.year + d.month - 1
  }

  /** The date with billing day b in the month of index k, in closed form. */
  function ClampedDate(k: int, b: int): Date {
    Date(k / 12, k % 12 + 1, Min(b, MonthLength(k / 12, k % 12 + 1)))
  }

  /** One period on is the clamped date `MonthsPer` months later, whatever the day of `d`. */
  lemma AdvanceIsClampedDate(d: Date, interval: Interval, billingDay: int)
    requires 1 <= d.month <= 12 && d.year >= 100
    ensures AdvanceByInterval(d, interval, billingDay)
         == ClampedDate(MonthIndex(d) + MonthsPer(interval), billingDay)
  {
    hide IsLeap, MonthLength, UtcDay, FromDay, ClampedDate;
    var total := d.month - 1 + MonthsPer(interval);
    var year, month := d.year + total / 12, total % 12 + 1;
    LastDayOfMonth(year, month);
    ClampAt(d.year, total, billingDay, FromDay(UtcDay(year, month, 0)).day);
  }

  lemma ClampAt(y: int, total: int, b: int, last: int)
    requires last == MonthLength(y + total / 12, total % 12 + 1)
    ensures ClampedDate(12 * y + total, b) == Date(y + total / 12, total % 12 + 1, Min(b, last))
  {
  }

  /** The n-th period date of a template first due on `first`. */
  function PeriodDate(first: Date, interval: Interval, n: nat): Date {
    ClampedDate(MonthIndex(first) + n * MonthsPer(interval), first.day)
  }

  /** Rolling a template forward n times lands on the closed form: no drift after a short month. */
  lemma PeriodStep(first: Date, interval: Interval, n: nat)
    requires IsValid(first) && first.year >= 100
    ensures IsValid(PeriodDate(first, interval, n)) && PeriodDate(first, interval, n).year >= 100
    ensures AdvanceByInterval(PeriodDate(first, interval, n), interval, first.day)
         == PeriodDate(first, interval, n + 1)
    ensures Before(PeriodDate(first, interval, n), PeriodDate(first, interval, n + 1))
  {
    hide IsLeap, MonthLength, AdvanceByInterval, ClampedDate;
    var step := MonthsPer(interval);
    var k := MonthIndex(first) + n * step;
    assert MonthIndex(first) + (n + 1) * step == k + step;
    ClampedDateFacts(k, step, first.day);
    ClampedDateFacts(MonthIndex(first), step, first.day);
    AdvanceIsClampedDate(PeriodDate(first, interval, n), interval, first.day);
  }

  lemma ClampedDateFacts(k: int, step: int, b: int)
    requires k >= 1200 && step >= 1 && 1 <= b
    ensures IsValid(ClampedDate(k, b)) && ClampedDate(k, b).year >= 100
    ensures MonthIndex(ClampedDate(k, b)) == k
    ensures Before(ClampedDate(k, b), ClampedDate(k + step, b))
  {
  }

  lemma FirstPeriod(first: Date, interval: Interval)
    requires IsValid(first)
    ensures PeriodDate(first, interval, 0) == first
  {
  }

  lemma {:induction false} PeriodsIncrease(first: Date, interval: Interval, m: nat, n: nat)
    requires IsValid(first) && first.year >= 100 && m < n
    ensures Before(PeriodDate(first, interval, m), PeriodDate(first, interval, n))
    decreases n
  {
  }

  /** Whatever the anchor day, one period on is a valid, strictly later date. */
  lemma AdvanceIsLater(d: Date, interval: Interval, billingDay: int)
    requires IsValid(d) && d.year >= 100 && billingDay >= 1
    ensures IsValid(AdvanceByInterval(d, interval, billingDay))
    ensures AdvanceByInterval(d, interval, billingDay).year >= 100
    ensures Before(d, AdvanceByInterval(d, interval, billingDay))
  {
    hide AdvanceByInterval, MonthLength, ClampedDate;
    AdvanceIsClampedDate(d, interval, billingDay);
    ClampedDateFacts(MonthIndex(d) + MonthsPer(interval), 1, billingDay);
    LaterMonth(d, AdvanceByInterval(d, interval, billingDay));
  }

  lemma LaterMonth(a: Date, b: Date)
    requires 1 <= a.month <= 12 && 1 <= b.month <= 12 && MonthIndex(a) < MonthIndex(b)
    ensures Before(a, b)
  {
  }

  lemma BeforeTransitive(a: Date, b: Date, c: Date)
    requires Before(a, b) && Before(b, c)
    ensures Before(a, c)
  {
  }

  /** The month lies so many months on, and the day is the billing day or the month's last day if that comes first. */
  ghost predicate MonthsOn(from: Date, to: Date, months: int, billingDay: int) {
    && 1 <= to.month <= 12 && 12 * to.year + to.month == 12 * from.year + from.month + months
    && to.day == Min(billingDay, DayNumber(NextMonth(to)) - DayNumber(Date(to.year, to.month, 1)))
  }

  /** A monthly template moves on by one month, a quarterly one by three, a yearly one by twelve. */
  lemma RollRule(d: Date, interval: Interval, billingDay: int)
    requires 1 <= d.month <= 12 && d.year >= 100
    ensures interval == Monthly ==> MonthsOn(d, AdvanceByInterval(d, interval, billingDay), 1, billingDay)
    ensures interval == Quarterly ==> MonthsOn(d, AdvanceByInterval(d, interval, billingDay), 3, billingDay)
    ensures interval == Yearly ==> MonthsOn(d, AdvanceByInterval(d, interval, billingDay), 12, billingDay)
  {
    hide MonthLength, DayNumber, AdvanceByInterval;
    AdvanceIsClampedDate(d, interval, billingDay);
    MonthFollows(AdvanceByInterval(d, interval, billingDay));
  }

  /** And so the n-th period lies n times as many months after the first. */
  lemma PeriodRule(first: Date, interval: Interval, n: nat)
    requires IsValid(first)
    ensures interval == Monthly ==> MonthsOn(first, PeriodDate(first, interval, n), n, first.day)
    ensures interval == Quarterly ==> MonthsOn(first, PeriodDate(first, interval, n), 3 * n, first.day)
    ensures interval == Yearly ==> MonthsOn(first, PeriodDate(first, interval, n), 12 * n, first.day)
  {
    hide MonthLength, DayNumber;
    MonthFollows(PeriodDate(first, interval, n));
  }
}
