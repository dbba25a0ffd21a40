/**
 OCR payment references: `<invoice number> <length digit> <Luhn check digit>`, the Luhn algorithm of
 Annex B of ISO/IEC 7812-1, and the second Luhn implementation that validates identity numbers.
 */
module Ocr {
  import opened Wrappers
  import opened Dates

  /** The doubled digit, with its digit sum taken. */
  function Doubled(d: int): (r: int)
    requires 0 <= d <= 9
    ensures 0 <= r <= 9
  {
    if 2 * d > 9 then 2 * d - 9 else 2 * d
  }

  function Weighted(d: int, double: bool): (r: int)
    requires 0 <= d <= 9
    ensures 0 <= r <= 9
  {
    if double then Doubled(d) else d
  }

  /** The Luhn sum from the right; `double` says whether the rightmost digit is doubled. */
  function LuhnSum(s: string, double: bool): (r: int)
    requires IsDigits(s)
    ensures r >= 0
  {
    if s == "" then 0
    else LuhnSum(s[..|s| - 1], !double) + Weighted(DigitValue(s[|s| - 1]), double)
  }

  function CheckDigit(s: string): (c: int)
    requires IsDigits(s)
    ensures 0 <= c <= 9
  {
    (10 - LuhnSum(s, true) % 10) % 10
  }

  /** luhnCheckDigit: the right-to-left loop. */
  method LuhnCheckDigit(digits: string) returns (check: int)
    requires IsDigits(digits)
    ensures check == CheckDigit(digits)
  {
    var sum, double, i := 0, true, |digits|;
    assert digits[..|digits|] == digits;
    while i > 0
      invariant 0 <= i <= |digits|
      invariant sum + LuhnSum(digits[..i], double) == LuhnSum(digits, true)
    {
      assert digits[..i][..i - 1] == digits[..i - 1];
      i := i - 1;
      var d := DigitValue(digits[i]);
      if double {
        d := d * 2;
        if d > 9 {
          d := d - 9;
        }
      }
      sum := sum + d;
      double := !double;
    }
    check := (10 - sum % 10) % 10;
  }

  predicate IsLuhn(s: string) {
    s != "" && IsDigits(s) && LuhnSum(s, false) % 10 == 0
  }

  /** luhn of the identity-number validators: the check digit is the last digit of the string. */
  method Luhn(digits: string) returns (ok: bool)
    ensures ok <==> IsLuhn(digits)
  {
    if digits == "" || exists k :: 0 <= k < |digits| && !('0' <= digits[k] <= '9') {
      return false;
    }
    var sum, double, i := 0, false, |digits|;
    assert digits[..|digits|] == digits;
    while i > 0
      invariant 0 <= i <= |digits|
      invariant sum + LuhnSum(digits[..i], double) == LuhnSum(digits, false)
    {
      assert digits[..i][..i - 1] == digits[..i - 1];
      i := i - 1;
      var d := DigitValue(digits[i]);
      if double {
        d := d * 2;
        if d > 9 {
          d := d - 9;
        }
      }
      sum := sum + d;
      double := !double;
    }
    ok := sum % 10 == 0;
  }

  /** The two implementations agree: appending the computed check digit, and no other, validates. */
  lemma CheckDigitAgreesWithLuhn(s: string, c: int)
    requires IsDigits(s) && 0 <= c <= 9
    ensures IsLuhn(s + [Digit(c)]) <==> c == CheckDigit(s)
  {
  }

  // ---- Derivation and validation ---------------------------------------------------------------

  /** String(n) of a positive integer. */
  function Decimal(n: nat): (s: string)
    ensures s != "" && IsDigits(s)
    ensures n > 0 ==> s[0] != '0'
  {
    if n < 10 then [Digit(n)] else Decimal(n / 10) + [Digit(n % 10)]
  }

  function WithLength(base: string): (s: string)
    requires IsDigits(base)
    ensures IsDigits(s)
  {
    base + [Digit((|base| + 2) % 10)]
  }

  function WithCheck(s: string): (r: string)
    requires IsDigits(s)
    ensures IsDigits(r)
  {
    s + [Digit(CheckDigit(s))]
  }

  function DeriveOcr(number: nat): (ocr: string)
    requires number > 0
    ensures IsDigits(ocr) && |ocr| >= 3
  {
    WithCheck(WithLength(Decimal(number)))
  }

  predicate IsValidOcr(ocr: string) {
    && |ocr| >= 3 && IsDigits(ocr)
    && var body := ocr[..|ocr| - 1];
       var base := body[..|body| - 1];
       (|base| + 2) % 10 == DigitValue(body[|body| - 1]) && CheckDigit(body) == DigitValue(ocr[|ocr| - 1])
  }

  lemma DigitRoundTrip(c: char)
    requires '0' <= c <= '9'
    ensures Digit(DigitValue(c)) == c
  {
  }

  /** A valid reference is its base with the length digit and check digit appended. */
  lemma ValidOcrShape(ocr: string)
    ensures IsValidOcr(ocr) <==>
            |ocr| >= 3 && IsDigits(ocr) && ocr == WithCheck(WithLength(ocr[..|ocr| - 2]))
  {
    if |ocr| >= 3 && IsDigits(ocr) {
      var body := ocr[..|ocr| - 1];
      var base := ocr[..|ocr| - 2];
      assert body[..|body| - 1] == base;
      assert body == base + [body[|body| - 1]] && ocr == body + [ocr[|ocr| - 1]];
      DigitRoundTrip(body[|body| - 1]);
      DigitRoundTrip(ocr[|ocr| - 1]);
      if ocr == WithCheck(WithLength(base)) {
        assert WithLength(base) == ocr[..|ocr| - 1];
      }
    }
  }

  lemma {:induction false} DecimalOfParse(s: string)
    requires s != "" && IsDigits(s) && s[0] != '0'
    ensures ParseDigits(s) > 0
    ensures Decimal(ParseDigits(s)) == s
    decreases |s|
  {
    var front, last := s[..|s| - 1], s[|s| - 1];
    DigitRoundTrip(last);
    if front != "" {
      DecimalOfParse(front);
      assert ParseDigits(s) / 10 == ParseDigits(front);
      assert s == front + [last];
    }
  }

  lemma {:induction false} ParseOfDecimal(n: nat)
    ensures ParseDigits(Decimal(n)) == n
  {
    var s := Decimal(n);
    if n >= 10 {
      ParseOfDecimal(n / 10);
      assert s[..|s| - 1] == Decimal(n / 10);
    } else {
      assert s[..|s| - 1] == "";
    }
  }

  lemma DerivedBase(n: nat)
    requires n > 0
    ensures DeriveOcr(n)[..|DeriveOcr(n)| - 2] == Decimal(n)
  {
  }

  /** Every derived reference validates, and the number can be read back from it. */
  lemma DerivedIsValid(n: nat)
    requires n > 0
    ensures IsValidOcr(DeriveOcr(n))
    ensures ParseDigits(DeriveOcr(n)[..|DeriveOcr(n)| - 2]) == n
  {
    DerivedBase(n);
    ValidOcrShape(DeriveOcr(n));
    ParseOfDecimal(n);
  }

  /** Distinct invoice numbers have distinct references. */
  lemma DeriveInjective(m: nat, n: nat)
    requires m > 0 && n > 0 && DeriveOcr(m) == DeriveOcr(n)
    ensures m == n
  {
    DerivedIsValid(m);
    DerivedIsValid(n);
  }

  /** The derived references are exactly the valid ones whose base has no leading zero. */
  lemma DerivedImage(ocr: string)
    ensures (exists n: nat :: n > 0 && ocr == DeriveOcr(n)) <==> IsValidOcr(ocr) && ocr[0] != '0'
  {
    if IsValidOcr(ocr) && ocr[0] != '0' {
      ValidOcrShape(ocr);
      var base := ocr[..|ocr| - 2];
      DecimalOfParse(base);
      assert ocr == DeriveOcr(ParseDigits(base));
    }
    if exists n: nat :: n > 0 && ocr == DeriveOcr(n) {
      var n: nat :| n > 0 && ocr == DeriveOcr(n);
      DerivedIsValid(n);
      DerivedBase(n);
    }
  }

  // ---- Error detection -------------------------------------------------------------------------

  /** A valid reference has a total Luhn sum divisible by ten. */
  lemma ValidIsLuhn(ocr: string)
    requires IsValidOcr(ocr)
    ensures IsLuhn(ocr)
  {
  }

  /** The Luhn sum splits at any position; the left part sees the parity of the right part. */
  lemma {:induction false} LuhnSumConcat(a: string, b: string, double: bool)
    requires IsDigits(a) && IsDigits(b)
    ensures LuhnSum(a + b, double) == LuhnSum(a, if |b| % 2 == 0 then double else !double) + LuhnSum(b, double)
    decreases |b|
  {
    if b == "" {
      assert a + b == a;
    } else {
      var front := b[..|b| - 1];
      assert (a + b)[..|a + b| - 1] == a + front;
      LuhnSumConcat(a, front, !double);
    }
  }

  lemma LuhnSumOne(c: char, double: bool)
    requires '0' <= c <= '9'
    ensures LuhnSum([c], double) == Weighted(DigitValue(c), double)
  {
  }

  lemma DigitParts(a: string, m: string, b: string)
    requires IsDigits(a + m + b)
    ensures IsDigits(a) && IsDigits(m) && IsDigits(b)
  {
    var s := a + m + b;
    assert forall i :: 0 <= i < |a| ==> a[i] == s[i];
    assert forall i :: 0 <= i < |m| ==> m[i] == s[|a| + i];
    assert forall i :: 0 <= i < |b| ==> b[i] == s[|a| + |m| + i];
  }

  /** The doubling parity `k` places further left. */
  function Parity(k: nat, double: bool): bool {
    if k % 2 == 0 then double else !double
  }

  lemma MiddleSum(a: string, m: string, b: string, double: bool)
    requires IsDigits(a) && IsDigits(m) && IsDigits(b) && IsDigits(a + m)
    ensures LuhnSum(a + m + b, double)
         == LuhnSum(a, Parity(|m|, Parity(|b|, double))) + LuhnSum(m, Parity(|b|, double)) + LuhnSum(b, double)
  {
    hide LuhnSum;
    LuhnSumConcat(a + m, b, double);
    LuhnSumConcat(a, m, Parity(|b|, double));
  }

  /** Replacing part of a Luhn number by as many digits keeps it valid only if the weights agree. */
  lemma ReplacedPart(a: string, m: string, n: string, b: string) returns (k: int)
    requires |m| == |n| && IsDigits(a) && IsDigits(m) && IsDigits(n) && IsDigits(b)
    requires IsLuhn(a + m + b) && IsLuhn(a + n + b)
    ensures LuhnSum(m, Parity(|b|, false)) - LuhnSum(n, Parity(|b|, false)) == 10 * k
  {
    hide LuhnSum, Parity;
    SumDifference(a, m, n, b);
    k := LuhnSum(a + m + b, false) / 10 - LuhnSum(a + n + b, false) / 10;
  }

  lemma SumDifference(a: string, m: string, n: string, b: string)
    requires |m| == |n| && IsDigits(a) && IsDigits(m) && IsDigits(n) && IsDigits(b)
    ensures LuhnSum(a + m + b, false) - LuhnSum(a + n + b, false)
         == LuhnSum(m, Parity(|b|, false)) - LuhnSum(n, Parity(|b|, false))
  {
    hide LuhnSum, Parity;
    MiddleSum(a, m, b, false);
    MiddleSum(a, n, b, false);
  }

  /** Any change of one digit of a valid reference is rejected. */
  lemma SingleErrorDetected(a: string, c: char, d: char, b: string)
    requires IsValidOcr(a + [c] + b) && IsValidOcr(a + [d] + b)
    ensures c == d
  {
    ValidIsLuhn(a + [c] + b);
    DigitParts(a, [c], b);
    DigitParts(a, [d], b);
    ValidIsLuhn(a + [d] + b);
    var k := ReplacedPart(a, [c], [d], b);
    OneDigit(c, d, Parity(|b|, false), k);
  }

  lemma OneDigit(c: char, d: char, double: bool, k: int)
    requires IsDigits([c]) && IsDigits([d])
    requires LuhnSum([c], double) - LuhnSum([d], double) == 10 * k
    ensures c == d
  {
  }

  /** Swapping two unequal adjacent digits is rejected, unless they are 0 and 9. */
  lemma AdjacentSwapDetected(a: string, c: char, d: char, b: string)
    requires IsValidOcr(a + [c, d] + b) && IsValidOcr(a + [d, c] + b)
    ensures c == d || (c == '0' && d == '9') || (c == '9' && d == '0')
  {
    hide LuhnSum, Parity, IsValidOcr;
    ValidIsLuhn(a + [c, d] + b);
    ValidIsLuhn(a + [d, c] + b);
    DigitParts(a, [c, d], b);
    DigitParts(a, [d, c], b);
    var k := ReplacedPart(a, [c, d], [d, c], b);
    assert [c, d][0] == c && [c, d][1] == d;
    PairSum(c, d, Parity(|b|, false));
    PairSum(d, c, Parity(|b|, false));
    SwapArithmetic(DigitValue(c), DigitValue(d), Parity(|b|, false), k);
  }

  lemma PairSum(c: char, d: char, double: bool)
    requires '0' <= c <= '9' && '0' <= d <= '9'
    ensures LuhnSum([c, d], double) == Weighted(DigitValue(c), !double) + Weighted(DigitValue(d), double)
  {
    assert [c, d] == [c] + [d];
    LuhnSumConcat([c], [d], double);
    LuhnSumOne(c, !double);
    LuhnSumOne(d, double);
  }

  lemma SwapArithmetic(x: int, y: int, double: bool, k: int)
    requires 0 <= x <= 9 && 0 <= y <= 9
    requires Weighted(x, !double) + Weighted(y, double) - Weighted(y, !double) - Weighted(x, double) == 10 * k
    ensures x == y || (x == 0 && y == 9) || (x == 9 && y == 0)
  {
  }

  /** The exception is real: inside the number part, swapping 0 and 9 is never noticed. */
  lemma ZeroNineSwapUndetected(a: string, c: char, d: char, b: string)
    requires |b| >= 2 && IsValidOcr(a + [c, d] + b) && {c, d} == {'0', '9'}
    ensures IsValidOcr(a + [d, c] + b)
  {
    hide LuhnSum;
    var s, t, tail := a + [c, d] + b, a + [d, c] + b, b[..|b| - 1];
    DigitParts(a, [c, d], b);
    assert s[..|s| - 1] == a + [c, d] + tail && t[..|t| - 1] == a + [d, c] + tail;
    SwappedSum(a, tail);
  }

  /** A swap of two unequal neighbours goes unnoticed exactly if they are 0 and 9 inside the number part. */
  lemma SwapUndetectedIff(a: string, c: char, d: char, b: string)
    requires c != d && IsValidOcr(a + [c, d] + b)
    ensures IsValidOcr(a + [d, c] + b) <==> {c, d} == {'0', '9'} && |b| >= 2
  {
    hide IsValidOcr;
    if IsValidOcr(a + [d, c] + b) {
      AdjacentSwapDetected(a, c, d, b);
      if |b| < 2 {
        LengthDigitFixed(a, c, d, b);
      }
    }
    if {c, d} == {'0', '9'} && |b| >= 2 {
      ZeroNineSwapUndetected(a, c, d, b);
    }
  }

  /** The last digit but one gives the length, so a swap cannot move it. */
  lemma LengthDigitFixed(a: string, c: char, d: char, b: string)
    requires |b| < 2 && IsValidOcr(a + [c, d] + b) && IsValidOcr(a + [d, c] + b)
    ensures c == d
  {
    hide LuhnSum, CheckDigit;
    LengthDigit(a + [c, d] + b);
    LengthDigit(a + [d, c] + b);
  }

  lemma LengthDigit(s: string)
    requires IsValidOcr(s)
    ensures DigitValue(s[|s| - 2]) == |s| % 10 && '0' <= s[|s| - 2] <= '9'
  {
  }

  lemma SwappedSum(a: string, tail: string)
    requires IsDigits(a) && IsDigits(tail)
    ensures LuhnSum(a + ['0', '9'] + tail, true) == LuhnSum(a + ['9', '0'] + tail, true)
  {
    hide LuhnSum;
    MiddleSum(a, ['0', '9'], tail, true);
    MiddleSum(a, ['9', '0'], tail, true);
    PairSum('0', '9', Parity(|tail|, true));
    PairSum('9', '0', Parity(|tail|, true));
  }

  // ---- The reference, place by place ---------------------------------------------------------------------

  /** The digit p places from the right; in every second place its double, digit by digit. */
  function PlaceValue(s: string, p: int): int {
    if 0 <= p < |s| && '0' <= s[|s| - 1 - p] <= '9' then
      var d := DigitValue(s[|s| - 1 - p]);
      if p % 2 == 1 then 2 * d / 10 + 2 * d % 10 else d
    else 0
  }

  function PlaceValueFrom(s: string, p: int, double: bool): int {
    if 0 <= p < |s| && '0' <= s[|s| - 1 - p] <= '9' then
      Weighted(DigitValue(s[|s| - 1 - p]), Parity(p, double))
    else 0
  }

  lemma {:induction false} LuhnSumByPlace(s: string, double: bool)
    requires IsDigits(s)
    ensures LuhnSum(s, double) == Sum(p => PlaceValueFrom(s, p, double), |s|)
    decreases |s|
  {
    if s != "" {
      LuhnSumByPlace(s[1..], double);
      LeftmostPlace(s, double);
    }
  }

  lemma LeftmostPlace(s: string, double: bool)
    requires s != "" && IsDigits(s)
    ensures LuhnSum(s, double) == LuhnSum(s[1..], double) + PlaceValueFrom(s, |s| - 1, double)
    ensures Sum(p => PlaceValueFrom(s[1..], p, double), |s| - 1) == Sum(p => PlaceValueFrom(s, p, double), |s| - 1)
  {
    hide LuhnSum, Weighted;
    var rest := s[1..];
    assert s == [s[0]] + rest;
    LuhnSumConcat([s[0]], rest, double);
    LuhnSumOne(s[0], Parity(|rest|, double));
    SumSame(p => PlaceValueFrom(rest, p, double), p => PlaceValueFrom(s, p, double), |rest|);
  }

  lemma PlaceValues(s: string)
    requires IsDigits(s)
    ensures LuhnSum(s, false) == Sum(p => PlaceValue(s, p), |s|)
  {
    LuhnSumByPlace(s, false);
    forall p | 0 <= p < |s| ensures PlaceValueFrom(s, p, false) == PlaceValue(s, p) {
    }
    SumSame(p => PlaceValueFrom(s, p, false), p => PlaceValue(s, p), |s|);
  }

  /** The separate luhn accepts exactly the digit strings whose place values add up to a multiple of ten. */
  lemma LuhnIff(s: string)
    ensures IsLuhn(s) <==> s != "" && IsDigits(s) && Sum(p => PlaceValue(s, p), |s|) % 10 == 0
  {
    if IsDigits(s) {
      PlaceValues(s);
    }
  }

  /** A reference is valid exactly if the last digit but one is its length and the place values add up to tens. */
  lemma ValidOcrIff(ocr: string)
    ensures IsValidOcr(ocr) <==>
            && |ocr| >= 3 && IsDigits(ocr) && DigitValue(ocr[|ocr| - 2]) == |ocr| % 10
            && Sum(p => PlaceValue(ocr, p), |ocr|) % 10 == 0
  {
    LuhnIff(ocr);
    if |ocr| >= 3 && IsDigits(ocr) {
      var body, c := ocr[..|ocr| - 1], DigitValue(ocr[|ocr| - 1]);
      DigitRoundTrip(ocr[|ocr| - 1]);
      assert ocr == body + [Digit(c)];
      CheckDigitAgreesWithLuhn(body, c);
      hide LuhnSum, IsLuhn, CheckDigit;
    }
  }

  /** The reference of a number: its decimal digits, the length of the whole, and the digit that makes it valid. */
  predicate IsReference(ocr: string, n: nat) {
    && |ocr| >= 3 && IsDigits(ocr) && ocr[0] != '0' && ParseDigits(ocr[..|ocr| - 2]) == n
    && DigitValue(ocr[|ocr| - 2]) == |ocr| % 10 && Sum(p => PlaceValue(ocr, p), |ocr|) % 10 == 0
  }

  lemma DerivedIff(n: nat, ocr: string)
    requires n > 0
    ensures IsReference(ocr, n) <==> ocr == DeriveOcr(n)
  {
    hide LuhnSum, CheckDigit, IsValidOcr, DeriveOcr, ParseDigits, PlaceValue, Sum;
    ValidOcrIff(ocr);
    DerivedImage(ocr);
    DerivedIsValid(n);
    if IsReference(ocr, n) {
      var m: nat :| m > 0 && ocr == DeriveOcr(m);
      DerivedIsValid(m);
    }
    if ocr == DeriveOcr(n) {
      assert IsValidOcr(ocr) && ocr[0] != '0';
    }
  }
}
