/**
 VAT per line: amounts are whole öre, quantities whole thousandths, and rounding happens once per
 line, half upwards. Totals are plain sums of rounded lines.
 */
module Vat {
  const MAX_SAFE: int := 0x20_0000_0000_0000 // 2^53
  const MAX_MILLI: int := 100_000_000
  const MAX_PRICE: int := 100_000_000
  const MAX_LINES: int := 200

  /** A line as entered: thousandths of a unit, öre per unit, percent. */
  datatype LineInput = LineInput(milli: int, unitPrice: int, vatRate: int)

  datatype Amounts = Amounts(excl: int, vat: int, incl: int)

  /** floor(x / y + 1/2): half rounds upwards. */
  function RoundHalfUp(x: int, y: int): (r: int)
    requires y > 0
    ensures 2 * x - y < 2 * (r * y) <= 2 * x + y
  {
    RoundingBand(x, y);
    (2 * x + y) / (2 * y)
  }

  lemma RoundingBand(x: int, y: int)
    requires y > 0
    ensures 2 * x - y < 2 * (((2 * x + y) / (2 * y)) * y) <= 2 * x + y
  {
  }

  /** The band fixes the result: it is the only integer that close, ties going up. */
  lemma RoundHalfUpUnique(x: int, y: int, r: int)
    requires y > 0 && 2 * x - y < 2 * (r * y) <= 2 * x + y
    ensures r == RoundHalfUp(x, y)
  {
    OnlyMultipleInBand(x, y, r, RoundHalfUp(x, y));
  }

  lemma OnlyMultipleInBand(x: int, y: int, r: int, s: int)
    requires y > 0 && 2 * x - y < 2 * (r * y) <= 2 * x + y && 2 * x - y < 2 * (s * y) <= 2 * x + y
    ensures r == s
  {
    var d := r - s;
    assert d * y == r * y - s * y;
    assert d >= 1 ==> d * y >= y;
    assert d <= -1 ==> d * y <= -y;
  }

  /** Math.trunc(x / y). */
  function Trunc(x: int, y: int): int
    requires y > 0
  {
    if x >= 0 then x / y else -(-x / y)
  }

  datatype Exact = Overflow | Exact(whole: int, thousandths: int)

  /** exactLineExclVat: the whole part in öre and the rest in thousandths; throws past 2^53. */
  function ExactLineExclVat(milli: int, unitPrice: int): Exact {
    var whole := Trunc(milli, 1000);
    var frac := milli - whole * 1000;
    var wholePart := whole * unitPrice;
    if !(-MAX_SAFE < wholePart < MAX_SAFE) then Overflow
    else Exact(wholePart, frac * unitPrice)
  }

  /** The line does not run into the safe-integer throw. */
  predicate Computable(line: LineInput) {
    ExactLineExclVat(line.milli, line.unitPrice).Exact?
  }

  /** roundHalfUp of whole + thousandths / 1000. */
  function RoundedExcl(e: Exact): int
    requires e.Exact?
  {
    e.whole + RoundHalfUp(e.thousandths, 1000)
  }

  function ComputeLine(line: LineInput): (a: Amounts)
    requires Computable(line)
    ensures a.incl == a.excl + a.vat
  {
    var excl := RoundedExcl(ExactLineExclVat(line.milli, line.unitPrice));
    var vat := RoundHalfUp(excl * line.vatRate, 100);
    Amounts(excl, vat, excl + vat)
  }

  /** Splitting the quantity into whole and thousandths loses nothing: the line is the rounded product. */
  lemma SplitIsExact(milli: int, unitPrice: int)
    ensures var e := ExactLineExclVat(milli, unitPrice);
            e.Exact? ==>
              && 1000 * e.whole + e.thousandths == milli * unitPrice
              && RoundedExcl(e) == RoundHalfUp(milli * unitPrice, 1000)
  {
  }

  /** The bounds of the request schema on one line. */
  predicate SchemaLine(l: LineInput) {
    && 0 <= l.milli <= MAX_MILLI
    && 0 <= l.unitPrice <= MAX_PRICE
    && (l.vatRate == 0 || l.vatRate == 6 || l.vatRate == 12 || l.vatRate == 25)
  }

  /** One to two hundred lines within bounds. */
  predicate SchemaLines(lines: seq<LineInput>) {
    1 <= |lines| <= MAX_LINES && forall i :: 0 <= i < |lines| ==> SchemaLine(lines[i])
  }

  const MAX_EXCL: int := MAX_MILLI * MAX_PRICE / 1000

  /** For schema-valid input the throw is unreachable and every intermediate value is exact. */
  lemma SchemaLineSafe(l: LineInput)
    requires SchemaLine(l)
    ensures Computable(l)
    ensures ExactLineExclVat(l.milli, l.unitPrice).thousandths < MAX_SAFE
    ensures 0 <= ComputeLine(l).excl <= MAX_EXCL && ComputeLine(l).excl * l.vatRate < MAX_SAFE
    ensures ComputeLine(l).excl == RoundHalfUp(l.milli * l.unitPrice, 1000)
    ensures 0 <= ComputeLine(l).vat && 4 * ComputeLine(l).incl <= 5 * MAX_EXCL + 2
  {
    var whole := l.milli / 1000;
    Bounded(whole, 100_000, l.unitPrice, MAX_PRICE);
    Bounded(l.milli - whole * 1000, 999, l.unitPrice, MAX_PRICE);
    Bounded(l.milli, MAX_MILLI, l.unitPrice, MAX_PRICE);
    SplitIsExact(l.milli, l.unitPrice);
    var excl := ComputeLine(l).excl;
    Bounded(excl, MAX_EXCL, l.vatRate, 25);
    VatShare(excl, l.vatRate);
  }

  lemma Bounded(a: int, amax: int, b: int, bmax: int)
    requires 0 <= a <= amax && 0 <= b <= bmax
    ensures 0 <= a * b <= amax * bmax
  {
  }

  lemma VatShare(excl: int, rate: int)
    requires 0 <= excl && 0 <= rate <= 25
    ensures 0 <= RoundHalfUp(excl * rate, 100) && 4 * RoundHalfUp(excl * rate, 100) <= excl + 2
  {
  }

  // ---- Totals ----------------------------------------------------------------------------------

  function Plus(a: Amounts, b: Amounts): Amounts {
    Amounts(a.excl + b.excl, a.vat + b.vat, a.incl + b.incl)
  }

  const ZERO := Amounts(0, 0, 0)

  /** sumTotals: the reduce over rounded lines. */
  function SumTotals(lines: seq<Amounts>): Amounts {
    if lines == [] then ZERO else Plus(SumTotals(lines[..|lines| - 1]), lines[|lines| - 1])
  }

  function Negate(a: Amounts): Amounts {
    Amounts(-a.excl, -a.vat, -a.incl)
  }

  predicate AllComputable(inputs: seq<LineInput>) {
    forall i :: 0 <= i < |inputs| ==> Computable(inputs[i])
  }

  function Lines(inputs: seq<LineInput>): (r: seq<Amounts>)
    requires AllComputable(inputs)
    ensures |r| == |inputs|
    ensures forall i :: 0 <= i < |r| ==> r[i] == ComputeLine(inputs[i])
  {
    seq(|inputs|, i requires 0 <= i < |inputs| => ComputeLine(inputs[i]))
  }

  /** The VAT of the rounded line amounts before rounding it, in hundredths of an öre. */
  function ExactVat(inputs: seq<LineInput>): int
    requires AllComputable(inputs)
  {
    if inputs == [] then 0
    else
      var last := inputs[|inputs| - 1];
      ExactVat(inputs[..|inputs| - 1]) + ComputeLine(last).excl * last.vatRate
  }

  /** Rounding VAT per line moves the total by at most half an öre per line. */
  lemma {:induction false} VatErrorBound(inputs: seq<LineInput>)
    requires AllComputable(inputs)
    ensures var t := SumTotals(Lines(inputs));
            -50 * |inputs| <= 100 * t.vat - ExactVat(inputs) <= 50 * |inputs| && t.incl == t.excl + t.vat
  {
    if inputs != [] {
      var front, last := inputs[..|inputs| - 1], inputs[|inputs| - 1];
      VatErrorBound(front);
      LastLine(inputs);
      var r := RoundHalfUp(ComputeLine(last).excl * last.vatRate, 100);
      assert ComputeLine(last).vat == r;
    }
  }

  /** Non-negative totals of n lines, each at most a quarter above the largest amount without VAT. */
  predicate WithinBudget(t: Amounts, n: nat) {
    0 <= t.excl && 0 <= t.vat && t.incl == t.excl + t.vat && 4 * t.incl <= n * (5 * MAX_EXCL + 2)
  }

  lemma BudgetStep(t: Amounts, n: nat, l: LineInput)
    requires WithinBudget(t, n) && SchemaLine(l)
    ensures Computable(l)
    ensures WithinBudget(Plus(t, ComputeLine(l)), n + 1)
  {
    SchemaLineSafe(l);
  }

  /** The running totals of a schema-valid invoice stay far below 2^53. */
  lemma {:induction false} TotalsSafe(inputs: seq<LineInput>)
    requires |inputs| <= MAX_LINES
    requires forall i :: 0 <= i < |inputs| ==> SchemaLine(inputs[i])
    ensures AllComputable(inputs)
    ensures WithinBudget(SumTotals(Lines(inputs)), |inputs|)
    ensures SumTotals(Lines(inputs)).incl < MAX_SAFE
  {
    forall i | 0 <= i < |inputs| ensures Computable(inputs[i]) {
      SchemaLineSafe(inputs[i]);
    }
    if inputs != [] {
      var front := inputs[..|inputs| - 1];
      TotalsSafe(front);
      LastLine(inputs);
      BudgetStep(SumTotals(Lines(front)), |front|, inputs[|inputs| - 1]);
    }
    Bounded(|inputs|, MAX_LINES, 5 * MAX_EXCL + 2, 5 * MAX_EXCL + 2);
  }

  lemma LastLine(inputs: seq<LineInput>)
    requires inputs != [] && AllComputable(inputs)
    ensures SumTotals(Lines(inputs))
         == Plus(SumTotals(Lines(inputs[..|inputs| - 1])), ComputeLine(inputs[|inputs| - 1]))
  {
    assert Lines(inputs)[..|inputs| - 1] == Lines(inputs[..|inputs| - 1]);
  }

  function NegateAll(lines: seq<Amounts>): (r: seq<Amounts>)
    ensures |r| == |lines|
    ensures forall i :: 0 <= i < |r| ==> r[i] == Negate(lines[i])
  {
    seq(|lines|, i requires 0 <= i < |lines| => Negate(lines[i]))
  }

  /** Negating every line negates the totals, so original and credit note cancel exactly. */
  lemma {:induction false} TotalsNegate(lines: seq<Amounts>)
    ensures SumTotals(NegateAll(lines)) == Negate(SumTotals(lines))
  {
    if lines != [] {
      var front, last := lines[..|lines| - 1], lines[|lines| - 1];
      TotalsNegate(front);
      assert NegateAll(lines)[..|lines| - 1] == NegateAll(front);
      assert NegateAll(lines)[|lines| - 1] == Negate(last);
      var t := SumTotals(front);
      assert Plus(Negate(t), Negate(last)) == Negate(Plus(t, last));
    }
  }

  /** A zero-rated line of exactly one unit costs exactly its price. */
  lemma ZeroVatLine(price: int)
    ensures Computable(LineInput(1000, price, 0)) <==> -MAX_SAFE < price < MAX_SAFE
    ensures Computable(LineInput(1000, price, 0)) ==> ComputeLine(LineInput(1000, price, 0)) == Amounts(price, 0, price)
  {
  }
}
