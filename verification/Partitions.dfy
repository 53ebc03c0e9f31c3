/**
 `AdjustNumPartitions` of flow/shared/math.go over 64-bit integers: what its repeated
 rounded-up division computes, what it guarantees, and exactly for which inputs.
 */
module Partitions {
  import opened Int64s
  import opened Options

  function DivCeil(x: int64, y: int64): int64
    requires y != 0
  {
    Quotient(Wrap(x + y - 1), y)
  }

  const MAX_PARTITIONS: int64 := 1000

  datatype Adjusted = Adjusted(partitions: int64, rowsPerPartition: int64)

  // ---- exact arithmetic ----

  /** The least `q` with `x <= q * y`. */
  function Ceil(x: int, y: int): int
    requires y > 0
  {
    (x + y - 1) / y
  }

  lemma CeilBounds(x: int, y: int)
    requires y > 0
    ensures (Ceil(x, y) - 1) * y < x <= Ceil(x, y) * y
  {
    var n := x + y - 1;
    assert n == n / y * y + n % y;
    assert (n / y - 1) * y == n / y * y - y;
  }

  lemma CeilLeast(x: int, y: int, q: int)
    requires y > 0
    ensures x <= q * y <==> Ceil(x, y) <= q
  {
    CeilBounds(x, y);
    if q < Ceil(x, y) {
      MulMonotone(q, Ceil(x, y) - 1, y);
    } else {
      MulMonotone(Ceil(x, y), q, y);
    }
  }

  /** Rounded-up division is exact as long as the sum fits. */
  lemma DivCeilExact(x: int64, y: int64)
    requires x > 0 && y > 0 && x + y - 1 <= MAX
    ensures DivCeil(x, y) == Ceil(x, y) >= 1
  {
    QuotientBounds(x + y - 1, y);
    CeilLeast(x, y, 0);
  }

  /** Otherwise it is never positive. */
  lemma DivCeilOverflows(x: int64, y: int64)
    requires x > 0 && y > 0 && x + y - 1 > MAX
    ensures DivCeil(x, y) <= 0
  {
    var n := x + y - 1 - 0x1_0000_0000_0000_0000;
    assert Wrap(x + y - 1) == n < 0;
    QuotientBounds(-n, y);
  }

  /** In general it adds, and then divides toward zero. */
  lemma DivCeilTruncates(x: int64, y: int64)
    requires y != 0 && MIN < x + y - 1 <= MAX
    ensures var sum, q := x + y - 1, DivCeil(x, y);
      && Abs(q) * Abs(y) <= Abs(sum) < (Abs(q) + 1) * Abs(y)
      && (q != 0 ==> (q < 0 <==> (sum < 0) != (y < 0)))
  {
    QuotientBounds(Abs(x + y - 1), Abs(y));
    QuotientTimes(Abs(x + y - 1), Abs(y));
  }

  // ---- two significant figures ----

  function Pow10(k: nat): int {
    if k == 0 then 1 else 10 * Pow10(k - 1)
  }

  ghost predicate IsTwoFigures(n: int, lead: int, k: nat) {
    1 <= lead < 100 && n == lead * Pow10(k)
  }

  ghost predicate TwoFigures(n: int) {
    exists lead, k: nat :: IsTwoFigures(n, lead, k)
  }

  /** What the loop computes: rounded-up division by ten until two figures are left, scaled back. */
  function RoundUp(n: int): int
    decreases n
  {
    if n < 100 then n else 10 * RoundUp(Ceil(n, 10))
  }

  lemma {:induction false} Pow10Positive(k: nat)
    ensures Pow10(k) >= 1
  {
    if k > 0 {
      Pow10Positive(k - 1);
    }
  }

  /** The figures of the result; above nine the leading one has two digits. */
  lemma {:induction false} RoundUpFigures(n: int) returns (lead: int, k: nat)
    requires n >= 1
    ensures IsTwoFigures(RoundUp(n), lead, k)
    ensures n >= 10 ==> lead >= 10
    decreases n
  {
    if n < 100 {
      lead, k := n, 0;
    } else {
      lead, k := RoundUpFigures(Ceil(n, 10));
      assert 10 * (lead * Pow10(k)) == lead * (10 * Pow10(k));
      k := k + 1;
    }
  }

  lemma {:induction false} RoundUpCovers(n: int)
    ensures n <= RoundUp(n)
    decreases n
  {
    if n >= 100 {
      CeilBounds(n, 10);
      RoundUpCovers(Ceil(n, 10));
    }
  }

  /** Nested ceilings collapse: no other two-figure number fits between. */
  lemma {:induction false} RoundUpLeast(n: int, m: int, lead: int, k: nat)
    requires n <= m && IsTwoFigures(m, lead, k)
    ensures RoundUp(n) <= m
    decreases n
  {
    if n >= 100 {
      assert k > 0;
      var m' := lead * Pow10(k - 1);
      assert m == 10 * m';
      CeilLeast(n, 10, m');
      RoundUpLeast(Ceil(n, 10), m', lead, k - 1);
    }
  }

  // ---- the function ----

  /** No total that reaches the adjustment asks for more rows per partition than this. */
  const MOST_ROWS: int64 := 9_300_000_000_000_000

  /** The largest total whose adjustment does not overflow: MAX + 1 - MOST_ROWS. */
  const LARGEST_TOTAL: int64 := 9_214_072_036_854_775_808

  lemma RoundUpBounded(n: int)
    requires n <= MOST_ROWS
    ensures RoundUp(n) <= MOST_ROWS
  {
    assert IsTwoFigures(MOST_ROWS, 93, 14) by {
      assert Pow10(14) == 100_000_000_000_000;
    }
    RoundUpLeast(n, MOST_ROWS, 93, 14);
  }

  /** The minimum rows per partition, or a negative number where that overflows. */
  lemma MinimumRows(totalRows: int64)
    requires totalRows > 0
    ensures var least := DivCeil(totalRows, MAX_PARTITIONS);
      least != 0 && least <= MOST_ROWS &&
      if totalRows + 999 <= MAX then least == Ceil(totalRows, 1000) >= 1 else least < 0
  {
    if totalRows + 999 <= MAX {
      DivCeilExact(totalRows, 1000);
      CeilLeast(totalRows, 1000, MOST_ROWS);
    } else {
      assert Wrap(totalRows + 999) == totalRows + 999 - 0x1_0000_0000_0000_0000;
    }
  }

  lemma NothingToAdjust(totalRows: int64, desired: int64)
    requires totalRows <= 0 < desired
    ensures DivCeil(totalRows, desired) <= 0
  {
    var sum := totalRows + desired - 1;
    QuotientBounds(Abs(sum), desired);
    if sum >= 0 {
      MulMonotone(1, sum / desired, desired);
    }
  }

  /** Adjustment happens only where the first sum did not overflow. */
  lemma WhenAdjusted(totalRows: int64, desired: int64)
    requires desired > 0 && DivCeil(totalRows, desired) > MAX_PARTITIONS
    ensures totalRows > 0 && totalRows + desired - 1 <= MAX
    ensures desired < Ceil(totalRows, 1000)
  {
    if totalRows <= 0 {
      NothingToAdjust(totalRows, desired);
      assert false;
    }
    if totalRows + desired - 1 > MAX {
      DivCeilOverflows(totalRows, desired);
      assert false;
    }
    DivCeilExact(totalRows, desired);
    CeilLeast(totalRows, desired, 1000);
    CeilLeast(totalRows, 1000, desired);
  }

  lemma LeastBounded(totalRows: int64)
    ensures DivCeil(totalRows, MAX_PARTITIONS) <= MOST_ROWS
  {
  }

  function AdjustedRows(totalRows: int64): int64 {
    var least := DivCeil(totalRows, MAX_PARTITIONS);
    LeastBounded(totalRows);
    RoundUpBounded(least);
    RoundUpCovers(least);
    RoundUp(least)
  }

  /** None stands for the panic of a division by zero. */
  function Adjust(totalRows: int64, desired: int64): Option<Adjusted> {
    if desired == 0 then None
    else
      var wanted := DivCeil(totalRows, desired);
      if wanted <= MAX_PARTITIONS then Some(Adjusted(wanted, desired))
      else
        var rows := AdjustedRows(totalRows);
        if rows == 0 then None else Some(Adjusted(DivCeil(totalRows, rows), rows))
  }

  /** One turn of the loop leaves the scaled result alone and keeps the scale small. */
  lemma ScaleStep(scale: int, leading: int, rows: int)
    requires leading >= 100 && scale >= 1 && rows == scale * RoundUp(leading) <= MOST_ROWS
    ensures var next := Ceil(leading, 10);
      10 <= next < leading && scale * 10 * RoundUp(next) == rows && scale * 10 <= MOST_ROWS
  {
    var next := Ceil(leading, 10);
    RoundUpCovers(next);
    MulMonotone(1, RoundUp(next), scale * 10);
  }

  /** The loop that shrinks to two significant figures, rounding up each time, and scales back up. */
  method ShrinkToTwoFigures(least: int64) returns (rows: int64)
    requires least <= MOST_ROWS
    ensures rows == RoundUp(least)
  {
    RoundUpBounded(least);
    RoundUpCovers(least);
    var leading, scale: int64 := least, 1;
    while leading >= 100
      invariant RoundUp(least) == scale * RoundUp(leading)
      invariant 1 <= scale <= MOST_ROWS
      decreases leading
    {
      ScaleStep(scale, leading, RoundUp(least));
      DivCeilExact(leading, 10);
      leading := DivCeil(leading, 10);
      scale := scale * 10;
    }
    rows := leading * scale;
  }

  method AdjustNumPartitions(totalRows: int64, desired: int64) returns (r: Option<Adjusted>)
    ensures r == Adjust(totalRows, desired)
  {
    if desired == 0 {
      return None;
    }
    var wanted := DivCeil(totalRows, desired);
    if wanted <= MAX_PARTITIONS {
      return Some(Adjusted(wanted, desired));
    }
    LeastBounded(totalRows);
    var rows := ShrinkToTwoFigures(DivCeil(totalRows, MAX_PARTITIONS));
    if rows == 0 {
      return None;
    }
    return Some(Adjusted(DivCeil(totalRows, rows), rows));
  }

  // ---- when it panics ----

  lemma LargeQuotient(x: int, y: int)
    requires x >= 0 && y > 0 && x / y > 1000
    ensures x >= 1001 * y
  {
    MulMonotone(1001, x / y, y);
  }

  lemma NegativeDivisor(x: int64, y: int64)
    requires y < 0 && Quotient(x, y) > 1000
    ensures x <= 1001 * y
  {
    QuotientBounds(Abs(x), Abs(y));
    var q := Abs(x) / Abs(y);
    assert x < 0 && q > 1000;
    LargeQuotient(Abs(x), Abs(y));
  }

  /** A negative request is adjusted only for totals at least a thousand times as negative. */
  lemma NegativeAdjusted(totalRows: int64, desired: int64)
    requires desired < 0 && DivCeil(totalRows, desired) > MAX_PARTITIONS
    ensures totalRows <= 1000 * desired + 1
  {
    var sum := totalRows + desired - 1;
    NegativeDivisor(Wrap(sum), desired);
    assert MIN <= sum || -1 <= Wrap(sum);
  }

  lemma NoRowsExactly(totalRows: int64)
    ensures AdjustedRows(totalRows) == 0 <==> -1998 <= totalRows <= 0
  {
    var least := DivCeil(totalRows, MAX_PARTITIONS);
    RoundUpCovers(least);
    assert least == 0 <==> -1998 <= totalRows <= 0;
  }

  /** It divides by zero exactly for a request of zero, or of -1 with a total a little below. */
  lemma PanicsExactly(totalRows: int64, desired: int64)
    ensures Adjust(totalRows, desired).None? <==> desired == 0 || (desired == -1 && -1998 <= totalRows <= -999)
  {
    if desired != 0 {
      NoRowsExactly(totalRows);
      if DivCeil(totalRows, desired) > MAX_PARTITIONS {
        if desired > 0 {
          WhenAdjusted(totalRows, desired);
        } else {
          NegativeAdjusted(totalRows, desired);
        }
      }
    }
  }

  // ---- what it guarantees ----

  /** The partitions cover all rows and none is empty. */
  predicate Covers(totalRows: int, r: Adjusted) {
    r.partitions >= 1 && r.rowsPerPartition >= 1
    && (r.partitions - 1) * r.rowsPerPartition < totalRows <= r.partitions * r.rowsPerPartition
  }

  /** Adjusted rows per partition are the least two-figure number that keeps to 1000 partitions. */
  ghost predicate LeastTwoFigures(totalRows: int, rows: int)
    requires rows > 0
  {
    && TwoFigures(rows)
    && Ceil(totalRows, rows) <= 1000
    && forall n, lead, k: nat | 1 <= n < rows && IsTwoFigures(n, lead, k) :: Ceil(totalRows, n) > 1000
  }

  ghost predicate Guarantee(totalRows: int64, desired: int64, r: Adjusted)
    requires desired > 0
  {
    && Covers(totalRows, r)
    && r.partitions <= 1000
    && r.rowsPerPartition >= desired
    && if Ceil(totalRows, desired) <= 1000 then r == Adjusted(Ceil(totalRows, desired), desired)
       else LeastTwoFigures(totalRows, r.rowsPerPartition) && r.partitions >= (if totalRows >= 9000 then 901 else 501)
  }

  /** The inputs for which no sum overflows; a caller can test this. */
  predicate Fits(totalRows: int64, desired: int64) {
    totalRows + desired - 1 <= MAX && (totalRows <= 1000 * desired || totalRows <= LARGEST_TOTAL)
  }

  lemma LeadMinusOne(n: int, lead: int, k: nat)
    requires n >= 1 && IsTwoFigures(RoundUp(n), lead, k)
    ensures (lead - 1) * Pow10(k) < n
  {
    Pow10Positive(k);
    var m := (lead - 1) * Pow10(k);
    assert m + Pow10(k) == RoundUp(n);
    if m >= n && lead > 1 {
      RoundUpLeast(n, m, lead - 1, k);
    }
  }

  /** The documented lower bounds on the number of partitions. */
  lemma EnoughPartitions(totalRows: int, rows: int)
    requires totalRows > 1000 && rows == RoundUp(Ceil(totalRows, 1000)) && rows > 0
    ensures Ceil(totalRows, rows) >= if totalRows >= 9000 then 901 else 501
  {
    var least := Ceil(totalRows, 1000);
    CeilBounds(totalRows, 1000);
    var lead, k := RoundUpFigures(least);
    LeadMinusOne(least, lead, k);
    Pow10Positive(k);
    var unit := Pow10(k);
    assert (lead - 1) * unit == lead * unit - unit;
    assert totalRows > 1000 * (rows - unit);
    if least >= 10 {
      MulMonotone(10, lead, unit);
      CeilLeast(totalRows, rows, 900);
    } else {
      CeilLeast(totalRows, rows, 500);
      CeilLeast(totalRows, rows, 900);
    }
  }

  lemma RoundUpIsLeastTwoFigures(totalRows: int, rows: int)
    requires totalRows > 0 && rows == RoundUp(Ceil(totalRows, 1000)) && rows > 0
    ensures LeastTwoFigures(totalRows, rows)
  {
    var least := Ceil(totalRows, 1000);
    CeilLeast(totalRows, 1000, 0);
    var lead, k := RoundUpFigures(least);
    RoundUpCovers(least);
    CeilLeast(totalRows, 1000, rows);
    CeilLeast(totalRows, rows, 1000);
    forall n, l, j: nat | 1 <= n < rows && IsTwoFigures(n, l, j)
      ensures Ceil(totalRows, n) > 1000
    {
      if n >= least {
        RoundUpLeast(least, n, l, j);
        assert false;
      }
      CeilLeast(totalRows, 1000, n);
      CeilLeast(totalRows, n, 1000);
    }
  }

  lemma CeilCovers(totalRows: int, rows: int64, partitions: int64)
    requires totalRows > 0 && rows > 0 && partitions == Ceil(totalRows, rows)
    ensures Covers(totalRows, Adjusted(partitions, rows))
  {
    CeilBounds(totalRows, rows);
    CeilLeast(totalRows, rows, 0);
  }

  lemma GuaranteeHolds(totalRows: int64, desired: int64)
    requires totalRows > 0 && desired > 0 && Fits(totalRows, desired)
    ensures Adjust(totalRows, desired).Some? && Guarantee(totalRows, desired, Adjust(totalRows, desired).value)
  {
    PanicsExactly(totalRows, desired);
    var r := Adjust(totalRows, desired).value;
    DivCeilExact(totalRows, desired);
    CeilLeast(totalRows, desired, 1000);
    if DivCeil(totalRows, desired) > 1000 {
      WhenAdjusted(totalRows, desired);
      MinimumRows(totalRows);
      var least := Ceil(totalRows, 1000);
      RoundUpBounded(least);
      RoundUpCovers(least);
      DivCeilExact(totalRows, r.rowsPerPartition);
      EnoughPartitions(totalRows, r.rowsPerPartition);
      RoundUpIsLeastTwoFigures(totalRows, r.rowsPerPartition);
    }
    CeilCovers(totalRows, r.rowsPerPartition, r.partitions);
  }

  /** Past LARGEST_TOTAL the rows per partition push the last sum over. */
  lemma TooManyRows(totalRows: int64)
    requires totalRows > LARGEST_TOTAL && totalRows + 999 <= MAX
    ensures RoundUp(Ceil(totalRows, 1000)) >= MOST_ROWS
  {
    var least := Ceil(totalRows, 1000);
    CeilLeast(totalRows, 1000, 9_214_072_036_854_775);
    assert RoundUp(9_214_072_036_854_776) == MOST_ROWS;
    var lead, k := RoundUpFigures(least);
    RoundUpCovers(least);
    RoundUpLeast(9_214_072_036_854_776, RoundUp(least), lead, k);
  }

  lemma GuaranteeFails(totalRows: int64, desired: int64)
    requires totalRows > 0 && desired > 0 && !Fits(totalRows, desired)
    ensures Adjust(totalRows, desired).Some?
    ensures Adjust(totalRows, desired).value.partitions <= 0 || Adjust(totalRows, desired).value.rowsPerPartition < 0
  {
    PanicsExactly(totalRows, desired);
    if totalRows + desired - 1 > MAX {
      DivCeilOverflows(totalRows, desired);
    } else {
      DivCeilExact(totalRows, desired);
      CeilLeast(totalRows, desired, 1000);
      MinimumRows(totalRows);
      if totalRows + 999 <= MAX {
        TooManyRows(totalRows);
        RoundUpBounded(Ceil(totalRows, 1000));
        DivCeilOverflows(totalRows, RoundUp(Ceil(totalRows, 1000)));
      }
    }
  }

  /**
   For every positive input the result has at most 1000 partitions, at least 901 (501
   below 9000 rows) after an adjustment, which cover all rows with none empty, and rows
   per partition no smaller than requested, after an adjustment the least two-figure
   number that serves, exactly when no sum overflows.
   */
  lemma GuaranteeExactly(totalRows: int64, desired: int64)
    requires totalRows > 0 && desired > 0
    ensures Adjust(totalRows, desired).Some?
    ensures Guarantee(totalRows, desired, Adjust(totalRows, desired).value) <==> Fits(totalRows, desired)
  {
    if Fits(totalRows, desired) {
      GuaranteeHolds(totalRows, desired);
    } else {
      GuaranteeFails(totalRows, desired);
    }
  }

  /** Without rows there is nothing to adjust, and no partition. */
  lemma EmptyTable(totalRows: int64, desired: int64)
    requires totalRows <= 0 < desired
    ensures Adjust(totalRows, desired).Some? && Adjust(totalRows, desired).value.rowsPerPartition == desired
    ensures Adjust(totalRows, desired).value.partitions <= 0
    ensures totalRows == 0 ==> Adjust(totalRows, desired).value.partitions == 0
    ensures var n := Abs(Adjust(totalRows, desired).value.partitions);
      n * desired <= Abs(totalRows + desired - 1) < (n + 1) * desired
  {
    NothingToAdjust(totalRows, desired);
    QuotientTimes(Abs(totalRows + desired - 1), desired);
    QuotientBounds(Abs(totalRows + desired - 1), desired);
    if totalRows == 0 && (desired - 1) / desired > 0 {
      MulMonotone(1, (desired - 1) / desired, desired);
      assert false;
    }
  }
}
