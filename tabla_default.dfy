/**
 * The built-in eleven-bracket table `TABLA_DEFAULT`, the one the monthly
 * calculation always uses, and what the lookup gives on it.
 */
module TablaDefault {
  import opened Wrappers
  import opened TablaIsr

  /** A line of three numeric fields. */
  function Line(li: real, cf: real, pct: real): Row {
    [Some(li), Some(cf), Some(pct)]
  }

  /** `TABLA_DEFAULT` as `float()` reads it, line by line. */
  const DefaultRows: seq<Row> := [
    Line(0.01, 0.00, 1.92),
    Line(7735.01, 148.51, 6.40),
    Line(65651.08, 3855.14, 10.88),
    Line(115375.91, 9265.20, 16.00),
    Line(134119.42, 12264.16, 17.92),
    Line(160577.66, 17005.47, 21.36),
    Line(323862.01, 51883.01, 23.52),
    Line(510451.01, 95768.74, 30.00),
    Line(974535.04, 234993.95, 32.00),
    Line(1299380.05, 338944.34, 34.00),
    Line(3898140.13, 1222522.76, 35.00)
  ]

  /** The default table is well formed, its bounds ascend, and no quota or
      rate on it is negative. */
  lemma DefaultTableShape()
    ensures |DefaultRows| == 11
    ensures WellFormed(DefaultRows) && Ascending(DefaultRows)
    ensures forall j :: 0 <= j < |DefaultRows| ==>
              DefaultRows[j][1].value >= 0.0 && DefaultRows[j][2].value >= 0.0
  {
    AscendingFromNeighbours(DefaultRows);
  }

  /** A base exactly on a bound falls in that bracket: 7735.01 pays the
      bracket's fixed quota 148.51. */
  lemma DefaultAtSecondBound()
    ensures IsrPf(7735.01, DefaultRows) == 148.51
  {
    DefaultTableShape();
    SortedTableSelectsInterval(7735.01, DefaultRows, 1);
  }

  /** A base of 0 is below the first bound 0.01 and pays nothing. */
  lemma DefaultBelowFirstBound()
    ensures IsrPf(0.0, DefaultRows) == 0.0
  {
    ZeroFallbacks(0.0, DefaultRows);
    assert 0.0 < DefaultRows[0][0].value;
  }

  /** A base of 80000 falls in the third bracket (from 65651.08, quota
      3855.14, rate 10.88%): (80000 - 65651.08) * 0.1088 + 3855.14. */
  lemma DefaultAt80000()
    ensures IsrPf(80000.0, DefaultRows) == 5416.302496
  {
    DefaultTableShape();
    SortedTableSelectsInterval(80000.0, DefaultRows, 2);
  }

  /** The default table is not monotone: just below 7735.01 the first
      bracket charges 148.511808, more than the 148.51 at the bound. */
  lemma DefaultNotMonotone()
    ensures IsrPf(7735.0, DefaultRows) == 148.511808
    ensures IsrPf(7735.0, DefaultRows) > IsrPf(7735.01, DefaultRows)
  {
    DefaultTableShape();
    SortedTableSelectsInterval(7735.0, DefaultRows, 0);
    DefaultAtSecondBound();
  }

  /** On the default table no base is ever taxed a negative amount. */
  lemma DefaultTaxNonNegative(base: real)
    ensures IsrPf(base, DefaultRows) >= 0.0
  {
    DefaultTableShape();
    NonNegativeTax(base, DefaultRows);
  }
}
