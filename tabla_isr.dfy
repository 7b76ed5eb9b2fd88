/**
 * The bracket income-tax lookup for individuals (`calcular_isr_pf`).
 *
 * The table is text: one bracket per line, fields separated by commas,
 * read as lower bound `li`, fixed quota `cf` and marginal rate `pct`
 * (a percentage). The scan walks the lines in order, remembers the last
 * line whose bound is at most the base and stops at the first line whose
 * bound exceeds it; the tax is `(base - li) * (pct / 100) + cf`. Lines with
 * fewer than three fields are skipped; a field that is not a number, once
 * the scan reads it, makes the whole lookup give 0.
 *
 * Python's `float()` is not modelled: it is the parameter `parseFloat`,
 * and a row is the sequence of what it gives for each field.
 */
module TablaIsr {
  import opened Wrappers
  import opened Texto

  /** One line of the table, field by field: `None` where the field is not a number. */
  type Row = seq<Option<real>>

  /** The values the scan keeps in `li`, `cf` and `pct`. */
  datatype Bracket = Bracket(li: real, cf: real, pct: real)

  /** The starting values `li, cf, pct = 0.0, 0.0, 0.0`. */
  const NoBracket := Bracket(0.0, 0.0, 0.0)

  /** Where the scan stands: still reading lines, left by `break`, or
      abandoned because a field it read was not a number. */
  datatype ScanState = Reading(b: Bracket) | Stopped(b: Bracket) | Failed

  /** The tax for `base` in bracket `b`. */
  function Tax(base: real, b: Bracket): real {
    (base - b.li) * (b.pct / 100.0) + b.cf
  }

  /** What one pass of the loop body does with one line. */
  function Step(base: real, st: ScanState, row: Row): ScanState {
    if !st.Reading? || |row| < 3 then st
    else match row[0]
      case None => Failed
      case Some(limite) =>
        if base >= limite then
          if row[1].Some? && row[2].Some? then Reading(Bracket(limite, row[1].value, row[2].value))
          else Failed
        else Stopped(st.b)
  }

  /** The scan over the remaining lines `rows`, from state `st`. */
  function Run(base: real, rows: seq<Row>, st: ScanState): ScanState
    decreases |rows|
  {
    if |rows| == 0 then st else Run(base, rows[1..], Step(base, st, rows[0]))
  }

  /** The value `calcular_isr_pf` returns for a table already read into rows. */
  function IsrPf(base: real, rows: seq<Row>): real {
    match Run(base, rows, Reading(NoBracket))
    case Failed => 0.0
    case Reading(b) => Tax(base, b)
    case Stopped(b) => Tax(base, b)
  }

  /** The fields of one line, as `float()` reads each of them. */
  function ParseFields(datos: seq<string>, parseFloat: string -> Option<real>): (row: Row)
    ensures |row| == |datos|
    ensures forall k :: 0 <= k < |datos| ==> row[k] == parseFloat(datos[k])
    decreases |datos|
  {
    if |datos| == 0 then [] else [parseFloat(datos[0])] + ParseFields(datos[1..], parseFloat)
  }

  /** The lines of the table, each split at its commas and read field by field. */
  function ParseLines(lineas: seq<string>, parseFloat: string -> Option<real>): (rows: seq<Row>)
    ensures |rows| == |lineas|
    ensures forall k :: 0 <= k < |lineas| ==> rows[k] == ParseFields(Split(lineas[k], ','), parseFloat)
    decreases |lineas|
  {
    if |lineas| == 0 then []
    else [ParseFields(Split(lineas[0], ','), parseFloat)] + ParseLines(lineas[1..], parseFloat)
  }

  /** The table text, split at its line breaks and read line by line. */
  function ParseTable(texto: string, parseFloat: string -> Option<real>): seq<Row> {
    ParseLines(Split(texto, '\n'), parseFloat)
  }

  /** The scan over the lines from `i` on reads line `i` first. */
  lemma RunLinesFrom(base: real, lineas: seq<string>, parseFloat: string -> Option<real>, i: nat, st: ScanState)
    requires i < |lineas|
    ensures Run(base, ParseLines(lineas[i..], parseFloat), st)
         == Run(base, ParseLines(lineas[i + 1..], parseFloat),
                Step(base, st, ParseFields(Split(lineas[i], ','), parseFloat)))
  {
    assert lineas[i..][0] == lineas[i] && lineas[i..][1..] == lineas[i + 1..];
    var rows := ParseLines(lineas[i..], parseFloat);
    assert rows[1..] == ParseLines(lineas[i + 1..], parseFloat);
  }

  /** `calcular_isr_pf(base, tabla_texto)`, with `float()` as `parseFloat`. */
  method CalcularIsrPf(base: real, tablaTexto: string, parseFloat: string -> Option<real>) returns (isr: real)
    ensures isr == IsrPf(base, ParseTable(tablaTexto, parseFloat))
  {
    ghost var start := Reading(NoBracket);
    var lineas := Split(tablaTexto, '\n');
    ghost var total := Run(base, ParseLines(lineas, parseFloat), start);
    assert lineas[0..] == lineas;
    var li, cf, pct := 0.0, 0.0, 0.0;
    for i := 0 to |lineas|
      invariant Run(base, ParseLines(lineas[i..], parseFloat), Reading(Bracket(li, cf, pct))) == total
    {
      var datos := Split(lineas[i], ',');
      ghost var row := ParseFields(datos, parseFloat);
      ghost var rest := ParseLines(lineas[i + 1..], parseFloat);
      RunLinesFrom(base, lineas, parseFloat, i, Reading(Bracket(li, cf, pct)));
      if |datos| < 3 {
        continue;
      }
      var limite := parseFloat(datos[0]);
      if limite.None? {
        RunHalts(base, rest, Failed);
        return 0.0;
      }
      if base >= limite.value {
        var c, p := parseFloat(datos[1]), parseFloat(datos[2]);
        if c.None? || p.None? {
          RunHalts(base, rest, Failed);
          return 0.0;
        }
        li, cf, pct := limite.value, c.value, p.value;
      } else {
        RunHalts(base, rest, Stopped(Bracket(li, cf, pct)));
        assert total == Stopped(Bracket(li, cf, pct));
        break;
      }
    }
    assert lineas[|lineas|..] == [];
    assert total.b == Bracket(li, cf, pct) && !total.Failed?;
    isr := Tax(base, Bracket(li, cf, pct));
  }

  // ---------------------------------------------------------------------
  // Properties of the scan as a fold

  /** Once the scan has stopped or failed, no further line changes it. */
  lemma {:induction false} RunHalts(base: real, rows: seq<Row>, st: ScanState)
    requires !st.Reading?
    ensures Run(base, rows, st) == st
    decreases |rows|
  {
    if |rows| > 0 {
      RunHalts(base, rows[1..], st);
    }
  }

  /** Scanning two blocks of lines is scanning the first, then the second. */
  lemma {:induction false} RunAppend(base: real, a: seq<Row>, b: seq<Row>, st: ScanState)
    ensures Run(base, a + b, st) == Run(base, b, Run(base, a, st))
    decreases |a|
  {
    if |a| > 0 {
      assert (a + b)[0] == a[0] && (a + b)[1..] == a[1..] + b;
      RunAppend(base, a[1..], b, Step(base, st, a[0]));
    } else {
      assert a + b == b;
    }
  }

  // ---------------------------------------------------------------------
  // The scan described by positions

  /** The scan stops at line `k`: every line before `k` with three fields has
      a numeric bound at most `base`, and line `k` (if there is one) has three
      fields and a bound that is not a number or exceeds `base`. */
  ghost predicate StopsAt(base: real, rows: seq<Row>, k: nat) {
    && k <= |rows|
    && (forall j :: 0 <= j < k && |rows[j]| >= 3 ==> rows[j][0].Some? && rows[j][0].value <= base)
    && (k < |rows| ==> |rows[k]| >= 3 && (rows[k][0].None? || rows[k][0].value > base))
  }

  /** Every line before `k` with three fields has a numeric quota and rate. */
  ghost predicate FieldsNumeric(rows: seq<Row>, k: nat)
    requires k <= |rows|
  {
    forall j :: 0 <= j < k && |rows[j]| >= 3 ==> rows[j][1].Some? && rows[j][2].Some?
  }

  /** The position of the last line before `k` that has three fields. */
  function LastFull(rows: seq<Row>, k: nat): (sel: Option<nat>)
    requires k <= |rows|
    ensures sel.Some? ==> sel.value < k && |rows[sel.value]| >= 3
    ensures sel.Some? ==> forall m :: sel.value < m < k ==> |rows[m]| < 3
    ensures sel.None? ==> forall m :: 0 <= m < k ==> |rows[m]| < 3
    decreases k
  {
    if k == 0 then None
    else if |rows[k - 1]| >= 3 then Some(k - 1)
    else LastFull(rows, k - 1)
  }

  /** The bracket written on line `sel`, or the starting zeros when there is none. */
  function BracketAt(rows: seq<Row>, sel: Option<nat>): Bracket {
    match sel
    case None => NoBracket
    case Some(j) =>
      if j < |rows| && |rows[j]| >= 3
      then Bracket(rows[j][0].GetOr(0.0), rows[j][1].GetOr(0.0), rows[j][2].GetOr(0.0))
      else NoBracket
  }

  /** The line at which the scan stops, searched from line `i` on. */
  function StopFrom(base: real, rows: seq<Row>, i: nat): (k: nat)
    requires i <= |rows|
    requires forall j :: 0 <= j < i && |rows[j]| >= 3 ==> rows[j][0].Some? && rows[j][0].value <= base
    ensures i <= k && StopsAt(base, rows, k)
    decreases |rows| - i
  {
    if i == |rows| then i
    else if |rows[i]| >= 3 && (rows[i][0].None? || rows[i][0].value > base) then i
    else StopFrom(base, rows, i + 1)
  }

  /** Every table has exactly one stopping line. */
  lemma StopIndexUnique(base: real, rows: seq<Row>, k1: nat, k2: nat)
    requires StopsAt(base, rows, k1) && StopsAt(base, rows, k2)
    ensures k1 == k2
  {
  }

  /** The state after the lines before position `i`, up to the stopping line. */
  lemma {:induction false} RunPrefix(base: real, rows: seq<Row>, k: nat, i: nat)
    requires StopsAt(base, rows, k) && i <= k
    ensures Run(base, rows[..i], Reading(NoBracket))
         == if FieldsNumeric(rows, i) then Reading(BracketAt(rows, LastFull(rows, i))) else Failed
    decreases i
  {
    if i > 0 {
      var st := Reading(NoBracket);
      RunPrefix(base, rows, k, i - 1);
      assert rows[..i] == rows[..i - 1] + [rows[i - 1]];
      RunAppend(base, rows[..i - 1], [rows[i - 1]], st);
      assert [rows[i - 1]][1..] == [];
      if |rows[i - 1]| >= 3 && FieldsNumeric(rows, i - 1) && !FieldsNumeric(rows, i) {
        assert rows[i - 1][1].None? || rows[i - 1][2].None?;
      }
    }
  }

  /** The whole lookup described by positions: with `k` the stopping line, the
      result is 0 when line `k`'s bound is not a number or a line before `k`
      has a non-numeric quota or rate, and otherwise the tax in the bracket of
      the last line before `k` that has three fields (zeros if none). */
  lemma {:induction false} IsrPfCharacterised(base: real, rows: seq<Row>, k: nat)
    requires StopsAt(base, rows, k)
    ensures IsrPf(base, rows)
         == if (k < |rows| && rows[k][0].None?) || !FieldsNumeric(rows, k) then 0.0
            else Tax(base, BracketAt(rows, LastFull(rows, k)))
  {
    var st := Reading(NoBracket);
    RunPrefix(base, rows, k, k);
    assert rows == rows[..k] + rows[k..];
    RunAppend(base, rows[..k], rows[k..], st);
    var mid := Run(base, rows[..k], st);
    if k < |rows| {
      assert rows[k..][0] == rows[k] && rows[k..][1..] == rows[k + 1..];
      RunHalts(base, rows[k + 1..], Step(base, mid, rows[k]));
    }
  }

  // ---------------------------------------------------------------------
  // What the lookup promises

  /** The bracket used is that of the last line before the stopping line
      (the last one whose bound is at most `base`, bound included). */
  lemma SelectsLastMatchedRow(base: real, rows: seq<Row>, k: nat, j: nat)
    requires StopsAt(base, rows, k)
    requires j < k && |rows[j]| >= 3
    requires forall m :: j < m < k ==> |rows[m]| < 3
    requires FieldsNumeric(rows, k)
    requires k == |rows| || rows[k][0].Some?
    ensures rows[j][0].Some? && rows[j][0].value <= base
    ensures IsrPf(base, rows)
         == (base - rows[j][0].value) * (rows[j][2].value / 100.0) + rows[j][1].value
  {
    IsrPfCharacterised(base, rows, k);
    assert LastFull(rows, k) == Some(j);
  }

  /** With no line selected (an empty table, only short lines, or a base
      below the first bound) the result is 0. */
  lemma ZeroWhenNoRowMatches(base: real, rows: seq<Row>, k: nat)
    requires StopsAt(base, rows, k)
    requires forall m :: 0 <= m < k ==> |rows[m]| < 3
    ensures IsrPf(base, rows) == 0.0
  {
    IsrPfCharacterised(base, rows, k);
    assert LastFull(rows, k) == None;
  }

  /** The three zero fallbacks, for any table. */
  lemma ZeroFallbacks(base: real, rows: seq<Row>)
    ensures rows == [] ==> IsrPf(base, rows) == 0.0
    ensures (forall m :: 0 <= m < |rows| ==> |rows[m]| < 3) ==> IsrPf(base, rows) == 0.0
    ensures (exists k :: 0 <= k < |rows| && |rows[k]| >= 3 && rows[k][0].Some? && base < rows[k][0].value
                         && forall m :: 0 <= m < k ==> |rows[m]| < 3)
            ==> IsrPf(base, rows) == 0.0
  {
    if forall m :: 0 <= m < |rows| ==> |rows[m]| < 3 {
      ZeroWhenNoRowMatches(base, rows, |rows|);
    }
    if k :| 0 <= k < |rows| && |rows[k]| >= 3 && rows[k][0].Some? && base < rows[k][0].value
            && forall m :: 0 <= m < k ==> |rows[m]| < 3 {
      ZeroWhenNoRowMatches(base, rows, k);
    }
  }

  /** A bound that is not a number, on the line where the scan stops, makes the
      whole result 0, however good the other lines are. */
  lemma ZeroOnBadBound(base: real, rows: seq<Row>, k: nat)
    requires StopsAt(base, rows, k) && k < |rows| && rows[k][0].None?
    ensures IsrPf(base, rows) == 0.0
  {
    IsrPfCharacterised(base, rows, k);
  }

  /** A quota or rate that is not a number, on any line the scan matched,
      makes the whole result 0: the line is not merely skipped. */
  lemma ZeroOnBadMatchedField(base: real, rows: seq<Row>, k: nat, j: nat)
    requires StopsAt(base, rows, k)
    requires j < k && |rows[j]| >= 3 && (rows[j][1].None? || rows[j][2].None?)
    ensures IsrPf(base, rows) == 0.0
  {
    IsrPfCharacterised(base, rows, k);
  }

  /** Lines after the stopping line are never read: replacing them by
      anything at all, malformed lines included, leaves the result alone. */
  lemma IgnoresRowsAfterStop(base: real, rows: seq<Row>, k: nat, tail: seq<Row>)
    requires StopsAt(base, rows, k) && k < |rows|
    ensures IsrPf(base, rows) == IsrPf(base, rows[..k + 1] + tail)
  {
    var st := Reading(NoBracket);
    var head := rows[..k + 1];
    RunPrefix(base, rows, k, k);
    assert head == rows[..k] + [rows[k]];
    RunAppend(base, rows[..k], [rows[k]], st);
    assert [rows[k]][1..] == [];
    var mid := Run(base, head, st);
    assert !mid.Reading?;
    assert rows == head + rows[k + 1..];
    RunAppend(base, head, rows[k + 1..], st);
    RunHalts(base, rows[k + 1..], mid);
    RunAppend(base, head, tail, st);
    RunHalts(base, tail, mid);
  }

  /** A line with fewer than three fields, wherever it stands, changes nothing. */
  lemma ShortRowIgnored(base: real, before: seq<Row>, row: Row, after: seq<Row>)
    requires |row| < 3
    ensures IsrPf(base, before + [row] + after) == IsrPf(base, before + after)
  {
    var st := Reading(NoBracket);
    RunAppend(base, before, [row] + after, st);
    assert before + [row] + after == before + ([row] + after);
    assert ([row] + after)[0] == row && ([row] + after)[1..] == after;
    RunAppend(base, before, after, st);
  }

  /** Each line cut to its first three fields. */
  function FirstThree(rows: seq<Row>): (cut: seq<Row>)
    ensures |cut| == |rows|
    ensures forall i :: 0 <= i < |rows| ==> |cut[i]| == if |rows[i]| >= 3 then 3 else |rows[i]|
    ensures forall i :: 0 <= i < |rows| ==> cut[i] <= rows[i]
  {
    seq(|rows|, i requires 0 <= i < |rows| => if |rows[i]| >= 3 then rows[i][..3] else rows[i])
  }

  /** Fields after the third are never read. */
  lemma {:induction false} ExtraFieldsIgnoredFrom(base: real, rows: seq<Row>, st: ScanState)
    ensures Run(base, rows, st) == Run(base, FirstThree(rows), st)
    decreases |rows|
  {
    if |rows| > 0 {
      assert FirstThree(rows)[1..] == FirstThree(rows[1..]);
      assert Step(base, st, rows[0]) == Step(base, st, FirstThree(rows)[0]);
      ExtraFieldsIgnoredFrom(base, rows[1..], Step(base, st, rows[0]));
    }
  }

  /** Fields after the third are never read. */
  lemma ExtraFieldsIgnored(base: real, rows: seq<Row>)
    ensures IsrPf(base, rows) == IsrPf(base, FirstThree(rows))
  {
    ExtraFieldsIgnoredFrom(base, rows, Reading(NoBracket));
  }

  // ---------------------------------------------------------------------
  // Well-formed, ascending tables

  /** Every line has three fields and all three are numbers. */
  ghost predicate WellFormed(rows: seq<Row>) {
    forall j :: 0 <= j < |rows| ==>
      |rows[j]| >= 3 && rows[j][0].Some? && rows[j][1].Some? && rows[j][2].Some?
  }

  /** The bounds never decrease down the table. */
  ghost predicate Ascending(rows: seq<Row>)
    requires WellFormed(rows)
  {
    forall a, b :: 0 <= a < b < |rows| ==> rows[a][0].value <= rows[b][0].value
  }

  /** Neighbouring bounds in order make the whole table ascending. */
  lemma {:induction false} AscendingFromNeighbours(rows: seq<Row>)
    requires WellFormed(rows)
    requires forall j :: 0 <= j < |rows| - 1 ==> rows[j][0].value <= rows[j + 1][0].value
    ensures Ascending(rows)
    decreases |rows|
  {
    if |rows| > 1 {
      var tail := rows[1..];
      AscendingFromNeighbours(tail);
      forall a, b | 0 <= a < b < |rows|
        ensures rows[a][0].value <= rows[b][0].value
      {
        if a > 0 {
          assert tail[a - 1] == rows[a] && tail[b - 1] == rows[b];
        } else if b > 1 {
          assert tail[0] == rows[1] && tail[b - 1] == rows[b];
        }
      }
    }
  }

  /** In an ascending, well-formed table, a base in `[li_j, li_(j+1))` is taxed
      in bracket `j` (the half-open interval, lower bound included). */
  lemma SortedTableSelectsInterval(base: real, rows: seq<Row>, j: nat)
    requires WellFormed(rows) && Ascending(rows) && j < |rows|
    requires rows[j][0].value <= base
    requires j + 1 == |rows| || base < rows[j + 1][0].value
    ensures IsrPf(base, rows)
         == (base - rows[j][0].value) * (rows[j][2].value / 100.0) + rows[j][1].value
  {
    assert StopsAt(base, rows, j + 1);
    SelectsLastMatchedRow(base, rows, j + 1, j);
  }

  /** Within one bracket whose rate is not negative, a larger base never
      gives a smaller tax. */
  lemma MonotoneWithinBracket(rows: seq<Row>, j: nat, base1: real, base2: real)
    requires WellFormed(rows) && Ascending(rows) && j < |rows|
    requires rows[j][0].value <= base1 <= base2
    requires j + 1 == |rows| || base2 < rows[j + 1][0].value
    requires rows[j][2].value >= 0.0
    ensures IsrPf(base1, rows) <= IsrPf(base2, rows)
  {
    SortedTableSelectsInterval(base1, rows, j);
    SortedTableSelectsInterval(base2, rows, j);
    var li, rate := rows[j][0].value, rows[j][2].value / 100.0;
    assert (base2 - li) * rate - (base1 - li) * rate == (base2 - base1) * rate;
    ProductNonNegative(base2 - base1, rate);
  }

  /** The product of two amounts that are not negative is not negative. */
  lemma ProductNonNegative(x: real, y: real)
    requires x >= 0.0 && y >= 0.0
    ensures x * y >= 0.0
  {
  }

  /** When every quota and rate on the table is not negative, neither is the
      tax: a selected bound never exceeds the base, and with no bracket
      selected the tax is 0. */
  lemma NonNegativeTax(base: real, rows: seq<Row>)
    requires forall j :: 0 <= j < |rows| && |rows[j]| >= 3 && rows[j][1].Some? && rows[j][2].Some?
               ==> rows[j][1].value >= 0.0 && rows[j][2].value >= 0.0
    ensures IsrPf(base, rows) >= 0.0
  {
    var k := StopFrom(base, rows, 0);
    IsrPfCharacterised(base, rows, k);
    if !((k < |rows| && rows[k][0].None?) || !FieldsNumeric(rows, k)) {
      match LastFull(rows, k)
      case None =>
      case Some(j) =>
        var b := BracketAt(rows, Some(j));
        assert base - b.li >= 0.0 && b.pct / 100.0 >= 0.0 && b.cf >= 0.0;
        ProductNonNegative(base - b.li, b.pct / 100.0);
    }
  }
}
