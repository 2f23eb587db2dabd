/**
 * The warranty-debit pivots: from the claim rows of the warranty workbook
 * to the Credit, Debit and Arbitration tables, one row per division with a
 * column per month from April to December, closed by a Grand Total row.
 */
module Warranty {
  import opened Wrappers
  import opened Text
  import opened Normalize
  import opened Grouping

  /** One row of the warranty workbook, its amounts already read as numbers (a bad cell as 0). */
  datatype RawClaim = RawClaim(
    location: Option<string>,       // "Dealer Location"
    fiscalMonth: Option<string>,    // "Fiscal Month"
    arbitrationId: Option<string>,  // "Claim arbitration ID"
    creditNote: int,                // "Credit Note Amount"
    debitNote: int)                 // "Debit Note Amount"

  /** A row once the Dealer_Code and Month columns and the arbitration flag are derived. */
  datatype Claim = Claim(
    code: Option<string>,  // Dealer_Code
    month: string,         // Month
    arbitrated: bool,      // is_arb of the normalised arbitration ID
    creditNote: int,
    debitNote: int)

  function Normalise(raw: RawClaim): (c: Claim)
    ensures c.code == DealerCode(raw.location) && c.month == MonthKey(raw.fiscalMonth)
    ensures c.arbitrated == IsArb(ArbitrationCell(raw.arbitrationId))
    ensures c.creditNote == raw.creditNote && c.debitNote == raw.debitNote
  {
    Claim(DealerCode(raw.location), MonthKey(raw.fiscalMonth), IsArb(ArbitrationCell(raw.arbitrationId)),
          raw.creditNote, raw.debitNote)
  }

  /** The month keys that become columns, in column order. */
  const MONTHS: seq<string> := ["Apr", "May", "Jun", "Jul", "Aug", "Sep", "Oct", "Nov", "Dec"]

  /** The workbook after the derived columns are added, row for row. */
  function NormaliseAll(raw: seq<RawClaim>): (rows: seq<Claim>)
    ensures |rows| == |raw|
    ensures forall i :: 0 <= i < |raw| ==> rows[i] == Normalise(raw[i])
  {
    seq(|raw|, i requires 0 <= i < |raw| => Normalise(raw[i]))
  }

  /** The amount a pivot adds up. */
  datatype Measure =
    | CreditNote       // the Credit table
    | DebitNote        // the Debit table
    | ArbitratedDebit  // the Arbitration table: the debit amount of ARB rows, 0 for the others

  function Amount(c: Claim, measure: Measure): int {
    match measure
    case CreditNote => c.creditNote
    case DebitNote => c.debitNote
    case ArbitratedDebit => if c.arbitrated then c.debitNote else 0
  }

  function Codes(rows: seq<Claim>): (keys: seq<Option<string>>)
    ensures |keys| == |rows|
  {
    seq(|rows|, i requires 0 <= i < |rows| => rows[i].code)
  }

  /** `df[df["Month"] == m]`: the rows of month `m`, in their original order. */
  function InMonth(rows: seq<Claim>, m: string): (md: seq<Claim>)
    ensures |md| <= |rows|
  {
    if rows == [] then []
    else
      var last := rows[|rows| - 1];
      InMonth(rows[..|rows| - 1], m) + (if last.month == m then [last] else [])
  }

  /** The (Dealer_Code, amount) pairs that `groupby("Dealer_Code")[amount].sum()` adds up. */
  function Entries(md: seq<Claim>, measure: Measure): (entries: seq<Entry>)
    ensures |entries| == |md|
  {
    seq(|md|, i requires 0 <= i < |md| => (md[i].code, Amount(md[i], measure)))
  }

  /** The row belongs to the cell of division `d` and month `m`. */
  predicate InCell(c: Claim, d: string, m: string) {
    c.code == Some(d) && c.month == m
  }

  /**
   * The cell of division `d` and month `m`: the amount summed over the rows
   * whose code is `d` and whose month key is `m`, and 0 when there are none.
   */
  function Cell(rows: seq<Claim>, measure: Measure, d: string, m: string): int {
    if rows == [] then 0
    else
      var last := rows[|rows| - 1];
      Cell(rows[..|rows| - 1], measure, d, m) + (if InCell(last, d, m) then Amount(last, measure) else 0)
  }

  /**
   * Filtering the rows to month `m` and then grouping them by code, as the
   * source does, gives the cell of every division.
   */
  lemma {:induction false} GroupedMonthIsCell(rows: seq<Claim>, measure: Measure, d: string, m: string)
    ensures KeyedSum(Entries(InMonth(rows, m), measure), d) == Cell(rows, measure, d, m)
  {
    if rows != [] {
      var init, last := rows[..|rows| - 1], rows[|rows| - 1];
      GroupedMonthIsCell(init, measure, d, m);
      var md := InMonth(init, m);
      if last.month == m {
        var entry := (last.code, Amount(last, measure));
        assert InMonth(rows, m) == md + [last];
        assert Entries(md + [last], measure) == Entries(md, measure) + [entry];
        KeyedSumSnoc(Entries(md, measure), entry, d);
      } else {
        assert InMonth(rows, m) == md + [];
        assert md + [] == md;
        assert !InCell(last, d, m);
        assert Cell(rows, measure, d, m) == Cell(init, measure, d, m);
      }
    }
  }

  /**
   * One line of a monthly table: the division, its nine month cells, and the
   * column after them (Total Credit, Total Debit or Pending Claim Arbitration).
   */
  datatype MonthlyRow = MonthlyRow(division: string, months: seq<int>, trailing: int)

  function MonthCells(rows: seq<Claim>, measure: Measure, d: string): (cells: seq<int>)
    ensures |cells| == |MONTHS|
  {
    seq(|MONTHS|, j requires 0 <= j < |MONTHS| => Cell(rows, measure, d, MONTHS[j]))
  }

  /** A Credit or Debit line: the month cells and their sum as the Total column. */
  function TotalledRow(rows: seq<Claim>, measure: Measure, d: string): MonthlyRow {
    var cells := MonthCells(rows, measure, d);
    MonthlyRow(d, cells, Sum(cells))
  }

  function TotalledBody(rows: seq<Claim>, measure: Measure, ds: seq<string>): (body: seq<MonthlyRow>)
    ensures |body| == |ds|
    ensures forall i :: 0 <= i < |ds| ==> body[i] == TotalledRow(rows, measure, ds[i])
  {
    seq(|ds|, i requires 0 <= i < |ds| => TotalledRow(rows, measure, ds[i]))
  }

  function MonthColumn(j: nat): MonthlyRow -> int {
    (r: MonthlyRow) => if j < |r.months| then r.months[j] else 0
  }

  function Trailing(r: MonthlyRow): int {
    r.trailing
  }

  /** The Grand Total line: every numeric column summed over the lines above it. */
  function GrandTotalRow(body: seq<MonthlyRow>): (gt: MonthlyRow)
    ensures |gt.months| == |MONTHS|
  {
    MonthlyRow(GRAND_TOTAL, seq(|MONTHS|, j requires 0 <= j < |MONTHS| => SumOf(body, MonthColumn(j))), SumOf(body, Trailing))
  }

  /** The Credit (CreditNote) or Debit (DebitNote) table over the division list `ds`. */
  function MonthlyTable(rows: seq<Claim>, measure: Measure, ds: seq<string>): (table: seq<MonthlyRow>)
    ensures |table| == |ds| + 1
  {
    var body := TotalledBody(rows, measure, ds);
    body + [GrandTotalRow(body)]
  }

  /**
   * The Total Debit joined onto an arbitration line: the Total Debit of the
   * Debit line of `d`, leaving out lines labelled Grand Total; 0 when there
   * is no such line.
   */
  function TotalDebitOf(debit: seq<MonthlyRow>, d: string): (total: int)
    ensures d == GRAND_TOTAL ==> total == 0
    ensures (forall k :: 0 <= k < |debit| ==> debit[k].division != d) ==> total == 0
    ensures total == 0 || exists k :: 0 <= k < |debit| && debit[k].division == d && debit[k].trailing == total
  {
    if debit == [] then 0
    else if debit[0].division == d && d != GRAND_TOTAL then debit[0].trailing
    else
      var rest := TotalDebitOf(debit[1..], d);
      assert forall k :: 0 <= k < |debit| - 1 ==> debit[1..][k] == debit[k + 1];
      rest
  }

  /** An Arbitration line: the ARB debit per month and the residual Pending Claim Arbitration. */
  function ArbitrationRow(rows: seq<Claim>, d: string, debit: seq<MonthlyRow>): MonthlyRow {
    var cells := MonthCells(rows, ArbitratedDebit, d);
    MonthlyRow(d, cells, TotalDebitOf(debit, d) - Sum(cells))
  }

  function ArbitrationBody(rows: seq<Claim>, ds: seq<string>, debit: seq<MonthlyRow>): (body: seq<MonthlyRow>)
    ensures |body| == |ds|
    ensures forall i :: 0 <= i < |ds| ==> body[i] == ArbitrationRow(rows, ds[i], debit)
  {
    seq(|ds|, i requires 0 <= i < |ds| => ArbitrationRow(rows, ds[i], debit))
  }

  function ArbitrationTable(rows: seq<Claim>, ds: seq<string>, debit: seq<MonthlyRow>): (table: seq<MonthlyRow>)
    ensures |table| == |ds| + 1
  {
    var body := ArbitrationBody(rows, ds, debit);
    body + [GrandTotalRow(body)]
  }

  // ---------------------------------------------------------------------
  // Building the tables
  // ---------------------------------------------------------------------

  /**
   * One month's column, aligned with `ds`: zeros when no row has that month
   * key, otherwise the group-by sum of the month's rows left-joined onto the
   * divisions, a division without rows reading 0.
   */
  method MonthColumnOf(rows: seq<Claim>, ds: seq<string>, measure: Measure, m: string) returns (col: seq<int>)
    ensures IsMonthColumn(col, rows, measure, ds, m)
  {
    var md := InMonth(rows, m);
    forall d { GroupedMonthIsCell(rows, measure, d, m); }
    if md == [] {
      col := seq(|ds|, i => 0);
    } else {
      var sums := GroupSum(Entries(md, measure));
      col := seq(|ds|, i requires 0 <= i < |ds| => if ds[i] in sums then sums[ds[i]] else 0);
    }
  }

  /** `col` is the column of month `m`, aligned with `ds`. */
  predicate IsMonthColumn(col: seq<int>, rows: seq<Claim>, measure: Measure, ds: seq<string>, m: string) {
    |col| == |ds| && forall i :: 0 <= i < |ds| ==> col[i] == Cell(rows, measure, ds[i], m)
  }

  /** The loop over the nine months, one column each. */
  method MonthColumns(rows: seq<Claim>, ds: seq<string>, measure: Measure, months: seq<string>) returns (cols: seq<seq<int>>)
    ensures |cols| == |months|
    ensures forall j :: 0 <= j < |months| ==> |cols[j]| == |ds|
    ensures forall j :: 0 <= j < |months| ==> IsMonthColumn(cols[j], rows, measure, ds, months[j])
  {
    cols := [];
    for j := 0 to |months|
      invariant |cols| == j
      invariant forall k :: 0 <= k < j ==> IsMonthColumn(cols[k], rows, measure, ds, months[k])
    {
      var col := MonthColumnOf(rows, ds, measure, months[j]);
      cols := cols + [col];
    }
  }

  /** Line `i` of the columns, read across the nine months. */
  function Across(cols: seq<seq<int>>, i: nat): (cells: seq<int>)
    requires |cols| == |MONTHS|
    requires forall j :: 0 <= j < |MONTHS| ==> i < |cols[j]|
    ensures |cells| == |MONTHS|
    ensures forall j :: 0 <= j < |MONTHS| ==> cells[j] == cols[j][i]
  {
    seq(|MONTHS|, j requires 0 <= j < |MONTHS| => cols[j][i])
  }

  /** Reading the month columns across at line `i` gives the month cells of `ds[i]`. */
  lemma AcrossColumns(cols: seq<seq<int>>, rows: seq<Claim>, measure: Measure, ds: seq<string>, i: nat)
    requires |cols| == |MONTHS| && i < |ds|
    requires forall j :: 0 <= j < |MONTHS| ==> |cols[j]| == |ds|
    requires forall j :: 0 <= j < |MONTHS| ==> IsMonthColumn(cols[j], rows, measure, ds, MONTHS[j])
    ensures Across(cols, i) == MonthCells(rows, measure, ds[i])
  {
  }

  /** Appends the Grand Total line, summing the columns one after the other. */
  method AppendGrandTotal(body: seq<MonthlyRow>) returns (table: seq<MonthlyRow>)
    ensures table == body + [GrandTotalRow(body)]
  {
    var totals: seq<int> := [];
    for j := 0 to |MONTHS|
      invariant |totals| == j
      invariant forall k :: 0 <= k < j ==> totals[k] == SumOf(body, MonthColumn(k))
    {
      var total := ColumnTotal(body, MonthColumn(j));
      totals := totals + [total];
    }
    var trailing := ColumnTotal(body, Trailing);
    assert totals == GrandTotalRow(body).months;
    table := body + [MonthlyRow(GRAND_TOTAL, totals, trailing)];
  }

  /** The Credit or Debit table: the month columns, the Total column, then the Grand Total line. */
  method TotalledPivot(rows: seq<Claim>, ds: seq<string>, measure: Measure) returns (table: seq<MonthlyRow>)
    ensures table == MonthlyTable(rows, measure, ds)
  {
    var cols := MonthColumns(rows, ds, measure, MONTHS);
    var body: seq<MonthlyRow> := [];
    for i := 0 to |ds|
      invariant |body| == i
      invariant forall k :: 0 <= k < i ==> body[k] == TotalledRow(rows, measure, ds[k])
    {
      var cells := Across(cols, i);
      AcrossColumns(cols, rows, measure, ds, i);
      body := body + [MonthlyRow(ds[i], cells, Sum(cells))];
    }
    assert body == TotalledBody(rows, measure, ds);
    table := AppendGrandTotal(body);
  }

  /**
   * The Arbitration table: the ARB month columns, the Total Debit of each
   * division joined from the Debit table, the residual, then the Grand Total line.
   */
  method ArbitrationPivot(rows: seq<Claim>, ds: seq<string>, debit: seq<MonthlyRow>) returns (table: seq<MonthlyRow>)
    ensures table == ArbitrationTable(rows, ds, debit)
  {
    var cols := MonthColumns(rows, ds, ArbitratedDebit, MONTHS);
    var body: seq<MonthlyRow> := [];
    for i := 0 to |ds|
      invariant |body| == i
      invariant forall k :: 0 <= k < i ==> body[k] == ArbitrationRow(rows, ds[k], debit)
    {
      var cells := Across(cols, i);
      AcrossColumns(cols, rows, ArbitratedDebit, ds, i);
      var totalDebit := TotalDebitOf(debit, ds[i]);
      body := body + [MonthlyRow(ds[i], cells, totalDebit - Sum(cells))];
    }
    assert body == ArbitrationBody(rows, ds, debit);
    table := AppendGrandTotal(body);
  }

  /** The whole warranty summary: the division list and the three tables built from it. */
  method ProcessWarranty(raw: seq<RawClaim>) returns (dealers: seq<string>, credit: seq<MonthlyRow>, debit: seq<MonthlyRow>, arbitration: seq<MonthlyRow>)
    ensures IsDivisionList(dealers, Codes(NormaliseAll(raw)))
    ensures credit == MonthlyTable(NormaliseAll(raw), CreditNote, dealers)
    ensures debit == MonthlyTable(NormaliseAll(raw), DebitNote, dealers)
    ensures arbitration == ArbitrationTable(NormaliseAll(raw), dealers, debit)
  {
    var rows := NormaliseAll(raw);
    dealers := SortedDivisions(Codes(rows));
    credit := TotalledPivot(rows, dealers, CreditNote);
    debit := TotalledPivot(rows, dealers, DebitNote);
    arbitration := ArbitrationPivot(rows, dealers, debit);
  }

  // ---------------------------------------------------------------------
  // What the tables promise
  // ---------------------------------------------------------------------

  /** A division with no row in month `m` reads 0 in that month's column. */
  lemma {:induction false} CellWithoutRows(rows: seq<Claim>, measure: Measure, d: string, m: string)
    requires forall k :: 0 <= k < |rows| ==> !InCell(rows[k], d, m)
    ensures Cell(rows, measure, d, m) == 0
  {
    if rows != [] {
      CellWithoutRows(rows[..|rows| - 1], measure, d, m);
    }
  }

  /** The amount summed over every row of month `m` whose code names a real division. */
  function MonthKept(rows: seq<Claim>, measure: Measure, m: string): int {
    if rows == [] then 0
    else
      var last := rows[|rows| - 1];
      MonthKept(rows[..|rows| - 1], measure, m) + (if last.month == m && Kept(last.code) then Amount(last, measure) else 0)
  }

  /** The rows tagged with their code when they belong to month `m`, and with no key otherwise. */
  function MonthEntries(rows: seq<Claim>, measure: Measure, m: string): (entries: seq<Entry>)
    ensures |entries| == |rows|
  {
    seq(|rows|, i requires 0 <= i < |rows| => (if rows[i].month == m then rows[i].code else None, Amount(rows[i], measure)))
  }

  lemma {:induction false} MonthEntriesSums(rows: seq<Claim>, measure: Measure, m: string)
    ensures forall d :: KeyedSum(MonthEntries(rows, measure, m), d) == Cell(rows, measure, d, m)
    ensures KeptSum(MonthEntries(rows, measure, m)) == MonthKept(rows, measure, m)
  {
    if rows != [] {
      var init := rows[..|rows| - 1];
      MonthEntriesSums(init, measure, m);
      var e := MonthEntries(rows, measure, m);
      assert e[..|e| - 1] == MonthEntries(init, measure, m);
    }
  }

  /**
   * A month column of the Grand Total line equals the amount of every row of
   * that month whose code names a real division: each such row is counted
   * once, in its own division, and no other row is counted.
   */
  lemma MonthTotalIsKept(body: seq<MonthlyRow>, rows: seq<Claim>, measure: Measure, ds: seq<string>, j: nat)
    requires IsDivisionList(ds, Codes(rows))
    requires |body| == |ds| && j < |MONTHS|
    requires forall i :: 0 <= i < |ds| ==> body[i].months == MonthCells(rows, measure, ds[i])
    ensures SumOf(body, MonthColumn(j)) == MonthKept(rows, measure, MONTHS[j])
  {
    var entries := MonthEntries(rows, measure, MONTHS[j]);
    MonthEntriesSums(rows, measure, MONTHS[j]);
    SortedIsDistinct(ds);
    SumOfPerDivision(body, MonthColumn(j), entries, ds);
    MonthEntriesListed(rows, measure, MONTHS[j], ds);
    SumOverDivisionsIsKeptSum(entries, ds);
  }

  /** Every entry of a month that names a real division names a listed one. */
  lemma MonthEntriesListed(rows: seq<Claim>, measure: Measure, m: string, ds: seq<string>)
    requires IsDivisionList(ds, Codes(rows))
    ensures forall d :: d in ds ==> !IsBlank(d)
    ensures var entries := MonthEntries(rows, measure, m);
      forall k :: 0 <= k < |entries| && Kept(entries[k].0) ==> entries[k].0.value in ds
  {
    var entries := MonthEntries(rows, measure, m);
    forall k | 0 <= k < |entries| && Kept(entries[k].0) ensures entries[k].0.value in ds {
      assert Codes(rows)[k] == rows[k].code;
    }
  }

  /** The Grand Total line of the Credit or Debit table, month by month. */
  lemma MonthlyGrandTotal(rows: seq<Claim>, measure: Measure, ds: seq<string>, j: nat)
    requires IsDivisionList(ds, Codes(rows)) && j < |MONTHS|
    ensures MonthlyTable(rows, measure, ds)[|ds|].division == GRAND_TOTAL
    ensures MonthlyTable(rows, measure, ds)[|ds|].months[j] == MonthKept(rows, measure, MONTHS[j])
  {
    MonthTotalIsKept(TotalledBody(rows, measure, ds), rows, measure, ds, j);
  }

  /** The Grand Total line of the Arbitration table, month by month. */
  lemma ArbitrationGrandTotal(rows: seq<Claim>, ds: seq<string>, debit: seq<MonthlyRow>, j: nat)
    requires IsDivisionList(ds, Codes(rows)) && j < |MONTHS|
    ensures ArbitrationTable(rows, ds, debit)[|ds|].division == GRAND_TOTAL
    ensures ArbitrationTable(rows, ds, debit)[|ds|].months[j] == MonthKept(rows, ArbitratedDebit, MONTHS[j])
  {
    MonthTotalIsKept(ArbitrationBody(rows, ds, debit), rows, ArbitratedDebit, ds, j);
  }

  /** The nine month cells of a line, added up. */
  function MonthsTotal(r: MonthlyRow): int {
    Sum(r.months)
  }

  /** Adding up the month cells line by line equals adding up the Grand Total's month cells. */
  lemma {:induction false} MonthsTotalOfTotals(body: seq<MonthlyRow>)
    requires forall i :: 0 <= i < |body| ==> |body[i].months| == |MONTHS|
    ensures SumOf(body, MonthsTotal) == Sum(GrandTotalRow(body).months)
  {
    if body == [] {
      SumZeros(GrandTotalRow(body).months);
    } else {
      var init, last := body[..|body| - 1], body[|body| - 1];
      MonthsTotalOfTotals(init);
      SumAdd(GrandTotalRow(init).months, last.months, GrandTotalRow(body).months);
    }
  }

  /**
   * When every line's last column is the sum of its months, so is the Grand
   * Total line's: the total of the totals is the total of the month totals.
   */
  lemma TotalOfTotals(body: seq<MonthlyRow>)
    requires forall i :: 0 <= i < |body| ==> |body[i].months| == |MONTHS| && body[i].trailing == Sum(body[i].months)
    ensures SumOf(body, Trailing) == Sum(GrandTotalRow(body).months)
  {
    MonthsTotalOfTotals(body);
    SumOfPaired(body, Trailing, body, MonthsTotal);
  }

  /**
   * The shape of the Credit and Debit tables: one line per listed division
   * in list order, then the Grand Total line; every line, the Grand Total
   * included, has nine month cells and a Total that is their sum.
   */
  lemma MonthlyTableTotals(rows: seq<Claim>, measure: Measure, ds: seq<string>)
    ensures forall i :: 0 <= i < |ds| ==> MonthlyTable(rows, measure, ds)[i].division == ds[i]
    ensures MonthlyTable(rows, measure, ds)[|ds|].division == GRAND_TOTAL
    ensures forall i :: 0 <= i <= |ds| ==> |MonthlyTable(rows, measure, ds)[i].months| == |MONTHS|
    ensures forall i :: 0 <= i <= |ds| ==>
      MonthlyTable(rows, measure, ds)[i].trailing == Sum(MonthlyTable(rows, measure, ds)[i].months)
  {
    TotalOfTotals(TotalledBody(rows, measure, ds));
  }

  /** The Total Debit lookup finds the line of a division listed once, and reads 0 for Grand Total. */
  lemma {:induction false} TotalDebitFinds(debit: seq<MonthlyRow>, i: nat)
    requires i < |debit| && debit[i].division != GRAND_TOTAL
    requires forall k :: 0 <= k < i ==> debit[k].division != debit[i].division
    ensures TotalDebitOf(debit, debit[i].division) == debit[i].trailing
  {
    if i > 0 {
      TotalDebitFinds(debit[1..], i - 1);
    }
  }

  /**
   * Pending Claim Arbitration is the residual Total Debit minus the monthly
   * arbitration amounts of the same division, without clamping; a division
   * literally named "Grand Total" finds no Total Debit and reads 0 for it.
   */
  lemma PendingIsResidual(rows: seq<Claim>, ds: seq<string>, i: nat)
    requires IsDivisionList(ds, Codes(rows)) && i < |ds|
    ensures var debit := MonthlyTable(rows, DebitNote, ds);
      var arbitration := ArbitrationTable(rows, ds, debit);
      arbitration[i].division == ds[i] &&
      arbitration[i].trailing == (if ds[i] == GRAND_TOTAL then 0 else debit[i].trailing) - Sum(arbitration[i].months)
  {
    var debit := MonthlyTable(rows, DebitNote, ds);
    if ds[i] != GRAND_TOTAL {
      SortedIsDistinct(ds);
      TotalDebitFinds(debit, i);
    }
  }

  /** With non-negative debit amounts an arbitration cell never exceeds the debit cell. */
  lemma {:induction false} ArbitratedWithinDebit(rows: seq<Claim>, d: string, m: string)
    requires forall k :: 0 <= k < |rows| ==> rows[k].debitNote >= 0
    ensures 0 <= Cell(rows, ArbitratedDebit, d, m) <= Cell(rows, DebitNote, d, m)
  {
    if rows != [] {
      ArbitratedWithinDebit(rows[..|rows| - 1], d, m);
    }
  }

  /**
   * With non-negative debit amounts the residual is never negative: every
   * arbitration amount is also part of the same division's Total Debit.
   */
  lemma PendingNonNegative(rows: seq<Claim>, ds: seq<string>, i: nat)
    requires IsDivisionList(ds, Codes(rows)) && i < |ds| && ds[i] != GRAND_TOTAL
    requires forall k :: 0 <= k < |rows| ==> rows[k].debitNote >= 0
    ensures ArbitrationTable(rows, ds, MonthlyTable(rows, DebitNote, ds))[i].trailing >= 0
  {
    PendingIsResidual(rows, ds, i);
    var a, b := MonthCells(rows, ArbitratedDebit, ds[i]), MonthCells(rows, DebitNote, ds[i]);
    forall j | 0 <= j < |MONTHS| ensures a[j] <= b[j] {
      ArbitratedWithinDebit(rows, ds[i], MONTHS[j]);
    }
    SumLe(a, b);
  }

  /**
   * The Grand Total line of the Arbitration table reconciles with the Debit
   * table: its Pending Claim Arbitration is the Debit table's Grand Total
   * Total Debit minus its own month cells, when no division is itself named
   * Grand Total.
   */
  lemma PendingGrandTotal(rows: seq<Claim>, ds: seq<string>)
    requires IsDivisionList(ds, Codes(rows)) && GRAND_TOTAL !in ds
    ensures var debit := MonthlyTable(rows, DebitNote, ds);
      var arbitration := ArbitrationTable(rows, ds, debit);
      arbitration[|ds|].trailing == debit[|ds|].trailing - Sum(arbitration[|ds|].months)
  {
    var debit := MonthlyTable(rows, DebitNote, ds);
    var debitBody := TotalledBody(rows, DebitNote, ds);
    var body := ArbitrationBody(rows, ds, debit);
    var joined := (r: MonthlyRow) => TotalDebitOf(debit, r.division);
    SortedIsDistinct(ds);
    forall i | 0 <= i < |ds| ensures joined(body[i]) == Trailing(debitBody[i]) {
      TotalDebitFinds(debit, i);
    }
    SumOfPaired(body, joined, debitBody, Trailing);
    SumOfAdd(body, Trailing, MonthsTotal, joined);
    MonthsTotalOfTotals(body);
  }

  /**
   * The residual is not clamped: a single April row of division AMT with a
   * debit amount of -50 and no ARB ID leaves a Pending Claim Arbitration of -50.
   */
  lemma PendingCanBeNegative()
    ensures var rows := [Claim(Some("AMT"), "Apr", false, 0, -50)];
      ArbitrationTable(rows, ["AMT"], MonthlyTable(rows, DebitNote, ["AMT"]))[0].trailing == -50
  {
    var rows := [Claim(Some("AMT"), "Apr", false, 0, -50)];
    assert rows[..0] == [];
    var debitCells := MonthCells(rows, DebitNote, "AMT");
    var arbCells := MonthCells(rows, ArbitratedDebit, "AMT");
    forall j | 0 <= j < |MONTHS| ensures arbCells[j] == 0 && debitCells[j] == (if j == 0 then -50 else 0) {
      assert arbCells[j] == Cell(rows, ArbitratedDebit, "AMT", MONTHS[j]);
      assert debitCells[j] == Cell(rows, DebitNote, "AMT", MONTHS[j]);
    }
    SumZeros(arbCells);
    SumOfOne(debitCells, 0);
    var debit := MonthlyTable(rows, DebitNote, ["AMT"]);
    assert debit[0] == TotalledRow(rows, DebitNote, "AMT");
    assert TotalDebitOf(debit, "AMT") == -50;
  }

  /** A row whose month key is not one of the nine months changes no cell of a table. */
  lemma OtherMonthIgnored(rows: seq<Claim>, c: Claim, measure: Measure, ds: seq<string>)
    requires c.month !in MONTHS
    ensures MonthlyTable(rows + [c], measure, ds) == MonthlyTable(rows, measure, ds)
  {
    assert (rows + [c])[..|rows|] == rows;
    forall d ensures MonthCells(rows + [c], measure, d) == MonthCells(rows, measure, d) {
      forall j | 0 <= j < |MONTHS| ensures Cell(rows + [c], measure, d, MONTHS[j]) == Cell(rows, measure, d, MONTHS[j]) {
        assert !InCell(c, d, MONTHS[j]);
      }
    }
    assert TotalledBody(rows + [c], measure, ds) == TotalledBody(rows, measure, ds);
  }

  // ---------------------------------------------------------------------
  // A worked example
  // ---------------------------------------------------------------------

  /** Two April credits of AMRAVATI (100 and 50) and one May credit of CHIKHALI (30). */
  function ExampleRows(): (raw: seq<RawClaim>)
    ensures |raw| == 3
  {
    [RawClaim(Some("AMRAVATI"), Some("Apr"), None, 100, 0),
     RawClaim(Some("AMRAVATI"), Some("Apr"), None, 50, 0),
     RawClaim(Some("CHIKHALI"), Some("May"), None, 30, 0)]
  }

  function ExampleClaims(): (rows: seq<Claim>)
    ensures |rows| == 3
  {
    [Claim(Some("AMT"), "Apr", false, 100, 0), Claim(Some("AMT"), "Apr", false, 50, 0), Claim(Some("CHI"), "May", false, 30, 0)]
  }

  lemma ExampleNormalised()
    ensures NormaliseAll(ExampleRows()) == ExampleClaims()
  {
    ExampleRowNormalised(0);
    ExampleRowNormalised(1);
    ExampleRowNormalised(2);
    SameThree(NormaliseAll(ExampleRows()), ExampleClaims());
  }

  lemma ExampleRowNormalised(i: nat)
    requires i < 3
    ensures Normalise(ExampleRows()[i]) == ExampleClaims()[i]
  {
    ExampleMonthKeys();
    ExampleDealerCodes();
    ExampleNotArbitrated();
    NormaliseKnown(ExampleRows()[i], ExampleClaims()[i]);
  }

  /** A row whose location, month and ID cells normalise as expected. */
  lemma NormaliseKnown(raw: RawClaim, c: Claim)
    requires DealerCode(raw.location) == c.code && MonthKey(raw.fiscalMonth) == c.month
    requires IsArb(ArbitrationCell(raw.arbitrationId)) == c.arbitrated
    requires raw.creditNote == c.creditNote && raw.debitNote == c.debitNote
    ensures Normalise(raw) == c
  {
  }

  lemma ExampleMonthKeys()
    ensures MonthKey(Some("Apr")) == "Apr" && MonthKey(Some("May")) == "May"
  {
    ThreeLetterKey("Apr");
    ThreeLetterKey("May");
  }

  lemma ThreeLetterKey(m: string)
    requires |m| == 3 && !IsSpace(m[0]) && !IsSpace(m[2])
    ensures MonthKey(Some(m)) == m
  {
    TrimUnpadded(m);
  }

  lemma ExampleDealerCodes()
    ensures DealerCode(Some("AMRAVATI")) == Some("AMT") && DealerCode(Some("CHIKHALI")) == Some("CHI")
  {
    assert "AMRAVATI" in DEALER_MAPPING && "CHIKHALI" in DEALER_MAPPING;
  }

  lemma ExampleNotArbitrated()
    ensures !IsArb(ArbitrationCell(None))
  {
    assert CellText(None) == "nan";
  }

  /** The only division list of the example rows is AMT then CHI. */
  lemma ExampleDivisions(ds: seq<string>)
    ensures IsDivisionList(ds, Codes(ExampleClaims())) <==> ds == ["AMT", "CHI"]
  {
    var keys := Codes(ExampleClaims());
    ExampleKeys();
    ExampleSorted();
    if IsDivisionList(ds, keys) {
      DivisionListUnique(ds, ["AMT", "CHI"], keys);
    }
  }

  lemma ExampleSorted()
    ensures StrictlySorted(["AMT", "CHI"])
  {
    var ds := ["AMT", "CHI"];
    assert ds[0][0] == 'A' && ds[1][0] == 'C';
    assert Less(ds[0], ds[1]);
  }

  lemma ExampleKeys()
    ensures forall d :: d in ["AMT", "CHI"] <==> Some(d) in Codes(ExampleClaims()) && !IsBlank(d)
  {
    var keys := Codes(ExampleClaims());
    ExampleCodes();
    NotBlank("AMT");
    NotBlank("CHI");
    forall d ensures d in ["AMT", "CHI"] <==> Some(d) in keys && !IsBlank(d) {
      assert Some(d) in keys <==> d == "AMT" || d == "CHI";
    }
  }

  lemma ExampleCodes()
    ensures Codes(ExampleClaims()) == [Some("AMT"), Some("AMT"), Some("CHI")]
  {
  }

  lemma NotBlank(s: string)
    requires s != [] && !IsSpace(s[0]) && !IsSpace(s[|s| - 1])
    ensures !IsBlank(s)
  {
    TrimUnpadded(s);
  }

  lemma ExampleCell(d: string, m: string)
    ensures Cell(ExampleClaims(), CreditNote, d, m)
         == (if d == "AMT" && m == "Apr" then 150 else if d == "CHI" && m == "May" then 30 else 0)
  {
    var rows := ExampleClaims();
    var amt := InCell(rows[0], d, m);
    assert InCell(rows[1], d, m) == amt;
    assert amt <==> d == "AMT" && m == "Apr";
    assert InCell(rows[2], d, m) <==> d == "CHI" && m == "May";
    assert rows[..2][..1] == rows[..1];
    assert rows[..1][..0] == [];
    assert Cell(rows[..1], CreditNote, d, m) == if amt then 100 else 0;
    assert Cell(rows[..2], CreditNote, d, m) == if amt then 150 else 0;
  }

  lemma ExampleLine(d: string, k: nat, amount: int)
    requires (d == "AMT" && k == 0 && amount == 150) || (d == "CHI" && k == 1 && amount == 30)
    ensures TotalledRow(ExampleClaims(), CreditNote, d).months == seq(|MONTHS|, j requires 0 <= j < |MONTHS| => if j == k then amount else 0)
    ensures TotalledRow(ExampleClaims(), CreditNote, d).trailing == amount
  {
    var cells := MonthCells(ExampleClaims(), CreditNote, d);
    forall j | 0 <= j < |MONTHS| ensures cells[j] == if j == k then amount else 0 {
      ExampleCell(d, MONTHS[j]);
    }
    SumOfOne(cells, k);
  }

  /**
   * The Credit table of the example: AMT reads 150 in April, CHI 30 in May,
   * every other cell 0, and the Grand Total is 150, 30 and 180.
   */
  lemma CreditExample()
    ensures var table := MonthlyTable(NormaliseAll(ExampleRows()), CreditNote, ["AMT", "CHI"]);
      table == [MonthlyRow("AMT", [150, 0, 0, 0, 0, 0, 0, 0, 0], 150),
                MonthlyRow("CHI", [0, 30, 0, 0, 0, 0, 0, 0, 0], 30),
                MonthlyRow(GRAND_TOTAL, [150, 30, 0, 0, 0, 0, 0, 0, 0], 180)]
  {
    ExampleNormalised();
    var body := TotalledBody(ExampleClaims(), CreditNote, ["AMT", "CHI"]);
    ExampleBody();
    ExampleGrandTotal(body);
  }

  lemma ExampleBody()
    ensures TotalledBody(ExampleClaims(), CreditNote, ["AMT", "CHI"])
         == [MonthlyRow("AMT", [150, 0, 0, 0, 0, 0, 0, 0, 0], 150), MonthlyRow("CHI", [0, 30, 0, 0, 0, 0, 0, 0, 0], 30)]
  {
    var body := TotalledBody(ExampleClaims(), CreditNote, ["AMT", "CHI"]);
    ExampleLine("AMT", 0, 150);
    ExampleLine("CHI", 1, 30);
    var amt: seq<int> := [150, 0, 0, 0, 0, 0, 0, 0, 0];
    var chi: seq<int> := [0, 30, 0, 0, 0, 0, 0, 0, 0];
    assert body[0].months == amt by {
      assert forall j | 0 <= j < |MONTHS| :: body[0].months[j] == amt[j];
    }
    assert body[1].months == chi by {
      assert forall j | 0 <= j < |MONTHS| :: body[1].months[j] == chi[j];
    }
  }

  lemma ExampleGrandTotal(body: seq<MonthlyRow>)
    requires body == [MonthlyRow("AMT", [150, 0, 0, 0, 0, 0, 0, 0, 0], 150), MonthlyRow("CHI", [0, 30, 0, 0, 0, 0, 0, 0, 0], 30)]
    ensures GrandTotalRow(body) == MonthlyRow(GRAND_TOTAL, [150, 30, 0, 0, 0, 0, 0, 0, 0], 180)
  {
    var gt := GrandTotalRow(body);
    forall j | 0 <= j < |MONTHS| ensures gt.months[j] == body[0].months[j] + body[1].months[j] {
      SumOfTwo(body, MonthColumn(j));
    }
    SumOfTwo(body, Trailing);
  }
}
