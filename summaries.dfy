/**
 * The three single-pass division summaries of the dashboard: Current Month
 * (pending spares and labour claims), Compensation (transit claims) and PR
 * Approval. Each cleans the Division cell (strip, then drop "" and "nan"),
 * walks the sorted distinct divisions appending one line per division, and
 * appends a Grand Total line accumulated column by column.
 */
module Summaries {
  import opened Wrappers
  import opened Text
  import opened Normalize
  import opened Grouping

  // ---------------------------------------------------------------------
  // Shared shape: rows keyed by their cleaned division
  // ---------------------------------------------------------------------

  /** The cleaned division of every row; `None` for a row the summary drops. */
  function DivisionKeys<R>(xs: seq<R>, divisionOf: R -> Option<string>): (keys: seq<Option<string>>)
    ensures |keys| == |xs|
  {
    seq(|xs|, i requires 0 <= i < |xs| => SummaryDivision(divisionOf(xs[i])))
  }

  /** Every row as a group-by entry: its cleaned division and the value it adds. */
  function Weighted<R>(xs: seq<R>, divisionOf: R -> Option<string>, weight: R -> int): (entries: seq<Entry>)
    ensures |entries| == |xs|
  {
    seq(|xs|, i requires 0 <= i < |xs| => (SummaryDivision(divisionOf(xs[i])), weight(xs[i])))
  }

  lemma WeightedKeys<R>(xs: seq<R>, divisionOf: R -> Option<string>, weight: R -> int)
    ensures Keys(Weighted(xs, divisionOf, weight)) == DivisionKeys(xs, divisionOf)
  {
  }

  /**
   * Reference definition of a Grand Total cell: the weight summed over every
   * row whose Division survives cleaning, whichever division that is.
   */
  function RowsTotal<R>(xs: seq<R>, divisionOf: R -> Option<string>, weight: R -> int): int {
    if xs == [] then 0
    else
      var last := xs[|xs| - 1];
      RowsTotal(xs[..|xs| - 1], divisionOf, weight) + (if SummaryDivision(divisionOf(last)).Some? then weight(last) else 0)
  }

  /** The weight 1: `len(d)` is the sum of ones over the division's rows. */
  function One<R>(x: R): int { 1 }

  lemma {:induction false} KeptSumIsRowsTotal<R>(xs: seq<R>, divisionOf: R -> Option<string>, weight: R -> int)
    ensures KeptSum(Weighted(xs, divisionOf, weight)) == RowsTotal(xs, divisionOf, weight)
  {
    if xs != [] {
      var init := xs[..|xs| - 1];
      KeptSumIsRowsTotal(init, divisionOf, weight);
      var e := Weighted(xs, divisionOf, weight);
      assert e[..|e| - 1] == Weighted(init, divisionOf, weight);
    }
  }

  /**
   * A column of division lines built from the per-division group sums adds
   * up to the reference total over the raw rows.
   */
  lemma GrandTotalIsRowsTotal<R, L>(body: seq<L>, column: L -> int, xs: seq<R>, divisionOf: R -> Option<string>, weight: R -> int, ds: seq<string>)
    requires IsDivisionList(ds, DivisionKeys(xs, divisionOf))
    requires |body| == |ds|
    requires forall i :: 0 <= i < |ds| ==> column(body[i]) == KeyedSum(Weighted(xs, divisionOf, weight), ds[i])
    ensures SumOf(body, column) == RowsTotal(xs, divisionOf, weight)
  {
    WeightedKeys(xs, divisionOf, weight);
    ColumnTotalIsKeptSum(body, column, Weighted(xs, divisionOf, weight), ds);
    KeptSumIsRowsTotal(xs, divisionOf, weight);
  }

  /**
   * Every listed division is a stripped, non-blank text other than "nan",
   * and it is the cleaned Division of at least one row.
   */
  lemma ListedDivisionsAreClean<R>(ds: seq<string>, xs: seq<R>, divisionOf: R -> Option<string>)
    requires IsDivisionList(ds, DivisionKeys(xs, divisionOf))
    ensures forall d :: d in ds ==> d != "nan" && !IsBlank(d) && Trim(d) == d
    ensures forall d :: d in ds ==> exists k :: 0 <= k < |xs| && Trim(CellText(divisionOf(xs[k]))) == d
  {
    var keys := DivisionKeys(xs, divisionOf);
    forall d | d in ds
      ensures d != "nan" && Trim(d) == d
      ensures exists k :: 0 <= k < |xs| && Trim(CellText(divisionOf(xs[k]))) == d
    {
      var k :| 0 <= k < |keys| && keys[k] == Some(d);
      TrimTrimmed(d, CellText(divisionOf(xs[k])));
    }
  }

  /** A listed division has at least one row: its row count is positive. */
  lemma ListedDivisionHasRows<R>(ds: seq<string>, xs: seq<R>, divisionOf: R -> Option<string>, i: nat)
    requires IsDivisionList(ds, DivisionKeys(xs, divisionOf)) && i < |ds|
    ensures KeyedSum(Weighted(xs, divisionOf, One), ds[i]) >= 1
  {
    var k := ListedKeyIndex(ds, DivisionKeys(xs, divisionOf), i);
    CountedRow(xs, divisionOf, ds[i], k);
  }

  /** A row whose cleaned division is `d` makes the row count of `d` positive. */
  lemma CountedRow<R>(xs: seq<R>, divisionOf: R -> Option<string>, d: string, k: nat)
    requires k < |xs| && DivisionKeys(xs, divisionOf)[k] == Some(d)
    ensures KeyedSum(Weighted(xs, divisionOf, One), d) >= 1
  {
    var entries := Weighted(xs, divisionOf, One);
    forall j | 0 <= j < |entries| ensures entries[j].1 >= 0 {
      assert entries[j].1 == One(xs[j]);
    }
    KeyedSumAtLeast(entries, d, k);
  }

  // ---------------------------------------------------------------------
  // Current Month: pending warranty claims
  // ---------------------------------------------------------------------

  /** A pending claim: its Division cell and whether each pending cell is filled in. */
  datatype PendingClaim = PendingClaim(division: Option<string>, spares: Option<string>, labour: Option<string>)

  datatype CurrentMonthRow = CurrentMonthRow(division: string, sparesCount: int, labourCount: int, totalPending: int)

  function PendingDivision(c: PendingClaim): Option<string> { c.division }
  /** `notna()` of the Pending Claims Spares cell, as 0 or 1. */
  function SparesFilled(c: PendingClaim): int { if c.spares.Some? then 1 else 0 }
  /** `notna()` of the Pending Claims Labour cell, as 0 or 1. */
  function LabourFilled(c: PendingClaim): int { if c.labour.Some? then 1 else 0 }

  function SparesCountOf(r: CurrentMonthRow): int { r.sparesCount }
  function LabourCountOf(r: CurrentMonthRow): int { r.labourCount }
  function TotalPendingOf(r: CurrentMonthRow): int { r.totalPending }

  /** The line of division `d`: its filled spares and labour cells, and their sum. */
  function CurrentMonthLine(claims: seq<PendingClaim>, d: string): CurrentMonthRow {
    var spares := KeyedSum(Weighted(claims, PendingDivision, SparesFilled), d);
    var labour := KeyedSum(Weighted(claims, PendingDivision, LabourFilled), d);
    CurrentMonthRow(d, spares, labour, spares + labour)
  }

  function CurrentMonthGrandTotal(body: seq<CurrentMonthRow>): CurrentMonthRow {
    CurrentMonthRow(GRAND_TOTAL, SumOf(body, SparesCountOf), SumOf(body, LabourCountOf), SumOf(body, TotalPendingOf))
  }

  function CurrentMonthBody(claims: seq<PendingClaim>, ds: seq<string>): (body: seq<CurrentMonthRow>)
    ensures |body| == |ds|
  {
    seq(|ds|, i requires 0 <= i < |ds| => CurrentMonthLine(claims, ds[i]))
  }

  function CurrentMonthTable(claims: seq<PendingClaim>, ds: seq<string>): (table: seq<CurrentMonthRow>)
    ensures |table| == |ds| + 1
  {
    var body := CurrentMonthBody(claims, ds);
    body + [CurrentMonthGrandTotal(body)]
  }

  /** `for div in sorted(...)`: one Current Month line per division, appended in list order. */
  method CurrentMonthLines(claims: seq<PendingClaim>, ds: seq<string>) returns (body: seq<CurrentMonthRow>)
    ensures body == CurrentMonthBody(claims, ds)
  {
    body := [];
    for i := 0 to |ds|
      invariant |body| == i
      invariant forall k :: 0 <= k < i ==> body[k] == CurrentMonthLine(claims, ds[k])
    {
      body := body + [CurrentMonthLine(claims, ds[i])];
    }
  }

  /** The Current Month summary: one line per division, then the Grand Total. */
  method CurrentMonthSummary(claims: seq<PendingClaim>) returns (divisions: seq<string>, table: seq<CurrentMonthRow>)
    ensures IsDivisionList(divisions, DivisionKeys(claims, PendingDivision))
    ensures table == CurrentMonthTable(claims, divisions)
  {
    divisions := SortedDivisions(DivisionKeys(claims, PendingDivision));
    var body := CurrentMonthLines(claims, divisions);
    var spares := ColumnTotal(body, SparesCountOf);
    var labour := ColumnTotal(body, LabourCountOf);
    var total := ColumnTotal(body, TotalPendingOf);
    table := body + [CurrentMonthRow(GRAND_TOTAL, spares, labour, total)];
  }

  /** On every line, the Grand Total included, Total Pending Claims is spares plus labour. */
  lemma CurrentMonthTotals(claims: seq<PendingClaim>, ds: seq<string>)
    ensures forall i :: 0 <= i < |ds| + 1 ==>
      CurrentMonthTable(claims, ds)[i].totalPending == CurrentMonthTable(claims, ds)[i].sparesCount + CurrentMonthTable(claims, ds)[i].labourCount
  {
    var table := CurrentMonthTable(claims, ds);
    SumOfAdd(table[..|ds|], SparesCountOf, LabourCountOf, TotalPendingOf);
  }

  /**
   * The Grand Total counts every kept claim's filled spares and labour cells
   * exactly once.
   */
  lemma CurrentMonthGrandTotals(claims: seq<PendingClaim>, ds: seq<string>)
    requires IsDivisionList(ds, DivisionKeys(claims, PendingDivision))
    ensures CurrentMonthTable(claims, ds)[|ds|].division == GRAND_TOTAL
    ensures CurrentMonthTable(claims, ds)[|ds|].sparesCount == RowsTotal(claims, PendingDivision, SparesFilled)
    ensures CurrentMonthTable(claims, ds)[|ds|].labourCount == RowsTotal(claims, PendingDivision, LabourFilled)
  {
    var body := CurrentMonthTable(claims, ds)[..|ds|];
    GrandTotalIsRowsTotal(body, SparesCountOf, claims, PendingDivision, SparesFilled, ds);
    GrandTotalIsRowsTotal(body, LabourCountOf, claims, PendingDivision, LabourFilled, ds);
  }

  // ---------------------------------------------------------------------
  // Compensation: transit claims
  // ---------------------------------------------------------------------

  /** A transit claim with its amounts and its No. of Days already parsed. */
  datatype TransitClaim = TransitClaim(division: Option<string>, claimAmount: int, approvedAmount: int, days: int)

  datatype CompensationRow = CompensationRow(division: string, totalClaims: int, totalClaimAmount: int, totalApproved: int, avgDays: real)

  function TransitDivision(c: TransitClaim): Option<string> { c.division }
  function ClaimAmountOf(c: TransitClaim): int { c.claimAmount }
  function ApprovedAmountOf(c: TransitClaim): int { c.approvedAmount }
  function DaysOf(c: TransitClaim): int { c.days }

  function TotalClaimsOf(r: CompensationRow): int { r.totalClaims }
  function TotalClaimAmountOf(r: CompensationRow): int { r.totalClaimAmount }
  function TotalApprovedOf(r: CompensationRow): int { r.totalApproved }

  /** `d["No. of Days"].mean() if len(d) else 0` */
  function Average(total: int, count: int): real {
    if count == 0 then 0.0 else total as real / count as real
  }

  function CompensationLine(claims: seq<TransitClaim>, d: string): CompensationRow {
    var count := KeyedSum(Weighted(claims, TransitDivision, One), d);
    var days := KeyedSum(Weighted(claims, TransitDivision, DaysOf), d);
    CompensationRow(d, count, KeyedSum(Weighted(claims, TransitDivision, ClaimAmountOf), d),
      KeyedSum(Weighted(claims, TransitDivision, ApprovedAmountOf), d), Average(days, count))
  }

  /** The sum of the Avg No. of Days column. */
  function AvgSum(body: seq<CompensationRow>): real {
    if body == [] then 0.0 else AvgSum(body[..|body| - 1]) + body[|body| - 1].avgDays
  }

  /** `out["Avg No. of Days"].mean() if len(out) else 0`: the unweighted mean of the division means. */
  function MeanOfMeans(body: seq<CompensationRow>): real {
    if |body| == 0 then 0.0 else AvgSum(body) / |body| as real
  }

  function CompensationGrandTotal(body: seq<CompensationRow>): CompensationRow {
    CompensationRow(GRAND_TOTAL, SumOf(body, TotalClaimsOf), SumOf(body, TotalClaimAmountOf), SumOf(body, TotalApprovedOf), MeanOfMeans(body))
  }

  function CompensationBody(claims: seq<TransitClaim>, ds: seq<string>): (body: seq<CompensationRow>)
    ensures |body| == |ds|
  {
    seq(|ds|, i requires 0 <= i < |ds| => CompensationLine(claims, ds[i]))
  }

  function CompensationTable(claims: seq<TransitClaim>, ds: seq<string>): (table: seq<CompensationRow>)
    ensures |table| == |ds| + 1
  {
    var body := CompensationBody(claims, ds);
    body + [CompensationGrandTotal(body)]
  }

  /** The Avg No. of Days cell of the Grand Total line, one division line at a time. */
  method MeanOfAverages(body: seq<CompensationRow>) returns (mean: real)
    ensures mean == MeanOfMeans(body)
  {
    var total := 0.0;
    for i := 0 to |body|
      invariant total == AvgSum(body[..i])
    {
      assert body[..i + 1][..i] == body[..i];
      total := total + body[i].avgDays;
    }
    assert body[..|body|] == body;
    mean := if |body| == 0 then 0.0 else total / |body| as real;
  }

  /** `for div in sorted(...)`: one Compensation line per division, appended in list order. */
  method CompensationLines(claims: seq<TransitClaim>, ds: seq<string>) returns (body: seq<CompensationRow>)
    ensures body == CompensationBody(claims, ds)
  {
    body := [];
    for i := 0 to |ds|
      invariant |body| == i
      invariant forall k :: 0 <= k < i ==> body[k] == CompensationLine(claims, ds[k])
    {
      body := body + [CompensationLine(claims, ds[i])];
    }
  }

  /** The Compensation summary: one line per division, then the Grand Total. */
  method CompensationSummary(claims: seq<TransitClaim>) returns (divisions: seq<string>, table: seq<CompensationRow>)
    ensures IsDivisionList(divisions, DivisionKeys(claims, TransitDivision))
    ensures table == CompensationTable(claims, divisions)
  {
    divisions := SortedDivisions(DivisionKeys(claims, TransitDivision));
    var body := CompensationLines(claims, divisions);
    var count := ColumnTotal(body, TotalClaimsOf);
    var amount := ColumnTotal(body, TotalClaimAmountOf);
    var approved := ColumnTotal(body, TotalApprovedOf);
    var mean := MeanOfAverages(body);
    table := body + [CompensationRow(GRAND_TOTAL, count, amount, approved, mean)];
  }

  /**
   * Every division line counts at least one claim, so its Avg No. of Days is
   * the division's total No. of Days divided by its claim count.
   */
  lemma CompensationAverage(claims: seq<TransitClaim>, ds: seq<string>, i: nat)
    requires IsDivisionList(ds, DivisionKeys(claims, TransitDivision)) && i < |ds|
    ensures CompensationTable(claims, ds)[i].division == ds[i]
    ensures CompensationTable(claims, ds)[i].totalClaims >= 1
    ensures CompensationTable(claims, ds)[i].avgDays
         == KeyedSum(Weighted(claims, TransitDivision, DaysOf), ds[i]) as real / CompensationTable(claims, ds)[i].totalClaims as real
  {
    ListedDivisionHasRows(ds, claims, TransitDivision, i);
    var line := CompensationTable(claims, ds)[i];
    var days := KeyedSum(Weighted(claims, TransitDivision, DaysOf), ds[i]);
    assert line == CompensationLine(claims, ds[i]);
  }


  /** The count and amount columns of the Grand Total add up every kept claim exactly once. */
  lemma CompensationGrandTotals(claims: seq<TransitClaim>, ds: seq<string>)
    requires IsDivisionList(ds, DivisionKeys(claims, TransitDivision))
    ensures var gt := CompensationTable(claims, ds)[|ds|];
      gt.division == GRAND_TOTAL &&
      gt.totalClaims == RowsTotal(claims, TransitDivision, One) &&
      gt.totalClaimAmount == RowsTotal(claims, TransitDivision, ClaimAmountOf) &&
      gt.totalApproved == RowsTotal(claims, TransitDivision, ApprovedAmountOf)
  {
    var body := CompensationTable(claims, ds)[..|ds|];
    GrandTotalIsRowsTotal(body, TotalClaimsOf, claims, TransitDivision, One, ds);
    GrandTotalIsRowsTotal(body, TotalClaimAmountOf, claims, TransitDivision, ClaimAmountOf, ds);
    GrandTotalIsRowsTotal(body, TotalApprovedOf, claims, TransitDivision, ApprovedAmountOf, ds);
  }

  lemma {:induction false} AvgSumWithin(body: seq<CompensationRow>, lo: real, hi: real)
    requires forall i :: 0 <= i < |body| ==> lo <= body[i].avgDays <= hi
    ensures |body| as real * lo <= AvgSum(body) <= |body| as real * hi
  {
    if body != [] {
      AvgSumWithin(body[..|body| - 1], lo, hi);
    }
  }

  /** The Grand Total average lies between the smallest and the largest division average. */
  lemma MeanOfMeansWithin(body: seq<CompensationRow>, lo: real, hi: real)
    requires body != []
    requires forall i :: 0 <= i < |body| ==> lo <= body[i].avgDays <= hi
    ensures lo <= MeanOfMeans(body) <= hi
  {
    AvgSumWithin(body, lo, hi);
    var n := |body| as real;
    assert n * lo <= AvgSum(body) <= n * hi;
    assert AvgSum(body) / n == MeanOfMeans(body);
    assert lo == n * lo / n && hi == n * hi / n;
  }

  /**
   * The Grand Total average is the mean of the division means, not the mean
   * over all claims: one claim of 9 days in a division `a` and two claims of
   * 0 days in a division `b` give 4.5, while the three claims average 3.
   */
  lemma MeanOfMeansIsNotPooled(a: string, b: string)
    requires a != b && SummaryDivision(Some(a)) == Some(a) && SummaryDivision(Some(b)) == Some(b)
    ensures var gt := CompensationTable(UnevenClaims(a, b), [a, b])[2];
      gt.totalClaims == 3 && RowsTotal(UnevenClaims(a, b), TransitDivision, DaysOf) == 9 && gt.avgDays == 4.5
  {
    Quotient(9.0, 2.0, 4.5);
    var body := UnevenBody(a, b);
    UnevenDaysTotal(a, b);
    assert CompensationTable(UnevenClaims(a, b), [a, b])[2] == CompensationGrandTotal(body);
    SumOfTwo(body, TotalClaimsOf);
    assert body[..1][..0] == [];
    assert AvgSum(body[..1]) == 9.0;
  }

  /** With divisions listed in ascending order, `[a, b]` is the division list of the witness rows. */
  lemma UnevenDivisionList(a: string, b: string)
    requires Less(a, b) && SummaryDivision(Some(a)) == Some(a) && SummaryDivision(Some(b)) == Some(b)
    ensures IsDivisionList([a, b], DivisionKeys(UnevenClaims(a, b), TransitDivision))
  {
    UnevenKeys(a, b);
    SummaryDivisionNotBlank(Some(a));
    SummaryDivisionNotBlank(Some(b));
    PairList(a, b, DivisionKeys(UnevenClaims(a, b), TransitDivision));
  }

  lemma UnevenKeys(a: string, b: string)
    requires SummaryDivision(Some(a)) == Some(a) && SummaryDivision(Some(b)) == Some(b)
    ensures DivisionKeys(UnevenClaims(a, b), TransitDivision) == [Some(a), Some(b), Some(b)]
  {
    var c := UnevenClaims(a, b);
    var keys := DivisionKeys(c, TransitDivision);
    assert TransitDivision(c[0]) == Some(a) && TransitDivision(c[1]) == Some(b) && TransitDivision(c[2]) == Some(b);
    assert keys[0] == SummaryDivision(TransitDivision(c[0]));
    assert keys[1] == SummaryDivision(TransitDivision(c[1]));
    assert keys[2] == SummaryDivision(TransitDivision(c[2]));
    SameThree(keys, [Some(a), Some(b), Some(b)]);
  }

  lemma PairList(a: string, b: string, keys: seq<Option<string>>)
    requires Less(a, b) && !IsBlank(a) && !IsBlank(b)
    requires keys == [Some(a), Some(b), Some(b)]
    ensures IsDivisionList([a, b], keys)
  {
    LessIrreflexive(a);
  }

  /** One claim of 9 days in `a`, two claims of 0 days in `b`. */
  function UnevenClaims(a: string, b: string): (claims: seq<TransitClaim>)
    ensures |claims| == 3
  {
    [TransitClaim(Some(a), 0, 0, 9), TransitClaim(Some(b), 0, 0, 0), TransitClaim(Some(b), 0, 0, 0)]
  }

  /** The two division lines of the witness. */
  lemma UnevenBody(a: string, b: string) returns (body: seq<CompensationRow>)
    requires a != b && SummaryDivision(Some(a)) == Some(a) && SummaryDivision(Some(b)) == Some(b)
    ensures body == CompensationBody(UnevenClaims(a, b), [a, b])
    ensures body == [CompensationRow(a, 1, 0, 0, 9.0), CompensationRow(b, 2, 0, 0, 0.0)]
  {
    AverageOf(9, 1, 9.0);
    AverageOf(0, 2, 0.0);
    UnevenColumn(a, b, One);
    UnevenColumn(a, b, DaysOf);
    UnevenColumn(a, b, ClaimAmountOf);
    UnevenColumn(a, b, ApprovedAmountOf);
    body := CompensationBody(UnevenClaims(a, b), [a, b]);
    assert body == [body[0], body[1]];
  }

  lemma AverageOf(total: int, count: int, q: real)
    requires count != 0 && q * count as real == total as real
    ensures Average(total, count) == q
  {
    Quotient(total as real, count as real, q);
  }

  lemma UnevenDaysTotal(a: string, b: string)
    requires SummaryDivision(Some(a)) == Some(a) && SummaryDivision(Some(b)) == Some(b)
    ensures RowsTotal(UnevenClaims(a, b), TransitDivision, DaysOf) == 9
  {
    var c := UnevenClaims(a, b);
    assert c[..2][..1] == c[..1];
    assert c[..1][..0] == [];
    assert RowsTotal(c[..1], TransitDivision, DaysOf) == 9;
    assert RowsTotal(c[..2], TransitDivision, DaysOf) == 9;
  }

  lemma UnevenColumn(a: string, b: string, weight: TransitClaim -> int)
    requires a != b && SummaryDivision(Some(a)) == Some(a) && SummaryDivision(Some(b)) == Some(b)
    ensures KeyedSum(Weighted(UnevenClaims(a, b), TransitDivision, weight), a) == weight(TransitClaim(Some(a), 0, 0, 9))
    ensures KeyedSum(Weighted(UnevenClaims(a, b), TransitDivision, weight), b) == 2 * weight(TransitClaim(Some(b), 0, 0, 0))
  {
    var claims := UnevenClaims(a, b);
    var e := Weighted(claims, TransitDivision, weight);
    assert e[0] == (Some(a), weight(claims[0]));
    assert e[1] == (Some(b), weight(claims[1])) && e[2] == (Some(b), weight(claims[2]));
    KeyedSumOfThree(e, a);
    KeyedSumOfThree(e, b);
  }

  lemma KeyedSumOfThree(e: seq<Entry>, d: string)
    requires |e| == 3
    ensures KeyedSum(e, d) == (if e[0].0 == Some(d) then e[0].1 else 0) + (if e[1].0 == Some(d) then e[1].1 else 0) + (if e[2].0 == Some(d) then e[2].1 else 0)
  {
    assert e[..2][..1] == e[..1];
    assert e[..1][..0] == [];
    assert KeyedSum(e[..1], d) == (if e[0].0 == Some(d) then e[0].1 else 0);
  }

  lemma Quotient(x: real, y: real, q: real)
    requires y != 0.0 && q * y == x
    ensures x / y == q
  {
  }

  // ---------------------------------------------------------------------
  // PR Approval
  // ---------------------------------------------------------------------

  /** A PR approval request with its App. Claim Amt from M&M already parsed. */
  datatype PrRequest = PrRequest(division: Option<string>, approvedAmount: int)

  datatype PrApprovalRow = PrApprovalRow(division: string, totalRequests: int, totalApproved: int)

  function RequestDivision(r: PrRequest): Option<string> { r.division }
  function RequestApprovedOf(r: PrRequest): int { r.approvedAmount }

  function TotalRequestsOf(r: PrApprovalRow): int { r.totalRequests }
  function PrTotalApprovedOf(r: PrApprovalRow): int { r.totalApproved }

  function PrApprovalLine(requests: seq<PrRequest>, d: string): PrApprovalRow {
    PrApprovalRow(d, KeyedSum(Weighted(requests, RequestDivision, One), d), KeyedSum(Weighted(requests, RequestDivision, RequestApprovedOf), d))
  }

  function PrApprovalBody(requests: seq<PrRequest>, ds: seq<string>): (body: seq<PrApprovalRow>)
    ensures |body| == |ds|
  {
    seq(|ds|, i requires 0 <= i < |ds| => PrApprovalLine(requests, ds[i]))
  }

  function PrApprovalTable(requests: seq<PrRequest>, ds: seq<string>): (table: seq<PrApprovalRow>)
    ensures |table| == |ds| + 1
  {
    var body := PrApprovalBody(requests, ds);
    body + [PrApprovalRow(GRAND_TOTAL, SumOf(body, TotalRequestsOf), SumOf(body, PrTotalApprovedOf))]
  }

  /** `for div in sorted(...)`: one PR Approval line per division, appended in list order. */
  method PrApprovalLines(requests: seq<PrRequest>, ds: seq<string>) returns (body: seq<PrApprovalRow>)
    ensures body == PrApprovalBody(requests, ds)
  {
    body := [];
    for i := 0 to |ds|
      invariant |body| == i
      invariant forall k :: 0 <= k < i ==> body[k] == PrApprovalLine(requests, ds[k])
    {
      body := body + [PrApprovalLine(requests, ds[i])];
    }
  }

  /** The PR Approval summary: one line per division, then the Grand Total. */
  method PrApprovalSummary(requests: seq<PrRequest>) returns (divisions: seq<string>, table: seq<PrApprovalRow>)
    ensures IsDivisionList(divisions, DivisionKeys(requests, RequestDivision))
    ensures table == PrApprovalTable(requests, divisions)
  {
    divisions := SortedDivisions(DivisionKeys(requests, RequestDivision));
    var body := PrApprovalLines(requests, divisions);
    var count := ColumnTotal(body, TotalRequestsOf);
    var approved := ColumnTotal(body, PrTotalApprovedOf);
    table := body + [PrApprovalRow(GRAND_TOTAL, count, approved)];
  }

  /**
   * Each division line counts at least one request; the Grand Total counts
   * and sums every kept request exactly once.
   */
  lemma PrApprovalGrandTotals(requests: seq<PrRequest>, ds: seq<string>)
    requires IsDivisionList(ds, DivisionKeys(requests, RequestDivision))
    ensures forall i :: 0 <= i < |ds| ==> PrApprovalTable(requests, ds)[i].totalRequests >= 1
    ensures var gt := PrApprovalTable(requests, ds)[|ds|];
      gt.division == GRAND_TOTAL &&
      gt.totalRequests == RowsTotal(requests, RequestDivision, One) &&
      gt.totalApproved == RowsTotal(requests, RequestDivision, RequestApprovedOf)
  {
    forall i | 0 <= i < |ds| ensures PrApprovalTable(requests, ds)[i].totalRequests >= 1 {
      ListedDivisionHasRows(ds, requests, RequestDivision, i);
    }
    var body := PrApprovalTable(requests, ds)[..|ds|];
    GrandTotalIsRowsTotal(body, TotalRequestsOf, requests, RequestDivision, One, ds);
    GrandTotalIsRowsTotal(body, PrTotalApprovedOf, requests, RequestDivision, RequestApprovedOf, ds);
  }
}
