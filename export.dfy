/**
 * The spreadsheet export: which summary table a request names, and which of
 * its lines go into the sheet for a chosen division.
 */
module Export {
  import opened Wrappers
  import opened Grouping
  import Warranty
  import Summaries

  /** The six summary tables a request can name. */
  datatype ExportType = Credit | Debit | Arbitration | CurrentMonth | Compensation | PrApproval

  /** The export type names in the order the request is tested against them. */
  const TYPE_NAMES := ["credit", "debit", "arbitration", "currentmonth", "compensation"]

  /**
   * The request's `type` field, "credit" when the field is absent; any name
   * not recognised selects PR Approval.
   */
  function ExportTypeOf(field: Option<string>): (t: ExportType)
    ensures t == Credit <==> field == None || field == Some("credit")
    ensures t == Debit <==> field == Some("debit")
    ensures t == Arbitration <==> field == Some("arbitration")
    ensures t == CurrentMonth <==> field == Some("currentmonth")
    ensures t == Compensation <==> field == Some("compensation")
    ensures t == PrApproval <==> field.Some? && field.value !in TYPE_NAMES
  {
    var name := if field.Some? then field.value else "credit";
    if name == "credit" then Credit
    else if name == "debit" then Debit
    else if name == "arbitration" then Arbitration
    else if name == "currentmonth" then CurrentMonth
    else if name == "compensation" then Compensation
    else PrApproval
  }

  /** What the export produces: an error when there is no table, or the lines of the sheet. */
  datatype Outcome<R> = NoData | Sheet(lines: seq<R>)

  /** The lines of `table` whose Division is `division` or Grand Total, in table order. */
  function Selected<R(!new)>(table: seq<R>, divisionOf: R -> string, division: string): (kept: seq<R>)
    ensures |kept| <= |table|
    ensures forall k :: 0 <= k < |kept| ==> divisionOf(kept[k]) == division || divisionOf(kept[k]) == GRAND_TOTAL
  {
    if table == [] then []
    else
      var init, last := table[..|table| - 1], table[|table| - 1];
      Selected(init, divisionOf, division) + (if divisionOf(last) == division || divisionOf(last) == GRAND_TOTAL then [last] else [])
  }

  /**
   * The lines written to the sheet: nothing for a missing or empty table,
   * the whole table when the request names no division, "All" or "Grand
   * Total", and otherwise the chosen division's lines together with the
   * Grand Total line.
   */
  function ExportRows<R(!new)>(table: Option<seq<R>>, divisionOf: R -> string, field: Option<string>): (outcome: Outcome<R>)
    ensures outcome.NoData? <==> table.None? || table.value == []
    ensures outcome.Sheet? && (field == None || field == Some("All") || field == Some(GRAND_TOTAL)) ==> outcome.lines == table.value
    ensures outcome.Sheet? && field.Some? && field.value != "All" && field.value != GRAND_TOTAL ==>
      forall x :: x in outcome.lines ==> divisionOf(x) == field.value || divisionOf(x) == GRAND_TOTAL
    ensures outcome.Sheet? && field.Some? && field.value != "All" && field.value != GRAND_TOTAL ==>
      outcome.lines == Selected(table.value, divisionOf, field.value)
  {
    var division := if field.Some? then field.value else "All";
    match table
    case None => NoData
    case Some(t) =>
      if t == [] then NoData
      else if division == "All" || division == GRAND_TOTAL then Sheet(t)
      else Sheet(Selected(t, divisionOf, division))
  }

  /** A line is exported exactly when it is in the table and names the division or the Grand Total. */
  lemma {:induction false} SelectedMembers<R(!new)>(table: seq<R>, divisionOf: R -> string, division: string)
    ensures forall x :: x in Selected(table, divisionOf, division) <==>
      x in table && (divisionOf(x) == division || divisionOf(x) == GRAND_TOTAL)
  {
    if table != [] {
      var init, last := table[..|table| - 1], table[|table| - 1];
      SelectedMembers(init, divisionOf, division);
      assert table == init + [last];
    }
  }

  /** Filtering keeps the order of the lines: it distributes over concatenation. */
  lemma {:induction false} SelectedAppend<R(!new)>(a: seq<R>, b: seq<R>, divisionOf: R -> string, division: string)
    ensures Selected(a + b, divisionOf, division) == Selected(a, divisionOf, division) + Selected(b, divisionOf, division)
  {
    if b == [] {
      assert a + b == a;
    } else {
      var init, last := b[..|b| - 1], b[|b| - 1];
      SelectedAppend(a, init, divisionOf, division);
      assert (a + b)[..|a + b| - 1] == a + init;
    }
  }

  /** Filtering twice is filtering once. */
  lemma {:induction false} SelectedIdempotent<R(!new)>(table: seq<R>, divisionOf: R -> string, division: string)
    ensures Selected(Selected(table, divisionOf, division), divisionOf, division) == Selected(table, divisionOf, division)
  {
    if table != [] {
      var init, last := table[..|table| - 1], table[|table| - 1];
      var s := Selected(init, divisionOf, division);
      SelectedIdempotent(init, divisionOf, division);
      if divisionOf(last) == division || divisionOf(last) == GRAND_TOTAL {
        SelectedAppend(s, [last], divisionOf, division);
        SelectedOne(last, divisionOf, division);
      } else {
        assert s + [] == s;
      }
    }
  }

  lemma {:induction false} SelectedNone<R(!new)>(table: seq<R>, divisionOf: R -> string, division: string)
    requires forall k :: 0 <= k < |table| ==> divisionOf(table[k]) != division && divisionOf(table[k]) != GRAND_TOTAL
    ensures Selected(table, divisionOf, division) == []
  {
    if table != [] {
      SelectedNone(table[..|table| - 1], divisionOf, division);
    }
  }

  lemma SelectedOne<R(!new)>(x: R, divisionOf: R -> string, division: string)
    ensures Selected([x], divisionOf, division) == if divisionOf(x) == division || divisionOf(x) == GRAND_TOTAL then [x] else []
  {
    assert [x][..0] == [];
  }

  /**
   * Exporting one listed division of a summary table (division lines with
   * distinct names, none of them "Grand Total", then the Grand Total line)
   * yields exactly that division's line followed by the Grand Total line.
   */
  lemma ExportListedDivision<R(!new)>(body: seq<R>, gt: R, divisionOf: R -> string, ds: seq<string>, i: nat)
    requires |body| == |ds| && i < |ds|
    requires forall k :: 0 <= k < |ds| ==> divisionOf(body[k]) == ds[k]
    requires Distinct(ds) && GRAND_TOTAL !in ds && ds[i] != "All"
    requires divisionOf(gt) == GRAND_TOTAL
    ensures ExportRows(Some(body + [gt]), divisionOf, Some(ds[i])) == Sheet([body[i], gt])
  {
    SelectedListed(body, divisionOf, ds, i);
    SelectedOne(gt, divisionOf, ds[i]);
    SelectedAppend(body, [gt], divisionOf, ds[i]);
  }

  /** Among lines with distinct divisions, none of them Grand Total, a listed division selects its own line. */
  lemma SelectedListed<R(!new)>(body: seq<R>, divisionOf: R -> string, ds: seq<string>, i: nat)
    requires |body| == |ds| && i < |ds|
    requires forall k :: 0 <= k < |ds| ==> divisionOf(body[k]) == ds[k]
    requires Distinct(ds) && GRAND_TOTAL !in ds
    ensures Selected(body, divisionOf, ds[i]) == [body[i]]
  {
    var d := ds[i];
    var before, after := body[..i], body[i + 1..];
    assert body == before + [body[i]] + after;
    forall k | 0 <= k < |before| ensures divisionOf(before[k]) != d && divisionOf(before[k]) != GRAND_TOTAL {
      assert before[k] == body[k] && ds[k] in ds;
    }
    forall k | 0 <= k < |after| ensures divisionOf(after[k]) != d && divisionOf(after[k]) != GRAND_TOTAL {
      assert after[k] == body[i + 1 + k] && ds[i + 1 + k] in ds;
    }
    SelectedNone(before, divisionOf, d);
    SelectedNone(after, divisionOf, d);
    SelectedOne(body[i], divisionOf, d);
    SelectedAppend(before, [body[i]], divisionOf, d);
    SelectedAppend(before + [body[i]], after, divisionOf, d);
  }

  /** Exporting a division the table does not list yields the Grand Total line alone. */
  lemma ExportUnlistedDivision<R(!new)>(body: seq<R>, gt: R, divisionOf: R -> string, ds: seq<string>, d: string)
    requires |body| == |ds|
    requires forall k :: 0 <= k < |ds| ==> divisionOf(body[k]) == ds[k]
    requires GRAND_TOTAL !in ds && d !in ds && d != "All" && d != GRAND_TOTAL
    requires divisionOf(gt) == GRAND_TOTAL
    ensures ExportRows(Some(body + [gt]), divisionOf, Some(d)) == Sheet([gt])
  {
    SelectedNone(body, divisionOf, d);
    SelectedOne(gt, divisionOf, d);
    SelectedAppend(body, [gt], divisionOf, d);
  }

  function MonthlyDivision(r: Warranty.MonthlyRow): string { r.division }

  /** The Credit or Debit sheet of one listed division: its line and the Grand Total line. */
  lemma ExportMonthlyDivision(rows: seq<Warranty.Claim>, measure: Warranty.Measure, ds: seq<string>, i: nat)
    requires IsDivisionList(ds, Warranty.Codes(rows)) && i < |ds|
    requires GRAND_TOTAL !in ds && ds[i] != "All"
    ensures var table := Warranty.MonthlyTable(rows, measure, ds);
      ExportRows(Some(table), MonthlyDivision, Some(ds[i])) == Sheet([table[i], table[|ds|]])
  {
    var table := Warranty.MonthlyTable(rows, measure, ds);
    var body := Warranty.TotalledBody(rows, measure, ds);
    SortedIsDistinct(ds);
    assert table == body + [table[|ds|]];
    ExportListedDivision(body, table[|ds|], MonthlyDivision, ds, i);
  }

  function CurrentMonthDivision(r: Summaries.CurrentMonthRow): string { r.division }

  /** The Current Month sheet of one listed division: its line and the Grand Total line. */
  lemma ExportCurrentMonthDivision(claims: seq<Summaries.PendingClaim>, ds: seq<string>, i: nat)
    requires IsDivisionList(ds, Summaries.DivisionKeys(claims, Summaries.PendingDivision)) && i < |ds|
    requires GRAND_TOTAL !in ds && ds[i] != "All"
    ensures var table := Summaries.CurrentMonthTable(claims, ds);
      ExportRows(Some(table), CurrentMonthDivision, Some(ds[i])) == Sheet([table[i], table[|ds|]])
  {
    var table := Summaries.CurrentMonthTable(claims, ds);
    var body := Summaries.CurrentMonthBody(claims, ds);
    SortedIsDistinct(ds);
    assert table == body + [table[|ds|]];
    ExportListedDivision(body, table[|ds|], CurrentMonthDivision, ds, i);
  }
}
