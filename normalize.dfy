/**
 * How a raw spreadsheet cell becomes a division code, a month key or an
 * arbitration flag, before any grouping happens.
 */
module Normalize {
  import opened Wrappers
  import opened Text

  /** The fixed dealer-location to division-code table of the warranty workbook. */
  const DEALER_MAPPING: map<string, string> := map[
    "AMRAVATI" := "AMT",
    "CHAUFULA_SZZ" := "CHA",
    "CHIKHALI" := "CHI",
    "KOLHAPUR_WS" := "KOL",
    "NAGPUR_KAMPTHEE ROAD" := "HO",
    "NAGPUR_WARDHAMAN NGR" := "CITY",
    "SHIKRAPUR_SZS" := "SHI",
    "WAGHOLI" := "WAG",
    "YAVATMAL" := "YAT",
    "NAGPUR_WARDHAMAN NGR_CQ" := "CQ"
  ]

  /**
   * The Dealer_Code of a row: a location found in the table maps to its code,
   * any other location is its own code (no error, no trimming), and a
   * missing cell stays missing.
   */
  function DealerCode(location: Option<string>): (code: Option<string>)
    ensures code.None? <==> location.None?
    ensures location.Some? && location.value in DEALER_MAPPING ==> code == Some(DEALER_MAPPING[location.value])
    ensures location.Some? && location.value !in DEALER_MAPPING ==> code == location
  {
    match location
    case None => None
    case Some(name) => Some(if name in DEALER_MAPPING then DEALER_MAPPING[name] else name)
  }

  /**
   * Two present locations land in the same division exactly when they are
   * equal, or one is a known location whose code is the other one verbatim
   * (an unlisted location spelled like a code joins that code's division).
   */
  lemma SameDivision(a: string, b: string)
    ensures DealerCode(Some(a)) == DealerCode(Some(b)) <==>
      || a == b
      || (a in DEALER_MAPPING && b !in DEALER_MAPPING && DEALER_MAPPING[a] == b)
      || (b in DEALER_MAPPING && a !in DEALER_MAPPING && DEALER_MAPPING[b] == a)
  {
    var m := DEALER_MAPPING;
    assert forall x, y :: x in m && y in m && x != y ==> m[x] != m[y];
  }

  /** No code is itself a listed location, so normalising a code again changes nothing. */
  lemma DealerCodeIdempotent(location: Option<string>)
    ensures DealerCode(DealerCode(location)) == DealerCode(location)
  {
    var m := DEALER_MAPPING;
    assert forall x :: x in m ==> m[x] !in m;
  }

  /** How a cell reads after `astype(str)`: a missing cell becomes the text "nan". */
  function CellText(cell: Option<string>): (text: string)
    ensures cell.Some? ==> text == cell.value
    ensures text == "nan" <==> cell == None || cell == Some("nan")
  {
    match cell
    case None => "nan"
    case Some(s) => s
  }

  /** The Month column: the first three characters of the stripped fiscal-month text. */
  function MonthKey(fiscalMonth: Option<string>): (key: string)
    ensures |key| <= 3 && |key| <= |Trim(CellText(fiscalMonth))|
    ensures key == Trim(CellText(fiscalMonth))[..|key|]
    ensures |key| < 3 ==> key == Trim(CellText(fiscalMonth))
  {
    Take(Trim(CellText(fiscalMonth)), 3)
  }

  /**
   * A row falls under a three-letter month exactly when its stripped
   * fiscal-month text starts with it: "Apr", " April " and "Apr-24" all
   * count for "Apr", and no spelling of the name is checked.
   */
  lemma MonthKeyMatches(fiscalMonth: Option<string>, m: string)
    requires |m| == 3
    ensures MonthKey(fiscalMonth) == m <==> HasPrefix(Trim(CellText(fiscalMonth)), m)
  {
  }

  /**
   * The arbitration-ID column after `astype(str)` and the replacement of
   * "nan" and "" by a missing value; every other text is kept verbatim.
   */
  function ArbitrationCell(raw: Option<string>): (id: Option<string>)
    ensures id.None? <==> CellText(raw) == "nan" || CellText(raw) == ""
    ensures id.Some? ==> id.value == CellText(raw)
  {
    var text := CellText(raw);
    if text == "nan" || text == "" then None else Some(text)
  }

  /** `is_arb`: a present value whose stripped, upper-cased text starts with "ARB" and is not "NAN". */
  function IsArb(v: Option<string>): (arb: bool)
    ensures arb <==> v.Some? && HasPrefix(Upper(Trim(v.value)), "ARB")
  {
    match v
    case None => false
    case Some(s) =>
      var vv := Upper(Trim(s));
      assert HasPrefix(vv, "ARB") ==> vv[0] == "ARB"[0] != "NAN"[0];
      HasPrefix(vv, "ARB") && vv != "NAN"
  }

  /**
   * A row counts as arbitration exactly when its ID cell is present and its
   * stripped, upper-cased text starts with "ARB"; the "nan" and empty
   * replacements and the "NAN" test exclude nothing more.
   */
  lemma {:induction false} ArbitrationIdCounts(raw: Option<string>)
    ensures IsArb(ArbitrationCell(raw)) <==> raw.Some? && HasPrefix(Upper(Trim(raw.value)), "ARB")
  {
    match raw
    case None =>
    case Some(s) =>
      var vv := Upper(Trim(s));
      if HasPrefix(vv, "ARB") {
        assert vv[0] == 'A';
      }
  }

  /**
   * For an ID with no white space at either end, the test reads only its
   * first three characters, upper-cased.
   */
  lemma UnpaddedArbitrationId(s: string)
    requires s != [] && !IsSpace(s[0]) && !IsSpace(s[|s| - 1])
    ensures IsArb(ArbitrationCell(Some(s))) <==>
      |s| >= 3 && UpperChar(s[0]) == 'A' && UpperChar(s[1]) == 'R' && UpperChar(s[2]) == 'B'
  {
    ArbitrationIdCounts(Some(s));
    TrimUnpadded(s);
    var vv := Upper(s);
    if |s| >= 3 {
      assert vv[..3] == [UpperChar(s[0]), UpperChar(s[1]), UpperChar(s[2])];
    }
  }

  /** "arb-2201" counts: the test ignores case. */
  lemma ArbitrationIdCounted()
    ensures IsArb(ArbitrationCell(Some("arb-2201")))
  {
    UnpaddedArbitrationId("arb-2201");
  }

  /** A dash and a plain number do not count. */
  lemma ArbitrationIdNotCounted()
    ensures !IsArb(ArbitrationCell(Some("-"))) && !IsArb(ArbitrationCell(Some("2201")))
  {
    NotArbitrationId("-");
    NotArbitrationId("2201");
  }

  /** An unpadded ID shorter than three characters, or not starting with an `a` or `A`, does not count. */
  lemma NotArbitrationId(s: string)
    requires s != [] && !IsSpace(s[0]) && !IsSpace(s[|s| - 1])
    requires |s| < 3 || UpperChar(s[0]) != 'A'
    ensures !IsArb(ArbitrationCell(Some(s)))
  {
    UnpaddedArbitrationId(s);
  }

  /** An empty cell, the text "nan" and a missing cell all read as no ID, so none counts. */
  lemma MissingArbitrationId()
    ensures !IsArb(ArbitrationCell(Some(""))) && !IsArb(ArbitrationCell(Some("nan"))) && !IsArb(ArbitrationCell(None))
  {
    assert ArbitrationCell(Some("")) == None && ArbitrationCell(Some("nan")) == None && ArbitrationCell(None) == None;
  }

  /** The Division column of the single-pass summaries: stripped text, with "" and "nan" dropped. */
  function SummaryDivision(cell: Option<string>): (d: Option<string>)
    ensures d.Some? <==> Trim(CellText(cell)) != "" && Trim(CellText(cell)) != "nan"
    ensures d.Some? ==> d.value == Trim(CellText(cell))
  {
    var t := Trim(CellText(cell));
    if t == "" || t == "nan" then None else Some(t)
  }

  /** A kept division is stripped and so not blank. */
  lemma SummaryDivisionNotBlank(cell: Option<string>)
    ensures SummaryDivision(cell).Some? ==> Trim(SummaryDivision(cell).value) == SummaryDivision(cell).value
    ensures SummaryDivision(cell).Some? ==> !IsBlank(SummaryDivision(cell).value)
  {
    TrimTrimmed(Trim(CellText(cell)), CellText(cell));
  }

  /** Stripping an already stripped text changes nothing. */
  lemma TrimTrimmed(t: string, s: string)
    requires t == Trim(s)
    ensures Trim(t) == t
  {
  }
}
