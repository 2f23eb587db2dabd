# Warranty dashboard summarizer — a Dafny model

The warranty dashboard reads a dealer's warranty workbooks and presents
them as per-division summary tables. Here a division is the dealer code of a
workshop location, or the Division column of a claims sheet. Every table has
one line per division, in ascending order without duplicates, and ends with
a synthetic `Grand Total` line. This project models the summarizer at the
core of `main.py` and proves what its tables mean:

- **Row normalisation** (module `Normalize`). This covers:
  - the fixed dealer-location → division-code lookup, with unknown locations passing through unchanged;
  - the three-letter month key of the stripped Fiscal Month text;
  - the arbitration-ID clean-up and the `is_arb` test;
  - the Division clean-up of the single-pass summaries (strip, then drop `""` and `"nan"`).
- **Grouping** (module `Grouping`). This covers:
  - the sorted, distinct, non-blank division list;
  - `groupby(...).sum()` read through a left merge with `fillna(0)`;
  - column totals;
  - the reference definitions they are proved against.
- **Credit / Debit / Arbitration pivots** (module `Warranty`). A Credit or Debit table has:
  - one column per month from Apr to Dec;
  - a Total column;
  - the Grand Total line.

  The Arbitration table has:
  - the debit amounts of ARB-prefixed claims, month by month;
  - the residual `Pending Claim Arbitration = Total Debit − Σ arbitration`, which is not clamped.
- **Single-pass summaries** (module `Summaries`):
  - Current Month counts filled Pending Claims Spares and Labour cells.
  - Compensation reports claim counts, amounts, approved amounts and the mean No. of Days.
  - PR Approval reports request counts and approved amounts.
- **Export filter** (module `Export`):
  - which table a request names;
  - the lines written to the sheet: a "No data" outcome, the whole table for `All` or `Grand Total`, and otherwise the chosen division plus the Grand Total line.

The imperative builders are methods proved against specification functions:
- the month loops of the pivots;
- the `for div in sorted(...)` loops that append lines;
- the Grand Total accumulated column by column;
- the group-by-then-merge of each month.

The lemmas state the properties of those functions:
- cells are sums over the raw rows;
- totals are the sums of their month cells;
- a Grand Total cell counts every kept row exactly once;
- the residual identity;
- the filter's exact output.

Amounts are `int`. The Compensation averages are `real`.

Three behaviours of `main.py` that a reader might not expect, all kept in the model:

- **Warranty division list.** main.py:273 keeps every present dealer code whose stripped text is not empty. The code itself is not stripped, and a code spelled `nan` is kept. The single-pass summaries do drop `"nan"` after `astype(str)` (main.py:102, 152, 205).
- **Compensation Grand Total average.** main.py:178 takes the unweighted mean of the division means, or 0 when there are none. `Summaries.MeanOfMeansIsNotPooled` shows that this differs from the mean over all claims.
- **Total Debit join.** The join onto the Arbitration table excludes every Debit line labelled `Grand Total`. A dealer location literally named `Grand Total` therefore reads a Total Debit of 0 (`Warranty.PendingIsResidual`).

## Model

| member | source | states |
|---|---|---|
| Normalize.DealerCode | main.py:243-254 | a known location maps to its fixed code, any other present location to itself, a missing one to missing; never an error |
| Normalize.SameDivision | main.py:269 | two locations share a division exactly when equal, or when one is a known location whose code is the other verbatim |
| Normalize.DealerCodeIdempotent | main.py:243-254 | no code is itself a listed location, so mapping a code again changes nothing |
| Normalize.MonthKey | main.py:270 | the key is the first three characters of the stripped Fiscal Month text (all of it when shorter); a missing cell reads as "nan" |
| Normalize.MonthKeyMatches | main.py:270 | a row falls under a three-letter month exactly when its stripped text starts with it |
| Normalize.CellText | main.py:270-271 | a present cell reads as its own text; the text is "nan" exactly when the cell is missing or holds "nan", so `astype(str)` cannot tell the two apart |
| Normalize.ArbitrationCell | main.py:271 | the ID is missing exactly when its text is "nan" or empty, otherwise it is the text verbatim |
| Normalize.IsArb | main.py:313-317 | `is_arb` holds exactly when the value is present and its stripped, upper-cased text starts with "ARB"; the "NAN" test never excludes anything more |
| Normalize.ArbitrationIdCounts | main.py:271 | a row counts as arbitration exactly when its ID cell is present and its stripped, upper-cased text starts with "ARB" |
| Normalize.UnpaddedArbitrationId | main.py:313-317 | for an unpadded ID the test is the upper-cased first three characters being A, R, B |
| Normalize.ArbitrationIdCounted | main.py:313-317 | "arb-2201" counts: the prefix test ignores case |
| Normalize.ArbitrationIdNotCounted | main.py:313-317 | "-" and "2201" do not count |
| Normalize.NotArbitrationId | main.py:313-317 | an unpadded ID shorter than three characters, or whose first character is not `a` or `A`, does not count |
| Normalize.MissingArbitrationId | main.py:271 | an empty cell, the text "nan" and a missing cell all read as no ID and do not count |
| Normalize.SummaryDivision | main.py:101-102 | a row is kept exactly when its stripped Division text is neither "" nor "nan", and then its division is that stripped text |
| Normalize.SummaryDivisionNotBlank | main.py:101-102 | a kept division is non-blank and already stripped |
| Text.Trim | main.py:101 | `strip()` is no longer than its input, has no white space at either end, and is empty exactly when the input is all white space |
| Text.TrimIsMiddle | main.py:101 | `strip()` is a middle slice of its input, with only white space before and after it |
| Grouping.SortedDivisions | main.py:273 | the result is strictly ascending and holds exactly the present, non-blank keys |
| Grouping.DivisionListUnique | main.py:273 | two division lists of the same keys are equal: the rows determine the list |
| Grouping.SortedIsDistinct | main.py:273 | a strictly ascending list has no duplicates |
| Text.LessTotal | main.py:273 | `sorted` on strings is total: two different texts are ordered one way or the other |
| Text.LessTransitive | main.py:273 | the string order is transitive |
| Grouping.GroupSum | main.py:281-283 | the map has exactly the keys present on some row, and reading a key (0 when absent, as after the left merge and `fillna(0)`) gives the sum of its rows |
| Grouping.ColumnTotal | main.py:289-291 | the loop's total is the column summed over the lines |
| Grouping.ColumnTotalIsKeptSum | main.py:289-291 | a column of per-division group sums totals to the sum over every entry with a real division |
| Grouping.KeyedSumAbsent | main.py:285-287 | a division with no row reads 0 |
| Grouping.KeyedSumAtLeast | main.py:281-283 | with non-negative values a group sum is at least each of its entries |
| Warranty.GroupedMonthIsCell | main.py:278-286 | filtering to a month and grouping by dealer code gives, for every division, the amount summed over its rows of that month |
| Warranty.CellWithoutRows | main.py:284-287 | a division with no row in a month reads 0 there |
| Warranty.OtherMonthIgnored | main.py:270-279 | a row whose month key is not Apr…Dec changes no line of a Credit or Debit table |
| Warranty.MonthColumnOf | main.py:278-286 | one month's column aligned with the division list is the cell of each division, zeros when no row has that month |
| Warranty.MonthColumns | main.py:278-286 | the loop over the months yields one such column per month |
| Warranty.AcrossColumns | main.py:287-288 | reading the month columns across one line gives that division's nine cells |
| Warranty.AppendGrandTotal | main.py:289-292 | the table is the lines followed by one Grand Total line summing every column |
| Warranty.TotalledPivot | main.py:277-310 | the Credit or Debit table built by the loops equals the specification table |
| Warranty.ArbitrationPivot | main.py:319-342 | the Arbitration table built by the loops equals the specification table |
| Warranty.ProcessWarranty | main.py:269-344 | the dealer list is the division list of the normalised rows, and the three tables are built from it |
| Warranty.MonthlyTableTotals | main.py:287-292 | one line per listed division in list order, then Grand Total last; every line, Grand Total included, has nine cells and a Total that is their sum |
| Warranty.TotalOfTotals | main.py:288-291 | when every line's Total is its month sum, the Grand Total's Total is the sum of its month cells |
| Warranty.MonthlyGrandTotal | main.py:289-292 | each month of the Credit or Debit Grand Total is the amount of every row of that month with a real division, counted once |
| Warranty.ArbitrationGrandTotal | main.py:339-342 | each month of the Arbitration Grand Total is the debit amount of every ARB row of that month with a real division |
| Warranty.TotalDebitOf | main.py:334-336 | the joined Total Debit is 0 for Grand Total and for a division with no Debit line (`fillna(0)`); otherwise, when not 0, it is the Total Debit of some Debit line of that division |
| Warranty.TotalDebitFinds | main.py:334-335 | for a division not named Grand Total and listed once, the join finds the Total Debit of its line |
| Warranty.PendingIsResidual | main.py:334-336 | Pending Claim Arbitration of a division is its Total Debit minus its monthly arbitration sum, unclamped; 0 stands for Total Debit for a division named Grand Total |
| Warranty.ArbitratedWithinDebit | main.py:326-327 | with non-negative debits, an arbitration cell lies between 0 and the debit cell |
| Warranty.PendingNonNegative | main.py:326-336 | with non-negative debits, the residual of a division not named Grand Total is not negative (a division named Grand Total reads a Total Debit of 0, so its residual can be) |
| Warranty.PendingGrandTotal | main.py:334-342 | when no division is named Grand Total, the Grand Total residual is the Debit Grand Total's Total Debit minus the arbitration Grand Total months |
| Warranty.PendingCanBeNegative | main.py:336 | the residual is not clamped: a single -50 April debit leaves -50 |
| Warranty.ExampleNormalised | main.py:269-271 | the AMRAVATI/CHIKHALI rows normalise to codes AMT and CHI with keys Apr and May |
| Warranty.ExampleDivisions | main.py:273 | the only division list of those rows is AMT, CHI |
| Warranty.CreditExample | main.py:276-292 | the Credit table of those rows is AMT 150 in Apr, CHI 30 in May, Grand Total 150, 30 and 180 |
| Summaries.WeightedKeys | main.py:208-209 | the group-by entries carry exactly the cleaned divisions |
| Summaries.ListedDivisionsAreClean | main.py:204-208 | a listed division is stripped, non-blank, not "nan", and the cleaned Division of some row |
| Summaries.ListedDivisionHasRows | main.py:208-209 | a listed division counts at least one row |
| Summaries.GrandTotalIsRowsTotal | main.py:219-226 | a column of per-division sums totals to the sum over every kept row |
| Summaries.CurrentMonthSummary | main.py:204-226 | the divisions are the division list of the cleaned rows, and the table is one line each plus the Grand Total |
| Summaries.CurrentMonthLines | main.py:207-217 | the loop over the sorted divisions builds one line per listed division, in list order, equal to the per-division lines whose totals the lemmas below state |
| Summaries.CurrentMonthTotals | main.py:210-216 | on every line, Grand Total included, Total Pending Claims is spares count plus labour count |
| Summaries.CurrentMonthGrandTotals | main.py:219-226 | the Grand Total counts every kept claim's filled spares and labour cells once |
| Summaries.CompensationSummary | main.py:149-182 | the divisions are the division list of the cleaned rows, and the table is one line each plus the Grand Total |
| Summaries.CompensationLines | main.py:161-171 | the loop over the sorted divisions builds one line per listed division, in list order, equal to the per-division lines whose totals the lemmas below state |
| Summaries.CompensationAverage | main.py:162-171 | every line counts at least one claim, and its Avg No. of Days is its total days over its claim count |
| Summaries.CompensationGrandTotals | main.py:173-181 | the count and amount columns of the Grand Total add up every kept claim once |
| Summaries.MeanOfAverages | main.py:177-178 | the Grand Total average computed line by line is the mean of the division averages, 0 when there are none |
| Summaries.AvgSumWithin | main.py:178 | the averages' sum lies between count × lower bound and count × upper bound |
| Summaries.MeanOfMeansWithin | main.py:178 | the Grand Total average lies between the smallest and largest division average |
| Summaries.MeanOfMeansIsNotPooled | main.py:170-178 | for any two different clean division names a and b, one claim of 9 days in a and two of 0 days in b give 3 claims, 9 days in all and a Grand Total average of 4.5, not the pooled 3 |
| Summaries.UnevenDivisionList | main.py:162 | for a before b in string order, [a, b] is the division list of those three claims |
| Summaries.PrApprovalSummary | main.py:99-124 | the divisions are the division list of the cleaned rows, and the table is one line each plus the Grand Total |
| Summaries.PrApprovalLines | main.py:110-116 | the loop over the sorted divisions builds one line per listed division, in list order, equal to the per-division lines whose totals the lemmas below state |
| Summaries.PrApprovalGrandTotals | main.py:111-123 | each line counts at least one request, and the Grand Total counts and sums every kept request once |
| Export.ExportTypeOf | main.py:603-616 | a request without a type, or with "credit", selects Credit; each other known name selects its table; any other name selects PR Approval |
| Export.ExportRows | main.py:602-624 | no data exactly for a missing or empty table; the whole table for a request without a division or with All or Grand Total; for any other division the filtered lines, every one naming it or Grand Total |
| Export.Selected | main.py:622 | the filtered sheet is never longer than the table, and every line on it names the division or Grand Total |
| Export.SelectedMembers | main.py:621-622 | a line is exported exactly when it is in the table and names the division or Grand Total |
| Export.SelectedAppend | main.py:622 | filtering keeps table order (it distributes over concatenation) |
| Export.SelectedIdempotent | main.py:622 | filtering twice is filtering once |
| Export.ExportListedDivision | main.py:621-622 | when no division line is named Grand Total and the chosen division is neither All nor Grand Total, exporting a listed division yields exactly that line then the Grand Total line |
| Export.ExportUnlistedDivision | main.py:621-622 | when no division line is named Grand Total and the chosen division is neither All nor Grand Total, exporting an unlisted division yields the Grand Total line alone |
| Export.ExportMonthlyDivision | main.py:621-622 | when no division is named Grand Total and the chosen one is not All, the Credit or Debit sheet of a listed division is its line and the Grand Total line |
| Export.ExportCurrentMonthDivision | main.py:621-622 | when no division is named Grand Total and the chosen one is not All, the Current Month sheet of a listed division is its line and the Grand Total line |

## Left out

- File discovery, `pd.read_excel` and the sheet names (main.py:27-63 and the loaders): filesystem and library I/O. The model starts from rows already read.
- The try/except wrappers that return `None` tuples on an exception: no exception arises in the model.
- The missing-column branches are left out: the required-column checks and the defaults `""` and `0` for absent warranty columns (main.py:256-267), and the branches that skip a missing Compensation or PR Approval column. Every modelled sheet has all of its columns.
- `pd.to_numeric(..., errors="coerce").fillna(0)`: amounts arrive as parsed integers, with a bad cell already read as 0. Current Month counts the filled cells and parses no number.
- Floating point: amounts are unbounded `int` and averages are exact `real`, so rounding and overflow are not modelled.
- Cell types other than text: a Dealer Location, Fiscal Month, arbitration ID or Division cell is modelled as present text or missing. What `astype(str)` prints for a date or number is not modelled.
- Text.Upper: only upper-cases ASCII letters, whereas Python's `str.upper()` covers all of Unicode. Only the "ARB" prefix test uses it.
- Summaries.CompensationTable: for an empty table the source's Grand Total line has only its Division cell. The model fills the numeric cells with 0. The same holds for Summaries.PrApprovalTable.
- The FastAPI app, CORS, the startup hook that fills the global data and the dashboard HTML/JS: serving code.
- The `/api/data` conversion of missing numbers to 0, the openpyxl styling, the workbook streaming and the file name: serialisation.
- The module-level lookup of a misspelled global whose `NameError` is swallowed (main.py:563-567): it assigns nothing and has no effect on any table.
- The export of a table without a Division column. Every modelled table has one, and the filter is not applied in the source either.
