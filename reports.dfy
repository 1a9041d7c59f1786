/**
 * The monthly report page: it asks the store for one row per driver for the
 * chosen month, sums four money columns into totals, and exports the rows as
 * comma-separated text.
 *
 * Money is counted in whole paise (hundredths of a rupee), so `toFixed(2)`
 * has an exact meaning here.
 */
module Reports {
  import opened Wrappers
  import opened Text

  /** One row of `get_monthly_report`; the four amounts are in paise. */
  datatype MonthlyReport = MonthlyReport(
    driverName: string,
    vehicleReg: string,
    totalEarnings: int,
    cngSpend: int,
    otherExpenses: int,
    profit: int,
    daysWorked: nat)

  datatype Totals = Totals(earnings: int, cng: int, other: int, profit: int)

  const NoTotals := Totals(0, 0, 0, 0)

  // ---------------------------------------------------------------------------
  // Totals
  // ---------------------------------------------------------------------------

  /** One step of the page's `reduce`. */
  function Accumulate(acc: Totals, r: MonthlyReport): Totals {
    Totals(acc.earnings + r.totalEarnings, acc.cng + r.cngSpend, acc.other + r.otherExpenses, acc.profit + r.profit)
  }

  /** `rows.reduce(Accumulate, acc)`: a left fold over the rows in order. */
  function FoldTotals(acc: Totals, rows: seq<MonthlyReport>): Totals
    decreases |rows|
  {
    if rows == [] then acc else FoldTotals(Accumulate(acc, rows[0]), rows[1..])
  }

  function Earnings(r: MonthlyReport): int { r.totalEarnings }
  function Cng(r: MonthlyReport): int { r.cngSpend }
  function Other(r: MonthlyReport): int { r.otherExpenses }
  function Profit(r: MonthlyReport): int { r.profit }

  /** The sum of one column, as an independent reference for the fold. */
  function ColumnSum(rows: seq<MonthlyReport>, column: MonthlyReport -> int): int {
    if rows == [] then 0 else column(rows[0]) + ColumnSum(rows[1..], column)
  }

  lemma {:induction false} ColumnSumAppend(a: seq<MonthlyReport>, b: seq<MonthlyReport>, column: MonthlyReport -> int)
    ensures ColumnSum(a + b, column) == ColumnSum(a, column) + ColumnSum(b, column)
  {
    if a == [] {
      assert a + b == b;
    } else {
      assert (a + b)[1..] == a[1..] + b;
      ColumnSumAppend(a[1..], b, column);
    }
  }

  /** The fold adds each column's sum to the starting totals. */
  lemma {:induction false} FoldIsColumnSums(acc: Totals, rows: seq<MonthlyReport>)
    ensures FoldTotals(acc, rows) == Totals(acc.earnings + ColumnSum(rows, Earnings), acc.cng + ColumnSum(rows, Cng),
                                            acc.other + ColumnSum(rows, Other), acc.profit + ColumnSum(rows, Profit))
    decreases |rows|
  {
    if rows != [] {
      FoldIsColumnSums(Accumulate(acc, rows[0]), rows[1..]);
    }
  }

  /** Totals of a report are the totals of its parts added together. */
  lemma TotalsSplit(a: seq<MonthlyReport>, b: seq<MonthlyReport>)
    ensures var t := FoldTotals(NoTotals, a + b);
            var ta := FoldTotals(NoTotals, a);
            var tb := FoldTotals(NoTotals, b);
            t == Totals(ta.earnings + tb.earnings, ta.cng + tb.cng, ta.other + tb.other, ta.profit + tb.profit)
  {
    FoldIsColumnSums(NoTotals, a + b);
    FoldIsColumnSums(NoTotals, a);
    FoldIsColumnSums(NoTotals, b);
    ColumnSumAppend(a, b, Earnings);
    ColumnSumAppend(a, b, Cng);
    ColumnSumAppend(a, b, Other);
    ColumnSumAppend(a, b, Profit);
  }

  // ---------------------------------------------------------------------------
  // The page's state
  // ---------------------------------------------------------------------------

  class ReportsPage {
    var month: string              // "YYYY-MM", or "" before a month is picked
    var report: seq<MonthlyReport>
    var totals: Totals
    var loadingReport: bool

    constructor ()
      ensures month == "" && report == [] && totals == NoTotals && !loadingReport
    {
      month, report, totals, loadingReport := "", [], NoTotals, false;
    }

    method SelectMonth(m: string)
      modifies this
      ensures month == m && report == old(report) && totals == old(totals) && loadingReport == old(loadingReport)
    {
      month := m;
    }

    /**
     * `generateReport`. Without a month nothing is requested and the page
     * alerts. Otherwise `startDate` is the first of the month; an error
     * alerts and keeps the previous report and totals; a reply replaces the
     * report (`null` reads as empty) and, unless it was `null`, the totals.
     */
    method GenerateReport(reply: Result<Option<seq<MonthlyReport>>, string>)
        returns (startDate: Option<string>, alert: Option<string>)
      modifies this
      ensures month == old(month)
      ensures old(month) == "" ==>
                startDate.None? && alert == Some("Please select a month") &&
                report == old(report) && totals == old(totals) && loadingReport == old(loadingReport)
      ensures old(month) != "" ==> startDate == Some(month + "-01") && !loadingReport
      ensures old(month) != "" && reply.Err? ==>
                alert == Some("Error generating report: " + reply.error) && report == old(report) && totals == old(totals)
      ensures old(month) != "" && reply.Ok? ==>
                alert.None? && report == reply.value.GetOr([]) &&
                totals == (if reply.value.Some? then FoldTotals(NoTotals, reply.value.value) else old(totals))
    {
      if month == "" {
        startDate, alert := None, Some("Please select a month");
        return;
      }
      loadingReport := true;
      startDate := Some(month + "-01");
      alert := None;
      match reply {
        case Err(message) =>
          alert := Some("Error generating report: " + message);
        case Ok(data) =>
          report := data.GetOr([]);
          if data.Some? {
            totals := FoldTotals(NoTotals, data.value);
          }
      }
      loadingReport := false;
    }
  }

  // ---------------------------------------------------------------------------
  // Export
  // ---------------------------------------------------------------------------

  const Headers: seq<string> :=
    ["Driver", "Vehicle", "Earnings (₹)", "CNG Spend (₹)", "Other Expenses (₹)", "Profit (₹)", "Days Worked"]

  /** Two decimal digits, tens first. */
  function TwoDigits(n: nat): (r: string)
    requires n < 100
    ensures |r| == 2 && IsDigits(r)
  {
    [DigitChar(n / 10), DigitChar(n % 10)]
  }

  lemma TwoDigitsValue(n: nat)
    requires n < 100
    ensures DigitsValue(TwoDigits(n)) == n
  {
    var r := TwoDigits(n);
    assert r[..1] == [DigitChar(n / 10)];
    assert r[..1][..0] == [];
    assert DigitsValue(r[..1]) == n / 10;
  }

  /** `toFixed(2)` of a non-negative amount in paise: rupees, a point, two digits. */
  function Unsigned2(m: nat): (r: string)
    ensures |r| >= 4 && r[|r| - 3] == '.' && '0' <= r[0] <= '9'
    ensures forall k :: 0 <= k < |r| ==> r[k] == '.' || '0' <= r[k] <= '9'
  {
    NatToString(m / 100) + "." + TwoDigits(m % 100)
  }

  /** `(paise / 100).toFixed(2)`: an optional minus sign before the unsigned rendering. */
  function Fixed2(paise: int): (r: string)
    ensures |r| >= 4 && r[|r| - 3] == '.'
    ensures forall k :: 0 <= k < |r| ==> r[k] == '-' || r[k] == '.' || '0' <= r[k] <= '9'
  {
    if paise < 0 then "-" + Unsigned2(-paise) else Unsigned2(paise)
  }

  /** Reads an unsigned `toFixed(2)` rendering back into paise. */
  function ParseUnsigned2(s: string): Option<nat> {
    if |s| < 4 || s[|s| - 3] != '.' || !IsDigits(s[..|s| - 3]) || !IsDigits(s[|s| - 2..]) then None
    else Some(DigitsValue(s[..|s| - 3]) * 100 + DigitsValue(s[|s| - 2..]))
  }

  /** Reads a `toFixed(2)` rendering, with its optional minus sign, back into paise. */
  function ParseFixed2(s: string): Option<int> {
    if |s| > 0 && s[0] == '-' then
      match ParseUnsigned2(s[1..])
      case Some(m) => Some(-(m as int))
      case None => None
    else
      match ParseUnsigned2(s)
      case Some(m) => Some(m as int)
      case None => None
  }

  lemma Unsigned2RoundTrip(m: nat)
    ensures ParseUnsigned2(Unsigned2(m)) == Some(m)
  {
    var s := Unsigned2(m);
    assert s[..|s| - 3] == NatToString(m / 100);
    assert s[|s| - 2..] == TwoDigits(m % 100);
    NatToStringValue(m / 100);
    TwoDigitsValue(m % 100);
  }

  lemma NegativeRoundTrip(paise: int)
    requires paise < 0
    ensures ParseFixed2(Fixed2(paise)) == Some(paise)
  {
    Unsigned2RoundTrip(-paise);
    ParseMinus(Unsigned2(-paise), -paise);
  }

  /** A minus sign before an unsigned rendering of `m` reads back as `-m`. */
  lemma ParseMinus(u: string, m: nat)
    requires ParseUnsigned2(u) == Some(m)
    ensures ParseFixed2("-" + u) == Some(-(m as int))
  {
    assert ("-" + u)[1..] == u;
  }

  lemma NonNegativeRoundTrip(paise: int)
    requires paise >= 0
    ensures ParseFixed2(Fixed2(paise)) == Some(paise)
  {
    Unsigned2RoundTrip(paise);
  }

  /** The rendering loses nothing: it reads back as the same number of paise. */
  lemma Fixed2RoundTrip(paise: int)
    ensures ParseFixed2(Fixed2(paise)) == Some(paise)
  {
    if paise < 0 {
      NegativeRoundTrip(paise);
    } else {
      NonNegativeRoundTrip(paise);
    }
  }

  /** The seven cells of one exported line. */
  function Cells(r: MonthlyReport): seq<string> {
    [r.driverName, r.vehicleReg, Fixed2(r.totalEarnings), Fixed2(r.cngSpend), Fixed2(r.otherExpenses),
     Fixed2(r.profit), NatToString(r.daysWorked)]
  }

  function Lines(report: seq<MonthlyReport>): (lines: seq<string>)
    ensures |lines| == |report|
  {
    seq(|report|, i requires 0 <= i < |report| => Join(Cells(report[i]), ','))
  }

  /** The exported text: the header line, then one line per row, joined with newlines and never quoted. */
  function Csv(report: seq<MonthlyReport>): string {
    Join(CsvParts(report), '\n')
  }

  /** The lines of the export: the header, then one line per row. */
  function CsvParts(report: seq<MonthlyReport>): seq<string> {
    [Join(Headers, ',')] + Lines(report)
  }

  /** `exportCSV`: nothing to export for an empty report. */
  function ExportCsv(report: seq<MonthlyReport>): (r: Option<string>)
    ensures r.None? <==> report == []
    ensures r.Some? ==> StartsWith(r.value, Join(Headers, ','))
  {
    if |report| == 0 then None else Some(Csv(report))
  }

  predicate NoNewline(r: MonthlyReport) {
    '\n' !in r.driverName && '\n' !in r.vehicleReg
  }

  predicate NoComma(r: MonthlyReport) {
    ',' !in r.driverName && ',' !in r.vehicleReg
  }

  lemma CellsWithout(r: MonthlyReport, c: char)
    requires c == ',' || c == '\n'
    ensures forall k :: 2 <= k < 7 ==> c !in Cells(r)[k]
  {
  }

  lemma LineWithoutNewline(r: MonthlyReport)
    requires NoNewline(r)
    ensures '\n' !in Join(Cells(r), ',')
  {
    CellsWithout(r, '\n');
    JoinAbsent(Cells(r), ',', '\n');
  }

  /** Without newlines in names and plates, the text splits back into the header and one line per row. */
  lemma CsvLines(report: seq<MonthlyReport>)
    requires forall i :: 0 <= i < |report| ==> NoNewline(report[i])
    ensures Split(Csv(report), '\n') == [Join(Headers, ',')] + Lines(report)
    ensures |Split(Csv(report), '\n')| == |report| + 1
  {
    CsvPartsWithoutNewline(report);
    SplitJoin(CsvParts(report), '\n');
  }

  lemma CsvPartsWithoutNewline(report: seq<MonthlyReport>)
    requires forall i :: 0 <= i < |report| ==> NoNewline(report[i])
    ensures forall k :: 0 <= k < |CsvParts(report)| ==> '\n' !in CsvParts(report)[k]
  {
    var parts := CsvParts(report);
    HeaderWithoutNewline();
    LinesWithoutNewline(report);
    forall k | 0 <= k < |parts|
      ensures '\n' !in parts[k]
    {
      if k > 0 {
        assert parts[k] == Lines(report)[k - 1];
      }
    }
  }

  lemma LinesWithoutNewline(report: seq<MonthlyReport>)
    requires forall i :: 0 <= i < |report| ==> NoNewline(report[i])
    ensures forall k :: 0 <= k < |Lines(report)| ==> '\n' !in Lines(report)[k]
  {
    forall k | 0 <= k < |report|
      ensures '\n' !in Lines(report)[k]
    {
      LineWithoutNewline(report[k]);
    }
  }

  lemma HeaderWithoutNewline()
    ensures '\n' !in Join(Headers, ',')
  {
    JoinAbsent(Headers, ',', '\n');
  }

  /** Every comma inside a name or plate adds a column to that row's line. */
  lemma LineColumns(r: MonthlyReport)
    ensures |Split(Join(Cells(r), ','), ',')| == 7 + Count(r.driverName, ',') + Count(r.vehicleReg, ',')
  {
    var cells := Cells(r);
    CellsWithout(r, ',');
    CountAllAbsent(cells[2..], ',');
    assert cells[1..][1..] == cells[2..];
    assert CountAll(cells, ',') == Count(r.driverName, ',') + Count(r.vehicleReg, ',') + CountAll(cells[2..], ',');
    ColumnCount(cells, ',');
  }

  /** Without commas in names and plates, each line splits back into exactly its seven cells. */
  lemma LineRoundTrip(r: MonthlyReport)
    requires NoComma(r)
    ensures Split(Join(Cells(r), ','), ',') == Cells(r)
  {
    CellsWithout(r, ',');
    SplitJoin(Cells(r), ',');
  }

  /** A driver named "Rao, K" exports as eight columns, shifting every amount one place right. */
  lemma CommaShiftsColumns(r: MonthlyReport)
    requires r.driverName == "Rao, K" && ',' !in r.vehicleReg
    ensures |Split(Join(Cells(r), ','), ',')| == 8
  {
    LineColumns(r);
    CountAbsent(r.vehicleReg, ',');
    assert r.driverName == "Rao" + ", K";
    CountAppend("Rao", ", K", ',');
    CountAbsent("Rao", ',');
    assert ", K"[1..] == " K";
    CountAbsent(" K", ',');
  }
}
