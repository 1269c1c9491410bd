/**
 * The organisation's payroll page: the audit and tax reports it downloads as CSV
 * text, and the net salary its breakdown table shows. A report is the header line and
 * one line per employee, each line its cells joined by commas.
 */
module OrgPayroll {
  import opened Wrappers
  import opened Text
  import opened JsNumber
  import opened PayrollCalculator
  import opened UserRoutes
  import opened AppContext

  /** A cell of a report row: a number, a text, or `undefined`. */
  datatype Cell = Num(x: real) | Txt(s: string) | Undefined

  /** The text `Array.prototype.join` gives a cell: `undefined` becomes the empty string. */
  function CellText(c: Cell): string
  {
    match c
    case Num(x) => ShowNumber(x)
    case Txt(s) => s
    case Undefined => ""
  }

  function CellTexts(row: seq<Cell>): (ts: seq<string>)
    ensures |ts| == |row|
    ensures forall i :: 0 <= i < |row| ==> ts[i] == CellText(row[i])
  {
    if row == [] then [] else [CellText(row[0])] + CellTexts(row[1..])
  }

  /** `row.join(',')` */
  function RowText(row: seq<Cell>): string
  {
    Join(CellTexts(row), ",")
  }

  function RowTexts(rows: seq<seq<Cell>>): (ls: seq<string>)
    ensures |ls| == |rows|
    ensures forall k :: 0 <= k < |rows| ==> ls[k] == RowText(rows[k])
  {
    if rows == [] then [] else [RowText(rows[0])] + RowTexts(rows[1..])
  }

  /** `csvContent`: the header line, then a line per row, joined by line breaks. */
  function CsvContent(headers: seq<string>, rows: seq<seq<Cell>>): string
  {
    Join([Join(headers, ",")] + RowTexts(rows), "\n")
  }

  const AuditHeaders: seq<string> := ["Employee ID", "Name", "Role", "Status", "Gross Salary", "Employee SSF (11%)",
                                      "Employer SSF (20%)", "Monthly Tax", "Net Salary", "Daily Payout Limit"]

  const TaxHeaders: seq<string> := ["Employee ID", "Name", "Annual Gross Income", "Annual SSF Deduction",
                                    "Taxable Income (Est)", "Annual Tax Liability", "Monthly Tax Deducted"]

  /** `emp.id` as a cell. */
  function IdCell(id: Option<EmpId>): Cell
  {
    match id
    case None => Undefined
    case Some(NumId(n)) => Num(n)
    case Some(StrId(s)) => Txt(s)
  }

  /** `"${emp.name}"`: the name between double quotes, inner quotes left as they are. */
  function Quoted(name: string): string
  {
    "\"" + name + "\""
  }

  /** The stored figures the reports read. */
  datatype Figure = EmployeeSSF | EmployerSSF | MonthlyTax | NetSalary | DailyPayout

  function FigureOf(p: StoredPayroll, f: Figure): int
  {
    match f
    case EmployeeSSF => p.employeeSSF
    case EmployerSSF => p.employerSSF
    case MonthlyTax => p.monthlyTax
    case NetSalary => p.netSalary
    case DailyPayout => p.dailyPayout
  }

  /** `emp.payroll?.field || 0` for one of the stored figures. */
  function StoredOrZero(e: Employee, f: Figure): (x: real)
    ensures e.payroll.None? ==> x == 0.0
    ensures e.payroll.Some? ==> x == FigureOf(e.payroll.value, f) as real
  {
    if e.payroll.Some? then FigureOf(e.payroll.value, f) as real else 0.0
  }

  /** One row of the audit report. `emp.salary || 0` is the salary itself, which is 0 when it is falsy. */
  function AuditRow(e: Employee): (row: seq<Cell>)
    ensures |row| == |AuditHeaders|
  {
    [IdCell(e.id), Txt(Quoted(e.name)), Txt(e.role), Txt(e.status), Num(e.salary),
     Num(StoredOrZero(e, EmployeeSSF)), Num(StoredOrZero(e, EmployerSSF)),
     Num(StoredOrZero(e, MonthlyTax)), Num(StoredOrZero(e, NetSalary)),
     Num(StoredOrZero(e, DailyPayout))]
  }

  /** One row of the tax report: the annual figures are twelve times the monthly ones. */
  function TaxRow(e: Employee): (row: seq<Cell>)
    ensures |row| == |TaxHeaders|
  {
    var annualGross := e.salary * 12.0;
    var annualSSF := StoredOrZero(e, EmployeeSSF) * 12.0;
    var annualTax := StoredOrZero(e, MonthlyTax) * 12.0;
    [IdCell(e.id), Txt(Quoted(e.name)), Num(annualGross), Num(annualSSF), Num(annualGross - annualSSF),
     Num(annualTax), Num(StoredOrZero(e, MonthlyTax))]
  }

  function AuditRows(emps: seq<Employee>): (rows: seq<seq<Cell>>)
    ensures |rows| == |emps|
    ensures forall k :: 0 <= k < |emps| ==> rows[k] == AuditRow(emps[k])
  {
    if emps == [] then [] else [AuditRow(emps[0])] + AuditRows(emps[1..])
  }

  function TaxRows(emps: seq<Employee>): (rows: seq<seq<Cell>>)
    ensures |rows| == |emps|
    ensures forall k :: 0 <= k < |emps| ==> rows[k] == TaxRow(emps[k])
  {
    if emps == [] then [] else [TaxRow(emps[0])] + TaxRows(emps[1..])
  }

  /** `handleAuditReport`'s text. */
  function AuditReport(emps: seq<Employee>): string
  {
    CsvContent(AuditHeaders, AuditRows(emps))
  }

  /** `handleTaxReport`'s text. */
  function TaxReport(emps: seq<Employee>): string
  {
    CsvContent(TaxHeaders, TaxRows(emps))
  }

  /** The audit report's file name, dated by the time stamp's date part. */
  function AuditFileName(nowIso: string): string
  {
    "Payroll_Audit_Report_" + DatePart(nowIso) + ".csv"
  }

  function TaxFileName(nowIso: string): string
  {
    "Tax_Report_" + DatePart(nowIso) + ".csv"
  }

  /**
   * The net salary the breakdown table shows: the stored one when there is a payroll
   * block (a stored 0 is shown as 0), otherwise 80 % of a non-zero salary, otherwise 0.
   */
  function DisplayedNet(e: Employee): (x: real)
    ensures e.payroll.Some? ==> x == e.payroll.value.netSalary as real
    ensures e.payroll.None? ==> x == 0.8 * e.salary
  {
    if e.payroll.Some? then e.payroll.value.netSalary as real
    else if e.salary != 0.0 then e.salary * 0.8
    else 0.0
  }

  // ---------------------------------------------------------------------------
  // Properties

  /** No cell text of the row holds the character. */
  predicate CellsAvoid(row: seq<Cell>, c: char)
  {
    forall i :: 0 <= i < |row| ==> c !in CellText(row[i])
  }

  /**
   * Reading a report back: when no header and no cell holds a comma or a line break and
   * no row is empty, its lines are the header line and one line per row, in order, and
   * each line splits into exactly the texts of its cells.
   */
  lemma CsvRoundTrip(headers: seq<string>, rows: seq<seq<Cell>>)
    requires |headers| >= 1 && forall i :: 0 <= i < |headers| ==> ',' !in headers[i] && '\n' !in headers[i]
    requires forall k :: 0 <= k < |rows| ==> |rows[k]| >= 1 && CellsAvoid(rows[k], ',') && CellsAvoid(rows[k], '\n')
    ensures var lines := Split(CsvContent(headers, rows), '\n');
      && |lines| == |rows| + 1
      && Split(lines[0], ',') == headers
      && forall k :: 0 <= k < |rows| ==> Split(lines[k + 1], ',') == CellTexts(rows[k])
  {
    var lines := [Join(headers, ",")] + RowTexts(rows);
    JoinAvoids(headers, ",", '\n');
    forall k | 0 <= k < |rows|
      ensures '\n' !in RowText(rows[k]) && Split(RowText(rows[k]), ',') == CellTexts(rows[k])
    {
      JoinAvoids(CellTexts(rows[k]), ",", '\n');
      SplitJoin(CellTexts(rows[k]), ',');
    }
    assert forall k :: 0 <= k < |lines| ==> '\n' !in lines[k] by {
      forall k | 0 <= k < |lines|
        ensures '\n' !in lines[k]
      {
        if k > 0 {
          assert lines[k] == RowText(rows[k - 1]);
        }
      }
    }
    SplitJoin(lines, '\n');
    SplitJoin(headers, ',');
    assert forall k :: 0 <= k < |rows| ==> lines[k + 1] == RowText(rows[k]);
  }

  /** The report of no employees is the header line alone. */
  lemma EmptyReport()
    ensures AuditReport([]) == Join(AuditHeaders, ",")
  {
  }

  /** The number cells of an audit row are plain number text. */
  lemma NumberCellsPlain(e: Employee, c: char)
    requires c == ',' || c == '\n'
    ensures forall i :: 4 <= i < |AuditRow(e)| ==> c !in CellText(AuditRow(e)[i])
  {
    var row := AuditRow(e);
    forall i | 4 <= i < |row|
      ensures c !in CellText(row[i])
    {
      ShowNumberPlain(row[i].x);
      NumberTextAvoids(ShowNumber(row[i].x), c);
    }
  }

  /** Only the id, name, role and status can carry a comma or a line break into an audit line. */
  lemma AuditRowCellsAvoid(e: Employee, c: char)
    requires c == ',' || c == '\n'
    requires c !in CellText(IdCell(e.id)) && c !in e.name && c !in e.role && c !in e.status
    ensures CellsAvoid(AuditRow(e), c)
  {
    NumberCellsPlain(e, c);
  }

  /** One employee's line of the audit report. */
  function AuditReportLine(e: Employee): string
  {
    RowText(AuditRow(e))
  }

  /** An employee without commas in the id, name, role and status gets an audit line of exactly the header's ten fields. */
  lemma AuditLineFields(e: Employee)
    requires ',' !in CellText(IdCell(e.id)) && ',' !in e.name && ',' !in e.role && ',' !in e.status
    ensures |Split(AuditReportLine(e), ',')| == |AuditHeaders|
  {
    AuditRowCellsAvoid(e, ',');
    SplitJoin(CellTexts(AuditRow(e)), ',');
  }

  /** The quotes around a name do not protect a comma in it: such a line splits into one field more than the header. */
  lemma CommaInNameShiftsColumns(e: Employee, a: string, b: string)
    requires e.name == a + "," + b && ',' !in a && ',' !in b
    requires ',' !in CellText(IdCell(e.id)) && ',' !in e.role && ',' !in e.status
    ensures |Split(AuditReportLine(e), ',')| == |AuditHeaders| + 1
  {
    var texts := CellTexts(AuditRow(e));
    var p := "\"" + a;
    var q := b + "\"";
    assert texts[1] == p + [','] + q;
    NumberCellsPlain(e, ',');
    SplitAfterCut(texts, 1, p, q, ',');
  }

  /** The tax row's arithmetic: taxable is gross less SSF, and the annual tax is twelve times the monthly cell. */
  lemma TaxRowArithmetic(e: Employee)
    ensures var row := TaxRow(e);
      && row[2] == Num(12.0 * e.salary)
      && row[4] == Num(row[2].x - row[3].x)
      && row[5] == Num(12.0 * row[6].x)
      && (e.payroll.None? ==> row[3] == Num(0.0) && row[5] == Num(0.0) && row[4] == row[2])
  {
  }

  /**
   * For a record that carries the calculator's block for its own salary, the report's
   * annual tax (twelve rounded months) is within 6 of the calculator's annual tax, and its
   * taxable estimate within 6 of the annual taxable income.
   */
  lemma TaxRowNearCalculator(e: Employee)
    requires e.payroll == Some(StoredFor(e.salary))
    ensures var row := TaxRow(e);
      && -6.0 < row[5].x - AnnualTax(e.salary) <= 6.0
      && -6.0 <= row[4].x - AnnualTaxable(e.salary) < 6.0
  {
    var g := e.salary;
    StoredMatchesCalculator(g);
    assert TaxRow(e)[5].x == 12.0 * Round(AnnualTax(g) / 12.0) as real;
    assert TaxRow(e)[4].x == 12.0 * g - 12.0 * Round(g * EmployeeSSFRate) as real;
  }

  /** The table's net salary: a stored 0 is shown as 0, and only a missing block falls back to 80 % of the salary. */
  lemma DisplayedNetCases(e: Employee)
    ensures e.payroll.Some? && e.payroll.value.netSalary == 0 ==> DisplayedNet(e) == 0.0
    ensures e.payroll.None? && e.salary == 60000.0 ==> DisplayedNet(e) == 48000.0
    ensures e.payroll == Some(StoredFor(60000.0)) ==> DisplayedNet(e) == 51810.0
  {
    StoredFor60000();
  }
}
