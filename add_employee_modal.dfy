/**
 * The add-employee dialog: the record the single-employee form submits, and the bulk
 * import, which reads a CSV text, skips its header line and blank lines, takes the
 * fields by position and fills in defaults. The text of each `Math.random()` id and
 * the current ISO time stamp are arguments.
 */
module AddEmployeeModal {
  import opened Wrappers
  import opened Text
  import opened JsNumber
  import opened AppContext

  /** The form's inputs, as text. */
  datatype FormData = FormData(
    name: string,
    email: string,
    phone: string,
    salary: string,
    role: string,
    salaryType: string,
    paymentType: string)

  const InitialForm: FormData := FormData("", "", "", "", "", "Monthly", "Bank Transfer")

  function AvatarUrl(seed: string): string
  {
    "https://api.dicebear.com/7.x/avataaars/svg?seed=" + seed
  }

  /**
   * `handleSubmit`'s record. The salary input is a required number input, so its text
   * is a number; the record is built without an `id`.
   */
  function SubmittedEmployee(form: FormData, nowIso: string): (e: Employee)
    requires ParseNumber(form.salary).Some?
    ensures e.id == None && e.payroll == None
    ensures e.status == "Active" && e.streaming
    ensures e.name == form.name && e.role == form.role && e.salary == ParseNumber(form.salary).value
    ensures e.email == Some(form.email) && e.phone == Some(form.phone)
    ensures e.salaryType == Some(form.salaryType) && e.paymentType == Some(form.paymentType)
  {
    Employee(None, form.name, form.role, "Active", ParseNumber(form.salary).value, true, DatePart(nowIso),
             AvatarUrl(form.name), Some(form.email), Some(form.phone), Some(form.salaryType), Some(form.paymentType), None)
  }

  // ---------------------------------------------------------------------------
  // The CSV import

  /** `lines.filter(line => line.trim())`: the lines that are not whitespace only, in order. */
  function NonBlank(lines: seq<string>): (r: seq<string>)
    ensures |r| <= |lines|
    ensures forall j :: 0 <= j < |r| ==> Trim(r[j]) != []
    ensures forall l :: l in r ==> l in lines
  {
    if lines == [] then []
    else (if Trim(lines[0]) != [] then [lines[0]] else []) + NonBlank(lines[1..])
  }

  /** `text.split('\n').slice(1)` filtered: the data lines after the header. */
  function DataLines(text: string): seq<string>
  {
    NonBlank(Split(text, '\n')[1..])
  }

  /** `.map(item => item.trim())` */
  function TrimAll(parts: seq<string>): (r: seq<string>)
    ensures |r| == |parts|
    ensures forall i :: 0 <= i < |parts| ==> r[i] == Trim(parts[i])
  {
    if parts == [] then [] else [Trim(parts[0])] + TrimAll(parts[1..])
  }

  /** The i-th element of a destructured array: `undefined` past its end. */
  function At(cells: seq<string>, i: nat): Option<string>
  {
    if i < |cells| then Some(cells[i]) else None
  }

  /** `x || fallback` for a string that may be absent. */
  function OrDefault(x: Option<string>, fallback: string): (r: string)
    ensures x.Some? && x.value != "" ==> r == x.value
    ensures x.None? || x.value == "" ==> r == fallback
  {
    if x.Some? && x.value != "" then x.value else fallback
  }

  /** `Number(salary) || 0`: an absent cell or text that is no number, or zero, give 0. */
  function SalaryOf(x: Option<string>): (r: real)
    ensures x.None? ==> r == 0.0
    ensures x.Some? && ParseNumber(x.value).None? ==> r == 0.0
  {
    if x.None? then 0.0 else ParseNumber(x.value).GetOr(0.0)
  }

  /** One data line: name, email, phone, salary, role, salaryType, paymentType by position. */
  function ParseRecord(line: string, randomText: string, today: string): (e: Employee)
    ensures e.id == Some(StrId("temp-" + randomText)) && e.payroll == None
    ensures e.status == "Active" && e.streaming
    ensures e.name != "" && e.role != "" && e.salaryType.Some? && e.paymentType.Some?
  {
    var cells := TrimAll(Split(line, ','));
    var name := At(cells, 0);
    Employee(
      Some(StrId("temp-" + randomText)),
      OrDefault(name, "Unknown"),
      OrDefault(At(cells, 4), "Employee"),
      "Active",
      SalaryOf(At(cells, 3)),
      true,
      today,
      AvatarUrl(OrDefault(name, "User")),
      At(cells, 1),
      At(cells, 2),
      Some(OrDefault(At(cells, 5), "Monthly")),
      Some(OrDefault(At(cells, 6), "Bank Transfer")),
      None)
  }

  /** `.map(...)` over the data lines; `random(i)` is the text of the i-th `Math.random()`. */
  function ParseLines(lines: seq<string>, random: nat -> string, today: string): (es: seq<Employee>)
    ensures |es| == |lines|
  {
    seq(|lines|, i requires 0 <= i < |lines| => ParseRecord(lines[i], random(i), today))
  }

  /** The whole parse: one record per data line, in order. */
  function ParseCsv(text: string, random: nat -> string, nowIso: string): (es: seq<Employee>)
    ensures |es| == |DataLines(text)|
  {
    ParseLines(DataLines(text), random, DatePart(nowIso))
  }

  /** `handleFileUpload` after the text is read: add the records when there is at least one. */
  method HandleFileUpload(app: AppState, text: string, random: nat -> string, nowIso: string) returns (added: bool)
    modifies app
    ensures added <==> |ParseCsv(text, random, nowIso)| > 0
    ensures added ==> app.employees == old(app.employees) + ParseCsv(text, random, nowIso)
    ensures !added ==> app.employees == old(app.employees)
    ensures app.user == old(app.user) && app.unlockRequests == old(app.unlockRequests)
    ensures app.auditLogs == old(app.auditLogs) && app.notifications == old(app.notifications)
  {
    var newEmployees := ParseCsv(text, random, nowIso);
    if |newEmployees| > 0 {
      app.AddEmployees(newEmployees);
      added := true;
    } else {
      added := false;
    }
  }

  /** `handleSubmit`: add the form's record. */
  method HandleSubmit(app: AppState, form: FormData, nowIso: string)
    requires ParseNumber(form.salary).Some?
    modifies app
    ensures app.employees == old(app.employees) + [SubmittedEmployee(form, nowIso)]
    ensures app.user == old(app.user) && app.unlockRequests == old(app.unlockRequests)
    ensures app.auditLogs == old(app.auditLogs) && app.notifications == old(app.notifications)
  {
    app.AddEmployee(SubmittedEmployee(form, nowIso));
  }

  // ---------------------------------------------------------------------------
  // Properties

  /** The first line is a header whatever it says: replacing it changes nothing. */
  lemma HeaderIgnored(h1: string, h2: string, body: string)
    requires '\n' !in h1 && '\n' !in h2
    ensures DataLines(h1 + "\n" + body) == DataLines(h2 + "\n" + body)
  {
    SplitAtFirst(h1, '\n', body);
    SplitAtFirst(h2, '\n', body);
  }

  /** A text of one line has a header only, and so no records. */
  lemma HeaderOnly(text: string, random: nat -> string, nowIso: string)
    requires '\n' !in text
    ensures ParseCsv(text, random, nowIso) == []
  {
    SplitFree(text, '\n');
  }

  /** Filtering keeps the order: the data lines of two blocks are those of the first, then those of the second. */
  lemma {:induction false} NonBlankAppend(a: seq<string>, b: seq<string>)
    ensures NonBlank(a + b) == NonBlank(a) + NonBlank(b)
  {
    if a == [] {
      assert a + b == b;
    } else {
      var ab := a + b;
      assert ab[0] == a[0] && ab[1..] == a[1..] + b;
      var head := if Trim(a[0]) != [] then [a[0]] else [];
      assert NonBlank(ab) == head + NonBlank(a[1..] + b);
      NonBlankAppend(a[1..], b);
      assert NonBlank(a) == head + NonBlank(a[1..]);
    }
  }

  /** A whitespace-only line is dropped, and any other line is kept. */
  lemma NonBlankOne(l: string)
    ensures NonBlank([l]) == if AllWhitespace(l) then [] else [l]
  {
    TrimEmptyIff(l);
  }

  /** The records' fields are the cells by position, once each cell is its own trim and holds no comma. */
  lemma ParseRecordPositional(cells: seq<string>, randomText: string, today: string)
    requires |cells| >= 7
    requires forall i :: 0 <= i < |cells| ==> ',' !in cells[i] && Trim(cells[i]) == cells[i]
    requires forall i :: 0 <= i < 7 ==> cells[i] != ""
    ensures var e := ParseRecord(Join(cells, ","), randomText, today);
      && e.name == cells[0] && e.email == Some(cells[1]) && e.phone == Some(cells[2])
      && e.role == cells[4] && e.salaryType == Some(cells[5]) && e.paymentType == Some(cells[6])
      && e.salary == ParseNumber(cells[3]).GetOr(0.0)
  {
    CellsOfJoin(cells);
    RecordOfCells(Join(cells, ","), randomText, today);
  }

  /** With seven non-empty cells, the record's fields are the cells by position. */
  lemma RecordOfCells(line: string, randomText: string, today: string)
    requires |TrimAll(Split(line, ','))| >= 7
    requires forall i :: 0 <= i < 7 ==> TrimAll(Split(line, ','))[i] != ""
    ensures var t, e := TrimAll(Split(line, ',')), ParseRecord(line, randomText, today);
      && e.name == t[0] && e.email == Some(t[1]) && e.phone == Some(t[2])
      && e.role == t[4] && e.salaryType == Some(t[5]) && e.paymentType == Some(t[6])
      && e.salary == ParseNumber(t[3]).GetOr(0.0)
  {
  }

  /** Joining trimmed, comma-free cells with commas and reading them back gives the cells. */
  lemma CellsOfJoin(cells: seq<string>)
    requires |cells| >= 1
    requires forall i :: 0 <= i < |cells| ==> ',' !in cells[i] && Trim(cells[i]) == cells[i]
    ensures TrimAll(Split(Join(cells, ","), ',')) == cells
  {
    SplitJoin(cells, ',');
  }

  /** Empty or missing cells take the defaults, and the salary is 0. */
  lemma ParseRecordDefaults(randomText: string, today: string)
    ensures var e := ParseRecord(",,,,,,", randomText, today);
      && e.name == "Unknown" && e.role == "Employee" && e.salary == 0.0
      && e.salaryType == Some("Monthly") && e.paymentType == Some("Bank Transfer")
      && e.avatar == AvatarUrl("User")
    ensures var e := ParseRecord("Asha", randomText, today);
      && e.name == "Asha" && e.email == None && e.phone == None && e.salary == 0.0 && e.role == "Employee"
  {
    var blank := Split(",,,,,,", ',');
    assert ",,,,,,"[1..] == ",,,,,";
    assert ",,,,,"[1..] == ",,,,";
    assert ",,,,"[1..] == ",,,";
    assert ",,,"[1..] == ",,";
    assert ",,"[1..] == ",";
    assert ","[1..] == "";
    assert blank == ["", "", "", "", "", "", ""];
    assert Trim("") == "";
    SplitFree("Asha", ',');
    TrimUnchanged("Asha");
  }

  /** An integer salary cell is read as that integer. */
  lemma SalaryOfInteger(n: int)
    ensures SalaryOf(Some(IntToString(n))) == n as real
  {
    ParseShowInteger(n);
    ShowInteger(n);
  }

  /** A salary cell that is not a number, or is absent, counts as 0. */
  lemma SalaryOfInvalid()
    ensures SalaryOf(Some("abc")) == 0.0
    ensures SalaryOf(None) == 0.0
  {
    TrimUnchanged("abc");
    SplitFree("abc", '.');
  }

  /**
   * The record the form submits has no id, so once it is in the list the approval map
   * as written throws for every request's employee id; the corrected map goes through.
   */
  lemma SubmittedRecordBreaksApproval(emps: seq<Employee>, form: FormData, nowIso: string, employeeId: string)
    requires ParseNumber(form.salary).Some?
    ensures StreamingOnAsWritten(emps + [SubmittedEmployee(form, nowIso)], employeeId) == None
    ensures |StreamingOn(emps + [SubmittedEmployee(form, nowIso)], employeeId)| == |emps| + 1
  {
    var all := emps + [SubmittedEmployee(form, nowIso)];
    assert all[|emps|].id.None?;
  }

  /**
   * Editing the record the form submits passes its missing id as the target: the update map
   * as written matches that record and throws on the target's `toString()`.
   */
  lemma SubmittedRecordBreaksUpdate(emps: seq<Employee>, form: FormData, nowIso: string, us: seq<FieldUpdate>)
    requires ParseNumber(form.salary).Some?
    ensures UpdateMatchingAsWritten(emps + [SubmittedEmployee(form, nowIso)], SubmittedEmployee(form, nowIso).id, us) == None
  {
    var all := emps + [SubmittedEmployee(form, nowIso)];
    assert all[|emps|].id.None?;
  }
}
