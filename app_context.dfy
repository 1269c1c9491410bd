/**
 * The client's shared store: the signed-in user and the lists of employees,
 * unlock requests, audit logs and notifications, each replaced through its setter by
 * appending, prepending or mapping. `Date.now()` and `new Date().toISOString()` are
 * the `Clock` argument of the operations that read them.
 */
module AppContext {
  import opened Wrappers
  import opened Text
  import opened JsNumber
  import opened UserRoutes

  /** An employee id: a number or a string. */
  datatype EmpId = NumId(n: real) | StrId(s: string)

  /** `id.toString()` */
  function IdText(id: EmpId): string
  {
    match id
    case NumId(n) => ShowNumber(n)
    case StrId(s) => s
  }

  /**
   * An employee record. `id` is absent on a record built without one; `payroll` is not
   * declared by the client's interface but is read by the payroll page, and is present only
   * on records that carry the server's payroll block.
   */
  datatype Employee = Employee(
    id: Option<EmpId>,
    name: string,
    role: string,
    status: string,
    salary: real,
    streaming: bool,
    joined: string,
    avatar: string,
    email: Option<string>,
    phone: Option<string>,
    salaryType: Option<string>,
    paymentType: Option<string>,
    payroll: Option<StoredPayroll>)

  /** The signed-in user, as the server or the built-in administrator reply delivers it. */
  datatype User = User(
    id: string,
    name: string,
    email: string,
    role: string,
    salary: real,
    dailyRate: Option<real>,
    walletBalance: Option<real>,
    lockPercentage: Option<int>,
    isLocked: Option<bool>)

  datatype TargetType = EmployeeTarget | OrganizationTarget | SystemTarget

  /** The part of an audit log its caller supplies. */
  datatype LogEntry = LogEntry(action: string, targetId: string, targetType: TargetType, changedBy: string, details: string)

  datatype AuditLog = AuditLog(
    id: string,
    action: string,
    targetId: string,
    targetType: TargetType,
    changedBy: string,
    timestamp: string,
    details: string)

  datatype Notification = Notification(id: string, title: string, message: string, recipient: string, timestamp: string, read: bool)

  datatype ReqStatus = Pending | Approved | Rejected

  datatype UnlockRequest = UnlockRequest(id: string, employeeId: string, employeeName: string, amount: real, status: ReqStatus, date: string)

  /** An administrator's answer to an unlock request. */
  datatype Decision = Approve | Reject

  function StatusOf(d: Decision): (s: ReqStatus)
    ensures s != Pending
  {
    if d == Approve then Approved else Rejected
  }

  /** `Date.now()` in milliseconds and `new Date().toISOString()` at the moment of a call. */
  datatype Clock = Clock(millis: nat, iso: string)

  /** `toISOString().split('T')[0]`: the date part of the time stamp. */
  function DatePart(iso: string): string
  {
    Split(iso, 'T')[0]
  }

  // ---------------------------------------------------------------------------
  // Partial updates of an employee

  /**
   * One key of a `Partial<Employee>` with its new value. The optional fields can be set
   * to `undefined` (`None`): an edit form copies them from a record that lacks them.
   */
  datatype FieldUpdate =
    | SetId(id: EmpId)
    | SetName(name: string)
    | SetRole(role: string)
    | SetStatus(status: string)
    | SetSalary(salary: real)
    | SetStreaming(streaming: bool)
    | SetJoined(joined: string)
    | SetAvatar(avatar: string)
    | SetEmail(email: Option<string>)
    | SetPhone(phone: Option<string>)
    | SetSalaryType(salaryType: Option<string>)
    | SetPaymentType(paymentType: Option<string>)

  /** The keys of an employee record that an update may set. */
  datatype Field =
    | IdField | NameField | RoleField | StatusField | SalaryField | StreamingField
    | JoinedField | AvatarField | EmailField | PhoneField | SalaryTypeField | PaymentTypeField

  /** The key an update sets. */
  function FieldKey(u: FieldUpdate): Field
  {
    match u
    case SetId(_) => IdField
    case SetName(_) => NameField
    case SetRole(_) => RoleField
    case SetStatus(_) => StatusField
    case SetSalary(_) => SalaryField
    case SetStreaming(_) => StreamingField
    case SetJoined(_) => JoinedField
    case SetAvatar(_) => AvatarField
    case SetEmail(_) => EmailField
    case SetPhone(_) => PhoneField
    case SetSalaryType(_) => SalaryTypeField
    case SetPaymentType(_) => PaymentTypeField
  }

  /** The property name of a key, as `Object.keys` lists it. */
  function FieldName(f: Field): string
  {
    match f
    case IdField => "id"
    case NameField => "name"
    case RoleField => "role"
    case StatusField => "status"
    case SalaryField => "salary"
    case StreamingField => "streaming"
    case JoinedField => "joined"
    case AvatarField => "avatar"
    case EmailField => "email"
    case PhoneField => "phone"
    case SalaryTypeField => "salaryType"
    case PaymentTypeField => "paymentType"
  }

  function Key(u: FieldUpdate): string
  {
    FieldName(FieldKey(u))
  }

  function BoolText(b: bool): string
  {
    if b then "true" else "false"
  }

  /** A template literal's text of an optional string: `undefined` when absent. */
  function OptText(o: Option<string>): string
  {
    if o.Some? then o.value else "undefined"
  }

  /** `${updates[k]}` */
  function NewText(u: FieldUpdate): string
  {
    match u
    case SetId(id) => IdText(id)
    case SetName(s) => s
    case SetRole(s) => s
    case SetStatus(s) => s
    case SetSalary(x) => ShowNumber(x)
    case SetStreaming(b) => BoolText(b)
    case SetJoined(s) => s
    case SetAvatar(s) => s
    case SetEmail(o) => OptText(o)
    case SetPhone(o) => OptText(o)
    case SetSalaryType(o) => OptText(o)
    case SetPaymentType(o) => OptText(o)
  }

  /** `${emp[k]}`: the value the record holds under the update's key. */
  function OldText(e: Employee, u: FieldUpdate): string
  {
    match u
    case SetId(_) => if e.id.Some? then IdText(e.id.value) else "undefined"
    case SetName(_) => e.name
    case SetRole(_) => e.role
    case SetStatus(_) => e.status
    case SetSalary(_) => ShowNumber(e.salary)
    case SetStreaming(_) => BoolText(e.streaming)
    case SetJoined(_) => e.joined
    case SetAvatar(_) => e.avatar
    case SetEmail(_) => OptText(e.email)
    case SetPhone(_) => OptText(e.phone)
    case SetSalaryType(_) => OptText(e.salaryType)
    case SetPaymentType(_) => OptText(e.paymentType)
  }

  function Apply(e: Employee, u: FieldUpdate): Employee
  {
    match u
    case SetId(id) => e.(id := Some(id))
    case SetName(s) => e.(name := s)
    case SetRole(s) => e.(role := s)
    case SetStatus(s) => e.(status := s)
    case SetSalary(x) => e.(salary := x)
    case SetStreaming(b) => e.(streaming := b)
    case SetJoined(s) => e.(joined := s)
    case SetAvatar(s) => e.(avatar := s)
    case SetEmail(o) => e.(email := o)
    case SetPhone(o) => e.(phone := o)
    case SetSalaryType(o) => e.(salaryType := o)
    case SetPaymentType(o) => e.(paymentType := o)
  }

  /** `{ ...emp, ...updates }`: the keys in order, a later one winning over an earlier one. */
  function ApplyAll(e: Employee, us: seq<FieldUpdate>): (r: Employee)
    ensures us == [] ==> r == e
    decreases |us|
  {
    if us == [] then e else ApplyAll(Apply(e, us[0]), us[1..])
  }

  /** One entry `k: old -> new` per key, in key order, each against the record before the update. */
  function ChangeItems(e: Employee, us: seq<FieldUpdate>): (items: seq<string>)
    ensures |items| == |us|
    ensures forall j :: 0 <= j < |us| ==> items[j] == Key(us[j]) + ": " + OldText(e, us[j]) + " -> " + NewText(us[j])
  {
    if us == [] then []
    else [Key(us[0]) + ": " + OldText(e, us[0]) + " -> " + NewText(us[0])] + ChangeItems(e, us[1..])
  }

  predicate StartsWith(s: string, prefix: string)
  {
    |prefix| <= |s| && s[..|prefix|] == prefix
  }

  /** The details of the log `updateEmployee` writes for a matched record. */
  function UpdateDetails(e: Employee, us: seq<FieldUpdate>, reason: string): (d: string)
    ensures StartsWith(d, "Reason: " + reason + ". Changes: ")
  {
    "Reason: " + reason + ". Changes: " + Join(ChangeItems(e, us), ", ")
  }

  /** The new log `addAuditLog` builds from an entry. */
  function NewLog(entry: LogEntry, now: Clock): (log: AuditLog)
    ensures log.id == "log-" + NatToString(now.millis) && log.timestamp == now.iso
    ensures log.action == entry.action && log.targetId == entry.targetId && log.targetType == entry.targetType
    ensures log.changedBy == entry.changedBy && log.details == entry.details
  {
    AuditLog("log-" + NatToString(now.millis), entry.action, entry.targetId, entry.targetType, entry.changedBy, now.iso, entry.details)
  }

  function UpdateLog(e: Employee, id: EmpId, us: seq<FieldUpdate>, reason: string, adminName: string, now: Clock): AuditLog
  {
    NewLog(LogEntry("Update Employee", IdText(id), EmployeeTarget, adminName, UpdateDetails(e, us, reason)), now)
  }

  /** The number of records whose id is `===` the target. */
  function CountMatches(emps: seq<Employee>, id: EmpId): (n: nat)
    ensures n <= |emps|
    ensures n == 0 <==> forall i :: 0 <= i < |emps| ==> emps[i].id != Some(id)
  {
    if emps == [] then 0
    else
      assert forall i :: 1 <= i < |emps| ==> emps[i] == emps[1..][i - 1];
      (if emps[0].id == Some(id) then 1 else 0) + CountMatches(emps[1..], id)
  }

  /** The records `updateEmployee` produces: every match overridden, every other record as it was. */
  function UpdateMatching(emps: seq<Employee>, id: EmpId, us: seq<FieldUpdate>): (r: seq<Employee>)
    ensures |r| == |emps|
    ensures forall i :: 0 <= i < |emps| ==> r[i] == if emps[i].id == Some(id) then ApplyAll(emps[i], us) else emps[i]
  {
    if emps == [] then []
    else [if emps[0].id == Some(id) then ApplyAll(emps[0], us) else emps[0]] + UpdateMatching(emps[1..], id, us)
  }

  /**
   * The logs `updateEmployee` queues, in the order they end up at the head of the list:
   * each match prepends its own, so the last match's log comes first.
   */
  function UpdateLogs(emps: seq<Employee>, id: EmpId, us: seq<FieldUpdate>, reason: string, adminName: string, now: Clock): (logs: seq<AuditLog>)
    ensures |logs| == CountMatches(emps, id)
    ensures forall j :: 0 <= j < |logs| ==>
      && logs[j].action == "Update Employee" && logs[j].targetId == IdText(id)
      && logs[j].targetType == EmployeeTarget && logs[j].changedBy == adminName
      && StartsWith(logs[j].details, "Reason: " + reason + ". Changes: ")
  {
    if emps == [] then []
    else
      UpdateLogs(emps[1..], id, us, reason, adminName, now)
      + (if emps[0].id == Some(id) then [UpdateLog(emps[0], id, us, reason, adminName, now)] else [])
  }

  /**
   * `updateEmployee`'s map over the records as written, for a target that may be `undefined`
   * (an edit of a record without an id): `emp.id === id` then holds for every record without
   * an id, and `id.toString()` throws for the first of them.
   */
  function UpdateMatchingAsWritten(emps: seq<Employee>, target: Option<EmpId>, us: seq<FieldUpdate>): (r: Option<seq<Employee>>)
    ensures r.None? <==> target.None? && exists i :: 0 <= i < |emps| && emps[i].id.None?
    ensures target.Some? ==> r == Some(UpdateMatching(emps, target.value, us))
    ensures target.None? && r.Some? ==> r.value == emps
  {
    if emps == [] then Some([])
    else if emps[0].id == target && target.None? then None
    else
      match UpdateMatchingAsWritten(emps[1..], target, us)
      case None => None
      case Some(rest) =>
        assert forall i :: 1 <= i < |emps| ==> emps[i] == emps[1..][i - 1];
        assert emps == [emps[0]] + emps[1..];
        Some([if emps[0].id == target then ApplyAll(emps[0], us) else emps[0]] + rest)
  }

  // ---------------------------------------------------------------------------
  // Unlock requests

  /** The requests after a decision: each one with a matching id takes the new status. */
  function Decide(reqs: seq<UnlockRequest>, id: string, status: ReqStatus): (r: seq<UnlockRequest>)
    ensures |r| == |reqs|
    ensures forall i :: 0 <= i < |reqs| ==> r[i] == if reqs[i].id == id then reqs[i].(status := status) else reqs[i]
  {
    if reqs == [] then []
    else [if reqs[0].id == id then reqs[0].(status := status) else reqs[0]] + Decide(reqs[1..], id, status)
  }

  /** The employee ids of the requests with a matching id, in list order. */
  function MatchedEmployeeIds(reqs: seq<UnlockRequest>, id: string): (ids: seq<string>)
    ensures |ids| <= |reqs|
    ensures forall s :: s in ids <==> exists i :: 0 <= i < |reqs| && reqs[i].id == id && reqs[i].employeeId == s
  {
    if reqs == [] then []
    else (if reqs[0].id == id then [reqs[0].employeeId] else []) + MatchedEmployeeIds(reqs[1..], id)
  }

  /** `e.id.toString() === employeeId`; a record without an id never matches. */
  predicate IdIs(e: Employee, employeeId: string)
  {
    e.id.Some? && IdText(e.id.value) == employeeId
  }

  /** Approval's effect on the employees for one request: streaming switched on for the matching records. */
  function StreamingOn(emps: seq<Employee>, employeeId: string): (r: seq<Employee>)
    ensures |r| == |emps|
    ensures forall i :: 0 <= i < |emps| ==> r[i] == if IdIs(emps[i], employeeId) then emps[i].(streaming := true) else emps[i]
  {
    if emps == [] then []
    else [if IdIs(emps[0], employeeId) then emps[0].(streaming := true) else emps[0]] + StreamingOn(emps[1..], employeeId)
  }

  /** `e.id.toString() === employeeId` over the records as written: a record without an id throws. */
  function StreamingOnAsWritten(emps: seq<Employee>, employeeId: string): (r: Option<seq<Employee>>)
    ensures r.None? <==> exists i :: 0 <= i < |emps| && emps[i].id.None?
    ensures r.Some? ==> r.value == StreamingOn(emps, employeeId)
  {
    if emps == [] then Some([])
    else if emps[0].id.None? then None
    else
      match StreamingOnAsWritten(emps[1..], employeeId)
      case None => None
      case Some(rest) =>
        assert forall i :: 1 <= i < |emps| ==> emps[i] == emps[1..][i - 1];
        Some([if IdIs(emps[0], employeeId) then emps[0].(streaming := true) else emps[0]] + rest)
  }

  function MatchesAny(e: Employee, ids: seq<string>): bool
  {
    exists j :: 0 <= j < |ids| && IdIs(e, ids[j])
  }

  /** The effect of all the queued employee updates of one approval: one per matched request. */
  function StreamingForAll(emps: seq<Employee>, ids: seq<string>): (r: seq<Employee>)
    ensures |r| == |emps|
    ensures forall i :: 0 <= i < |emps| ==> r[i] == if MatchesAny(emps[i], ids) then emps[i].(streaming := true) else emps[i]
    decreases |ids|
  {
    if ids == [] then emps
    else
      var r := StreamingForAll(StreamingOn(emps, ids[0]), ids[1..]);
      assert forall i :: 0 <= i < |emps| ==> (MatchesAny(emps[i], ids) <==> IdIs(emps[i], ids[0]) || MatchesAny(emps[i], ids[1..])) by {
        forall i | 0 <= i < |emps|
          ensures MatchesAny(emps[i], ids) <==> IdIs(emps[i], ids[0]) || MatchesAny(emps[i], ids[1..])
        {
          if MatchesAny(emps[i], ids) && !IdIs(emps[i], ids[0]) {
            var j :| 0 <= j < |ids| && IdIs(emps[i], ids[j]);
            assert ids[1..][j - 1] == ids[j];
          }
          if MatchesAny(emps[i], ids[1..]) {
            var j :| 0 <= j < |ids[1..]| && IdIs(emps[i], ids[1..][j]);
            assert ids[j + 1] == ids[1..][j];
          }
        }
      }
      r
  }

  function UnlockLog(req: UnlockRequest, now: Clock): AuditLog
  {
    NewLog(LogEntry("Unlock Salary", req.employeeId, EmployeeTarget, "Admin", "Approved unlock request for NPR " + ShowNumber(req.amount)), now)
  }

  /** The logs an approval queues, last match first, as `UpdateLogs`. */
  function UnlockLogs(reqs: seq<UnlockRequest>, id: string, now: Clock): (logs: seq<AuditLog>)
    ensures |logs| == |MatchedEmployeeIds(reqs, id)|
    ensures forall j :: 0 <= j < |logs| ==>
      logs[j].action == "Unlock Salary" && logs[j].changedBy == "Admin" && logs[j].targetType == EmployeeTarget
      && logs[j].targetId in MatchedEmployeeIds(reqs, id)
  {
    if reqs == [] then []
    else UnlockLogs(reqs[1..], id, now) + (if reqs[0].id == id then [UnlockLog(reqs[0], now)] else [])
  }

  /** The name recorded on a new request: the user's name, or `Unknown Employee` when there is none or it is empty. */
  function RequesterName(user: Option<User>): (name: string)
    ensures name != ""
    ensures user.Some? && user.value.name != "" ==> name == user.value.name
  {
    if user.Some? && user.value.name != "" then user.value.name else "Unknown Employee"
  }

  function NewRequest(user: Option<User>, employeeId: string, amount: real, now: Clock): (req: UnlockRequest)
    ensures req.status == Pending && req.employeeId == employeeId && req.amount == amount
  {
    UnlockRequest(NatToString(now.millis), employeeId, RequesterName(user), amount, Pending, DatePart(now.iso))
  }

  // ---------------------------------------------------------------------------
  // The store

  class AppState {
    var user: Option<User>
    var employees: seq<Employee>
    var unlockRequests: seq<UnlockRequest>
    var auditLogs: seq<AuditLog>
    var notifications: seq<Notification>

    constructor ()
      ensures user == None && employees == [] && unlockRequests == [] && auditLogs == [] && notifications == []
    {
      user := None;
      employees := [];
      unlockRequests := [];
      auditLogs := [];
      notifications := [];
    }

    /** `setUser` */
    method SetUser(u: Option<User>)
      modifies this
      ensures user == u
      ensures employees == old(employees) && unlockRequests == old(unlockRequests)
      ensures auditLogs == old(auditLogs) && notifications == old(notifications)
    {
      user := u;
    }

    method Logout()
      modifies this
      ensures user == None
      ensures employees == old(employees) && unlockRequests == old(unlockRequests)
      ensures auditLogs == old(auditLogs) && notifications == old(notifications)
    {
      user := None;
    }

    method AddEmployee(e: Employee)
      modifies this
      ensures employees == old(employees) + [e]
      ensures user == old(user) && unlockRequests == old(unlockRequests)
      ensures auditLogs == old(auditLogs) && notifications == old(notifications)
    {
      employees := employees + [e];
    }

    method AddEmployees(es: seq<Employee>)
      modifies this
      ensures employees == old(employees) + es
      ensures user == old(user) && unlockRequests == old(unlockRequests)
      ensures auditLogs == old(auditLogs) && notifications == old(notifications)
    {
      employees := employees + es;
    }

    method AddAuditLog(entry: LogEntry, now: Clock)
      modifies this
      ensures auditLogs == [NewLog(entry, now)] + old(auditLogs)
      ensures user == old(user) && employees == old(employees)
      ensures unlockRequests == old(unlockRequests) && notifications == old(notifications)
    {
      auditLogs := [NewLog(entry, now)] + auditLogs;
    }

    /** `updateEmployee`: override the matching records and log each one. */
    method UpdateEmployee(id: EmpId, us: seq<FieldUpdate>, reason: string, adminName: string, now: Clock)
      modifies this
      ensures |employees| == |old(employees)|
      ensures forall i :: 0 <= i < |employees| ==>
        employees[i] == if old(employees)[i].id == Some(id) then ApplyAll(old(employees)[i], us) else old(employees)[i]
      ensures auditLogs == UpdateLogs(old(employees), id, us, reason, adminName, now) + old(auditLogs)
      ensures user == old(user) && unlockRequests == old(unlockRequests) && notifications == old(notifications)
    {
      var logs := UpdateLogs(employees, id, us, reason, adminName, now);
      employees := UpdateMatching(employees, id, us);
      auditLogs := logs + auditLogs;
    }

    /** `requestUnlock`: prepend a pending request. */
    method RequestUnlock(employeeId: string, amount: real, now: Clock)
      modifies this
      ensures unlockRequests == [NewRequest(user, employeeId, amount, now)] + old(unlockRequests)
      ensures user == old(user) && employees == old(employees)
      ensures auditLogs == old(auditLogs) && notifications == old(notifications)
    {
      unlockRequests := [NewRequest(user, employeeId, amount, now)] + unlockRequests;
    }

    /** `handleUnlockRequest`: set the status; an approval also switches streaming on and logs. */
    method HandleUnlockRequest(id: string, decision: Decision, now: Clock)
      modifies this
      ensures unlockRequests == Decide(old(unlockRequests), id, StatusOf(decision))
      ensures decision == Approve ==>
        && employees == StreamingForAll(old(employees), MatchedEmployeeIds(old(unlockRequests), id))
        && auditLogs == UnlockLogs(old(unlockRequests), id, now) + old(auditLogs)
      ensures decision == Reject ==> employees == old(employees) && auditLogs == old(auditLogs)
      ensures user == old(user) && notifications == old(notifications)
    {
      if decision == Approve {
        employees := StreamingForAll(employees, MatchedEmployeeIds(unlockRequests, id));
        auditLogs := UnlockLogs(unlockRequests, id, now) + auditLogs;
      }
      unlockRequests := Decide(unlockRequests, id, StatusOf(decision));
    }

    /** `sendNotification`: prepend an unread notification and its log. */
    method SendNotification(title: string, message: string, recipient: string, now: Clock)
      modifies this
      ensures notifications == [Notification("notif-" + NatToString(now.millis), title, message, recipient, now.iso, false)] + old(notifications)
      ensures auditLogs == [NewLog(LogEntry("Send Notification", recipient, SystemTarget, "Admin", "Title: " + title), now)] + old(auditLogs)
      ensures user == old(user) && employees == old(employees) && unlockRequests == old(unlockRequests)
    {
      notifications := [Notification("notif-" + NatToString(now.millis), title, message, recipient, now.iso, false)] + notifications;
      AddAuditLog(LogEntry("Send Notification", recipient, SystemTarget, "Admin", "Title: " + title), now);
    }
  }

  // ---------------------------------------------------------------------------
  // Properties

  /** A target no record matches: updating changes no record and writes no log. */
  lemma {:induction false} UpdateWithoutMatch(emps: seq<Employee>, id: EmpId, us: seq<FieldUpdate>, reason: string, adminName: string, now: Clock)
    requires forall i :: 0 <= i < |emps| ==> emps[i].id != Some(id)
    ensures UpdateMatching(emps, id, us) == emps
    ensures UpdateLogs(emps, id, us, reason, adminName, now) == []
  {
    if emps != [] {
      UpdateWithoutMatch(emps[1..], id, us, reason, adminName, now);
    }
  }

  /** A target matched by exactly one record: that record is overridden and exactly one log is written. */
  lemma UpdateUniqueMatch(emps: seq<Employee>, k: nat, us: seq<FieldUpdate>, reason: string, adminName: string, now: Clock)
    requires k < |emps| && emps[k].id.Some?
    requires forall i :: 0 <= i < |emps| && i != k ==> emps[i].id != emps[k].id
    ensures UpdateMatching(emps, emps[k].id.value, us)[k] == ApplyAll(emps[k], us)
    ensures |UpdateLogs(emps, emps[k].id.value, us, reason, adminName, now)| == 1
  {
    CountUnique(emps, k);
  }

  lemma {:induction false} CountUnique(emps: seq<Employee>, k: nat)
    requires k < |emps| && emps[k].id.Some?
    requires forall i :: 0 <= i < |emps| && i != k ==> emps[i].id != emps[k].id
    ensures CountMatches(emps, emps[k].id.value) == 1
  {
    var id := emps[k].id.value;
    if k == 0 {
      CountNone(emps[1..], id);
    } else {
      CountUnique(emps[1..], k - 1);
    }
  }

  lemma {:induction false} CountNone(emps: seq<Employee>, id: EmpId)
    requires forall i :: 0 <= i < |emps| ==> emps[i].id != Some(id)
    ensures CountMatches(emps, id) == 0
  {
    if emps != [] {
      CountNone(emps[1..], id);
    }
  }

  /** A single-key update's log names the key, the old value and the new one. */
  lemma UpdateDetailsOneKey(e: Employee, u: FieldUpdate, reason: string)
    ensures UpdateDetails(e, [u], reason) == "Reason: " + reason + ". Changes: " + Key(u) + ": " + OldText(e, u) + " -> " + NewText(u)
  {
  }

  /** An update that copies an absent phone sets it to `undefined` and logs `undefined` on both sides. */
  lemma UndefinedKeyLogged(e: Employee)
    requires e.phone.None?
    ensures ChangeItems(e, [SetPhone(e.phone)]) == ["phone: undefined -> undefined"]
    ensures ApplyAll(e, [SetPhone(None)]).phone == None
  {
    assert Key(SetPhone(e.phone)) == "phone";
    assert OldText(e, SetPhone(e.phone)) == "undefined" && NewText(SetPhone(e.phone)) == "undefined";
    assert "phone" + ": " + "undefined" + " -> " + "undefined" == "phone: undefined -> undefined";
    assert |ChangeItems(e, [SetPhone(e.phone)])| == 1;
  }

  /** The value a record holds under a key, as the update that would set it; `None` for an absent id. */
  function FieldOf(e: Employee, k: Field): Option<FieldUpdate>
  {
    match k
    case IdField => if e.id.Some? then Some(SetId(e.id.value)) else None
    case NameField => Some(SetName(e.name))
    case RoleField => Some(SetRole(e.role))
    case StatusField => Some(SetStatus(e.status))
    case SalaryField => Some(SetSalary(e.salary))
    case StreamingField => Some(SetStreaming(e.streaming))
    case JoinedField => Some(SetJoined(e.joined))
    case AvatarField => Some(SetAvatar(e.avatar))
    case EmailField => Some(SetEmail(e.email))
    case PhoneField => Some(SetPhone(e.phone))
    case SalaryTypeField => Some(SetSalaryType(e.salaryType))
    case PaymentTypeField => Some(SetPaymentType(e.paymentType))
  }

  /** One key: it takes the update's value, and every other key and the payroll block keep theirs. */
  lemma ApplyOne(e: Employee, u: FieldUpdate, k: Field)
    ensures FieldOf(Apply(e, u), FieldKey(u)) == Some(u)
    ensures k != FieldKey(u) ==> FieldOf(Apply(e, u), k) == FieldOf(e, k)
    ensures Apply(e, u).payroll == e.payroll
  {
  }

  /** A key no update names keeps the record's value; the payroll block is never touched. */
  lemma {:induction false} ApplyAllKeeps(e: Employee, us: seq<FieldUpdate>, k: Field)
    requires forall j :: 0 <= j < |us| ==> FieldKey(us[j]) != k
    ensures FieldOf(ApplyAll(e, us), k) == FieldOf(e, k)
    ensures ApplyAll(e, us).payroll == e.payroll
    decreases |us|
  {
    if us != [] {
      ApplyOne(e, us[0], k);
      ApplyAllKeeps(Apply(e, us[0]), us[1..], k);
    }
  }

  /** A key takes the value of the last update naming it. */
  lemma {:induction false} ApplyAllSets(e: Employee, us: seq<FieldUpdate>, j: nat)
    requires j < |us|
    requires forall i :: j < i < |us| ==> FieldKey(us[i]) != FieldKey(us[j])
    ensures FieldOf(ApplyAll(e, us), FieldKey(us[j])) == Some(us[j])
    decreases |us|
  {
    ApplyOne(e, us[0], FieldKey(us[j]));
    if j == 0 {
      ApplyAllKeeps(Apply(e, us[0]), us[1..], FieldKey(us[0]));
    } else {
      ApplyAllSets(Apply(e, us[0]), us[1..], j - 1);
    }
  }

  /** Rejecting leaves every request's other fields; only the matching requests change, and only their status. */
  lemma DecidePreserves(reqs: seq<UnlockRequest>, id: string, status: ReqStatus, i: nat)
    requires i < |reqs|
    ensures var r := Decide(reqs, id, status);
      && r[i].id == reqs[i].id && r[i].employeeId == reqs[i].employeeId
      && r[i].employeeName == reqs[i].employeeName && r[i].amount == reqs[i].amount && r[i].date == reqs[i].date
      && (reqs[i].id == id ==> r[i].status == status)
      && (reqs[i].id != id ==> r[i] == reqs[i])
  {
  }

  /** Approving a request whose employee id names a record switches that record's streaming on. */
  lemma ApproveStartsStreaming(reqs: seq<UnlockRequest>, id: string, emps: seq<Employee>, k: nat, i: nat)
    requires k < |reqs| && reqs[k].id == id
    requires i < |emps| && IdIs(emps[i], reqs[k].employeeId)
    ensures StreamingForAll(emps, MatchedEmployeeIds(reqs, id))[i] == emps[i].(streaming := true)
  {
    var ids := MatchedEmployeeIds(reqs, id);
    assert reqs[k].employeeId in ids;
    var j :| 0 <= j < |ids| && ids[j] == reqs[k].employeeId;
    assert MatchesAny(emps[i], ids);
  }

  /** Records named by no approved request are left exactly as they were. */
  lemma ApproveLeavesOthers(reqs: seq<UnlockRequest>, id: string, emps: seq<Employee>, i: nat)
    requires i < |emps|
    requires forall k :: 0 <= k < |reqs| && reqs[k].id == id ==> !IdIs(emps[i], reqs[k].employeeId)
    ensures StreamingForAll(emps, MatchedEmployeeIds(reqs, id))[i] == emps[i]
  {
    var ids := MatchedEmployeeIds(reqs, id);
    forall j | 0 <= j < |ids|
      ensures !IdIs(emps[i], ids[j])
    {
      assert ids[j] in ids;
      var k :| 0 <= k < |reqs| && reqs[k].id == id && reqs[k].employeeId == ids[j];
    }
    assert !MatchesAny(emps[i], ids);
  }

  /**
   * The approval map as written throws on a record without an id; where every record has
   * one it agrees with the corrected map, which simply does not match such a record.
   */
  lemma StreamingAsWrittenAgrees(emps: seq<Employee>, employeeId: string)
    requires forall i :: 0 <= i < |emps| ==> emps[i].id.Some?
    ensures StreamingOnAsWritten(emps, employeeId) == Some(StreamingOn(emps, employeeId))
  {
  }

  /** The request's name falls back when the user has no name. */
  lemma RequesterNameFallback()
    ensures RequesterName(None) == "Unknown Employee"
    ensures RequesterName(Some(User("u1", "", "e", "employee", 0.0, None, None, None, None))) == "Unknown Employee"
  {
  }

  /** The request's date is the date part of the ISO time stamp. */
  lemma RequestDate(user: Option<User>, employeeId: string, amount: real, now: Clock, date: string, time: string)
    requires 'T' !in date && 'T' !in time && now.iso == date + "T" + time
    ensures NewRequest(user, employeeId, amount, now).date == date
  {
    SplitAtFirst(date, 'T', time);
  }
}
