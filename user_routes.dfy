/**
 * Payroll attachment in the user routes. Before a user document is created
 * (`POST /`) or updated (`PUT /:id`), the handler writes a `payroll` block into
 * the request body when the salary warrants it; the body is then saved as a new
 * document, or laid over the stored one field by field.
 * The database is a map from document id to document.
 */
module UserRoutes {
  import opened Wrappers
  import opened PayrollCalculator

  /** The payroll block stored on a user: six of the calculator's fields, the net salary under `netSalary`. */
  datatype StoredPayroll = StoredPayroll(
    employeeSSF: int,
    employerSSF: int,
    monthlyTax: int,
    netSalary: int,
    dailyPayout: int,
    weeklyPayout: int)

  /**
   * A request body, or a stored user document: the role, the salary (a JSON number) and
   * the payroll block when present, and every other field by name.
   */
  datatype Body = Body(
    role: Option<string>,
    salary: Option<real>,
    payroll: Option<StoredPayroll>,
    others: map<string, string>)

  /** Reply of the update handler: the updated document, or 404 when no document has the id. */
  datatype UpdateReply = Updated(user: Body) | NotFound

  /** The six-field copy both handlers make of a breakdown; `annualTax` and `monthlyGross` are not kept. */
  function ToStored(d: PayrollDetails): StoredPayroll
  {
    StoredPayroll(d.employeeSSF, d.employerSSF, d.monthlyTax, d.netMonthlySalary, d.dailyPayout, d.weeklyPayout)
  }

  /** The block stored for a monthly gross salary `g`. */
  function StoredFor(g: real): StoredPayroll
  {
    ToStored(Payroll(g))
  }

  /** JavaScript truthiness of the salary: present and not zero. */
  predicate SalaryTruthy(salary: Option<real>)
  {
    salary.Some? && salary.value != 0.0
  }

  /** The create handler's condition: `role === 'employee' && salary`. */
  predicate AttachesOnCreate(b: Body)
  {
    b.role == Some("employee") && SalaryTruthy(b.salary)
  }

  /** The body the create handler saves: the block replaces any sent one when the condition holds. */
  function CreateBody(b: Body): (r: Body)
    ensures r.role == b.role && r.salary == b.salary && r.others == b.others
  {
    if AttachesOnCreate(b) then b.(payroll := Some(StoredFor(b.salary.value))) else b
  }

  /** The body the update handler applies: a truthy salary recomputes the block, whatever the role. */
  function UpdateBody(b: Body): (r: Body)
    ensures r.role == b.role && r.salary == b.salary && r.others == b.others
  {
    if SalaryTruthy(b.salary) then b.(payroll := Some(StoredFor(b.salary.value))) else b
  }

  /** `Option` field of an update: a present value replaces the stored one. */
  function Override<T>(stored: Option<T>, update: Option<T>): (r: Option<T>)
    ensures update.Some? ==> r == update
    ensures update.None? ==> r == stored
  {
    if update.Some? then update else stored
  }

  /**
   * `findByIdAndUpdate(id, updates)`: every field the update carries replaces the
   * stored one, and every other stored field is kept.
   */
  function Merge(stored: Body, updates: Body): (r: Body)
    ensures forall k :: k in r.others <==> k in stored.others || k in updates.others
    ensures forall k :: k in updates.others ==> r.others[k] == updates.others[k]
    ensures forall k :: k in stored.others && k !in updates.others ==> r.others[k] == stored.others[k]
  {
    Body(
      Override(stored.role, updates.role),
      Override(stored.salary, updates.salary),
      Override(stored.payroll, updates.payroll),
      stored.others + updates.others)
  }

  /** The request body as a mutable object: the handlers assign its `payroll` field in place. */
  class RequestBody {
    var role: Option<string>
    var salary: Option<real>
    var payroll: Option<StoredPayroll>
    var others: map<string, string>

    constructor (b: Body)
      ensures Value() == b
    {
      role := b.role;
      salary := b.salary;
      payroll := b.payroll;
      others := b.others;
    }

    function Value(): Body
      reads this
    {
      Body(role, salary, payroll, others)
    }

    /** Lines 34-43 of the create handler. */
    method AttachOnCreate()
      modifies this
      ensures Value() == CreateBody(old(Value()))
    {
      if role == Some("employee") && salary.Some? && salary.value != 0.0 {
        var details := Calculate(salary.value);
        payroll := Some(ToStored(details));
      }
    }

    /** Lines 63-73 of the update handler. */
    method AttachOnUpdate()
      modifies this
      ensures Value() == UpdateBody(old(Value()))
    {
      if salary.Some? && salary.value != 0.0 {
        var details := Calculate(salary.value);
        payroll := Some(ToStored(details));
      }
    }
  }

  /** The users collection. */
  class UserStore {
    var users: map<string, Body>

    constructor ()
      ensures users == map[]
    {
      users := map[];
    }

    /** `POST /`: attach the block, then save the body under the new document's id. */
    method Create(id: string, body: RequestBody) returns (saved: Body)
      requires id !in users
      modifies this, body
      ensures saved == CreateBody(old(body.Value()))
      ensures body.Value() == saved
      ensures users == old(users)[id := saved]
    {
      body.AttachOnCreate();
      saved := body.Value();
      users := users[id := saved];
    }

    /** `PUT /:id`: attach the block, then lay the body over the stored document, or 404. */
    method Update(id: string, body: RequestBody) returns (reply: UpdateReply)
      modifies this, body
      ensures body.Value() == UpdateBody(old(body.Value()))
      ensures id in old(users) ==> reply == Updated(Merge(old(users)[id], body.Value())) && users == old(users)[id := reply.user]
      ensures id !in old(users) ==> reply == NotFound && users == old(users)
    {
      body.AttachOnUpdate();
      if id in users {
        var updated := Merge(users[id], body.Value());
        users := users[id := updated];
        reply := Updated(updated);
      } else {
        reply := NotFound;
      }
    }
  }

  // ---------------------------------------------------------------------------
  // Properties

  /** On create, a block is attached exactly for an employee with a present, non-zero salary, and it is the calculator's. */
  lemma CreateAttachesIff(b: Body)
    ensures CreateBody(b).payroll == (if b.role == Some("employee") && b.salary.Some? && b.salary.value != 0.0
                                      then Some(StoredFor(b.salary.value)) else b.payroll)
  {
  }

  /** On update, a present, non-zero salary recomputes the block for any role; otherwise the body's own block stays. */
  lemma UpdateAttachesIff(b: Body)
    ensures SalaryTruthy(b.salary) ==> UpdateBody(b).payroll == Some(StoredFor(b.salary.value))
    ensures !SalaryTruthy(b.salary) ==> UpdateBody(b) == b
  {
  }

  /** The stored block carries the calculator's own figures. */
  lemma StoredMatchesCalculator(g: real)
    ensures var p := StoredFor(g); var d := Payroll(g);
      && p.employeeSSF == d.employeeSSF && p.employerSSF == d.employerSSF
      && p.monthlyTax == d.monthlyTax && p.netSalary == d.netMonthlySalary
      && p.dailyPayout == d.dailyPayout && p.weeklyPayout == d.weeklyPayout
  {
  }

  /** For a non-negative salary every stored figure is non-negative and the payouts are ordered. */
  lemma StoredNonNegative(g: real)
    requires g >= 0.0
    ensures var p := StoredFor(g);
      && 0 <= p.employeeSSF <= p.employerSSF
      && 0 <= p.monthlyTax
      && 0 <= p.dailyPayout <= p.weeklyPayout <= p.netSalary
  {
    PayrollNonNegative(g);
  }

  /** The block stored for the seeded salary of 60,000. */
  lemma StoredFor60000()
    ensures StoredFor(60000.0) == StoredPayroll(6600, 12000, 1590, 51810, 1727, 12953)
  {
    PayrollOf60000();
  }

  /** For an employee, create and update attach the same block. */
  lemma CreateAndUpdateAgree(b: Body)
    requires b.role == Some("employee")
    ensures CreateBody(b) == UpdateBody(b)
  {
  }

  /** Preparing an update body twice is the same as once. */
  lemma UpdateBodyIdempotent(b: Body)
    ensures UpdateBody(UpdateBody(b)) == UpdateBody(b)
  {
  }

  /** Applying the same update twice leaves the document as applying it once. */
  lemma MergeIdempotent(stored: Body, updates: Body)
    ensures Merge(Merge(stored, updates), updates) == Merge(stored, updates)
  {
    var once := Merge(stored, updates);
    assert once.others + updates.others == once.others;
  }

  /**
   * An update without a salary, or with a zero one, leaves the stored block as it was
   * (unless the body sends one itself): with a salary of 0 the record keeps the
   * breakdown of its previous salary.
   */
  lemma FalsySalaryKeepsBreakdown(stored: Body, b: Body)
    requires !SalaryTruthy(b.salary) && b.payroll.None?
    ensures Merge(stored, UpdateBody(b)).payroll == stored.payroll
    ensures b.salary.Some? ==> Merge(stored, UpdateBody(b)).salary == b.salary
  {
  }

  /** A salary of 60,000 set to 0: the document then holds salary 0 beside the 60,000 breakdown. */
  lemma ZeroSalaryLeavesStaleBreakdown()
    ensures var stored := CreateBody(Body(Some("employee"), Some(60000.0), None, map[]));
      var updated := Merge(stored, UpdateBody(Body(None, Some(0.0), None, map[])));
      && updated.salary == Some(0.0)
      && updated.payroll == Some(StoredPayroll(6600, 12000, 1590, 51810, 1727, 12953))
  {
    StoredFor60000();
  }

  /** An update with a truthy salary stores that salary with its freshly computed block. */
  lemma TruthySalaryRecomputes(stored: Body, b: Body)
    requires SalaryTruthy(b.salary)
    ensures Merge(stored, UpdateBody(b)).salary == b.salary
    ensures Merge(stored, UpdateBody(b)).payroll == Some(StoredFor(b.salary.value))
  {
  }
}
