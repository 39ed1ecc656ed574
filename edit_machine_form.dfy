/** The machine edit form: the field checks its schema applies before a save,
    how a stored record is turned into form values, and how the customer
    select shows and stores "no customer". */
module EditMachineForm {
  import opened Values
  import opened Machines

  const MinYear: int := 1800
  const MaxMachineTypeLength: nat := 100

  /** The values the form holds and submits. */
  datatype FormValues = FormValues(
    brand_id: Field<string>,
    model_number: string,
    serial_number: string,
    license_plate: Field<string>,
    year: Field<int>,
    machine_type: Field<string>,
    engine_hours: Field<real>,
    status: string,
    description: Field<string>,
    notes: Field<string>,
    customer_id: Field<string>)

  /** The checks of the schema, one per way a field can be rejected. */
  datatype Issue =
    | ModelNumberRequired
    | SerialNumberRequired
    | YearTooEarly
    | YearInFuture
    | MachineTypeTooLong
    | NegativeEngineHours
    | InvalidStatus

  /** The checks in the order the schema lists its fields. */
  const SchemaChecks: seq<Issue> :=
    [ModelNumberRequired, SerialNumberRequired, YearTooEarly, YearInFuture,
     MachineTypeTooLong, NegativeEngineHours, InvalidStatus]

  /** The form field an issue is reported on. */
  function Path(i: Issue): string {
    match i
    case ModelNumberRequired => "model_number"
    case SerialNumberRequired => "serial_number"
    case YearTooEarly => "year"
    case YearInFuture => "year"
    case MachineTypeTooLong => "machine_type"
    case NegativeEngineHours => "engine_hours"
    case InvalidStatus => "status"
  }

  /** The message the schema gives; None where it keeps the library's own. */
  function Message(i: Issue): Option<string> {
    match i
    case ModelNumberRequired => Some("Model number is required")
    case SerialNumberRequired => Some("Serial number is required")
    case YearTooEarly => Some("Year must be valid")
    case YearInFuture => Some("Year cannot be in the future")
    case MachineTypeTooLong => None
    case NegativeEngineHours => Some("Engine hours must be positive")
    case InvalidStatus => None
  }

  /** Whether `v` fails the check `i`; `currentYear` is the clock's year. */
  predicate Violates(v: FormValues, currentYear: int, i: Issue) {
    match i
    case ModelNumberRequired => |v.model_number| < 1
    case SerialNumberRequired => |v.serial_number| < 1
    case YearTooEarly => v.year.Present? && v.year.value < MinYear
    case YearInFuture => v.year.Present? && v.year.value > currentYear + 1
    case MachineTypeTooLong => v.machine_type.Present? && |v.machine_type.value| > MaxMachineTypeLength
    case NegativeEngineHours => v.engine_hours.Present? && v.engine_hours.value < 0.0
    case InvalidStatus => v.status !in Statuses
  }

  /** The values the schema accepts, field by field: required texts are non-empty,
      a year lies in 1800..currentYear + 1, a machine type has at most 100
      characters, engine hours are not negative, the status is one of the
      four, and every other field may be null or left out. */
  predicate Acceptable(v: FormValues, currentYear: int) {
    && |v.model_number| >= 1
    && |v.serial_number| >= 1
    && (v.year.Present? ==> MinYear <= v.year.value <= currentYear + 1)
    && (v.machine_type.Present? ==> |v.machine_type.value| <= MaxMachineTypeLength)
    && (v.engine_hours.Present? ==> v.engine_hours.value >= 0.0)
    && v.status in Statuses
  }

  /** Runs `checks` in order and keeps the ones `v` fails. */
  function FailedChecks(v: FormValues, currentYear: int, checks: seq<Issue>): (issues: seq<Issue>)
    ensures forall i :: i in issues <==> i in checks && Violates(v, currentYear, i)
    ensures |issues| <= |checks|
    decreases |checks|
  {
    if checks == [] then []
    else
      (if Violates(v, currentYear, checks[0]) then [checks[0]] else [])
      + FailedChecks(v, currentYear, checks[1..])
  }

  /** Every check of the schema is listed. */
  lemma AllChecksListed()
    ensures forall i: Issue :: i in SchemaChecks
  {
    forall i: Issue ensures i in SchemaChecks {
      match i
      case ModelNumberRequired => assert SchemaChecks[0] == i;
      case SerialNumberRequired => assert SchemaChecks[1] == i;
      case YearTooEarly => assert SchemaChecks[2] == i;
      case YearInFuture => assert SchemaChecks[3] == i;
      case MachineTypeTooLong => assert SchemaChecks[4] == i;
      case NegativeEngineHours => assert SchemaChecks[5] == i;
      case InvalidStatus => assert SchemaChecks[6] == i;
    }
  }

  /** Acceptable values are exactly those that fail no check. */
  lemma AcceptableMeansNoViolation(v: FormValues, currentYear: int)
    ensures Acceptable(v, currentYear) <==> forall i: Issue :: !Violates(v, currentYear, i)
  {
    if forall i: Issue :: !Violates(v, currentYear, i) {
      assert !Violates(v, currentYear, ModelNumberRequired) && !Violates(v, currentYear, SerialNumberRequired);
      assert !Violates(v, currentYear, YearTooEarly) && !Violates(v, currentYear, YearInFuture);
      assert !Violates(v, currentYear, MachineTypeTooLong) && !Violates(v, currentYear, NegativeEngineHours);
      assert !Violates(v, currentYear, InvalidStatus);
    }
  }

  /** The schema's verdict: the issues found, none exactly when the values
      are acceptable. */
  function Validate(v: FormValues, currentYear: int): (issues: seq<Issue>)
    ensures forall i :: i in issues <==> Violates(v, currentYear, i)
    ensures issues == [] <==> Acceptable(v, currentYear)
  {
    AllChecksListed();
    AcceptableMeansNoViolation(v, currentYear);
    var issues := FailedChecks(v, currentYear, SchemaChecks);
    if issues == [] then issues
    else assert issues[0] in issues; issues
  }

  /** An issue as the form shows it: the field it is reported on and the
      message (None where the schema keeps the library's own). */
  datatype ReportedIssue = ReportedIssue(path: string, message: Option<string>)

  function Describe(i: Issue): ReportedIssue {
    ReportedIssue(Path(i), Message(i))
  }

  /** No two checks are reported alike. */
  lemma DescribeInjective()
    ensures forall i: Issue, j: Issue :: Describe(i) == Describe(j) ==> i == j
  {
  }

  /** The issues as shown, one per issue and in the same order. */
  function Report(issues: seq<Issue>): (reported: seq<ReportedIssue>)
    ensures |reported| == |issues|
    ensures forall k :: 0 <= k < |issues| ==> reported[k] == Describe(issues[k])
    ensures forall i :: Describe(i) in reported <==> i in issues
    decreases |issues|
  {
    DescribeInjective();
    if issues == [] then [] else [Describe(issues[0])] + Report(issues[1..])
  }

  /** Every issue shown for `v` describes a check that `v` fails. */
  lemma ReportedAreViolations(v: FormValues, currentYear: int)
    ensures forall r :: r in Report(Validate(v, currentYear)) ==>
      exists i :: Violates(v, currentYear, i) && r == Describe(i)
  {
    var issues := Validate(v, currentYear);
    var reported := Report(issues);
    forall r | r in reported
      ensures exists i :: Violates(v, currentYear, i) && r == Describe(i)
    {
      var k :| 0 <= k < |reported| && reported[k] == r;
      assert issues[k] in issues;
    }
  }

  /** The issues the schema reports for `v`, with their paths and messages. */
  function SchemaIssues(v: FormValues, currentYear: int): (reported: seq<ReportedIssue>)
    ensures reported == [] <==> Acceptable(v, currentYear)
    ensures forall r :: r in reported ==> exists i :: Violates(v, currentYear, i) && r == Describe(i)
    ensures ReportedIssue("model_number", Some("Model number is required")) in reported
      <==> |v.model_number| < 1
    ensures ReportedIssue("serial_number", Some("Serial number is required")) in reported
      <==> |v.serial_number| < 1
    ensures ReportedIssue("year", Some("Year must be valid")) in reported
      <==> v.year.Present? && v.year.value < MinYear
    ensures ReportedIssue("year", Some("Year cannot be in the future")) in reported
      <==> v.year.Present? && v.year.value > currentYear + 1
    ensures ReportedIssue("machine_type", None) in reported
      <==> v.machine_type.Present? && |v.machine_type.value| > MaxMachineTypeLength
    ensures ReportedIssue("engine_hours", Some("Engine hours must be positive")) in reported
      <==> v.engine_hours.Present? && v.engine_hours.value < 0.0
    ensures ReportedIssue("status", None) in reported <==> v.status !in Statuses
  {
    assert Describe(ModelNumberRequired) == ReportedIssue("model_number", Some("Model number is required"));
    assert Describe(SerialNumberRequired) == ReportedIssue("serial_number", Some("Serial number is required"));
    assert Describe(YearTooEarly) == ReportedIssue("year", Some("Year must be valid"));
    assert Describe(YearInFuture) == ReportedIssue("year", Some("Year cannot be in the future"));
    assert Describe(MachineTypeTooLong) == ReportedIssue("machine_type", None);
    assert Describe(NegativeEngineHours) == ReportedIssue("engine_hours", Some("Engine hours must be positive"));
    assert Describe(InvalidStatus) == ReportedIssue("status", None);
    ReportedAreViolations(v, currentYear);
    Report(Validate(v, currentYear))
  }

  // ---- Loading a stored record into the form ----

  /** `x || undefined` on a number: 0 becomes undefined too. */
  function NonZeroOrAbsent<T(==)>(f: Field<T>, zero: T): (r: Field<T>)
    ensures r.Absent? <==> !(f.Present? && f.value != zero)
    ensures r.Present? ==> r == f
  {
    if f.Present? && f.value != zero then f else Absent
  }

  /** No form value is null after a load. */
  predicate NoNulls(v: FormValues) {
    && !v.brand_id.Null? && !v.license_plate.Null? && !v.year.Null? && !v.machine_type.Null?
    && !v.engine_hours.Null? && !v.description.Null? && !v.notes.Null? && !v.customer_id.Null?
  }

  /** The form values the edit drawer resets to for a record. */
  function ResetValues(m: Machine): (v: FormValues)
    ensures NoNulls(v)
    ensures v.brand_id == Present(OrEmpty(m.brand_id)) && v.license_plate == Present(OrEmpty(m.license_plate))
    ensures v.machine_type == Present(OrEmpty(m.machine_type)) && v.description == Present(OrEmpty(m.description))
    ensures v.notes == Present(OrEmpty(m.notes)) && v.customer_id == Present(OrEmpty(m.customer_id))
    ensures v.model_number == m.model_number && v.serial_number == m.serial_number
    ensures v.status == if m.status == "" then "active" else m.status
    ensures v.year.Absent? <==> !(m.year.Present? && m.year.value != 0)
    ensures v.year.Present? ==> v.year == m.year
    ensures v.engine_hours.Absent? <==> !(m.engine_hours.Present? && m.engine_hours.value != 0.0)
    ensures v.engine_hours.Present? ==> v.engine_hours == m.engine_hours
  {
    FormValues(
      brand_id := Present(OrEmpty(m.brand_id)),
      model_number := m.model_number,
      serial_number := m.serial_number,
      license_plate := Present(OrEmpty(m.license_plate)),
      year := NonZeroOrAbsent(m.year, 0),
      machine_type := Present(OrEmpty(m.machine_type)),
      engine_hours := NonZeroOrAbsent(m.engine_hours, 0.0),
      status := if m.status == "" then "active" else m.status,
      description := Present(OrEmpty(m.description)),
      notes := Present(OrEmpty(m.notes)),
      customer_id := Present(OrEmpty(m.customer_id)))
  }

  /** A record's own fields, as they are, in form shape. */
  function AsStored(m: Machine): FormValues {
    FormValues(m.brand_id, m.model_number, m.serial_number, m.license_plate, m.year, m.machine_type,
      m.engine_hours, m.status, m.description, m.notes, m.customer_id)
  }

  /** Loading a record the schema accepts gives values the schema accepts,
      so an unchanged record can be saved again. */
  lemma ResetKeepsAcceptable(m: Machine, currentYear: int)
    requires Acceptable(AsStored(m), currentYear)
    ensures Acceptable(ResetValues(m), currentYear)
  {
    var v := ResetValues(m);
    assert m.status != "" by { assert m.status in Statuses; }
    if m.machine_type.Present? {
      assert v.machine_type.value == m.machine_type.value;
    }
  }

  /** A stored 0 in year or engine hours is not shown: the field comes up
      empty. A stored year of 0, which the schema rejects, therefore loads
      into values that pass the year checks. */
  lemma ZeroNumbersCleared(m: Machine, currentYear: int)
    ensures m.year == Present(0) ==>
      && ResetValues(m).year == Absent
      && Violates(AsStored(m), currentYear, YearTooEarly)
      && !Violates(ResetValues(m), currentYear, YearTooEarly)
      && !Violates(ResetValues(m), currentYear, YearInFuture)
    ensures m.engine_hours == Present(0.0) ==> ResetValues(m).engine_hours == Absent
  {
  }

  // ---- Customer select ----

  const NoCustomer := "none"

  /** What the select shows for the field's value: `value || "none"`. */
  function CustomerSelectValue(value: Field<string>): (shown: string)
    ensures TruthyText(value) ==> shown == value.value
    ensures !TruthyText(value) ==> shown == NoCustomer
  {
    if TruthyText(value) then value.value else NoCustomer
  }

  /** What a choice in the select stores: "none" clears the field. */
  function CustomerFieldValue(choice: string): (stored: string)
    ensures stored == "" <==> choice == NoCustomer || choice == ""
    ensures stored != "" ==> stored == choice
  {
    if choice == NoCustomer then "" else choice
  }

  /** Showing a stored customer and choosing it again stores it unchanged,
      for every id but the literal "none"; an empty field shows as "none". */
  lemma CustomerRoundTrip(value: string)
    requires value != NoCustomer
    ensures CustomerFieldValue(CustomerSelectValue(Present(value))) == value
    ensures value == "" ==> CustomerSelectValue(Present(value)) == NoCustomer
  {
  }

  /** Choosing an entry and showing the result gives the entry back. */
  lemma CustomerChoiceShown(choice: string)
    requires choice != ""
    ensures CustomerSelectValue(Present(CustomerFieldValue(choice))) == choice
  {
  }
}
