/** The `Employee` model: its columns and validators, the two per-organization
    unique indexes, `isActive`, the `where` merge of `findByOrganization` and
    `findActiveByOrganization`, and `generateEmployeeId`. */
module EmployeeModel {
  import opened Common
  import opened Text
  import Seqs

  /** A row of `employees`. `salary` is the DECIMAL(10, 2) column in cents. */
  datatype Employee = Employee(
    id: Id,
    organization_id: Id,
    user_id: Option<Id>,
    employee_id: string,
    name: string,
    email: string,
    phone: Option<string>,
    department: string,
    position: string,
    join_date: int,
    salary: int,
    status: EmployeeStatus,
    address: Option<string>,
    manager_id: Option<Id>)

  /** `isActive()`. */
  predicate IsActive(e: Employee)
  {
    e.status == Active
  }

  /** The column validators that bear on the model: a non-empty
      `employee_id`, a `name` of 2 to 255 characters, a `phone` of 10 to 20
      characters when given, non-empty `department` and `position`, and a
      salary of at least 0. (`isEmail` is a library check.) */
  predicate FieldsValid(e: Employee)
  {
    e.employee_id != "" && 2 <= |e.name| <= 255
    && (e.phone.Some? ==> 10 <= |e.phone.value| <= 20)
    && e.department != "" && e.position != "" && e.salary >= 0
  }

  /** The constraints the `employees` table holds: unique primary keys and the
      `unique_employee_id_per_organization` and
      `unique_employee_email_per_organization` indexes. */
  predicate EmployeesUnique(emps: seq<Employee>)
  {
    forall i, j :: 0 <= i < j < |emps| ==>
      && emps[i].id != emps[j].id
      && (emps[i].organization_id == emps[j].organization_id ==> emps[i].employee_id != emps[j].employee_id)
      && (emps[i].organization_id == emps[j].organization_id ==> emps[i].email != emps[j].email)
  }

  /** The rows as `toJSON` writes them. */
  function ToJson(e: Employee): (j: Json)
    ensures j.JObj? && "organization_id" in j.fields && j.fields["organization_id"] == JStr(e.organization_id)
    ensures "status" in j.fields && j.fields["status"] == JStr(StatusName(e.status))
  {
    JObj(map[
      "id" := JStr(e.id),
      "organization_id" := JStr(e.organization_id),
      "user_id" := OptStr(e.user_id),
      "employee_id" := JStr(e.employee_id),
      "name" := JStr(e.name),
      "email" := JStr(e.email),
      "phone" := OptStr(e.phone),
      "department" := JStr(e.department),
      "position" := JStr(e.position),
      "join_date" := JNum(e.join_date),
      "salary" := JNum(e.salary),
      "status" := JStr(StatusName(e.status)),
      "address" := OptStr(e.address),
      "manager_id" := OptStr(e.manager_id)])
  }

  // ---------------------------------------------------------------------
  // findByOrganization

  /** A `where` object of column equalities, each column to the text of its value. */
  type Where = map<string, string>

  /** The text of a column of a row, for the columns a `where` compares. */
  function Column(e: Employee, column: string): Option<string>
  {
    match column
    case "id" => Some(e.id)
    case "organization_id" => Some(e.organization_id)
    case "employee_id" => Some(e.employee_id)
    case "name" => Some(e.name)
    case "email" => Some(e.email)
    case "department" => Some(e.department)
    case "position" => Some(e.position)
    case "status" => Some(StatusName(e.status))
    case _ => None
  }

  predicate Matches(w: Where, e: Employee)
  {
    forall c :: c in w ==> Column(e, c) == Some(w[c])
  }

  /** The rows `findAll({ where: w })` returns, in table order. */
  function FindAll(emps: seq<Employee>, w: Where): (r: seq<Employee>)
    ensures forall e :: e in r ==> e in emps && Matches(w, e)
    ensures forall e :: e in emps && Matches(w, e) ==> e in r
  {
    Seqs.Filter(emps, e => Matches(w, e))
  }

  /** The options of `findByOrganization`; `where` is `Some` when the caller passes the key. */
  datatype FindOptions = FindOptions(where: Option<Where>)

  /** The `where` that reaches `findAll`: `{ organization_id, ...options.where }`
      is built first, but the `...options` spread that follows puts
      `options.where` itself back whenever the caller gave one. */
  function FindByOrganizationWhere(organizationId: Id, options: FindOptions): (w: Where)
    ensures options.where.Some? ==> w == options.where.value
    ensures options.where.None? ==> w == map["organization_id" := organizationId]
  {
    var merged := map["organization_id" := organizationId] + (if options.where.Some? then options.where.value else map[]);
    if options.where.Some? then options.where.value else merged
  }

  /** `findByOrganization(organizationId, options)` as written. */
  function FindByOrganization(emps: seq<Employee>, organizationId: Id, options: FindOptions): seq<Employee>
  {
    FindAll(emps, FindByOrganizationWhere(organizationId, options))
  }

  /** Without a caller `where` the query is scoped to the organization. */
  lemma FindByOrganizationScopedWithoutWhere(emps: seq<Employee>, organizationId: Id)
    ensures forall e :: e in FindByOrganization(emps, organizationId, FindOptions(None)) <==>
                          e in emps && e.organization_id == organizationId
  {
    forall e | e in emps
      ensures Matches(map["organization_id" := organizationId], e) <==> e.organization_id == organizationId
    {
      assert Column(e, "organization_id") == Some(e.organization_id);
    }
  }

  /** With a caller `where` the organization drops out of the query: the
      result is the same for every organization id. */
  lemma FindByOrganizationIgnoresOrganization(emps: seq<Employee>, a: Id, b: Id, w: Where)
    ensures FindByOrganization(emps, a, FindOptions(Some(w))) == FindByOrganization(emps, b, FindOptions(Some(w)))
  {
  }

  /** `findActiveByOrganization(organizationId)`. */
  function FindActiveByOrganization(emps: seq<Employee>, organizationId: Id): seq<Employee>
  {
    FindByOrganization(emps, organizationId, FindOptions(Some(map["status" := "active"])))
  }

  /** `findActiveByOrganization` returns the active employees of every organization. */
  lemma ActiveByOrganizationIsEveryActive(emps: seq<Employee>, organizationId: Id)
    ensures forall e :: e in FindActiveByOrganization(emps, organizationId) <==> e in emps && IsActive(e)
  {
    forall e | e in emps
      ensures Matches(map["status" := "active"], e) <==> IsActive(e)
    {
      assert Column(e, "status") == Some(StatusName(e.status));
    }
  }

  /** An active employee of another organization is among the results. */
  lemma ActiveByOrganizationCrossesTenants(e: Employee, organizationId: Id)
    requires IsActive(e) && e.organization_id != organizationId
    ensures e in FindActiveByOrganization([e], organizationId)
  {
    ActiveByOrganizationIsEveryActive([e], organizationId);
  }

  /** The merge as evidently intended: the caller's `where` narrows the
      organization's rows and cannot replace the organization. */
  function ScopedWhere(organizationId: Id, options: FindOptions): (w: Where)
    ensures "organization_id" in w && w["organization_id"] == organizationId
    ensures options.where.Some? ==> forall c :: c in options.where.value && c != "organization_id" ==> c in w && w[c] == options.where.value[c]
  {
    (if options.where.Some? then options.where.value else map[]) + map["organization_id" := organizationId]
  }

  function FindByOrganizationScoped(emps: seq<Employee>, organizationId: Id, options: FindOptions): seq<Employee>
  {
    FindAll(emps, ScopedWhere(organizationId, options))
  }

  /** The scoped query returns only rows of the organization, whatever the options. */
  lemma ScopedStaysInOrganization(emps: seq<Employee>, organizationId: Id, options: FindOptions)
    ensures forall e :: e in FindByOrganizationScoped(emps, organizationId, options) ==> e.organization_id == organizationId
  {
    var w := ScopedWhere(organizationId, options);
    forall e | e in FindByOrganizationScoped(emps, organizationId, options)
      ensures e.organization_id == organizationId
    {
      assert Column(e, "organization_id") == Some(w["organization_id"]);
    }
  }

  /** The scoped active query returns exactly the organization's active employees. */
  lemma ScopedActiveIsOrganizationActive(emps: seq<Employee>, organizationId: Id)
    ensures forall e :: e in FindByOrganizationScoped(emps, organizationId, FindOptions(Some(map["status" := "active"]))) <==>
                          e in emps && IsActive(e) && e.organization_id == organizationId
  {
    var w := ScopedWhere(organizationId, FindOptions(Some(map["status" := "active"])));
    assert w == map["status" := "active", "organization_id" := organizationId];
    forall e | e in emps
      ensures Matches(w, e) <==> IsActive(e) && e.organization_id == organizationId
    {
      assert Column(e, "status") == Some(StatusName(e.status));
      assert Column(e, "organization_id") == Some(e.organization_id);
    }
  }

  // ---------------------------------------------------------------------
  // generateEmployeeId

  /** `organizationId.substring(0, 3).toUpperCase()`. */
  function OrgPrefix(organizationId: Id): (p: string)
    ensures |p| == if |organizationId| < 3 then |organizationId| else 3
    ensures forall i :: 0 <= i < |p| ==> p[i] == UpperChar(organizationId[i])
  {
    Upper(organizationId[..if |organizationId| < 3 then |organizationId| else 3])
  }

  /** `String(n).padStart(4, '0')`. */
  function EmployeeNumber(n: nat): string
  {
    PadStart(NatToDecimal(n), 4, '0')
  }

  /** The padded number is a digit string worth `n`: four characters below
      10000, and longer, never cut, from 10000 on. */
  lemma {:induction false} EmployeeNumberValue(n: nat)
    ensures AllDigits(EmployeeNumber(n)) && DecimalValue(EmployeeNumber(n)) == n
    ensures n < 10000 ==> |EmployeeNumber(n)| == 4
    ensures n >= 10000 ==> |EmployeeNumber(n)| > 4
  {
    var d := NatToDecimal(n);
    var r := EmployeeNumber(n);
    var z := r[..|r| - |d|];
    assert r == z + d;
    LeadingZeros(z, d);
    DecimalValueOfNat(n);
    if n < 10000 {
      assert Pow10(4) == 10000;
      DecimalLengthAtMost(n, 4);
    } else {
      assert Pow10(4) == 10000;
      DecimalLength(n, 4);
    }
  }

  /** `generateEmployeeId` for an organization holding `count` employees. */
  function GenerateEmployeeId(organizationId: Id, count: nat): string
  {
    OrgPrefix(organizationId) + EmployeeNumber(count + 1)
  }

  /** The id is the upper-cased prefix followed by digits worth `count + 1`. */
  lemma {:induction false} GeneratedIdShape(organizationId: Id, count: nat)
    ensures var r := GenerateEmployeeId(organizationId, count); var p := OrgPrefix(organizationId);
      && |p| <= |r| && r[..|p|] == p
      && AllDigits(r[|p|..]) && DecimalValue(r[|p|..]) == count + 1
      && (|r| == |p| + 4 <==> count + 1 < 10000)
  {
    var r := GenerateEmployeeId(organizationId, count);
    var p := OrgPrefix(organizationId);
    assert r[..|p|] == p && r[|p|..] == EmployeeNumber(count + 1);
    EmployeeNumberValue(count + 1);
  }

  /** Different counts give different ids within an organization. */
  lemma {:induction false} GeneratedIdsDiffer(organizationId: Id, c1: nat, c2: nat)
    requires c1 != c2
    ensures GenerateEmployeeId(organizationId, c1) != GenerateEmployeeId(organizationId, c2)
  {
    GeneratedIdShape(organizationId, c1);
    GeneratedIdShape(organizationId, c2);
  }

  /** `where: { organization_id }`. */
  function OfOrganization(organizationId: Id): Employee -> bool
  {
    (e: Employee) => e.organization_id == organizationId
  }

  /** The count `generateEmployeeId` reads: the organization's rows. */
  function Headcount(emps: seq<Employee>, organizationId: Id): (n: nat)
    ensures n <= |emps|
  {
    Seqs.Count(emps, OfOrganization(organizationId))
  }

  /** The id `generateEmployeeId(organizationId)` returns over this table. */
  function NextEmployeeId(emps: seq<Employee>, organizationId: Id): string
  {
    GenerateEmployeeId(organizationId, Headcount(emps, organizationId))
  }

  /** Two generations with one insertion of the organization's and no
      deletion between them give numbers one apart behind the same prefix;
      an insertion for another organization changes nothing. */
  lemma {:induction false} ConsecutiveGenerations(emps: seq<Employee>, e: Employee, organizationId: Id)
    ensures var p := |OrgPrefix(organizationId)|;
      var a := NextEmployeeId(emps, organizationId); var b := NextEmployeeId(emps + [e], organizationId);
      && p <= |a| && p <= |b| && a[..p] == b[..p] && AllDigits(a[p..]) && AllDigits(b[p..])
      && DecimalValue(b[p..]) == DecimalValue(a[p..]) + (if e.organization_id == organizationId then 1 else 0)
  {
    Seqs.CountAppend(emps, e, OfOrganization(organizationId));
    GeneratedIdShape(organizationId, Headcount(emps, organizationId));
    GeneratedIdShape(organizationId, Headcount(emps + [e], organizationId));
  }

  /** Numbering by count repeats an id after a deletion: with two employees
      numbered in order, deleting the first makes the next id the second's. */
  lemma {:induction false} DeletionRepeatsId(emps: seq<Employee>, organizationId: Id)
    requires |emps| == 2
    requires forall i :: 0 <= i < 2 ==> emps[i].organization_id == organizationId
    requires forall i :: 0 <= i < 2 ==> emps[i].employee_id == GenerateEmployeeId(organizationId, i)
    ensures NextEmployeeId(emps[1..], organizationId) == emps[1].employee_id
  {
    assert emps[1..] == [emps[1]] && [emps[1]][1..] == [];
    assert Headcount(emps[1..], organizationId) == 1;
  }
}
