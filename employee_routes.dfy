/** The employee routes, all behind `authenticateToken`: the list with its
    `whereClause` and pagination, get by id under the tenant filter, and the
    admin-only create, update and delete with their checks in order. */
module EmployeeRoutes {
  import opened Common
  import opened Text
  import opened Response
  import Users
  import opened EmployeeModel
  import OrgModel
  import Store
  import Seqs
  import opened AuthMiddleware

  // ---------------------------------------------------------------------
  // GET / : the list

  /** The query string of the list; `None` for a parameter not given. */
  datatype ListQuery = ListQuery(
    page: Option<string>,
    limit: Option<string>,
    department: Option<string>,
    status: Option<string>,
    search: Option<string>)

  function Page(q: ListQuery): int { IntOr(q.page, 1) }
  function Limit(q: ListQuery): int { IntOr(q.limit, 20) }

  /** `(page - 1) * limit`. */
  function Offset(q: ListQuery): int { (Page(q) - 1) * Limit(q) }

  /** The `whereClause` the list builds. */
  datatype ListWhere = ListWhere(
    organization: Option<Option<Id>>,
    department: Option<string>,
    status: Option<string>,
    search: Option<string>)

  /** `ILIKE '%search%'` on one of the four searched columns. */
  predicate SearchHits(e: Employee, search: string)
  {
    ContainsIgnoringCase(e.name, search) || ContainsIgnoringCase(e.email, search)
    || ContainsIgnoringCase(e.employee_id, search) || ContainsIgnoringCase(e.position, search)
  }

  /** The rows a `whereClause` admits, as SQL reads it. */
  predicate ClauseMatches(w: ListWhere, e: Employee)
  {
    && InTenant(w.organization, e.organization_id)
    && (w.department.Some? ==> e.department == w.department.value)
    && (w.status.Some? ==> StatusName(e.status) == w.status.value)
    && (w.search.Some? ==> SearchHits(e, w.search.value))
  }

  /** Which rows the list is meant to show: those of the tenant, of the
      department and status asked for when they are given, and matching a
      non-empty search on name, email, employee number or position. */
  predicate ListAdmits(filter: Option<Option<Id>>, q: ListQuery, e: Employee)
  {
    && InTenant(filter, e.organization_id)
    && (Present(q.department) ==> e.department == q.department.value)
    && (Present(q.status) ==> StatusName(e.status) == q.status.value)
    && (Present(q.search) ==> SearchHits(e, q.search.value))
  }

  /** Builds the `whereClause` field by field: the tenant filter first,
      then each filter that was given a non-empty value. */
  method BuildListWhere(filter: Option<Option<Id>>, q: ListQuery) returns (w: ListWhere)
    ensures forall e :: ClauseMatches(w, e) <==> ListAdmits(filter, q, e)
  {
    w := ListWhere(filter, None, None, None);
    if Present(q.department) {
      w := w.(department := q.department);
    }
    if Present(q.status) {
      w := w.(status := q.status);
    }
    var search := if Present(q.search) then q.search.value else "";
    if search != "" {
      w := w.(search := Some(search));
    }
  }

  /** Every row the filters admit, newest first (`ORDER BY created_at DESC`). */
  function Matching(emps: seq<Employee>, filter: Option<Option<Id>>, q: ListQuery): seq<Employee>
  {
    Seqs.Reverse(Seqs.Filter(emps, (e: Employee) => ListAdmits(filter, q, e)))
  }

  /** The page of rows `findAndCountAll` returns. */
  function ListRows(emps: seq<Employee>, filter: Option<Option<Id>>, q: ListQuery): seq<Employee>
  {
    Seqs.Window(Matching(emps, filter, q), Offset(q), Limit(q))
  }

  function RowsJson(rows: seq<Employee>): (j: Json)
    ensures j.JArr? && |j.items| == |rows|
    ensures forall i :: 0 <= i < |rows| ==> j.items[i] == ToJson(rows[i])
  {
    JArr(seq(|rows|, i requires 0 <= i < |rows| => ToJson(rows[i])))
  }

  /** The 200 reply of the list: rows, total, page, limit and `Math.ceil(total / limit)`. */
  function ListReply(emps: seq<Employee>, filter: Option<Option<Id>>, q: ListQuery): HttpResponse
  {
    var total := |Matching(emps, filter, q)|;
    JsonReply(200, JObj(map[
      "data" := RowsJson(ListRows(emps, filter, q)),
      "total" := JNum(total),
      "page" := JNum(Page(q)),
      "limit" := JNum(Limit(q)),
      "totalPages" := JNum(CeilDiv(total, Limit(q)))]))
  }

  /** A user who is not super-admin lists rows of the own organization only,
      and at most as many as the limit. */
  lemma ListIsolation(u: Users.User, emps: seq<Employee>, q: ListQuery)
    requires !u.is_super_admin
    ensures forall e :: e in ListRows(emps, TenantFilter(u), q) ==> e in emps && u.organization_id == Some(e.organization_id)
    ensures Limit(q) > 0 ==> |ListRows(emps, TenantFilter(u), q)| <= Limit(q)
  {
    var m := Matching(emps, TenantFilter(u), q);
    var f := Seqs.Filter(emps, (e: Employee) => ListAdmits(TenantFilter(u), q, e));
    forall e | e in ListRows(emps, TenantFilter(u), q)
      ensures e in emps && u.organization_id == Some(e.organization_id)
    {
      var k :| 0 <= k < |ListRows(emps, TenantFilter(u), q)| && ListRows(emps, TenantFilter(u), q)[k] == e;
      assert e in m;
      var j :| 0 <= j < |m| && m[j] == e;
      assert m[j] == f[|f| - 1 - j];
      assert ListAdmits(TenantFilter(u), q, e);
    }
  }

  /** The pages split the admitted rows without gap or overlap: asked for
      page `k / limit + 1` (written in decimal, see `Text.IntOrOfDecimal`), the list shows the k-th row (newest first) as
      its row `k % limit`. */
  lemma {:induction false} PageHoldsRow(emps: seq<Employee>, filter: Option<Option<Id>>, q: ListQuery, k: nat)
    requires Limit(q) > 0 && k < |Matching(emps, filter, q)|
    requires Page(q) == k / Limit(q) + 1
    ensures k % Limit(q) < |ListRows(emps, filter, q)|
    ensures ListRows(emps, filter, q)[k % Limit(q)] == Matching(emps, filter, q)[k]
  {
    var limit := Limit(q);
    assert Offset(q) == (k / limit) * limit;
    Seqs.WindowHolds(Matching(emps, filter, q), limit, k);
  }

  /** `totalPages` is the least number of pages of `limit` rows that holds
      every admitted row. */
  lemma TotalPagesHoldAll(emps: seq<Employee>, filter: Option<Option<Id>>, q: ListQuery)
    requires Limit(q) > 0
    ensures var total := |Matching(emps, filter, q)|; var pages := CeilDiv(total, Limit(q));
      (pages - 1) * Limit(q) < total <= pages * Limit(q)
  {
    CeilDivIsLeastCover(|Matching(emps, filter, q)|, Limit(q));
  }

  /** The list for an authenticated request: `addOrganizationFilter`, then the query. */
  method ListRoute(db: Store.Database, req: Request, q: ListQuery) returns (r: HttpResponse)
    requires req.user.Some? && req.organizationFilter.None?
    modifies req
    ensures r == ListReply(db.employees, TenantFilter(old(req.user).value), q)
  {
    req.AddOrganizationFilter();
    var filter := req.organizationFilter;
    var w := BuildListWhere(filter, q);
    Seqs.FilterSame(db.employees, (e: Employee) => ClauseMatches(w, e), (e: Employee) => ListAdmits(filter, q, e));
    var matching := Seqs.Reverse(Seqs.Filter(db.employees, (e: Employee) => ClauseMatches(w, e)));
    var page := IntOr(q.page, 1);
    var limit := IntOr(q.limit, 20);
    var offset := (page - 1) * limit;
    var rows := Seqs.Window(matching, offset, limit);
    r := JsonReply(200, JObj(map[
      "data" := RowsJson(rows),
      "total" := JNum(|matching|),
      "page" := JNum(page),
      "limit" := JNum(limit),
      "totalPages" := JNum(CeilDiv(|matching|, limit))]));
  }

  // ---------------------------------------------------------------------
  // GET /:employeeId

  /** `findOne({ where: { id, ...organizationFilter } })`. */
  function FindInTenant(emps: seq<Employee>, filter: Option<Option<Id>>, id: Id): (r: Option<Employee>)
    ensures r.Some? ==> r.value in emps && r.value.id == id && InTenant(filter, r.value.organization_id)
    ensures r.None? ==> forall e :: e in emps && e.id == id ==> !InTenant(filter, e.organization_id)
  {
    var i := Seqs.FirstWhere(emps, (e: Employee) => e.id == id && InTenant(filter, e.organization_id));
    if i.Some? then Some(emps[i.value]) else None
  }

  function NotFoundPlain(message: string): HttpResponse
  {
    Plain(404, "Not Found", message)
  }

  function GetReply(emps: seq<Employee>, filter: Option<Option<Id>>, id: Id): HttpResponse
  {
    var e := FindInTenant(emps, filter, id);
    if e.None? then NotFoundPlain("Employee not found") else JsonReply(200, JObj(map["data" := ToJson(e.value)]))
  }

  /** A user who is not super-admin gets a row only of the own organization;
      a row of another organization is answered like a missing one. */
  lemma GetIsolation(u: Users.User, emps: seq<Employee>, id: Id)
    requires !u.is_super_admin
    ensures FindInTenant(emps, TenantFilter(u), id).Some? ==> u.organization_id == Some(FindInTenant(emps, TenantFilter(u), id).value.organization_id)
    ensures (forall e :: e in emps && e.id == id ==> u.organization_id != Some(e.organization_id)) ==>
              GetReply(emps, TenantFilter(u), id) == NotFoundPlain("Employee not found")
  {
  }

  method GetRoute(db: Store.Database, req: Request, id: Id) returns (r: HttpResponse)
    requires req.user.Some? && req.organizationFilter.None?
    modifies req
    ensures r == GetReply(db.employees, TenantFilter(old(req.user).value), id)
  {
    req.AddOrganizationFilter();
    var e := FindInTenant(db.employees, req.organizationFilter, id);
    if e.None? {
      return NotFoundPlain("Employee not found");
    }
    r := JsonReply(200, JObj(map["data" := ToJson(e.value)]));
  }

  // ---------------------------------------------------------------------
  // POST / : create

  /** The create body, as the validators left it (`status` is one of the four when given). */
  datatype CreateBody = CreateBody(
    name: string,
    email: string,
    phone: Option<string>,
    department: string,
    position: string,
    salary: int,
    joinDate: Option<int>,
    status: Option<EmployeeStatus>,
    address: Option<string>,
    managerId: Option<Id>)

  /** The row `Employee.create` is given. */
  function NewEmployee(b: CreateBody, organizationId: Id, employeeId: string, id: Id, now: int): Employee
  {
    EmployeeModel.Employee(id, organizationId, None, employeeId, b.name, b.email, b.phone, b.department, b.position,
             if b.joinDate.Some? then b.joinDate.value else now, b.salary,
             if b.status.Some? then b.status.value else Active, b.address, b.managerId)
  }

  /** Where the checks of a create end: a reply, or the row to insert. */
  datatype CreateStep = CreateRefused(response: HttpResponse) | CreateInsert(row: Employee)

  predicate EmailTaken(emps: seq<Employee>, organizationId: Id, email: string)
  {
    exists i | 0 <= i < |emps| :: emps[i].email == email && emps[i].organization_id == organizationId
  }

  /** The checks of create in their order: admin, validation (`bodyErrors`
      is `validationResult(req).array()`), the caller's organization, the
      seat limit, the email within the organization. `id` is the fresh UUID. */
  function DecideCreate(users: seq<Users.User>, orgs: seq<OrgModel.Organization>, emps: seq<Employee>,
                        caller: Users.User, b: CreateBody, bodyErrors: seq<Json>, id: Id, now: int): CreateStep
  {
    var admin := RequireAdmin(Some(caller));
    if admin.Reject? then CreateRefused(admin.response)
    else if bodyErrors != [] then CreateRefused(PlainValidation(JArr(bodyErrors)))
    else
      var org := Store.FindOrg(orgs, caller.organization_id);
      if org.None? then CreateRefused(NotFoundPlain("Organization not found"))
      else if !OrgModel.CanAddEmployee(org.value, users) then
        CreateRefused(Plain(403, "Forbidden", "Employee limit reached for current subscription plan"))
      else if EmailTaken(emps, org.value.id, b.email) then
        CreateRefused(Plain(409, "Conflict", "Employee with this email already exists"))
      else CreateInsert(NewEmployee(b, org.value.id, NextEmployeeId(emps, org.value.id), id, now))
  }

  /** The reply: the refusal, a 500 when the insert is refused, or 201 with the row. */
  function CreateReply(orgs: seq<OrgModel.Organization>, emps: seq<Employee>, step: CreateStep): HttpResponse
  {
    match step
    case CreateRefused(r) => r
    case CreateInsert(e) =>
      if Store.EmployeeWriteError(emps, orgs, -1, e).Some? then Plain(500, "Internal Server Error", "Failed to create employee")
      else JsonReply(201, JObj(map["data" := ToJson(e), "message" := JStr("Employee created successfully")]))
  }

  /** A row is inserted only for an admin of an existing organization with a
      free seat and an email new to it; the row belongs to the caller's
      organization and carries the generated number, status `active` and
      today's date unless the body says otherwise. */
  lemma {:induction false} CreatedRowMeans(users: seq<Users.User>, orgs: seq<OrgModel.Organization>, emps: seq<Employee>,
                                           caller: Users.User, b: CreateBody, bodyErrors: seq<Json>, id: Id, now: int)
    requires DecideCreate(users, orgs, emps, caller, b, bodyErrors, id, now).CreateInsert?
    ensures var e := DecideCreate(users, orgs, emps, caller, b, bodyErrors, id, now).row;
      && (caller.role == Common.Admin || caller.is_super_admin) && bodyErrors == []
      && caller.organization_id == Some(e.organization_id) && Store.HasOrg(orgs, e.organization_id)
      && OrgModel.CanAddEmployee(Store.FindOrg(orgs, caller.organization_id).value, users)
      && (forall x :: x in emps && x.organization_id == e.organization_id ==> x.email != b.email)
      && e.id == id && e.email == b.email && e.employee_id == NextEmployeeId(emps, e.organization_id)
      && e.status == (if b.status.Some? then b.status.value else Active)
      && e.join_date == (if b.joinDate.Some? then b.joinDate.value else now)
  {
    var org := Store.FindOrg(orgs, caller.organization_id);
    assert org.Some?;
    forall x | x in emps && x.organization_id == org.value.id
      ensures x.email != b.email
    {
      var k :| 0 <= k < |emps| && emps[k] == x;
    }
  }

  /** The seat check comes before the email check: a full organization
      answers 403 even for an email it already has. */
  lemma SeatLimitBeforeDuplicateEmail(users: seq<Users.User>, orgs: seq<OrgModel.Organization>, emps: seq<Employee>,
                                      caller: Users.User, b: CreateBody, id: Id, now: int)
    requires RequireAdmin(Some(caller)).Pass?
    requires Store.FindOrg(orgs, caller.organization_id).Some?
    requires !OrgModel.CanAddEmployee(Store.FindOrg(orgs, caller.organization_id).value, users)
    ensures CreateReply(orgs, emps, DecideCreate(users, orgs, emps, caller, b, [], id, now)).status == 403
  {
  }

  /** A super-admin has no organization of its own, so its creates end in 404. */
  lemma SuperAdminCannotCreate(users: seq<Users.User>, orgs: seq<OrgModel.Organization>, emps: seq<Employee>,
                               caller: Users.User, b: CreateBody, id: Id, now: int)
    requires caller.is_super_admin && caller.organization_id.None?
    ensures CreateReply(orgs, emps, DecideCreate(users, orgs, emps, caller, b, [], id, now)) == NotFoundPlain("Organization not found")
  {
  }

  /** Seats are counted over users: the employees table never fills them,
      so the seat check gives the same answer whatever employees exist. */
  lemma SeatCheckIgnoresEmployees(users: seq<Users.User>, orgs: seq<OrgModel.Organization>, emps: seq<Employee>, emps': seq<Employee>,
                                  caller: Users.User, b: CreateBody, id: Id, now: int)
    ensures var r := CreateReply(orgs, emps, DecideCreate(users, orgs, emps, caller, b, [], id, now));
      var r' := CreateReply(orgs, emps', DecideCreate(users, orgs, emps', caller, b, [], id, now));
      (r == Plain(403, "Forbidden", "Employee limit reached for current subscription plan")) <==>
      (r' == Plain(403, "Forbidden", "Employee limit reached for current subscription plan"))
  {
  }

  /** When the generated number is already taken in the organization — as
      it is after a deletion — the insert is refused and the reply is 500. */
  lemma CreateFailsOnTakenNumber(users: seq<Users.User>, orgs: seq<OrgModel.Organization>, emps: seq<Employee>,
                                 caller: Users.User, b: CreateBody, id: Id, now: int, k: nat)
    requires DecideCreate(users, orgs, emps, caller, b, [], id, now).CreateInsert?
    requires var e := DecideCreate(users, orgs, emps, caller, b, [], id, now).row;
      k < |emps| && emps[k].organization_id == e.organization_id && emps[k].employee_id == e.employee_id
    ensures CreateReply(orgs, emps, DecideCreate(users, orgs, emps, caller, b, [], id, now)).status == 500
  {
  }

  /** The create handler over the database. */
  method CreateRoute(db: Store.Database, caller: Users.User, b: CreateBody, bodyErrors: seq<Json>, id: Id, now: int)
    returns (r: HttpResponse)
    requires db.Valid()
    modifies db
    ensures db.Valid()
    ensures var step := DecideCreate(old(db.users), old(db.orgs), old(db.employees), caller, b, bodyErrors, id, now);
      && r == CreateReply(old(db.orgs), old(db.employees), step)
      && (r.status == 201 ==> step.CreateInsert? && db.employees == old(db.employees) + [step.row])
      && (r.status != 201 ==> db.employees == old(db.employees))
    ensures db.users == old(db.users) && db.orgs == old(db.orgs)
  {
    var admin := RequireAdmin(Some(caller));
    if admin.Reject? {
      return admin.response;
    }
    if bodyErrors != [] {
      return PlainValidation(JArr(bodyErrors));
    }
    var org := Store.FindOrg(db.orgs, caller.organization_id);
    if org.None? {
      return NotFoundPlain("Organization not found");
    }
    if !OrgModel.CanAddEmployee(org.value, db.users) {
      return Plain(403, "Forbidden", "Employee limit reached for current subscription plan");
    }
    if EmailTaken(db.employees, org.value.id, b.email) {
      return Plain(409, "Conflict", "Employee with this email already exists");
    }
    var employeeId := NextEmployeeId(db.employees, org.value.id);
    var e := NewEmployee(b, org.value.id, employeeId, id, now);
    var err := db.InsertEmployee(e);
    if err.Some? {
      return Plain(500, "Internal Server Error", "Failed to create employee");
    }
    r := JsonReply(201, JObj(map["data" := ToJson(e), "message" := JStr("Employee created successfully")]));
  }

  // ---------------------------------------------------------------------
  // PUT /:employeeId : update

  /** The update body: every column it names is written as given. */
  datatype EmployeePatch = EmployeePatch(
    organization_id: Option<Id>,
    user_id: Option<Id>,
    employee_id: Option<string>,
    name: Option<string>,
    email: Option<string>,
    phone: Option<string>,
    department: Option<string>,
    position: Option<string>,
    join_date: Option<int>,
    salary: Option<int>,
    status: Option<EmployeeStatus>,
    address: Option<string>,
    manager_id: Option<Id>)

  /** `employee.update(updateData)` on the row's values. */
  function ApplyPatch(e: Employee, p: EmployeePatch): (r: Employee)
    ensures r.id == e.id
  {
    EmployeeModel.Employee(e.id, Users.GetOr(p.organization_id, e.organization_id), if p.user_id.Some? then p.user_id else e.user_id,
             Users.GetOr(p.employee_id, e.employee_id), Users.GetOr(p.name, e.name), Users.GetOr(p.email, e.email),
             if p.phone.Some? then p.phone else e.phone, Users.GetOr(p.department, e.department), Users.GetOr(p.position, e.position),
             Users.GetOr(p.join_date, e.join_date), Users.GetOr(p.salary, e.salary), Users.GetOr(p.status, e.status),
             if p.address.Some? then p.address else e.address, if p.manager_id.Some? then p.manager_id else e.manager_id)
  }

  /** `findOne({ where: { id, organization_id: req.user.organization_id } })`:
      there is no super-admin exception, and a null organization finds nothing. */
  function FindInCallerOrg(emps: seq<Employee>, caller: Users.User, id: Id): (r: Option<nat>)
    ensures r.Some? ==> r.value < |emps| && emps[r.value].id == id && caller.organization_id == Some(emps[r.value].organization_id)
    ensures r.None? ==> forall i :: 0 <= i < |emps| && emps[i].id == id ==> caller.organization_id != Some(emps[i].organization_id)
  {
    Seqs.FirstWhere(emps, (e: Employee) => e.id == id && caller.organization_id == Some(e.organization_id))
  }

  /** Another row of the caller's organization already has this email. */
  predicate EmailUsedByOther(emps: seq<Employee>, caller: Users.User, id: Id, email: string)
  {
    exists i | 0 <= i < |emps| :: emps[i].email == email && caller.organization_id == Some(emps[i].organization_id) && emps[i].id != id
  }

  datatype UpdateStep = UpdateRefused(response: HttpResponse) | UpdateWrite(index: nat, row: Employee)

  /** The checks of update in their order. */
  function DecideUpdate(emps: seq<Employee>, caller: Users.User, id: Id, p: EmployeePatch, bodyErrors: seq<Json>): (s: UpdateStep)
    ensures s.UpdateWrite? ==> s.index < |emps| && s.row == ApplyPatch(emps[s.index], p)
  {
    var admin := RequireAdmin(Some(caller));
    if admin.Reject? then UpdateRefused(admin.response)
    else if bodyErrors != [] then UpdateRefused(PlainValidation(JArr(bodyErrors)))
    else
      var i := FindInCallerOrg(emps, caller, id);
      if i.None? then UpdateRefused(NotFoundPlain("Employee not found"))
      else if Present(p.email) && p.email.value != emps[i.value].email && EmailUsedByOther(emps, caller, id, p.email.value) then
        UpdateRefused(Plain(409, "Conflict", "Employee with this email already exists"))
      else UpdateWrite(i.value, ApplyPatch(emps[i.value], p))
  }

  function UpdateReply(orgs: seq<OrgModel.Organization>, emps: seq<Employee>, s: UpdateStep): HttpResponse
    requires s.UpdateWrite? ==> s.index < |emps|
  {
    match s
    case UpdateRefused(r) => r
    case UpdateWrite(i, e) =>
      if Store.EmployeeWriteError(emps, orgs, i, e).Some? then Plain(500, "Internal Server Error", "Failed to update employee")
      else JsonReply(200, JObj(map["data" := ToJson(e), "message" := JStr("Employee updated successfully")]))
  }

  /** Only a row of the caller's own organization is ever written, and a
      caller without organization — a super-admin included — always gets 404. */
  lemma UpdateStaysInCallerOrganization(emps: seq<Employee>, caller: Users.User, id: Id, p: EmployeePatch)
    ensures var s := DecideUpdate(emps, caller, id, p, []);
      s.UpdateWrite? ==> emps[s.index].id == id && caller.organization_id == Some(emps[s.index].organization_id)
    ensures caller.organization_id.None? && RequireAdmin(Some(caller)).Pass? ==>
              DecideUpdate(emps, caller, id, p, []) == UpdateRefused(NotFoundPlain("Employee not found"))
  {
  }

  /** The 409 comes only for a new, different email that another row of the
      caller's organization holds. */
  lemma UpdateEmailConflict(emps: seq<Employee>, caller: Users.User, id: Id, p: EmployeePatch)
    requires RequireAdmin(Some(caller)).Pass? && FindInCallerOrg(emps, caller, id).Some?
    ensures var cur := emps[FindInCallerOrg(emps, caller, id).value];
      DecideUpdate(emps, caller, id, p, []).UpdateRefused? <==>
        Present(p.email) && p.email.value != cur.email && EmailUsedByOther(emps, caller, id, p.email.value)
  {
  }

  /** The body is written as given, `organization_id` and `employee_id`
      included: an admin can move a row into another organization. */
  lemma UpdateWritesBodyAsGiven(emps: seq<Employee>, caller: Users.User, id: Id, p: EmployeePatch)
    requires DecideUpdate(emps, caller, id, p, []).UpdateWrite?
    ensures var e := DecideUpdate(emps, caller, id, p, []).row;
      && (p.organization_id.Some? ==> e.organization_id == p.organization_id.value)
      && (p.employee_id.Some? ==> e.employee_id == p.employee_id.value)
      && (p.organization_id.None? ==> caller.organization_id == Some(e.organization_id))
  {
  }

  /** The update handler over the database. */
  method UpdateRoute(db: Store.Database, caller: Users.User, id: Id, p: EmployeePatch, bodyErrors: seq<Json>)
    returns (r: HttpResponse)
    requires db.Valid()
    modifies db
    ensures db.Valid()
    ensures var s := DecideUpdate(old(db.employees), caller, id, p, bodyErrors);
      && r == UpdateReply(old(db.orgs), old(db.employees), s)
      && (r.status == 200 ==> s.UpdateWrite? && db.employees == old(db.employees)[s.index := s.row])
      && (r.status != 200 ==> db.employees == old(db.employees))
    ensures db.users == old(db.users) && db.orgs == old(db.orgs)
  {
    var admin := RequireAdmin(Some(caller));
    if admin.Reject? {
      return admin.response;
    }
    if bodyErrors != [] {
      return PlainValidation(JArr(bodyErrors));
    }
    var i := FindInCallerOrg(db.employees, caller, id);
    if i.None? {
      return NotFoundPlain("Employee not found");
    }
    var current := db.employees[i.value];
    if Present(p.email) && p.email.value != current.email && EmailUsedByOther(db.employees, caller, id, p.email.value) {
      return Plain(409, "Conflict", "Employee with this email already exists");
    }
    var e := ApplyPatch(current, p);
    var err := db.UpdateEmployee(i.value, e);
    if err.Some? {
      return Plain(500, "Internal Server Error", "Failed to update employee");
    }
    r := JsonReply(200, JObj(map["data" := ToJson(e), "message" := JStr("Employee updated successfully")]));
  }

  // ---------------------------------------------------------------------
  // DELETE /:employeeId

  /** The delete handler: the caller's row with that id goes, and only it. */
  method DeleteRoute(db: Store.Database, caller: Users.User, id: Id) returns (r: HttpResponse)
    requires db.Valid()
    modifies db
    ensures db.Valid()
    ensures RequireAdmin(Some(caller)).Reject? ==> r == RequireAdmin(Some(caller)).response && db.employees == old(db.employees)
    ensures RequireAdmin(Some(caller)).Pass? && FindInCallerOrg(old(db.employees), caller, id).None? ==>
              r == NotFoundPlain("Employee not found") && db.employees == old(db.employees)
    ensures RequireAdmin(Some(caller)).Pass? && FindInCallerOrg(old(db.employees), caller, id).Some? ==>
              var i := FindInCallerOrg(old(db.employees), caller, id).value;
              r == EmptyReply(204) && db.employees == old(db.employees)[..i] + old(db.employees)[i + 1..]
    ensures db.users == old(db.users) && db.orgs == old(db.orgs)
  {
    var admin := RequireAdmin(Some(caller));
    if admin.Reject? {
      return admin.response;
    }
    var i := FindInCallerOrg(db.employees, caller, id);
    if i.None? {
      return NotFoundPlain("Employee not found");
    }
    db.DeleteEmployee(i.value);
    r := EmptyReply(204);
  }

  /** A delete takes one row of the organization away, so the next generated
      number is one lower than before it. */
  lemma {:induction false} DeleteLowersHeadcount(emps: seq<Employee>, i: nat)
    requires i < |emps|
    ensures Headcount(emps[..i] + emps[i + 1..], emps[i].organization_id) + 1 == Headcount(emps, emps[i].organization_id)
  {
    Seqs.CountRemove(emps, i, OfOrganization(emps[i].organization_id));
  }
}
