/** The organization routes, all behind `authenticateToken`: the
    super-admin list and create, and get, update and statistics behind
    `requireOrganizationAccess`. */
module OrganizationRoutes {
  import opened Common
  import opened Text
  import opened Response
  import opened Users
  import opened OrgModel
  import Store
  import Seqs
  import opened AuthMiddleware

  /** The reply of every catch block: 500 with the route's own message. */
  function Failed(message: string): HttpResponse
  {
    Plain(500, "Internal Server Error", message)
  }

  // ---------------------------------------------------------------------
  // GET / : the list (super-admin only)

  datatype OrgQuery = OrgQuery(page: Option<string>, limit: Option<string>, search: Option<string>)

  function Page(q: OrgQuery): int { IntOr(q.page, 1) }
  function Limit(q: OrgQuery): int { IntOr(q.limit, 20) }

  /** A non-empty search keeps the organizations whose name, email or
      industry contains it, case aside; no search keeps them all. */
  predicate OrgAdmits(q: OrgQuery, o: Organization)
  {
    Present(q.search) ==>
      ContainsIgnoringCase(o.name, q.search.value) || ContainsIgnoringCase(o.email, q.search.value)
      || ContainsIgnoringCase(o.industry, q.search.value)
  }

  /** The admitted organizations, newest first. */
  function MatchingOrgs(orgs: seq<Organization>, q: OrgQuery): seq<Organization>
  {
    Seqs.Reverse(Seqs.Filter(orgs, (o: Organization) => OrgAdmits(q, o)))
  }

  function OrgRows(orgs: seq<Organization>, q: OrgQuery): seq<Organization>
  {
    Seqs.Window(MatchingOrgs(orgs, q), (Page(q) - 1) * Limit(q), Limit(q))
  }

  function OrgsJson(rows: seq<Organization>): (j: Json)
    ensures j.JArr? && |j.items| == |rows|
    ensures forall i :: 0 <= i < |rows| ==> j.items[i] == OrgModel.ToJson(rows[i])
  {
    JArr(seq(|rows|, i requires 0 <= i < |rows| => OrgModel.ToJson(rows[i])))
  }

  /** `GET /organizations`. */
  function ListOrganizations(caller: User, orgs: seq<Organization>, q: OrgQuery): HttpResponse
  {
    var gate := RequireSuperAdmin(Some(caller));
    if gate.Reject? then gate.response
    else
      var total := |MatchingOrgs(orgs, q)|;
      JsonReply(200, JObj(map[
        "data" := OrgsJson(OrgRows(orgs, q)),
        "total" := JNum(total),
        "page" := JNum(Page(q)),
        "limit" := JNum(Limit(q)),
        "totalPages" := JNum(CeilDiv(total, Limit(q)))]))
  }

  /** Only a super-admin lists organizations. */
  lemma ListOrganizationsGate(caller: User, orgs: seq<Organization>, q: OrgQuery)
    ensures ListOrganizations(caller, orgs, q).status == 200 <==> caller.is_super_admin
    ensures !caller.is_super_admin ==> ListOrganizations(caller, orgs, q) == Plain(403, "Forbidden", "Super admin access required")
  {
  }

  /** The page holds stored organizations that match the search, newest
      first, and the total counts every match. */
  lemma {:induction false} OrgRowsMatch(orgs: seq<Organization>, q: OrgQuery)
    ensures forall o :: o in OrgRows(orgs, q) ==> o in orgs && OrgAdmits(q, o)
    ensures |MatchingOrgs(orgs, q)| == Seqs.Count(orgs, (o: Organization) => OrgAdmits(q, o))
  {
    Seqs.CountIsFilterLength(orgs, (o: Organization) => OrgAdmits(q, o));
  }

  // ---------------------------------------------------------------------
  // POST / : create (super-admin only)

  /** The create body as the validators left it; `subscriptionPlan` is one
      of the four plans when given. */
  datatype CreateOrgBody = CreateOrgBody(
    name: string,
    email: string,
    phone: Option<string>,
    address: Option<string>,
    industry: string,
    subscriptionPlan: Option<Plan>,
    adminName: string,
    adminEmail: string,
    adminPassword: string,
    taxId: Option<string>,
    website: Option<string>)

  /** The plan, `Free` unless the body names one. */
  function ChosenPlan(b: CreateOrgBody): Plan
  {
    if b.subscriptionPlan.Some? then b.subscriptionPlan.value else Free
  }

  /** The draft handed to `Organization.create`: the limit comes from the plan table. */
  function OrgDraftOf(b: CreateOrgBody, id: Id): OrgDraft
  {
    OrgDraft(id, b.name, b.email, b.phone, b.address, b.industry, Some(ChosenPlan(b)),
             Some(PlanLimit(ChosenPlan(b))), b.taxId, b.website)
  }

  /** The draft of the organization's first admin. */
  function AdminDraft(b: CreateOrgBody, id: Id, organizationId: Id): UserDraft
  {
    UserDraft(id, Some(organizationId), b.adminEmail, b.adminPassword, b.adminName, Some(Admin), None, None, Some(true))
  }

  predicate OrgEmailTaken(orgs: seq<Organization>, email: string)
  {
    exists i | 0 <= i < |orgs| :: orgs[i].email == email
  }

  /** `User.findOne({ where: { email } })`: any user of any organization. */
  predicate UserEmailTaken(users: seq<User>, email: string)
  {
    exists i | 0 <= i < |users| :: users[i].email == email
  }

  /** The reply and the two tables after a create. */
  datatype CreateOutcome = CreateOutcome(reply: HttpResponse, users: seq<User>, orgs: seq<Organization>)

  /** The 201 body: the organization and a short view of its admin. */
  function CreatedReply(o: Organization, admin: User): HttpResponse
  {
    JsonReply(201, JObj(map[
      "data" := JObj(OrgModel.ToJson(o).fields["admin" := JObj(map["id" := JStr(admin.id), "name" := JStr(admin.name), "email" := JStr(admin.email)])]),
      "message" := JStr("Organization created successfully")]))
  }

  /** `POST /organizations` step by step. The three writes are not in a
      transaction: a write that fails leaves the earlier ones in place.
      `orgId` and `adminId` are the fresh UUIDs, `now` the clock. */
  function CreateOrganization(users: seq<User>, orgs: seq<Organization>, caller: User, b: CreateOrgBody,
                              bodyErrors: seq<Json>, orgId: Id, adminId: Id, now: int): CreateOutcome
  {
    var gate := RequireSuperAdmin(Some(caller));
    if gate.Reject? then CreateOutcome(gate.response, users, orgs)
    else if bodyErrors != [] then CreateOutcome(PlainValidation(JArr(bodyErrors)), users, orgs)
    else if OrgEmailTaken(orgs, b.email) then
      CreateOutcome(Plain(409, "Conflict", "Organization with this email already exists"), users, orgs)
    else if UserEmailTaken(users, b.adminEmail) then
      CreateOutcome(Plain(409, "Conflict", "User with this email already exists"), users, orgs)
    else
      var o := NewOrganization(OrgDraftOf(b, orgId), now);
      if Store.OrgWriteError(orgs, -1, o).Some? then CreateOutcome(Failed("Failed to create organization"), users, orgs)
      else
        var orgs1 := orgs + [o];
        var d := AdminDraft(b, adminId, o.id);
        if Store.UserInsertError(users, orgs1, d).Some? then CreateOutcome(Failed("Failed to create organization"), users, orgs1)
        else
          var admin := BeforeCreate(d);
          var o1 := o.(admin_id := Some(admin.id));
          if Store.OrgWriteError(orgs1, |orgs|, o1).Some? then CreateOutcome(Failed("Failed to create organization"), users + [admin], orgs1)
          else CreateOutcome(CreatedReply(o1, admin), users + [admin], orgs1[|orgs| := o1])
  }

  /** A 201 means: a super-admin asked, the body passed its validators, and
      neither the organization email nor the admin email was in use. */
  lemma {:induction false} CreatedOrganizationChecks(users: seq<User>, orgs: seq<Organization>, caller: User, b: CreateOrgBody,
                                                     bodyErrors: seq<Json>, orgId: Id, adminId: Id, now: int)
    requires CreateOrganization(users, orgs, caller, b, bodyErrors, orgId, adminId, now).reply.status == 201
    ensures caller.is_super_admin && bodyErrors == []
    ensures forall o :: o in orgs ==> o.email != b.email
    ensures forall u :: u in users ==> u.email != b.adminEmail
  {
    var gate := RequireSuperAdmin(Some(caller));
    assert gate.Pass?;
    forall o | o in orgs ensures o.email != b.email {
      var k :| 0 <= k < |orgs| && orgs[k] == o;
    }
    forall u | u in users ensures u.email != b.adminEmail {
      var k :| 0 <= k < |users| && users[k] == u;
    }
  }

  /** A 201 appends the organization, with the plan (Free by default), the
      plan table's limit and the admin's id, and appends the admin as a
      verified admin of it who signs in with the given password. */
  lemma {:induction false} CreatedOrganizationRows(users: seq<User>, orgs: seq<Organization>, caller: User, b: CreateOrgBody,
                                                   bodyErrors: seq<Json>, orgId: Id, adminId: Id, now: int)
    requires CreateOrganization(users, orgs, caller, b, bodyErrors, orgId, adminId, now).reply.status == 201
    ensures var r := CreateOrganization(users, orgs, caller, b, bodyErrors, orgId, adminId, now);
      && |r.orgs| == |orgs| + 1 && r.orgs[..|orgs|] == orgs
      && |r.users| == |users| + 1 && r.users[..|users|] == users
      && var o := r.orgs[|orgs|]; var admin := r.users[|users|];
         && o.id == orgId && o.email == b.email && o.is_active
         && o.subscription_plan == ChosenPlan(b) && o.employee_limit == PlanLimit(ChosenPlan(b))
         && o.admin_id == Some(adminId)
         && admin.id == adminId && admin.organization_id == Some(orgId) && admin.role == Admin
         && !admin.is_super_admin && admin.email_verified && admin.email == b.adminEmail
         && ValidatePassword(admin, b.adminPassword)
  {
    var d := AdminDraft(b, adminId, orgId);
    assert DraftValid(d);
    assert b.adminPassword != "";
    var r := CreateOrganization(users, orgs, caller, b, bodyErrors, orgId, adminId, now);
    assert r.orgs[..|orgs|] == orgs;
  }

  /** The organization email is checked before the admin email, and the
      admin email against every user of every organization. */
  lemma EmailChecksInOrder(users: seq<User>, orgs: seq<Organization>, caller: User, b: CreateOrgBody, orgId: Id, adminId: Id, now: int, k: nat)
    requires caller.is_super_admin && k < |users| && users[k].email == b.adminEmail
    ensures var r := CreateOrganization(users, orgs, caller, b, [], orgId, adminId, now);
      && r.users == users && r.orgs == orgs
      && r.reply == (if OrgEmailTaken(orgs, b.email) then Plain(409, "Conflict", "Organization with this email already exists")
                     else Plain(409, "Conflict", "User with this email already exists"))
  {
  }

  /** An Enterprise organization can never be created: the table's -1
      fails the `employee_limit` validator, so the reply is 500 and nothing is written. */
  lemma {:induction false} EnterpriseCannotBeCreated(users: seq<User>, orgs: seq<Organization>, caller: User, b: CreateOrgBody,
                                                     bodyErrors: seq<Json>, orgId: Id, adminId: Id, now: int)
    requires b.subscriptionPlan == Some(Enterprise)
    ensures var r := CreateOrganization(users, orgs, caller, b, bodyErrors, orgId, adminId, now);
      r.reply.status != 201 && r.users == users && r.orgs == orgs
  {
    var o := NewOrganization(OrgDraftOf(b, orgId), now);
    assert !OrgModel.FieldsValid(o);
  }

  /** When the admin cannot be stored (a password longer than 255
      characters passes the route's validator but not the column's), the
      reply is 500 yet the new organization stays, with no admin. */
  lemma {:induction false} OrganizationOutlivesFailedAdmin(users: seq<User>, orgs: seq<Organization>, caller: User, b: CreateOrgBody,
                                                          orgId: Id, adminId: Id, now: int)
    requires caller.is_super_admin && b.subscriptionPlan != Some(Enterprise)
    requires !OrgEmailTaken(orgs, b.email) && !UserEmailTaken(users, b.adminEmail)
    requires forall i :: 0 <= i < |orgs| ==> orgs[i].id != orgId
    requires OrgModel.FieldsValid(NewOrganization(OrgDraftOf(b, orgId), now))
    requires |b.adminPassword| > 255
    ensures var r := CreateOrganization(users, orgs, caller, b, [], orgId, adminId, now);
      && r.reply == Failed("Failed to create organization") && r.users == users
      && r.orgs == orgs + [NewOrganization(OrgDraftOf(b, orgId), now)]
      && r.orgs[|orgs|].admin_id.None?
  {
    var o := NewOrganization(OrgDraftOf(b, orgId), now);
    assert Store.OrgWriteError(orgs, -1, o).None?;
    assert !DraftValid(AdminDraft(b, adminId, o.id));
  }

  /** The create handler over the database. */
  method CreateRoute(db: Store.Database, caller: User, b: CreateOrgBody, bodyErrors: seq<Json>,
                     orgId: Id, adminId: Id, now: int) returns (r: HttpResponse)
    requires db.Valid()
    modifies db
    ensures db.Valid()
    ensures var out := CreateOrganization(old(db.users), old(db.orgs), caller, b, bodyErrors, orgId, adminId, now);
      r == out.reply && db.users == out.users && db.orgs == out.orgs
    ensures db.employees == old(db.employees)
  {
    var gate := RequireSuperAdmin(Some(caller));
    if gate.Reject? {
      return gate.response;
    }
    if bodyErrors != [] {
      return PlainValidation(JArr(bodyErrors));
    }
    if OrgEmailTaken(db.orgs, b.email) {
      return Plain(409, "Conflict", "Organization with this email already exists");
    }
    if UserEmailTaken(db.users, b.adminEmail) {
      return Plain(409, "Conflict", "User with this email already exists");
    }
    var o := NewOrganization(OrgDraftOf(b, orgId), now);
    var index := |db.orgs|;
    var err := db.InsertOrg(o);
    if err.Some? {
      return Failed("Failed to create organization");
    }
    var created := db.CreateUser(AdminDraft(b, adminId, o.id));
    if created.Err? {
      return Failed("Failed to create organization");
    }
    var admin := created.value;
    var o1 := o.(admin_id := Some(admin.id));
    err := db.UpdateOrg(index, o1);
    if err.Some? {
      return Failed("Failed to create organization");
    }
    r := CreatedReply(o1, admin);
  }

  // ---------------------------------------------------------------------
  // GET /:organizationId, PUT /:organizationId, GET /:organizationId/stats

  /** `requireOrganizationAccess()` on these routes: the path always carries
      the organization id, so the body is never consulted. */
  function OrgAccess(caller: User, organizationId: Id): Gate
  {
    RequireOrganizationAccess(caller, Some(organizationId), JNull)
  }

  /** A caller who is not super-admin passes only for its own organization. */
  lemma {:induction false} OrgAccessIsOwnOrganization(caller: User, organizationId: Id)
    ensures OrgAccess(caller, organizationId).Pass? <==>
              caller.is_super_admin || (organizationId != "" && caller.organization_id == Some(organizationId))
  {
    if !caller.is_super_admin && organizationId != "" && OrgAccess(caller, organizationId).Pass? {
      assert JStr(organizationId) == OptStr(caller.organization_id);
    }
  }

  function GetOrganization(caller: User, orgs: seq<Organization>, organizationId: Id): HttpResponse
  {
    var gate := OrgAccess(caller, organizationId);
    if gate.Reject? then gate.response
    else
      var o := Store.FindOrg(orgs, Some(organizationId));
      if o.None? then Plain(404, "Not Found", "Organization not found")
      else JsonReply(200, JObj(map["data" := OrgModel.ToJson(o.value)]))
  }

  /** A 200 carries the stored organization with the asked id, and only to
      its own members or a super-admin; an unknown id gives 404 to whoever passes the gate. */
  lemma {:induction false} GetOrganizationMeans(caller: User, orgs: seq<Organization>, organizationId: Id)
    ensures var r := GetOrganization(caller, orgs, organizationId);
      && (r.status == 200 ==> (caller.is_super_admin || caller.organization_id == Some(organizationId))
                              && exists o :: o in orgs && o.id == organizationId && r == JsonReply(200, JObj(map["data" := OrgModel.ToJson(o)])))
      && (OrgAccess(caller, organizationId).Pass? && !Store.HasOrg(orgs, organizationId) ==> r == Plain(404, "Not Found", "Organization not found"))
  {
    OrgAccessIsOwnOrganization(caller, organizationId);
  }

  /** The update body: every column it names is written as given, and
      `subscriptionPlan` is the plan switch the route handles itself. */
  datatype OrgPatch = OrgPatch(
    name: Option<string>,
    email: Option<string>,
    phone: Option<string>,
    address: Option<string>,
    industry: Option<string>,
    subscriptionPlan: Option<Plan>,
    subscription_plan: Option<Plan>,
    employee_limit: Option<int>,
    is_active: Option<bool>,
    admin_id: Option<Id>,
    tax_id: Option<string>,
    website: Option<string>,
    registered_date: Option<int>)

  /** The body names a plan other than the current one. */
  predicate PlanChanges(o: Organization, p: OrgPatch)
  {
    p.subscriptionPlan.Some? && p.subscriptionPlan.value != o.subscription_plan
  }

  /** `organization.update(updateData)`, after a plan change has put the
      plan and its table limit into `updateData` over whatever the body said. */
  function ApplyOrgPatch(o: Organization, p: OrgPatch): (r: Organization)
    ensures r.id == o.id
    ensures p.registered_date.Some? ==> r.registered_date == p.registered_date.value
    ensures p.registered_date.None? ==> r.registered_date == o.registered_date
  {
    var change := PlanChanges(o, p);
    o.(name := GetOr(p.name, o.name),
       email := GetOr(p.email, o.email),
       phone := if p.phone.Some? then p.phone else o.phone,
       address := if p.address.Some? then p.address else o.address,
       industry := GetOr(p.industry, o.industry),
       subscription_plan := if change then p.subscriptionPlan.value else GetOr(p.subscription_plan, o.subscription_plan),
       employee_limit := if change then PlanLimit(p.subscriptionPlan.value) else GetOr(p.employee_limit, o.employee_limit),
       is_active := GetOr(p.is_active, o.is_active),
       admin_id := if p.admin_id.Some? then p.admin_id else o.admin_id,
       tax_id := if p.tax_id.Some? then p.tax_id else o.tax_id,
       website := if p.website.Some? then p.website else o.website,
       registered_date := GetOr(p.registered_date, o.registered_date))
  }

  /** A new plan brings its table limit; the same plan, or none, leaves plan
      and limit as they were unless the body writes those columns itself. */
  lemma PlanChangeSetsLimit(o: Organization, p: OrgPatch)
    ensures PlanChanges(o, p) ==>
              ApplyOrgPatch(o, p).subscription_plan == p.subscriptionPlan.value
              && ApplyOrgPatch(o, p).employee_limit == PlanLimit(p.subscriptionPlan.value)
    ensures !PlanChanges(o, p) && p.subscription_plan.None? && p.employee_limit.None? ==>
              ApplyOrgPatch(o, p).subscription_plan == o.subscription_plan
              && ApplyOrgPatch(o, p).employee_limit == o.employee_limit
  {
  }

  datatype OrgUpdateStep = OrgRefused(response: HttpResponse) | OrgWrite(index: nat, row: Organization)

  /** The checks of update in their order: organization access, validation, the organization. */
  function DecideOrgUpdate(orgs: seq<Organization>, caller: User, organizationId: Id, p: OrgPatch, bodyErrors: seq<Json>): (s: OrgUpdateStep)
    ensures s.OrgWrite? ==> s.index < |orgs| && orgs[s.index].id == organizationId && s.row == ApplyOrgPatch(orgs[s.index], p)
  {
    var gate := OrgAccess(caller, organizationId);
    if gate.Reject? then OrgRefused(gate.response)
    else if bodyErrors != [] then OrgRefused(PlainValidation(JArr(bodyErrors)))
    else
      var i := Store.OrgIndex(orgs, organizationId);
      if i.None? then OrgRefused(Plain(404, "Not Found", "Organization not found"))
      else OrgWrite(i.value, ApplyOrgPatch(orgs[i.value], p))
  }

  function OrgUpdateReply(orgs: seq<Organization>, s: OrgUpdateStep): HttpResponse
    requires s.OrgWrite? ==> s.index < |orgs|
  {
    match s
    case OrgRefused(r) => r
    case OrgWrite(i, o) =>
      if Store.OrgWriteError(orgs, i, o).Some? then Failed("Failed to update organization")
      else JsonReply(200, JObj(map["data" := OrgModel.ToJson(o), "message" := JStr("Organization updated successfully")]))
  }

  /** Only the caller's own organization is written unless the caller is a
      super-admin; there is no admin check, so any member may write it,
      seat limit and plan included. */
  lemma {:induction false} OrgUpdateAccess(orgs: seq<Organization>, caller: User, organizationId: Id, p: OrgPatch)
    ensures var s := DecideOrgUpdate(orgs, caller, organizationId, p, []);
      s.OrgWrite? && !caller.is_super_admin ==> caller.organization_id == Some(orgs[s.index].id)
    ensures Store.HasOrg(orgs, organizationId) && organizationId != "" && caller.organization_id == Some(organizationId) ==>
              DecideOrgUpdate(orgs, caller, organizationId, p, []).OrgWrite?
  {
    OrgAccessIsOwnOrganization(caller, organizationId);
  }

  /** Any member of an organization, an `employee` included, can set its
      seat limit to any positive number by naming `employee_limit` in the body. */
  lemma {:induction false} MemberCanSetSeatLimit(orgs: seq<Organization>, caller: User, organizationId: Id, n: int)
    requires OrgModel.OrgsUnique(orgs) && forall i :: 0 <= i < |orgs| ==> OrgModel.FieldsValid(orgs[i])
    requires organizationId != "" && caller.organization_id == Some(organizationId) && Store.HasOrg(orgs, organizationId)
    requires n >= 1
    ensures var p := OrgPatch(None, None, None, None, None, None, None, Some(n), None, None, None, None, None);
      var s := DecideOrgUpdate(orgs, caller, organizationId, p, []);
      s.OrgWrite? && s.row.employee_limit == n && OrgUpdateReply(orgs, s).status == 200
  {
    OrgAccessIsOwnOrganization(caller, organizationId);
    var p := OrgPatch(None, None, None, None, None, None, None, Some(n), None, None, None, None, None);
    var s := DecideOrgUpdate(orgs, caller, organizationId, p, []);
    assert OrgModel.FieldsValid(orgs[s.index]);
    assert s.row == orgs[s.index].(employee_limit := n);
    forall i | 0 <= i < |orgs| && i != s.index
      ensures orgs[i].id != s.row.id && orgs[i].email != s.row.email
    {
      if i < s.index {
        assert orgs[i].id != orgs[s.index].id && orgs[i].email != orgs[s.index].email;
      } else {
        assert orgs[s.index].id != orgs[i].id && orgs[s.index].email != orgs[i].email;
      }
    }
  }

  /** Switching to Enterprise always fails with 500: the table's -1 fails the validator. */
  lemma EnterpriseSwitchFails(orgs: seq<Organization>, caller: User, organizationId: Id, p: OrgPatch)
    requires p.subscriptionPlan == Some(Enterprise)
    requires var s := DecideOrgUpdate(orgs, caller, organizationId, p, []); s.OrgWrite? && PlanChanges(orgs[s.index], p)
    ensures OrgUpdateReply(orgs, DecideOrgUpdate(orgs, caller, organizationId, p, [])) == Failed("Failed to update organization")
  {
  }

  /** The update handler over the database. */
  method UpdateRoute(db: Store.Database, caller: User, organizationId: Id, p: OrgPatch, bodyErrors: seq<Json>)
    returns (r: HttpResponse)
    requires db.Valid()
    modifies db
    ensures db.Valid()
    ensures var s := DecideOrgUpdate(old(db.orgs), caller, organizationId, p, bodyErrors);
      && r == OrgUpdateReply(old(db.orgs), s)
      && (r.status == 200 ==> s.OrgWrite? && db.orgs == old(db.orgs)[s.index := s.row])
      && (r.status != 200 ==> db.orgs == old(db.orgs))
    ensures db.users == old(db.users) && db.employees == old(db.employees)
  {
    var gate := OrgAccess(caller, organizationId);
    if gate.Reject? {
      return gate.response;
    }
    if bodyErrors != [] {
      return PlainValidation(JArr(bodyErrors));
    }
    var i := Store.OrgIndex(db.orgs, organizationId);
    if i.None? {
      return Plain(404, "Not Found", "Organization not found");
    }
    var o := ApplyOrgPatch(db.orgs[i.value], p);
    var err := db.UpdateOrg(i.value, o);
    if err.Some? {
      return Failed("Failed to update organization");
    }
    r := JsonReply(200, JObj(map["data" := OrgModel.ToJson(o), "message" := JStr("Organization updated successfully")]));
  }

  // ---------------------------------------------------------------------
  // GET /:organizationId/stats

  predicate ActiveMember(organizationId: Id, u: User)
  {
    u.organization_id == Some(organizationId) && u.is_active
  }

  function OfRole(organizationId: Id, role: Role): User -> bool
  {
    (u: User) => ActiveMember(organizationId, u) && u.role == role
  }

  /** The statistics of one organization. */
  function StatsJson(o: Organization, users: seq<User>): Json
  {
    JObj(map[
      "totalUsers" := JNum(Seqs.Count(users, (u: User) => ActiveMember(o.id, u))),
      "adminCount" := JNum(Seqs.Count(users, OfRole(o.id, Admin))),
      "employeeCount" := JNum(Seqs.Count(users, OfRole(o.id, Employee))),
      "employeeLimit" := JNum(o.employee_limit),
      "usagePercentage" := OptNum(UsagePercentage(o, users)),
      "subscriptionPlan" := JStr(PlanName(o.subscription_plan)),
      "isActive" := JBool(o.is_active),
      "registeredDate" := JNum(o.registered_date)])
  }

  function OrganizationStats(caller: User, users: seq<User>, orgs: seq<Organization>, organizationId: Id): HttpResponse
  {
    var gate := OrgAccess(caller, organizationId);
    if gate.Reject? then gate.response
    else
      var o := Store.FindOrg(orgs, Some(organizationId));
      if o.None? then Plain(404, "Not Found", "Organization not found")
      else JsonReply(200, JObj(map["data" := StatsJson(o.value, users)]))
  }

  /** Every active member is an admin or an employee, never both, so the two
      role counts add up to the total. */
  lemma {:induction false} RoleCountsAddUp(users: seq<User>, organizationId: Id)
    ensures Seqs.Count(users, OfRole(organizationId, Admin)) + Seqs.Count(users, OfRole(organizationId, Employee))
            == Seqs.Count(users, (u: User) => ActiveMember(organizationId, u))
  {
    Seqs.CountSplit(users, (u: User) => ActiveMember(organizationId, u), OfRole(organizationId, Admin), OfRole(organizationId, Employee));
  }

  /** The statistics go to members of the organization and to super-admins only,
      and for a stored organization they are its own. */
  lemma {:induction false} StatsMeans(caller: User, users: seq<User>, orgs: seq<Organization>, organizationId: Id)
    ensures var r := OrganizationStats(caller, users, orgs, organizationId);
      && (r.status == 200 ==> caller.is_super_admin || caller.organization_id == Some(organizationId))
      && (r.status == 200 ==> exists o :: o in orgs && o.id == organizationId && r == JsonReply(200, JObj(map["data" := StatsJson(o, users)])))
      && (OrgAccess(caller, organizationId).Pass? && !Store.HasOrg(orgs, organizationId) ==> r == Plain(404, "Not Found", "Organization not found"))
  {
    OrgAccessIsOwnOrganization(caller, organizationId);
  }
}
