/** The `Organization` model: columns and defaults, the plan table of
    `getSubscriptionLimits`, and the seat arithmetic of `canAddEmployee`
    and `getUsagePercentage`. */
module OrgModel {
  import opened Common
  import opened Users
  import Seqs

  datatype Organization = Organization(
    id: Id,
    name: string,
    email: string,
    phone: Option<string>,
    address: Option<string>,
    industry: string,
    registered_date: int,
    subscription_plan: Plan,
    is_active: bool,
    employee_limit: int,
    admin_id: Option<Id>,
    tax_id: Option<string>,
    website: Option<string>)

  /** The values handed to `Organization.create`; `None` means the column default. */
  datatype OrgDraft = OrgDraft(
    id: Id,
    name: string,
    email: string,
    phone: Option<string>,
    address: Option<string>,
    industry: string,
    subscription_plan: Option<Plan>,
    employee_limit: Option<int>,
    tax_id: Option<string>,
    website: Option<string>)

  /** The stored row for a draft: plan Free, active, a limit of 10, no admin
      yet, registered now, unless the draft says otherwise. */
  function NewOrganization(d: OrgDraft, now: int): (o: Organization)
    ensures o.id == d.id && o.email == d.email && o.name == d.name
    ensures o.subscription_plan == (if d.subscription_plan.Some? then d.subscription_plan.value else Free)
    ensures o.employee_limit == (if d.employee_limit.Some? then d.employee_limit.value else 10)
    ensures o.is_active && o.admin_id.None? && o.registered_date == now
  {
    Organization(d.id, d.name, d.email, d.phone, d.address, d.industry, now,
                 GetOr(d.subscription_plan, Free), true, GetOr(d.employee_limit, 10), None, d.tax_id, d.website)
  }

  /** The row as `toJSON()` gives it; the model has no override, so every column. */
  function ToJson(o: Organization): (j: Json)
    ensures j.JObj? && j.fields.Keys == {"id", "name", "email", "phone", "address", "industry", "registered_date",
                                         "subscription_plan", "is_active", "employee_limit", "admin_id", "tax_id", "website"}
    ensures j.fields["id"] == JStr(o.id) && j.fields["employee_limit"] == JNum(o.employee_limit)
    ensures j.fields["subscription_plan"] == JStr(PlanName(o.subscription_plan))
  {
    JObj(map[
      "id" := JStr(o.id),
      "name" := JStr(o.name),
      "email" := JStr(o.email),
      "phone" := OptStr(o.phone),
      "address" := OptStr(o.address),
      "industry" := JStr(o.industry),
      "registered_date" := JNum(o.registered_date),
      "subscription_plan" := JStr(PlanName(o.subscription_plan)),
      "is_active" := JBool(o.is_active),
      "employee_limit" := JNum(o.employee_limit),
      "admin_id" := OptStr(o.admin_id),
      "tax_id" := OptStr(o.tax_id),
      "website" := OptStr(o.website)])
  }

  /** The column validators that bear on the model: `name` of 2 to 255
      characters, non-empty `industry`, a `phone` of 10 to 20 characters when
      given, and `employee_limit` at least 1. The last one refuses the -1
      that the plan table gives Enterprise. */
  predicate FieldsValid(o: Organization)
  {
    2 <= |o.name| <= 255 && o.industry != ""
    && (o.phone.Some? ==> 10 <= |o.phone.value| <= 20)
    && o.employee_limit >= 1
  }

  /** The emails of the organizations are unique, and so are their ids. */
  predicate OrgsUnique(orgs: seq<Organization>)
  {
    forall i, j :: 0 <= i < j < |orgs| ==> orgs[i].id != orgs[j].id && orgs[i].email != orgs[j].email
  }

  /** An entry of the plan table. */
  datatype PlanTerms = PlanTerms(employees: int, price: nat)

  /** The seat limit the table uses for "unlimited". */
  const Unlimited: int := -1

  /** `getSubscriptionLimits()[plan]`. */
  function SubscriptionLimits(p: Plan): (t: PlanTerms)
    ensures t.employees == Unlimited <==> p == Enterprise
    ensures t.employees != Unlimited ==> t.employees >= 10
  {
    match p
    case Free => PlanTerms(10, 0)
    case Basic => PlanTerms(50, 29)
    case Premium => PlanTerms(200, 99)
    case Enterprise => PlanTerms(-1, 299)
  }

  function PlanLimit(p: Plan): int
  {
    SubscriptionLimits(p).employees
  }

  /** The plan table: Free 10 seats at 0, Basic 50 at 29, Premium 200 at 99,
      and Enterprise unlimited at 299. */
  lemma PlanTable()
    ensures SubscriptionLimits(Free) == PlanTerms(10, 0) && PlanLimit(Free) == 10
    ensures SubscriptionLimits(Basic) == PlanTerms(50, 29) && PlanLimit(Basic) == 50
    ensures SubscriptionLimits(Premium) == PlanTerms(200, 99) && PlanLimit(Premium) == 200
    ensures SubscriptionLimits(Enterprise) == PlanTerms(Unlimited, 299) && PlanLimit(Enterprise) == Unlimited
  {
  }

  /** Dearer plans give more seats; Enterprise, the dearest, has no limit. */
  lemma PlanLimitsGrowWithPrice(p: Plan, q: Plan)
    requires SubscriptionLimits(p).price < SubscriptionLimits(q).price
    ensures PlanLimit(q) == Unlimited || (PlanLimit(p) != Unlimited && PlanLimit(p) < PlanLimit(q))
  {
  }

  /** The plan table's limit passes the column validator for every plan but Enterprise. */
  lemma PlanLimitValidity(p: Plan)
    ensures PlanLimit(p) >= 1 <==> p != Enterprise
  {
  }

  /** A user of this organization counted against its seats:
      `countUsers({ where: { role: ['admin', 'employee'] } })`, which is every
      user of the organization, active or not. */
  predicate CountsAsSeat(o: Organization, u: User)
  {
    u.organization_id == Some(o.id) && (u.role == Admin || u.role == Employee)
  }

  function SeatCount(o: Organization, users: seq<User>): (n: nat)
    ensures n <= |users|
  {
    Seqs.Count(users, u => CountsAsSeat(o, u))
  }

  /** `canAddEmployee()`: always with an unlimited plan, otherwise while the
      seats taken are strictly fewer than the limit. */
  function CanAddEmployeeFor(limit: int, count: nat): (ok: bool)
    ensures limit == Unlimited ==> ok
    ensures limit != Unlimited ==> (ok <==> count < limit)
  {
    if limit == Unlimited then true else count < limit
  }

  function CanAddEmployee(o: Organization, users: seq<User>): bool
  {
    CanAddEmployeeFor(o.employee_limit, SeatCount(o, users))
  }

  /** `Math.round((count / limit) * 100)` for a limit other than -1, and 0
      for -1. `Math.round(x)` is `floor(x + 1/2)`, so the value is
      `floor((200 * count + limit) / (2 * limit))`. A limit of 0 gives a
      non-finite number, which JSON writes as null: `None` here. */
  function UsagePercentageFor(limit: int, count: nat): (r: Option<int>)
    ensures limit == Unlimited ==> r == Some(0)
    ensures r.None? <==> limit == 0
  {
    if limit == Unlimited then Some(0)
    else if limit == 0 then None
    else Some(FloorDiv(200 * count + limit, 2 * limit))
  }

  function UsagePercentage(o: Organization, users: seq<User>): Option<int>
  {
    UsagePercentageFor(o.employee_limit, SeatCount(o, users))
  }

  /** For a positive limit the percentage is the integer nearest to
      `100 * count / limit`, halves rounded up. */
  lemma {:induction false} UsageIsNearestPercent(limit: int, count: nat)
    requires limit >= 1
    ensures UsagePercentageFor(limit, count).Some?
    ensures var v := UsagePercentageFor(limit, count).value;
      (2 * v - 1) * limit <= 200 * count < (2 * v + 1) * limit
  {
    var v := (200 * count + limit) / (2 * limit);
    var rem := (200 * count + limit) % (2 * limit);
    assert 200 * count + limit == 2 * limit * v + rem;
    assert 0 <= rem < 2 * limit;
    assert (2 * v - 1) * limit == 2 * limit * v - limit;
    assert (2 * v + 1) * limit == 2 * limit * v + limit;
  }

  /** With the seats within the limit the percentage lies in [0, 100]. */
  lemma {:induction false} UsageWithinBounds(limit: int, count: nat)
    requires 1 <= limit && count <= limit
    ensures var v := UsagePercentageFor(limit, count).value; 0 <= v <= 100
  {
    UsageIsNearestPercent(limit, count);
    var v := UsagePercentageFor(limit, count).value;
    assert (2 * v - 1) * limit <= 200 * count <= 200 * limit < 201 * limit;
    CancelPositive(2 * v - 1, 201, limit);
    assert 0 * limit <= 200 * count < (2 * v + 1) * limit;
    CancelPositive(0, 2 * v + 1, limit);
  }

  /** Multiplying by a positive factor keeps a strict order. */
  lemma CancelPositive(x: int, y: int, l: int)
    requires l > 0 && x * l < y * l
    ensures x < y
  {
  }

  /** A refused seat shows as at least 100 percent, an available one as at most 100. */
  lemma {:induction false} RefusalMeansFull(limit: int, count: nat)
    requires limit >= 1
    ensures var v := UsagePercentageFor(limit, count).value;
      (!CanAddEmployeeFor(limit, count) ==> v >= 100) && (CanAddEmployeeFor(limit, count) ==> v <= 100)
  {
    UsageIsNearestPercent(limit, count);
    var v := UsagePercentageFor(limit, count).value;
    if !CanAddEmployeeFor(limit, count) {
      assert 200 * limit <= 200 * count < (2 * v + 1) * limit;
      CancelPositive(200, 2 * v + 1, limit);
    } else {
      UsageWithinBounds(limit, count);
    }
  }
}
