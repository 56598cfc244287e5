/** Value types shared by every part of the HR API model: optional values,
    the closed enumerations of the schema, signed-token payloads and JSON. */
module Common {

  datatype Option<+T> = None | Some(value: T)

  /** Primary keys are UUID strings. */
  type Id = string

  /** `users.role`: ENUM('admin', 'employee'). */
  datatype Role = Admin | Employee

  function RoleName(r: Role): string
  {
    match r
    case Admin => "admin"
    case Employee => "employee"
  }

  /** Reads a role as the request body spells it; anything outside the enum is refused. */
  function ParseRole(s: string): (r: Option<Role>)
    ensures r.Some? <==> s == "admin" || s == "employee"
    ensures r.Some? ==> RoleName(r.value) == s
  {
    if s == "admin" then Some(Admin)
    else if s == "employee" then Some(Employee)
    else None
  }

  /** `organizations.subscription_plan`: ENUM('Free', 'Basic', 'Premium', 'Enterprise'). */
  datatype Plan = Free | Basic | Premium | Enterprise

  function PlanName(p: Plan): string
  {
    match p
    case Free => "Free"
    case Basic => "Basic"
    case Premium => "Premium"
    case Enterprise => "Enterprise"
  }

  /** `employees.status`: ENUM('active', 'inactive', 'on_leave', 'terminated'). */
  datatype EmployeeStatus = Active | Inactive | OnLeave | Terminated

  function StatusName(s: EmployeeStatus): string
  {
    match s
    case Active => "active"
    case Inactive => "inactive"
    case OnLeave => "on_leave"
    case Terminated => "terminated"
  }

  /** An optional request value is "truthy" in JavaScript when it is present and not the empty string. */
  predicate Present(s: Option<string>)
  {
    s.Some? && s.value != ""
  }

  /** The claims of the two kinds of token the server signs. */
  datatype Payload =
    | AccessPayload(userId: Id, email: string, role: Role, organizationId: Option<Id>, isSuperAdmin: bool)
    | RefreshPayload(userId: Id, kind: string)

  /** A signed token, kept as what it carries: the claims, the secret it was
      signed with and its configured lifetime. */
  datatype Jwt = Jwt(payload: Payload, secret: string, expiresIn: string)

  /** A JSON value as the API writes it. Numbers are integers here; a signed
      token stands where the encoded token string is sent. */
  datatype Json =
    | JNull
    | JBool(b: bool)
    | JNum(n: int)
    | JStr(s: string)
    | JArr(items: seq<Json>)
    | JObj(fields: map<string, Json>)
    | JToken(token: Jwt)

  /** JavaScript truthiness of a JSON value. */
  predicate Truthy(j: Json)
  {
    match j
    case JNull => false
    case JBool(b) => b
    case JNum(n) => n != 0
    case JStr(s) => s != ""
    case _ => true
  }

  function OptStr(s: Option<string>): Json
  {
    if s.Some? then JStr(s.value) else JNull
  }

  function OptNum(n: Option<int>): Json
  {
    if n.Some? then JNum(n.value) else JNull
  }

  /** `Math.floor(a / b)` for a non-zero divisor of either sign. */
  function FloorDiv(a: int, b: int): (q: int)
    requires b != 0
    ensures b > 0 ==> q * b <= a < q * b + b
    ensures b < 0 ==> q * b + b < a <= q * b
  {
    if b > 0 then a / b else (-a) / (-b)
  }

  /** `Math.ceil(a / b)` for a non-zero divisor of either sign. */
  function CeilDiv(a: int, b: int): (q: int)
    requires b != 0
    ensures b > 0 ==> q * b - b < a <= q * b
    ensures b < 0 ==> q * b <= a < q * b - b
  {
    -FloorDiv(-a, b)
  }

  /** For a positive divisor, `Math.ceil(a / b)` is the least count of
      `b`-sized parts that holds `a`. */
  lemma CeilDivIsLeastCover(a: int, b: int)
    requires b > 0
    ensures (CeilDiv(a, b) - 1) * b < a <= CeilDiv(a, b) * b
  {
    var q := CeilDiv(a, b);
    assert (q - 1) * b == q * b - b;
  }

  /** Configuration read from the environment. */
  datatype Config = Config(
    jwtSecret: string,
    jwtRefreshSecret: string,
    jwtExpiresIn: Option<string>,
    jwtRefreshExpiresIn: Option<string>,
    superAdminEmail: Option<string>,
    nodeEnv: Option<string>)
}
