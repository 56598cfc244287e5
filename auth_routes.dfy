/** The authentication routes: `/login` (validation, the super-admin or
    role-based lookup, the password check, the organization check, the
    `last_login` stamp and the token pair), `/refresh`, `/logout` and `/me`. */
module AuthRoutes {
  import opened Common
  import opened Response
  import opened Users
  import OrgModel
  import Store
  import Seqs
  import opened AuthMiddleware

  /** The seconds the login and refresh replies announce, whatever lifetime is configured. */
  const AnnouncedLifetime: int := 86400

  // ---------------------------------------------------------------------
  // /login

  /** The login body. `emailWellFormed` is the verdict of the `isEmail`
      check; the email is taken as `normalizeEmail` left it. */
  datatype LoginBody = LoginBody(email: string, emailWellFormed: bool, password: string, role: string)

  function ValidationEntry(path: string, msg: string): Json
  {
    JObj(map["path" := JStr(path), "msg" := JStr(msg)])
  }

  /** `validationResult(req).array()` for `loginValidation`, in chain order. */
  function LoginErrors(b: LoginBody): (errs: seq<Json>)
    ensures errs == [] <==> b.emailWellFormed && |b.password| >= 6 && ParseRole(b.role).Some?
  {
    (if b.emailWellFormed then [] else [ValidationEntry("email", "Valid email is required")])
    + (if |b.password| >= 6 then [] else [ValidationEntry("password", "Password must be at least 6 characters")])
    + (if ParseRole(b.role).Some? then [] else [ValidationEntry("role", "Role must be admin or employee")])
  }

  /** `email === process.env.SUPER_ADMIN_EMAIL`; an unset variable matches no email. */
  predicate IsSuperAdminEmail(cfg: Config, email: string)
  {
    cfg.superAdminEmail == Some(email)
  }

  /** The row `User.findOne` finds: `{email, is_super_admin: true, is_active: true}`
      for the configured super-admin email, `{email, role, is_active: true}` otherwise. */
  function LoginLookup(users: seq<User>, b: LoginBody, cfg: Config): (r: Option<nat>)
    requires ParseRole(b.role).Some?
    ensures r.Some? ==> r.value < |users| && users[r.value].email == b.email && users[r.value].is_active
    ensures r.Some? && IsSuperAdminEmail(cfg, b.email) ==> users[r.value].is_super_admin
    ensures r.Some? && !IsSuperAdminEmail(cfg, b.email) ==> users[r.value].role == ParseRole(b.role).value
    ensures r.None? && IsSuperAdminEmail(cfg, b.email) ==>
              forall i :: 0 <= i < |users| && users[i].email == b.email && users[i].is_active ==> !users[i].is_super_admin
    ensures r.None? && !IsSuperAdminEmail(cfg, b.email) ==>
              forall i :: 0 <= i < |users| && users[i].email == b.email && users[i].is_active ==> users[i].role != ParseRole(b.role).value
  {
    var email := b.email;
    if IsSuperAdminEmail(cfg, email) then
      Seqs.FirstWhere(users, (u: User) => u.email == email && u.is_super_admin && u.is_active)
    else
      var role := ParseRole(b.role).value;
      Seqs.FirstWhere(users, (u: User) => u.email == email && u.role == role && u.is_active)
  }

  /** Where a login ends. `WrongPassword`, `OrgInactive` and `LoggedIn` carry the row found. */
  datatype LoginDecision =
    | BadInput(errors: seq<Json>)
    | NoSuchUser
    | WrongPassword(index: nat)
    | OrgInactive(index: nat)
    | LoggedIn(index: nat)

  /** The checks of `/login`, in their order. */
  function DecideLogin(users: seq<User>, orgs: seq<OrgModel.Organization>, b: LoginBody, cfg: Config): (d: LoginDecision)
    ensures d.BadInput? <==> LoginErrors(b) != []
    ensures d.BadInput? ==> d.errors == LoginErrors(b)
    ensures d.NoSuchUser? <==> LoginErrors(b) == [] && LoginLookup(users, b, cfg).None?
    ensures d.WrongPassword? ==> LoginErrors(b) == [] && LoginLookup(users, b, cfg) == Some(d.index)
                                 && !ValidatePassword(users[d.index], b.password)
    ensures d.OrgInactive? ==> LoginErrors(b) == [] && LoginLookup(users, b, cfg) == Some(d.index)
                               && ValidatePassword(users[d.index], b.password) && OrgBlocked(orgs, users[d.index])
    ensures d.LoggedIn? ==> LoginErrors(b) == [] && LoginLookup(users, b, cfg) == Some(d.index)
                            && ValidatePassword(users[d.index], b.password) && !OrgBlocked(orgs, users[d.index])
  {
    var errs := LoginErrors(b);
    if errs != [] then BadInput(errs)
    else
      var i := LoginLookup(users, b, cfg);
      if i.None? then NoSuchUser
      else if !ValidatePassword(users[i.value], b.password) then WrongPassword(i.value)
      else if OrgBlocked(orgs, users[i.value]) then OrgInactive(i.value)
      else LoggedIn(i.value)
  }

  /** `user.organization ? {id, name} : null`; the super-admin lookup does not include the organization. */
  function LoginOrganization(orgs: seq<OrgModel.Organization>, u: User, superPath: bool): Json
  {
    var o := OrgOf(orgs, u);
    if superPath || o.None? then JNull
    else JObj(map["id" := JStr(o.value.id), "name" := JStr(o.value.name)])
  }

  function SessionUser(u: User): map<string, Json>
  {
    map["id" := JStr(u.id), "email" := JStr(u.email), "name" := JStr(u.name), "role" := JStr(RoleName(u.role)),
        "organizationId" := OptStr(u.organization_id), "isSuperAdmin" := JBool(u.is_super_admin)]
  }

  /** The reply each decision gets. */
  function LoginReply(users: seq<User>, orgs: seq<OrgModel.Organization>, b: LoginBody, cfg: Config, d: LoginDecision): (r: HttpResponse)
    requires (d.WrongPassword? || d.OrgInactive? || d.LoggedIn?) ==> d.index < |users|
  {
    match d
    case BadInput(errs) => ValidationError(JArr(errs), Some("Invalid input data"))
    case NoSuchUser => Unauthorized(Some("Invalid credentials"))
    case WrongPassword(_) => Unauthorized(Some("Invalid credentials"))
    case OrgInactive(_) => Plain(403, "Forbidden", "Organization is inactive")
    case LoggedIn(i) =>
      var u := users[i];
      var user := SessionUser(u)["organization" := LoginOrganization(orgs, u, IsSuperAdminEmail(cfg, b.email))];
      JsonReply(200, JObj(map[
        "status" := JBool(true),
        "message" := JStr("Login successful"),
        "data" := JObj(map[
          "token" := JToken(GenerateToken(u, cfg)),
          "refreshToken" := JToken(GenerateRefreshToken(u, cfg)),
          "user" := JObj(user),
          "expiresIn" := JNum(AnnouncedLifetime)])]))
  }

  function Login(users: seq<User>, orgs: seq<OrgModel.Organization>, b: LoginBody, cfg: Config): HttpResponse
  {
    LoginReply(users, orgs, b, cfg, DecideLogin(users, orgs, b, cfg))
  }

  /** Bad input is answered with a 400 before any row is looked at. */
  lemma ValidationComesFirst(users: seq<User>, orgs: seq<OrgModel.Organization>, users': seq<User>, orgs': seq<OrgModel.Organization>,
                             b: LoginBody, cfg: Config)
    requires !b.emailWellFormed || |b.password| < 6 || ParseRole(b.role).None?
    ensures Login(users, orgs, b, cfg).status == 400
    ensures Login(users, orgs, b, cfg) == Login(users', orgs', b, cfg)
  {
  }

  /** An unknown account and a wrong password get the same reply, and no
      other outcome gets it. */
  lemma {:induction false} LoginFailuresLookAlike(users: seq<User>, orgs: seq<OrgModel.Organization>, b: LoginBody, cfg: Config)
    ensures var d := DecideLogin(users, orgs, b, cfg);
      (d.NoSuchUser? || d.WrongPassword?) <==> Login(users, orgs, b, cfg) == Unauthorized(Some("Invalid credentials"))
  {
    var d := DecideLogin(users, orgs, b, cfg);
    var invalid := Unauthorized(Some("Invalid credentials"));
    assert Field(invalid, "error") == Some(JStr("Unauthorized"));
    if d.BadInput? {
      assert Login(users, orgs, b, cfg).status == 400;
    } else if d.OrgInactive? {
      assert "status" !in Login(users, orgs, b, cfg).body.fields;
    } else if d.LoggedIn? {
      assert Login(users, orgs, b, cfg).status == 200;
    }
  }

  /** A login succeeds only for an active row of that email and the right
      password whose organization, if any, is active; the row is the
      super-admin for the configured email and of the requested role otherwise. */
  lemma {:induction false} LoginSuccessMeans(users: seq<User>, orgs: seq<OrgModel.Organization>, b: LoginBody, cfg: Config)
    requires DecideLogin(users, orgs, b, cfg).LoggedIn?
    ensures var u := users[DecideLogin(users, orgs, b, cfg).index];
      && u.email == b.email && u.is_active && ValidatePassword(u, b.password) && !OrgBlocked(orgs, u)
      && (IsSuperAdminEmail(cfg, b.email) ==> u.is_super_admin)
      && (!IsSuperAdminEmail(cfg, b.email) ==> RoleName(u.role) == b.role)
  {
    var i := LoginLookup(users, b, cfg);
    assert i.Some? && DecideLogin(users, orgs, b, cfg).index == i.value;
  }

  /** The organization check comes after the password check: a wrong
      password is a 401 even when the organization is inactive. */
  lemma PasswordBeforeOrganization(users: seq<User>, orgs: seq<OrgModel.Organization>, b: LoginBody, cfg: Config)
    requires LoginErrors(b) == []
    requires LoginLookup(users, b, cfg).Some?
    requires !ValidatePassword(users[LoginLookup(users, b, cfg).value], b.password)
    ensures Login(users, orgs, b, cfg).status == 401
  {
  }

  /** For the configured super-admin email the requested role changes nothing. */
  lemma SuperAdminLoginIgnoresRole(users: seq<User>, orgs: seq<OrgModel.Organization>, b: LoginBody, cfg: Config, role: string)
    requires IsSuperAdminEmail(cfg, b.email)
    requires ParseRole(b.role).Some? && ParseRole(role).Some?
    ensures Login(users, orgs, b, cfg) == Login(users, orgs, b.(role := role), cfg)
  {
  }

  /** A successful login announces 86400 seconds, carries the access and
      refresh tokens of the row, and shows no organization for a super-admin
      email or a user without one. */
  lemma {:induction false} LoginSuccessReply(users: seq<User>, orgs: seq<OrgModel.Organization>, b: LoginBody, cfg: Config)
    requires DecideLogin(users, orgs, b, cfg).LoggedIn?
    ensures var u := users[DecideLogin(users, orgs, b, cfg).index];
      var r := Login(users, orgs, b, cfg);
      && r.status == 200 && r.body.JObj? && "data" in r.body.fields && r.body.fields["data"].JObj?
      && var data := r.body.fields["data"].fields;
         && data.Keys == {"token", "refreshToken", "user", "expiresIn"}
         && data["expiresIn"] == JNum(86400)
         && data["token"] == JToken(GenerateToken(u, cfg)) && data["refreshToken"] == JToken(GenerateRefreshToken(u, cfg))
         && data["user"].JObj? && "organization" in data["user"].fields
         && (data["user"].fields["organization"] == JNull <==> IsSuperAdminEmail(cfg, b.email) || OrgOf(orgs, u).None?)
         && "password_hash" !in data["user"].fields
  {
    var u := users[DecideLogin(users, orgs, b, cfg).index];
    var o := OrgOf(orgs, u);
    assert o.Some? ==> LoginOrganization(orgs, u, false) != JNull;
  }

  /** The `/login` handler over the database: `last_login` is stamped on the
      success path only, before the tokens are issued. */
  method LoginRoute(db: Store.Database, b: LoginBody, cfg: Config, now: int) returns (r: HttpResponse)
    requires db.Valid()
    modifies db
    ensures db.Valid()
    ensures r == Login(old(db.users), old(db.orgs), b, cfg)
    ensures var d := DecideLogin(old(db.users), old(db.orgs), b, cfg);
      && (d.LoggedIn? ==> db.users == old(db.users)[d.index := UpdateLastLogin(old(db.users)[d.index], now)])
      && (!d.LoggedIn? ==> db.users == old(db.users))
    ensures db.orgs == old(db.orgs) && db.employees == old(db.employees)
  {
    var errs := LoginErrors(b);
    if errs != [] {
      return ValidationError(JArr(errs), Some("Invalid input data"));
    }
    var i := LoginLookup(db.users, b, cfg);
    if i.None? {
      return Unauthorized(Some("Invalid credentials"));
    }
    var u := db.users[i.value];
    if !ValidatePassword(u, b.password) {
      return Unauthorized(Some("Invalid credentials"));
    }
    if OrgBlocked(db.orgs, u) {
      return Plain(403, "Forbidden", "Organization is inactive");
    }
    var before := db.users;
    db.StampLastLogin(i.value, now);
    r := LoginReply(before, db.orgs, b, cfg, LoggedIn(i.value));
  }

  // ---------------------------------------------------------------------
  // /refresh

  /** The `/refresh` handler. `verifyRefresh` stands for `jwt.verify(token,
      JWT_REFRESH_SECRET)` now. Nothing is written: the old refresh token
      stays valid, the organization's state is not looked at, and neither is
      the token's `type`. */
  method RefreshRoute(db: Store.Database, refreshToken: Option<string>, verifyRefresh: string -> Verdict, cfg: Config)
    returns (r: HttpResponse)
    ensures !Present(refreshToken) ==> r.JsonReply? && r.status == 400 && r.body.JObj? && "details" in r.body.fields
    ensures Present(refreshToken) && VerifyRefreshToken(verifyRefresh(refreshToken.value)).InvalidRefreshToken? ==>
              r == Plain(401, "Unauthorized", "Invalid refresh token")
    ensures Present(refreshToken) && verifyRefresh(refreshToken.value).Verified? ==>
              var u := Store.FindUser(db.users, ClaimedUser(verifyRefresh(refreshToken.value).payload));
              && (u.None? || !u.value.is_active ==> r == Plain(401, "Unauthorized", "User not found or inactive"))
              && (u.Some? && u.value.is_active ==> (
                    && r.JsonReply? && r.status == 200 && r.body.JObj?
                    && r.body.fields.Keys == {"message", "token", "refreshToken", "user", "expiresIn"}
                    && r.body.fields["token"] == JToken(GenerateToken(u.value, cfg))
                    && r.body.fields["refreshToken"] == JToken(GenerateRefreshToken(u.value, cfg))
                    && r.body.fields["expiresIn"] == JNum(86400)))
  {
    if !Present(refreshToken) {
      var detail := ValidationEntry("refreshToken", "Refresh token is required");
      return PlainValidation(JArr([detail]));
    }
    var decoded := VerifyRefreshToken(verifyRefresh(refreshToken.value));
    if decoded.InvalidRefreshToken? {
      return Plain(401, "Unauthorized", "Invalid refresh token");
    }
    var u := Store.FindUser(db.users, ClaimedUser(decoded.payload));
    if u.None? || !u.value.is_active {
      return Plain(401, "Unauthorized", "User not found or inactive");
    }
    r := JsonReply(200, JObj(map[
      "message" := JStr("Token refreshed successfully"),
      "token" := JToken(GenerateToken(u.value, cfg)),
      "refreshToken" := JToken(GenerateRefreshToken(u.value, cfg)),
      "user" := JObj(SessionUser(u.value)),
      "expiresIn" := JNum(AnnouncedLifetime)]));
  }

  // ---------------------------------------------------------------------
  // /logout and /me

  /** The `/logout` handler after `authenticateToken` let the request
      through: a success envelope with the time, and no write anywhere. */
  method LogoutRoute(db: Store.Database, req: Request, verify: string -> Verdict, timestamp: string) returns (r: HttpResponse)
    modifies req
    ensures var o := Authenticate(old(req.authorization), verify, db.users, db.orgs);
      && (o.Refused? ==> r == o.response)
      && (o.Authenticated? ==> r == Success(JObj(map["timestamp" := JStr(timestamp)]), Some("Logout successful"), None))
  {
    var reply := req.AuthenticateToken(db, verify);
    if reply.Some? {
      return reply.value;
    }
    r := Success(JObj(map["timestamp" := JStr(timestamp)]), Some("Logout successful"), None);
  }

  /** The organization as `/me` includes it: id, name, plan and active flag. */
  function ProfileOrganization(orgs: seq<OrgModel.Organization>, u: User): Json
  {
    var o := OrgOf(orgs, u);
    if o.None? then JNull
    else JObj(map["id" := JStr(o.value.id), "name" := JStr(o.value.name),
                  "subscription_plan" := JStr(PlanName(o.value.subscription_plan)), "is_active" := JBool(o.value.is_active)])
  }

  /** `/me` for the signed-in user: the stored row's profile, never its password hash. */
  method MeRoute(db: Store.Database, caller: User) returns (r: HttpResponse)
    ensures Store.FindUser(db.users, caller.id).None? ==> r == Plain(500, "Internal Server Error", "Failed to get user profile")
    ensures Store.FindUser(db.users, caller.id).Some? ==>
              var u := Store.FindUser(db.users, caller.id).value;
              && r.JsonReply? && r.status == 200 && r.body.JObj? && r.body.fields.Keys == {"data"} && r.body.fields["data"].JObj?
              && var data := r.body.fields["data"].fields;
                 && data.Keys == {"id", "email", "name", "role", "organizationId", "isSuperAdmin", "lastLogin", "organization"}
                 && data["id"] == JStr(caller.id) && data["lastLogin"] == OptNum(u.last_login)
                 && data["organization"] == ProfileOrganization(db.orgs, u)
                 && "password_hash" !in data
  {
    var found := Store.FindUser(db.users, caller.id);
    if found.None? {
      return Plain(500, "Internal Server Error", "Failed to get user profile");
    }
    var u := found.value;
    var data := SessionUser(u)["lastLogin" := OptNum(u.last_login)]["organization" := ProfileOrganization(db.orgs, u)];
    r := JsonReply(200, JObj(map["data" := JObj(data)]));
  }
}
