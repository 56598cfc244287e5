/** The request gate of the API: bearer-token extraction and the ordered
    checks of `authenticateToken`, the stackable policies `requireSuperAdmin`,
    `requireAdmin` and `requireOrganizationAccess`, the tenant filter of
    `addOrganizationFilter`, and the two token kinds the server signs.

    Signature checking and expiry belong to the JWT library: an incoming
    token string is judged by a `verify` function handed in by the caller,
    which stands for `jwt.verify(token, secret)` at the moment of the request. */
module AuthMiddleware {
  import opened Common
  import opened Text
  import opened Response
  import opened Users
  import OrgModel
  import Store

  // ---------------------------------------------------------------------
  // Bearer token

  /** `authHeader && authHeader.split(' ')[1]`, kept only when truthy: the
      second space-separated word, whatever the first one says. */
  function BearerToken(header: Option<string>): (token: Option<string>)
    ensures token.Some? ==> token.value != "" && ' ' !in token.value
    ensures token.Some? <==> Present(header) && |Split(header.value, ' ')| >= 2 && Split(header.value, ' ')[1] != ""
  {
    if !Present(header) then None
    else
      var parts := Split(header.value, ' ');
      if |parts| >= 2 && parts[1] != "" then Some(parts[1]) else None
  }

  /** Any first word, a space and a token give that token, also with more words after it. */
  lemma {:induction false} BearerTokenOfAnyScheme(scheme: string, token: string, rest: string)
    requires ' ' !in scheme && ' ' !in token && token != ""
    requires rest == [] || rest[0] == ' '
    ensures BearerToken(Some(scheme + " " + token + rest)) == Some(token)
  {
    var h := scheme + " " + token + rest;
    assert h == scheme + (" " + token + rest);
    SplitWord(scheme, " " + token + rest, ' ');
    var tail := " " + token + rest;
    assert tail[1..] == token + rest;
    assert Split(tail, ' ') == [""] + Split(token + rest, ' ');
    SplitWord(token, rest, ' ');
    var r := Split(rest, ' ');
    if rest == [] {
      assert r == [""];
    } else {
      assert r == [""] + Split(rest[1..], ' ');
    }
    assert r[0] == "";
    assert token + r[0] == token;
  }

  /** A header without a space carries no token. */
  lemma {:induction false} BearerTokenNeedsSpace(header: string)
    requires ' ' !in header
    ensures BearerToken(Some(header)) == None
  {
    SplitWord(header, "", ' ');
    assert header + "" == header;
    assert Split("", ' ') == [""];
  }

  // ---------------------------------------------------------------------
  // Tokens

  /** What `jwt.verify` does with a token: the claims, or the `name` of the error it throws. */
  datatype Verdict = Verified(payload: Payload) | Thrown(name: string)

  function ExpiryOr(configured: Option<string>, default: string): (e: string)
    ensures Present(configured) ==> e == configured.value
    ensures !Present(configured) ==> e == default
  {
    if Present(configured) then configured.value else default
  }

  /** `generateToken(user)`: exactly the five access claims, signed with the
      access secret, for `JWT_EXPIRES_IN` or 24h. */
  function GenerateToken(u: User, cfg: Config): (t: Jwt)
    ensures t.payload == AccessPayload(u.id, u.email, u.role, u.organization_id, u.is_super_admin)
    ensures t.secret == cfg.jwtSecret
    ensures t.expiresIn == ExpiryOr(cfg.jwtExpiresIn, "24h")
  {
    Jwt(AccessPayload(u.id, u.email, u.role, u.organization_id, u.is_super_admin), cfg.jwtSecret, ExpiryOr(cfg.jwtExpiresIn, "24h"))
  }

  /** `generateRefreshToken(user)`: `{userId, type: 'refresh'}`, signed with
      the refresh secret, for `JWT_REFRESH_EXPIRES_IN` or 7d. */
  function GenerateRefreshToken(u: User, cfg: Config): (t: Jwt)
    ensures t.payload == RefreshPayload(u.id, "refresh")
    ensures t.secret == cfg.jwtRefreshSecret
    ensures t.expiresIn == ExpiryOr(cfg.jwtRefreshExpiresIn, "7d")
  {
    Jwt(RefreshPayload(u.id, "refresh"), cfg.jwtRefreshSecret, ExpiryOr(cfg.jwtRefreshExpiresIn, "7d"))
  }

  /** A reference verifier for tokens this server signed: a wrong secret is a
      `JsonWebTokenError`, a lapsed lifetime a `TokenExpiredError`. */
  function VerifySigned(t: Jwt, secret: string, expired: bool): (v: Verdict)
    ensures v.Verified? <==> t.secret == secret && !expired
    ensures v.Verified? ==> v.payload == t.payload
  {
    if t.secret != secret then Thrown("JsonWebTokenError")
    else if expired then Thrown("TokenExpiredError")
    else Verified(t.payload)
  }

  /** The user id a verified payload names; both kinds carry `userId`. */
  function ClaimedUser(p: Payload): Id
  {
    p.userId
  }

  /** A fresh access token verifies under the access secret and names its user. */
  lemma AccessTokenRoundTrip(u: User, cfg: Config)
    ensures VerifySigned(GenerateToken(u, cfg), cfg.jwtSecret, false).Verified?
    ensures ClaimedUser(VerifySigned(GenerateToken(u, cfg), cfg.jwtSecret, false).payload) == u.id
  {
  }

  /** A refresh token passes the access check exactly when the two secrets
      are equal, and then it names its user like an access token does. */
  lemma RefreshTokenAsAccessToken(u: User, cfg: Config)
    ensures VerifySigned(GenerateRefreshToken(u, cfg), cfg.jwtSecret, false).Verified? <==> cfg.jwtSecret == cfg.jwtRefreshSecret
    ensures cfg.jwtSecret == cfg.jwtRefreshSecret ==>
              ClaimedUser(VerifySigned(GenerateRefreshToken(u, cfg), cfg.jwtSecret, false).payload) == u.id
  {
  }

  /** `verifyRefreshToken(token)`: the claims, or one error whatever went wrong. */
  datatype Decoded = Decoded(payload: Payload) | InvalidRefreshToken

  function VerifyRefreshToken(v: Verdict): (d: Decoded)
    ensures d.Decoded? <==> v.Verified?
    ensures d.Decoded? ==> d.payload == v.payload
  {
    if v.Verified? then Decoded(v.payload) else InvalidRefreshToken
  }

  // ---------------------------------------------------------------------
  // authenticateToken

  /** Where a middleware leaves a request: passed on to `next()`, or answered. */
  datatype Gate = Pass | Reject(response: HttpResponse)

  /** The outcome of `authenticateToken`: the user attached to the request, or the reply. */
  datatype AuthOutcome = Authenticated(user: User) | Refused(response: HttpResponse)

  function Unauthorized401(message: string): HttpResponse
  {
    Plain(401, "Unauthorized", message)
  }

  /** The organization row `include`d with a user, if it has one. */
  function OrgOf(orgs: seq<OrgModel.Organization>, u: User): Option<OrgModel.Organization>
  {
    Store.FindOrg(orgs, u.organization_id)
  }

  /** A user whose (non-super-admin) organization is switched off. */
  predicate OrgBlocked(orgs: seq<OrgModel.Organization>, u: User)
  {
    !u.is_super_admin && OrgOf(orgs, u).Some? && !OrgOf(orgs, u).value.is_active
  }

  /** The message of the 401 a failed verification gets; anything but the two JWT errors is a 500. */
  function VerifyFailure(name: string): (r: HttpResponse)
    ensures r.status == 401 <==> name == "JsonWebTokenError" || name == "TokenExpiredError"
    ensures r.status != 401 ==> r == Plain(500, "Internal Server Error", "Authentication failed")
  {
    if name == "JsonWebTokenError" then Unauthorized401("Invalid token")
    else if name == "TokenExpiredError" then Unauthorized401("Token expired")
    else Plain(500, "Internal Server Error", "Authentication failed")
  }

  /** The checks of `authenticateToken`, in their order. */
  function Authenticate(header: Option<string>, verify: string -> Verdict, users: seq<User>, orgs: seq<OrgModel.Organization>): (o: AuthOutcome)
    ensures BearerToken(header).None? ==> o == Refused(Unauthorized401("Access token is required"))
    ensures BearerToken(header).Some? && verify(BearerToken(header).value).Thrown? ==>
              o == Refused(VerifyFailure(verify(BearerToken(header).value).name))
    ensures o.Authenticated? <==>
              && BearerToken(header).Some? && verify(BearerToken(header).value).Verified?
              && var u := Store.FindUser(users, ClaimedUser(verify(BearerToken(header).value).payload));
                 u.Some? && u.value.is_active && !OrgBlocked(orgs, u.value)
    ensures o.Authenticated? ==> o.user in users && o.user.id == ClaimedUser(verify(BearerToken(header).value).payload)
  {
    var token := BearerToken(header);
    if token.None? then Refused(Unauthorized401("Access token is required"))
    else
      var verdict := verify(token.value);
      if verdict.Thrown? then Refused(VerifyFailure(verdict.name))
      else
        var u := Store.FindUser(users, ClaimedUser(verdict.payload));
        if u.None? || !u.value.is_active then Refused(Unauthorized401("User not found or inactive"))
        else if OrgBlocked(orgs, u.value) then Refused(Plain(403, "Forbidden", "Organization is inactive"))
        else Authenticated(u.value)
  }

  /** The three refusals after verification: unknown or inactive user is 401,
      an inactive organization is 403 and never reaches a super-admin or a
      user without organization. */
  lemma AuthenticateAfterVerification(header: Option<string>, verify: string -> Verdict, users: seq<User>, orgs: seq<OrgModel.Organization>)
    requires BearerToken(header).Some? && verify(BearerToken(header).value).Verified?
    ensures var u := Store.FindUser(users, ClaimedUser(verify(BearerToken(header).value).payload));
      && (u.None? || !u.value.is_active ==> Authenticate(header, verify, users, orgs) == Refused(Unauthorized401("User not found or inactive")))
      && (u.Some? && u.value.is_active && (u.value.is_super_admin || u.value.organization_id.None?) ==>
            Authenticate(header, verify, users, orgs) == Authenticated(u.value))
      && (u.Some? && u.value.is_active && OrgBlocked(orgs, u.value) ==>
            Authenticate(header, verify, users, orgs).Refused? && Authenticate(header, verify, users, orgs).response.status == 403)
  {
  }

  /** Whether a verified token is accepted depends only on its user's row
      and that user's organization row: as long as those two are unchanged,
      the same token gets the same answer, whatever else the tables hold. */
  lemma AcceptanceDependsOnlyOnRows(header: Option<string>, verify: string -> Verdict, users: seq<User>, orgs: seq<OrgModel.Organization>,
                                    users': seq<User>, orgs': seq<OrgModel.Organization>)
    requires Authenticate(header, verify, users, orgs).Authenticated?
    requires var id := Authenticate(header, verify, users, orgs).user.id;
      Store.FindUser(users', id) == Store.FindUser(users, id)
    requires var u := Authenticate(header, verify, users, orgs).user;
      OrgOf(orgs', u) == OrgOf(orgs, u)
    ensures Authenticate(header, verify, users', orgs') == Authenticate(header, verify, users, orgs)
  {
  }

  // ---------------------------------------------------------------------
  // Policies

  /** `requireSuperAdmin`. */
  function RequireSuperAdmin(user: Option<User>): (g: Gate)
    ensures g.Pass? <==> user.Some? && user.value.is_super_admin
    ensures g.Reject? ==> g.response == Plain(403, "Forbidden", "Super admin access required")
  {
    if user.None? || !user.value.is_super_admin then Reject(Plain(403, "Forbidden", "Super admin access required"))
    else Pass
  }

  /** `requireAdmin`. */
  function RequireAdmin(user: Option<User>): (g: Gate)
    ensures g.Pass? <==> user.Some? && (user.value.role == Admin || user.value.is_super_admin)
    ensures g.Reject? ==> g.response == Plain(403, "Forbidden", "Admin access required")
  {
    if user.None? || (user.value.role != Admin && !user.value.is_super_admin) then Reject(Plain(403, "Forbidden", "Admin access required"))
    else Pass
  }

  /** For a signed-in user `requireAdmin` refuses exactly the plain employees. */
  lemma RequireAdminRefusesOnlyEmployees(u: User)
    ensures RequireAdmin(Some(u)).Reject? <==> !u.is_super_admin && u.role == Employee
  {
  }

  /** `req.params[organizationIdParam] || req.body.organizationId`. */
  function RequestedOrgId(param: Option<string>, bodyOrganizationId: Json): (j: Json)
    ensures Present(param) ==> j == JStr(param.value)
    ensures !Present(param) ==> j == bodyOrganizationId
  {
    if Present(param) then JStr(param.value) else bodyOrganizationId
  }

  /** `requireOrganizationAccess()` for the signed-in user. */
  function RequireOrganizationAccess(user: User, param: Option<string>, bodyOrganizationId: Json): (g: Gate)
    ensures g.Pass? <==> user.is_super_admin
                         || (Truthy(RequestedOrgId(param, bodyOrganizationId)) && RequestedOrgId(param, bodyOrganizationId) == OptStr(user.organization_id))
    ensures g.Reject? ==> g.response == Plain(403, "Forbidden", "Access denied to this organization")
  {
    var requested := RequestedOrgId(param, bodyOrganizationId);
    if user.is_super_admin then Pass
    else if !Truthy(requested) || requested != OptStr(user.organization_id) then Reject(Plain(403, "Forbidden", "Access denied to this organization"))
    else Pass
  }

  /** A user who is not super-admin passes organization access only for its
      own, non-empty organization id; a user without organization never does. */
  lemma OrganizationAccessIsOwnOrganization(user: User, param: Option<string>, bodyOrganizationId: Json)
    requires !user.is_super_admin
    ensures RequireOrganizationAccess(user, param, bodyOrganizationId).Pass? <==>
              user.organization_id.Some? && user.organization_id.value != ""
              && RequestedOrgId(param, bodyOrganizationId) == JStr(user.organization_id.value)
    ensures user.organization_id.None? ==> RequireOrganizationAccess(user, param, bodyOrganizationId).Reject?
  {
  }

  /** The policies stack: a super-admin passes all three, and passing
      `requireSuperAdmin` implies passing `requireAdmin`. */
  lemma PoliciesStack(u: User, param: Option<string>, bodyOrganizationId: Json)
    ensures RequireSuperAdmin(Some(u)).Pass? ==> RequireAdmin(Some(u)).Pass?
    ensures u.is_super_admin ==> RequireSuperAdmin(Some(u)).Pass? && RequireAdmin(Some(u)).Pass?
                                 && RequireOrganizationAccess(u, param, bodyOrganizationId).Pass?
    ensures RequireSuperAdmin(None).Reject? && RequireAdmin(None).Reject?
  {
  }

  // ---------------------------------------------------------------------
  // Tenant filter

  /** `req.organizationFilter`: unset for a super-admin, otherwise exactly
      `{ organization_id: user.organization_id }`. `Some(None)` is a filter on a null organization. */
  function TenantFilter(u: User): (f: Option<Option<Id>>)
    ensures f.None? <==> u.is_super_admin
    ensures f.Some? ==> f.value == u.organization_id
  {
    if u.is_super_admin then None else Some(u.organization_id)
  }

  /** A row's organization passes a tenant filter. */
  predicate InTenant(filter: Option<Option<Id>>, organizationId: Id)
  {
    filter.None? || filter.value == Some(organizationId)
  }

  /** Under the filter of a user who is not super-admin only rows of the
      user's own organization pass; a super-admin's filter lets every row pass. */
  lemma TenantFilterIsolates(u: User, organizationId: Id)
    ensures !u.is_super_admin ==> (InTenant(TenantFilter(u), organizationId) <==> u.organization_id == Some(organizationId))
    ensures u.is_super_admin ==> InTenant(TenantFilter(u), organizationId)
  {
  }

  // ---------------------------------------------------------------------
  // The request object

  /** The parts of an Express request the middleware reads and writes. */
  class Request {
    var authorization: Option<string>
    var user: Option<User>
    var organizationFilter: Option<Option<Id>>

    constructor(authorization: Option<string>)
      ensures this.authorization == authorization && user.None? && organizationFilter.None?
    {
      this.authorization := authorization;
      user := None;
      organizationFilter := None;
    }

    /** `authenticateToken`: runs the checks one after the other, attaches
        the user on success and answers otherwise. */
    method AuthenticateToken(db: Store.Database, verify: string -> Verdict) returns (reply: Option<HttpResponse>)
      modifies this
      ensures var o := Authenticate(old(authorization), verify, db.users, db.orgs);
        && (o.Authenticated? ==> reply.None? && user == Some(o.user))
        && (o.Refused? ==> reply == Some(o.response) && user == old(user))
      ensures authorization == old(authorization) && organizationFilter == old(organizationFilter)
    {
      var token := BearerToken(authorization);
      if token.None? {
        return Some(Unauthorized401("Access token is required"));
      }
      var verdict := verify(token.value);
      if verdict.Thrown? {
        return Some(VerifyFailure(verdict.name));
      }
      var found := Store.FindUser(db.users, ClaimedUser(verdict.payload));
      if found.None? || !found.value.is_active {
        return Some(Unauthorized401("User not found or inactive"));
      }
      if OrgBlocked(db.orgs, found.value) {
        return Some(Plain(403, "Forbidden", "Organization is inactive"));
      }
      user := found;
      reply := None;
    }

    /** `addOrganizationFilter` for an authenticated request. */
    method AddOrganizationFilter()
      requires user.Some?
      modifies this
      ensures user == old(user) && authorization == old(authorization)
      ensures user.value.is_super_admin ==> organizationFilter == old(organizationFilter)
      ensures !user.value.is_super_admin ==> organizationFilter == TenantFilter(user.value)
    {
      if user.value.is_super_admin {
        return;
      }
      organizationFilter := Some(user.value.organization_id);
    }
  }
}
