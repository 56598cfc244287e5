# HR API access control and tenant isolation, in Dafny

This project models the core of a multi-tenant HR back end: an Express API over SQLite, written with Sequelize. Several organizations (tenants) share one database. Each user belongs to one organization, except the super-admin, who belongs to none.

The model covers:

- how a request is authenticated: the bearer token, token verification, the user and organization checks;
- the three policies `requireSuperAdmin`, `requireAdmin` and `requireOrganizationAccess`, and the tenant filter of `addOrganizationFilter`;
- the routes that depend on them: login, refresh, logout and profile; the employee list, get, create, update and delete; the organization list, create, get, update and statistics;
- the response helpers and the server's 404 and error handlers.

Under these sit the three models, `User`, `Organization` and `Employee`, with their validators, hooks and class methods. The database is a `Store.Database` object. It holds three tables as sequences in insertion order and refuses, without changing anything, every write that breaks:

- a primary key;
- a unique index;
- a column validator;
- a foreign key to `organizations`.

Every route turns such a refusal into its 500 reply, as its catch block does.

Modules follow the program's files:

| module | source file |
|---|---|
| `Common`, `Text`, `Seqs` | values, JavaScript string and number built-ins, and table queries |
| `Response` | `backend/src/middleware/response.js` |
| `Users`, `OrgModel`, `EmployeeModel` | `backend/src/models/User.js`, `Organization.js` and `Employee.js` |
| `Store` | the SQLite tables behind the models |
| `AuthMiddleware` | `backend/src/middleware/auth.js` |
| `AuthRoutes`, `EmployeeRoutes`, `OrganizationRoutes` | `backend/src/routes/auth.js`, `employees.js` and `organizations.js` |
| `Server` | `backend/src/server.js` |

Route handlers that write are methods on the database. Each is proved equal to a specification function that lists the route's checks in their order. The properties are lemmas about those functions.

Outside influences become parameters:

- `verify: string -> Verdict` stands for `jwt.verify` at the moment of the request.
- `now` is the clock.
- Fresh UUIDs are passed in by the caller.
- `bodyErrors` is what `validationResult(req).array()` returns for the validators that are library checks.
- `Config` holds the environment variables.

Three behaviours of the code differ from what its names suggest, and the model follows the code:

- The `limit` and `page` query parameters go to SQLite as they are. A negative `LIMIT` there means no limit, and a negative `OFFSET` counts as 0.
- `canAddEmployee` and the "Employee limit reached" check count the organization's users, active or not, and never the rows of the employees table.
- The statistics field `totalUsers` counts only the active users.

## Model

| member | source | states |
|---|---|---|
| `Response.ErrorType` | backend/src/middleware/response.js:89-114 | the ten listed codes map to their fixed names and every other code to "Error"; the name of a known code maps back to that code |
| `Response.ErrorCodeInverse` | backend/src/middleware/response.js:89-114 | every name `ErrorType` gives for a known code identifies that code again |
| `Response.Success` | backend/src/middleware/response.js:13-19 | `{status: true, message, data}` with status 200 and message "Success" by default; a falsy `data` is sent as `{}` |
| `Response.Error` | backend/src/middleware/response.js:22-37 | `status` false, `code` equal to the HTTP status (500 by default), `error` the status's name, and `data.details` present exactly when details are given |
| `Response.ValidationError` | backend/src/middleware/response.js:40-50 | always 400, error "Validation Error", and the errors as `data.details` |
| `Response.ShortcutsAreErrors` | backend/src/middleware/response.js:53-83 | `unauthorized`, `forbidden` and `notFound` are `error()` at 401, 403 and 404 with empty data |
| `Response.ValidationErrorName` | backend/src/middleware/response.js:40-50 | a validation error has the status and details of `error(…, 400, …)` but a different error name |
| `Response.PlainValidation` | backend/src/routes/employees.js:318-326 | the routes' own 400 reply is status 400 and carries the validator errors as `details` |
| `Text.Split` | backend/src/middleware/auth.js:8 | `split(' ')`: the parts joined back with the separator give the string, and no part contains the separator |
| `Text.JoinSplit` | backend/src/middleware/auth.js:8 | joining the parts of a split with the separator gives back the string |
| `Text.SplitJoin` | backend/src/middleware/auth.js:8 | splitting words that hold no separator, joined with it, gives back the words |
| `Text.ParseIntOfDecimal` | backend/src/routes/employees.js:136-137 | `parseInt` of the decimal writing of a natural number is that number |
| `Text.IntOrOfDecimal` | backend/src/routes/employees.js:136-137 | `parseInt(x) \|\| fallback` takes a positive decimal number as it is and makes "0" the fallback |
| `Text.PadStart` | backend/src/models/Employee.js:203 | `padStart(n, c)`: the string is kept as the suffix, with pad characters before it up to length n, and never cut |
| `Common.CeilDivIsLeastCover` | backend/src/routes/employees.js:187 | `Math.ceil(total / limit)` is the least number of pages of `limit` rows that holds `total` rows |
| `Users.BcryptMatchesOnlyItsPassword` | backend/src/models/User.js:103-105 | a stored hash matches exactly the password it was made from |
| `Users.BeforeCreate` | backend/src/models/User.js:5-93 | a new row takes the column defaults (role employee, not super-admin, active, unverified, no last login), and a non-empty password is stored hashed |
| `Users.BeforeUpdate` | backend/src/models/User.js:94-98 | the hash changes on save only when `password_hash` changed, and then it is the hash of the new value |
| `Users.CreatedUserAcceptsOnlyItsPassword` | backend/src/models/User.js:89-105 | a created user validates exactly the password it was created with |
| `Users.UpdateKeepsPassword` | backend/src/models/User.js:94-105 | a save that does not touch the password keeps the same accepted password |
| `Users.UpdateRehashesNewPassword` | backend/src/models/User.js:94-105 | a save with a new password makes exactly that password valid |
| `Users.UpdateLastLogin` | backend/src/models/User.js:113-116 | only `last_login` changes, to now |
| `Users.ToJson` | backend/src/models/User.js:107-111 | every column except `password_hash`, with its value |
| `Users.FindByEmailWhere` | backend/src/models/User.js:119-124 | email and `is_active: true` always, and the organization only when a truthy one is given |
| `Users.FindByEmail` | backend/src/models/User.js:119-127 | the row found is active, has that email, and belongs to the organization when one is given; no row means no active row of that email (in that organization) |
| `Users.SuperAdminShape` | backend/src/models/User.js:129-139 | the super-admin is an active, verified admin with the super-admin flag, no organization, and its password |
| `OrgModel.NewOrganization` | backend/src/models/Organization.js:51-73 | a new organization defaults to plan Free, active, a limit of 10, no admin, registered now |
| `OrgModel.SubscriptionLimits` | backend/src/models/Organization.js:117-124 | only Enterprise has the -1 "unlimited" limit; every other plan has at least 10 seats |
| `OrgModel.PlanTable` | backend/src/models/Organization.js:117-124 | the table's four entries: Free 10 seats at 0, Basic 50 at 29, Premium 200 at 99, Enterprise -1 (unlimited) at 299 |
| `OrgModel.PlanLimitsGrowWithPrice` | backend/src/models/Organization.js:117-124 | a dearer plan has more seats, or is unlimited |
| `OrgModel.PlanLimitValidity` | backend/src/models/Organization.js:66-124 | the table's limit passes the `min: 1` validator for every plan except Enterprise |
| `OrgModel.CanAddEmployeeFor` | backend/src/models/Organization.js:127-135 | always true for -1; otherwise true exactly when fewer seats are taken than the limit |
| `OrgModel.UsagePercentageFor` | backend/src/models/Organization.js:137-145 | 0 for -1; no finite value for a limit of 0; otherwise defined |
| `OrgModel.UsageIsNearestPercent` | backend/src/models/Organization.js:137-145 | for a positive limit the value is the integer nearest to `100 * count / limit`, halves rounded up |
| `OrgModel.UsageWithinBounds` | backend/src/models/Organization.js:137-145 | with the seats within the limit, the percentage lies between 0 and 100 |
| `OrgModel.RefusalMeansFull` | backend/src/models/Organization.js:127-145 | a refused seat shows as at least 100 percent, an available one as at most 100 |
| `EmployeeModel.ToJson` | backend/src/models/Employee.js:4-137 | the row's JSON carries its organization and its status name |
| `EmployeeModel.FindAll` | backend/src/models/Employee.js:182-188 | `findAll({where})` returns exactly the stored rows that match every key of the `where` |
| `EmployeeModel.FindByOrganizationWhere` | backend/src/models/Employee.js:181-189 | the `where` that reaches `findAll` is the caller's own `where` when one is given, else the organization alone |
| `EmployeeModel.FindByOrganizationScopedWithoutWhere` | backend/src/models/Employee.js:181-189 | without a caller `where`, `findByOrganization` returns exactly the organization's rows |
| `EmployeeModel.FindByOrganizationIgnoresOrganization` | backend/src/models/Employee.js:181-189 | with a caller `where`, the result is the same for every organization id |
| `EmployeeModel.ActiveByOrganizationIsEveryActive` | backend/src/models/Employee.js:191-195 | `findActiveByOrganization` returns the active employees of every organization |
| `EmployeeModel.ActiveByOrganizationCrossesTenants` | backend/src/models/Employee.js:191-195 | an active employee of another organization is among its results |
| `EmployeeModel.ScopedWhere` | backend/src/models/Employee.js:181-189 | the merge as intended: the organization always stays in the `where`, and the caller's other keys are added to it |
| `EmployeeModel.ScopedStaysInOrganization` | backend/src/models/Employee.js:181-189 | the corrected query returns only rows of the organization, whatever the options |
| `EmployeeModel.ScopedActiveIsOrganizationActive` | backend/src/models/Employee.js:191-195 | the corrected active query returns exactly the organization's active employees |
| `EmployeeModel.OrgPrefix` | backend/src/models/Employee.js:202 | the first three characters of the organization id (fewer if it is shorter), upper-cased |
| `EmployeeModel.EmployeeNumberValue` | backend/src/models/Employee.js:203 | the padded number is a digit string worth n: four characters below 10000, and longer from 10000 on |
| `EmployeeModel.GeneratedIdShape` | backend/src/models/Employee.js:197-206 | the id is the prefix followed by digits worth `count + 1`, four of them while `count + 1 < 10000` |
| `EmployeeModel.GeneratedIdsDiffer` | backend/src/models/Employee.js:197-206 | different counts give different ids within an organization |
| `EmployeeModel.ConsecutiveGenerations` | backend/src/models/Employee.js:197-206 | after one insert of the organization's and no delete, the next number is one higher; an insert for another organization changes nothing |
| `EmployeeModel.DeletionRepeatsId` | backend/src/models/Employee.js:197-206 | numbering by count repeats an id after a deletion: the next id is that of a surviving row |
| `Store.FindUser` | backend/src/routes/auth.js:198 | `findByPk`: a row exists exactly when some stored user has that id, and then it is that user |
| `Store.FindOrg` | backend/src/routes/employees.js:331 | `findByPk`: a null id finds nothing; otherwise the stored organization with that id, if any |
| `Store.UserInsertError` | backend/src/models/User.js:27-77 | an insert passes exactly when the password and name lengths are valid, the id is new, no user of the same organization has the email, and the organization exists |
| `Store.OrgWriteError` | backend/src/models/Organization.js:10-106 | a write passes exactly when the columns are valid and no other row has the id or the email |
| `Store.EmployeeWriteError` | backend/src/models/Employee.js:4-152 | a write passes exactly when the columns are valid, the organization exists, and no other row has the id, or the number or email within the organization |
| `Store.Database.CreateUser` | backend/src/models/User.js:89-93 | `User.create` appends the hooked row or refuses and changes nothing; the table constraints are kept |
| `Store.Database.StampLastLogin` | backend/src/models/User.js:113-116 | only that row's `last_login` changes; the constraints are kept |
| `Store.Database.InsertOrg` | backend/src/routes/organizations.js:137-147 | `Organization.create` appends the row or refuses and changes nothing |
| `Store.Database.UpdateOrg` | backend/src/routes/organizations.js:255 | `organization.update` replaces that row or refuses and changes nothing |
| `Store.Database.InsertEmployee` | backend/src/routes/employees.js:383-397 | `Employee.create` appends the row or refuses and changes nothing |
| `Store.Database.UpdateEmployee` | backend/src/routes/employees.js:671 | `employee.update` replaces that row or refuses and changes nothing |
| `Store.Database.DeleteEmployee` | backend/src/routes/employees.js:773 | `employee.destroy` removes exactly that row; the constraints are kept |
| `AuthMiddleware.BearerToken` | backend/src/middleware/auth.js:7-16 | the token is the second space-separated word when it is non-empty; it holds no space |
| `AuthMiddleware.BearerTokenOfAnyScheme` | backend/src/middleware/auth.js:7-16 | any first word is accepted in place of "Bearer", also with more words after the token |
| `AuthMiddleware.BearerTokenNeedsSpace` | backend/src/middleware/auth.js:7-16 | a header without a space carries no token |
| `AuthMiddleware.GenerateToken` | backend/src/middleware/auth.js:139-151 | exactly the five access claims, the access secret, and `JWT_EXPIRES_IN` or 24h |
| `AuthMiddleware.GenerateRefreshToken` | backend/src/middleware/auth.js:154-163 | `{userId, type: 'refresh'}`, the refresh secret, and `JWT_REFRESH_EXPIRES_IN` or 7d |
| `AuthMiddleware.AccessTokenRoundTrip` | backend/src/middleware/auth.js:19-151 | a fresh access token verifies under the access secret and names its user |
| `AuthMiddleware.RefreshTokenAsAccessToken` | backend/src/middleware/auth.js:19-163 | a refresh token passes as an access token exactly when the two secrets are equal |
| `AuthMiddleware.VerifyRefreshToken` | backend/src/middleware/auth.js:166-172 | the claims when verification succeeds, one error whatever went wrong otherwise |
| `AuthMiddleware.VerifyFailure` | backend/src/middleware/auth.js:52-72 | 401 only for `JsonWebTokenError` and `TokenExpiredError`; every other failure is a 500 |
| `AuthMiddleware.Authenticate` | backend/src/middleware/auth.js:5-74 | 401 without a token; the verifier's error reply; and success exactly for a verified token whose user exists and is active and whose organization is not switched off |
| `AuthMiddleware.AuthenticateAfterVerification` | backend/src/middleware/auth.js:32-50 | an unknown or inactive user is 401; an inactive organization is 403 and never stops a super-admin or a user without organization |
| `AuthMiddleware.AcceptanceDependsOnlyOnRows` | backend/src/middleware/auth.js:5-74 | whether a verified token is accepted depends only on its user's row and that user's organization row; the rest of the tables changes nothing |
| `AuthMiddleware.RequireSuperAdmin` | backend/src/middleware/auth.js:77-86 | passes exactly a signed-in super-admin; otherwise 403 "Super admin access required" |
| `AuthMiddleware.RequireAdmin` | backend/src/middleware/auth.js:89-98 | passes exactly a signed-in admin or super-admin; otherwise 403 "Admin access required" |
| `AuthMiddleware.RequireAdminRefusesOnlyEmployees` | backend/src/middleware/auth.js:89-98 | for a signed-in user, the refused ones are exactly the plain employees |
| `AuthMiddleware.RequireOrganizationAccess` | backend/src/middleware/auth.js:101-121 | passes a super-admin, or a user whose organization equals the truthy requested id (route parameter, else body) |
| `AuthMiddleware.OrganizationAccessIsOwnOrganization` | backend/src/middleware/auth.js:101-121 | a user who is not super-admin passes only for its own, non-empty organization id, and never without an organization |
| `AuthMiddleware.PoliciesStack` | backend/src/middleware/auth.js:77-121 | passing `requireSuperAdmin` implies passing `requireAdmin`; a super-admin passes all three; an anonymous request fails both role checks |
| `AuthMiddleware.TenantFilter` | backend/src/middleware/auth.js:124-136 | no filter exactly for a super-admin; otherwise the user's own organization, null included |
| `AuthMiddleware.TenantFilterIsolates` | backend/src/middleware/auth.js:124-136 | under a non-super-admin's filter only rows of its own organization pass; a super-admin's lets every row pass |
| `AuthMiddleware.Request.AuthenticateToken` | backend/src/middleware/auth.js:5-74 | the request gets the user attached exactly when `Authenticate` accepts, and is answered with its reply otherwise |
| `AuthMiddleware.Request.AddOrganizationFilter` | backend/src/middleware/auth.js:124-136 | sets the filter to the tenant filter of a non-super-admin and leaves a super-admin's request unfiltered |
| `AuthRoutes.LoginErrors` | backend/src/routes/auth.js:21-25 | no error exactly when the email is well formed, the password has at least 6 characters, and the role is admin or employee |
| `AuthRoutes.LoginLookup` | backend/src/routes/auth.js:99-123 | the configured super-admin email finds an active super-admin row; any other email finds an active row of that email and the requested role |
| `AuthRoutes.DecideLogin` | backend/src/routes/auth.js:85-142 | bad input exactly when a validator fails; no such user exactly when the input is valid and the lookup finds no row; a wrong password, an inactive organization and a login each name the row found, with the password failing, or passing with the organization inactive, or passing with it not inactive |
| `AuthRoutes.ValidationComesFirst` | backend/src/routes/auth.js:88-91 | bad input is a 400 whatever the tables hold |
| `AuthRoutes.LoginFailuresLookAlike` | backend/src/routes/auth.js:125-133 | an unknown account and a wrong password get the same reply, and nothing else gets it |
| `AuthRoutes.LoginSuccessMeans` | backend/src/routes/auth.js:99-142 | success only for an active row of that email with the right password and no inactive organization, of the super-admin kind or of the requested role |
| `AuthRoutes.PasswordBeforeOrganization` | backend/src/routes/auth.js:129-142 | a wrong password is a 401 even when the organization is inactive |
| `AuthRoutes.SuperAdminLoginIgnoresRole` | backend/src/routes/auth.js:99-106 | for the super-admin email, the requested role changes nothing |
| `AuthRoutes.LoginSuccessReply` | backend/src/routes/auth.js:147-172 | the reply carries both tokens of the row and announces 86400 seconds; it shows no organization for the super-admin email or a user without one, and no password hash |
| `AuthRoutes.LoginRoute` | backend/src/routes/auth.js:85-177 | the reply is `Login` of the tables before the call; `last_login` is stamped on success only, and nothing else changes |
| `AuthRoutes.RefreshRoute` | backend/src/routes/auth.js:180-242 | 400 without a token; 401 for a token that fails verification or a missing or inactive user; otherwise a new token pair, with no organization or token-type check |
| `AuthRoutes.LogoutRoute` | backend/src/routes/auth.js:282-293 | the authentication reply, or a success envelope with the time; nothing is revoked |
| `AuthRoutes.MeRoute` | backend/src/routes/auth.js:296-328 | the stored row's profile with its last login and organization, without the password hash; a missing row is a 500 |
| `EmployeeRoutes.BuildListWhere` | backend/src/routes/employees.js:143-159 | the clause built step by step admits exactly the tenant's rows that match the department, status and search given |
| `EmployeeRoutes.ListIsolation` | backend/src/routes/employees.js:134-180 | a non-super-admin's page holds only stored rows of its own organization, at most `limit` of them |
| `EmployeeRoutes.PageHoldsRow` | backend/src/routes/employees.js:136-167 | page `k / limit + 1` shows the k-th admitted row, newest first, as its row `k % limit` |
| `EmployeeRoutes.TotalPagesHoldAll` | backend/src/routes/employees.js:182-188 | `totalPages` is the least number of pages that holds every admitted row |
| `EmployeeRoutes.ListRoute` | backend/src/routes/employees.js:134-197 | the reply is the list for the caller's tenant filter |
| `EmployeeRoutes.FindInTenant` | backend/src/routes/employees.js:475-479 | the row found has the id and passes the filter; none found means no row with the id passes it |
| `EmployeeRoutes.GetIsolation` | backend/src/routes/employees.js:471-505 | a non-super-admin gets only its own organization's row; a row of another organization is a 404 like a missing one |
| `EmployeeRoutes.GetRoute` | backend/src/routes/employees.js:471-518 | the reply is the get for the caller's tenant filter |
| `EmployeeRoutes.CreatedRowMeans` | backend/src/routes/employees.js:316-397 | a row is inserted only for an admin of an existing organization with a free seat and an email new to it; it belongs to the caller's organization, with the generated number, status active and join date now unless given |
| `EmployeeRoutes.SeatLimitBeforeDuplicateEmail` | backend/src/routes/employees.js:339-377 | a full organization answers 403 even for an email it already has |
| `EmployeeRoutes.SuperAdminCannotCreate` | backend/src/routes/employees.js:328-337 | a super-admin without an organization gets 404 "Organization not found" |
| `EmployeeRoutes.SeatCheckIgnoresEmployees` | backend/src/routes/employees.js:339-346 | whether the seat limit refuses does not depend on the employees table |
| `EmployeeRoutes.CreateFailsOnTakenNumber` | backend/src/routes/employees.js:380-420 | when the generated number is already taken in the organization, the reply is 500 |
| `EmployeeRoutes.CreateRoute` | backend/src/routes/employees.js:316-422 | the reply is `CreateReply` of the checks; on 201 the row is appended, otherwise nothing changes; the constraints are kept |
| `EmployeeRoutes.FindInCallerOrg` | backend/src/routes/employees.js:637-642 | the row found has the id and the caller's organization; a caller without organization finds none |
| `EmployeeRoutes.DecideUpdate` | backend/src/routes/employees.js:622-671 | a write is of the found row with the body applied to it |
| `EmployeeRoutes.UpdateStaysInCallerOrganization` | backend/src/routes/employees.js:637-650 | only a row of the caller's own organization is written; a caller without organization, a super-admin included, always gets 404 |
| `EmployeeRoutes.UpdateEmailConflict` | backend/src/routes/employees.js:653-669 | 409 exactly for a new, different email that another row of the organization holds |
| `EmployeeRoutes.UpdateWritesBodyAsGiven` | backend/src/routes/employees.js:635-671 | the body is written as given, `organization_id` and `employee_id` included, so a row can be moved to another organization |
| `EmployeeRoutes.UpdateRoute` | backend/src/routes/employees.js:622-696 | the reply is `UpdateReply` of the checks; on 200 that one row is replaced, otherwise nothing changes |
| `EmployeeRoutes.DeleteRoute` | backend/src/routes/employees.js:754-784 | 403 for a non-admin, 404 for no row in the caller's organization, otherwise exactly that row is removed and the reply is 204 |
| `EmployeeRoutes.DeleteLowersHeadcount` | backend/src/models/Employee.js:197-206 | a delete lowers the count that numbering reads by one |
| `OrganizationRoutes.ListOrganizationsGate` | backend/src/routes/organizations.js:39 | only a super-admin lists organizations; anyone else gets the 403 |
| `OrganizationRoutes.OrgRowsMatch` | backend/src/routes/organizations.js:39-77 | the page holds stored organizations matching the search, and the total counts every match |
| `OrganizationRoutes.CreatedOrganizationChecks` | backend/src/routes/organizations.js:90-134 | a 201 means a super-admin asked, the body passed validation, and neither the organization email nor the admin email was in use |
| `OrganizationRoutes.CreatedOrganizationRows` | backend/src/routes/organizations.js:137-170 | a 201 appends the organization with its plan, the table's limit and the admin's id, and appends the admin as a verified admin of it with the given password |
| `OrganizationRoutes.EmailChecksInOrder` | backend/src/routes/organizations.js:117-134 | the organization email is checked first; the admin email is checked against every user of every organization |
| `OrganizationRoutes.EnterpriseCannotBeCreated` | backend/src/routes/organizations.js:137-147 | an Enterprise organization cannot be created: the reply is not 201 and nothing is written |
| `OrganizationRoutes.OrganizationOutlivesFailedAdmin` | backend/src/routes/organizations.js:137-160 | when the admin cannot be stored, the reply is 500 yet the new organization stays, with no admin |
| `OrganizationRoutes.CreateRoute` | backend/src/routes/organizations.js:90-181 | the reply and both tables are those of `CreateOrganization`; the constraints are kept |
| `OrganizationRoutes.OrgAccessIsOwnOrganization` | backend/src/routes/organizations.js:184-269 | on these routes a non-super-admin passes exactly for its own, non-empty organization id |
| `OrganizationRoutes.GetOrganizationMeans` | backend/src/routes/organizations.js:184-217 | a 200 carries the stored organization with that id, to its members or a super-admin; an unknown id is a 404 |
| `OrganizationRoutes.ApplyOrgPatch` | backend/src/routes/organizations.js:252-254 | `organization.update(updateData)` keeps the id and writes a `registered_date` the body gives as it is, since that column is a plain date |
| `OrganizationRoutes.PlanChangeSetsLimit` | backend/src/routes/organizations.js:245-252 | a different plan brings its table limit; the same plan, or none, leaves plan and limit as they were unless the body writes them |
| `OrganizationRoutes.DecideOrgUpdate` | backend/src/routes/organizations.js:220-255 | a write is of the organization with the asked id, with the body applied |
| `OrganizationRoutes.OrgUpdateAccess` | backend/src/routes/organizations.js:220-255 | only the caller's own organization is written unless the caller is a super-admin, and a member always reaches the write |
| `OrganizationRoutes.MemberCanSetSeatLimit` | backend/src/routes/organizations.js:220-266 | any member of an organization, an employee included, can set its seat limit to any positive number |
| `OrganizationRoutes.EnterpriseSwitchFails` | backend/src/routes/organizations.js:245-266 | switching to Enterprise always ends in 500 |
| `OrganizationRoutes.UpdateRoute` | backend/src/routes/organizations.js:220-266 | the reply is `OrgUpdateReply` of the checks; on 200 that one row is replaced, otherwise nothing changes |
| `OrganizationRoutes.RoleCountsAddUp` | backend/src/routes/organizations.js:283-296 | `adminCount + employeeCount == totalUsers` |
| `OrganizationRoutes.StatsMeans` | backend/src/routes/organizations.js:269-319 | the statistics go only to members or a super-admin and are the stored organization's own; an unknown id is a 404 |
| `Server.NotFoundNamesUrl` | backend/src/server.js:121-127 | the 404 message names the URL, which can be read back from it |
| `Server.ErrorHandlerStatus` | backend/src/server.js:130-155 | 400 for both validation errors, 401 for `UnauthorizedError`, else the error's non-zero status code, else 500; `code` repeats it |
| `Server.ErrorHandlerMessage` | backend/src/server.js:130-155 | a fixed message for the three named errors, else the error's non-empty message, else "Internal Server Error"; `error` is the name or "Error" |
| `Server.StackOnlyInDevelopment` | backend/src/server.js:149-154 | the stack is sent exactly in development, when there is one |

## Left out

- Signing and verifying JSON web tokens, and bcrypt, are foreign cryptography. Token strings are judged by a `verify` parameter. `Bcrypt` is an injective stand-in, with no salt and no one-wayness.
- Clock, UUID generation, `console` output and the HTTP server itself become parameters or are not modelled.
- express-validator's format checks (`isEmail`, `isMobilePhone`, `isUUID`, `isISO8601`, `normalizeEmail`, `trim`) are library predicates. Their verdict reaches the model as `bodyErrors`, or as a flag at login.
- Sequelize associations and `include`s are not modelled:
  - the users embedded in the organization list and the organization get;
  - the manager and subordinates embedded in employee replies;
  - the `SET NULL` of `manager_id` when an employee is deleted;
  - cascade deletes.
  - The count of `findAndCountAll` is taken over the matching organizations. The join with the included users is not modelled.
- The foreign keys `manager_id` and `user_id` of employees are not checked. Only `organization_id` is.
- Among the columns: `emergency_contact`, `date_of_birth`, `gender`, `logo` and `settings` are not modelled, and neither are the URL validators of `website` and `logo`, nor `created_at` and `updated_at`.
- Update bodies that write `null` into a nullable column, a primary key, or a value outside an enum are not modelled. Neither are repeated query parameters, which arrive as arrays.
- `iLike` is a case-insensitive substring test on ASCII letters. LIKE wildcards in the search text and Unicode case mapping are not modelled.
- `Employee.getYearsOfService` uses floating-point date arithmetic. `Employee.getFullName` only returns the name.
- `GET /health` and the middleware wiring of `server.js` (helmet, CORS, compression, rate limiter, static files, logging, startup and shutdown) are framework plumbing.
- The stub routers (attendance, departments, leave requests, payslips, reports, tasks) are not part of this model.
- Concurrency: every handler runs alone. The gaps between the checks and the writes are not modelled.
- `AuthMiddleware.Request.AddOrganizationFilter`: requires a signed-in user, because every route that uses it runs `authenticateToken` first.
- `EmployeeModel.ToJson`: states only the organization and status fields of the reply; the other columns are written out in its body.
- `OrgModel.UsagePercentageFor`: `Math.round` over a floating-point quotient is modelled as exact rational rounding.

## Findings

| source | as written | input that shows it | evidently intended | confidence | as-written member | corrected member |
|---|---|---|---|---|---|---|
| backend/src/models/Employee.js:181-195 | `findByOrganization` builds `{organization_id, ...options.where}`, then spreads `...options` after it, so the caller's `where` replaces the merged one; `findActiveByOrganization` therefore queries `{status: 'active'}` alone | an active employee of organization B, with `findActiveByOrganization(A)` | the caller's `where` narrows the organization's rows, and the organization is never dropped | not executed; high | `EmployeeModel.ActiveByOrganizationCrossesTenants` | `EmployeeModel.ScopedStaysInOrganization` |
