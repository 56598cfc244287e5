/** The `User` model: its columns and defaults, the `(email,
    organization_id)` unique index, the password hashing hooks,
    `validatePassword`, `toJSON`, `updateLastLogin`, `findByEmail` and
    `createSuperAdmin`. */
module Users {
  import opened Common
  import Seqs

  datatype User = User(
    id: Id,
    organization_id: Option<Id>,  // none for the super-admin
    email: string,
    password_hash: string,
    name: string,
    role: Role,
    is_super_admin: bool,
    is_active: bool,
    last_login: Option<int>,
    email_verified: bool,
    profile_picture: Option<string>)

  /** The values a caller hands to `User.create`; `None` means "not given",
      so the column default applies. `password` is what the caller puts in
      `password_hash`, still in clear. */
  datatype UserDraft = UserDraft(
    id: Id,
    organization_id: Option<Id>,
    email: string,
    password: string,
    name: string,
    role: Option<Role>,
    is_super_admin: Option<bool>,
    is_active: Option<bool>,
    email_verified: Option<bool>)

  // ---------------------------------------------------------------------
  // Password hashing. bcrypt with cost 12 is foreign code; `Bcrypt` stands
  // for it as an injective function and `Compare` for `bcrypt.compare`.

  const BcryptPrefix: string := "$2a$12$"

  function Bcrypt(password: string): string
  {
    BcryptPrefix + password
  }

  predicate Compare(candidate: string, hash: string)
  {
    hash == Bcrypt(candidate)
  }

  /** A hash matches exactly the password it was made from. */
  lemma BcryptMatchesOnlyItsPassword(candidate: string, password: string)
    ensures Compare(candidate, Bcrypt(password)) <==> candidate == password
  {
    if Bcrypt(password) == Bcrypt(candidate) {
      assert password == Bcrypt(password)[|BcryptPrefix|..];
      assert candidate == Bcrypt(candidate)[|BcryptPrefix|..];
    }
  }

  /** The column validators `password_hash: len [6, 255]` and `name: len [2, 255]`;
      Sequelize runs them before the `beforeCreate` hook, on the clear password.
      (`isEmail` is a library check and is not modelled.) */
  predicate DraftValid(d: UserDraft)
  {
    6 <= |d.password| <= 255 && 2 <= |d.name| <= 255
  }

  function GetOr<T>(o: Option<T>, default: T): T
  {
    if o.Some? then o.value else default
  }

  /** The stored row for a draft: the column defaults (`role` employee,
      `is_super_admin` false, `is_active` true, `email_verified` false, no
      last login) and the `beforeCreate` hook, which hashes a non-empty password. */
  function BeforeCreate(d: UserDraft): (u: User)
    ensures u.id == d.id && u.organization_id == d.organization_id && u.email == d.email && u.name == d.name
    ensures u.role == (if d.role.Some? then d.role.value else Employee)
    ensures u.is_super_admin == (d.is_super_admin == Some(true))
    ensures u.is_active == (d.is_active != Some(false))
    ensures u.email_verified == (d.email_verified == Some(true))
    ensures u.last_login.None?
    ensures d.password != "" ==> Compare(d.password, u.password_hash)
  {
    User(d.id, d.organization_id, d.email,
         if d.password != "" then Bcrypt(d.password) else d.password,
         d.name, GetOr(d.role, Employee), GetOr(d.is_super_admin, false), GetOr(d.is_active, true),
         None, GetOr(d.email_verified, false), None)
  }

  /** The `beforeUpdate` hook: the row about to be saved gets its
      `password_hash` hashed when, and only when, it differs from the stored one. */
  function BeforeUpdate(stored: User, updated: User): (u: User)
    ensures u.password_hash != updated.password_hash ==> updated.password_hash != stored.password_hash
    ensures updated.password_hash != stored.password_hash ==> Compare(updated.password_hash, u.password_hash)
    ensures u.(password_hash := updated.password_hash) == updated
  {
    if updated.password_hash != stored.password_hash then updated.(password_hash := Bcrypt(updated.password_hash))
    else updated
  }

  /** `validatePassword(password)`. */
  predicate ValidatePassword(u: User, password: string)
  {
    Compare(password, u.password_hash)
  }

  /** Right after creation the row accepts its own password and no other. */
  lemma CreatedUserAcceptsOnlyItsPassword(d: UserDraft, candidate: string)
    requires DraftValid(d)
    ensures ValidatePassword(BeforeCreate(d), d.password)
    ensures ValidatePassword(BeforeCreate(d), candidate) <==> candidate == d.password
  {
    BcryptMatchesOnlyItsPassword(candidate, d.password);
  }

  /** An update that does not touch the password keeps the stored hash,
      so the same passwords keep validating. */
  lemma UpdateKeepsPassword(stored: User, updated: User, candidate: string)
    requires updated.password_hash == stored.password_hash
    ensures BeforeUpdate(stored, updated) == updated
    ensures ValidatePassword(BeforeUpdate(stored, updated), candidate) == ValidatePassword(stored, candidate)
  {
  }

  /** An update that sets a new clear password makes exactly that password valid. */
  lemma UpdateRehashesNewPassword(stored: User, updated: User, candidate: string)
    requires updated.password_hash != stored.password_hash
    ensures ValidatePassword(BeforeUpdate(stored, updated), candidate) <==> candidate == updated.password_hash
  {
    BcryptMatchesOnlyItsPassword(candidate, updated.password_hash);
  }

  /** `updateLastLogin()`: sets `last_login` to now and saves; nothing else
      changes, the password hash included. */
  function UpdateLastLogin(stored: User, now: int): (u: User)
    ensures u.last_login == Some(now)
    ensures u.(last_login := stored.last_login) == stored
  {
    BeforeUpdate(stored, stored.(last_login := Some(now)))
  }

  /** The row as `this.get()` gives it. */
  function Values(u: User): map<string, Json>
  {
    map[
      "id" := JStr(u.id),
      "organization_id" := OptStr(u.organization_id),
      "email" := JStr(u.email),
      "password_hash" := JStr(u.password_hash),
      "name" := JStr(u.name),
      "role" := JStr(RoleName(u.role)),
      "is_super_admin" := JBool(u.is_super_admin),
      "is_active" := JBool(u.is_active),
      "last_login" := OptNum(u.last_login),
      "email_verified" := JBool(u.email_verified),
      "profile_picture" := OptStr(u.profile_picture)]
  }

  /** `toJSON()`: every column except `password_hash`. */
  function ToJson(u: User): (j: Json)
    ensures j.JObj? && "password_hash" !in j.fields
    ensures forall k :: k in Values(u) && k != "password_hash" ==> k in j.fields && j.fields[k] == Values(u)[k]
    ensures forall k :: k in j.fields ==> k in Values(u)
  {
    JObj(Values(u) - {"password_hash"})
  }

  /** The `where` object `findByEmail` builds. */
  datatype UserWhere = UserWhere(email: string, is_active: bool, organization_id: Option<Id>)

  /** `findByEmail(email, organizationId = null)`: email and `is_active: true`
      always; the organization only when a non-empty one is given. */
  function FindByEmailWhere(email: string, organizationId: Option<Id>): (w: UserWhere)
    ensures w.email == email && w.is_active
    ensures w.organization_id.Some? <==> Present(organizationId)
    ensures w.organization_id.Some? ==> w.organization_id == organizationId
  {
    UserWhere(email, true, if Present(organizationId) then organizationId else None)
  }

  predicate MatchesWhere(w: UserWhere, u: User)
  {
    u.email == w.email && u.is_active == w.is_active
    && (w.organization_id.Some? ==> u.organization_id == w.organization_id)
  }

  /** The row `findByEmail` returns: the first one matching its `where`. */
  function FindByEmail(users: seq<User>, email: string, organizationId: Option<Id>): (r: Option<User>)
    ensures r.Some? ==> r.value in users && r.value.email == email && r.value.is_active
    ensures r.Some? && Present(organizationId) ==> r.value.organization_id == organizationId
    ensures r.None? ==> forall u :: u in users && u.email == email && u.is_active ==>
                          Present(organizationId) && u.organization_id != organizationId
  {
    var w := FindByEmailWhere(email, organizationId);
    var i := Seqs.FirstWhere(users, u => MatchesWhere(w, u));
    if i.Some? then Some(users[i.value]) else None
  }

  /** The draft `createSuperAdmin(email, password, name)` hands to `create`. */
  function SuperAdminDraft(id: Id, email: string, password: string, name: string): UserDraft
  {
    UserDraft(id, None, email, password, name, Some(Admin), Some(true), None, Some(true))
  }

  /** The super-admin is an admin, flagged as super-admin, belongs to no
      organization, is verified and active, and accepts its password. */
  lemma SuperAdminShape(id: Id, email: string, password: string, name: string)
    requires password != ""
    ensures var u := BeforeCreate(SuperAdminDraft(id, email, password, name));
      u.role == Admin && u.is_super_admin && u.organization_id.None? && u.email_verified && u.is_active
      && ValidatePassword(u, password)
  {
  }

  /** The constraints the `users` table holds: unique primary keys and the
      `unique_email_per_organization` index. Rows without an organization
      never collide on that index, as NULLs are distinct in a unique index. */
  predicate UsersUnique(users: seq<User>)
  {
    && (forall i, j :: 0 <= i < j < |users| ==> users[i].id != users[j].id)
    && (forall i, j :: 0 <= i < j < |users| && users[i].organization_id.Some? && users[i].organization_id == users[j].organization_id
          ==> users[i].email != users[j].email)
  }
}
