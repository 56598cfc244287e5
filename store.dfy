/** The database behind the models: three tables kept in insertion order,
    with the constraints SQLite and the model validators enforce on every
    write (primary keys, the unique indexes, the column validators and the
    foreign keys to `organizations`). A refused write changes nothing and
    reports why; the routes turn every such error into a 500. */
module Store {
  import opened Common
  import opened Users
  import OrgModel
  import EmployeeModel
  import Seqs

  type Organization = OrgModel.Organization
  type Employee = EmployeeModel.Employee

  /** Why a write was refused. */
  datatype StoreError = ValidationFailed | PrimaryKeyTaken | UniqueViolation | ForeignKeyViolation

  datatype Result<T> = Ok(value: T) | Err(error: StoreError)

  predicate HasOrg(orgs: seq<Organization>, id: Id)
  {
    exists i | 0 <= i < |orgs| :: orgs[i].id == id
  }

  // ---------------------------------------------------------------------
  // Lookups

  /** `User.findByPk(id)`. */
  function UserIndex(users: seq<User>, id: Id): (r: Option<nat>)
    ensures r.Some? ==> r.value < |users| && users[r.value].id == id
    ensures r.None? ==> forall i :: 0 <= i < |users| ==> users[i].id != id
  {
    Seqs.FirstWhere(users, (u: User) => u.id == id)
  }

  function FindUser(users: seq<User>, id: Id): (r: Option<User>)
    ensures r.Some? <==> exists i :: 0 <= i < |users| && users[i].id == id
    ensures r.Some? ==> r.value in users && r.value.id == id
  {
    var i := UserIndex(users, id);
    if i.Some? then Some(users[i.value]) else None
  }

  /** `Organization.findByPk(id)`; a null id finds nothing. */
  function OrgIndex(orgs: seq<Organization>, id: Id): (r: Option<nat>)
    ensures r.Some? ==> r.value < |orgs| && orgs[r.value].id == id
    ensures r.None? ==> !HasOrg(orgs, id)
  {
    Seqs.FirstWhere(orgs, (o: Organization) => o.id == id)
  }

  function FindOrg(orgs: seq<Organization>, id: Option<Id>): (r: Option<Organization>)
    ensures r.Some? <==> id.Some? && HasOrg(orgs, id.value)
    ensures r.Some? ==> r.value in orgs && r.value.id == id.value
  {
    if id.None? then None
    else
      var i := OrgIndex(orgs, id.value);
      if i.Some? then Some(orgs[i.value]) else None
  }

  // ---------------------------------------------------------------------
  // Constraint checks, each the reason a write of that row is refused

  function UserInsertError(users: seq<User>, orgs: seq<Organization>, d: UserDraft): (err: Option<StoreError>)
    ensures err.None? ==> DraftValid(d)
    ensures err.None? ==> forall i :: 0 <= i < |users| ==> users[i].id != d.id
    ensures err.None? ==> forall i :: 0 <= i < |users| && d.organization_id.Some? && users[i].organization_id == d.organization_id ==> users[i].email != d.email
    ensures err.None? ==> d.organization_id.Some? ==> HasOrg(orgs, d.organization_id.value)
    ensures err.Some? ==> !DraftValid(d) || (exists i :: 0 <= i < |users| && users[i].id == d.id)
                          || (exists i :: 0 <= i < |users| && d.organization_id.Some? && users[i].organization_id == d.organization_id && users[i].email == d.email)
                          || (d.organization_id.Some? && !HasOrg(orgs, d.organization_id.value))
  {
    if !DraftValid(d) then Some(ValidationFailed)
    else if exists i | 0 <= i < |users| :: users[i].id == d.id then Some(PrimaryKeyTaken)
    else if exists i | 0 <= i < |users| :: d.organization_id.Some? && users[i].organization_id == d.organization_id && users[i].email == d.email then Some(UniqueViolation)
    else if d.organization_id.Some? && !HasOrg(orgs, d.organization_id.value) then Some(ForeignKeyViolation)
    else None
  }

  function OrgWriteError(orgs: seq<Organization>, skip: int, o: Organization): (err: Option<StoreError>)
    ensures err.None? ==> OrgModel.FieldsValid(o)
    ensures err.None? ==> forall i :: 0 <= i < |orgs| && i != skip ==> orgs[i].id != o.id && orgs[i].email != o.email
    ensures err.Some? ==> !OrgModel.FieldsValid(o)
                          || exists i :: 0 <= i < |orgs| && i != skip && (orgs[i].id == o.id || orgs[i].email == o.email)
  {
    if !OrgModel.FieldsValid(o) then Some(ValidationFailed)
    else if exists i | 0 <= i < |orgs| :: i != skip && orgs[i].id == o.id then Some(PrimaryKeyTaken)
    else if exists i | 0 <= i < |orgs| :: i != skip && orgs[i].email == o.email then Some(UniqueViolation)
    else None
  }

  function EmployeeWriteError(emps: seq<Employee>, orgs: seq<Organization>, skip: int, e: Employee): (err: Option<StoreError>)
    ensures err.None? ==> EmployeeModel.FieldsValid(e) && HasOrg(orgs, e.organization_id)
    ensures err.None? ==> forall i :: 0 <= i < |emps| && i != skip ==> emps[i].id != e.id
    ensures err.None? ==> forall i :: 0 <= i < |emps| && i != skip && emps[i].organization_id == e.organization_id ==>
                            emps[i].employee_id != e.employee_id && emps[i].email != e.email
    ensures err.Some? ==> !EmployeeModel.FieldsValid(e) || !HasOrg(orgs, e.organization_id)
                          || exists i :: 0 <= i < |emps| && i != skip && (emps[i].id == e.id || (emps[i].organization_id == e.organization_id
                                         && (emps[i].employee_id == e.employee_id || emps[i].email == e.email)))
  {
    if !EmployeeModel.FieldsValid(e) then Some(ValidationFailed)
    else if exists i | 0 <= i < |emps| :: i != skip && emps[i].id == e.id then Some(PrimaryKeyTaken)
    else if exists i | 0 <= i < |emps| :: i != skip && emps[i].organization_id == e.organization_id
                                           && (emps[i].employee_id == e.employee_id || emps[i].email == e.email) then Some(UniqueViolation)
    else if !HasOrg(orgs, e.organization_id) then Some(ForeignKeyViolation)
    else None
  }

  class Database {
    var users: seq<User>
    var orgs: seq<Organization>
    var employees: seq<Employee>

    /** What the tables always satisfy. */
    predicate Valid()
      reads this
    {
      && UsersUnique(users)
      && OrgModel.OrgsUnique(orgs)
      && EmployeeModel.EmployeesUnique(employees)
      && (forall i :: 0 <= i < |orgs| ==> OrgModel.FieldsValid(orgs[i]))
      && (forall i :: 0 <= i < |employees| ==> EmployeeModel.FieldsValid(employees[i]) && HasOrg(orgs, employees[i].organization_id))
      && (forall i :: 0 <= i < |users| && users[i].organization_id.Some? ==> HasOrg(orgs, users[i].organization_id.value))
    }

    constructor()
      ensures Valid()
      ensures users == [] && orgs == [] && employees == []
    {
      users := [];
      orgs := [];
      employees := [];
    }

    /** `User.create(draft)`: validation, the `beforeCreate` hook, then the insert. */
    method CreateUser(d: UserDraft) returns (r: Result<User>)
      requires Valid()
      modifies this
      ensures Valid()
      ensures UserInsertError(old(users), old(orgs), d).Some? ==> r == Err(UserInsertError(old(users), old(orgs), d).value) && users == old(users)
      ensures UserInsertError(old(users), old(orgs), d).None? ==> r == Ok(BeforeCreate(d)) && users == old(users) + [BeforeCreate(d)]
      ensures orgs == old(orgs) && employees == old(employees)
    {
      var err := UserInsertError(users, orgs, d);
      if err.Some? {
        return Err(err.value);
      }
      var u := BeforeCreate(d);
      users := users + [u];
      r := Ok(u);
    }

    /** `user.updateLastLogin()` on the row at `i`. Only `last_login`
        changes, which no validator or index looks at. */
    method StampLastLogin(i: nat, now: int)
      requires Valid() && i < |users|
      modifies this
      ensures Valid()
      ensures users == old(users)[i := Users.UpdateLastLogin(old(users)[i], now)]
      ensures orgs == old(orgs) && employees == old(employees)
    {
      users := users[i := Users.UpdateLastLogin(users[i], now)];
    }

    /** `Organization.create(...)`. */
    method InsertOrg(o: Organization) returns (err: Option<StoreError>)
      requires Valid()
      modifies this
      ensures Valid()
      ensures err == OrgWriteError(old(orgs), -1, o)
      ensures err.None? ==> orgs == old(orgs) + [o]
      ensures err.Some? ==> orgs == old(orgs)
      ensures users == old(users) && employees == old(employees)
    {
      err := OrgWriteError(orgs, -1, o);
      if err.None? {
        orgs := orgs + [o];
        assert forall k :: 0 <= k < |old(orgs)| ==> orgs[k] == old(orgs)[k];
      }
    }

    /** `organization.update(...)` on the row at `i`; the primary key stays. */
    method UpdateOrg(i: nat, o: Organization) returns (err: Option<StoreError>)
      requires Valid() && i < |orgs| && o.id == orgs[i].id
      modifies this
      ensures Valid()
      ensures err == OrgWriteError(old(orgs), i, o)
      ensures err.None? ==> orgs == old(orgs)[i := o]
      ensures err.Some? ==> orgs == old(orgs)
      ensures users == old(users) && employees == old(employees)
    {
      err := OrgWriteError(orgs, i, o);
      if err.None? {
        ghost var before := orgs;
        orgs := orgs[i := o];
        assert forall id :: HasOrg(before, id) ==> HasOrg(orgs, id) by {
          forall id | HasOrg(before, id) ensures HasOrg(orgs, id) {
            var k :| 0 <= k < |before| && before[k].id == id;
            assert orgs[k].id == id;
          }
        }
      }
    }

    /** `Employee.create(...)`. */
    method InsertEmployee(e: Employee) returns (err: Option<StoreError>)
      requires Valid()
      modifies this
      ensures Valid()
      ensures err == EmployeeWriteError(old(employees), old(orgs), -1, e)
      ensures err.None? ==> employees == old(employees) + [e]
      ensures err.Some? ==> employees == old(employees)
      ensures users == old(users) && orgs == old(orgs)
    {
      err := EmployeeWriteError(employees, orgs, -1, e);
      if err.None? {
        employees := employees + [e];
        assert forall k :: 0 <= k < |old(employees)| ==> employees[k] == old(employees)[k];
      }
    }

    /** `employee.update(...)` on the row at `i`; the primary key stays. */
    method UpdateEmployee(i: nat, e: Employee) returns (err: Option<StoreError>)
      requires Valid() && i < |employees| && e.id == employees[i].id
      modifies this
      ensures Valid()
      ensures err == EmployeeWriteError(old(employees), old(orgs), i, e)
      ensures err.None? ==> employees == old(employees)[i := e]
      ensures err.Some? ==> employees == old(employees)
      ensures users == old(users) && orgs == old(orgs)
    {
      err := EmployeeWriteError(employees, orgs, i, e);
      if err.None? {
        employees := employees[i := e];
      }
    }

    /** `employee.destroy()` on the row at `i`. */
    method DeleteEmployee(i: nat)
      requires Valid() && i < |employees|
      modifies this
      ensures Valid()
      ensures employees == old(employees)[..i] + old(employees)[i + 1..]
      ensures users == old(users) && orgs == old(orgs)
    {
      ghost var before := employees;
      employees := employees[..i] + employees[i + 1..];
      assert forall k :: 0 <= k < |employees| ==> employees[k] == before[if k < i then k else k + 1];
    }
  }
}
