/** The user service: list and fetch users under tenant and viewer scoping,
    and create, update or delete them behind the permission table. Password
    hashing (bcrypt, salted) is a parameter `hash` of the writing calls. */
module Users {
  import opened Common
  import opened Data
  import opened Rbac
  import opened Store

  const USER_NOT_FOUND := "User not found"
  const ACCESS_DENIED := "Access denied"
  const CREATE_DENIED := "Insufficient permissions to create users"
  const ORGANIZATION_NOT_FOUND := "Organization not found"
  const FOREIGN_ORGANIZATION := "Cannot create users in this organization"
  const EMAIL_TAKEN := "User with this email already exists"
  const UPDATE_DENIED := "Insufficient permissions to update users"
  const UPDATE_FOREIGN := "Can only update users in your organization"
  const DELETE_DENIED := "Insufficient permissions to delete users"
  const DELETE_FOREIGN := "Can only delete users in your organization"
  const SELF_DELETE := "Cannot delete your own account"

  /** `findAll`: the users of the caller's organization; a viewer only itself. */
  function FindAll(users: map<Id, User>, user: Principal): (r: set<User>)
    ensures r <= users.Values
    ensures forall u :: u in r ==> u.organizationId == user.organizationId
    ensures user.role == Viewer ==> forall u :: u in r ==> u.id == user.id
    ensures forall u :: (u in users.Values && u.organizationId == user.organizationId
                         && (user.role == Viewer ==> u.id == user.id)) ==> u in r
  {
    set u | u in users.Values && u.organizationId == user.organizationId
            && (user.role == Viewer ==> u.id == user.id)
  }

  /** `findOne`: existence first, then tenant access, then a viewer may only
      fetch itself. */
  function FindOne(users: map<Id, User>, id: Id, user: Principal): (r: Result<User>)
    ensures id !in users <==> r == Err(NotFound(USER_NOT_FOUND))
    ensures r.Ok? <==> id in users && !user.role.Other?
                       && users[id].organizationId == user.organizationId
                       && (user.role == Viewer ==> users[id].id == user.id)
    ensures r.Ok? ==> r.value == users[id]
    ensures id in users && r.Err? ==> r == Err(Forbidden(ACCESS_DENIED))
  {
    if id !in users then
      Err(NotFound(USER_NOT_FOUND))
    else
      var target := users[id];
      if !CanAccessResource(user.role, user.organizationId, target.organizationId) then
        Err(Forbidden(ACCESS_DENIED))
      else if user.role == Viewer && target.id != user.id then
        Err(Forbidden(ACCESS_DENIED))
      else
        Ok(target)
  }

  /** The column whose unique index `save` can break. */
  const EMAIL_COLUMN := "email"

  /** Does a user other than `id` already have this address? This is the
      write the unique index refuses when row `id` is saved with `email`. */
  function EmailHeldByOther(users: map<Id, User>, id: Id, email: string): (r: bool)
    ensures r ==> EmailTaken(users, email)
    ensures EmailTaken(users, email) && !r ==> id in users && users[id].email == email
    ensures id !in users ==> (r <==> EmailTaken(users, email))
    ensures EmailsUnique(users) && id in users && email == users[id].email ==> !r
  {
    exists k :: k in users && k != id && users[k].email == email
  }

  /** Is the address already used by some user of any organization? */
  function EmailTaken(users: map<Id, User>, email: string): (r: bool)
    ensures r <==> exists u :: u in users.Values && u.email == email
  {
    exists k :: k in users && users[k].email == email
  }

  /** The checks `create` runs, in order: permission, target organization
      exists, target organization accessible, address unused. */
  function CheckCreate(users: map<Id, User>, organizations: map<Id, Organization>,
                       dto: CreateUserDto, user: Principal): (r: Result<()>)
    ensures !HasPermission(user.role, UserKind, Create) ==> r == Err(Forbidden(CREATE_DENIED))
    ensures HasPermission(user.role, UserKind, Create) && dto.organizationId !in organizations ==>
              r == Err(NotFound(ORGANIZATION_NOT_FOUND))
    ensures (HasPermission(user.role, UserKind, Create) && dto.organizationId in organizations
             && dto.organizationId != user.organizationId) ==> r == Err(Forbidden(FOREIGN_ORGANIZATION))
    ensures r.Ok? <==> user.role == Owner && dto.organizationId in organizations
                       && dto.organizationId == user.organizationId && !EmailTaken(users, dto.email)
    ensures (r.Err? && user.role == Owner && dto.organizationId in organizations
             && dto.organizationId == user.organizationId) ==> r == Err(Forbidden(EMAIL_TAKEN))
  {
    OnlyOwnerManagesOrganizationsAndUsers(user.role, UserKind, Create);
    if !HasPermission(user.role, UserKind, Create) then
      Err(Forbidden(CREATE_DENIED))
    else if dto.organizationId !in organizations then
      Err(NotFound(ORGANIZATION_NOT_FOUND))
    else if !CanAccessResource(user.role, user.organizationId, dto.organizationId) then
      Err(Forbidden(FOREIGN_ORGANIZATION))
    else if EmailTaken(users, dto.email) then
      Err(Forbidden(EMAIL_TAKEN))
    else
      Ok(())
  }

  /** The row `create` saves: the body with its password replaced by its hash. */
  function NewUser(id: Id, dto: CreateUserDto, hash: string -> string): (u: User)
    ensures u.id == id && u.password == hash(dto.password)
    ensures u.email == dto.email && u.firstName == dto.firstName && u.lastName == dto.lastName
            && u.role == dto.role && u.organizationId == dto.organizationId
  {
    User(id, dto.email, hash(dto.password), dto.firstName, dto.lastName, dto.role, dto.organizationId)
  }

  /** The checks `update` runs before writing: `findOne`, the permission, and
      the admin same-organization rule. */
  function CheckUpdate(users: map<Id, User>, id: Id, user: Principal): (r: Result<User>)
    ensures FindOne(users, id, user).Err? ==> r == FindOne(users, id, user)
    ensures r.Ok? <==> FindOne(users, id, user).Ok? && user.role in {Owner, Admin}
    ensures FindOne(users, id, user).Ok? && r.Err? ==> r == Err(Forbidden(UPDATE_DENIED))
    ensures r.Ok? ==> r.value == users[id]
  {
    AdminGrants(UserKind, Update);
    ViewerGrants(UserKind, Update);
    var found := FindOne(users, id, user);
    if found.Err? then
      found
    else
      var target := found.value;
      if !HasPermission(user.role, UserKind, Update) then
        Err(Forbidden(UPDATE_DENIED))
      else if user.role == Admin && target.organizationId != user.organizationId then
        Err(Forbidden(UPDATE_FOREIGN))
      else
        found
  }

  /** The password an update stores: a non-empty supplied password is hashed;
      an empty one is falsy, escapes the hashing and is assigned as it is. */
  function UpdatedPassword(given: Option<string>, current: string, hash: string -> string): (p: string)
    ensures given.None? ==> p == current
    ensures given.Some? && given.value != "" ==> p == hash(given.value)
    ensures given == Some("") ==> p == ""
  {
    match given
    case None => current
    case Some(pw) => if pw != "" then hash(pw) else pw
  }

  /** `Object.assign(target, dto)` after the password has been hashed. */
  function ApplyUpdate(target: User, dto: UpdateUserDto, hash: string -> string): (r: User)
    ensures r.id == target.id
    ensures r.password == UpdatedPassword(dto.password, target.password, hash)
    ensures dto.email.None? ==> r.email == target.email
    ensures dto.email.Some? ==> r.email == dto.email.value
    ensures dto.firstName.None? ==> r.firstName == target.firstName
    ensures dto.firstName.Some? ==> r.firstName == dto.firstName.value
    ensures dto.lastName.None? ==> r.lastName == target.lastName
    ensures dto.lastName.Some? ==> r.lastName == dto.lastName.value
    ensures dto.role.None? ==> r.role == target.role
    ensures dto.role.Some? ==> r.role == dto.role.value
    ensures dto.organizationId.None? ==> r.organizationId == target.organizationId
    ensures dto.organizationId.Some? ==> r.organizationId == dto.organizationId.value
  {
    target.(email := Overwrite(dto.email, target.email),
            password := UpdatedPassword(dto.password, target.password, hash),
            firstName := Overwrite(dto.firstName, target.firstName),
            lastName := Overwrite(dto.lastName, target.lastName),
            role := Overwrite(dto.role, target.role),
            organizationId := Overwrite(dto.organizationId, target.organizationId))
  }

  /** The checks `remove` runs before deleting: `findOne`, the permission, the
      admin same-organization rule, and the ban on deleting oneself. */
  function CheckRemove(users: map<Id, User>, id: Id, user: Principal): (r: Result<User>)
    ensures FindOne(users, id, user).Err? ==> r == FindOne(users, id, user)
    ensures FindOne(users, id, user).Ok? && user.role != Owner ==> r == Err(Forbidden(DELETE_DENIED))
    ensures FindOne(users, id, user).Ok? && user.role == Owner && users[id].id == user.id ==>
              r == Err(Forbidden(SELF_DELETE))
    ensures r.Ok? <==> FindOne(users, id, user).Ok? && user.role == Owner && users[id].id != user.id
    ensures r.Ok? ==> r.value == users[id]
  {
    OnlyOwnerManagesOrganizationsAndUsers(user.role, UserKind, Delete);
    var found := FindOne(users, id, user);
    if found.Err? then
      found
    else
      var target := found.value;
      if !HasPermission(user.role, UserKind, Delete) then
        Err(Forbidden(DELETE_DENIED))
      else if user.role == Admin && target.organizationId != user.organizationId then
        Err(Forbidden(DELETE_FOREIGN))
      else if target.id == user.id then
        Err(Forbidden(SELF_DELETE))
      else
        found
  }

  class UsersService {
    const db: Database

    constructor (db: Database)
      ensures this.db == db
    {
      this.db := db;
    }

    /** `newId` is the uuid the database generates for the new row. */
    method Create(dto: CreateUserDto, user: Principal, newId: Id, hash: string -> string)
      returns (r: Result<User>)
      requires db.Valid() && newId !in db.users
      modifies db
      ensures db.Valid()
      ensures db.tasks == old(db.tasks) && db.organizations == old(db.organizations)
      ensures db.auditLog == old(db.auditLog)
      ensures r.Ok? <==> CheckCreate(old(db.users), db.organizations, dto, user).Ok?
      ensures r.Err? ==> r.error == CheckCreate(old(db.users), db.organizations, dto, user).error
                         && db.users == old(db.users)
      ensures r.Ok? ==> r.value == NewUser(newId, dto, hash) && db.users == old(db.users)[newId := r.value]
    {
      var check := CheckCreate(db.users, db.organizations, dto, user);
      if check.Err? {
        return Err(check.error);
      }
      var created := NewUser(newId, dto, hash);
      ghost var before := db.users;
      db.users := db.users[created.id := created];
      assert UsersKeyed(db.users) by {
        assert UsersKeyed(before);
      }
      r := Ok(created);
    }

    /** `update`; the final `save` fails on the email column's unique index
        when the new address belongs to another user, and then nothing is
        stored. */
    method Update(id: Id, dto: UpdateUserDto, user: Principal, hash: string -> string)
      returns (r: Result<User>)
      requires db.Valid()
      modifies db
      ensures db.Valid()
      ensures db.tasks == old(db.tasks) && db.organizations == old(db.organizations)
      ensures db.auditLog == old(db.auditLog)
      ensures CheckUpdate(old(db.users), id, user).Err? ==> r == CheckUpdate(old(db.users), id, user)
      ensures r.Ok? <==> CheckUpdate(old(db.users), id, user).Ok?
                         && !EmailHeldByOther(old(db.users), id, ApplyUpdate(old(db.users)[id], dto, hash).email)
      ensures (CheckUpdate(old(db.users), id, user).Ok? && r.Err?) ==> r == Err(UniqueViolation(EMAIL_COLUMN))
      ensures r.Err? ==> db.users == old(db.users)
      ensures r.Ok? ==> && r.value == ApplyUpdate(old(db.users)[id], dto, hash)
                        && db.users == old(db.users)[id := r.value]
    {
      var check := CheckUpdate(db.users, id, user);
      if check.Err? {
        return check;
      }
      var target := ApplyUpdate(check.value, dto, hash);
      if EmailHeldByOther(db.users, id, target.email) {
        return Err(UniqueViolation(EMAIL_COLUMN));
      }
      ghost var before := db.users;
      assert target.id == id by {
        assert UsersKeyed(before);
      }
      db.users := db.users[id := target];
      assert EmailsUnique(db.users) by {
        assert EmailsUnique(before);
      }
      r := Ok(target);
    }

    method Remove(id: Id, user: Principal) returns (r: Result<()>)
      requires db.Valid()
      modifies db
      ensures db.Valid()
      ensures db.tasks == old(db.tasks) && db.organizations == old(db.organizations)
      ensures db.auditLog == old(db.auditLog)
      ensures r.Ok? <==> CheckRemove(old(db.users), id, user).Ok?
      ensures r.Err? ==> r.error == CheckRemove(old(db.users), id, user).error && db.users == old(db.users)
      ensures r.Ok? ==> db.users == old(db.users) - {id}
    {
      var check := CheckRemove(db.users, id, user);
      if check.Err? {
        return Err(check.error);
      }
      assert check.value.id == id by {
        assert UsersKeyed(db.users);
      }
      db.users := db.users - {check.value.id};
      r := Ok(());
    }
  }

  // ----- Properties relating the operations -----

  /** A viewer lists at most one user: itself. */
  lemma ViewerListsAtMostItself(users: map<Id, User>, user: Principal)
    requires UsersKeyed(users)
    requires user.role == Viewer
    ensures FindAll(users, user) <= (if user.id in users then {users[user.id]} else {})
    ensures |FindAll(users, user)| <= 1
  {
    var listed := FindAll(users, user);
    var bound: set<User> := if user.id in users then {users[user.id]} else {};
    forall u | u in listed
      ensures u in bound
    {
      var k :| k in users && users[k] == u;
      assert k == user.id;
    }
    assert listed <= bound;
    assert |bound| <= 1;
    SubsetSize(listed, bound);
  }

  /** For the three enumerated roles, listing and fetching agree. */
  lemma FindAllAgreesWithFindOne(users: map<Id, User>, user: Principal, u: User)
    requires UsersKeyed(users)
    requires !user.role.Other?
    ensures u in FindAll(users, user) <==> u.id in users && FindOne(users, u.id, user) == Ok(u)
  {
  }

  /** The admin same-organization checks of `update` and `remove` can never
      fire: once `findOne` has succeeded the organizations already match. */
  lemma AdminOrganizationChecksUnreachable(users: map<Id, User>, id: Id, user: Principal)
    ensures FindOne(users, id, user).Ok? ==> users[id].organizationId == user.organizationId
    ensures CheckUpdate(users, id, user) != Err(Forbidden(UPDATE_FOREIGN))
    ensures CheckRemove(users, id, user) != Err(Forbidden(DELETE_FOREIGN))
  {
  }

  /** The unique index refuses exactly the writes that would break it:
      storing row `id` keeps the addresses unique iff no other user holds the
      new address. */
  lemma StoringKeepsEmailsUnique(users: map<Id, User>, id: Id, u: User)
    requires EmailsUnique(users)
    ensures EmailsUnique(users[id := u]) <==> !EmailHeldByOther(users, id, u.email)
  {
    if EmailHeldByOther(users, id, u.email) {
      var k :| k in users && k != id && users[k].email == u.email;
      assert users[id := u][k].email == users[id := u][id].email;
    }
  }

  /** An update that does not change the address never breaks the unique
      index: the target's own address is held by nobody else. */
  lemma UpdateKeepingEmailPassesIndex(users: map<Id, User>, id: Id, dto: UpdateUserDto,
                                      hash: string -> string)
    requires UsersKeyed(users) && EmailsUnique(users)
    requires id in users
    requires dto.email.None? || dto.email == Some(users[id].email)
    ensures !EmailHeldByOther(users, id, ApplyUpdate(users[id], dto, hash).email)
  {
  }

  /** A created user never has a password other than the hash of the one supplied. */
  lemma CreatedPasswordIsHashed(id: Id, dto: CreateUserDto, hash: string -> string)
    requires forall p :: hash(p) != p
    ensures NewUser(id, dto, hash).password != dto.password
  {
  }

  /** The guard and the permission table let an admin update any user of its
      organization, itself included, and nothing in `update` restricts the
      role it writes: an admin can make itself an owner. */
  lemma AdminCanPromoteItself(users: map<Id, User>, user: Principal, hash: string -> string)
    requires user.role == Admin
    requires user.id in users && users[user.id].organizationId == user.organizationId
    ensures CheckUpdate(users, user.id, user).Ok?
    ensures ApplyUpdate(users[user.id], UpdateUserDto(None, None, None, None, Some(Owner), None), hash).role == Owner
  {
  }
}
