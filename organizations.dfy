/** The organization service: list and fetch organizations under tenant
    scoping, and create, update or delete them behind the permission table. */
module Organizations {
  import opened Common
  import opened Data
  import opened Rbac
  import opened Store
  import Users

  const ORGANIZATION_NOT_FOUND := "Organization not found"
  const ACCESS_DENIED := "Access denied"
  const CREATE_DENIED := "Insufficient permissions to create organizations"
  const PARENT_NOT_FOUND := "Parent organization not found"
  const FOREIGN_PARENT := "Cannot create organization under this parent"
  const UPDATE_DENIED := "Insufficient permissions to update organizations"
  const DELETE_DENIED := "Insufficient permissions to delete organizations"
  const HAS_USERS := "Cannot delete organization with existing users"

  /** `findAll`: a viewer sees its own organization; every other role sees its
      own organization and the organizations whose parent it is. */
  function FindAll(organizations: map<Id, Organization>, user: Principal): (r: set<Organization>)
    ensures r <= organizations.Values
    ensures user.role == Viewer ==> forall o :: o in r ==> o.id == user.organizationId
    ensures user.role != Viewer ==>
              forall o :: o in r ==> o.id == user.organizationId || o.parentId == Some(user.organizationId)
    ensures forall o :: (o in organizations.Values && o.id == user.organizationId) ==> o in r
    ensures user.role != Viewer ==>
              forall o :: (o in organizations.Values && o.parentId == Some(user.organizationId)) ==> o in r
  {
    if user.role == Viewer then
      set o | o in organizations.Values && o.id == user.organizationId
    else
      set o | o in organizations.Values
              && (o.id == user.organizationId || o.parentId == Some(user.organizationId))
  }

  /** `findOne`: existence first, then tenant access on the organization itself. */
  function FindOne(organizations: map<Id, Organization>, id: Id, user: Principal): (r: Result<Organization>)
    ensures id !in organizations <==> r == Err(NotFound(ORGANIZATION_NOT_FOUND))
    ensures r.Ok? <==> id in organizations && !user.role.Other?
                       && organizations[id].id == user.organizationId
    ensures r.Ok? ==> r.value == organizations[id]
    ensures id in organizations && r.Err? ==> r == Err(Forbidden(ACCESS_DENIED))
  {
    if id !in organizations then
      Err(NotFound(ORGANIZATION_NOT_FOUND))
    else
      var organization := organizations[id];
      if !CanAccessResource(user.role, user.organizationId, organization.id) then
        Err(Forbidden(ACCESS_DENIED))
      else
        Ok(organization)
  }

  /** Is the given parent id truthy (present and not the empty string)? */
  function ParentGiven(parentId: Option<Id>): (r: bool)
    ensures r <==> parentId != None && parentId != Some("")
  {
    parentId.Some? && parentId.value != ""
  }

  /** The checks `create` runs, in order: the permission, then, only when a
      parent is given, that it exists and is accessible to the caller. */
  function CheckCreate(organizations: map<Id, Organization>, dto: CreateOrganizationDto,
                       user: Principal): (r: Result<()>)
    ensures !HasPermission(user.role, OrganizationKind, Create) ==> r == Err(Forbidden(CREATE_DENIED))
    ensures (HasPermission(user.role, OrganizationKind, Create) && ParentGiven(dto.parentId)
             && dto.parentId.value !in organizations) ==> r == Err(NotFound(PARENT_NOT_FOUND))
    ensures r.Ok? <==> user.role == Owner
                       && (ParentGiven(dto.parentId) ==>
                             dto.parentId.value in organizations
                             && organizations[dto.parentId.value].id == user.organizationId)
    ensures (r.Err? && user.role == Owner && ParentGiven(dto.parentId)
             && dto.parentId.value in organizations) ==> r == Err(Forbidden(FOREIGN_PARENT))
  {
    OnlyOwnerManagesOrganizationsAndUsers(user.role, OrganizationKind, Create);
    if !HasPermission(user.role, OrganizationKind, Create) then
      Err(Forbidden(CREATE_DENIED))
    else if ParentGiven(dto.parentId) then
      var parentId := dto.parentId.value;
      if parentId !in organizations then
        Err(NotFound(PARENT_NOT_FOUND))
      else if !CanAccessResource(user.role, user.organizationId, organizations[parentId].id) then
        Err(Forbidden(FOREIGN_PARENT))
      else
        Ok(())
    else
      Ok(())
  }

  /** The row `create` saves: the body as given, under the generated id. */
  function NewOrganization(id: Id, dto: CreateOrganizationDto): (o: Organization)
    ensures o.id == id && o.name == dto.name && o.parentId == dto.parentId
  {
    Organization(id, dto.name, dto.parentId)
  }

  /** The checks `update` runs before writing: `findOne`, then the permission. */
  function CheckUpdate(organizations: map<Id, Organization>, id: Id, user: Principal): (r: Result<Organization>)
    ensures FindOne(organizations, id, user).Err? ==> r == FindOne(organizations, id, user)
    ensures r.Ok? <==> FindOne(organizations, id, user).Ok? && user.role == Owner
    ensures FindOne(organizations, id, user).Ok? && r.Err? ==> r == Err(Forbidden(UPDATE_DENIED))
    ensures r.Ok? ==> r.value == organizations[id]
  {
    OnlyOwnerManagesOrganizationsAndUsers(user.role, OrganizationKind, Update);
    var found := FindOne(organizations, id, user);
    if found.Err? then
      found
    else if !HasPermission(user.role, OrganizationKind, Update) then
      Err(Forbidden(UPDATE_DENIED))
    else
      found
  }

  /** `Object.assign(organization, updateData)`: the supplied fields overwrite,
      the id stays. */
  function ApplyUpdate(organization: Organization, dto: UpdateOrganizationDto): (r: Organization)
    ensures r.id == organization.id
    ensures dto.name.None? ==> r.name == organization.name
    ensures dto.name.Some? ==> r.name == dto.name.value
    ensures dto.parentId.None? ==> r.parentId == organization.parentId
    ensures dto.parentId.Some? ==> r.parentId == dto.parentId
  {
    organization.(name := Overwrite(dto.name, organization.name),
                  parentId := OverwriteOptional(dto.parentId, organization.parentId))
  }

  /** The ids of the users that belong to an organization. */
  function Members(users: map<Id, User>, id: Id): (r: set<Id>)
    ensures forall k :: k in r <==> k in users && users[k].organizationId == id
  {
    set k | k in users && users[k].organizationId == id
  }

  /** The number of users of an organization, which the has-users rule asks for. */
  function UserCount(users: map<Id, User>, id: Id): (n: nat)
    ensures n == 0 <==> forall k :: k in users ==> users[k].organizationId != id
    ensures n <= |users|
  {
    var members := Members(users, id);
    SubsetSize(members, users.Keys);
    |members|
  }

  /** The count `remove` computes as written: `getCount()` on a query over the
      organization left-joined with its users counts distinct organization
      rows, and the left join keeps the organization row even without users. */
  function JoinedCountAsWritten(organizations: map<Id, Organization>, id: Id): (n: nat)
    ensures n <= 1
    ensures n == 1 <==> id in organizations
  {
    if id in organizations then 1 else 0
  }

  /** The checks `remove` runs before deleting, as written: `findOne`, the
      permission, then the joined count. */
  function CheckRemoveAsWritten(organizations: map<Id, Organization>, id: Id,
                                user: Principal): (r: Result<Organization>)
    ensures FindOne(organizations, id, user).Err? ==> r == FindOne(organizations, id, user)
    ensures FindOne(organizations, id, user).Ok? && !HasPermission(user.role, OrganizationKind, Delete) ==>
              r == Err(Forbidden(DELETE_DENIED))
    ensures FindOne(organizations, id, user).Ok? && HasPermission(user.role, OrganizationKind, Delete) ==>
              r == Err(Forbidden(HAS_USERS))
  {
    var found := FindOne(organizations, id, user);
    if found.Err? then
      found
    else if !HasPermission(user.role, OrganizationKind, Delete) then
      Err(Forbidden(DELETE_DENIED))
    else if JoinedCountAsWritten(organizations, id) > 0 then
      Err(Forbidden(HAS_USERS))
    else
      found
  }

  /** The checks `remove` runs before deleting, with the count of the
      organization's users the has-users rule intends. */
  function CheckRemove(organizations: map<Id, Organization>, users: map<Id, User>, id: Id,
                       user: Principal): (r: Result<Organization>)
    ensures FindOne(organizations, id, user).Err? ==> r == FindOne(organizations, id, user)
    ensures FindOne(organizations, id, user).Ok? && user.role != Owner ==> r == Err(Forbidden(DELETE_DENIED))
    ensures r.Ok? <==> FindOne(organizations, id, user).Ok? && user.role == Owner
                       && forall k :: k in users ==> users[k].organizationId != id
    ensures (FindOne(organizations, id, user).Ok? && user.role == Owner && r.Err?) ==>
              r == Err(Forbidden(HAS_USERS))
    ensures r.Ok? ==> r.value == organizations[id]
  {
    OnlyOwnerManagesOrganizationsAndUsers(user.role, OrganizationKind, Delete);
    var found := FindOne(organizations, id, user);
    if found.Err? then
      found
    else if !HasPermission(user.role, OrganizationKind, Delete) then
      Err(Forbidden(DELETE_DENIED))
    else
      HasUsersExactly(users, id);
      if UserCount(users, id) > 0 then
        Err(Forbidden(HAS_USERS))
      else
        found
  }

  class OrganizationsService {
    const db: Database

    constructor (db: Database)
      ensures this.db == db
    {
      this.db := db;
    }

    /** `newId` is the uuid the database generates for the new row. */
    method Create(dto: CreateOrganizationDto, user: Principal, newId: Id) returns (r: Result<Organization>)
      requires db.Valid() && newId !in db.organizations
      modifies db
      ensures db.Valid()
      ensures db.tasks == old(db.tasks) && db.users == old(db.users) && db.auditLog == old(db.auditLog)
      ensures r.Ok? <==> CheckCreate(old(db.organizations), dto, user).Ok?
      ensures r.Err? ==> r.error == CheckCreate(old(db.organizations), dto, user).error
                         && db.organizations == old(db.organizations)
      ensures r.Ok? ==> r.value == NewOrganization(newId, dto)
                        && db.organizations == old(db.organizations)[newId := r.value]
    {
      var check := CheckCreate(db.organizations, dto, user);
      if check.Err? {
        return Err(check.error);
      }
      var created := NewOrganization(newId, dto);
      ghost var before := db.organizations;
      db.organizations := db.organizations[created.id := created];
      assert OrganizationsKeyed(db.organizations) by {
        assert OrganizationsKeyed(before);
      }
      r := Ok(created);
    }

    method Update(id: Id, dto: UpdateOrganizationDto, user: Principal) returns (r: Result<Organization>)
      requires db.Valid()
      modifies db
      ensures db.Valid()
      ensures db.tasks == old(db.tasks) && db.users == old(db.users) && db.auditLog == old(db.auditLog)
      ensures r.Ok? <==> CheckUpdate(old(db.organizations), id, user).Ok?
      ensures r.Err? ==> r == CheckUpdate(old(db.organizations), id, user)
                         && db.organizations == old(db.organizations)
      ensures r.Ok? ==> r.value == ApplyUpdate(old(db.organizations)[id], dto)
                        && db.organizations == old(db.organizations)[id := r.value]
    {
      var check := CheckUpdate(db.organizations, id, user);
      if check.Err? {
        return check;
      }
      var organization := ApplyUpdate(check.value, dto);
      db.organizations := db.organizations[organization.id := organization];
      r := Ok(organization);
    }

    method Remove(id: Id, user: Principal) returns (r: Result<()>)
      requires db.Valid()
      modifies db
      ensures db.Valid()
      ensures db.tasks == old(db.tasks) && db.users == old(db.users) && db.auditLog == old(db.auditLog)
      ensures r.Ok? <==> CheckRemove(old(db.organizations), db.users, id, user).Ok?
      ensures r.Err? ==> r.error == CheckRemove(old(db.organizations), db.users, id, user).error
                         && db.organizations == old(db.organizations)
      ensures r.Ok? ==> db.organizations == old(db.organizations) - {id}
    {
      var check := CheckRemove(db.organizations, db.users, id, user);
      if check.Err? {
        return Err(check.error);
      }
      assert check.value.id == id by {
        assert OrganizationsKeyed(db.organizations);
      }
      db.organizations := db.organizations - {check.value.id};
      r := Ok(());
    }
  }

  // ----- Properties relating the operations -----

  /** The has-users rule asks exactly whether some user belongs to the organization. */
  lemma HasUsersExactly(users: map<Id, User>, id: Id)
    ensures UserCount(users, id) > 0 <==> exists k :: k in users && users[k].organizationId == id
  {
  }

  /** An organization `findOne` returns is in the caller's list. */
  lemma FetchableIsListed(organizations: map<Id, Organization>, id: Id, user: Principal)
    requires OrganizationsKeyed(organizations)
    requires FindOne(organizations, id, user).Ok?
    ensures organizations[id] in FindAll(organizations, user)
  {
  }

  /** An owner or admin lists the child organizations of its own but cannot
      fetch them. */
  lemma ChildListedButNotFetched(organizations: map<Id, Organization>, child: Id, user: Principal)
    requires OrganizationsKeyed(organizations)
    requires user.role in {Owner, Admin}
    requires child in organizations && child != user.organizationId
    requires organizations[child].parentId == Some(user.organizationId)
    ensures organizations[child] in FindAll(organizations, user)
    ensures FindOne(organizations, child, user) == Err(Forbidden(ACCESS_DENIED))
  {
  }

  /** A viewer lists at most one organization: its own. */
  lemma ViewerListsAtMostOne(organizations: map<Id, Organization>, user: Principal)
    requires OrganizationsKeyed(organizations)
    requires user.role == Viewer
    ensures |FindAll(organizations, user)| <= 1
  {
    var listed := FindAll(organizations, user);
    var bound: set<Organization> :=
      if user.organizationId in organizations then {organizations[user.organizationId]} else {};
    forall o | o in listed
      ensures o in bound
    {
      var k :| k in organizations && organizations[k] == o;
      assert k == user.organizationId;
    }
    SubsetSize(listed, bound);
  }

  /** Only an owner ever gets past the checks of create, update or delete. */
  lemma OnlyOwnerChangesOrganizations(organizations: map<Id, Organization>, users: map<Id, User>,
                                      dto: CreateOrganizationDto, id: Id, user: Principal)
    ensures CheckCreate(organizations, dto, user).Ok? ==> user.role == Owner
    ensures CheckUpdate(organizations, id, user).Ok? ==> user.role == Owner
    ensures CheckRemove(organizations, users, id, user).Ok? ==> user.role == Owner
  {
  }

  /** Without a parent, an owner may always create an organization. */
  lemma OwnerCreatesTopLevel(organizations: map<Id, Organization>, dto: CreateOrganizationDto, user: Principal)
    requires user.role == Owner && !ParentGiven(dto.parentId)
    ensures CheckCreate(organizations, dto, user).Ok?
  {
  }

  /** An owner can only remove its own organization, so while the caller's own
      user row still names that organization, removal is refused. */
  lemma CallerBlocksOwnOrganizationRemoval(organizations: map<Id, Organization>, users: map<Id, User>,
                                           id: Id, user: Principal)
    requires OrganizationsKeyed(organizations)
    requires user.id in users && users[user.id].organizationId == user.organizationId
    ensures CheckRemove(organizations, users, id, user).Err?
  {
  }

  /** When the caller's own user row names the organization its token names,
      the rule as written and the intended rule give the same answer, error
      included: the difference needs a caller that is not a member of its
      own organization. */
  lemma RulesAgreeForMemberCaller(organizations: map<Id, Organization>, users: map<Id, User>,
                                  id: Id, user: Principal)
    requires OrganizationsKeyed(organizations)
    requires user.id in users && users[user.id].organizationId == user.organizationId
    ensures CheckRemove(organizations, users, id, user) == CheckRemoveAsWritten(organizations, id, user)
  {
    if FindOne(organizations, id, user).Ok? && user.role == Owner {
      assert users[user.id].organizationId == id;
      HasUsersExactly(users, id);
    }
  }

  /** As written, `remove` refuses every call: once `findOne` has found the
      organization the joined count is 1. */
  lemma RemoveAsWrittenAlwaysRefuses(organizations: map<Id, Organization>, id: Id, user: Principal)
    ensures CheckRemoveAsWritten(organizations, id, user).Err?
    ensures FindOne(organizations, id, user).Ok? && user.role == Owner ==>
              CheckRemoveAsWritten(organizations, id, user) == Err(Forbidden(HAS_USERS))
  {
  }

  /** The input that shows the difference. Organization `o` has two owners,
      `a` and `b`. Owner `a` deletes `b`; the token of `b` stays valid and
      still names `o`, so `b` deletes `a`. Then `o` has no users: remove
      as written refuses it, and the intended rule deletes it. */
  lemma RemoveAsWrittenRefusesEmptyOrganization()
    ensures var organizations := map["o" := Organization("o", "Acme", None)];
            var a := User("a", "a@acme.test", "h", "A", "A", Owner, "o");
            var b := User("b", "b@acme.test", "h", "B", "B", Owner, "o");
            var users := map["a" := a, "b" := b];
            var callerA := Principal("a", Owner, "o");
            var callerB := Principal("b", Owner, "o");
            && Users.CheckRemove(users, "b", callerA).Ok?
            && Users.CheckRemove(users - {"b"}, "a", callerB).Ok?
            && (users - {"b"}) - {"a"} == map[]
            && CheckRemoveAsWritten(organizations, "o", callerB) == Err(Forbidden(HAS_USERS))
            && CheckRemove(organizations, (users - {"b"}) - {"a"}, "o", callerB).Ok?
  {
  }
}
