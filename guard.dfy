/** The request guard that runs before every controller handler, and the
    (resource, action) metadata each route declares. */
module Guard {
  import opened Common
  import opened Data
  import opened Rbac

  /** What a handler declares with its RBAC decorator. */
  datatype RbacMetadata = RbacMetadata(resource: Resource, action: Action)

  const NOT_AUTHENTICATED := "User not authenticated"
  const INSUFFICIENT_PERMISSIONS := "Insufficient permissions"

  /** `canActivate`: let the request through (`Ok(true)`) or throw. */
  function CanActivate(metadata: Option<RbacMetadata>, user: Option<Principal>): (r: Result<bool>)
    ensures r.Ok? ==> r.value
    ensures metadata.None? ==> r == Ok(true)
    ensures metadata.Some? && user.None? ==> r == Err(Forbidden(NOT_AUTHENTICATED))
    ensures metadata.Some? && user.Some? ==>
              r == if HasPermission(user.value.role, metadata.value.resource, metadata.value.action)
                   then Ok(true) else Err(Forbidden(INSUFFICIENT_PERMISSIONS))
  {
    if metadata.None? then
      Ok(true)
    else if user.None? then
      Err(Forbidden(NOT_AUTHENTICATED))
    else if !HasPermission(user.value.role, metadata.value.resource, metadata.value.action) then
      Err(Forbidden(INSUFFICIENT_PERMISSIONS))
    else
      Ok(true)
  }

  /** The guarded routes of the task, user, organization and audit controllers. */
  datatype Route =
    | CreateTask | ListTasks | GetTask | UpdateTask | UpdateTaskStatus | DeleteTask
    | CreateUser | ListUsers | GetUser | UpdateUser | DeleteUser
    | CreateOrganization | ListOrganizations | GetOrganization | UpdateOrganization | DeleteOrganization
    | ListAuditLogs

  /** The `@RBAC(resource, action)` each handler of the four controllers carries. */
  function RouteMetadata(route: Route): (m: RbacMetadata)
    ensures m.resource == TaskKind <==>
              route in {CreateTask, ListTasks, GetTask, UpdateTask, UpdateTaskStatus, DeleteTask}
    ensures m.resource == UserKind <==> route in {CreateUser, ListUsers, GetUser, UpdateUser, DeleteUser}
    ensures m.resource == AuditKind <==> route == ListAuditLogs
    ensures m.action == Read <==>
              route in {ListTasks, GetTask, ListUsers, GetUser, ListOrganizations, GetOrganization, ListAuditLogs}
    ensures m.action == Create <==> route in {CreateTask, CreateUser, CreateOrganization}
    ensures m.action == Update <==> route in {UpdateTask, UpdateTaskStatus, UpdateUser, UpdateOrganization}
    ensures m.action == Delete <==> route in {DeleteTask, DeleteUser, DeleteOrganization}
    ensures route == UpdateTaskStatus ==> m == RbacMetadata(TaskKind, Update)
  {
    match route
    case CreateTask => RbacMetadata(TaskKind, Create)
    case ListTasks => RbacMetadata(TaskKind, Read)
    case GetTask => RbacMetadata(TaskKind, Read)
    case UpdateTask => RbacMetadata(TaskKind, Update)
    case UpdateTaskStatus => RbacMetadata(TaskKind, Update)
    case DeleteTask => RbacMetadata(TaskKind, Delete)
    case CreateUser => RbacMetadata(UserKind, Create)
    case ListUsers => RbacMetadata(UserKind, Read)
    case GetUser => RbacMetadata(UserKind, Read)
    case UpdateUser => RbacMetadata(UserKind, Update)
    case DeleteUser => RbacMetadata(UserKind, Delete)
    case CreateOrganization => RbacMetadata(OrganizationKind, Create)
    case ListOrganizations => RbacMetadata(OrganizationKind, Read)
    case GetOrganization => RbacMetadata(OrganizationKind, Read)
    case UpdateOrganization => RbacMetadata(OrganizationKind, Update)
    case DeleteOrganization => RbacMetadata(OrganizationKind, Delete)
    case ListAuditLogs => RbacMetadata(AuditKind, Read)
  }

  /** Whether an authenticated user gets past the guard on a route. */
  predicate Passes(route: Route, user: Principal)
  {
    CanActivate(Some(RouteMetadata(route)), Some(user)) == Ok(true)
  }

  /** Owner passes the guard on every route. */
  lemma OwnerPassesEveryRoute(route: Route, user: Principal)
    requires user.role == Owner
    ensures Passes(route, user)
  {
  }

  /** Admin is stopped exactly at user creation and deletion and at every
      organization write. */
  lemma AdminGuardRefusals(route: Route, user: Principal)
    requires user.role == Admin
    ensures !Passes(route, user) <==>
            route in {CreateUser, DeleteUser, CreateOrganization, UpdateOrganization, DeleteOrganization}
  {
  }

  /** Viewer passes exactly the read routes other than the audit log. */
  lemma ViewerPassesOnlyReads(route: Route, user: Principal)
    requires user.role == Viewer
    ensures Passes(route, user) <==> RouteMetadata(route).action == Read && route != ListAuditLogs
  {
  }

  /** A role outside the enumeration never gets past the guard. */
  lemma OtherRoleNeverPasses(route: Route, user: Principal)
    requires user.role.Other?
    ensures CanActivate(Some(RouteMetadata(route)), Some(user)) == Err(Forbidden(INSUFFICIENT_PERMISSIONS))
  {
  }
}
