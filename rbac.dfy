/** The server's role-based access policy: a fixed role -> permission table
    and the three predicates every service consults. */
module Rbac {
  import opened Common
  import opened Data

  /** The resource kinds the table speaks of ('task', 'user', 'organization', 'audit'). */
  datatype Resource = TaskKind | UserKind | OrganizationKind | AuditKind

  /** The actions ('create', 'read', 'update', 'delete'). */
  datatype Action = Create | Read | Update | Delete

  /** The string by which the source names a resource kind. */
  function ResourceName(resource: Resource): (name: string)
    ensures name != ""
  {
    match resource
    case TaskKind => "task"
    case UserKind => "user"
    case OrganizationKind => "organization"
    case AuditKind => "audit"
  }

  /** The string by which the source names an action. */
  function ActionName(action: Action): (name: string)
    ensures name != ""
  {
    match action
    case Create => "create"
    case Read => "read"
    case Update => "update"
    case Delete => "delete"
  }

  /** Distinct kinds and actions have distinct names, so a name stands for
      one enumeration value. */
  lemma NamesAreDistinct(a: Resource, b: Resource, x: Action, y: Action)
    ensures ResourceName(a) == ResourceName(b) ==> a == b
    ensures ActionName(x) == ActionName(y) ==> x == y
  {
  }

  /** A (resource, action) pair as the table lists it. */
  datatype Permission = Permission(resource: Resource, action: Action)

  /** The grant list of a role; a role outside the table has the empty list. */
  function RolePermissions(role: Role): (permissions: seq<Permission>)
    ensures forall i, j :: 0 <= i < j < |permissions| ==> permissions[i] != permissions[j]
    ensures forall p :: p in permissions ==> p.resource != AuditKind || p.action == Read
    ensures role.Other? <==> permissions == []
  {
    match role
    case Owner => [
      Permission(TaskKind, Create), Permission(TaskKind, Read), Permission(TaskKind, Update), Permission(TaskKind, Delete),
      Permission(UserKind, Create), Permission(UserKind, Read), Permission(UserKind, Update), Permission(UserKind, Delete),
      Permission(OrganizationKind, Create), Permission(OrganizationKind, Read),
      Permission(OrganizationKind, Update), Permission(OrganizationKind, Delete),
      Permission(AuditKind, Read)]
    case Admin => [
      Permission(TaskKind, Create), Permission(TaskKind, Read), Permission(TaskKind, Update), Permission(TaskKind, Delete),
      Permission(UserKind, Read), Permission(UserKind, Update),
      Permission(OrganizationKind, Read),
      Permission(AuditKind, Read)]
    case Viewer => [
      Permission(TaskKind, Read), Permission(UserKind, Read), Permission(OrganizationKind, Read)]
    case Other(_) => []
  }

  /** Does the role hold a blanket grant for this action on this resource kind?
      (`permissions.some(p => p.resource === resource && p.action === action)`
      asks whether the pair occurs in the role's list.) */
  function HasPermission(role: Role, resource: Resource, action: Action): (r: bool)
    ensures role.Other? ==> !r
    ensures r ==> action == Read || role != Viewer
  {
    Permission(resource, action) in RolePermissions(role)
  }

  /** The tenant-isolation check: may the user see a resource of that organization? */
  function CanAccessResource(userRole: Role, userOrgId: Id, resourceOrgId: Id): (r: bool)
    ensures r <==> !userRole.Other? && userOrgId == resourceOrgId
  {
    if userRole == Owner || userRole == Admin then
      userOrgId == resourceOrgId
    else if userRole == Viewer then
      userOrgId == resourceOrgId
    else
      false
  }

  /** The ownership check layered on top of access: may the user change or
      delete that resource? */
  function CanModifyResource(userRole: Role, userOrgId: Id, resourceOrgId: Id,
                             resourceOwnerId: Id, userId: Id): (r: bool)
    ensures r ==> CanAccessResource(userRole, userOrgId, resourceOrgId)
    ensures r <==> userOrgId == resourceOrgId
                   && (userRole == Owner || (userRole == Admin && resourceOwnerId == userId))
  {
    if !CanAccessResource(userRole, userOrgId, resourceOrgId) then
      false
    else if userRole == Owner then
      true
    else if userRole == Admin then
      resourceOwnerId == userId
    else
      false
  }

  // ----- The table, role by role -----

  /** Owner: every action on tasks, users and organizations; audit is read-only. */
  lemma OwnerGrants(resource: Resource, action: Action)
    ensures HasPermission(Owner, resource, action) <==> resource != AuditKind || action == Read
  {
  }

  /** Admin: every action on tasks, read and update on users, read on
      organizations and audit; no user create/delete, no organization writes. */
  lemma AdminGrants(resource: Resource, action: Action)
    ensures HasPermission(Admin, resource, action) <==>
            resource == TaskKind
            || (resource == UserKind && action in {Read, Update})
            || (resource in {OrganizationKind, AuditKind} && action == Read)
  {
  }

  /** Viewer: read on tasks, users and organizations, and nothing else. */
  lemma ViewerGrants(resource: Resource, action: Action)
    ensures HasPermission(Viewer, resource, action) <==> action == Read && resource != AuditKind
  {
  }

  /** No role but Owner may write organizations or create and delete users. */
  lemma OnlyOwnerManagesOrganizationsAndUsers(role: Role, resource: Resource, action: Action)
    requires (resource == OrganizationKind && action != Read) || (resource == UserKind && action in {Create, Delete})
    ensures HasPermission(role, resource, action) <==> role == Owner
  {
  }

  /** Every grant of a lesser role is also a grant of the greater one. */
  lemma GrantsAreNested(resource: Resource, action: Action)
    ensures HasPermission(Viewer, resource, action) ==> HasPermission(Admin, resource, action)
    ensures HasPermission(Admin, resource, action) ==> HasPermission(Owner, resource, action)
  {
  }
}
