# Access control of a multi-tenant task manager, in Dafny

This project models the authorization core of a task manager with a NestJS
API and an Angular dashboard. Users belong to an organization and hold one of
three roles: owner, admin or viewer. The model covers these parts:

- **The server's permission table** (`Rbac`): which role may perform which action
  (create, read, update, delete) on which kind of resource (task, user,
  organization, audit). It also holds the tenant rules `canAccessResource` and
  `canModifyResource` that every service consults.
- **The route guard** (`Guard`): it decides, from the `(resource, action)`
  a route declares, whether an authenticated user gets through.
- **Three services** (`Tasks`, `Users`, `Organizations`). They list, fetch, create,
  update and delete rows of a shared database (`Store.Database`), running
  their checks in the source's order and throwing the source's messages.
  Writing to the task table also appends to the audit log. The database keeps
  the unique index on user email addresses. Organization removal uses the
  intended user count rather than the count as written (see "## Findings").
- **Bearer-token extraction** (`Jwt`): the header prefix strip.
- **The dashboard's session service** (`ClientAuth`): its local-storage token
  and user, the login/register/logout transitions, and its own permission
  table, which differs from the server's.

Modelling choices:

- Decision chains (`findOne`, the check sequences, `Object.assign`) are pure
  functions over table snapshots.
- The service methods change the database tables. Their contracts tie the new
  state to those functions.
- A service call either returns a value or throws `NotFound`/`Forbidden`,
  modelled as `Common.Result`. A write the unique email index refuses is
  `UniqueViolation`.
- The caller is a `Data.Principal`: id, role and organization, as the token
  carries them. A role value outside the enumeration is `Other(name)`, where
  `name` is none of the three role names and no `Object.prototype` member.
- Generated uuids arrive as a `newId` parameter, required fresh.
- Password hashing is a parameter `hash: string -> string`.

## Model

| member | source | states |
|---|---|---|
| Rbac.HasPermission | libs/auth/src/lib/rbac.service.ts:42-47 | a role outside the table is granted nothing (its list is empty), and a viewer is granted only reads; the per-role closed forms are the three lemmas below |
| Rbac.RolePermissions | libs/auth/src/lib/rbac.service.ts:9-40 | no role lists a pair twice, no role may do more than read the audit log, and a role outside the table has the empty list |
| Rbac.ResourceName | libs/auth/src/lib/rbac.service.ts:9-40 | the table's string for each resource kind, never empty |
| Rbac.ActionName | libs/auth/src/lib/rbac.service.ts:9-40 | the table's string for each action, never empty |
| Rbac.NamesAreDistinct | libs/auth/src/lib/rbac.service.ts:9-40 | distinct kinds and distinct actions have distinct strings, so the enumerations lose nothing the strings distinguish |
| Rbac.OwnerGrants | libs/auth/src/lib/rbac.service.ts:10-24 | owner holds every action on task, user and organization, and only read on audit |
| Rbac.AdminGrants | libs/auth/src/lib/rbac.service.ts:25-34 | admin holds all of task, read/update of user, read of organization and audit, and nothing else |
| Rbac.ViewerGrants | libs/auth/src/lib/rbac.service.ts:35-39 | viewer holds exactly read on task, user and organization |
| Rbac.OnlyOwnerManagesOrganizationsAndUsers | libs/auth/src/lib/rbac.service.ts:9-40 | organization writes and user create/delete are granted to owner and to no other role |
| Rbac.GrantsAreNested | libs/auth/src/lib/rbac.service.ts:9-40 | every viewer grant is an admin grant and every admin grant an owner grant |
| Rbac.CanAccessResource | libs/auth/src/lib/rbac.service.ts:49-61 | true iff the role is owner, admin or viewer and the two organization ids are equal |
| Rbac.CanModifyResource | libs/auth/src/lib/rbac.service.ts:63-81 | implies CanAccessResource; within the organization owner always may, admin iff it owns the resource, viewer never |
| Jwt.ExtractTokenFromHeader | libs/auth/src/lib/jwt.service.ts:33-38 | empty header or one without the `Bearer ` prefix gives None; otherwise the header minus its 7-character prefix, and prefix plus result is the header |
| Jwt.ExtractAfterPrefix | libs/auth/src/lib/jwt.service.ts:33-38 | extracting from `Bearer ` + t gives t |
| Jwt.PrefixAfterExtract | libs/auth/src/lib/jwt.service.ts:33-38 | extraction yields t exactly for the header `Bearer ` + t |
| Guard.CanActivate | apps/api/src/app/auth/rbac.guard.ts:15-40 | no metadata allows; metadata without a user throws `User not authenticated`; otherwise allows iff the role has the permission, else throws `Insufficient permissions`; never returns false |
| Guard.RouteMetadata | apps/api/src/app/tasks/tasks.controller.ts:25-67 | the `@RBAC` pair of every handler of the task, user, organization and audit controllers: which routes name each resource kind, exactly the three create routes create, exactly the four update routes (the status route among them) update, exactly the list/get routes read, and exactly the three delete routes delete |
| Guard.OwnerPassesEveryRoute | apps/api/src/app/tasks/tasks.controller.ts:25-67 | an owner passes the guard on every guarded route |
| Guard.AdminGuardRefusals | apps/api/src/app/users/users.controller.ts:24-57 | an admin is refused exactly on user create/delete and organization create/update/delete |
| Guard.ViewerPassesOnlyReads | apps/api/src/app/organizations/organizations.controller.ts:24-57 | a viewer passes exactly the read routes other than the audit list |
| Guard.OtherRoleNeverPasses | apps/api/src/app/auth/rbac.guard.ts:29-37 | a role outside the table is refused with `Insufficient permissions` on every route |
| Tasks.NewTask | apps/api/src/app/tasks/tasks.service.ts:21-25 | the saved task carries the body's fields, the caller as creator and the caller's organization, whatever the body says |
| Tasks.AssignedOrCreated | apps/api/src/app/tasks/tasks.service.ts:49-51 | the viewer rule: the creator always qualifies, the assignee always qualifies, and an unassigned task (or one assigned to someone else) qualifies only through its creator |
| Tasks.StatusOnly | apps/api/src/app/tasks/tasks.service.ts:120-122 | the body `updateStatus` forwards holds the status and no other field |
| Tasks.CreatedEntry | apps/api/src/app/tasks/tasks.service.ts:29-35 | the acting user, `CREATE`, `task`, the saved id, and details `Created task: ` followed by the title |
| Tasks.UpdatedEntry | apps/api/src/app/tasks/tasks.service.ts:90-96 | the acting user, `UPDATE`, `task`, the saved id, and details `Updated task: ` followed by the title |
| Tasks.DeletedEntry | apps/api/src/app/tasks/tasks.service.ts:111-117 | the acting user, `DELETE`, `task`, the requested id, and details `Deleted task: ` followed by the title |
| Tasks.FindAll | apps/api/src/app/tasks/tasks.service.ts:40-54 | exactly the tasks of the caller's organization, and for a viewer only those assigned to or created by it |
| Tasks.FindOne | apps/api/src/app/tasks/tasks.service.ts:56-77 | missing id gives NotFound `Task not found`; else Ok iff same organization, enumerated role, and for a viewer assigned or created; else Forbidden `Access denied` |
| Tasks.CheckModify | apps/api/src/app/tasks/tasks.service.ts:79-85 | Ok iff findOne succeeds and canModifyResource holds against the creator; findOne's error, else Forbidden with the given message |
| Tasks.ApplyUpdate | apps/api/src/app/tasks/tasks.service.ts:87 | for a body holding only the update fields: each present field overwrites, each absent field is kept, and id, creator and organization are kept |
| Tasks.TasksService.Create | apps/api/src/app/tasks/tasks.service.ts:20-38 | stores NewTask under the new id and appends one `CREATE` audit entry; other tables unchanged |
| Tasks.TasksService.Update | apps/api/src/app/tasks/tasks.service.ts:79-99 | on a failed check, the error and nothing changed; on success, the updated task stored and one `UPDATE` entry appended |
| Tasks.TasksService.Remove | apps/api/src/app/tasks/tasks.service.ts:101-118 | on a failed check, nothing changed; on success, exactly that task removed and one `DELETE` entry with the requested id appended |
| Tasks.TasksService.UpdateStatus | apps/api/src/app/tasks/tasks.service.ts:120-122 | the same outcome as update with a body holding only the status |
| Tasks.FindAllAgreesWithFindOne | apps/api/src/app/tasks/tasks.service.ts:40-77 | for the enumerated roles a task is listed iff fetching it by id succeeds |
| Tasks.OtherRoleListsButCannotFetch | apps/api/src/app/tasks/tasks.service.ts:46-69 | a role outside the table lists the tasks of its organization but cannot fetch any of them |
| Tasks.AdminAssigneeMayNotModify | apps/api/src/app/tasks/tasks.service.ts:83-85 | ownership is the creator: an admin that is only the assignee can fetch but not modify |
| Tasks.ViewerNeverModifies | apps/api/src/app/tasks/tasks.service.ts:83-85 | a viewer's update and remove are always refused |
| Tasks.CreatorSeesNewTask | apps/api/src/app/tasks/tasks.service.ts:20-85 | the creator of a task fetches it back, and may modify it iff owner or admin |
| Tasks.EmptyUpdateIsIdentity | apps/api/src/app/tasks/tasks.service.ts:87 | an update body without fields changes nothing |
| Tasks.ApplyUpdateIdempotent | apps/api/src/app/tasks/tasks.service.ts:87 | applying an update body twice equals applying it once |
| Users.FindAll | apps/api/src/app/users/users.service.ts:19-32 | exactly the users of the caller's organization, and for a viewer only itself |
| Users.FindOne | apps/api/src/app/users/users.service.ts:34-55 | missing id gives NotFound `User not found`; else Ok iff same organization, enumerated role, and a viewer only for itself; else Forbidden `Access denied` |
| Store.EmailsUnique | apps/api/src/app/entities/user.entity.ts:12-13 | the unique index on the email column: the empty table satisfies it, and in a keyed table two rows with the same address are the same row |
| Users.EmailHeldByOther | apps/api/src/app/entities/user.entity.ts:12-13 | the write the index refuses when a row is saved with an address: it implies the address is taken, differs from EmailTaken only by the row's own address, and never fires for a row's own current address in a unique table |
| Users.StoringKeepsEmailsUnique | apps/api/src/app/entities/user.entity.ts:12-13 | in a unique table, storing a row keeps the addresses unique iff no other user holds its address |
| Users.EmailTaken | apps/api/src/app/users/users.service.ts:76-83 | some user of any organization already has the address |
| Users.CheckCreate | apps/api/src/app/users/users.service.ts:57-83 | permission, organization existence, organization access and unused email, each with its own error; Ok iff owner creating in its own existing organization with a fresh email |
| Users.NewUser | apps/api/src/app/users/users.service.ts:85-90 | the stored row has the body's fields and the hash of the body's password |
| Users.CheckUpdate | apps/api/src/app/users/users.service.ts:95-106 | findOne's error first; Ok iff findOne succeeds and the caller is owner or admin; else `Insufficient permissions to update users` |
| Users.UpdatedPassword | apps/api/src/app/users/users.service.ts:109-111 | absent keeps the old hash, non-empty is hashed, empty is stored as given |
| Users.ApplyUpdate | apps/api/src/app/users/users.service.ts:108-113 | each present field overwrites, the password goes through UpdatedPassword, the id is kept |
| Users.CheckRemove | apps/api/src/app/users/users.service.ts:117-133 | findOne's error first; non-owners get `Insufficient permissions to delete users`; self-deletion refused; Ok iff owner deleting someone else it can fetch |
| Users.UsersService.Create | apps/api/src/app/users/users.service.ts:57-93 | on a failed check the error and nothing changed; else NewUser stored under the new id |
| Users.UsersService.Update | apps/api/src/app/users/users.service.ts:95-115 | on a failed check the error and nothing changed; an address another user holds breaks the unique index and nothing is stored; else the updated row stored, and addresses stay unique |
| Users.UsersService.Remove | apps/api/src/app/users/users.service.ts:117-136 | on a failed check the error and nothing changed; else exactly that user removed |
| Users.ViewerListsAtMostItself | apps/api/src/app/users/users.service.ts:26-29 | a viewer's list is contained in its own row and has at most one element |
| Users.FindAllAgreesWithFindOne | apps/api/src/app/users/users.service.ts:19-55 | for the enumerated roles a user is listed iff fetching it by id succeeds |
| Users.AdminOrganizationChecksUnreachable | apps/api/src/app/users/users.service.ts:104-106 | after findOne succeeds the organizations match, so the admin same-organization errors of update and remove are never produced |
| Users.UpdateKeepingEmailPassesIndex | apps/api/src/app/entities/user.entity.ts:12-13 | an update that leaves the address as it is never breaks the unique index |
| Users.CreatedPasswordIsHashed | apps/api/src/app/users/users.service.ts:85-90 | for a hash that changes its input, the stored password is never the plaintext |
| Users.AdminCanPromoteItself | apps/api/src/app/users/users.service.ts:95-114 | an admin passes update's checks on its own row and the written role may be owner |
| Organizations.FindAll | apps/api/src/app/organizations/organizations.service.ts:16-33 | a viewer gets only its own organization; other roles get exactly their own organization and its children |
| Organizations.FindOne | apps/api/src/app/organizations/organizations.service.ts:35-51 | missing id gives NotFound `Organization not found`; else Ok iff enumerated role and it is the caller's own organization; else Forbidden `Access denied` |
| Organizations.CheckCreate | apps/api/src/app/organizations/organizations.service.ts:53-72 | permission first; only for a truthy parent id, the parent must exist and be the caller's organization; Ok iff owner and that holds |
| Organizations.ParentGiven | apps/api/src/app/organizations/organizations.service.ts:60 | the truthiness test of the parent id: present and not the empty string |
| Organizations.NewOrganization | apps/api/src/app/organizations/organizations.service.ts:74-75 | the saved row is the body under the new id |
| Organizations.CheckUpdate | apps/api/src/app/organizations/organizations.service.ts:78-84 | findOne's error first; Ok iff findOne succeeds and the caller is owner |
| Organizations.ApplyUpdate | apps/api/src/app/organizations/organizations.service.ts:86 | present fields overwrite, absent ones are kept, the id is kept |
| Organizations.Members | apps/api/src/app/entities/organization.entity.ts:24-25 | exactly the ids of the users whose organization is the given one |
| Organizations.UserCount | apps/api/src/app/organizations/organizations.service.ts:98-105 | the intended count: zero exactly when no user belongs to the organization, and at most the number of users |
| Organizations.CheckRemove | apps/api/src/app/organizations/organizations.service.ts:90-107 | findOne's error first; non-owners refused; Ok iff owner and no user belongs to the organization, else `Cannot delete organization with existing users` |
| Organizations.JoinedCountAsWritten | apps/api/src/app/organizations/organizations.service.ts:99-103 | the joined count as written is at most 1, and it is 1 exactly when the organization exists, whatever its users |
| Organizations.CheckRemoveAsWritten | apps/api/src/app/organizations/organizations.service.ts:90-107 | the remove checks with the joined count, in order: findOne's error first; past it, `Insufficient permissions to delete organizations` without the delete permission, and otherwise always `Cannot delete organization with existing users` |
| Organizations.OrganizationsService.Create | apps/api/src/app/organizations/organizations.service.ts:53-76 | on a failed check the error and nothing changed; else the new row stored under the new id |
| Organizations.OrganizationsService.Update | apps/api/src/app/organizations/organizations.service.ts:78-88 | on a failed check the error and nothing changed; else the updated row stored |
| Organizations.OrganizationsService.Remove | apps/api/src/app/organizations/organizations.service.ts:90-110 | with the intended user count: on a failed check the error and nothing changed; else exactly that organization removed |
| Organizations.HasUsersExactly | apps/api/src/app/organizations/organizations.service.ts:105-107 | the user count is positive iff some user belongs to the organization |
| Organizations.FetchableIsListed | apps/api/src/app/organizations/organizations.service.ts:16-51 | an organization findOne returns is in the caller's list |
| Organizations.ChildListedButNotFetched | apps/api/src/app/organizations/organizations.service.ts:28-48 | an owner or admin lists its child organizations but fetching one is `Access denied` |
| Organizations.ViewerListsAtMostOne | apps/api/src/app/organizations/organizations.service.ts:24-25 | a viewer lists at most one organization |
| Organizations.OnlyOwnerChangesOrganizations | apps/api/src/app/organizations/organizations.service.ts:55-96 | only an owner passes the checks of create, update and remove |
| Organizations.OwnerCreatesTopLevel | apps/api/src/app/organizations/organizations.service.ts:53-76 | an owner may always create an organization without a parent |
| Organizations.CallerBlocksOwnOrganizationRemoval | apps/api/src/app/organizations/organizations.service.ts:91-107 | while the caller's own row names its organization, removal is refused |
| Organizations.RulesAgreeForMemberCaller | apps/api/src/app/organizations/organizations.service.ts:90-107 | when the caller's own user row names the organization its token names, the rule as written and the intended rule return the same result, error included |
| Organizations.RemoveAsWrittenAlwaysRefuses | apps/api/src/app/organizations/organizations.service.ts:98-107 | as written, remove refuses every call, and an owner past findOne always gets `Cannot delete organization with existing users` |
| Organizations.RemoveAsWrittenRefusesEmptyOrganization | apps/api/src/app/organizations/organizations.service.ts:98-107 | two owners of one organization delete each other (the second with its still valid token); the emptied organization is refused as written and allowed with the user count |
| ClientAuth.ClientAllows | apps/dashboard/src/app/services/auth.service.ts:74-84 | owner anything; admin iff task or user with one of the four actions; viewer iff read on task, user or organization; any other role nothing |
| ClientAuth.AuthService.constructor | apps/dashboard/src/app/services/auth.service.ts:16-23 | storage as given; the current user is restored only with a non-empty token and a stored user |
| ClientAuth.AuthService.SaveSession | apps/dashboard/src/app/services/auth.service.ts:28-32 | token and user stored, and the user becomes current |
| ClientAuth.AuthService.Login | apps/dashboard/src/app/services/auth.service.ts:25-34 | the response's token and user are stored and current; authenticated when the token is non-empty; holds exactly the user's role |
| ClientAuth.AuthService.Register | apps/dashboard/src/app/services/auth.service.ts:36-45 | same as login for the register response |
| ClientAuth.AuthService.Logout | apps/dashboard/src/app/services/auth.service.ts:47-51 | token, stored user and current user cleared; not authenticated, no role, no access anywhere |
| ClientAuth.AuthService.GetToken | apps/dashboard/src/app/services/auth.service.ts:53-55 | the stored `access_token` entry |
| ClientAuth.AuthService.GetCurrentUser | apps/dashboard/src/app/services/auth.service.ts:57-59 | the value of the current-user subject |
| ClientAuth.AuthService.IsAuthenticated | apps/dashboard/src/app/services/auth.service.ts:61-63 | true iff a token is stored and it is not empty |
| ClientAuth.AuthService.HasRole | apps/dashboard/src/app/services/auth.service.ts:65-68 | false without a current user; otherwise true iff the user's role is the given one |
| ClientAuth.AuthService.CanAccess | apps/dashboard/src/app/services/auth.service.ts:70-85 | false without a current user; otherwise the client table for the user's role |
| ClientAuth.AdminUserManagementDiverges | apps/dashboard/src/app/services/auth.service.ts:78-79 | the client lets an admin create and delete users, the server does not |
| ClientAuth.AdminReadsDiverge | apps/dashboard/src/app/services/auth.service.ts:78-79 | the server lets an admin read organizations and the audit log, the client does not |
| ClientAuth.ViewerTablesAgree | apps/dashboard/src/app/services/auth.service.ts:80-81 | for a viewer the client and server tables agree on every resource and action |
| ClientAuth.AdminClientTable | apps/dashboard/src/app/services/auth.service.ts:78-79 | for an admin the client allows exactly the task and user kinds |
| ClientAuth.OwnerClientTableIsWider | apps/dashboard/src/app/services/auth.service.ts:76-77 | every owner server grant is a client grant, and the client also allows audit delete, which the server refuses |
| ClientAuth.ServerGrantsShownByClient | apps/dashboard/src/app/services/auth.service.ts:74-84 | for owner and viewer every server grant is also a client grant |

## Left out

- Password hashing (bcrypt, salted, cost 10) is the parameter `hash`. Password comparison and the API login/register flow are not part of this model.
- JWT signing and verification are not modelled; only the header prefix strip is. The caller is the principal the token names. The passport strategy that turns a token into `req.user` is not part of this model; whether it reloads the user row is not known.
- TypeORM is replaced by in-memory tables keyed by id. Relations loaded with a row, timestamps (`createdAt`/`updatedAt`) and foreign-key constraints are left out. The order of list results is left out: lists are sets.
- uuid generation is left out. The new id is a parameter and must be unused.
- HTTP, the NestJS controllers, the Angular components, rxjs Observables and local-storage I/O are left out. The dashboard's storage is two optional fields, and a successful server response is a parameter. The failed-request path is not modelled.
- Rbac.HasPermission: resource and action are the enumerations of the table's strings. The server's answer `false` for a string outside them is not modelled. The client's `canAccess` does take arbitrary strings.
- Rbac.HasPermission: the table is an object literal indexed by the role string. A role naming an `Object.prototype` member (`constructor`, `toString`, `__proto__`, …) finds an inherited member, and `some` then throws a TypeError. `Data.OtherRoleName` excludes those names, so the model cannot represent such a stored role. That throw, and the internal error the guard and the user and organization services raise for it, are not modelled.
- Guard.OtherRoleNeverPasses: holds for the role values the model admits. A role naming an `Object.prototype` member makes the guard fail with a TypeError instead (see the line above).
- JSON parsing of the stored user is taken as returning the user that was stored. A stored user counts as present; the empty string cannot be the JSON of a user.
- Users.CheckUpdate: like the source, the service checks no email uniqueness on update. The unique index refuses the write in `Users.UsersService.Update` instead. The database's own error text is not modelled, only the column.
- Tasks.ApplyUpdate: request bodies are assumed to hold only the DTO's declared fields. The DTOs are interfaces with no runtime check, so `Object.assign` would also copy keys such as `organizationId`, `createdById` or `id` that a JSON body carries. Moving a task to another organization that way is not modelled.
- Tasks.NewTask: the same assumption for the spread of the create body. The stamped creator and organization come after the spread, but other undeclared keys (an `id`, a `status`) would be copied.
- Users.ApplyUpdate: the same assumption; an undeclared `id` key in the body is not modelled.
- Users.NewUser: the same assumption for the spread of the create body.
- Organizations.ApplyUpdate: the same assumption; an undeclared `id` key in the body is not modelled.
- Organizations.NewOrganization: the same assumption for the create body.
- Tasks.TasksService.Update: stores every field `ApplyUpdate` writes. In the source, `findOne` loads the `assignedTo` relation (apps/api/src/app/tasks/tasks.service.ts:56-59) and TypeORM's `save` takes the join column from a loaded relation object, not from the scalar field `Object.assign` changed. So a new `assignedToId` on a task that already has an assignee is most likely not written, although the returned task shows it. TypeORM is not part of this model.
- Users.UsersService.Update: the same for `organizationId`. The `organization` relation is loaded (apps/api/src/app/users/users.service.ts:35-38, and eager in apps/api/src/app/entities/user.entity.ts:33-34), so a new `organizationId` in the body is most likely not written.
- Organizations.OrganizationsService.Update: the same for `parentId` on an organization that already has a parent: the `parent` relation is loaded (apps/api/src/app/organizations/organizations.service.ts:36-39), so the new parent is most likely not written.
- Organizations.OrganizationsService.Remove: uses the intended count of the organization's users, so it deletes an organization without users. As written, `remove` never deletes anything; that behaviour is stated by `Organizations.CheckRemoveAsWritten` and `Organizations.RemoveAsWrittenAlwaysRefuses`, not by a method.
- The audit controller and its query are left out. The audit service is reduced to the entry appended to the log.
- Async ordering and concurrency are left out: every operation runs to completion in sequence.
- Seed data and the module wiring are left out.

## Findings

| source | as written | input that shows it | evidently intended | confidence | as-written member | corrected member |
|---|---|---|---|---|---|---|
| apps/api/src/app/organizations/organizations.service.ts:99-107 | `getCount()` on the organization left-joined with its users counts distinct organization rows, so the count is 1 for every existing organization and `remove` always refuses | owners `a` and `b` of organization `o`; `a` deletes `b`, then `b`, whose token stays valid and still names `o`, deletes `a`; `o` now has no users and `b` asks to remove it | count the users of the organization, and delete it when there are none | low: depends on TypeORM's count semantics, and the input assumes the JWT strategy (not part of this model) passes the token payload on as the caller without reloading the user; if it reloads the user, the caller is a member of its organization and the two rules agree on every input (`Organizations.RulesAgreeForMemberCaller`), so the difference cannot be seen from outside; not executed | Organizations.RemoveAsWrittenRefusesEmptyOrganization | Organizations.CheckRemove |
