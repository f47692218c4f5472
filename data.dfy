/** The shared data types of the application: the role enumeration, the
    entities and the request bodies (DTOs). Creation and update timestamps
    are not modelled. */
module Data {
  import opened Common

  /** The members every JavaScript object inherits from `Object.prototype`. */
  const PROTOTYPE_MEMBERS: set<string> := {
    "constructor", "__proto__", "toString", "toLocaleString", "valueOf", "hasOwnProperty",
    "isPrototypeOf", "propertyIsEnumerable", "__defineGetter__", "__defineSetter__",
    "__lookupGetter__", "__lookupSetter__"}

  /** A role value outside the enumeration: none of the three role names, and
      not a name under which the server's permission table (an object
      literal) would find an inherited member instead of nothing. */
  type OtherRoleName = name: string | name !in {"owner", "admin", "viewer"} && name !in PROTOTYPE_MEMBERS
    witness "guest"

  /** The role enumeration. `Other` stands for any other role value (the
      source's tables and switches treat such a value with their fall-through
      branch). */
  datatype Role = Owner | Admin | Viewer | Other(name: OtherRoleName)

  /** The authenticated user attached to a request, as far as the services
      read it: its id, its role and its organization. */
  datatype Principal = Principal(id: Id, role: Role, organizationId: Id)

  datatype TaskStatus = Todo | InProgress | Done

  datatype TaskPriority = Low | Medium | High | Urgent

  /** Due dates are kept as an opaque instant. */
  type Instant = int

  datatype Task = Task(
    id: Id,
    title: string,
    description: Option<string>,
    status: TaskStatus,
    priority: TaskPriority,
    category: string,
    assignedToId: Option<Id>,
    createdById: Id,
    organizationId: Id,
    dueDate: Option<Instant>)

  datatype CreateTaskDto = CreateTaskDto(
    title: string,
    description: Option<string>,
    priority: TaskPriority,
    category: string,
    assignedToId: Option<Id>,
    dueDate: Option<Instant>)

  /** Every field is optional: only the present ones are applied. */
  datatype UpdateTaskDto = UpdateTaskDto(
    title: Option<string>,
    description: Option<string>,
    status: Option<TaskStatus>,
    priority: Option<TaskPriority>,
    category: Option<string>,
    assignedToId: Option<Id>,
    dueDate: Option<Instant>)

  /** A user row; `password` holds whatever was stored (a bcrypt hash when the
      row was written by the users service). */
  datatype User = User(
    id: Id,
    email: string,
    password: string,
    firstName: string,
    lastName: string,
    role: Role,
    organizationId: Id)

  datatype CreateUserDto = CreateUserDto(
    email: string,
    password: string,
    firstName: string,
    lastName: string,
    role: Role,
    organizationId: Id)

  /** `Partial<CreateUserDto>`, the body of a user update. */
  datatype UpdateUserDto = UpdateUserDto(
    email: Option<string>,
    password: Option<string>,
    firstName: Option<string>,
    lastName: Option<string>,
    role: Option<Role>,
    organizationId: Option<Id>)

  datatype Organization = Organization(id: Id, name: string, parentId: Option<Id>)

  datatype CreateOrganizationDto = CreateOrganizationDto(name: string, parentId: Option<Id>)

  /** `Partial<CreateOrganizationDto>`. */
  datatype UpdateOrganizationDto = UpdateOrganizationDto(name: Option<string>, parentId: Option<Id>)

  /** One row of the audit log (the optional ip address and user agent are
      never supplied by the task service and are left out). */
  datatype AuditEntry = AuditEntry(
    userId: Id,
    action: string,
    resource: string,
    resourceId: Id,
    details: string)
}
