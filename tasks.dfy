/** The task service: list and fetch tasks under tenant and viewer scoping,
    and create, update or delete them behind the ownership rule, recording
    each write in the audit log. */
module Tasks {
  import opened Common
  import opened Data
  import opened Rbac
  import opened Store

  const TASK_NOT_FOUND := "Task not found"
  const ACCESS_DENIED := "Access denied"
  const MODIFY_DENIED := "Insufficient permissions to modify this task"
  const DELETE_DENIED := "Insufficient permissions to delete this task"
  const CREATED_PREFIX := "Created task: "
  const UPDATED_PREFIX := "Updated task: "
  const DELETED_PREFIX := "Deleted task: "

  /** The extra instance rule for viewers: the task is assigned to them or
      was created by them. */
  function AssignedOrCreated(task: Task, user: Principal): (r: bool)
    ensures task.createdById == user.id ==> r
    ensures task.assignedToId == Some(user.id) ==> r
    ensures task.assignedToId.None? ==> (r <==> task.createdById == user.id)
    ensures task.assignedToId.Some? && task.assignedToId.value != user.id ==> (r <==> task.createdById == user.id)
  {
    task.assignedToId == Some(user.id) || task.createdById == user.id
  }

  /** The task `create` saves: the body's fields, stamped with the caller as
      creator and with the caller's organization, whatever the body says; the
      status starts at its column default. */
  function NewTask(id: Id, dto: CreateTaskDto, user: Principal): (t: Task)
    ensures t.id == id
    ensures t.createdById == user.id && t.organizationId == user.organizationId
    ensures t.status == Todo
    ensures t.title == dto.title && t.description == dto.description && t.priority == dto.priority
            && t.category == dto.category && t.assignedToId == dto.assignedToId && t.dueDate == dto.dueDate
  {
    Task(id, dto.title, dto.description, Todo, dto.priority, dto.category,
         dto.assignedToId, user.id, user.organizationId, dto.dueDate)
  }

  /** `findAll`: the tasks of the caller's organization; a viewer gets only
      those assigned to or created by them. */
  function FindAll(tasks: map<Id, Task>, user: Principal): (r: set<Task>)
    ensures r <= tasks.Values
    ensures forall t :: t in r ==> t.organizationId == user.organizationId
    ensures user.role == Viewer ==> forall t :: t in r ==> AssignedOrCreated(t, user)
    ensures forall t :: (t in tasks.Values && t.organizationId == user.organizationId
                         && (user.role == Viewer ==> AssignedOrCreated(t, user))) ==> t in r
  {
    set t | t in tasks.Values && t.organizationId == user.organizationId
            && (user.role == Viewer ==> AssignedOrCreated(t, user))
  }

  /** `findOne`: existence first, then tenant access, then the viewer rule. */
  function FindOne(tasks: map<Id, Task>, id: Id, user: Principal): (r: Result<Task>)
    ensures id !in tasks <==> r == Err(NotFound(TASK_NOT_FOUND))
    ensures r.Ok? <==> id in tasks && !user.role.Other?
                       && tasks[id].organizationId == user.organizationId
                       && (user.role == Viewer ==> AssignedOrCreated(tasks[id], user))
    ensures r.Ok? ==> r.value == tasks[id]
    ensures id in tasks && r.Err? ==> r == Err(Forbidden(ACCESS_DENIED))
  {
    if id !in tasks then
      Err(NotFound(TASK_NOT_FOUND))
    else
      var task := tasks[id];
      if !CanAccessResource(user.role, user.organizationId, task.organizationId) then
        Err(Forbidden(ACCESS_DENIED))
      else if user.role == Viewer && task.assignedToId != Some(user.id) && task.createdById != user.id then
        Err(Forbidden(ACCESS_DENIED))
      else
        Ok(task)
  }

  /** The checks `update` and `remove` run before writing: `findOne`, then the
      ownership rule with the task's creator as owner. `denial` is the message
      of the second check. */
  function CheckModify(tasks: map<Id, Task>, id: Id, user: Principal, denial: string): (r: Result<Task>)
    ensures FindOne(tasks, id, user).Err? ==> r == FindOne(tasks, id, user)
    ensures FindOne(tasks, id, user).Ok? && r.Err? ==> r == Err(Forbidden(denial))
    ensures r.Ok? <==> id in tasks && tasks[id].organizationId == user.organizationId
                       && (user.role == Owner || (user.role == Admin && tasks[id].createdById == user.id))
    ensures r.Ok? ==> r.value == tasks[id]
  {
    var found := FindOne(tasks, id, user);
    if found.Err? then
      found
    else if !CanModifyResource(user.role, user.organizationId, found.value.organizationId,
                               found.value.createdById, user.id) then
      Err(Forbidden(denial))
    else
      found
  }

  /** `Object.assign(task, dto)`: the fields present in the body overwrite,
      every other field keeps its value. */
  function ApplyUpdate(task: Task, dto: UpdateTaskDto): (r: Task)
    ensures r.id == task.id && r.createdById == task.createdById && r.organizationId == task.organizationId
    ensures dto.title.None? ==> r.title == task.title
    ensures dto.title.Some? ==> r.title == dto.title.value
    ensures dto.description.None? ==> r.description == task.description
    ensures dto.description.Some? ==> r.description == dto.description
    ensures dto.status.None? ==> r.status == task.status
    ensures dto.status.Some? ==> r.status == dto.status.value
    ensures dto.priority.None? ==> r.priority == task.priority
    ensures dto.priority.Some? ==> r.priority == dto.priority.value
    ensures dto.category.None? ==> r.category == task.category
    ensures dto.category.Some? ==> r.category == dto.category.value
    ensures dto.assignedToId.None? ==> r.assignedToId == task.assignedToId
    ensures dto.assignedToId.Some? ==> r.assignedToId == dto.assignedToId
    ensures dto.dueDate.None? ==> r.dueDate == task.dueDate
    ensures dto.dueDate.Some? ==> r.dueDate == dto.dueDate
  {
    task.(title := Overwrite(dto.title, task.title),
          description := OverwriteOptional(dto.description, task.description),
          status := Overwrite(dto.status, task.status),
          priority := Overwrite(dto.priority, task.priority),
          category := Overwrite(dto.category, task.category),
          assignedToId := OverwriteOptional(dto.assignedToId, task.assignedToId),
          dueDate := OverwriteOptional(dto.dueDate, task.dueDate))
  }

  /** The body `updateStatus` forwards to `update`. */
  function StatusOnly(status: TaskStatus): (dto: UpdateTaskDto)
    ensures dto.status == Some(status)
    ensures dto.title.None? && dto.description.None? && dto.priority.None? && dto.category.None?
            && dto.assignedToId.None? && dto.dueDate.None?
  {
    UpdateTaskDto(None, None, Some(status), None, None, None, None)
  }

  /** The audit rows of a task write: the acting user, the action, the
      resource kind `task`, the task's id, and details naming its title. */
  function CreatedEntry(user: Principal, task: Task): (e: AuditEntry)
    ensures e.userId == user.id && e.action == "CREATE" && e.resource == "task" && e.resourceId == task.id
    ensures |e.details| == |CREATED_PREFIX| + |task.title|
    ensures e.details[..|CREATED_PREFIX|] == CREATED_PREFIX && e.details[|CREATED_PREFIX|..] == task.title
  {
    AuditEntry(user.id, "CREATE", "task", task.id, CREATED_PREFIX + task.title)
  }

  function UpdatedEntry(user: Principal, task: Task): (e: AuditEntry)
    ensures e.userId == user.id && e.action == "UPDATE" && e.resource == "task" && e.resourceId == task.id
    ensures |e.details| == |UPDATED_PREFIX| + |task.title|
    ensures e.details[..|UPDATED_PREFIX|] == UPDATED_PREFIX && e.details[|UPDATED_PREFIX|..] == task.title
  {
    AuditEntry(user.id, "UPDATE", "task", task.id, UPDATED_PREFIX + task.title)
  }

  /** The delete row carries the requested id, not the loaded task's. */
  function DeletedEntry(user: Principal, id: Id, task: Task): (e: AuditEntry)
    ensures e.userId == user.id && e.action == "DELETE" && e.resource == "task" && e.resourceId == id
    ensures |e.details| == |DELETED_PREFIX| + |task.title|
    ensures e.details[..|DELETED_PREFIX|] == DELETED_PREFIX && e.details[|DELETED_PREFIX|..] == task.title
  {
    AuditEntry(user.id, "DELETE", "task", id, DELETED_PREFIX + task.title)
  }

  class TasksService {
    const db: Database

    constructor (db: Database)
      ensures this.db == db
    {
      this.db := db;
    }

    /** `newId` is the uuid the database generates for the new row. */
    method Create(dto: CreateTaskDto, user: Principal, newId: Id) returns (saved: Task)
      requires db.Valid() && newId !in db.tasks
      modifies db
      ensures db.Valid()
      ensures saved == NewTask(newId, dto, user)
      ensures db.tasks == old(db.tasks)[newId := saved]
      ensures db.auditLog == old(db.auditLog) + [CreatedEntry(user, saved)]
      ensures db.users == old(db.users) && db.organizations == old(db.organizations)
    {
      var task := NewTask(newId, dto, user);
      db.tasks := db.tasks[task.id := task];
      saved := task;
      db.auditLog := db.auditLog + [CreatedEntry(user, saved)];
    }

    method Update(id: Id, dto: UpdateTaskDto, user: Principal) returns (r: Result<Task>)
      requires db.Valid()
      modifies db
      ensures db.Valid()
      ensures db.users == old(db.users) && db.organizations == old(db.organizations)
      ensures r.Ok? <==> CheckModify(old(db.tasks), id, user, MODIFY_DENIED).Ok?
      ensures r.Err? ==> r == CheckModify(old(db.tasks), id, user, MODIFY_DENIED)
                         && db.tasks == old(db.tasks) && db.auditLog == old(db.auditLog)
      ensures r.Ok? ==> && r.value == ApplyUpdate(old(db.tasks)[id], dto)
                        && db.tasks == old(db.tasks)[id := r.value]
                        && db.auditLog == old(db.auditLog) + [UpdatedEntry(user, r.value)]
    {
      var found := FindOne(db.tasks, id, user);
      if found.Err? {
        return Err(found.error);
      }
      var task := found.value;
      if !CanModifyResource(user.role, user.organizationId, task.organizationId, task.createdById, user.id) {
        return Err(Forbidden(MODIFY_DENIED));
      }
      task := ApplyUpdate(task, dto);
      db.tasks := db.tasks[task.id := task];
      db.auditLog := db.auditLog + [UpdatedEntry(user, task)];
      r := Ok(task);
    }

    method Remove(id: Id, user: Principal) returns (r: Result<()>)
      requires db.Valid()
      modifies db
      ensures db.Valid()
      ensures db.users == old(db.users) && db.organizations == old(db.organizations)
      ensures r.Ok? <==> CheckModify(old(db.tasks), id, user, DELETE_DENIED).Ok?
      ensures r.Err? ==> r.error == CheckModify(old(db.tasks), id, user, DELETE_DENIED).error
                         && db.tasks == old(db.tasks) && db.auditLog == old(db.auditLog)
      ensures r.Ok? ==> && db.tasks == old(db.tasks) - {id}
                        && db.auditLog == old(db.auditLog) + [DeletedEntry(user, id, old(db.tasks)[id])]
    {
      var found := FindOne(db.tasks, id, user);
      if found.Err? {
        return Err(found.error);
      }
      var task := found.value;
      if !CanModifyResource(user.role, user.organizationId, task.organizationId, task.createdById, user.id) {
        return Err(Forbidden(DELETE_DENIED));
      }
      db.tasks := db.tasks - {task.id};
      db.auditLog := db.auditLog + [DeletedEntry(user, id, task)];
      r := Ok(());
    }

    /** Exactly `update` with a body holding only the status. */
    method UpdateStatus(id: Id, status: TaskStatus, user: Principal) returns (r: Result<Task>)
      requires db.Valid()
      modifies db
      ensures db.Valid()
      ensures db.users == old(db.users) && db.organizations == old(db.organizations)
      ensures r.Ok? <==> CheckModify(old(db.tasks), id, user, MODIFY_DENIED).Ok?
      ensures r.Err? ==> r == CheckModify(old(db.tasks), id, user, MODIFY_DENIED)
                         && db.tasks == old(db.tasks) && db.auditLog == old(db.auditLog)
      ensures r.Ok? ==> && r.value == ApplyUpdate(old(db.tasks)[id], StatusOnly(status))
                        && db.tasks == old(db.tasks)[id := r.value]
                        && db.auditLog == old(db.auditLog) + [UpdatedEntry(user, r.value)]
    {
      r := Update(id, StatusOnly(status), user);
    }
  }

  // ----- Properties relating the operations -----

  /** For the three enumerated roles, listing and fetching agree: a task is
      listed exactly when fetching it by id succeeds. */
  lemma FindAllAgreesWithFindOne(tasks: map<Id, Task>, user: Principal, t: Task)
    requires TasksKeyed(tasks)
    requires !user.role.Other?
    ensures t in FindAll(tasks, user) <==> t.id in tasks && FindOne(tasks, t.id, user) == Ok(t)
  {
  }

  /** A role outside the enumeration lists every task of its organization, yet
      cannot fetch any of them: the list query compares organizations
      directly, while the single fetch goes through the access check. */
  lemma OtherRoleListsButCannotFetch(tasks: map<Id, Task>, user: Principal, id: Id)
    requires user.role.Other?
    requires id in tasks && tasks[id].organizationId == user.organizationId
    ensures tasks[id] in FindAll(tasks, user)
    ensures FindOne(tasks, id, user) == Err(Forbidden(ACCESS_DENIED))
  {
  }

  /** Ownership means the creator, not the assignee: an admin assigned to a
      task somebody else created may not change or delete it. */
  lemma AdminAssigneeMayNotModify(tasks: map<Id, Task>, id: Id, user: Principal, denial: string)
    requires user.role == Admin
    requires id in tasks && tasks[id].organizationId == user.organizationId
    requires tasks[id].assignedToId == Some(user.id) && tasks[id].createdById != user.id
    ensures FindOne(tasks, id, user).Ok?
    ensures CheckModify(tasks, id, user, denial) == Err(Forbidden(denial))
  {
  }

  /** A viewer can never change or delete a task, even one it may read. */
  lemma ViewerNeverModifies(tasks: map<Id, Task>, id: Id, user: Principal, denial: string)
    requires user.role == Viewer
    ensures CheckModify(tasks, id, user, denial).Err?
  {
  }

  /** Whoever creates a task (with an enumerated role) can fetch it back, and
      can change it exactly when it is an owner or an admin. */
  lemma CreatorSeesNewTask(tasks: map<Id, Task>, id: Id, dto: CreateTaskDto, user: Principal)
    requires !user.role.Other?
    ensures FindOne(tasks[id := NewTask(id, dto, user)], id, user) == Ok(NewTask(id, dto, user))
    ensures CheckModify(tasks[id := NewTask(id, dto, user)], id, user, MODIFY_DENIED).Ok?
            <==> user.role in {Owner, Admin}
  {
  }

  /** An update body with no fields changes nothing. */
  lemma EmptyUpdateIsIdentity(task: Task)
    ensures ApplyUpdate(task, UpdateTaskDto(None, None, None, None, None, None, None)) == task
  {
  }

  /** Applying the same update body twice is the same as applying it once. */
  lemma ApplyUpdateIdempotent(task: Task, dto: UpdateTaskDto)
    ensures ApplyUpdate(ApplyUpdate(task, dto), dto) == ApplyUpdate(task, dto)
  {
  }
}
