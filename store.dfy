/** The database the services share, as in-memory tables keyed by primary key. */
module Store {
  import opened Common
  import opened Data

  /** Every row of a table is stored under its own id. */
  predicate TasksKeyed(tasks: map<Id, Task>)
  {
    forall k :: k in tasks ==> tasks[k].id == k
  }

  predicate UsersKeyed(users: map<Id, User>)
  {
    forall k :: k in users ==> users[k].id == k
  }

  /** The unique index on the email column: no two users share an address.
      A lookup by address then finds at most one row. */
  function EmailsUnique(users: map<Id, User>): (r: bool)
    ensures users == map[] ==> r
    ensures r && UsersKeyed(users) ==>
              forall u, v :: u in users.Values && v in users.Values && u.email == v.email ==> u == v
  {
    forall j, k :: j in users && k in users && j != k ==> users[j].email != users[k].email
  }

  predicate OrganizationsKeyed(organizations: map<Id, Organization>)
  {
    forall k :: k in organizations ==> organizations[k].id == k
  }

  class Database {
    var tasks: map<Id, Task>
    var users: map<Id, User>
    var organizations: map<Id, Organization>
    var auditLog: seq<AuditEntry>

    ghost predicate Valid()
      reads this
    {
      TasksKeyed(tasks) && UsersKeyed(users) && EmailsUnique(users) && OrganizationsKeyed(organizations)
    }

    constructor ()
      ensures Valid()
      ensures tasks == map[] && users == map[] && organizations == map[] && auditLog == []
    {
      tasks, users, organizations, auditLog := map[], map[], map[], [];
    }
  }
}
