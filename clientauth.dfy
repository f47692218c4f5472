/** The dashboard's session service: the token and user it keeps in local
    storage, the current user it publishes, and its own client-side
    permission table, which differs from the server's. */
module ClientAuth {
  import opened Common
  import opened Data
  import opened Rbac

  /** A user as the server sends it to the client, without the password. */
  datatype SessionUser = SessionUser(id: Id, email: string, firstName: string, lastName: string,
                                     role: Role, organizationId: Id)

  /** The body of a successful login or register response. */
  datatype AuthResponse = AuthResponse(accessToken: string, user: SessionUser)

  /** `canAccess` once a user is present: the client's role switch over
      arbitrary resource and action strings. */
  function ClientAllows(role: Role, resource: string, action: string): (r: bool)
    ensures role == Owner ==> r
    ensures role == Admin ==>
              (r <==> resource in {"task", "user"} && action in {"create", "read", "update", "delete"})
    ensures role == Viewer ==> (r <==> resource in {"task", "user", "organization"} && action == "read")
    ensures role.Other? ==> !r
  {
    match role
    case Owner => true
    case Admin => resource in ["task", "user"] && action in ["create", "read", "update", "delete"]
    case Viewer => resource in ["task", "user", "organization"] && action == "read"
    case Other(_) => false
  }

  class AuthService {
    /** The `access_token` entry of local storage. */
    var storedToken: Option<string>
    /** The `current_user` entry of local storage. */
    var storedUser: Option<SessionUser>
    /** The value of the current-user subject. */
    var currentUser: Option<SessionUser>

    /** Start-up: the stored user is restored only when a truthy token and a
        user are both in storage; local storage itself is left as it is. */
    constructor (token: Option<string>, user: Option<SessionUser>)
      ensures storedToken == token && storedUser == user
      ensures currentUser == (if token.Some? && token.value != "" && user.Some? then user else None)
    {
      storedToken := token;
      storedUser := user;
      if token.Some? && token.value != "" && user.Some? {
        currentUser := user;
      } else {
        currentUser := None;
      }
    }

    /** What `login` and `register` do with a successful response. */
    method SaveSession(response: AuthResponse)
      modifies this
      ensures storedToken == Some(response.accessToken)
      ensures storedUser == Some(response.user) && currentUser == Some(response.user)
    {
      storedToken := Some(response.accessToken);
      storedUser := Some(response.user);
      currentUser := Some(response.user);
    }

    /** `login`, given the server's response (the request is not modelled). */
    method Login(response: AuthResponse)
      modifies this
      ensures storedToken == Some(response.accessToken)
      ensures storedUser == Some(response.user) && currentUser == Some(response.user)
      ensures response.accessToken != "" ==> IsAuthenticated()
      ensures forall role :: HasRole(role) <==> role == response.user.role
    {
      SaveSession(response);
    }

    /** `register`, given the server's response. */
    method Register(response: AuthResponse)
      modifies this
      ensures storedToken == Some(response.accessToken)
      ensures storedUser == Some(response.user) && currentUser == Some(response.user)
      ensures response.accessToken != "" ==> IsAuthenticated()
      ensures forall role :: HasRole(role) <==> role == response.user.role
    {
      SaveSession(response);
    }

    /** `logout` clears both storage entries and the current user. */
    method Logout()
      modifies this
      ensures storedToken == None && storedUser == None && currentUser == None
      ensures !IsAuthenticated()
      ensures forall resource, action :: !CanAccess(resource, action)
      ensures forall role :: !HasRole(role)
    {
      storedToken := None;
      storedUser := None;
      currentUser := None;
    }

    /** The stored `access_token` entry. */
    function GetToken(): (token: Option<string>)
      reads this
      ensures token == storedToken
    {
      storedToken
    }

    /** The current value of the user subject, not the stored entry. */
    function GetCurrentUser(): (user: Option<SessionUser>)
      reads this
      ensures user == currentUser
    {
      currentUser
    }

    /** `!!getToken()`: a token is stored and it is not the empty string. */
    function IsAuthenticated(): (r: bool)
      reads this
      ensures r <==> storedToken.Some? && storedToken.value != ""
      ensures storedToken == Some("") ==> !r
    {
      match GetToken()
      case None => false
      case Some(token) => token != ""
    }

    /** `user?.role === role`: false without a current user. */
    function HasRole(role: Role): (r: bool)
      reads this
      ensures currentUser.None? ==> !r
      ensures currentUser.Some? ==> (r <==> currentUser.value.role == role)
    {
      match GetCurrentUser()
      case None => false
      case Some(user) => user.role == role
    }

    function CanAccess(resource: string, action: string): (r: bool)
      reads this
      ensures currentUser.None? ==> !r
      ensures currentUser.Some? ==> (r <==> ClientAllows(currentUser.value.role, resource, action))
    {
      match GetCurrentUser()
      case None => false
      case Some(user) => ClientAllows(user.role, resource, action)
    }
  }

  // ----- The client table against the server table -----

  /** The client lets an admin create and delete users; the server does not. */
  lemma AdminUserManagementDiverges()
    ensures ClientAllows(Admin, ResourceName(UserKind), ActionName(Create))
    ensures !HasPermission(Admin, UserKind, Create)
    ensures ClientAllows(Admin, ResourceName(UserKind), ActionName(Delete))
    ensures !HasPermission(Admin, UserKind, Delete)
  {
  }

  /** The server lets an admin read organizations and the audit log; the
      client does not. */
  lemma AdminReadsDiverge()
    ensures HasPermission(Admin, OrganizationKind, Read)
    ensures !ClientAllows(Admin, ResourceName(OrganizationKind), ActionName(Read))
    ensures HasPermission(Admin, AuditKind, Read)
    ensures !ClientAllows(Admin, ResourceName(AuditKind), ActionName(Read))
  {
  }

  /** For a viewer the two tables agree on every resource and action. */
  lemma ViewerTablesAgree(resource: Resource, action: Action)
    ensures ClientAllows(Viewer, ResourceName(resource), ActionName(action)) <==> HasPermission(Viewer, resource, action)
  {
  }

  /** For an admin the client allows exactly the task and user kinds, each
      with every action. */
  lemma AdminClientTable(resource: Resource, action: Action)
    ensures ClientAllows(Admin, ResourceName(resource), ActionName(action)) <==> resource in {TaskKind, UserKind}
  {
  }

  /** The owner's client grants cover the server's and more: the client also
      allows writes to the audit log the server refuses. */
  lemma OwnerClientTableIsWider(resource: Resource, action: Action)
    ensures HasPermission(Owner, resource, action) ==> ClientAllows(Owner, ResourceName(resource), ActionName(action))
    ensures ClientAllows(Owner, ResourceName(AuditKind), ActionName(Delete)) && !HasPermission(Owner, AuditKind, Delete)
  {
  }

  /** Every server grant of an owner or a viewer is also a client grant (for
      an admin it is not: see `AdminReadsDiverge`). */
  lemma ServerGrantsShownByClient(role: Role, resource: Resource, action: Action)
    requires role in {Owner, Viewer}
    ensures HasPermission(role, resource, action) ==> ClientAllows(role, ResourceName(resource), ActionName(action))
  {
  }
}
