/**
 * The end-user client: each method as the endpoint it calls. CreateRole and
 * RegisterUser return their call's outcome through Endpoints.KeyResultValue,
 * Login through Endpoints.LoginResult. A method that binds `{id}` is
 * refused, with no request built, when the id is null or empty
 * (Endpoints.WithSegment).
 */
module AtlasUserClient {

  import opened Wrappers
  import opened Strings
  import opened Rest
  import opened Exceptions
  import opened Queries
  import opened Models
  import opened Endpoints

  /**
   * ChangePassword as written: a POST of `{ password }` to `/api/users/{id}`
   * that binds no segment, so the placeholder stays in the path.
   */
  function ChangePassword(id: string, newPassword: string): (e: Endpoint<PasswordBody>)
    ensures e.verb == Post && e.body == Some(PasswordBody(newPassword)) && e.query == NoQuery
    ensures Template(e) == "/api/users/{id}"
    ensures Unbound(e.template, e.segments) == ["id"]
    ensures Url(e) == "/api/users/{id}"
  {
    Endpoint(Post, [Lit("/api/users/"), Hole("id")], [], Some(PasswordBody(newPassword)), NoQuery)
  }

  /** Whatever the id, the request goes to the same path. */
  lemma ChangePasswordIgnoresId(id1: string, id2: string, newPassword: string)
    ensures Url(ChangePassword(id1, newPassword)) == Url(ChangePassword(id2, newPassword))
    ensures !FullyBound(ChangePassword(id1, newPassword))
  {
  }

  /**
   * ChangePassword with the `{id}` segment bound, as the template and the
   * admin client's method intend; an empty id is then refused like any segment.
   */
  function ChangePasswordBound(id: string, newPassword: string): (r: Outcome<Endpoint<PasswordBody>>)
    ensures id == "" ==> r == Failure(ArgumentNull("value"))
    ensures id != "" ==>
      r.Success?
      && r.value.verb == Post && r.value.body == Some(PasswordBody(newPassword)) && r.value.query == NoQuery
      && Template(r.value) == "/api/users/{id}"
      && FullyBound(r.value) && Url(r.value) == "/api/users/" + id
  {
    WithSegment(Post, [Lit("/api/users/"), Hole("id")], "id", Some(id), Some(PasswordBody(newPassword)), NoQuery)
  }

  /** Bound, different users' password changes go to different paths. */
  lemma ChangePasswordBoundSeparatesIds(id1: string, id2: string, newPassword: string)
    ensures ChangePasswordBound(id1, newPassword).Success? && ChangePasswordBound(id2, newPassword).Success? ==>
      (Url(ChangePasswordBound(id1, newPassword).value) == Url(ChangePasswordBound(id2, newPassword).value) <==> id1 == id2)
  {
    if id1 != "" && id2 != "" && Url(ChangePasswordBound(id1, newPassword).value) == Url(ChangePasswordBound(id2, newPassword).value) {
      var prefix := "/api/users/";
      assert (prefix + id1)[|prefix|..] == id1;
      assert (prefix + id2)[|prefix|..] == id2;
    }
  }

  /** CreateRole: a POST of the role to `/api/roles`; the result is the created id. */
  function CreateRole(role: Role): (e: Endpoint<Role>)
    ensures e.verb == Post && e.body == Some(role) && e.query == NoQuery
    ensures FullyBound(e) && Url(e) == "/api/roles"
  {
    Endpoint(Post, [Lit("/api/roles")], [], Some(role), NoQuery)
  }

  /** DeleteRole: a DELETE of `/api/roles/{id}` with `{id}` bound; an empty id is refused. */
  function DeleteRole(id: string): (r: Outcome<Endpoint<()>>)
    ensures id == "" ==> r == Failure(ArgumentNull("value"))
    ensures id != "" ==>
      r.Success?
      && r.value.verb == Delete && r.value.body.None? && r.value.query == NoQuery
      && Template(r.value) == "/api/roles/{id}" && r.value.segments == [("id", id)]
      && FullyBound(r.value) && Url(r.value) == "/api/roles/" + id
  {
    WithSegment(Delete, [Lit("/api/roles/"), Hole("id")], "id", Some(id), None, NoQuery)
  }

  /** DeleteUser: a DELETE of `/api/users/{id}` with `{id}` bound; an empty id is refused. */
  function DeleteUser(id: string): (r: Outcome<Endpoint<()>>)
    ensures id == "" ==> r == Failure(ArgumentNull("value"))
    ensures id != "" ==>
      r.Success?
      && r.value.verb == Delete && r.value.body.None? && r.value.query == NoQuery
      && Template(r.value) == "/api/users/{id}" && r.value.segments == [("id", id)]
      && FullyBound(r.value) && Url(r.value) == "/api/users/" + id
  {
    WithSegment(Delete, [Lit("/api/users/"), Hole("id")], "id", Some(id), None, NoQuery)
  }

  function GetRoles(): (e: Endpoint<()>)
    ensures e.verb == Get && e.body.None? && e.query == NoQuery
    ensures FullyBound(e) && Url(e) == "/api/roles"
  {
    Endpoint(Get, [Lit("/api/roles")], [], None, NoQuery)
  }

  /**
   * GetUser, generic or not: the type argument only selects how the response
   * is decoded, so both forms call the same endpoint. An empty id is refused.
   */
  function GetUser(id: string): (r: Outcome<Endpoint<()>>)
    ensures id == "" ==> r == Failure(ArgumentNull("value"))
    ensures id != "" ==>
      r.Success?
      && r.value.verb == Get && r.value.body.None? && r.value.query == NoQuery
      && Template(r.value) == "/api/users/{id}" && r.value.segments == [("id", id)]
      && FullyBound(r.value) && Url(r.value) == "/api/users/" + id
  {
    WithSegment(Get, [Lit("/api/users/"), Hole("id")], "id", Some(id), None, NoQuery)
  }

  /** GetUsers, generic or not: a GET of `/api/users` carrying the (possibly null) user query. */
  function GetUsers(query: Option<UserQuery>): (e: Endpoint<()>)
    ensures e.verb == Get && e.body.None? && e.query == Users(query)
    ensures FullyBound(e) && Url(e) == "/api/users"
  {
    Endpoint(Get, [Lit("/api/users")], [], None, Users(query))
  }

  /** Login: a POST of the credentials to `/api/users/login`. */
  function Login(username: string, password: string): (e: Endpoint<Credentials>)
    ensures e.verb == Post && e.body == Some(Credentials(username, password)) && e.query == NoQuery
    ensures FullyBound(e) && Url(e) == "/api/users/login"
  {
    Endpoint(Post, [Lit("/api/users/login")], [], Some(Credentials(username, password)), NoQuery)
  }

  /** RegisterUser<T>: a POST of the registration to `/api/users/register`; the result is the created id. */
  function RegisterUserTyped<A>(user: TypedRegisterUser<A>): (e: Endpoint<TypedRegisterUser<A>>)
    ensures e.verb == Post && e.body == Some(user) && e.query == NoQuery
    ensures FullyBound(e) && Url(e) == "/api/users/register"
  {
    Endpoint(Post, [Lit("/api/users/register")], [], Some(user), NoQuery)
  }

  /**
   * The non-generic RegisterUser delegates through the implicit conversion:
   * the body it sends never carries an id or audit fields, whatever the source
   * held. The conversion reads the source's fields, so a null registration
   * raises NullReferenceException.
   */
  function RegisterUser(user: Option<Models.RegisterUser>): (r: Outcome<Endpoint<TypedRegisterUser<Dictionary>>>)
    ensures user.None? ==> r == Failure(NullReference)
    ensures user.Some? ==> r == Success(RegisterUserTyped(RegisterUserToTyped(user.value)))
    ensures user.Some? ==>
      var b := r.value.body;
      b.Some? && b.value.id.None? && b.value.createdAt.None? && b.value.createdBy.None?
      && b.value.modifiedAt.None? && b.value.modifiedBy.None?
      && RegisterUserFromTyped(b.value) == WithoutAudit(user.value)
  {
    if user.None? then Failure(NullReference)
    else
      RegisterUserConversionDropsAudit(user.value, user.value);
      Success(RegisterUserTyped(RegisterUserToTyped(user.value)))
  }

  /** UpdateRole: a PUT of the role to `/api/roles`, with no id in the path. */
  function UpdateRole(role: Role): (e: Endpoint<Role>)
    ensures e.verb == Put && e.body == Some(role) && e.query == NoQuery && e.segments == []
    ensures FullyBound(e) && Url(e) == "/api/roles"
  {
    Endpoint(Put, [Lit("/api/roles")], [], Some(role), NoQuery)
  }

  /**
   * UpdateUser<T>: a PUT of the user to `/api/users/{id}` with `{id}` bound to
   * the user's own id; a user whose id is null or empty is refused, and a null
   * user raises NullReferenceException when its id is read.
   */
  function UpdateUserTyped<A>(user: Option<TypedUser<A>>): (r: Outcome<Endpoint<TypedUser<A>>>)
    ensures user.None? ==> r == Failure(NullReference)
    ensures user.Some? && IsNullOrEmpty(user.value.id) ==> r == Failure(ArgumentNull("value"))
    ensures user.Some? && !IsNullOrEmpty(user.value.id) ==>
      r.Success?
      && r.value.verb == Put && r.value.body == user && r.value.query == NoQuery
      && Template(r.value) == "/api/users/{id}" && r.value.segments == [("id", user.value.id.value)]
      && FullyBound(r.value) && Url(r.value) == "/api/users/" + user.value.id.value
  {
    if user.None? then Failure(NullReference)
    else WithSegment(Put, [Lit("/api/users/"), Hole("id")], "id", user.value.id, user, NoQuery)
  }

  /**
   * The non-generic UpdateUser delegates through the implicit conversion,
   * which keeps the id: it is refused exactly when the source's id is null or
   * empty, and otherwise sends a body that reads back as the source. The
   * conversion reads the source's fields, so a null user raises
   * NullReferenceException.
   */
  function UpdateUser(user: Option<Models.User>): (r: Outcome<Endpoint<TypedUser<Dictionary>>>)
    ensures user.None? ==> r == Failure(NullReference)
    ensures user.Some? ==> r == UpdateUserTyped(Some(UserToTyped(user.value)))
    ensures user.Some? ==> (r.Failure? <==> IsNullOrEmpty(user.value.id))
    ensures user.Some? && r.Success? ==>
      r.value.segments == [("id", user.value.id.value)] && r.value.body.Some?
      && UserFromTyped(r.value.body.value) == user.value
  {
    if user.None? then Failure(NullReference)
    else
      UserConversionBijective(user.value, UserToTyped(user.value));
      UpdateUserTyped(Some(UserToTyped(user.value)))
  }
}
