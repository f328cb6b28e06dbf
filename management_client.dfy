/**
 * The administration client: each method as the endpoint it calls. The
 * create methods return their call's outcome through Endpoints.KeyResultValue,
 * Login through Endpoints.LoginResult; the model and component creators
 * raise before building any request. A method that binds `{id}` is refused,
 * with no request built, when the id is null or empty (Endpoints.WithSegment).
 */
module AtlasManagementClient {

  import opened Wrappers
  import opened Strings
  import opened Rest
  import opened Exceptions
  import opened Queries
  import opened Models
  import opened Endpoints

  /**
   * ChangePassword: a POST of `{ password }` to
   * `/api/admin/accounts/{id}/change-password`, `{id}` bound; an empty id is refused.
   */
  function ChangePassword(id: string, newPassword: string): (r: Outcome<Endpoint<PasswordBody>>)
    ensures id == "" ==> r == Failure(ArgumentNull("value"))
    ensures id != "" ==>
      r.Success?
      && r.value.verb == Post && r.value.body == Some(PasswordBody(newPassword)) && r.value.query == NoQuery
      && Template(r.value) == "/api/admin/accounts/" + "{id}" + "/change-password"
      && FullyBound(r.value) && Url(r.value) == "/api/admin/accounts/" + id + "/change-password"
  {
    var template := [Lit("/api/admin/accounts/"), Hole("id"), Lit("/change-password")];
    assert Path(template[2..], [("id", id)]) == "/change-password";
    assert Path(template[2..], []) == "/change-password";
    WithSegment(Post, template, "id", Some(id), Some(PasswordBody(newPassword)), NoQuery)
  }

  // ----- Creation ------------------------------------------------------------

  /** CreateAccount: a POST of the registration, whatever its shape, to `/api/admin/accounts`. */
  function CreateAccount<A>(account: A): (e: Endpoint<A>)
    ensures e.verb == Post && e.body == Some(account) && e.query == NoQuery
    ensures FullyBound(e) && Url(e) == "/api/admin/accounts"
  {
    Endpoint(Post, [Lit("/api/admin/accounts")], [], Some(account), NoQuery)
  }

  /**
   * CreateAccountRole: a POST of the role's name and permissions only; its id
   * is not sent. Reading the fields of a null role raises NullReferenceException.
   */
  function CreateAccountRole(role: Option<AccountRole>): (r: Outcome<Endpoint<RoleFields>>)
    ensures role.None? ==> r == Failure(NullReference)
    ensures role.Some? ==>
      r.Success?
      && r.value.verb == Post && r.value.query == NoQuery
      && r.value.body == Some(RoleFields(role.value.name, role.value.permissions))
      && FullyBound(r.value) && Url(r.value) == "/api/admin/roles"
  {
    if role.None? then Failure(NullReference)
    else Success(Endpoint(Post, [Lit("/api/admin/roles")], [],
                          Some(RoleFields(role.value.name, role.value.permissions)), NoQuery))
  }

  /**
   * CreateApiKey: a POST of the key's name, state, validity and permissions;
   * its id and key are not sent. A null key raises NullReferenceException.
   */
  function CreateApiKey(apiKey: Option<ApiKey>): (r: Outcome<Endpoint<ApiKeyFields>>)
    ensures apiKey.None? ==> r == Failure(NullReference)
    ensures apiKey.Some? ==>
      var k := apiKey.value;
      r.Success?
      && r.value.verb == Post && r.value.query == NoQuery
      && r.value.body == Some(ApiKeyFields(k.name, k.isActive, k.validFrom, k.validTo, k.permissions))
      && FullyBound(r.value) && Url(r.value) == "/api/admin/apikeys"
  {
    if apiKey.None? then Failure(NullReference)
    else
      var k := apiKey.value;
      Success(Endpoint(Post, [Lit("/api/admin/apikeys")], [],
                       Some(ApiKeyFields(k.name, k.isActive, k.validFrom, k.validTo, k.permissions)), NoQuery))
  }

  /** Two API keys that differ only in id and key value are created by the same request. */
  lemma CreateApiKeyIgnoresIdAndKey(a: ApiKey, b: ApiKey)
    requires a.(id := b.id, key := b.key) == b
    ensures CreateApiKey(Some(a)) == CreateApiKey(Some(b))
  {
  }

  function CreateWebhook(webhook: Webhook): (e: Endpoint<Webhook>)
    ensures e.verb == Post && e.body == Some(webhook) && e.query == NoQuery
    ensures FullyBound(e) && Url(e) == "/api/admin/webhooks"
  {
    Endpoint(Post, [Lit("/api/admin/webhooks")], [], Some(webhook), NoQuery)
  }

  /** CreateModel is not implemented: it raises and issues no request. */
  function CreateModel(model: Model): (r: Outcome<Option<string>>)
    ensures r == Failure(NotImplemented)
  {
    Failure(NotImplemented)
  }

  /** CreateComponent is not implemented: it raises and issues no request. */
  function CreateComponent(component: Component): (r: Outcome<Option<string>>)
    ensures r == Failure(NotImplemented)
  {
    Failure(NotImplemented)
  }

  // ----- Deletion: DELETE with `{id}` bound to the argument -----------------

  /** DeleteAccount: a DELETE of `/api/admin/accounts/{id}`, `{id}` bound; an empty id is refused. */
  function DeleteAccount(id: string): (r: Outcome<Endpoint<()>>)
    ensures id == "" ==> r == Failure(ArgumentNull("value"))
    ensures id != "" ==>
      r.Success?
      && r.value.verb == Delete && r.value.body.None? && r.value.query == NoQuery
      && Template(r.value) == "/api/admin/accounts/{id}" && r.value.segments == [("id", id)]
      && FullyBound(r.value) && Url(r.value) == "/api/admin/accounts/" + id
  {
    WithSegment(Delete, [Lit("/api/admin/accounts/"), Hole("id")], "id", Some(id), None, NoQuery)
  }

  /** DeleteAccountRole: a DELETE of `/api/admin/roles/{id}`, `{id}` bound; an empty id is refused. */
  function DeleteAccountRole(id: string): (r: Outcome<Endpoint<()>>)
    ensures id == "" ==> r == Failure(ArgumentNull("value"))
    ensures id != "" ==>
      r.Success?
      && r.value.verb == Delete && r.value.body.None? && r.value.query == NoQuery
      && Template(r.value) == "/api/admin/roles/{id}" && r.value.segments == [("id", id)]
      && FullyBound(r.value) && Url(r.value) == "/api/admin/roles/" + id
  {
    WithSegment(Delete, [Lit("/api/admin/roles/"), Hole("id")], "id", Some(id), None, NoQuery)
  }

  /** DeleteApiKey: a DELETE of `/api/admin/apikeys/{id}`, `{id}` bound; an empty id is refused. */
  function DeleteApiKey(id: string): (r: Outcome<Endpoint<()>>)
    ensures id == "" ==> r == Failure(ArgumentNull("value"))
    ensures id != "" ==>
      r.Success?
      && r.value.verb == Delete && r.value.body.None? && r.value.query == NoQuery
      && Template(r.value) == "/api/admin/apikeys/{id}" && r.value.segments == [("id", id)]
      && FullyBound(r.value) && Url(r.value) == "/api/admin/apikeys/" + id
  {
    WithSegment(Delete, [Lit("/api/admin/apikeys/"), Hole("id")], "id", Some(id), None, NoQuery)
  }

  /** DeleteWebhook: a DELETE of `/api/admin/webhooks/{id}`, `{id}` bound; an empty id is refused. */
  function DeleteWebhook(id: string): (r: Outcome<Endpoint<()>>)
    ensures id == "" ==> r == Failure(ArgumentNull("value"))
    ensures id != "" ==>
      r.Success?
      && r.value.verb == Delete && r.value.body.None? && r.value.query == NoQuery
      && Template(r.value) == "/api/admin/webhooks/{id}" && r.value.segments == [("id", id)]
      && FullyBound(r.value) && Url(r.value) == "/api/admin/webhooks/" + id
  {
    WithSegment(Delete, [Lit("/api/admin/webhooks/"), Hole("id")], "id", Some(id), None, NoQuery)
  }

  /** DeleteModel: a DELETE of `/api/content-types/models/{id}`, `{id}` bound; an empty id is refused. */
  function DeleteModel(id: string): (r: Outcome<Endpoint<()>>)
    ensures id == "" ==> r == Failure(ArgumentNull("value"))
    ensures id != "" ==>
      r.Success?
      && r.value.verb == Delete && r.value.body.None? && r.value.query == NoQuery
      && Template(r.value) == "/api/content-types/models/{id}" && r.value.segments == [("id", id)]
      && FullyBound(r.value) && Url(r.value) == "/api/content-types/models/" + id
  {
    WithSegment(Delete, [Lit("/api/content-types/models/"), Hole("id")], "id", Some(id), None, NoQuery)
  }

  /** DeleteComponent: a DELETE of `/api/content-types/components/{id}`, `{id}` bound; an empty id is refused. */
  function DeleteComponent(id: string): (r: Outcome<Endpoint<()>>)
    ensures id == "" ==> r == Failure(ArgumentNull("value"))
    ensures id != "" ==>
      r.Success?
      && r.value.verb == Delete && r.value.body.None? && r.value.query == NoQuery
      && Template(r.value) == "/api/content-types/components/{id}" && r.value.segments == [("id", id)]
      && FullyBound(r.value) && Url(r.value) == "/api/content-types/components/" + id
  {
    WithSegment(Delete, [Lit("/api/content-types/components/"), Hole("id")], "id", Some(id), None, NoQuery)
  }

  // ----- Reads ----------------------------------------------------------------

  /** GetAccount: a GET of `/api/admin/accounts/{id}`, `{id}` bound; an empty id is refused. */
  function GetAccount(id: string): (r: Outcome<Endpoint<()>>)
    ensures id == "" ==> r == Failure(ArgumentNull("value"))
    ensures id != "" ==>
      r.Success?
      && r.value.verb == Get && r.value.body.None? && r.value.query == NoQuery
      && Template(r.value) == "/api/admin/accounts/{id}" && r.value.segments == [("id", id)]
      && FullyBound(r.value) && Url(r.value) == "/api/admin/accounts/" + id
  {
    WithSegment(Get, [Lit("/api/admin/accounts/"), Hole("id")], "id", Some(id), None, NoQuery)
  }

  function GetAllAccountRoles(): (e: Endpoint<()>)
    ensures e.verb == Get && e.body.None? && e.query == NoQuery
    ensures FullyBound(e) && Url(e) == "/api/admin/roles"
  {
    Endpoint(Get, [Lit("/api/admin/roles")], [], None, NoQuery)
  }

  /** GetAccounts: a GET of `/api/admin/accounts` carrying the (possibly null) account query. */
  function GetAccounts(query: Option<AccountsQuery>): (e: Endpoint<()>)
    ensures e.verb == Get && e.body.None? && e.query == Accounts(query)
    ensures FullyBound(e) && Url(e) == "/api/admin/accounts"
  {
    Endpoint(Get, [Lit("/api/admin/accounts")], [], None, Accounts(query))
  }

  /** GetApiKey: a GET of `/api/admin/apikeys/{id}`, `{id}` bound; an empty id is refused. */
  function GetApiKey(id: string): (r: Outcome<Endpoint<()>>)
    ensures id == "" ==> r == Failure(ArgumentNull("value"))
    ensures id != "" ==>
      r.Success?
      && r.value.verb == Get && r.value.body.None? && r.value.query == NoQuery
      && Template(r.value) == "/api/admin/apikeys/{id}" && r.value.segments == [("id", id)]
      && FullyBound(r.value) && Url(r.value) == "/api/admin/apikeys/" + id
  {
    WithSegment(Get, [Lit("/api/admin/apikeys/"), Hole("id")], "id", Some(id), None, NoQuery)
  }

  function GetAllApiKeys(): (e: Endpoint<()>)
    ensures e.verb == Get && e.body.None? && e.query == NoQuery
    ensures FullyBound(e) && Url(e) == "/api/admin/apikeys"
  {
    Endpoint(Get, [Lit("/api/admin/apikeys")], [], None, NoQuery)
  }

  function GetSettings(): (e: Endpoint<()>)
    ensures e.verb == Get && e.body.None? && e.query == NoQuery
    ensures FullyBound(e) && Url(e) == "/api/admin/settings"
  {
    Endpoint(Get, [Lit("/api/admin/settings")], [], None, NoQuery)
  }

  /** GetWebhook: a GET of `/api/admin/webhooks/{id}`, `{id}` bound; an empty id is refused. */
  function GetWebhook(id: string): (r: Outcome<Endpoint<()>>)
    ensures id == "" ==> r == Failure(ArgumentNull("value"))
    ensures id != "" ==>
      r.Success?
      && r.value.verb == Get && r.value.body.None? && r.value.query == NoQuery
      && Template(r.value) == "/api/admin/webhooks/{id}" && r.value.segments == [("id", id)]
      && FullyBound(r.value) && Url(r.value) == "/api/admin/webhooks/" + id
  {
    WithSegment(Get, [Lit("/api/admin/webhooks/"), Hole("id")], "id", Some(id), None, NoQuery)
  }

  /** The list of webhooks (the method is spelled GetAllWebooks in the SDK). */
  function GetAllWebooks(): (e: Endpoint<()>)
    ensures e.verb == Get && e.body.None? && e.query == NoQuery
    ensures FullyBound(e) && Url(e) == "/api/admin/webhooks"
  {
    Endpoint(Get, [Lit("/api/admin/webhooks")], [], None, NoQuery)
  }

  /** Login: a POST of the credentials to `/api/admin/login`. */
  function Login(username: string, password: string): (e: Endpoint<Credentials>)
    ensures e.verb == Post && e.body == Some(Credentials(username, password)) && e.query == NoQuery
    ensures FullyBound(e) && Url(e) == "/api/admin/login"
  {
    Endpoint(Post, [Lit("/api/admin/login")], [], Some(Credentials(username, password)), NoQuery)
  }

  // ----- Updates: PUT of the entity with `{id}` bound to its own id ----------
  // Reading the id of a null entity raises NullReferenceException.

  function UpdateAccount(account: Option<Account>): (r: Outcome<Endpoint<Account>>)
    ensures account.None? ==> r == Failure(NullReference)
    ensures account.Some? && IsNullOrEmpty(account.value.id) ==> r == Failure(ArgumentNull("value"))
    ensures account.Some? && !IsNullOrEmpty(account.value.id) ==>
      r.Success?
      && r.value.verb == Put && r.value.body == account && r.value.query == NoQuery
      && Template(r.value) == "/api/admin/accounts/{id}" && r.value.segments == [("id", account.value.id.value)]
      && FullyBound(r.value) && Url(r.value) == "/api/admin/accounts/" + account.value.id.value
  {
    if account.None? then Failure(NullReference)
    else WithSegment(Put, [Lit("/api/admin/accounts/"), Hole("id")], "id", account.value.id, account, NoQuery)
  }

  function UpdateAccountRole(role: Option<AccountRole>): (r: Outcome<Endpoint<AccountRole>>)
    ensures role.None? ==> r == Failure(NullReference)
    ensures role.Some? && IsNullOrEmpty(role.value.id) ==> r == Failure(ArgumentNull("value"))
    ensures role.Some? && !IsNullOrEmpty(role.value.id) ==>
      r.Success?
      && r.value.verb == Put && r.value.body == role && r.value.query == NoQuery
      && Template(r.value) == "/api/admin/roles/{id}" && r.value.segments == [("id", role.value.id.value)]
      && FullyBound(r.value) && Url(r.value) == "/api/admin/roles/" + role.value.id.value
  {
    if role.None? then Failure(NullReference)
    else WithSegment(Put, [Lit("/api/admin/roles/"), Hole("id")], "id", role.value.id, role, NoQuery)
  }

  function UpdateApiKey(apiKey: Option<ApiKey>): (r: Outcome<Endpoint<ApiKey>>)
    ensures apiKey.None? ==> r == Failure(NullReference)
    ensures apiKey.Some? && IsNullOrEmpty(apiKey.value.id) ==> r == Failure(ArgumentNull("value"))
    ensures apiKey.Some? && !IsNullOrEmpty(apiKey.value.id) ==>
      r.Success?
      && r.value.verb == Put && r.value.body == apiKey && r.value.query == NoQuery
      && Template(r.value) == "/api/admin/apikeys/{id}" && r.value.segments == [("id", apiKey.value.id.value)]
      && FullyBound(r.value) && Url(r.value) == "/api/admin/apikeys/" + apiKey.value.id.value
  {
    if apiKey.None? then Failure(NullReference)
    else WithSegment(Put, [Lit("/api/admin/apikeys/"), Hole("id")], "id", apiKey.value.id, apiKey, NoQuery)
  }

  function UpdateWebhook(webhook: Option<Webhook>): (r: Outcome<Endpoint<Webhook>>)
    ensures webhook.None? ==> r == Failure(NullReference)
    ensures webhook.Some? && IsNullOrEmpty(webhook.value.id) ==> r == Failure(ArgumentNull("value"))
    ensures webhook.Some? && !IsNullOrEmpty(webhook.value.id) ==>
      r.Success?
      && r.value.verb == Put && r.value.body == webhook && r.value.query == NoQuery
      && Template(r.value) == "/api/admin/webhooks/{id}" && r.value.segments == [("id", webhook.value.id.value)]
      && FullyBound(r.value) && Url(r.value) == "/api/admin/webhooks/" + webhook.value.id.value
  {
    if webhook.None? then Failure(NullReference)
    else WithSegment(Put, [Lit("/api/admin/webhooks/"), Hole("id")], "id", webhook.value.id, webhook, NoQuery)
  }

  function UpdateModel(model: Option<Model>): (r: Outcome<Endpoint<Model>>)
    ensures model.None? ==> r == Failure(NullReference)
    ensures model.Some? && IsNullOrEmpty(model.value.id) ==> r == Failure(ArgumentNull("value"))
    ensures model.Some? && !IsNullOrEmpty(model.value.id) ==>
      r.Success?
      && r.value.verb == Put && r.value.body == model && r.value.query == NoQuery
      && Template(r.value) == "/api/content-types/models/{id}" && r.value.segments == [("id", model.value.id.value)]
      && FullyBound(r.value) && Url(r.value) == "/api/content-types/models/" + model.value.id.value
  {
    if model.None? then Failure(NullReference)
    else WithSegment(Put, [Lit("/api/content-types/models/"), Hole("id")], "id", model.value.id, model, NoQuery)
  }

  function UpdateComponent(component: Option<Component>): (r: Outcome<Endpoint<Component>>)
    ensures component.None? ==> r == Failure(NullReference)
    ensures component.Some? && IsNullOrEmpty(component.value.id) ==> r == Failure(ArgumentNull("value"))
    ensures component.Some? && !IsNullOrEmpty(component.value.id) ==>
      r.Success?
      && r.value.verb == Put && r.value.body == component && r.value.query == NoQuery
      && Template(r.value) == "/api/content-types/components/{id}" && r.value.segments == [("id", component.value.id.value)]
      && FullyBound(r.value) && Url(r.value) == "/api/content-types/components/" + component.value.id.value
  {
    if component.None? then Failure(NullReference)
    else WithSegment(Put, [Lit("/api/content-types/components/"), Hole("id")], "id", component.value.id, component, NoQuery)
  }
}
