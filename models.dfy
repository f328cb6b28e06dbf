/**
 * The records the endpoints send and receive, and the two implicit
 * conversions from the dictionary-attributed user records to their generic
 * forms. A .NET reference that may be null is an Option.
 */
module Models {

  import opened Wrappers

  /** A point in time, kept abstract as its tick count. */
  datatype DateTime = DateTime(ticks: int)

  /** A `Dictionary<string, object>` of custom attributes, values kept abstract as text. */
  datatype Dictionary = Dictionary(entries: map<string, string>)

  /** `User`: the common user fields with dictionary attributes. */
  datatype User = User(
    id: Option<string>,
    createdAt: Option<DateTime>,
    createdBy: Option<string>,
    modifiedAt: Option<DateTime>,
    modifiedBy: Option<string>,
    firstName: Option<string>,
    lastName: Option<string>,
    username: Option<string>,
    email: Option<string>,
    mobilePhone: Option<string>,
    roles: Option<seq<string>>,
    isActive: bool,
    attributes: Option<Dictionary>)

  /** `User<T>`: the same fields with attributes of any type. */
  datatype TypedUser<A> = TypedUser(
    id: Option<string>,
    createdAt: Option<DateTime>,
    createdBy: Option<string>,
    modifiedAt: Option<DateTime>,
    modifiedBy: Option<string>,
    firstName: Option<string>,
    lastName: Option<string>,
    username: Option<string>,
    email: Option<string>,
    mobilePhone: Option<string>,
    roles: Option<seq<string>>,
    isActive: bool,
    attributes: Option<A>)

  /** `RegisterUser`: the user fields, a password and dictionary attributes. */
  datatype RegisterUser = RegisterUser(
    id: Option<string>,
    createdAt: Option<DateTime>,
    createdBy: Option<string>,
    modifiedAt: Option<DateTime>,
    modifiedBy: Option<string>,
    firstName: Option<string>,
    lastName: Option<string>,
    username: Option<string>,
    email: Option<string>,
    mobilePhone: Option<string>,
    roles: Option<seq<string>>,
    isActive: bool,
    password: Option<string>,
    attributes: Option<Dictionary>)

  /** `RegisterUser<T>`. */
  datatype TypedRegisterUser<A> = TypedRegisterUser(
    id: Option<string>,
    createdAt: Option<DateTime>,
    createdBy: Option<string>,
    modifiedAt: Option<DateTime>,
    modifiedBy: Option<string>,
    firstName: Option<string>,
    lastName: Option<string>,
    username: Option<string>,
    email: Option<string>,
    mobilePhone: Option<string>,
    roles: Option<seq<string>>,
    isActive: bool,
    password: Option<string>,
    attributes: Option<A>)

  /** The implicit conversion `User` to `User<Dictionary>`: a copy of all thirteen fields. */
  function UserToTyped(source: User): (r: TypedUser<Dictionary>)
    ensures r.id == source.id && r.createdAt == source.createdAt && r.createdBy == source.createdBy
    ensures r.modifiedAt == source.modifiedAt && r.modifiedBy == source.modifiedBy
    ensures r.attributes == source.attributes && r.roles == source.roles
  {
    TypedUser(
      id := source.id,
      createdAt := source.createdAt,
      createdBy := source.createdBy,
      modifiedAt := source.modifiedAt,
      modifiedBy := source.modifiedBy,
      firstName := source.firstName,
      lastName := source.lastName,
      username := source.username,
      email := source.email,
      mobilePhone := source.mobilePhone,
      roles := source.roles,
      isActive := source.isActive,
      attributes := source.attributes)
  }

  /** Reading a `User<Dictionary>` back as a `User`: the reference inverse of the conversion. */
  function UserFromTyped(u: TypedUser<Dictionary>): User
  {
    User(u.id, u.createdAt, u.createdBy, u.modifiedAt, u.modifiedBy, u.firstName, u.lastName,
         u.username, u.email, u.mobilePhone, u.roles, u.isActive, u.attributes)
  }

  /** The user conversion loses nothing and invents nothing: it is a bijection. */
  lemma UserConversionBijective(source: User, typed: TypedUser<Dictionary>)
    ensures UserFromTyped(UserToTyped(source)) == source
    ensures UserToTyped(UserFromTyped(typed)) == typed
  {
  }

  /**
   * The implicit conversion `RegisterUser` to `RegisterUser<Dictionary>`:
   * copies the profile fields, the password and the attributes, and leaves
   * the id and the four audit fields null.
   */
  function RegisterUserToTyped(source: RegisterUser): (r: TypedRegisterUser<Dictionary>)
    ensures r.id.None? && r.createdAt.None? && r.createdBy.None? && r.modifiedAt.None? && r.modifiedBy.None?
    ensures r.password == source.password && r.attributes == source.attributes && r.roles == source.roles
  {
    TypedRegisterUser(
      id := None,
      createdAt := None,
      createdBy := None,
      modifiedAt := None,
      modifiedBy := None,
      firstName := source.firstName,
      lastName := source.lastName,
      username := source.username,
      email := source.email,
      mobilePhone := source.mobilePhone,
      roles := source.roles,
      isActive := source.isActive,
      password := source.password,
      attributes := source.attributes)
  }

  /** A registration with the id and the audit fields cleared. */
  function WithoutAudit(u: RegisterUser): RegisterUser
  {
    u.(id := None, createdAt := None, createdBy := None, modifiedAt := None, modifiedBy := None)
  }

  function RegisterUserFromTyped(u: TypedRegisterUser<Dictionary>): RegisterUser
  {
    RegisterUser(u.id, u.createdAt, u.createdBy, u.modifiedAt, u.modifiedBy, u.firstName, u.lastName,
                 u.username, u.email, u.mobilePhone, u.roles, u.isActive, u.password, u.attributes)
  }

  /**
   * Reading the converted registration back gives the source with its id and
   * audit fields cleared, so two registrations convert alike exactly when they
   * differ at most in those five fields.
   */
  lemma RegisterUserConversionDropsAudit(a: RegisterUser, b: RegisterUser)
    ensures RegisterUserFromTyped(RegisterUserToTyped(a)) == WithoutAudit(a)
    ensures RegisterUserToTyped(a) == RegisterUserToTyped(b) <==> WithoutAudit(a) == WithoutAudit(b)
  {
    if RegisterUserToTyped(a) == RegisterUserToTyped(b) {
      assert RegisterUserFromTyped(RegisterUserToTyped(a)) == RegisterUserFromTyped(RegisterUserToTyped(b));
    }
  }

  /** The registration conversion ignores the id: two registrations differing only in it convert alike. */
  lemma RegisterUserConversionLosesId(a: RegisterUser, id: Option<string>)
    ensures RegisterUserToTyped(a.(id := id)) == RegisterUserToTyped(a)
  {
  }

  // ----- Records sent by the management endpoints ---------------------------

  datatype Role = Role(id: Option<string>, name: Option<string>, system: bool, permissions: seq<string>)

  datatype Account = Account(
    id: Option<string>,
    firstName: Option<string>,
    lastName: Option<string>,
    username: Option<string>,
    isActive: bool,
    roles: Option<seq<string>>,
    createdAt: DateTime,
    createdBy: Option<string>,
    modifiedAt: DateTime,
    modifiedBy: Option<string>)

  /** An account role: only the fields the endpoints read. */
  datatype AccountRole = AccountRole(id: Option<string>, name: Option<string>, permissions: Option<seq<string>>)

  datatype ApiKey = ApiKey(
    id: Option<string>,
    name: Option<string>,
    isActive: bool,
    key: Option<string>,
    validFrom: Option<DateTime>,
    validTo: Option<DateTime>,
    permissions: seq<string>)

  datatype Webhook = Webhook(
    id: Option<string>,
    name: Option<string>,
    url: Option<string>,
    enabled: bool,
    includePayload: bool,
    entityType: Option<string>,
    events: Option<seq<string>>,
    entityTypeIds: seq<string>)

  /** A content model; its attribute schema is kept abstract. */
  datatype Model = Model(id: Option<string>, name: Option<string>, key: Option<string>, description: Option<string>)

  /** A component; its attribute schema is kept abstract. */
  datatype Component = Component(id: Option<string>, name: Option<string>, key: Option<string>, description: Option<string>)

  /** The decoded answer of a create call: the new entity's id. */
  datatype KeyResult = KeyResult(result: Option<string>)

  datatype AuthTokenType = UserToken | AccountToken

  datatype AuthToken = AuthToken(
    id: Option<string>,
    accessToken: Option<string>,
    expires: int,
    tokenType: Option<string>,
    authType: AuthTokenType)
}
