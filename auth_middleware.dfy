/**
 * The request guards that decide whether a caller may proceed, and which
 * error is raised first. Token decoding, the user lookup by email and the
 * bcrypt check are parameters.
 */
module AuthMiddleware {
  import opened Wrappers
  import opened Schemas
  import opened Errors
  import UserTable

  /** The claims of a decoded access token; `tokenType` is absent when the token has no `type` claim. */
  datatype TokenData = TokenData(email: string, id: string, tokenType: Option<string>)

  /** The storage's lookup of a user record by email. */
  type UserLookup = string -> Option<User>

  /** bcrypt's check of a plaintext password against a stored digest, as (digest, plaintext). */
  type HashVerify = (string, string) -> bool

  const AdminRoleNames: seq<string> := ["admin", "super_admin"]

  /**
   * `authenticate_user`: an unknown email is 404 "User not found"; a password
   * that does not verify against the stored digest is the 401 credentials
   * error; otherwise the stored user itself.
   */
  function AuthenticateUser(lookup: UserLookup, hashVerify: HashVerify, email: string, password: string)
    : (r: Result<User, Error>)
    ensures lookup(email).None? ==> r == Failure(UserNotFound)
    ensures lookup(email).Some? && !hashVerify(lookup(email).value.password, password) ==>
              r == Failure(CredentialsException)
    ensures r.Success? <==> lookup(email).Some? && hashVerify(lookup(email).value.password, password)
    ensures r.Success? ==> r.value == lookup(email).value
  {
    match lookup(email)
    case None => Failure(UserNotFound)
    case Some(user) =>
      if !hashVerify(user.password, password) then Failure(CredentialsException) else Success(user)
  }

  /**
   * `get_current_user`: a token that failed to decode keeps its error; a
   * token whose type is not "bearer" is 400 whatever the store holds; an
   * email with no user is the 401 credentials error.
   */
  function GetCurrentUser(decoded: Result<TokenData, Error>, lookup: UserLookup): (r: Result<User, Error>)
    ensures decoded.Failure? ==> r == Failure(decoded.error)
    ensures decoded.Success? && decoded.value.tokenType != Some("bearer") ==> r == Failure(InvalidTokenType)
    ensures decoded.Success? && decoded.value.tokenType == Some("bearer") && lookup(decoded.value.email).None? ==>
              r == Failure(CredentialsException)
    ensures r.Success? <==>
              decoded.Success? && decoded.value.tokenType == Some("bearer") && lookup(decoded.value.email).Some?
    ensures r.Success? ==> r.value == lookup(decoded.value.email).value
  {
    match decoded
    case Failure(e) => Failure(e)
    case Success(tokenData) =>
      if tokenData.tokenType != Some("bearer") then
        Failure(InvalidTokenType)
      else
        match lookup(tokenData.email)
        case None => Failure(CredentialsException)
        case Some(user) => Success(user)
  }

  /**
   * `get_current_active_user`, applied to the current user: an unverified
   * account is refused before a disabled one; an admitted user is returned
   * unchanged.
   */
  function GetCurrentActiveUser(user: User): (r: Result<User, Error>)
    ensures !user.verified ==> r == Failure(AccountNotActivated)
    ensures user.verified && user.status == Disabled ==> r == Failure(AccountDisabled)
    ensures r.Success? <==> user.verified && user.status != Disabled
    ensures r.Success? ==> r.value == user
  {
    if !user.verified then Failure(AccountNotActivated)
    else if user.status == Disabled then Failure(AccountDisabled)
    else Success(user)
  }

  /** `get_current_admin_user`, applied to an active user: its role must be "admin" or "super_admin". */
  function GetCurrentAdminUser(user: User): (r: Result<User, Error>)
    ensures r.Success? <==> RoleName(user.role) in AdminRoleNames
    ensures r.Success? ==> r.value == user
    ensures r.Failure? ==> r.error == UnauthorizedAction
  {
    if RoleName(user.role) !in AdminRoleNames then Failure(UnauthorizedAction) else Success(user)
  }

  /** The dependency chain of a route that asks for the active user. */
  function ActiveUserDependency(decoded: Result<TokenData, Error>, lookup: UserLookup): (r: Result<User, Error>)
    ensures GetCurrentUser(decoded, lookup).Failure? ==> r == GetCurrentUser(decoded, lookup)
    ensures GetCurrentUser(decoded, lookup).Success? ==> r == GetCurrentActiveUser(GetCurrentUser(decoded, lookup).value)
  {
    match GetCurrentUser(decoded, lookup)
    case Failure(e) => Failure(e)
    case Success(user) => GetCurrentActiveUser(user)
  }

  /**
   * The dependency chain of a route that asks for the admin user: the role
   * is checked only once the active-user checks have passed.
   */
  function AdminUserDependency(decoded: Result<TokenData, Error>, lookup: UserLookup): (r: Result<User, Error>)
    ensures ActiveUserDependency(decoded, lookup).Failure? ==> r == ActiveUserDependency(decoded, lookup)
    ensures ActiveUserDependency(decoded, lookup).Success? ==>
              r == GetCurrentAdminUser(ActiveUserDependency(decoded, lookup).value)
    ensures r.Success? <==> ActiveUserDependency(decoded, lookup).Success?
                            && ActiveUserDependency(decoded, lookup).value.role == AdminRole
  {
    match ActiveUserDependency(decoded, lookup)
    case Failure(e) => Failure(e)
    case Success(user) => GetCurrentAdminUser(user)
  }

  /** A guard built once with the roles it lets through. */
  datatype RoleBasedAccessControl = RoleBasedAccessControl(allowedRoles: seq<string>)
  {
    /** The guard applied to an active user: it passes exactly the configured roles. */
    function Call(currentUser: User): (r: Outcome<Error>)
      ensures r.Pass? <==> RoleName(currentUser.role) in allowedRoles
      ensures r.Fail? ==> r.error == RoleNotPermitted
    {
      if RoleName(currentUser.role) !in allowedRoles then Fail(RoleNotPermitted) else Pass
    }

    /** The guard's dependency chain: the active-user checks, then the role. */
    function Guard(decoded: Result<TokenData, Error>, lookup: UserLookup): (r: Outcome<Error>)
      ensures ActiveUserDependency(decoded, lookup).Failure? ==> r == Fail(ActiveUserDependency(decoded, lookup).error)
      ensures ActiveUserDependency(decoded, lookup).Success? ==>
                r == Call(ActiveUserDependency(decoded, lookup).value)
      ensures r.Pass? <==> ActiveUserDependency(decoded, lookup).Success?
                           && RoleName(ActiveUserDependency(decoded, lookup).value.role) in allowedRoles
    {
      match ActiveUserDependency(decoded, lookup)
      case Failure(e) => Fail(e)
      case Success(user) => Call(user)
    }
  }

  /**
   * The admin chain and a role guard configured with "admin" and
   * "super_admin" admit the same requests.
   */
  lemma AdminChainAgreesWithRoleGuard(decoded: Result<TokenData, Error>, lookup: UserLookup)
    ensures AdminUserDependency(decoded, lookup).Success? <==>
            RoleBasedAccessControl(AdminRoleNames).Guard(decoded, lookup).Pass?
  {
  }

  /** A lookup that answers from a table: the record with that email, or none when no record has it. */
  ghost predicate LookupFrom(lookup: UserLookup, t: UserTable.Table)
  {
    forall email ::
      && (lookup(email).None? <==> !UserTable.EmailTaken(t, email))
      && (lookup(email).Some? ==>
            lookup(email).value.id in t && t[lookup(email).value.id] == lookup(email).value
            && lookup(email).value.email == email)
  }

  /**
   * After a successful registration, logging in with the same email and the
   * plaintext password yields the new record, provided bcrypt accepts the
   * plaintext against its own digest.
   */
  lemma LoginAfterRegister(t: UserTable.Table, data: UserIn, role: Role, signInType: SignInType, verified: bool,
                           now: Timestamp, hash: string -> string, newId: ObjectId,
                           lookup: UserLookup, hashVerify: HashVerify)
    requires UserTable.Valid(t)
    requires UserTable.CreateUser(t, data, role, signInType, verified, now, hash, newId).0.Success?
    requires LookupFrom(lookup, UserTable.CreateUser(t, data, role, signInType, verified, now, hash, newId).1)
    requires hashVerify(hash(data.password), data.password)
    ensures var t' := UserTable.CreateUser(t, data, role, signInType, verified, now, hash, newId).1;
      AuthenticateUser(lookup, hashVerify, data.email, data.password) == Success(t'[newId])
  {
    var t' := UserTable.CreateUser(t, data, role, signInType, verified, now, hash, newId).1;
    assert t'[newId].email == data.email;
    var found := lookup(data.email);
    assert found.Some?;
    assert found.value.id == newId by {
      assert UserTable.UniqueEmails(t');
    }
  }

  /** A freshly created record passes the active-user check exactly when it was created verified. */
  lemma CreatedUserActiveIffVerified(t: UserTable.Table, data: UserIn, role: Role, signInType: SignInType,
                                     verified: bool, now: Timestamp, hash: string -> string, newId: ObjectId)
    requires UserTable.CreateUser(t, data, role, signInType, verified, now, hash, newId).0.Success?
    ensures var t' := UserTable.CreateUser(t, data, role, signInType, verified, now, hash, newId).1;
      GetCurrentActiveUser(t'[newId]).Success? <==> verified
  {
  }
}
