/**
 * The account rules of the serializers: what registration checks before it
 * inserts a user and which fields the new user gets, and the login validator's
 * three-way decision (missing fields, bad credentials, disabled account).
 */
module Accounts {
  import opened Wrappers
  import opened Models

  /** A user row: the fields of the stock user model that the shop reads, plus `phone`. */
  datatype User = User(
    id: UserId,
    username: string,
    email: string,
    firstName: string,
    lastName: string,
    phone: Option<string>,
    password: string,
    isActive: bool,
    isStaff: bool)

  /** The validated registration payload; a `None` field is a key absent from it. */
  datatype RegisterData = RegisterData(
    email: Option<string>,
    password: Option<string>,
    firstName: Option<string>,
    lastName: Option<string>,
    phone: Option<string>,
    isActive: Option<bool>)

  /**
   * Why registration fails: a key the code indexes directly is absent (a
   * `KeyError`), the email is already registered (the validation error), the
   * username passed to user creation is empty (its `ValueError`), or the unique
   * username column already holds the email (the database's integrity error).
   */
  datatype RegisterError = MissingKey(key: string) | EmailExists | UsernameNotSet | UsernameExists

  const EmailExistsMessage: string := "User with this email already exists."
  const UsernameNotSetMessage: string := "The given username must be set"

  /**
   * The message a refused registration is raised with: the duplicate email is a
   * validation error, reported under the field "email"; an empty username is
   * refused by user creation; a missing key and the unique-username violation
   * carry no message of the shop's own.
   */
  function RegisterErrorMessage(e: RegisterError): (m: Option<string>)
    ensures m.Some? <==> e == EmailExists || e == UsernameNotSet
    ensures e == EmailExists ==> m == Some(EmailExistsMessage)
    ensures e == UsernameNotSet ==> m == Some(UsernameNotSetMessage)
  {
    match e
    case EmailExists => Some(EmailExistsMessage)
    case UsernameNotSet => Some(UsernameNotSetMessage)
    case _ => None
  }

  /** Some stored user has this email. */
  predicate EmailTaken(users: map<UserId, User>, email: string)
  {
    exists id :: id in users && users[id].email == email
  }

  /** Some stored user has this username. */
  predicate UsernameTaken(users: map<UserId, User>, username: string)
  {
    exists id :: id in users && users[id].username == username
  }

  /**
   * The checks registration makes before it inserts, in the order the code makes
   * them: the email key is read, the email is looked up, the password key is
   * read, user creation refuses an empty username (the username is the email),
   * and the insert then meets the unique username constraint.
   * `None` means the insert goes through.
   */
  function CheckRegistration(users: map<UserId, User>, data: RegisterData): (r: Option<RegisterError>)
    ensures r.None? <==>
      data.email.Some? && data.password.Some? && data.email.value != ""
      && !EmailTaken(users, data.email.value) && !UsernameTaken(users, data.email.value)
    ensures r == Some(MissingKey("email")) <==> data.email.None?
    ensures r == Some(EmailExists) <==> data.email.Some? && EmailTaken(users, data.email.value)
    ensures r == Some(MissingKey("password")) <==>
      data.email.Some? && !EmailTaken(users, data.email.value) && data.password.None?
    ensures r == Some(UsernameNotSet) <==>
      data.email.Some? && !EmailTaken(users, data.email.value) && data.password.Some?
      && data.email.value == ""
    ensures r == Some(UsernameExists) <==>
      data.email.Some? && !EmailTaken(users, data.email.value) && data.password.Some?
      && data.email.value != "" && UsernameTaken(users, data.email.value)
  {
    if data.email.None? then Some(MissingKey("email"))
    else if EmailTaken(users, data.email.value) then Some(EmailExists)
    else if data.password.None? then Some(MissingKey("password"))
    else if data.email.value == "" then Some(UsernameNotSet)
    else if UsernameTaken(users, data.email.value) then Some(UsernameExists)
    else None
  }

  /**
   * The user that registration inserts under `id`: username and email are both
   * the supplied email; first and last name default to "", phone to none and
   * the active flag to true; the account is not staff.
   */
  function NewUser(id: UserId, data: RegisterData): (u: User)
    requires data.email.Some? && data.password.Some?
    ensures u.id == id && u.username == data.email.value && u.email == data.email.value
    ensures u.password == data.password.value && u.phone == data.phone && !u.isStaff
    ensures data.firstName.None? ==> u.firstName == ""
    ensures data.firstName.Some? ==> u.firstName == data.firstName.value
    ensures data.lastName.None? ==> u.lastName == ""
    ensures data.lastName.Some? ==> u.lastName == data.lastName.value
    ensures data.isActive.None? ==> u.isActive
    ensures data.isActive.Some? ==> u.isActive == data.isActive.value
  {
    User(
      id := id,
      username := data.email.value,
      email := data.email.value,
      firstName := match data.firstName case Some(s) => s case None => "",
      lastName := match data.lastName case Some(s) => s case None => "",
      phone := data.phone,
      password := data.password.value,
      isActive := match data.isActive case Some(b) => b case None => true,
      isStaff := false)
  }

  /** A value of the login data dictionary: a submitted string, or the user the validator adds. */
  datatype Field = Text(text: string) | Account(user: User)

  type LoginData = map<string, Field>

  /** Dictionary `get`: the value under `key`, or none. */
  function Get(data: LoginData, key: string): Option<Field>
  {
    if key in data then Some(data[key]) else None
  }

  /** Python truthiness of a looked-up value: absent and "" are false; a user object is true. */
  predicate Truthy(v: Option<Field>)
  {
    match v
    case None => false
    case Some(Text(s)) => s != ""
    case Some(Account(_)) => true
  }

  /** Both the email and the password were submitted and are non-empty. */
  predicate HasCredentials(data: LoginData)
  {
    Truthy(Get(data, "email")) && Truthy(Get(data, "password"))
  }

  /** The credential check the framework provides: username and password to a user, or none. */
  type Authenticator = (Field, Field) -> Option<User>

  datatype LoginError = MissingCredentials | InvalidCredentials | AccountDisabled

  /** The message each login failure is raised with; no two failures share one. */
  function LoginErrorMessage(e: LoginError): (m: string)
    ensures m != ""
    ensures e == MissingCredentials <==> m == "Must include both email and password."
    ensures e == InvalidCredentials <==> m == "Invalid credentials."
    ensures e == AccountDisabled <==> m == "User account is disabled."
  {
    match e
    case MissingCredentials => "Must include both email and password."
    case InvalidCredentials => "Invalid credentials."
    case AccountDisabled => "User account is disabled."
  }

  /** The validated data, and the user it now carries under the key "user". */
  datatype Validated = Validated(data: LoginData, user: User)

  /**
   * The login validator. Missing credentials are reported first and without
   * consulting `authenticate`; then an unknown user or wrong password; then a
   * disabled account. On success the data comes back with only the key "user"
   * added (or replaced), bound to the authenticated user.
   */
  function ValidateLogin(data: LoginData, authenticate: Authenticator): (r: Result<Validated, LoginError>)
    ensures r == Err(MissingCredentials) <==> !HasCredentials(data)
    ensures r == Err(InvalidCredentials) <==>
      HasCredentials(data) && authenticate(data["email"], data["password"]).None?
    ensures r == Err(AccountDisabled) <==>
      HasCredentials(data) && authenticate(data["email"], data["password"]).Some?
      && !authenticate(data["email"], data["password"]).value.isActive
    ensures r.Ok? <==>
      HasCredentials(data) && authenticate(data["email"], data["password"]).Some?
      && authenticate(data["email"], data["password"]).value.isActive
    ensures r.Ok? ==>
      r.value.user == authenticate(data["email"], data["password"]).value
      && r.value.data == data["user" := Account(r.value.user)]
      && r.value.data.Keys == data.Keys + {"user"}
      && forall k :: k in data && k != "user" ==> r.value.data[k] == data[k]
  {
    if HasCredentials(data) then
      match authenticate(data["email"], data["password"])
      case Some(user) =>
        // a user object is always truthy in the source
        if !user.isActive then Err(AccountDisabled)
        else Ok(Validated(data["user" := Account(user)], user))
      case None => Err(InvalidCredentials)
    else
      Err(MissingCredentials)
  }

  /** With a credential missing, the outcome does not depend on `authenticate` at all. */
  lemma MissingCredentialsIgnoreAuthenticate(data: LoginData, a1: Authenticator, a2: Authenticator)
    requires !HasCredentials(data)
    ensures ValidateLogin(data, a1) == ValidateLogin(data, a2) == Err(MissingCredentials)
  {
  }
}
