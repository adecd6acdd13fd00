/**
 * The views' decisions: which permission each catalogue action needs, which
 * user the profile view works on, and how the login endpoint composes the
 * validator with token issuance.
 */
module Views {
  import opened Wrappers
  import opened Models
  import opened Accounts

  /** The two permission classes the views choose between. */
  datatype Permission = IsAdminUser | IsAuthenticated

  /** The viewset actions that change the catalogue. */
  const AdminActions: seq<string> := ["create", "update", "partial_update", "destroy"]

  /** `CategoryViewSet.get_permissions`: one permission, chosen by the action name. */
  function CategoryPermissions(action: string): (perms: seq<Permission>)
    ensures |perms| == 1
    ensures perms[0] == IsAdminUser <==> action in AdminActions
    ensures perms[0] == IsAuthenticated <==> action !in AdminActions
  {
    var classes := if action in AdminActions then [IsAdminUser] else [IsAuthenticated];
    seq(|classes|, i requires 0 <= i < |classes| => classes[i])
  }

  /** `ProductViewSet.get_permissions`, written out separately as the source does. */
  function ProductPermissions(action: string): (perms: seq<Permission>)
    ensures |perms| == 1
    ensures perms[0] == IsAdminUser <==> action in AdminActions
    ensures perms[0] == IsAuthenticated <==> action !in AdminActions
  {
    var classes := if action in AdminActions then [IsAdminUser] else [IsAuthenticated];
    seq(|classes|, i requires 0 <= i < |classes| => classes[i])
  }

  /** Products and categories follow one and the same access policy. */
  lemma ProductPolicyIsCategoryPolicy(action: string)
    ensures ProductPermissions(action) == CategoryPermissions(action)
  {
  }

  /**
   * Whether a permission lets a request through; `requester` is the request's
   * user, none for an anonymous request. Admin means a staff account.
   */
  predicate Grants(p: Permission, requester: Option<User>)
  {
    match p
    case IsAdminUser => requester.Some? && requester.value.isStaff
    case IsAuthenticated => requester.Some?
  }

  /** A request is let through when every permission in the list grants it. */
  predicate Allowed(perms: seq<Permission>, requester: Option<User>)
  {
    forall i :: 0 <= i < |perms| ==> Grants(perms[i], requester)
  }

  /**
   * Who may perform a catalogue action: for create, update, partial_update and
   * destroy only a staff account; for every other action (list, retrieve, ...)
   * any signed-in user; never an anonymous request.
   */
  lemma CatalogueAccess(action: string, requester: Option<User>)
    ensures Allowed(CategoryPermissions(action), requester) <==>
      requester.Some? && (action in AdminActions ==> requester.value.isStaff)
    ensures Allowed(ProductPermissions(action), requester) <==>
      requester.Some? && (action in AdminActions ==> requester.value.isStaff)
  {
  }

  /** The permission classes of the profile view. */
  const UserViewPermissions: seq<Permission> := [IsAuthenticated]

  datatype AccessError = NotAuthenticated

  /**
   * The object the profile view retrieves or updates: after the permission
   * check, always the requesting user and never anyone else.
   */
  function UserViewObject(requester: Option<User>): (r: Result<User, AccessError>)
    ensures r.Ok? <==> requester.Some?
    ensures r.Ok? ==> r.value == requester.value
    ensures r.Err? ==> r.error == NotAuthenticated
  {
    if Allowed(UserViewPermissions, requester) then
      assert Grants(UserViewPermissions[0], requester);
      Ok(requester.value)
    else
      Err(NotAuthenticated)
  }

  /** The refresh and access tokens issued for a user. */
  datatype TokenPair = TokenPair(refresh: string, access: string)

  /** The fields of a user that the user serializer exposes (the password is not among them). */
  datatype UserProfile = UserProfile(
    id: UserId,
    username: string,
    firstName: string,
    lastName: string,
    email: string,
    isActive: bool,
    phone: Option<string>)

  function Profile(u: User): UserProfile
  {
    UserProfile(u.id, u.username, u.firstName, u.lastName, u.email, u.isActive, u.phone)
  }

  datatype LoginResponse = LoginResponse(status: nat, refresh: string, access: string, user: UserProfile)

  const HttpOk: nat := 200

  /**
   * `UserLoginView.post`: validate first, raising on failure; only then issue the
   * tokens for the validated user and answer with them and the user's profile.
   */
  function LoginPost(data: LoginData, authenticate: Authenticator, issue: User -> TokenPair): (r: Result<LoginResponse, LoginError>)
    ensures r.Err? <==> ValidateLogin(data, authenticate).Err?
    ensures r.Err? ==> r.error == ValidateLogin(data, authenticate).error
    ensures r.Ok? ==>
      var u := ValidateLogin(data, authenticate).value.user;
      u.isActive && r.value == LoginResponse(HttpOk, issue(u).refresh, issue(u).access, Profile(u))
  {
    match ValidateLogin(data, authenticate)
    case Err(e) => Err(e)
    case Ok(validated) =>
      var user := validated.data["user"].user;
      var tokens := issue(user);
      Ok(LoginResponse(HttpOk, tokens.refresh, tokens.access, Profile(user)))
  }

  /** Rejected login input raises before any token is issued: the outcome does not depend on `issue`. */
  lemma NoTokensForRejectedLogin(data: LoginData, authenticate: Authenticator, i1: User -> TokenPair, i2: User -> TokenPair)
    requires ValidateLogin(data, authenticate).Err?
    ensures LoginPost(data, authenticate, i1) == LoginPost(data, authenticate, i2)
  {
  }
}
