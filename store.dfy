/**
 * The user and cart tables as one in-memory store, with the two operations
 * that write them: registration, which inserts a user and then runs the
 * post-save hook, and the hook itself, which makes sure the saved user has a cart.
 */
module Store {
  import opened Wrappers
  import opened Models
  import opened Accounts

  /**
   * The cart table after the post-save hook has run for `user`: the hook's
   * guard (`created`, or no cart yet) and then get-or-create keyed by the owner.
   * `freshId` is the identifier a newly created cart receives.
   */
  function EnsureCart(carts: map<UserId, Cart>, user: UserId, created: bool, freshId: CartId): (r: map<UserId, Cart>)
    ensures r.Keys == carts.Keys + {user}
    ensures forall u :: u in carts ==> r[u] == carts[u]
    ensures user !in carts ==> r[user] == Cart(freshId, user)
  {
    if created || user !in carts then
      if user in carts then carts else carts[user := Cart(freshId, user)]
    else
      carts
  }

  /** Running the hook again for the same user changes nothing, whatever `created` says. */
  lemma EnsureCartIdempotent(carts: map<UserId, Cart>, user: UserId, c1: bool, c2: bool, id1: CartId, id2: CartId)
    ensures EnsureCart(EnsureCart(carts, user, c1, id1), user, c2, id2) == EnsureCart(carts, user, c1, id1)
  {
  }

  /** The `created` flag never decides the outcome: with or without it, at most one cart results. */
  lemma EnsureCartIgnoresCreated(carts: map<UserId, Cart>, user: UserId, freshId: CartId)
    ensures EnsureCart(carts, user, true, freshId) == EnsureCart(carts, user, false, freshId)
  {
  }

  class Shop {
    var users: map<UserId, User>
    var carts: map<UserId, Cart>
    /** The identifier the next inserted user receives (the auto-increment key). */
    var nextUserId: nat
    /** The identifier the next created cart receives, standing for a fresh UUID. */
    var nextCartId: nat

    /**
     * The tables' constraints: users are stored under their own id; every cart
     * belongs to a stored user and is stored under its owner (so a user has at
     * most one cart); no two carts share an id; every id in use was issued.
     */
    ghost predicate Valid()
      reads this
    {
      && (forall id :: id in users ==> users[id].id == id && id < nextUserId)
      && (forall u :: u in carts ==> u in users && carts[u].user == u && carts[u].id < nextCartId)
      && (forall u, v :: u in carts && v in carts && u != v ==> carts[u].id != carts[v].id)
    }

    /** Every stored user has a cart. */
    ghost predicate EveryUserHasCart()
      reads this
    {
      forall id :: id in users ==> id in carts
    }

    constructor ()
      ensures Valid() && EveryUserHasCart()
      ensures users == map[] && carts == map[]
    {
      users, carts := map[], map[];
      nextUserId, nextCartId := 0, 0;
    }

    /** `create_user_cart`: the post-save hook for a saved user. */
    method CreateUserCart(user: UserId, created: bool)
      requires Valid() && user in users
      modifies this
      ensures Valid()
      ensures carts == EnsureCart(old(carts), user, created, old(nextCartId))
      ensures nextCartId == if user in old(carts) then old(nextCartId) else old(nextCartId) + 1
      ensures users == old(users) && nextUserId == old(nextUserId)
    {
      if created || user !in carts {
        // get-or-create on the cart table, keyed by the owner
        if user !in carts {
          carts := carts[user := Cart(nextCartId, user)];
          nextCartId := nextCartId + 1;
        }
      }
    }

    /**
     * `UserRegisterSerializer.create`: refuse as `CheckRegistration` says, leaving
     * both tables as they were; otherwise insert exactly one user built by
     * `NewUser` under a fresh id, then run the post-save hook with `created` set.
     */
    method Register(data: RegisterData) returns (r: Result<User, RegisterError>)
      requires Valid() && EveryUserHasCart()
      modifies this
      ensures Valid() && EveryUserHasCart()
      ensures r.Err? <==> CheckRegistration(old(users), data).Some?
      ensures r.Err? ==>
        r.error == CheckRegistration(old(users), data).value
        && users == old(users) && carts == old(carts)
        && nextUserId == old(nextUserId) && nextCartId == old(nextCartId)
      ensures r.Ok? ==>
        && r.value == NewUser(old(nextUserId), data)
        && r.value.username != ""
        && r.value.id !in old(users)
        && users == old(users)[r.value.id := r.value]
        && |users| == |old(users)| + 1
        && carts == old(carts)[r.value.id := Cart(old(nextCartId), r.value.id)]
    {
      var refused := CheckRegistration(users, data);
      if refused.Some? {
        return Err(refused.value);
      }
      var user := NewUser(nextUserId, data);
      assert user.id !in users;
      users := users[user.id := user];
      nextUserId := nextUserId + 1;
      CreateUserCart(user.id, true);
      r := Ok(user);
    }
  }
}
