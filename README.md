# Shop accounts, carts and access rules, modelled in Dafny

This project models the rules of a small e-commerce backend (a REST API over
users, categories, products, carts, cart items and orders):

- **Pricing** (`models.dfy`, module `Models`). A cart item's line total is its
  product's price times its quantity. A cart's total is the sum of the line
  totals of exactly the cart-item rows that point at that cart. An item created
  without a quantity gets quantity 1. An order's status is one of
  pending/shipped/delivered and defaults to pending. Prices, stock levels,
  quantities and order totals are `nat`, like the non-negative integer columns
  of the source.
- **Accounts** (`accounts.dfy`, module `Accounts`). Registration makes its checks
  in the code's order: the email key is read, the email is looked up, the
  password key is read, user creation refuses an empty username (the username
  is the email), and the insert meets the unique-username constraint. It
  then builds a user whose username and email are both the supplied email, with
  the stated defaults. The login validator decides three ways, always in the same
  precedence: missing credentials, then bad credentials, then a disabled account.
  `authenticate` is a parameter of type `(Field, Field) -> Option<User>`.
- **Views** (`views.dfy`, module `Views`). Each catalogue viewset maps an action
  to exactly one permission. The profile view always works on the requesting
  user. The login endpoint validates first and issues tokens afterwards. Token
  issuance is a parameter `User -> TokenPair`.
- **Store** (`store.dfy`, module `Store`). A `Shop` class holds the user table and
  the cart table (a map from owner to cart, as the one-to-one relation declares).
  `Register` inserts a user and then runs the post-save hook. `CreateUserCart` is
  the hook: it looks up or creates the saved user's cart. The class invariant
  says every cart belongs to a stored user, each user has at most one cart, and
  cart ids are distinct. `Register` also keeps "every stored user has a cart".

Identifiers that the database or `uuid4` generates are modelled as counters in
the store, which makes them fresh. Time stamps are ignored.

Three facts about the code that the model keeps:

- A cart item's quantity is a non-negative integer: a positive-integer column
  accepts 0.
- Nothing in the code stops two cart items of one cart from referring to the
  same product, so the model allows it.
- Carts are created only by the post-save hook.

`Models.Contribution`, `Models.SumOfLineTotals`, `Accounts.Get`,
`Accounts.Truthy` and `Views.Profile` are small helper definitions. The lemmas
and contracts in the table below state what they satisfy.

## Model

| member | source | states |
|---|---|---|
| `Models.LineTotal` | api/models.py:52-54 | an item's `total_price`, price times quantity: zero exactly when the price or the quantity is zero, and the price itself for quantity 1 |
| `Models.CartTotal` | api/models.py:43-45 | a cart's `total_price`: the sum of the line totals of the cart's own rows of the cart-item table |
| `Models.NewCartItem` | api/models.py:47-50 | the item belongs to the given cart and product; with no quantity given, its quantity is 1 and its line total is exactly the product's price |
| `Models.ItemsOf` | api/models.py:43-48 | an item is among a cart's items exactly when it is a row of the table that points at that cart |
| `Models.ItemsOfMultiplicity` | api/models.py:43-48 | each of the cart's rows occurs among its items exactly as often as in the table, so duplicate rows all count; rows of other carts do not occur |
| `Models.CartTotalSingle` | api/models.py:43-54 | a one-row table gives a cart that row's price times quantity if the row is the cart's, else 0 |
| `Models.CartTotalAppend` | api/models.py:43-45 | the total over two parts of the table is the sum of the totals over each part |
| `Models.CartTotalWithoutItems` | api/models.py:43-45 | a cart that no item points at, in particular under an empty table, has total 0 |
| `Models.CartTotalAddItem` | api/models.py:43-54 | adding an item raises its own cart's total by exactly its line total and leaves every other cart's total unchanged |
| `Models.CartTotalRemoveAt` | api/models.py:43-54 | removing a row lowers its cart's total by exactly its line total and leaves other carts' totals unchanged |
| `Models.LineTotalWithinCartTotal` | api/models.py:43-54 | each line total of a cart's own item is at most the cart's total |
| `Models.CartTotalPermutation` | api/models.py:43-45 | a cart's total depends only on which rows the table has, not on their order |
| `Models.StatusValue` | api/models.py:58-66 | each stored status value is non-empty and fits the 12-character status column |
| `Models.ParseStatus` | api/models.py:58-66 | a stored value is accepted exactly when it is pending, shipped or delivered, and it reads back as the status that stores it |
| `Models.ParseStatusValue` | api/models.py:58-62 | every status reads back as itself after being stored |
| `Models.NewOrder` | api/models.py:64-68 | an order with no status given starts as pending; the other fields are as given |
| `Accounts.EmailTaken` | api/serializers.py:22 | defines the lookup: some stored user has this email |
| `Accounts.UsernameTaken` | api/serializers.py:25-29 | defines the unique-username conflict the insert meets: some stored user has this username |
| `Accounts.RegisterErrorMessage` | api/serializers.py:22-23 | a duplicate email is raised with "User with this email already exists."; an empty username with the user-creation message; other refusals carry no message of the shop's own |
| `Accounts.CheckRegistration` | api/serializers.py:20-33 | each refusal holds exactly in its case, in the code's order: missing email, email already registered, missing password, empty email (username not set), username already taken; registration goes through exactly when none holds |
| `Accounts.NewUser` | api/serializers.py:25-33 | the new user's username and email both equal the supplied email; first and last name default to "", phone to none, is_active to true; the user is not staff |
| `Accounts.HasCredentials` | api/serializers.py:42-45 | defines the first test: both `email` and `password` are present and non-empty |
| `Accounts.LoginErrorMessage` | api/serializers.py:49-54 | each login failure has its own message, "Must include both email and password.", "Invalid credentials." or "User account is disabled." |
| `Accounts.ValidateLogin` | api/serializers.py:41-56 | missing or empty email or password gives "Must include both…"; otherwise no user from authenticate gives "Invalid credentials."; an inactive user gives "User account is disabled."; success returns the input data with only the key "user" set to the authenticated user |
| `Accounts.MissingCredentialsIgnoreAuthenticate` | api/serializers.py:45-54 | with a credential missing, the outcome is the same whatever authenticate does, so authenticate is never consulted |
| `Views.CategoryPermissions` | api/views.py:53-58 | exactly one permission: admin for create, update, partial_update and destroy, authenticated for every other action |
| `Views.ProductPermissions` | api/views.py:64-69 | exactly one permission: admin for the four write actions, authenticated for the rest |
| `Views.ProductPolicyIsCategoryPolicy` | api/views.py:53-69 | products use the same action-to-permission policy as categories |
| `Views.CatalogueAccess` | api/views.py:49-69 | a catalogue request is allowed exactly when it is signed in and, for a write action, comes from a staff account |
| `Views.UserViewObject` | api/views.py:41-47 | the profile view succeeds exactly for a signed-in request and then yields the requesting user, never another |
| `Views.LoginPost` | api/views.py:25-38 | a login fails exactly when validation fails, with the same error; on success the response carries the tokens issued for the validated, active user and that user's profile |
| `Views.NoTokensForRejectedLogin` | api/views.py:26-30 | for rejected input the outcome is the same whatever token issuer is given, so no token is issued |
| `Store.EnsureCart` | api/signals.py:5-8 | afterwards the user has a cart; existing carts, including that user's own, are unchanged; a new cart gets the fresh id; no other user gains a cart |
| `Store.EnsureCartIdempotent` | api/signals.py:7-8 | running the hook a second time for the same user changes nothing |
| `Store.EnsureCartIgnoresCreated` | api/signals.py:7-8 | with `created` true or false the cart table ends the same, so an existing cart is never duplicated |
| `Store.Shop.Valid` | api/models.py:35-37 | defines the table invariant: users are stored under their ids; each cart belongs to a stored user and is stored under its owner, so a user has at most one cart; cart ids are distinct; ids in use were issued |
| `Store.Shop.EveryUserHasCart` | api/signals.py:5-8 | defines the invariant the post-save hook establishes: every stored user has a cart |
| `Store.Shop.constructor` | api/models.py:35-37 | an empty store satisfies the table invariants |
| `Store.Shop.CreateUserCart` | api/signals.py:5-8 | the cart table becomes `EnsureCart` of the old one; the user table is unchanged; the invariants are kept |
| `Store.Shop.Register` | api/serializers.py:20-34 | on a refused registration both tables are unchanged and the error is the one `CheckRegistration` names; otherwise exactly one user, `NewUser` under a fresh id and with a non-empty username, is added, and that user, and only that user, gets a new cart; every stored user still has a cart |

## Left out

- Checkout and order placement, stock decrements, and cart add and remove: no
  code for them exists in the modelled files. The cart view named in
  `api/urls.py` is not defined anywhere, so it is not part of this model.
- URL routing (`api/urls.py`): framework wiring with nothing to state.
- Serializer field lists and the order serializer: they only declare the shape
  of responses. The one exception is the user profile inside the login
  response, which is modelled by `Views.Profile`.
- The field-level checks the serializers run before `create` and `validate`
  (required fields, non-blank fields, email syntax). The model covers the two
  methods on whatever data reaches them. So an absent email reaching `create`
  shows up as `MissingKey("email")`, the code's `KeyError`. The email field may
  be blank, so an empty email does reach `create`, and the model refuses it as
  `UsernameNotSet`, as user creation does.
- Password hashing and the normalisation of username and email inside
  `create_user`. These are library calls, so the model stores the values as
  given.
- The internals of `authenticate` and of token issuance. They are parameters.
- Time stamps, and UUID and auto-increment generation. Ids are counters.
- The race between the email lookup and the insert during registration, and all
  database locking. The model is sequential.
- Cascade and set-null deletion: the source has no delete operation in the
  modelled code.
- Column length limits other than the status column, whether the serializer
  or the database enforces them: username, first and last name (150
  characters), email (254) and phone (15). Registration writes these columns,
  so an email of 151 to 254 characters, which fits the email column but not the
  username column, is accepted by the model.
- The unique category name and the category record itself: no modelled
  operation reads or writes categories; a product keeps only the category id.
- The display labels of the order status choices.
- The default permissions of the registration view and of the login view.
  Neither view sets its own, and the defaults come from settings that are not in
  the modelled files. `Views.LoginPost` treats the login view as open to every
  request.
- Updates through the profile view: the framework's generic update.
  `UserViewObject` models only which object the view works on.
