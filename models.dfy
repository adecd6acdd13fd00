/**
 * The shop's records (categories, products, carts, cart items, orders) and the
 * cart pricing rules: a line total is price times quantity, and a cart's total
 * is the sum of the line totals of the cart items that belong to that cart.
 *
 * Every price, stock level, quantity and order total is a `nat`, the model of
 * the source's non-negative integer columns, so no total can be negative.
 */
module Models {
  import opened Wrappers

  type UserId = nat
  type CategoryId = nat
  type ProductId = nat
  type CartId = nat
  type OrderId = nat

  /** A catalogue product; `category` is the nullable foreign key. */
  datatype Product = Product(
    id: ProductId,
    name: string,
    description: string,
    price: nat,
    stock: nat,
    category: Option<CategoryId>)

  /** A cart is owned by exactly one user. */
  datatype Cart = Cart(id: CartId, user: UserId)

  /**
   * A row of the cart-item table: the cart it belongs to, the product it refers
   * to (the foreign key already resolved to the product row) and a quantity.
   */
  datatype CartItem = CartItem(cart: CartId, product: Product, quantity: nat)

  /** The quantity a cart item gets when none is given. */
  const DefaultQuantity: nat := 1

  /** Creates a cart item; an omitted quantity takes the column default. */
  function NewCartItem(cart: CartId, product: Product, quantity: Option<nat>): (item: CartItem)
    ensures item.cart == cart && item.product == product
    ensures quantity.Some? ==> item.quantity == quantity.value
    ensures quantity.None? ==> item.quantity == 1 && LineTotal(item) == product.price
  {
    match quantity
    case Some(q) => CartItem(cart, product, q)
    case None => CartItem(cart, product, DefaultQuantity)
  }

  /** The `total_price` property of a cart item. */
  function LineTotal(item: CartItem): (t: nat)
    ensures t == 0 <==> item.product.price == 0 || item.quantity == 0
    ensures item.quantity == 1 ==> t == item.product.price
  {
    item.product.price * item.quantity
  }

  /** What an item adds to the total of `cart`: its line total if it belongs there, else nothing. */
  function Contribution(cart: CartId, item: CartItem): nat
  {
    if item.cart == cart then LineTotal(item) else 0
  }

  /** The reverse relation `cart.items`: the rows of the cart-item table that point at `cart`, in table order. */
  function ItemsOf(cart: CartId, items: seq<CartItem>): (own: seq<CartItem>)
    ensures |own| <= |items|
    ensures forall x :: x in own <==> x in items && x.cart == cart
  {
    if items == [] then []
    else if items[0].cart == cart then [items[0]] + ItemsOf(cart, items[1..])
    else ItemsOf(cart, items[1..])
  }

  /** `cart.items` keeps every row of the cart as often as the table holds it, and no other row. */
  lemma {:induction false} ItemsOfMultiplicity(cart: CartId, items: seq<CartItem>, x: CartItem)
    ensures multiset(ItemsOf(cart, items))[x] == if x.cart == cart then multiset(items)[x] else 0
  {
    if items != [] {
      assert items == [items[0]] + items[1..];
      ItemsOfMultiplicity(cart, items[1..], x);
    }
  }

  /** The sum of the line totals of a sequence of items. */
  function SumOfLineTotals(s: seq<CartItem>): nat
  {
    if s == [] then 0 else LineTotal(s[0]) + SumOfLineTotals(s[1..])
  }

  /** The `total_price` property of a cart, over the whole cart-item table `items`. */
  function CartTotal(cart: CartId, items: seq<CartItem>): nat
  {
    SumOfLineTotals(ItemsOf(cart, items))
  }

  lemma {:induction false} ItemsOfAppend(cart: CartId, a: seq<CartItem>, b: seq<CartItem>)
    ensures ItemsOf(cart, a + b) == ItemsOf(cart, a) + ItemsOf(cart, b)
  {
    if a == [] {
      assert a + b == b;
    } else {
      assert (a + b)[1..] == a[1..] + b;
      ItemsOfAppend(cart, a[1..], b);
    }
  }

  lemma {:induction false} SumOfLineTotalsAppend(s: seq<CartItem>, t: seq<CartItem>)
    ensures SumOfLineTotals(s + t) == SumOfLineTotals(s) + SumOfLineTotals(t)
  {
    if s == [] {
      assert s + t == t;
    } else {
      assert (s + t)[1..] == s[1..] + t;
      SumOfLineTotalsAppend(s[1..], t);
    }
  }

  /** The total of a cart over two parts of the table is the sum of the totals over each part. */
  lemma CartTotalAppend(cart: CartId, a: seq<CartItem>, b: seq<CartItem>)
    ensures CartTotal(cart, a + b) == CartTotal(cart, a) + CartTotal(cart, b)
  {
    ItemsOfAppend(cart, a, b);
    SumOfLineTotalsAppend(ItemsOf(cart, a), ItemsOf(cart, b));
  }

  /** A one-row table contributes exactly that row's contribution. */
  lemma CartTotalSingle(cart: CartId, item: CartItem)
    ensures CartTotal(cart, [item]) == Contribution(cart, item)
  {
    assert [item][1..] == [];
    assert ItemsOf(cart, [item]) == if item.cart == cart then [item] else [];
    if item.cart == cart {
      assert SumOfLineTotals([item]) == LineTotal(item) + SumOfLineTotals([]);
    }
  }

  /** A cart that no item points at, in particular one in an empty table, has total 0. */
  lemma CartTotalWithoutItems(cart: CartId, items: seq<CartItem>)
    requires forall i :: 0 <= i < |items| ==> items[i].cart != cart
    ensures CartTotal(cart, items) == 0
  {
  }

  /**
   * Adding an item to the table raises the total of its own cart by exactly its
   * line total and leaves the total of every other cart as it was.
   */
  lemma CartTotalAddItem(cart: CartId, items: seq<CartItem>, item: CartItem)
    ensures item.cart == cart ==> CartTotal(cart, items + [item]) == CartTotal(cart, items) + LineTotal(item)
    ensures item.cart != cart ==> CartTotal(cart, items + [item]) == CartTotal(cart, items)
  {
    CartTotalAppend(cart, items, [item]);
    CartTotalSingle(cart, item);
  }

  /**
   * Removing the row at index `i` lowers the total of its cart by exactly its
   * line total and leaves the total of every other cart as it was.
   */
  lemma CartTotalRemoveAt(cart: CartId, items: seq<CartItem>, i: nat)
    requires i < |items|
    ensures CartTotal(cart, items) == CartTotal(cart, items[..i] + items[i + 1..]) + Contribution(cart, items[i])
  {
    assert items == items[..i] + [items[i]] + items[i + 1..];
    CartTotalAppend(cart, items[..i] + [items[i]], items[i + 1..]);
    CartTotalAppend(cart, items[..i], [items[i]]);
    CartTotalAppend(cart, items[..i], items[i + 1..]);
    CartTotalSingle(cart, items[i]);
  }

  /** Every line total of a cart's own item is bounded by the cart's total. */
  lemma LineTotalWithinCartTotal(cart: CartId, items: seq<CartItem>, i: nat)
    requires i < |items| && items[i].cart == cart
    ensures LineTotal(items[i]) <= CartTotal(cart, items)
  {
    CartTotalRemoveAt(cart, items, i);
  }

  /**
   * The table is an unordered collection of rows: a cart's total depends only on
   * which rows there are, not on the order in which they are read.
   */
  lemma {:induction false} CartTotalPermutation(cart: CartId, a: seq<CartItem>, b: seq<CartItem>)
    requires multiset(a) == multiset(b)
    ensures CartTotal(cart, a) == CartTotal(cart, b)
    decreases |a|
  {
    if a == [] {
      assert |b| == |multiset(b)| == 0;
    } else {
      assert a[0] in multiset(b);
      var j :| 0 <= j < |b| && b[j] == a[0];
      var rest := b[..j] + b[j + 1..];
      assert b == b[..j] + [b[j]] + b[j + 1..];
      assert multiset(rest) == multiset(b) - multiset{a[0]};
      assert a == [a[0]] + a[1..];
      assert multiset(a[1..]) == multiset(a) - multiset{a[0]};
      CartTotalPermutation(cart, a[1..], rest);
      CartTotalRemoveAt(cart, b, j);
      CartTotalAppend(cart, [a[0]], a[1..]);
      CartTotalSingle(cart, a[0]);
    }
  }

  /** The three order states, stored as the choice values "pending", "shipped" and "delivered". */
  datatype OrderStatus = Pending | Shipped | Delivered

  /** The column width of the status field. */
  const StatusMaxLength: nat := 12

  /** The stored choice value of a status. */
  function StatusValue(s: OrderStatus): (v: string)
    ensures 0 < |v| <= StatusMaxLength
  {
    match s
    case Pending => "pending"
    case Shipped => "shipped"
    case Delivered => "delivered"
  }

  /** Reads a stored value back as a status; anything other than the three choices is refused. */
  function ParseStatus(v: string): (r: Option<OrderStatus>)
    ensures r.Some? <==> v in {"pending", "shipped", "delivered"}
    ensures r.Some? ==> StatusValue(r.value) == v
  {
    if v == "pending" then Some(Pending)
    else if v == "shipped" then Some(Shipped)
    else if v == "delivered" then Some(Delivered)
    else None
  }

  /** Every status survives being stored and read back. */
  lemma ParseStatusValue(s: OrderStatus)
    ensures ParseStatus(StatusValue(s)) == Some(s)
  {
  }

  /** An order: a stored total, a status, the owner and the set of products it is associated with. */
  datatype Order = Order(
    id: OrderId,
    totalPrice: nat,
    status: OrderStatus,
    user: UserId,
    products: set<ProductId>)

  /** Creates an order; an omitted status takes the column default. */
  function NewOrder(id: OrderId, totalPrice: nat, user: UserId, products: set<ProductId>, status: Option<OrderStatus>): (o: Order)
    ensures o.id == id && o.totalPrice == totalPrice && o.user == user && o.products == products
    ensures status.None? ==> o.status == Pending && StatusValue(o.status) == "pending"
    ensures status.Some? ==> o.status == status.value
  {
    Order(id, totalPrice, match status case Some(s) => s case None => Pending, user, products)
  }
}
