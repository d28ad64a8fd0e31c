/** The shop's store — products, carts, cart items, orders and users — and
    the route handlers, each an atomic transition of the store that returns
    the reply the handler sends. */
module Shop {
  import opened Records
  import opened CartRows
  import opened StockRules
  import opened PaymentRules
  import opened AuthRules

  /** Products are keyed by their auto-increment id. */
  ghost predicate ProductTable(products: map<int, Product>, nextId: int) {
    nextId >= 1 &&
    forall id | id in products :: products[id].id == id && 1 <= id < nextId
  }

  /** One cart per user (userId to cartId), no cart id shared. */
  ghost predicate CartTable(carts: map<int, int>, nextId: int) {
    nextId >= 1 &&
    (forall u | u in carts :: 1 <= carts[u] < nextId) &&
    (forall u, v | u in carts && v in carts && u != v :: carts[u] != carts[v])
  }

  /** Cart items have unique keys, positive quantities, existing products,
      and carts that were created. */
  ghost predicate CartItemTable(rows: seq<CartItem>, products: map<int, Product>, nextCartId: int) {
    UniqueKeys(rows) &&
    forall i | 0 <= i < |rows| ::
      rows[i].productId in products && rows[i].quantity >= 1 && rows[i].cartId < nextCartId
  }

  /** Orders are keyed by id, refer to existing products, and a later id was
      created later. */
  ghost predicate OrderTable(orders: map<int, Order>, products: map<int, Product>, nextId: int, clock: int) {
    nextId >= 1 &&
    (forall id | id in orders ::
      orders[id].id == id && 1 <= id < nextId && orders[id].createdAt < clock &&
      OrderCovers(products, orders[id].items)) &&
    (forall a, b | a in orders && b in orders && a < b :: orders[a].createdAt < orders[b].createdAt)
  }

  /** Users are keyed by email and have distinct ids. */
  ghost predicate UserTable(users: map<string, User>, nextId: int) {
    nextId >= 1 &&
    (forall e | e in users :: users[e].email == e && 1 <= users[e].id < nextId) &&
    (forall e, f | e in users && f in users && e != f :: users[e].id != users[f].id)
  }

  /** The five tables together, each with its auto-increment counter. */
  ghost predicate Tables(products: map<int, Product>, nextProductId: int, carts: map<int, int>, nextCartId: int,
                         cartItems: seq<CartItem>, orders: map<int, Order>, nextOrderId: int, clock: int,
                         users: map<string, User>, nextUserId: int) {
    ProductTable(products, nextProductId) &&
    CartTable(carts, nextCartId) &&
    CartItemTable(cartItems, products, nextCartId) &&
    OrderTable(orders, products, nextOrderId, clock) &&
    UserTable(users, nextUserId)
  }

  /** The items of every cart refer to existing products and have positive quantities. */
  lemma CartRowsCovered(rows: seq<CartItem>, products: map<int, Product>, cartId: int)
    requires forall i | 0 <= i < |rows| :: rows[i].productId in products && rows[i].quantity >= 1
    ensures Covers(products, ItemsOf(rows, cartId))
    ensures forall i | 0 <= i < |ItemsOf(rows, cartId)| :: ItemsOf(rows, cartId)[i].quantity >= 1
  {
    var items := ItemsOf(rows, cartId);
    forall i | 0 <= i < |items| ensures items[i].productId in products && items[i].quantity >= 1 {
      assert items[i] in rows;
    }
  }

  /** Checkout keeps the tables well formed: stock changes only, the cleared
      cart loses its rows, and the new order is the newest. */
  lemma CheckoutKeepsTables(products: map<int, Product>, nextProductId: int, carts: map<int, int>, nextCartId: int,
                            rows: seq<CartItem>, orders: map<int, Order>, nextOrderId: int, clock: int,
                            users: map<string, User>, nextUserId: int, cartId: int, items: seq<CartItem>, order: Order)
    requires Tables(products, nextProductId, carts, nextCartId, rows, orders, nextOrderId, clock, users, nextUserId)
    requires Covers(products, items)
    requires order.id == nextOrderId && order.createdAt == clock && order.items == Snapshot(products, items)
    ensures Tables(Taken(products, items), nextProductId, carts, nextCartId, ClearCart(rows, cartId),
                   orders[order.id := order], nextOrderId + 1, clock + 1, users, nextUserId)
  {
    var after := Taken(products, items);
    TakenStock(products, items);
    ClearCartEffect(rows, cartId);
    var rest := ClearCart(rows, cartId);
    forall i | 0 <= i < |rest|
      ensures rest[i].productId in after && rest[i].quantity >= 1 && rest[i].cartId < nextCartId
    {
      assert rest[i] in rows;
    }
    var orders' := orders[order.id := order];
    forall id | id in orders' ensures OrderCovers(after, orders'[id].items) {
      if id != order.id {
        assert OrderCovers(products, orders[id].items);
      }
    }
  }

  /** A payment attempt keeps the tables well formed: only the order's status
      and, on a decline, the stock of its products change. */
  lemma PaymentKeepsTables(products: map<int, Product>, nextProductId: int, rows: seq<CartItem>, nextCartId: int,
                           orders: map<int, Order>, nextOrderId: int, clock: int, order: Order, status: Status)
    requires ProductTable(products, nextProductId) && CartItemTable(rows, products, nextCartId)
    requires OrderTable(orders, products, nextOrderId, clock)
    requires order.id in orders && orders[order.id] == order
    ensures OrderCovers(products, order.items)
    ensures ProductTable(Restored(products, order.items), nextProductId)
    ensures CartItemTable(rows, Restored(products, order.items), nextCartId)
    ensures OrderTable(orders[order.id := order.(status := status)], Restored(products, order.items), nextOrderId, clock)
    ensures OrderTable(orders[order.id := order.(status := status)], products, nextOrderId, clock)
  {
    var after := Restored(products, order.items);
    RestoredStock(products, order.items);
    var orders' := orders[order.id := order.(status := status)];
    forall id | id in orders' ensures OrderCovers(after, orders'[id].items) {
      assert OrderCovers(products, orders[id].items);
    }
  }

  /** A user's orders with ids below `below`, newest id first. */
  function NewestFirst(orders: map<int, Order>, userId: int, below: int): (r: seq<Order>)
    requires forall id | id in orders :: orders[id].id == id
    decreases below
    ensures forall i | 0 <= i < |r| ::
      r[i].id in orders && orders[r[i].id] == r[i] && r[i].userId == userId && r[i].id < below
    ensures forall i, j | 0 <= i < j < |r| :: r[i].id > r[j].id
    ensures forall id | id in orders && 1 <= id < below && orders[id].userId == userId :: orders[id] in r
  {
    if below <= 1 then []
    else
      var rest := NewestFirst(orders, userId, below - 1);
      if below - 1 in orders && orders[below - 1].userId == userId then [orders[below - 1]] + rest
      else rest
  }

  class Store {
    var products: map<int, Product>
    var nextProductId: int
    var carts: map<int, int>
    var nextCartId: int
    var cartItems: seq<CartItem>
    var orders: map<int, Order>
    var nextOrderId: int
    /** Abstract time: the createdAt stamp the next order receives. */
    var clock: int
    var users: map<string, User>
    var nextUserId: int

    ghost predicate Valid()
      reads this
    {
      Tables(products, nextProductId, carts, nextCartId, cartItems, orders, nextOrderId, clock, users, nextUserId)
    }

    /** An empty database; auto-increment ids start at 1. */
    constructor ()
      ensures Valid()
      ensures products == map[] && carts == map[] && cartItems == [] && orders == map[] && users == map[]
      ensures nextProductId == 1 && nextCartId == 1 && nextOrderId == 1 && nextUserId == 1 && clock == 0
    {
      products, nextProductId := map[], 1;
      carts, nextCartId := map[], 1;
      cartItems := [];
      orders, nextOrderId, clock := map[], 1, 0;
      users, nextUserId := map[], 1;
    }

    // ---------------------------------------------------------------- products

    /** GET /api/products: every product of the store. */
    function ListProducts(): (r: set<Product>)
      reads this
      requires Valid()
      ensures forall p :: p in r <==> p.id in products && products[p.id] == p
    {
      set id | id in products :: products[id]
    }

    /** GET /api/products/:id */
    function GetProduct(id: int): (r: Response<Product>)
      reads this
      requires Valid()
      ensures r.Ok? <==> id in products
      ensures r.Ok? ==> r.value == products[id] && r.value.id == id
      ensures !r.Ok? ==> r == Error(NotFound("Product not found"))
    {
      if id in products then Ok(products[id]) else Error(NotFound("Product not found"))
    }

    /** POST /api/products: a title and a non-zero price are required; stock
        is taken as given. */
    method CreateProduct(title: Option<string>, price: Option<int>, stock: int) returns (r: Response<Product>)
      requires Valid()
      modifies this`products, this`nextProductId
      ensures Valid()
      ensures !(StringGiven(title) && NumberGiven(price)) ==>
        r == Error(BadRequest("Title and price are required")) && unchanged(this)
      ensures StringGiven(title) && NumberGiven(price) ==>
        var p := Product(old(nextProductId), title.value, price.value, stock);
        p.id !in old(products) && r == Created(p) &&
        products == old(products)[p.id := p] && nextProductId == old(nextProductId) + 1
    {
      if !(StringGiven(title) && NumberGiven(price)) {
        return Error(BadRequest("Title and price are required"));
      }
      var p := Product(nextProductId, title.value, price.value, stock);
      products := products[p.id := p];
      nextProductId := nextProductId + 1;
      r := Created(p);
    }

    /** PUT /api/products/:id: each field given replaces the stored one; none is validated. */
    method UpdateProduct(id: int, title: Option<string>, price: Option<int>, stock: Option<int>)
      returns (r: Response<Product>)
      requires Valid()
      modifies this`products
      ensures Valid()
      ensures id !in old(products) ==> r == Error(NotFound("Product not found")) && unchanged(this)
      ensures id in old(products) ==>
        var was := old(products)[id];
        var p := Product(id, title.GetOr(was.title), price.GetOr(was.price), stock.GetOr(was.stock));
        r == Ok(p) && products == old(products)[id := p]
    {
      if id !in products {
        return Error(NotFound("Product not found"));
      }
      var was := products[id];
      var p := Product(id, title.GetOr(was.title), price.GetOr(was.price), stock.GetOr(was.stock));
      products := products[id := p];
      r := Ok(p);
    }

    /** Some cart item or order item refers to the product. */
    predicate Referenced(id: int)
      reads this
    {
      (exists i | 0 <= i < |cartItems| :: cartItems[i].productId == id) ||
      (exists o | o in orders :: exists j | 0 <= j < |orders[o].items| :: orders[o].items[j].productId == id)
    }

    /** DELETE /api/products/:id. Assuming the foreign keys restrict the
        delete, a product that cart or order items still refer to cannot be
        removed: the delete fails with a store error other than "not found",
        reported as a 500. */
    method DeleteProduct(id: int) returns (r: Response<string>)
      requires Valid()
      modifies this`products
      ensures Valid()
      ensures id !in old(products) ==> r == Error(NotFound("Product not found")) && unchanged(this)
      ensures id in old(products) && Referenced(id) ==>
        r == Error(InternalError("Failed to delete product")) && unchanged(this)
      ensures id in old(products) && !Referenced(id) ==>
        r == Ok("Product deleted") && products == old(products) - {id}
    {
      if id !in products {
        return Error(NotFound("Product not found"));
      }
      if Referenced(id) {
        return Error(InternalError("Failed to delete product"));
      }
      products := products - {id};
      r := Ok("Product deleted");
    }

    // -------------------------------------------------------------------- cart

    /** The user's cart id; the cart row is created when it is missing. */
    method CartFor(userId: int) returns (cartId: int)
      requires Valid()
      modifies this`carts, this`nextCartId
      ensures Valid()
      ensures userId in old(carts) ==> cartId == old(carts)[userId] && unchanged(this)
      ensures userId !in old(carts) ==>
        cartId == old(nextCartId) && carts == old(carts)[userId := cartId] && nextCartId == old(nextCartId) + 1
      ensures userId !in old(carts) ==> ItemsOf(cartItems, cartId) == []
    {
      if userId in carts {
        return carts[userId];
      }
      cartId := nextCartId;
      carts := carts[userId := cartId];
      nextCartId := nextCartId + 1;
      forall x | x in cartItems ensures x.cartId != cartId {
        var i :| 0 <= i < |cartItems| && cartItems[i] == x;
      }
      NoItemsOf(cartItems, cartId);
    }

    /** GET /api/cart: the user's cart with its items, created empty if missing. */
    method GetCart(userId: int) returns (r: Response<CartView>)
      requires Valid()
      modifies this`carts, this`nextCartId
      ensures Valid()
      ensures userId in old(carts) ==>
        unchanged(this) && r == Ok(CartView(carts[userId], userId, ItemsOf(cartItems, carts[userId])))
      ensures userId !in old(carts) ==>
        carts == old(carts)[userId := old(nextCartId)] && nextCartId == old(nextCartId) + 1 &&
        r == Ok(CartView(old(nextCartId), userId, []))
    {
      var cartId := CartFor(userId);
      r := Ok(CartView(cartId, userId, ItemsOf(cartItems, cartId)));
    }

    /** POST /api/cart/items: quantity defaults to 1. Only the requested
        quantity is checked against stock, not what the cart already holds. */
    method AddItem(userId: int, productId: Option<int>, quantity: Option<int>) returns (r: Response<CartItem>)
      requires Valid()
      modifies this`carts, this`nextCartId, this`cartItems
      ensures Valid()
      ensures !NumberGiven(productId) || quantity.GetOr(1) < 1 ==>
        r == Error(BadRequest("Valid productId and quantity required")) && unchanged(this)
      ensures NumberGiven(productId) && quantity.GetOr(1) >= 1 && productId.value !in products ==>
        r == Error(NotFound("Product not found")) && unchanged(this)
      ensures (NumberGiven(productId) && quantity.GetOr(1) >= 1 && productId.value in products &&
               products[productId.value].stock < quantity.GetOr(1)) ==>
        r == Error(BadRequest("Insufficient stock")) && unchanged(this)
      ensures (NumberGiven(productId) && quantity.GetOr(1) >= 1 && productId.value in products &&
               products[productId.value].stock >= quantity.GetOr(1)) ==>
        var c := if userId in old(carts) then old(carts)[userId] else old(nextCartId);
        var q := Quantity(old(cartItems), c, productId.value).GetOr(0) + quantity.GetOr(1);
        carts == old(carts)[userId := c] &&
        nextCartId == (if userId in old(carts) then old(nextCartId) else old(nextCartId) + 1) &&
        cartItems == Upsert(old(cartItems), c, productId.value, quantity.GetOr(1)) &&
        Quantity(cartItems, c, productId.value) == Some(q) &&
        r == Ok(CartItem(c, productId.value, q))
    {
      var q := quantity.GetOr(1);
      if !NumberGiven(productId) || q < 1 {
        return Error(BadRequest("Valid productId and quantity required"));
      }
      var pid := productId.value;
      if pid !in products {
        return Error(NotFound("Product not found"));
      }
      if products[pid].stock < q {
        return Error(BadRequest("Insufficient stock"));
      }
      var cartId := CartFor(userId);
      var item := PutItem(cartId, pid, q);
      r := Ok(item);
    }

    /** The upsert of add-to-cart on the cart-item table: the key's row gains
        `quantity`, or is created with it. */
    method PutItem(cartId: int, productId: int, quantity: int) returns (item: CartItem)
      requires Valid() && productId in products && quantity >= 1 && cartId < nextCartId
      modifies this`cartItems
      ensures Valid()
      ensures cartItems == Upsert(old(cartItems), cartId, productId, quantity)
      ensures item == CartItem(cartId, productId, Quantity(old(cartItems), cartId, productId).GetOr(0) + quantity)
      ensures Quantity(cartItems, cartId, productId) == Some(item.quantity)
    {
      var before := cartItems;
      UpsertEffect(before, cartId, productId, quantity);
      cartItems := Upsert(before, cartId, productId, quantity);
      item := CartItem(cartId, productId, Quantity(before, cartId, productId).GetOr(0) + quantity);
      ghost var k := IndexOf(before, cartId, productId);
      assert forall i | 0 <= i < |before| ::
        cartItems[i].cartId == before[i].cartId && cartItems[i].productId == before[i].productId;
      assert k < 0 ==> cartItems[|before|] == CartItem(cartId, productId, quantity);
    }

    /** PUT /api/cart/items/:productId: an absent quantity passes the check and
        leaves the item as it is; the stock is not consulted. */
    method UpdateItem(userId: int, productId: int, quantity: Option<int>) returns (r: Response<CartItem>)
      requires Valid()
      modifies this`cartItems
      ensures Valid()
      ensures quantity.Some? && quantity.value < 1 ==>
        r == Error(BadRequest("Quantity must be >= 1")) && unchanged(this)
      ensures quantity.GetOr(1) >= 1 && userId !in carts ==>
        r == Error(NotFound("Cart not found")) && unchanged(this)
      ensures quantity.GetOr(1) >= 1 && userId in carts && Quantity(old(cartItems), carts[userId], productId).None? ==>
        r == Error(NotFound("Item not in cart")) && unchanged(this)
      ensures quantity.GetOr(1) >= 1 && userId in carts && Quantity(old(cartItems), carts[userId], productId).Some? ==>
        var c := carts[userId];
        var q := quantity.GetOr(Quantity(old(cartItems), c, productId).value);
        cartItems == Assign(old(cartItems), c, productId, q) &&
        Quantity(cartItems, c, productId) == Some(q) &&
        r == Ok(CartItem(c, productId, q))
    {
      if quantity.Some? && quantity.value < 1 {
        return Error(BadRequest("Quantity must be >= 1"));
      }
      if userId !in carts {
        return Error(NotFound("Cart not found"));
      }
      var cartId := carts[userId];
      var current := Quantity(cartItems, cartId, productId);
      if current.None? {
        return Error(NotFound("Item not in cart"));
      }
      var q := quantity.GetOr(current.value);
      var before := cartItems;
      AssignEffect(before, cartId, productId, q);
      cartItems := Assign(before, cartId, productId, q);
      r := Ok(CartItem(cartId, productId, q));
    }

    /** DELETE /api/cart/items/:productId */
    method RemoveItem(userId: int, productId: int) returns (r: Response<string>)
      requires Valid()
      modifies this`cartItems
      ensures Valid()
      ensures userId !in carts ==> r == Error(NotFound("Cart not found")) && unchanged(this)
      ensures userId in carts && Quantity(old(cartItems), carts[userId], productId).None? ==>
        r == Error(NotFound("Item not in cart")) && unchanged(this)
      ensures userId in carts && Quantity(old(cartItems), carts[userId], productId).Some? ==>
        cartItems == Delete(old(cartItems), carts[userId], productId) &&
        Quantity(cartItems, carts[userId], productId) == None &&
        r == Ok("Item removed from cart")
    {
      if userId !in carts {
        return Error(NotFound("Cart not found"));
      }
      var cartId := carts[userId];
      if Quantity(cartItems, cartId, productId).None? {
        return Error(NotFound("Item not in cart"));
      }
      var before := cartItems;
      DeleteEffect(before, cartId, productId);
      cartItems := Delete(before, cartId, productId);
      r := Ok("Item removed from cart");
    }

    // ------------------------------------------------------------------ orders

    /** The items of the user's cart; no cart reads as no items. */
    function CartOf(userId: int): (items: seq<CartItem>)
      reads this
      requires Valid()
      ensures userId in carts ==> items == ItemsOf(cartItems, carts[userId])
      ensures userId !in carts ==> items == []
      ensures Covers(products, items) && DistinctProducts(items)
      ensures forall i | 0 <= i < |items| :: items[i].quantity >= 1
    {
      if userId in carts then
        CartRowsCovered(cartItems, products, carts[userId]);
        ItemsOfUnique(cartItems, carts[userId]);
        ItemsOf(cartItems, carts[userId])
      else []
    }

    /** GET /api/orders: the caller's orders and only theirs, newest first. */
    function ListOrders(userId: int): (r: seq<Order>)
      reads this
      requires Valid()
      ensures forall i | 0 <= i < |r| :: r[i].userId == userId && r[i].id in orders && orders[r[i].id] == r[i]
      ensures forall id | id in orders && orders[id].userId == userId :: orders[id] in r
      ensures forall i, j | 0 <= i < j < |r| :: r[i].createdAt > r[j].createdAt
    {
      NewestFirst(orders, userId, nextOrderId)
    }

    /** Checkout's stock loop: one decrement per cart item. */
    method TakeStock(items: seq<CartItem>)
      requires Covers(products, items)
      modifies this`products
      ensures products == Taken(old(products), items)
    {
      for i := 0 to |items|
        invariant products == Taken(old(products), items[..i])
      {
        assert items[..i + 1][..i] == items[..i];
        var item := items[i];
        products := products[item.productId := products[item.productId].(stock := products[item.productId].stock - item.quantity)];
      }
      assert items[..|items|] == items;
    }

    /** The compensation loop of a declined payment: one increment per order item. */
    method RestoreStock(items: seq<OrderItem>)
      requires OrderCovers(products, items)
      modifies this`products
      ensures products == Restored(old(products), items)
    {
      for i := 0 to |items|
        invariant products == Restored(old(products), items[..i])
      {
        assert items[..i + 1][..i] == items[..i];
        var item := items[i];
        products := products[item.productId := products[item.productId].(stock := products[item.productId].stock + item.quantity)];
      }
      assert items[..|items|] == items;
    }

    /** Checkout's writes: the order row, the stock loop, the cart clearing. */
    method PlaceOrder(order: Order, cartId: int, items: seq<CartItem>)
      requires Covers(products, items)
      requires Tables(Taken(products, items), nextProductId, carts, nextCartId, ClearCart(cartItems, cartId),
                      orders[order.id := order], nextOrderId + 1, clock + 1, users, nextUserId)
      modifies this`products, this`orders, this`nextOrderId, this`clock, this`cartItems
      ensures Valid()
      ensures orders == old(orders)[order.id := order] && nextOrderId == old(nextOrderId) + 1 && clock == old(clock) + 1
      ensures products == Taken(old(products), items) && cartItems == ClearCart(old(cartItems), cartId)
    {
      TakeStock(items);
      orders, nextOrderId, clock := orders[order.id := order], nextOrderId + 1, clock + 1;
      cartItems := ClearCart(cartItems, cartId);
    }

    /** The transaction's commit once the cart has passed the stock check:
        the new order snapshots the cart at current prices, the stock of
        each item is taken, the cart is emptied. */
    method CommitOrder(userId: int, total: int) returns (order: Order)
      requires Valid() && userId in carts
      requires total == OrderTotal(Snapshot(products, CartOf(userId)))
      modifies this`products, this`orders, this`nextOrderId, this`clock, this`cartItems
      ensures Valid()
      ensures order ==
        Order(old(nextOrderId), userId, total, PENDING, Snapshot(old(products), old(CartOf(userId))), old(clock))
      ensures orders == old(orders)[order.id := order] && products == Taken(old(products), old(CartOf(userId)))
      ensures cartItems == ClearCart(old(cartItems), old(carts)[userId])
      ensures nextOrderId == old(nextOrderId) + 1 && clock == old(clock) + 1
    {
      var items, cartId := CartOf(userId), carts[userId];
      order := Order(nextOrderId, userId, total, PENDING, Snapshot(products, items), clock);
      CheckoutKeepsTables(products, nextProductId, carts, nextCartId, cartItems, orders, nextOrderId, clock, users, nextUserId,
                          cartId, items, order);
      PlaceOrder(order, cartId, items);
    }

    /** POST /api/orders/checkout, one transaction. A failure rolls the
        transaction back, and its exception escapes the handler's catch: no
        400 is sent, so the result is Unhandled. */
    method Checkout(userId: int) returns (r: Response<Order>)
      requires Valid()
      modifies this`products, this`orders, this`nextOrderId, this`clock, this`cartItems
      ensures Valid()
      ensures r.Created? || r.Unhandled?
      ensures !r.Created? ==> unchanged(this)
      ensures old(CartOf(userId)) == [] ==> r == Unhandled("Cart is empty")
      ensures var items := old(CartOf(userId));
        items != [] && !Sufficient(old(products), items) ==>
        exists j | 0 <= j < |items| ::
          items[j].quantity > old(products)[items[j].productId].stock &&
          (forall i | 0 <= i < j :: items[i].quantity <= old(products)[items[i].productId].stock) &&
          r == Unhandled("Insufficient stock for " + old(products)[items[j].productId].title)
      ensures var items := old(CartOf(userId));
        items != [] && Sufficient(old(products), items) ==>
        var lines := Snapshot(old(products), items);
        var o := Order(old(nextOrderId), userId, OrderTotal(lines), PENDING, lines, old(clock));
        r == Created(o) && o.id !in old(orders) && orders == old(orders)[o.id := o] &&
        o.total == CartValue(old(products), items) &&
        products == Taken(old(products), items) &&
        cartItems == ClearCart(old(cartItems), old(carts)[userId]) &&
        nextOrderId == old(nextOrderId) + 1 && clock == old(clock) + 1
    {
      var items := CartOf(userId);
      if items == [] {
        return Unhandled("Cart is empty");
      }
      var short, total := CheckStock(products, items);
      if short >= 0 {
        return Unhandled("Insufficient stock for " + products[items[short].productId].title);
      }
      SnapshotTotal(products, items);
      var order := CommitOrder(userId, total);
      r := Created(order);
    }

    // ----------------------------------------------------------------- payment

    /** POST /api/payments/orders/:orderId/pay. A decline cancels the order
        and puts back the stock of every order item. */
    method Pay(userId: int, orderId: int, paymentMethodId: Option<string>, shouldFail: Option<bool>)
      returns (r: Response<Order>)
      requires Valid()
      modifies this`orders, this`products
      ensures Valid()
      ensures !(orderId in old(orders) && old(orders)[orderId].userId == userId) ==>
        r == Error(NotFound("Order not found")) && unchanged(this)
      ensures orderId in old(orders) && old(orders)[orderId].userId == userId ==>
        var o := old(orders)[orderId];
        orders == old(orders)[orderId := o.(status := AfterPayment(o.status, Declined(paymentMethodId, shouldFail)))]
      ensures orderId in old(orders) && old(orders)[orderId].userId == userId && old(orders)[orderId].status != PENDING ==>
        r == Error(BadRequest("Order is already " + StatusName(old(orders)[orderId].status))) && unchanged(this)
      ensures (orderId in old(orders) && old(orders)[orderId].userId == userId && old(orders)[orderId].status == PENDING &&
               !Declined(paymentMethodId, shouldFail)) ==>
        r == Ok(old(orders)[orderId].(status := PAID)) && products == old(products)
      ensures (orderId in old(orders) && old(orders)[orderId].userId == userId && old(orders)[orderId].status == PENDING &&
               Declined(paymentMethodId, shouldFail)) ==>
        var o := old(orders)[orderId];
        r == Error(BadRequest("Payment failed (mock Stripe): Card declined (mock)")) &&
        products == Restored(old(products), o.items) &&
        forall k | k in old(products) ::
          products[k] == old(products)[k].(stock := old(products)[k].stock + OrderDemand(o.items, k))
    {
      if !(orderId in orders && orders[orderId].userId == userId) {
        return Error(NotFound("Order not found"));
      }
      var order := orders[orderId];
      if order.status != PENDING {
        assert orders == orders[orderId := order.(status := order.status)];
        return Error(BadRequest("Order is already " + StatusName(order.status)));
      }
      r := Settle(order, Declined(paymentMethodId, shouldFail));
    }

    /** The outcome of a payment attempt on a PENDING order: PAID, or
        CANCELLED with the stock of every order item put back. */
    method Settle(order: Order, declined: bool) returns (r: Response<Order>)
      requires Valid() && order.id in orders && orders[order.id] == order
      modifies this`orders, this`products
      ensures Valid()
      ensures orders == old(orders)[order.id := order.(status := if declined then CANCELLED else PAID)]
      ensures !declined ==> r == Ok(order.(status := PAID)) && products == old(products)
      ensures declined ==>
        r == Error(BadRequest("Payment failed (mock Stripe): Card declined (mock)")) &&
        products == Restored(old(products), order.items) &&
        forall k | k in old(products) ::
          products[k] == old(products)[k].(stock := old(products)[k].stock + OrderDemand(order.items, k))
    {
      var status := if declined then CANCELLED else PAID;
      PaymentKeepsTables(products, nextProductId, cartItems, nextCartId, orders, nextOrderId, clock, order, status);
      RestoredStock(products, order.items);
      orders := orders[order.id := order.(status := status)];
      if declined {
        RestoreStock(order.items);
        r := Error(BadRequest("Payment failed (mock Stripe): Card declined (mock)"));
      } else {
        r := Ok(order.(status := PAID));
      }
    }

    // -------------------------------------------------------------------- auth

    /** POST /api/auth/register. `hash` stands for the password hasher and
        `sign` for the token issuer. */
    method Register(email: Option<string>, password: Option<string>, name: Option<string>,
                    hash: string -> string, sign: (int, string) -> string)
      returns (r: Response<Session>)
      requires Valid()
      modifies this`users, this`nextUserId
      ensures Valid()
      ensures !CredentialsGiven(email, password) ==>
        r == Error(BadRequest("Email and password are required")) && unchanged(this)
      ensures CredentialsGiven(email, password) && email.value in old(users) ==>
        r == Error(BadRequest("User already exists")) && unchanged(this)
      ensures CredentialsGiven(email, password) && email.value !in old(users) ==>
        var u := User(old(nextUserId), email.value, hash(password.value), name, RoleFor(email.value));
        users == old(users)[email.value := u] && nextUserId == old(nextUserId) + 1 &&
        r == Created(Session(PublicView(u), sign(u.id, RoleName(u.role))))
    {
      if !CredentialsGiven(email, password) {
        return Error(BadRequest("Email and password are required"));
      }
      if email.value in users {
        return Error(BadRequest("User already exists"));
      }
      var u := User(nextUserId, email.value, hash(password.value), name, RoleFor(email.value));
      users := users[email.value := u];
      nextUserId := nextUserId + 1;
      r := Created(Session(PublicView(u), sign(u.id, RoleName(u.role))));
    }

    /** POST /api/auth/login. `compare` stands for the hash comparison. */
    function Login(email: Option<string>, password: Option<string>,
                   compare: (string, string) -> bool, sign: (int, string) -> string): (r: Response<Session>)
      reads this
      requires Valid()
      ensures !CredentialsGiven(email, password) ==> r == Error(BadRequest("Email and password are required"))
      ensures (CredentialsGiven(email, password) &&
               (email.value !in users || !compare(password.value, users[email.value].password))) ==>
        r == Error(Unauthorized("Invalid credentials"))
      ensures r.Ok? <==>
        CredentialsGiven(email, password) && email.value in users &&
        compare(password.value, users[email.value].password)
      ensures r.Ok? ==>
        var u := users[email.value];
        r.value == Session(PublicUser(u.id, u.email, u.name, u.role), sign(u.id, RoleName(u.role)))
      ensures r.Ok? || r.Error?
    {
      if !CredentialsGiven(email, password) then Error(BadRequest("Email and password are required"))
      else if email.value !in users || !compare(password.value, users[email.value].password) then
        Error(Unauthorized("Invalid credentials"))
      else
        var u := users[email.value];
        Ok(Session(PublicView(u), sign(u.id, RoleName(u.role))))
    }
  }
}
