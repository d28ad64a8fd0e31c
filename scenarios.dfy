/** Concrete runs of the handlers on a fresh store: one product, the mug
    (1000 cents, 5 in stock), and one customer, user 7. Each step is a
    method with the store state before and after it; the runs compose the
    steps and state their outcomes. */
module Scenarios {
  import opened Records
  import opened CartRows
  import opened StockRules
  import opened Shop

  const Mug := Product(1, "Mug", 1000, 5)
  const Customer := 7

  /** An empty store in which an administrator has created the mug. */
  method MugShop() returns (s: Store)
    ensures fresh(s) && s.Valid()
    ensures s.products == map[1 := Mug] && s.carts == map[] && s.cartItems == [] && s.orders == map[]
    ensures s.nextCartId == 1 && s.nextOrderId == 1 && s.clock == 0
  {
    s := new Store();
    var created := s.CreateProduct(Some("Mug"), Some(1000), 5);
  }

  /** The customer adds `quantity` mugs to a cart that holds `held` of them
      (no cart at all when `held` is 0). */
  method AddMugs(s: Store, held: int, quantity: int) returns (r: Response<CartItem>)
    requires s.Valid() && s.products == map[1 := Mug] && 1 <= quantity <= Mug.stock && held >= 0
    requires held == 0 ==> s.carts == map[] && s.cartItems == [] && s.nextCartId == 1
    requires held > 0 ==> s.carts == map[Customer := 1] && s.cartItems == [CartItem(1, 1, held)]
    modifies s
    ensures s.Valid() && r == Ok(CartItem(1, 1, held + quantity))
    ensures s.carts == map[Customer := 1] && s.cartItems == [CartItem(1, 1, held + quantity)]
    ensures s.products == old(s.products) && s.orders == old(s.orders)
    ensures s.nextOrderId == old(s.nextOrderId) && s.clock == old(s.clock)
  {
    r := s.AddItem(Customer, Some(1), Some(quantity));
  }

  /** The customer checks out a cart of `quantity` mugs, no more than are in stock. */
  method CheckoutMugs(s: Store, quantity: int) returns (r: Response<Order>)
    requires s.Valid() && s.products == map[1 := Mug] && s.carts == map[Customer := 1] && quantity <= Mug.stock
    requires s.cartItems == [CartItem(1, 1, quantity)] && s.orders == map[] && s.nextOrderId == 1
    modifies s
    ensures s.Valid()
    ensures r.Created? && r.value.id == 1 && r.value.userId == Customer &&
      r.value.total == 1000 * quantity && r.value.status == PENDING &&
      r.value.items == [OrderItem(1, quantity, 1000)] &&
      s.products == map[1 := Mug.(stock := Mug.stock - quantity)] && s.cartItems == [] &&
      s.orders == map[1 := r.value]
  {
    assert [CartItem(1, 1, quantity)][1..] == [];
    assert ItemsOf(s.cartItems, 1) == [CartItem(1, 1, quantity)];
    MugCart(quantity);
    r := s.Checkout(Customer);
  }

  /** The customer checks out a cart of more mugs than are in stock. */
  method CheckoutTooMany(s: Store, quantity: int) returns (r: Response<Order>)
    requires s.Valid() && s.products == map[1 := Mug] && s.carts == map[Customer := 1] && quantity > Mug.stock
    requires s.cartItems == [CartItem(1, 1, quantity)]
    modifies s
    ensures r == Unhandled("Insufficient stock for " + Mug.title)
    ensures s.products == old(s.products) && s.orders == old(s.orders)
  {
    assert [CartItem(1, 1, quantity)][1..] == [];
    assert ItemsOf(s.cartItems, 1) == [CartItem(1, 1, quantity)];
    MugCart(quantity);
    r := s.Checkout(Customer);
  }

  /** What checkout's functions give for a cart of `quantity` mugs. */
  lemma MugCart(quantity: int)
    ensures Covers(map[1 := Mug], [CartItem(1, 1, quantity)])
    ensures Sufficient(map[1 := Mug], [CartItem(1, 1, quantity)]) <==> quantity <= Mug.stock
    ensures Snapshot(map[1 := Mug], [CartItem(1, 1, quantity)]) == [OrderItem(1, quantity, 1000)]
    ensures OrderTotal([OrderItem(1, quantity, 1000)]) == 1000 * quantity
    ensures Taken(map[1 := Mug], [CartItem(1, 1, quantity)]) == map[1 := Mug.(stock := Mug.stock - quantity)]
  {
    assert [CartItem(1, 1, quantity)][0] == CartItem(1, 1, quantity);
    assert [CartItem(1, 1, quantity)][..0] == [];
    assert [OrderItem(1, quantity, 1000)][..0] == [];
  }

  /** The customer pays order 1, which holds `quantity` mugs, while `stock`
      of them are left. */
  method PayMugs(s: Store, order: Order, quantity: int, stock: int, shouldFail: bool) returns (r: Response<Order>)
    requires s.Valid() && s.orders == map[1 := order] && order.userId == Customer
    requires order.items == [OrderItem(1, quantity, 1000)] && s.products == map[1 := Mug.(stock := stock)]
    modifies s
    ensures s.Valid()
    ensures order.status != PENDING ==>
      r == Error(BadRequest("Order is already " + StatusName(order.status))) &&
      s.orders == old(s.orders) && s.products == old(s.products)
    ensures order.status == PENDING && shouldFail ==>
      r == Error(BadRequest("Payment failed (mock Stripe): Card declined (mock)")) &&
      s.orders == map[1 := order.(status := CANCELLED)] && s.products == map[1 := Mug.(stock := stock + quantity)]
    ensures order.status == PENDING && !shouldFail ==>
      r == Ok(order.(status := PAID)) && s.orders == map[1 := order.(status := PAID)] && s.products == old(s.products)
  {
    r := s.Pay(Customer, 1, Some("pm_card"), Some(shouldFail));
    assert [OrderItem(1, quantity, 1000)][..0] == [];
  }

  /** The messages with which a second payment of a settled order is refused. */
  lemma RejectionMessages()
    ensures "Order is already " + StatusName(CANCELLED) == "Order is already CANCELLED"
    ensures "Order is already " + StatusName(PAID) == "Order is already PAID"
  {
  }

  /** Three of five mugs are checked out for 3000 cents, leaving 2; the
      declined card puts the 3 back and cancels the order, and paying
      again is refused. */
  method CheckoutThenDecline() returns (total: int, stockAfterCheckout: int, stockAfterDecline: int,
                                         retry: Response<Order>)
    ensures total == 3000 && stockAfterCheckout == 2 && stockAfterDecline == 5
    ensures retry == Error(BadRequest("Order is already CANCELLED"))
  {
    RejectionMessages();
    var s := MugShop();
    var added := AddMugs(s, 0, 3);
    var checkout := CheckoutMugs(s, 3);
    var order := checkout.value;
    total, stockAfterCheckout := order.total, s.products[1].stock;
    var declined := PayMugs(s, order, 3, 2, true);
    stockAfterDecline := s.products[1].stock;
    retry := PayMugs(s, order.(status := CANCELLED), 3, 5, false);
  }

  /** A paid order cannot be paid twice, and paying leaves the stock alone. */
  method CheckoutThenPay() returns (paid: Response<Order>, again: Response<Order>, stock: int)
    ensures paid.Ok? && paid.value.status == PAID && paid.value.total == 2000
    ensures again == Error(BadRequest("Order is already PAID"))
    ensures stock == 3
  {
    RejectionMessages();
    var s := MugShop();
    var added := AddMugs(s, 0, 2);
    var checkout := CheckoutMugs(s, 2);
    paid := PayMugs(s, checkout.value, 2, 3, false);
    again := PayMugs(s, paid.value, 2, 3, false);
    stock := s.products[1].stock;
  }

  /** Adding 3 twice when 5 are in stock is accepted, because each add checks
      only its own quantity; the cart then holds 6 and checkout fails
      without touching the stock. */
  method OversizedCart() returns (second: Response<CartItem>, checkout: Response<Order>, stock: int)
    ensures second == Ok(CartItem(1, 1, 6))
    ensures checkout == Unhandled("Insufficient stock for " + Mug.title)
    ensures stock == 5
  {
    var s := MugShop();
    var first := AddMugs(s, 0, 3);
    second := AddMugs(s, 3, 3);
    checkout := CheckoutTooMany(s, 6);
    stock := s.products[1].stock;
  }

  /** An account registered with an administrator address logs in with the
      same password and gets the same public user back. */
  method RegisterThenLogin() returns (registered: Response<Session>, loggedIn: Response<Session>)
    ensures registered.Created? && loggedIn.Ok? && loggedIn.value.user == registered.value.user
    ensures registered.value.user == PublicUser(1, "root@admin.com", None, ADMIN)
  {
    var s := new Store();
    var hash := (pw: string) => "h:" + pw;
    var compare := (pw: string, h: string) => h == "h:" + pw;
    var sign := (id: int, role: string) => role;
    assert AuthRules.EndsWith("root@admin.com", AuthRules.AdminSuffix);
    registered := s.Register(Some("root@admin.com"), Some("secret"), None, hash, sign);
    loggedIn := s.Login(Some("root@admin.com"), Some("secret"), compare, sign);
  }

  /** Checkout of a cart that passes the stock check, as far as the product
      table and the new order go. */
  method CheckoutStep(s: Store, userId: int) returns (order: Order)
    requires s.Valid() && s.CartOf(userId) != [] && Sufficient(s.products, s.CartOf(userId))
    modifies s
    ensures s.Valid()
    ensures order.userId == userId && order.status == PENDING
    ensures order.items == Snapshot(old(s.products), old(s.CartOf(userId)))
    ensures s.products == Taken(old(s.products), old(s.CartOf(userId)))
    ensures s.orders == old(s.orders)[order.id := order]
  {
    var r := s.Checkout(userId);
    order := r.value;
  }

  /** A declined payment of a PENDING order of the caller's. */
  method DeclineStep(s: Store, order: Order) returns (payment: Response<Order>)
    requires s.Valid() && order.id in s.orders && s.orders[order.id] == order && order.status == PENDING
    modifies s
    ensures s.Valid()
    ensures payment == Error(BadRequest("Payment failed (mock Stripe): Card declined (mock)"))
    ensures s.products == Restored(old(s.products), order.items)
    ensures s.orders == old(s.orders)[order.id := order.(status := CANCELLED)]
  {
    payment := s.Pay(order.userId, order.id, None, Some(true));
  }

  /** On any store whose cart passes the stock check: declining the payment
      of the order checkout created cancels that order and gives back exactly
      the product table checkout started from. */
  method DeclineUndoesCheckout(s: Store, userId: int) returns (order: Order, payment: Response<Order>)
    requires s.Valid() && s.CartOf(userId) != [] && Sufficient(s.products, s.CartOf(userId))
    modifies s
    ensures s.Valid()
    ensures payment == Error(BadRequest("Payment failed (mock Stripe): Card declined (mock)"))
    ensures s.products == old(s.products)
    ensures s.orders == old(s.orders)[order.id := order.(status := CANCELLED)]
  {
    ghost var before, orders := s.products, s.orders;
    ghost var items := s.CartOf(userId);
    order := CheckoutStep(s, userId);
    RestoreUndoesTake(before, items);
    payment := DeclineStep(s, order);
    UpdateTwice(orders, order.id, order, order.(status := CANCELLED));
  }

  /** Of two updates of one key, the later wins. */
  lemma UpdateTwice<K, V>(m: map<K, V>, k: K, a: V, b: V)
    ensures m[k := a][k := b] == m[k := b]
  {
  }

  /** On any store whose stock is not negative, checkout keeps it so: a
      checkout either leaves the products as they were or takes from each
      product exactly what the cart asked for, never more than it had. */
  method CheckoutKeepsStockNonNegative(s: Store, userId: int) returns (r: Response<Order>)
    requires s.Valid() && forall k | k in s.products :: s.products[k].stock >= 0
    modifies s
    ensures s.Valid() && s.products.Keys == old(s.products).Keys
    ensures forall k | k in s.products :: s.products[k].stock >= 0
    ensures !r.Created? ==> s.products == old(s.products)
    ensures r.Created? ==>
      forall k | k in s.products :: s.products[k] == old(s.products)[k].(stock := old(s.products)[k].stock - Demand(old(s.CartOf(userId)), k))
  {
    ghost var before := s.products;
    ghost var items := s.CartOf(userId);
    r := s.Checkout(userId);
    if r.Created? {
      CheckoutStock(before, items);
      TakenStock(before, items);
    }
  }
}
