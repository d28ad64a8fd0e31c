/** What checkout and a declined payment do to prices, totals and stock,
    stated on the product table as a value. */
module StockRules {
  import opened Records

  /** Every cart item refers to a product of the table. */
  predicate Covers(products: map<int, Product>, items: seq<CartItem>) {
    forall i | 0 <= i < |items| :: items[i].productId in products
  }

  /** Every order item refers to a product of the table. */
  predicate OrderCovers(products: map<int, Product>, items: seq<OrderItem>) {
    forall i | 0 <= i < |items| :: items[i].productId in products
  }

  /** Every cart item asks for no more than its product's current stock. */
  predicate Sufficient(products: map<int, Product>, items: seq<CartItem>)
    requires Covers(products, items)
  {
    forall i | 0 <= i < |items| :: items[i].quantity <= products[items[i].productId].stock
  }

  /** No product occurs in two cart items. */
  predicate DistinctProducts(items: seq<CartItem>) {
    forall i, j | 0 <= i < j < |items| :: items[i].productId != items[j].productId
  }

  /** The order items checkout creates: one per cart item, with the product's
      price at checkout time. */
  function Snapshot(products: map<int, Product>, items: seq<CartItem>): (r: seq<OrderItem>)
    requires Covers(products, items)
    ensures |r| == |items| && OrderCovers(products, r)
    ensures forall i | 0 <= i < |items| ::
      r[i] == OrderItem(items[i].productId, items[i].quantity, products[items[i].productId].price)
  {
    if items == [] then []
    else
      var last := items[|items| - 1];
      Snapshot(products, items[..|items| - 1]) + [OrderItem(last.productId, last.quantity, products[last.productId].price)]
  }

  /** Checkout's validation loop: the first cart item that asks for more
      than its product's stock (-1 when none does), and the total of the
      cart at current prices. */
  method CheckStock(products: map<int, Product>, items: seq<CartItem>) returns (short: int, total: int)
    requires Covers(products, items)
    ensures -1 <= short < |items|
    ensures short < 0 <==> Sufficient(products, items)
    ensures short >= 0 ==>
      items[short].quantity > products[items[short].productId].stock &&
      forall i | 0 <= i < short :: items[i].quantity <= products[items[i].productId].stock
    ensures short < 0 ==> total == OrderTotal(Snapshot(products, items))
  {
    total := 0;
    for i := 0 to |items|
      invariant total == RunningTotal(products, items, i)
      invariant forall j | 0 <= j < i :: items[j].quantity <= products[items[j].productId].stock
    {
      var product := products[items[i].productId];
      if product.stock < items[i].quantity {
        return i, total;
      }
      total := total + product.price * items[i].quantity;
    }
    RunningTotalIsOrderTotal(products, items, |items|);
    assert items[..|items|] == items;
    short := -1;
  }

  /** The total of the first `n` cart items at current prices, as checkout's loop adds it up. */
  function RunningTotal(products: map<int, Product>, items: seq<CartItem>, n: int): int
    requires Covers(products, items) && 0 <= n <= |items|
  {
    if n == 0 then 0
    else RunningTotal(products, items, n - 1) + products[items[n - 1].productId].price * items[n - 1].quantity
  }

  /** The loop's running total over a prefix is the total of that prefix's snapshot. */
  lemma {:induction false} RunningTotalIsOrderTotal(products: map<int, Product>, items: seq<CartItem>, n: int)
    requires Covers(products, items) && 0 <= n <= |items|
    ensures Covers(products, items[..n])
    ensures RunningTotal(products, items, n) == OrderTotal(Snapshot(products, items[..n]))
  {
    if n > 0 {
      RunningTotalIsOrderTotal(products, items, n - 1);
      SnapshotStep(products, items, n);
      var last := items[n - 1];
      OrderTotalAppend(Snapshot(products, items[..n - 1]), last.productId, last.quantity, products[last.productId].price);
    }
  }

  /** The snapshot of one more cart item is the old snapshot with that item's line appended. */
  lemma SnapshotStep(products: map<int, Product>, items: seq<CartItem>, n: int)
    requires Covers(products, items) && 0 < n <= |items| && Covers(products, items[..n - 1])
    ensures Covers(products, items[..n])
    ensures var last := items[n - 1];
      Snapshot(products, items[..n]) ==
      Snapshot(products, items[..n - 1]) + [OrderItem(last.productId, last.quantity, products[last.productId].price)]
  {
    assert items[..n][..n - 1] == items[..n - 1];
  }

  /** Appending a line adds its price times quantity to the total. */
  lemma OrderTotalAppend(lines: seq<OrderItem>, productId: int, quantity: int, price: int)
    ensures OrderTotal(lines + [OrderItem(productId, quantity, price)]) == OrderTotal(lines) + price * quantity
  {
    assert (lines + [OrderItem(productId, quantity, price)])[..|lines|] == lines;
  }

  /** The sum of price times quantity over order items, accumulated in item order. */
  function OrderTotal(items: seq<OrderItem>): (total: int)
    ensures (forall i | 0 <= i < |items| :: items[i].price >= 0 && items[i].quantity >= 0) ==> total >= 0
  {
    if items == [] then 0
    else OrderTotal(items[..|items| - 1]) + items[|items| - 1].price * items[|items| - 1].quantity
  }

  /** Reference definition of what a cart costs at the current prices. */
  function CartValue(products: map<int, Product>, items: seq<CartItem>): int
    requires Covers(products, items)
  {
    if items == [] then 0
    else products[items[0].productId].price * items[0].quantity + CartValue(products, items[1..])
  }

  lemma {:induction false} CartValueAppend(products: map<int, Product>, items: seq<CartItem>, x: CartItem)
    requires Covers(products, items) && x.productId in products
    ensures Covers(products, items + [x])
    ensures CartValue(products, items + [x]) == CartValue(products, items) + products[x.productId].price * x.quantity
  {
    if items != [] {
      assert (items + [x])[1..] == items[1..] + [x];
      CartValueAppend(products, items[1..], x);
    }
  }

  /** The order's total is what its cart costs at checkout-time prices. */
  lemma {:induction false} SnapshotTotal(products: map<int, Product>, items: seq<CartItem>)
    requires Covers(products, items)
    ensures OrderTotal(Snapshot(products, items)) == CartValue(products, items)
  {
    if items != [] {
      var init := items[..|items| - 1];
      var last := items[|items| - 1];
      SnapshotTotal(products, init);
      var s := Snapshot(products, items);
      assert s[..|s| - 1] == Snapshot(products, init);
      CartValueAppend(products, init, last);
      assert init + [last] == items;
    }
  }

  /** How many units of one product the cart items ask for. */
  function Demand(items: seq<CartItem>, productId: int): int {
    if items == [] then 0
    else
      var last := items[|items| - 1];
      Demand(items[..|items| - 1], productId) + (if last.productId == productId then last.quantity else 0)
  }

  /** How many units of one product the order items hold. */
  function OrderDemand(items: seq<OrderItem>, productId: int): int {
    if items == [] then 0
    else
      var last := items[|items| - 1];
      OrderDemand(items[..|items| - 1], productId) + (if last.productId == productId then last.quantity else 0)
  }

  /** The product table after checkout's stock loop, one decrement per cart item. */
  function Taken(products: map<int, Product>, items: seq<CartItem>): (r: map<int, Product>)
    requires Covers(products, items)
    ensures r.Keys == products.Keys
  {
    if items == [] then products
    else
      var before := Taken(products, items[..|items| - 1]);
      var last := items[|items| - 1];
      before[last.productId := before[last.productId].(stock := before[last.productId].stock - last.quantity)]
  }

  /** The product table after the compensation loop, one increment per order item. */
  function Restored(products: map<int, Product>, items: seq<OrderItem>): (r: map<int, Product>)
    requires OrderCovers(products, items)
    ensures r.Keys == products.Keys
  {
    if items == [] then products
    else
      var before := Restored(products, items[..|items| - 1]);
      var last := items[|items| - 1];
      before[last.productId := before[last.productId].(stock := before[last.productId].stock + last.quantity)]
  }

  /** Checkout lowers each product's stock by exactly the cart's demand for it
      and changes nothing else in the table. */
  lemma {:induction false} TakenStock(products: map<int, Product>, items: seq<CartItem>)
    requires Covers(products, items)
    ensures forall k | k in products ::
      Taken(products, items)[k] == products[k].(stock := products[k].stock - Demand(items, k))
  {
    if items != [] {
      TakenStock(products, items[..|items| - 1]);
    }
  }

  /** Compensation raises each product's stock by exactly the order's holding
      of it and changes nothing else in the table. */
  lemma {:induction false} RestoredStock(products: map<int, Product>, items: seq<OrderItem>)
    requires OrderCovers(products, items)
    ensures forall k | k in products ::
      Restored(products, items)[k] == products[k].(stock := products[k].stock + OrderDemand(items, k))
  {
    if items != [] {
      RestoredStock(products, items[..|items| - 1]);
    }
  }

  /** An order holds, per product, what its cart asked for. */
  lemma {:induction false} SnapshotDemand(products: map<int, Product>, items: seq<CartItem>, k: int)
    requires Covers(products, items)
    ensures OrderDemand(Snapshot(products, items), k) == Demand(items, k)
  {
    if items != [] {
      var s := Snapshot(products, items);
      assert s[..|s| - 1] == Snapshot(products, items[..|items| - 1]);
      SnapshotDemand(products, items[..|items| - 1], k);
    }
  }

  /** Compensation undoes checkout: restoring the stock of the order that
      checkout created gives back the product table checkout started from. */
  lemma RestoreUndoesTake(products: map<int, Product>, items: seq<CartItem>)
    requires Covers(products, items)
    ensures OrderCovers(Taken(products, items), Snapshot(products, items))
    ensures Restored(Taken(products, items), Snapshot(products, items)) == products
  {
    var taken := Taken(products, items);
    var order := Snapshot(products, items);
    TakenStock(products, items);
    RestoredStock(taken, order);
    forall k | k in products ensures Restored(taken, order)[k] == products[k] {
      SnapshotDemand(products, items, k);
    }
  }

  /** With distinct products, the demand for a product is the quantity of its
      one cart item, or nothing. */
  lemma {:induction false} DemandOfDistinct(items: seq<CartItem>, k: int)
    requires DistinctProducts(items)
    ensures (forall i | 0 <= i < |items| :: items[i].productId != k) ==> Demand(items, k) == 0
    ensures forall i | 0 <= i < |items| && items[i].productId == k :: Demand(items, k) == items[i].quantity
  {
    if items != [] {
      var init := items[..|items| - 1];
      assert DistinctProducts(init);
      DemandOfDistinct(init, k);
      if items[|items| - 1].productId == k {
        assert forall i | 0 <= i < |init| :: init[i].productId != k;
      }
    }
  }

  /** The stock check is enough: when every item fits its product's stock
      and no product occurs twice, checkout leaves each product of the cart
      at its stock minus its item's quantity, which is not negative, and
      leaves every other product as it was. */
  lemma CheckoutStock(products: map<int, Product>, items: seq<CartItem>)
    requires Covers(products, items) && DistinctProducts(items) && Sufficient(products, items)
    ensures forall i | 0 <= i < |items| ::
      Taken(products, items)[items[i].productId].stock == products[items[i].productId].stock - items[i].quantity >= 0
    ensures forall k | k in products && (forall i | 0 <= i < |items| :: items[i].productId != k) ::
      Taken(products, items)[k] == products[k]
    ensures (forall k | k in products :: products[k].stock >= 0) ==>
      forall k | k in products :: Taken(products, items)[k].stock >= 0
  {
    TakenStock(products, items);
    forall k | k in products
      ensures Demand(items, k) <= products[k].stock || products[k].stock < 0
      ensures (forall i | 0 <= i < |items| :: items[i].productId != k) ==> Demand(items, k) == 0
      ensures forall i | 0 <= i < |items| && items[i].productId == k :: Demand(items, k) == items[i].quantity
    {
      DemandOfDistinct(items, k);
    }
  }
}
