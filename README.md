# E-commerce monolith: store, guards and route handlers in Dafny

This project models the business logic of a small e-commerce HTTP server. Products have a title, a price
and a stock count. Customers register, log in and get a bearer token. They fill a cart, check it out into a
PENDING order, and pay that order through a mock gateway. A paid order becomes PAID. A declined payment
cancels the order and puts its stock back.

The model has these parts:

- `Records` (records.dfy): the entities as datatypes, the order status and user role, the error replies
  with their HTTP codes, and JavaScript truthiness of optional body fields (`StringGiven`, `NumberGiven`).
- `Middleware` (middleware.dfy): the two guards. `protect` reads the bearer token out of the
  `Authorization` header with `split(' ')[1]` and attaches the verified payload to the request. `adminOnly`
  lets only role `"ADMIN"` through. The request is a class, because `protect` writes its `user` field.
- `AuthRules` (auth_rules.dfy): the register and login decisions that do not touch the store. These are
  the credential check, the role given by the `@admin.com` suffix, and the password-less public user.
- `CartRows` (cart_rows.dfy): the cart-item table, with its compound key (cartId, productId). It has the
  upsert, update, delete and delete-many row operations, and lemmas on what each one changes.
- `StockRules` (stock_rules.dfy): checkout's order snapshot, total and stock decrement, and the
  compensation's stock increment. Each is stated as a function on the product table.
- `PaymentRules` (payment_rules.dfy): the mock gateway's decline rule and the status a pay call leads to.
- `Shop` (shop.dfy): the `Store` class, which holds the products, carts, cart items, orders and users.
  Every route handler is a method of it, or a function when it only reads. Each returns the reply the
  handler sends. `Valid()` is the store invariant, which every handler keeps. It requires:
  - ids below the auto-increment counters;
  - unique cart-item keys;
  - references to existing products;
  - the one-cart-per-user map is injective;
  - order timestamps increase with the order id.
- `Scenarios` (scenarios.dfy): concrete runs on a fresh store, composed from small step methods:
  - checkout, then a declined payment, then a retry;
  - checkout, then payment, then a second payment;
  - the oversized cart the add handler lets through;
  - register, then login.

  It also states two properties on any store: checkout followed by a declined payment gives back the
  product table, and checkout keeps stock non-negative.

Checkout, payment and the cart handlers are written imperatively. The stock check, the stock decrement
and the compensation are `for` loops, and each is proved equal to a function on the table. Those
functions are defined by recursion on the prefix of the item list, and their properties are lemmas.

The password hasher, the hash comparison, the token signer and the token verifier are function
parameters (`hash`, `compare`, `sign`, `verify`). The database's `createdAt` timestamp is the store's
`clock` counter, which each new order advances.

## Model

| member | source | states |
|---|---|---|
| Middleware.HasBearerPrefix | src/middleware/auth.middleware.ts:11 | the header passes exactly when it is present and is "Bearer " followed by some token |
| Middleware.Split | src/middleware/auth.middleware.ts:15 | `split` on one separator gives at least one field, no field contains the separator, and joining the fields with it rebuilds the string |
| Middleware.SplitJoin | src/middleware/auth.middleware.ts:15 | splitting a join of separator-free fields gives the fields back |
| Middleware.TokenOf | src/middleware/auth.middleware.ts:15 | the token taken from a "Bearer " header contains no space, directly follows the prefix, and ends at the end of the header or at a space |
| Middleware.BearerRoundTrip | src/middleware/auth.middleware.ts:11-15 | a header "Bearer " + token (token without spaces) passes the prefix test and yields exactly that token |
| Middleware.Protect | src/middleware/auth.middleware.ts:8-24 | a header without the "Bearer " prefix gets 401 "No token provided"; a token that does not verify gets 401 "Invalid or expired token"; in both cases the request user is untouched; otherwise the verified payload is attached and the request goes on; every halt carries status 401 |
| Middleware.AdminOnly | src/middleware/auth.middleware.ts:26-31 | the request goes on exactly when a user with role "ADMIN" is attached; otherwise 403 "Admin access required", a halt whose status code is 403 |
| AuthRules.RoleFor | src/routes/auth.routes.ts:30 | the role a new account receives: ADMIN when the email ends in "@admin.com", CUSTOMER otherwise (characterised by AdminExactlyBySuffix) |
| AuthRules.CredentialsGiven | src/routes/auth.routes.ts:13 | register and login go on exactly when neither the email nor the password is absent or empty |
| AuthRules.AdminExactlyBySuffix | src/routes/auth.routes.ts:30 | a new account is ADMIN exactly when its email is some local part followed by "@admin.com" |
| AuthRules.PublicViewHidesPassword | src/routes/auth.routes.ts:63-64 | the login reply's user does not depend on the stored password hash: two user rows give the same public view exactly when they differ at most in the password |
| AuthRules.AdminGateFollowsEmail | src/routes/auth.routes.ts:30-35 | a request whose attached payload carries the role a registration assigns passes `adminOnly` exactly when the email ends in "@admin.com" |
| Shop.Store.Register | src/routes/auth.routes.ts:10-41 | an absent or empty email or password gets 400; a taken email gets 400 and the store is unchanged; otherwise a user with the next id, the hashed password and the suffix role is added under its email, and the reply is 201 with the public user and a token signed for its id and role |
| Shop.Store.Login | src/routes/auth.routes.ts:44-68 | missing credentials get 400; an unknown email or a failed comparison gets 401 "Invalid credentials"; the reply is 200 exactly when the credentials are given, the user exists and the password compares, and then it is that user without the password plus a token for its id and role |
| Shop.Store.ListProducts | src/routes/product.routes.ts:9-18 | a product is in the listing exactly when it is the stored product under its id |
| Shop.Store.GetProduct | src/routes/product.routes.ts:21-34 | the stored product exactly when the id exists, otherwise 404 "Product not found" |
| Shop.Store.CreateProduct | src/routes/product.routes.ts:37-53 | a missing or empty title or a missing or zero price gets 400 and the store is unchanged; otherwise the product gets a fresh id and is added, the counter advances, and the reply is 201 with it |
| Shop.Store.UpdateProduct | src/routes/product.routes.ts:56-73 | an unknown id gets 404 and the store is unchanged; otherwise each given field replaces the stored one, the others are kept, and only that product changes |
| Shop.Store.Referenced | src/routes/product.routes.ts:80-86 | the product is named by some cart item or by some item of some order, which is when the delete is refused |
| Shop.Store.DeleteProduct | src/routes/product.routes.ts:76-88 | an unknown id gets 404; a product still referenced by a cart or order item gets 500 and stays; otherwise exactly that product is removed |
| CartRows.IndexOf | src/routes/cart.routes.ts:64 | the position found holds the key, and no earlier row (no row at all, when nothing is found) holds it |
| CartRows.FoundAt | src/routes/cart.routes.ts:64 | under unique keys, the row holding a key is the one the lookup finds, and its quantity is the stored quantity |
| CartRows.ItemsOf | src/routes/cart.routes.ts:13-20 | a row is among a cart's items exactly when it is in the table and belongs to that cart |
| CartRows.NoItemsOf | src/routes/cart.routes.ts:22-28 | a cart no row refers to has no items |
| CartRows.ItemsOfUnique | src/routes/cart.routes.ts:62-64 | under unique keys, a cart's items have unique keys and pairwise distinct products |
| CartRows.Upsert | src/routes/cart.routes.ts:62-77 | every row keeps its position and key, rows of other keys are untouched, and one row is added exactly when the key was missing |
| CartRows.Assign | src/routes/cart.routes.ts:99-105 | every row keeps its position and key, rows of other keys are untouched, and no row is added or removed |
| CartRows.Delete | src/routes/cart.routes.ts:125-129 | no row is added, and one row is removed exactly when the key was present |
| CartRows.UpsertEffect | src/routes/cart.routes.ts:62-77 | the upsert keeps keys unique, leaves the key's quantity at the old quantity (0 if none) plus the added amount, and changes no other key |
| CartRows.AssignEffect | src/routes/cart.routes.ts:99-105 | the update keeps keys unique, sets the quantity of an existing key, leaves a missing key missing, and changes no other key |
| CartRows.DeleteEffect | src/routes/cart.routes.ts:125-129 | the delete keeps keys unique, removes the key, and changes no other key |
| CartRows.ClearCart | src/routes/order.routes.ts:79 | a row survives exactly when it is in the table and belongs to another cart |
| CartRows.ClearCartUnique | src/routes/order.routes.ts:79 | clearing a cart keeps keys unique |
| CartRows.ClearCartEffect | src/routes/order.routes.ts:79 | after clearing, the cart has no items and no quantity under any product, and every other cart's quantities are as before |
| Shop.Store.CartFor | src/routes/cart.routes.ts:56-59 | an existing cart id is returned with the store unchanged; otherwise a cart with the next id is created for the user, and it has no items |
| Shop.Store.GetCart | src/routes/cart.routes.ts:9-34 | the reply is the user's cart with exactly its rows; a user without a cart gets a new empty one under the next cart id |
| Shop.Store.PutItem | src/routes/cart.routes.ts:62-77 | the upsert on the store: the key's row ends at the old quantity (0 if none) plus the added amount, the reply row carries that quantity, and the store stays valid |
| Shop.Store.AddItem | src/routes/cart.routes.ts:37-83 | a missing productId or a quantity below 1 gets 400; an unknown product gets 404; a product whose stock is below the requested quantity gets 400 "Insufficient stock"; in these cases the store is unchanged; otherwise the cart is found or created (the cart counter advances only when it is created) and the row is upserted, and the reply carries the new quantity (old plus requested) |
| Shop.Store.UpdateItem | src/routes/cart.routes.ts:86-114 | a given quantity below 1 gets 400; no cart gets 404 "Cart not found"; no such row gets 404 "Item not in cart"; otherwise the row's quantity becomes the given one, or stays when none is given |
| Shop.Store.RemoveItem | src/routes/cart.routes.ts:117-138 | no cart gets 404 "Cart not found"; no such row gets 404 "Item not in cart"; otherwise exactly that row is removed |
| Shop.NewestFirst | src/routes/order.routes.ts:13-21 | the user's orders below an id bound in strictly descending id order: each is stored and the user's, and every user order below the bound is present |
| Shop.Store.ListOrders | src/routes/order.routes.ts:9-26 | every listed order is stored and belongs to the caller; every order of the caller is listed; createdAt strictly decreases along the list |
| Shop.CartRowsCovered | src/routes/order.routes.ts:34-37 | a cart's items refer to existing products and have quantity at least 1 |
| Shop.Store.CartOf | src/routes/order.routes.ts:34-41 | the items of the user's cart (none without a cart), all of which refer to existing products, have distinct products and quantity at least 1 |
| StockRules.CheckStock | src/routes/order.routes.ts:43-51 | the loop stops at the first item whose quantity exceeds its product's stock; no such item means every item fits; when every item fits, the running total is the total of the order snapshot |
| StockRules.RunningTotalIsOrderTotal | src/routes/order.routes.ts:44-51 | what the loop has added up over the first n cart items equals the total of the snapshot of those n items |
| StockRules.Snapshot | src/routes/order.routes.ts:59-64 | one order item per cart item, in order, with the product id, the quantity and the product's current price |
| StockRules.OrderTotal | src/routes/order.routes.ts:44-51 | the sum of price times quantity, accumulated in item order; not negative when no price or quantity is |
| StockRules.SnapshotTotal | src/routes/order.routes.ts:44-64 | the order total (summed as the loop does) equals the cart's value at current prices (summed independently) |
| Shop.Store.TakeStock | src/routes/order.routes.ts:70-76 | the decrement loop leaves the table equal to the table with every cart item's quantity taken off its product |
| StockRules.Taken | src/routes/order.routes.ts:70-76 | the table after one decrement per cart item; it has the same product ids (its effect per product is TakenStock) |
| StockRules.TakenStock | src/routes/order.routes.ts:70-76 | each product's stock drops by exactly what the cart asks for it, and nothing else about any product changes |
| StockRules.CheckoutStock | src/routes/order.routes.ts:44-76 | when every item fits and products are distinct: each cart product ends at its stock minus its quantity, which is not negative; every other product is untouched; non-negative stock stays non-negative |
| Shop.CheckoutKeepsTables | src/routes/order.routes.ts:53-79 | the decremented table, the cleared cart-item rows and the order table with the new order (newest id and timestamp) are all well formed |
| Shop.Store.PlaceOrder | src/routes/order.routes.ts:53-79 | the three writes of the transaction: the order is added under its id, the stock is taken, and the cart's rows are deleted; the store is valid afterwards when the tables it writes are |
| Shop.Store.CommitOrder | src/routes/order.routes.ts:53-81 | the new order has the next id, the caller, status PENDING, the snapshot items, the loop's total and the current timestamp; stock is taken and the cart is emptied; the store stays valid |
| Shop.Store.Checkout | src/routes/order.routes.ts:29-89 | an empty or missing cart gives the unhandled "Cart is empty"; a cart item over stock gives the unhandled "Insufficient stock for " + the title of the first such product; both leave the store unchanged; otherwise the reply is 201 with the order CommitOrder describes, under an id no order had, and its total is the cart's value at current prices |
| PaymentRules.Declined | src/routes/payment.routes.ts:18-40 | the mock gateway declines exactly when shouldFail is true or paymentMethodId is absent or empty |
| PaymentRules.AfterPayment | src/routes/payment.routes.ts:29-80 | a non-PENDING status is left as it is; a PENDING one becomes PAID when not declined, CANCELLED when declined |
| PaymentRules.TerminalAfterPayment | src/routes/payment.routes.ts:29-31 | a second pay call never changes the status the first one settled |
| Shop.Store.RestoreStock | src/routes/payment.routes.ts:73-79 | the increment loop leaves the table equal to the table with every order item's quantity put back on its product |
| StockRules.Restored | src/routes/payment.routes.ts:73-79 | the table after one increment per order item; it has the same product ids (its effect per product is RestoredStock) |
| StockRules.RestoredStock | src/routes/payment.routes.ts:73-79 | each product's stock rises by exactly what the order holds of it, and nothing else changes |
| StockRules.RestoreUndoesTake | src/routes/payment.routes.ts:67-80 | putting back the stock of the order that checkout created gives back exactly the product table checkout started from |
| Shop.PaymentKeepsTables | src/routes/payment.routes.ts:43-80 | changing one order's status, with or without putting its stock back, keeps the product, cart-item and order tables well formed |
| Shop.Store.Settle | src/routes/payment.routes.ts:37-86 | on a PENDING order: without a decline it becomes PAID and the stock is untouched; with one the reply is 400 "Payment failed (mock Stripe): Card declined (mock)", it becomes CANCELLED and each product gets back what the order holds of it |
| Shop.Store.Pay | src/routes/payment.routes.ts:15-87 | an order that is missing or not the caller's gets 404; one not PENDING gets 400 "Order is already <status>"; both change nothing; otherwise a payment that is not declined makes it PAID and leaves stock alone; a declined one gets 400 "Payment failed (mock Stripe): Card declined (mock)", cancels it and puts each product's held quantity back |
| Scenarios.DeclineUndoesCheckout | src/routes/payment.routes.ts:67-80 | on any store whose cart passes the stock check, checkout followed by a declined payment cancels the new order and leaves the product table exactly as it was before checkout |
| Scenarios.CheckoutKeepsStockNonNegative | src/routes/order.routes.ts:44-76 | on any store without negative stock, checkout leaves no negative stock, keeps the product ids, and either changes no product or takes from each exactly the cart's demand for it |
| Scenarios.CheckoutThenDecline | src/routes/payment.routes.ts:15-87 | 3 of 5 mugs at 1000 cents check out for 3000, leaving 2; the declined card brings the stock back to 5; paying again gets "Order is already CANCELLED" |
| Scenarios.CheckoutThenPay | src/routes/payment.routes.ts:29-31 | a paid 2-mug order totals 2000, cannot be paid again ("Order is already PAID"), and leaves the stock at 3 |
| Scenarios.OversizedCart | src/routes/cart.routes.ts:53 | two adds of 3 against a stock of 5 both succeed, the cart holds 6, and checkout fails with "Insufficient stock for Mug" while the stock stays 5 |
| Scenarios.RegisterThenLogin | src/routes/auth.routes.ts:10-68 | an account registered under "root@admin.com" is ADMIN, and logging in with its password returns the same public user |

## Quirks

These behaviours of the code are modelled as written and shown by the scenarios.

- Checkout throws "Cart is empty" (src/routes/order.routes.ts:40) and "Insufficient stock for ..."
  (src/routes/order.routes.ts:48) inside the transaction. The `try` at src/routes/order.routes.ts:84-88
  wraps only the 201 reply, so these exceptions escape the handler and no 400 is sent. The model returns
  `Unhandled(reason)` and leaves the store as it was, since the transaction is rolled back. The catch at
  src/routes/order.routes.ts:86-87 shows that a 400 with the error message was intended, but it cannot
  be reached by these exceptions; the model follows the code as it runs.
- Adding to the cart compares only the requested quantity with the stock (src/routes/cart.routes.ts:53),
  not the quantity the cart already holds. A cart can therefore ask for more than the stock, and only
  checkout refuses it (`Scenarios.OversizedCart`).
- Updating a cart item never consults the stock (src/routes/cart.routes.ts:91-105). An absent quantity
  passes the `quantity < 1` test and leaves the row as it is.
- Product create accepts any `stock`, and update validates nothing, so prices and stock may be zero or
  negative. Create rejects a price of 0, because `!price` holds for it.

## Left out

- HTTP routing and Express plumbing are not modelled. `protect` and `adminOnly` are modelled on their own,
  but which routes they guard is not. A handler's `userId` is the one `protect` attached.
- src/index.ts mounts only the auth and product routers. The cart, order and payment handlers are
  modelled as written, even though that file does not mount them.
- bcrypt hashing and comparison, and JWT signing and verification (src/utils/auth.ts), are opaque function
  parameters. Token expiry is part of `verify`. The issue and expiry times that `generateToken` stamps into
  each token are not modelled: `sign` is a function of the user id and role only, so two tokens for the same
  user are the same token in the model, which they are not in the system.
- Unexpected store failures and their 500 replies ("Failed to fetch ...", "Failed to add to cart", and so
  on) are not modelled: the store is an in-memory value that does not fail. The exception is the
  referenced-product delete, modelled as a 500 on the assumption that the foreign keys use the ORM's
  default restrict rule. The schema is not part of this model.
- Pay: a store failure inside the success transaction would fall into the decline branch and cancel a paid
  attempt. This is not modelled, because the store does not fail.
- The 1200 ms delay and the console log of the payment handler are not modelled. Concurrency between
  requests is not modelled either: each handler is one atomic transition.
- The ORM's relation projections are not modelled: the product fields included in replies, and the
  `success`/`message` wrapper of the pay reply. Replies carry the modelled records.
- Product `description` and `image` are not modelled, because no rule reads them.
- Shop.Store.CreateProduct: the stock is an `int` argument. The database default for an absent stock is
  not modelled, since the schema is not part of this model.
- Prices are integers (cents). JavaScript number arithmetic, floating point included, is not modelled.
- Route parameters are `int`s, so `Number(...)` parsing of a non-numeric id (NaN) is not modelled. Neither
  are JSON body fields of the wrong type.
- Shop.Store.ListProducts: states the listing as a set; the database's row order is not modelled.
- Shop.Store.Checkout: the order in which the ORM returns a cart's items is not fixed by the source (no
  `orderBy`); the model takes it to be the cart table's insertion order. That order decides which product
  the "Insufficient stock for ..." error names when several are short, and the item order of the order
  snapshot and of the GET /api/cart reply.
- Shop.Store.ListOrders: ties of `createdAt` do not arise, because the model's clock strictly increases.
- The user foreign key of carts and orders is not modelled. A cart or an order may name any user id that
  `protect` attached.
