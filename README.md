# Verified model of the madhoor-pureline e-commerce backend

This project models the request handlers of an Express + Prisma shop backend:

- the bearer-token guard `protect` and the role gate `isAdmin`;
- the checkout flow: the buy-now gateway order, the payment-signature check,
  pricing of the claimed items from the catalog, and the order record;
- who may see which order;
- the cart handlers;
- sign-up and log-in;
- the product catalog handlers.

Each database table is in-memory state. The product, cart, user and order
tables are fields of the classes `Products.Catalog`, `Carts.CartStore`,
`Accounts.UserTable` and `Orders.OrderBook`. The handlers that write become
methods with `modifies` clauses, and their contracts give the whole new state
and the reply. Four handlers that write nothing (`protect`, `isAdmin`,
`login`, `createBuyNowOrder`) become functions; the other reads (`getProducts`,
`getOneProduct`, `getCart`, `getOrders`, `getOrderInvoice`) are methods of the
table classes without a `modifies` clause. The libraries are function-valued
parameters with no further properties: bcrypt's `hash` and `compare`,
`jwt.sign` and `jwt.verify`, the HMAC-SHA256 of RFC 2104, and the payment
gateway's order creation. Secrets and other environment values, the random
salt and the clock are explicit parameters.

Modules: `Wrappers` (Option), `Http` (ids, replies, JavaScript truthiness),
`Strings` (`startsWith`, `split` on one character), `Middleware`
(src/middleware/auth.ts), `Products`, `Carts`, `Accounts`, `Orders` (one per
controller).

Behaviours of the code worth naming:

- `verifyPaymentAndCreateOrder` checks only `Array.isArray(items)`, so an
  empty `items` array is accepted and makes an order with total 0.
- The token is the second field of `split(' ')`, so "Bearer a b" verifies
  "a" and "Bearer  x" has an empty token (`Middleware.TokenStopsAtSpace`,
  `Middleware.EmptyTokenField`).
- A JWT secret that is set but empty counts as unset, as `!secret` does in
  JavaScript: `protect` throws and `createJWT` throws.

## Model

| member | source | states |
|---|---|---|
| `Strings.Split` | src/middleware/auth.ts:25 | `split` on one character gives at least one field, no field holds the separator, and joining the fields back gives the input |
| `Strings.SplitJoin` | src/middleware/auth.ts:25 | splitting a join of separator-free fields gives back exactly those fields |
| `Strings.FirstWord` | src/middleware/auth.ts:25 | the text before the first space is a space-free prefix, followed by a space or by the end |
| `Middleware.BearerToken` | src/middleware/auth.ts:21-25 | for a header "Bearer " + rest, the second split field is the text of rest up to its first space |
| `Middleware.Protect` | src/middleware/auth.ts:13-39 | no secret or an empty one: throws whatever the header holds. A missing header or one without the case-sensitive "Bearer " prefix: 401 "No token provided". An empty token: 401 "Invalid token format". A failed verify: 401 "Invalid token". The request is authenticated, with the decoded payload attached, iff all checks pass and verify succeeds |
| `Middleware.ProtectEndsOnce` | src/middleware/auth.ts:13-39 | with a non-empty secret, every run ends in exactly one of next-with-context or a 401 reply |
| `Middleware.EmptyTokenField` | src/middleware/auth.ts:25-29 | "Bearer " and "Bearer  x" get 401 "Invalid token format" |
| `Middleware.TokenStopsAtSpace` | src/middleware/auth.ts:25-38 | "Bearer a b" verifies the token "a" |
| `Middleware.PrefixCaseSensitive` | src/middleware/auth.ts:21-23 | "bearer x" is treated as carrying no token |
| `Middleware.IsAdmin` | src/middleware/auth.ts:41-46 | next is called iff a context is present and its role is exactly ADMIN; otherwise 403 "Forbidden: Access denied" |
| `Middleware.AdminRouteReached` | src/modules/product/product.routes.ts:21-23 | a route behind `protect, isAdmin` is reached iff the secret is non-empty, the header carries a "Bearer " token and it verifies to a context whose role is ADMIN |
| `Products.PatchNothing` | src/modules/product/product.controller.ts:70-78 | an update that supplies no field leaves the product unchanged |
| `Products.PatchFields` | src/modules/product/product.controller.ts:70-78 | the update is refused iff it sets the name or the description to `null`; otherwise each supplied field takes the supplied value, each omitted field keeps its stored value (the price included), and a `null` image clears the image |
| `Products.PatchIdempotent` | src/modules/product/product.controller.ts:70-78 | the same accepted update applied twice gives the same product as once |
| `Products.Catalog.GetProducts` | src/modules/product/product.controller.ts:8-16 | 200 with every product of the table |
| `Products.Catalog.GetOneProduct` | src/modules/product/product.controller.ts:19-35 | the product with that id, or 404 "Product not found" |
| `Products.Catalog.CreateProduct` | src/modules/product/product.controller.ts:41-62 | a falsy (missing, `null` or empty) name or description, or no price: 400 and no write. Otherwise exactly one record with the given fields under a fresh id, other records unchanged; an image left out or `null` is stored as no image |
| `Products.Catalog.UpdateProduct` | src/modules/product/product.controller.ts:65-90 | a `null` name or description gets 500 and no change, before the lookup. Then a missing id gets 404 and no change. Otherwise only that record changes, to the stored record with the supplied fields replaced; a `null` image clears the image |
| `Products.Catalog.DeleteProduct` | src/modules/product/product.controller.ts:93-111 | removes exactly that id, or 404 and no change when it is absent |
| `Carts.CartStore.ItemsIn` | src/modules/cart/cart.controller.ts:11-22 | the rows of a cart are exactly the item rows that carry its id |
| `Carts.CartStore.LineOf` | src/modules/cart/cart.controller.ts:57-62 | finds the row for (cart, product) when there is one, and none exists otherwise |
| `Carts.CartStore.GetCart` | src/modules/cart/cart.controller.ts:5-33 | 401 without a caller, 404 when the caller has no cart, else the caller's cart with exactly the items it owns |
| `Carts.CartStore.CreateCart` | src/modules/auth/auth.controller.ts:27-32 | a new cart under a fresh id for a user who had none; the items are unchanged |
| `Carts.CartStore.AddToCart` | src/modules/cart/cart.controller.ts:36-90 | a missing productId or quantity gets 400, checked before the caller (401). No cart: 404. An existing (cart, product) row is raised by the quantity and no row is added. Otherwise one row is inserted, or 500 with no write for an unknown product. Every cart keeps at most one row per product |
| `Carts.CartStore.UpdateCartItem` | src/modules/cart/cart.controller.ts:93-145 | only an item of the caller's cart is touched, else 404 and no change. Quantity missing or negative: 400. Quantity 0 deletes the item; a positive quantity becomes its stored quantity |
| `Carts.CartStore.RemoveCartItem` | src/modules/cart/cart.controller.ts:149-180 | deletes the item iff it lies in the caller's cart, else 404; no other item changes |
| `Accounts.CreateJwt` | src/utils/auth.ts:18-32 | a token over the user's id, e-mail and role iff the secret is set and non-empty |
| `Accounts.UserTable.Signup` | src/modules/auth/auth.controller.ts:5-40 | a taken e-mail: 400 and no write. Otherwise one user under a fresh id, storing hash(password), and one cart for that user. Then 201 with a token for that user, or 500 with both rows kept when the secret is missing or empty |
| `Accounts.UserTable.Login` | src/modules/auth/auth.controller.ts:42-66 | 200 with a token iff the e-mail is known, compare(password, stored hash) holds and the secret is non-empty; with no or an empty secret a correct log-in gets 500. An unknown e-mail and a wrong password both get 401 "Invalid credentials". It writes nothing |
| `Accounts.SignedUpUserCanLogIn` | src/modules/auth/auth.controller.ts:17-35 | an account stored by sign-up logs in (200 with its token) with its password under a non-empty secret, whenever bcrypt accepts a password against its own hash |
| `Accounts.LoginFailuresAlike` | src/modules/auth/auth.controller.ts:50-58 | the replies for an unknown e-mail and for a wrong password are identical |
| `Orders.CreateBuyNowOrder` | src/modules/order/order.controller.ts:19-51 | 401 without a caller. A missing product id or a missing, zero or negative quantity: 400. An unknown product: 404. None of these calls the gateway. Otherwise the gateway is asked for price × quantity × 100 in INR, and the reply is 201 with its order, or 500 |
| `Orders.SignedTextUnambiguous` | src/modules/order/order.controller.ts:75 | for ids without a vertical bar, the signed text (order id, bar, payment id) determines both ids |
| `Orders.Priced` | src/modules/order/order.controller.ts:100-104 | a line keeps the claimed product and quantity and takes the stored price |
| `Orders.LineItems` | src/modules/order/order.controller.ts:94-105 | one line per claimed item, in claim order, duplicates kept, priced from the catalog. The result is absent iff some claimed product is not in the catalog |
| `Orders.TotalAppend` | src/modules/order/order.controller.ts:87-99 | the total of two runs of lines is the sum of their totals |
| `Orders.TotalExample` | src/modules/order/order.controller.ts:87-99 | two units at 100 and three at 50 total 350 |
| `Orders.PriceItems` | src/modules/order/order.controller.ts:87-105 | the accumulating loop aborts iff some claimed product is unknown. Otherwise it yields exactly the catalog-priced line items and their total |
| `Orders.VisibleSound` | src/modules/order/order.controller.ts:152-168 | every listed order is the stored one under its id and visible to the caller (ADMIN, or owner); ids strictly decrease (newest first) |
| `Orders.VisibleComplete` | src/modules/order/order.controller.ts:152-168 | every order visible to the caller is listed |
| `Orders.OrderBook.VerifyPaymentAndCreateOrder` | src/modules/order/order.controller.ts:56-140 | 401 without a caller. A missing field or a non-array items: 400. A signature that is not the HMAC under the gateway secret of the order id and payment id joined by a vertical bar: 400 "Invalid payment signature". An unknown product: 500. None of these writes. Otherwise exactly one order is appended: the caller's, status PAID, with the payment id, the shipping address, the catalog-priced lines and their total |
| `Orders.OrderBook.GetOrders` | src/modules/order/order.controller.ts:146-175 | 401 without a caller, else exactly the orders the caller sees (all for ADMIN, own otherwise), newest first |
| `Orders.OrderBook.GetOrderInvoice` | src/modules/order/order.controller.ts:179-206 | 401 without a caller, 400 without an id. The order if it exists and the caller sees it; a missing order and someone else's order get the same 404 |

## Left out

- Invoice PDF rendering (src/modules/order/order.utils.ts is not part of this model). `GetOrderInvoice` yields the order that would be rendered.
- Cryptography: bcrypt, JWT signing and verification (with their `iat`/`exp` and one-day expiry) and HMAC-SHA256 are parameters whose properties are not verified.
- Ids: the store's ids are strings. Here they are natural numbers handed out by per-table counters, and a missing or empty id in a request is `None`.
- Included relations (product details in cart and order replies, user name and e-mail in `getOrders`) are not modelled. Replies carry ids and rows.
- Number parsing: `parseInt`/`parseFloat` edge cases (NaN, trailing text) and non-numeric quantities are not modelled; quantities are integers, prices are reals, and there is no floating-point rounding (the gateway amount may not be a whole number of paise).
- Missing request-body fields in `signup`/`login` (e-mail or password undefined) fail inside the store or bcrypt with 500. The model takes both as present strings.
- Store failures other than the ones named in the contracts are not modelled (500 replies). This includes deleting a product that cart or order rows still reference, and an order for a user who no longer exists.
- A missing `RAZORPAY_KEY_SECRET` makes `createHmac` throw outside the handler's `try`, so the request gets no reply. The model takes the gateway secret as present.
- The role of a new user is "USER", the database schema's default. The schema is not part of this model.
- Concurrency: races between requests, such as sign-up's check-then-insert or the cart's read-modify-write, are out of scope. The nested order + items create is one atomic step.
- Routing and wiring (src/index.ts, the route files), logging, and the compiled copies under dist/.
- Orders.OrderBook.VerifyPaymentAndCreateOrder: does not state that the catalog is not read when the signature check fails, because the catalog is a value parameter and reading it is not observable in the model.
- A `null` price in a create or update body passes both handlers' `undefined` checks and becomes `parseFloat(null)`, which is NaN. Floating point is not modelled, so the price field is only left out or a number.
- The name and description columns are taken to be non-nullable and the image column nullable. The schema is not part of this model.
- Products.Catalog.GetProducts: returns the table as a map, so the order in which the store lists products is not modelled.
