# Car-parts store backend: access control and order settlement

A model of the HTTP handlers of a car-parts storefront server (`index.js`).
Customers log in, place orders, pay through Stripe and have their orders
marked paid; administrators add products and promote other users. What is
modelled is the decision logic of every route of the order, user and product
core, and the updates each route makes to the MongoDB collections.

- `Json` — documents (`map<string, Value>`), reading a possibly-`undefined`
  field, JavaScript's numeric coercion for `*` and `-`, and how the driver
  stores `undefined`.
- `Strings` — `String.prototype.split` with a one-character separator, with
  `Join` and both round trips.
- `Auth` — the guards `verifyJWT` and `verifyAdmin`, and their composition in
  front of the admin routes. `jwt.sign` and `jwt.verify` are held in a
  `Jwt` value of two opaque functions, so signatures and the clock are
  outside the model.
- `Routes` — one function per route, from the database (`Db`: users keyed by
  email, orders and products keyed by id, the `payments` log, the next id)
  and the request to the new database and the response. A response is
  `Send(body)`, `Status(code, message)` or `Crash`. `Crash` means the handler
  threw, so the promise rejected and no response was sent.
- `App` — the route table as `Dispatch`, `Run` over a sequence of requests,
  and the properties that hold of every request and of every run.
- `Server` — the same routes as methods of a `Store` class whose fields are
  the collections. Each method's result and new state are those of the
  `Routes` function. Four client methods (`GuardScenario`,
  `OwnershipScenario`, `SettlementScenario`, `StockScenario`) use the
  methods' contracts to go through a purchase.

The model follows the code where the code does less than the intended
design:

- `verifyAdmin` dereferences the missing record of an unknown email. It
  crashes (`Crash`) instead of answering 403.
- PATCH /order/:id has no at-most-once guard. Every call appends a receipt and
  overwrites `transactionId` (`App.SettleTwice`).
- Settlement does not touch stock. Stock changes only through the
  unauthenticated PUT /product/:id, which subtracts without a floor
  (`Routes.StockNotClamped`).
- DELETE /order/:id checks only that the token is valid, not who owns the
  order.
- PUT /user/:email needs no token and writes whatever fields the body has,
  a `role` included. So anyone can give an email the admin role and then pass
  `verifyAdmin` with a token for that email (`App.SelfServicePromotion`).

## Model

| member | source | states |
|---|---|---|
| Strings.Split | index.js:24 | `split(' ')` always yields at least one part; no part contains the separator; there are two or more parts exactly when the string contains the separator |
| Strings.JoinSplit | index.js:24 | joining the parts of a split with the separator gives back the original string |
| Strings.SplitJoin | index.js:24 | splitting the join of separator-free parts gives back the parts |
| Auth.BearerToken | index.js:24 | the second space-separated part of the header exists exactly when the header contains a space, and it contains no space |
| Auth.BearerRoundTrip | index.js:24 | for a scheme word and a token without spaces, the token is what `"<scheme> <token>"` yields |
| Auth.VerifyJwt | index.js:19-32 | a missing or empty header gives 401 'UnAuthorized access'; every other refusal is 403 'Forbidden access'; the guard passes exactly when the second part of the header exists, is non-empty and verifies, and it then carries the decoded email; the guard never throws |
| Auth.VerifyAdmin | index.js:46-55 | passes exactly when the requester has a record whose role is 'admin', carrying the requester's email; throws exactly when there is no record; any other role is 403 'forbidden' |
| Auth.AdminGuard | index.js:84 | `verifyJWT, verifyAdmin` chained: a failing token check is returned unchanged; the chain passes exactly when the token verifies and the token's email has an admin record; it throws exactly when the token verifies and the email has no record |
| Auth.IssuedTokenAuthenticates | index.js:103 | a token from `jwt.sign({ email }, …, '2h')` that `jwt.verify` accepts, sent as `<scheme> <token>`, passes `verifyJWT` with that email |
| Json.ToNumber | index.js:60 | JavaScript numeric coercion yields a number or NaN: numbers stay, undefined and NaN give NaN, null gives 0 |
| Json.Times | index.js:60 | `price * 100` is a number exactly when the coerced price is one, and it is then 100 times that price; otherwise it is NaN |
| Json.Minus | index.js:197 | `a - b` is a number exactly when both coerced operands are numbers, and it is then their difference; otherwise it is NaN |
| Routes.IntentFor | index.js:58-65 | the Stripe request has currency 'usd', payment method types ['card'], and amount 100 times the coerced price, or NaN |
| Routes.IntentAmountInCents | index.js:60 | a price of c/100 becomes an amount of exactly c minor units |
| Routes.CreatePaymentIntent | index.js:57-67 | a refused token is answered by the guard; otherwise the client secret of the created intent is sent; a rejected Stripe call sends nothing |
| Routes.ListUsers | index.js:70-73 | any verified caller receives the whole users collection; the others get the guard's refusal |
| Routes.GetAdmin | index.js:77-82 | answers `{ admin }` with whether the stored role is 'admin'; throws on an unknown email; answers `true` exactly when `verifyAdmin` would pass that email |
| Routes.Promoted | index.js:87-89 | the promoted record has role 'admin', and every other field keeps its value |
| Routes.MakeAdmin | index.js:84-92 | without a passing admin chain, nothing changes and the chain's refusal is sent; only users can change; no user record is created or removed; other users are unchanged; a matching user is promoted, and `modifiedCount` is 0 if it was already an admin; an unknown target matches nothing |
| Routes.Upserted | index.js:97-102 | the upserted record has the body's fields; any other field keeps its old value; a new record also carries the path email |
| Routes.PutUser | index.js:94-105 | afterwards the email has a record, namely the old record (if any) overwritten by the body; other users and other collections are unchanged; the response carries `jwt.sign({ email }, 2h)` and upsert/match counts that reflect whether the record existed |
| Routes.OwnedBy | index.js:111-112 | exactly the orders whose `email` field equals the given email, with their stored contents |
| Routes.ListOrders | index.js:107-118 | a refused token is answered by the guard; when the query email equals the token's email, the response is exactly that email's orders; any other query is 403 'forbidden access'; nothing is written |
| Routes.GetOrder | index.js:120-125 | the stored order, or null for an unknown id |
| Routes.Settled | index.js:131-136 | the settled order has `paid: true` and the body's `transactionId` (null when the body has none), and every other field keeps its value |
| Routes.PatchOrder | index.js:127-141 | the body is appended to the payment log and the earlier entries stay; only orders and payments can change; no order appears or disappears; other orders are unchanged; an existing order is settled whether or not it was already paid; a missing order matches nothing, but its receipt is still appended |
| Routes.PostOrder | index.js:154-158 | a refused token changes nothing; otherwise the body is stored under the next id, which was unused |
| Routes.DeleteOrder | index.js:203-208 | a refused token changes nothing; any verified caller removes the order, whoever owns it, and is told how many records were deleted |
| Routes.ListProducts | index.js:160-163 | anyone receives the whole products collection |
| Routes.GetProduct | index.js:183-189 | the stored product, or null for an unknown id |
| Routes.PostProduct | index.js:165-170 | without a passing admin chain, nothing changes and the chain's refusal is sent; otherwise the body is stored under the next id, which was unused |
| Routes.Restocked | index.js:195-199 | the new quantity is the old quantity minus the body's quantity, in JavaScript arithmetic; every other field keeps its value |
| Routes.PutProduct | index.js:191-201 | an unknown id throws before anything is written; otherwise only that product's quantity changes, other products and collections are unchanged, and the response is the record as it was before the update |
| Routes.StockNotClamped | index.js:197 | with numeric quantities the new stock is stock minus amount, and it goes negative when the amount exceeds the stock |
| Routes.DeleteProduct | index.js:210-215 | a refused token changes nothing; any verified caller removes the product |
| App.MissingHeaderIs401 | index.js:21-23 | every route behind `verifyJWT` answers 401 to a request with no header or an empty one, and changes nothing |
| App.BadTokenIs403 | index.js:24-28 | every route behind `verifyJWT` answers 403 to a header whose token is missing or fails verification, and changes nothing |
| App.OnlyAdminsWrite | index.js:165 | PUT /user/admin/:email and POST /product change the store only when the token verifies and its email has an admin record; an email with no record makes them throw; any other role gets 403 |
| App.ReadsChangeNothing | index.js:57-125 | the intent, user-list, admin-flag, order-list, order and product reads never change the store |
| App.CrashChangesNothing | index.js:191-201 | a request that throws has written nothing |
| App.PaymentsLogStep | index.js:138 | only PATCH /order/:id writes to the payment log, and it appends exactly the request body |
| App.DispatchKeepsValid | index.js:156 | every route keeps all stored order and product ids below the next id, and the next id never decreases |
| App.UsersStep | index.js:84-105 | no route removes a user record |
| App.PaidStep | index.js:131-136 | no route turns a paid order back into an unpaid one |
| App.SelfServicePromotion | index.js:94-104 | after PUT /user/:email with a body whose role is 'admin', `verifyAdmin` passes for that email |
| App.LoginTokenAuthenticates | index.js:103 | the token that PUT /user/:email returns, sent as `Bearer <token>`, passes `verifyJWT` as that email when `jwt.verify` accepts what `jwt.sign` produced |
| App.PaymentsAppendOnly | index.js:138 | over any sequence of requests the old payment log stays a prefix, and exactly one receipt is added per PATCH /order/:id, even when the same order is settled again |
| App.RunKeepsValid | index.js:167 | over any sequence of requests, ids are never reused |
| App.UsersNeverDeleted | index.js:96-102 | over any sequence of requests, no user record disappears |
| App.PaidIsPermanent | index.js:131-136 | over any sequence of requests, an order marked paid stays paid for as long as it exists |
| App.DeletedStaysDeleted | index.js:203-208 | over any sequence of requests, a deleted order id never comes back |
| App.SettleTwice | index.js:127-141 | settling the same order twice appends both receipts; the order ends paid with the second transaction id; stock is unchanged |
| Server.Store.constructor | index.js:38-44 | a fresh store has empty collections and the given token service and gateway |
| Server.Store.CreatePaymentIntent | index.js:57-67 | responds as `Routes.CreatePaymentIntent` and changes nothing |
| Server.Store.ListUsers | index.js:70-73 | responds as `Routes.ListUsers` and changes nothing |
| Server.Store.GetAdmin | index.js:77-82 | responds as `Routes.GetAdmin` and changes nothing |
| Server.Store.MakeAdmin | index.js:84-92 | the new store and the response are those of `Routes.MakeAdmin`; nothing changes unless the admin chain passes |
| Server.Store.PutUser | index.js:94-105 | the new store and the response are those of `Routes.PutUser`; other users keep their records |
| Server.Store.ListOrders | index.js:107-118 | responds as `Routes.ListOrders` and changes nothing |
| Server.Store.GetOrder | index.js:120-125 | responds as `Routes.GetOrder` and changes nothing |
| Server.Store.PatchOrder | index.js:127-141 | the new store and the response are those of `Routes.PatchOrder`; the payment log grows by the body |
| Server.Store.PostOrder | index.js:154-158 | the new store and the response are those of `Routes.PostOrder` |
| Server.Store.DeleteOrder | index.js:203-208 | the new store and the response are those of `Routes.DeleteOrder` |
| Server.Store.ListProducts | index.js:160-163 | responds as `Routes.ListProducts` and changes nothing |
| Server.Store.GetProduct | index.js:183-189 | responds as `Routes.GetProduct` and changes nothing |
| Server.Store.PostProduct | index.js:165-170 | the new store and the response are those of `Routes.PostProduct` |
| Server.Store.PutProduct | index.js:191-201 | the new store and the response are those of `Routes.PutProduct` |
| Server.Store.DeleteProduct | index.js:210-215 | the new store and the response are those of `Routes.DeleteProduct` |

## Left out

- Express routing, CORS, JSON body parsing, `app.listen` and logging are framework plumbing. The route table is the `App.Dispatch` function.
- The MongoDB client and its query engine are replaced by maps and a sequence. The model does not include `ObjectId()` throwing on a malformed id (ids are natural numbers), nor matching `{ email }` against array-valued fields.
- Ids are handed out by a counter. This stands for MongoDB's `ObjectId` generation. A body that brings its own `_id` is not modelled, and the `_id` that `insertOne` adds to a payment receipt is not modelled either.
- Response arrays come back as id-keyed maps, and the model does not fix the order in which `find()` returns documents.
- Documents are flat: field values are scalars (null, booleans, numbers, NaN, strings). Nested objects and arrays are not modelled.
- Json.ToNumber: treats every string as NaN. JavaScript would parse a numeric string (`'12' * 100` is 1200), and the model does not.
- Numbers are exact reals. Floating-point rounding of `price * 100` and of the quantity subtraction is not modelled, and neither are infinities.
- jsonwebtoken's cryptography and expiry clock are opaque. They are the two functions of `Auth.Jwt`, and the model does not include the `iat`/`exp` fields of the decoded payload. A verified payload always carries a string email.
- The Stripe network call is an opaque function from the intent request to an optional client secret. A rejected call is `Crash`. Timeouts are not modelled.
- Routes.PutUser: a body whose own `email` field differs from the path email is stored under the path email. MongoDB would store the body's email and later find the record under it. A body that sets `_id` (which MongoDB refuses) is not modelled.
- Concurrent requests interleaving at their `await` points are not modelled. Each handler runs atomically, one after another, so the lost update between the read and the write of PUT /product/:id is outside the model.
- A failure of MongoDB itself between the receipt insert and the order update of PATCH /order/:id is not modelled.
- The pass-through routes `/review`, `/myprofile`, `/support` and `/` are not modelled. They insert or list documents of collections that nothing else reads.
