/** The route handlers of index.js as functions from the database and the
    request to the new database and the response. Each handler runs
    atomically; `Server.Store` runs the same handlers as methods. */
module Routes {
  import opened Json
  import opened Auth

  /** A document id (stands for a Mongo `ObjectId`). */
  type Id = nat

  /** The collections the core touches: `users` keyed by email, `order` and
      `parts` keyed by id, the append-only `payments` log, and the next id the
      database will hand out. */
  datatype Db = Db(
    users: map<string, Doc>,
    orders: map<Id, Doc>,
    products: map<Id, Doc>,
    payments: seq<Doc>,
    nextId: Id)

  /** Ids are never reused: every stored order and product id is below `nextId`. */
  predicate Valid(db: Db) {
    && (forall id :: id in db.orders ==> id < db.nextId)
    && (forall id :: id in db.products ==> id < db.nextId)
  }

  /** What `updateOne` reports: `matchedCount`, `modifiedCount`, `upsertedCount`. */
  datatype UpdateResult = UpdateResult(matched: nat, modified: nat, upserted: nat)

  /** The request that `/create-payment-intent` sends to Stripe. */
  datatype Intent = Intent(amount: Value, currency: string, methodTypes: seq<string>)

  /** Payment gateway: the client secret of the created intent, or `None` when
      the call rejects. */
  type Stripe = Intent -> Option<string>

  datatype Body =
    | UserList(users: map<string, Doc>)
    | AdminFlag(admin: bool)
    | Updated(update: UpdateResult)
    | Login(result: UpdateResult, token: string)
    | OrderList(orders: map<Id, Doc>)
    | ProductList(products: map<Id, Doc>)
    | Record(found: Option<Doc>)
    | Inserted(insertedId: Id)
    | Deleted(deletedCount: nat)
    | ClientSecret(secret: string)

  /** A body sent with status 200, a status code with a message, or no
      response at all because the handler threw. */
  datatype Response = Send(body: Body) | Status(code: int, message: string) | Crash

  datatype Outcome = Outcome(db: Db, response: Response)

  /** The response of a guard that did not pass. */
  function Refusal(g: Gate): (r: Response)
    requires !g.Pass?
    ensures g.Reject? ==> r == Status(g.code, g.message)
    ensures g.Fault? ==> r == Crash
  {
    if g.Reject? then Status(g.code, g.message) else Crash
  }

  // ---- /create-payment-intent ------------------------------------------------

  /** The intent request: the price times 100, in US dollars, for card payments only. */
  function IntentFor(order: Doc): (intent: Intent)
    ensures intent.currency == "usd" && intent.methodTypes == ["card"]
    ensures ToNumber(Get(order, "price")).Num? ==>
              intent.amount == Num(ToNumber(Get(order, "price")).x * 100.0)
    ensures !ToNumber(Get(order, "price")).Num? ==> intent.amount == NaN
  {
    Intent(Times(Get(order, "price"), 100.0), "usd", ["card"])
  }

  /** A price given in whole cents becomes exactly that many minor units. */
  lemma IntentAmountInCents(order: Doc, cents: int)
    requires Get(order, "price") == Some(Num(cents as real / 100.0))
    ensures IntentFor(order).amount == Num(cents as real)
  {
  }

  function CreatePaymentIntent(jwt: Jwt, stripe: Stripe, header: Option<string>, order: Doc): (r: Response)
    ensures !VerifyJwt(jwt, header).Pass? ==> r == Refusal(VerifyJwt(jwt, header))
    ensures VerifyJwt(jwt, header).Pass? && stripe(IntentFor(order)).Some? ==>
              r == Send(ClientSecret(stripe(IntentFor(order)).value))
    ensures VerifyJwt(jwt, header).Pass? && stripe(IntentFor(order)).None? ==> r == Crash
  {
    var g := VerifyJwt(jwt, header);
    if !g.Pass? then Refusal(g)
    else
      match stripe(IntentFor(order))
      case Some(secret) => Send(ClientSecret(secret))
      case None => Crash
  }

  // ---- users -----------------------------------------------------------------

  /** GET /user: every user record, to any authenticated caller. */
  function ListUsers(jwt: Jwt, db: Db, header: Option<string>): (r: Response)
    ensures !VerifyJwt(jwt, header).Pass? ==> r == Refusal(VerifyJwt(jwt, header))
    ensures VerifyJwt(jwt, header).Pass? ==> r == Send(UserList(db.users))
  {
    var g := VerifyJwt(jwt, header);
    if !g.Pass? then Refusal(g) else Send(UserList(db.users))
  }

  /** GET /admin/:email (no guard): `{ admin }`, throwing on an unknown email. */
  function GetAdmin(db: Db, email: string): (r: Response)
    ensures email !in db.users ==> r == Crash
    ensures email in db.users ==> r == Send(AdminFlag(IsAdmin(db.users[email])))
    ensures r == Send(AdminFlag(true)) <==> VerifyAdmin(db.users, email).Pass?
  {
    if email !in db.users then Crash else Send(AdminFlag(IsAdmin(db.users[email])))
  }

  /** The promotion update applied to one user record: role set to 'admin'. */
  function Promoted(account: Doc): (r: Doc)
    ensures r.Keys == account.Keys + {"role"}
    ensures IsAdmin(r)
    ensures forall f :: f in account && f != "role" ==> r[f] == account[f]
  {
    account["role" := Str("admin")]
  }

  /** PUT /user/admin/:email behind `verifyJWT, verifyAdmin`. */
  function MakeAdmin(jwt: Jwt, db: Db, header: Option<string>, email: string): (out: Outcome)
    ensures !AdminGuard(jwt, db.users, header).Pass? ==>
              out == Outcome(db, Refusal(AdminGuard(jwt, db.users, header)))
    ensures out.db.(users := db.users) == db
    ensures out.db.users.Keys == db.users.Keys
    ensures forall e :: e in db.users && e != email ==> out.db.users[e] == db.users[e]
    ensures AdminGuard(jwt, db.users, header).Pass? && email in db.users ==>
              && out.db.users[email] == Promoted(db.users[email])
              && out.response == Send(Updated(UpdateResult(1, if IsAdmin(db.users[email]) then 0 else 1, 0)))
    ensures AdminGuard(jwt, db.users, header).Pass? && email !in db.users ==>
              out == Outcome(db, Send(Updated(UpdateResult(0, 0, 0))))
  {
    var g := AdminGuard(jwt, db.users, header);
    if !g.Pass? then Outcome(db, Refusal(g))
    else if email !in db.users then Outcome(db, Send(Updated(UpdateResult(0, 0, 0))))
    else
      var before := db.users[email];
      var after := Promoted(before);
      assert after == before <==> IsAdmin(before);
      Outcome(db.(users := db.users[email := after]),
              Send(Updated(UpdateResult(1, if after == before then 0 else 1, 0))))
  }

  /** The upsert of PUT /user/:email on one record:
      an existing record with the body's fields overwritten, or a new record
      seeded with the filter's `email`. */
  function Upserted(existing: Option<Doc>, email: string, body: Doc): (r: Doc)
    ensures r.Keys == body.Keys + (if existing.Some? then existing.value.Keys else {"email"})
    ensures forall f :: f in body ==> r[f] == body[f]
    ensures existing.Some? ==> forall f :: f in existing.value && f !in body ==> r[f] == existing.value[f]
    ensures existing.None? && "email" !in body ==> r["email"] == Str(email)
  {
    match existing
    case Some(account) => account + body
    case None => map["email" := Str(email)] + body
  }

  /** PUT /user/:email (no guard): upsert the record, then sign `{ email }`
      for two hours. */
  function PutUser(jwt: Jwt, db: Db, email: string, body: Doc): (out: Outcome)
    ensures out.db.(users := db.users) == db
    ensures email in out.db.users
    ensures out.db.users.Keys == db.users.Keys + {email}
    ensures out.db.users[email] == Upserted(if email in db.users then Some(db.users[email]) else None, email, body)
    ensures forall e :: e in db.users && e != email ==> out.db.users[e] == db.users[e]
    ensures out.response.Send? && out.response.body.Login?
    ensures out.response.body.token == jwt.sign(Claims(email), TOKEN_LIFETIME)
    ensures out.response.body.result.upserted == (if email in db.users then 0 else 1)
    ensures out.response.body.result.matched == (if email in db.users then 1 else 0)
  {
    var existing := if email in db.users then Some(db.users[email]) else None;
    var after := Upserted(existing, email, body);
    var result := UpdateResult(
      if existing.Some? then 1 else 0,
      if existing.Some? && after != existing.value then 1 else 0,
      if existing.Some? then 0 else 1);
    Outcome(db.(users := db.users[email := after]),
            Send(Login(result, jwt.sign(Claims(email), TOKEN_LIFETIME))))
  }

  // ---- orders ----------------------------------------------------------------

  /** The order query by owner: the orders whose `email` field is `email`. */
  function OwnedBy(orders: map<Id, Doc>, email: string): (r: map<Id, Doc>)
    ensures forall id :: id in r <==> id in orders && Get(orders[id], "email") == Some(Str(email))
    ensures forall id :: id in r ==> r[id] == orders[id]
  {
    map id | id in orders && Get(orders[id], "email") == Some(Str(email)) :: orders[id]
  }

  /** GET /order?email=: the caller's own orders, 403 for anybody else's. */
  function ListOrders(jwt: Jwt, db: Db, header: Option<string>, query: Option<string>): (r: Response)
    ensures !VerifyJwt(jwt, header).Pass? ==> r == Refusal(VerifyJwt(jwt, header))
    ensures VerifyJwt(jwt, header).Pass? && query == Some(VerifyJwt(jwt, header).email) ==>
              r == Send(OrderList(OwnedBy(db.orders, query.value)))
    ensures VerifyJwt(jwt, header).Pass? && query != Some(VerifyJwt(jwt, header).email) ==>
              r == Status(403, "forbidden access")
  {
    var g := VerifyJwt(jwt, header);
    if !g.Pass? then Refusal(g)
    else if query == Some(g.email) then Send(OrderList(OwnedBy(db.orders, g.email)))
    else Status(403, "forbidden access")
  }

  /** GET /order/:id (no guard): the order, or `null`. */
  function GetOrder(db: Db, id: Id): (r: Response)
    ensures r.Send? && r.body.Record?
    ensures r.body.found.Some? <==> id in db.orders
    ensures r.body.found.Some? ==> r.body.found.value == db.orders[id]
  {
    Send(Record(Get(db.orders, id)))
  }

  /** The settlement update on one order: marked paid, with the body's transaction id. */
  function Settled(order: Doc, payment: Doc): (r: Doc)
    ensures r.Keys == order.Keys + {"paid", "transactionId"}
    ensures r["paid"] == Bool(true)
    ensures r["transactionId"] == Stored(Get(payment, "transactionId"))
    ensures forall f :: f in order && f != "paid" && f != "transactionId" ==> r[f] == order[f]
  {
    order["paid" := Bool(true)]["transactionId" := Stored(Get(payment, "transactionId"))]
  }

  /** PATCH /order/:id (no guard): append the body to `payments`, then mark
      the order paid. There is no check that it was unpaid. */
  function PatchOrder(db: Db, id: Id, payment: Doc): (out: Outcome)
    ensures out.db.payments == db.payments + [payment]
    ensures out.db.(orders := db.orders, payments := db.payments) == db
    ensures out.db.orders.Keys == db.orders.Keys
    ensures forall k :: k in db.orders && k != id ==> out.db.orders[k] == db.orders[k]
    ensures id in db.orders ==> out.db.orders[id] == Settled(db.orders[id], payment)
    ensures out.response.Send? && out.response.body.Updated?
    ensures out.response.body.update.matched == (if id in db.orders then 1 else 0)
    ensures out.response.body.update.modified == (if id in db.orders && Settled(db.orders[id], payment) != db.orders[id] then 1 else 0)
  {
    var logged := db.(payments := db.payments + [payment]);
    if id !in db.orders then Outcome(logged, Send(Updated(UpdateResult(0, 0, 0))))
    else
      var after := Settled(db.orders[id], payment);
      Outcome(logged.(orders := db.orders[id := after]),
              Send(Updated(UpdateResult(1, if after == db.orders[id] then 0 else 1, 0))))
  }

  /** POST /order behind `verifyJWT`: insert the body under a fresh id. */
  function PostOrder(jwt: Jwt, db: Db, header: Option<string>, order: Doc): (out: Outcome)
    ensures !VerifyJwt(jwt, header).Pass? ==> out == Outcome(db, Refusal(VerifyJwt(jwt, header)))
    ensures VerifyJwt(jwt, header).Pass? ==>
              && out.db.(orders := db.orders, nextId := db.nextId) == db
              && out.db.orders == db.orders[db.nextId := order]
              && out.db.nextId == db.nextId + 1
              && out.response == Send(Inserted(db.nextId))
    ensures Valid(db) ==> Valid(out.db) && db.nextId !in db.orders
  {
    var g := VerifyJwt(jwt, header);
    if !g.Pass? then Outcome(db, Refusal(g))
    else
      Outcome(db.(orders := db.orders[db.nextId := order], nextId := db.nextId + 1),
              Send(Inserted(db.nextId)))
  }

  /** DELETE /order/:id behind `verifyJWT` only: any caller may delete any order. */
  function DeleteOrder(jwt: Jwt, db: Db, header: Option<string>, id: Id): (out: Outcome)
    ensures !VerifyJwt(jwt, header).Pass? ==> out == Outcome(db, Refusal(VerifyJwt(jwt, header)))
    ensures VerifyJwt(jwt, header).Pass? ==>
              && out.db == db.(orders := db.orders - {id})
              && out.response == Send(Deleted(if id in db.orders then 1 else 0))
  {
    var g := VerifyJwt(jwt, header);
    if !g.Pass? then Outcome(db, Refusal(g))
    else Outcome(db.(orders := db.orders - {id}), Send(Deleted(if id in db.orders then 1 else 0)))
  }

  // ---- products --------------------------------------------------------------

  /** GET /product: every product. */
  function ListProducts(db: Db): (r: Response)
    ensures r == Send(ProductList(db.products))
  {
    Send(ProductList(db.products))
  }

  /** GET /product/:id: the product, or `null`. */
  function GetProduct(db: Db, id: Id): (r: Response)
    ensures r.Send? && r.body.Record?
    ensures r.body.found.Some? <==> id in db.products
    ensures r.body.found.Some? ==> r.body.found.value == db.products[id]
  {
    Send(Record(Get(db.products, id)))
  }

  /** POST /product behind `verifyJWT, verifyAdmin`: insert under a fresh id. */
  function PostProduct(jwt: Jwt, db: Db, header: Option<string>, product: Doc): (out: Outcome)
    ensures !AdminGuard(jwt, db.users, header).Pass? ==>
              out == Outcome(db, Refusal(AdminGuard(jwt, db.users, header)))
    ensures AdminGuard(jwt, db.users, header).Pass? ==>
              && out.db.(products := db.products, nextId := db.nextId) == db
              && out.db.products == db.products[db.nextId := product]
              && out.db.nextId == db.nextId + 1
              && out.response == Send(Inserted(db.nextId))
    ensures Valid(db) ==> Valid(out.db) && db.nextId !in db.products
  {
    var g := AdminGuard(jwt, db.users, header);
    if !g.Pass? then Outcome(db, Refusal(g))
    else
      Outcome(db.(products := db.products[db.nextId := product], nextId := db.nextId + 1),
              Send(Inserted(db.nextId)))
  }

  /** The stock update on one product: its quantity less the body's quantity. */
  function Restocked(product: Doc, body: Doc): (r: Doc)
    ensures r.Keys == product.Keys + {"quantity"}
    ensures r["quantity"] == Minus(Get(product, "quantity"), Get(body, "quantity"))
    ensures forall f :: f in product && f != "quantity" ==> r[f] == product[f]
  {
    product["quantity" := Minus(Get(product, "quantity"), Get(body, "quantity"))]
  }

  /** PUT /product/:id (no guard): read the product, write back its quantity
      less the body's, answer with the record as it was before. An unknown id
      throws on `null.quantity` before anything is written. */
  function PutProduct(db: Db, id: Id, body: Doc): (out: Outcome)
    ensures id !in db.products ==> out == Outcome(db, Crash)
    ensures id in db.products ==>
              && out.db.(products := db.products) == db
              && out.db.products.Keys == db.products.Keys
              && out.db.products[id] == Restocked(db.products[id], body)
              && out.response == Send(Record(Some(db.products[id])))
    ensures forall k :: k in db.products && k != id ==> k in out.db.products && out.db.products[k] == db.products[k]
  {
    if id !in db.products then Outcome(db, Crash)
    else
      var before := db.products[id];
      Outcome(db.(products := db.products[id := Restocked(before, body)]), Send(Record(Some(before))))
  }

  /** The stock arithmetic has no floor: with numeric quantities the new
      stock is the old one less the requested amount, negative when it
      exceeds the stock. */
  lemma StockNotClamped(db: Db, id: Id, body: Doc, stock: real, amount: real)
    requires id in db.products
    requires Get(db.products[id], "quantity") == Some(Num(stock))
    requires Get(body, "quantity") == Some(Num(amount))
    ensures PutProduct(db, id, body).db.products[id]["quantity"] == Num(stock - amount)
    ensures amount > stock ==> PutProduct(db, id, body).db.products[id]["quantity"].x < 0.0
  {
  }

  /** DELETE /product/:id behind `verifyJWT` only. */
  function DeleteProduct(jwt: Jwt, db: Db, header: Option<string>, id: Id): (out: Outcome)
    ensures !VerifyJwt(jwt, header).Pass? ==> out == Outcome(db, Refusal(VerifyJwt(jwt, header)))
    ensures VerifyJwt(jwt, header).Pass? ==>
              && out.db == db.(products := db.products - {id})
              && out.response == Send(Deleted(if id in db.products then 1 else 0))
  {
    var g := VerifyJwt(jwt, header);
    if !g.Pass? then Outcome(db, Refusal(g))
    else Outcome(db.(products := db.products - {id}), Send(Deleted(if id in db.products then 1 else 0)))
  }
}
