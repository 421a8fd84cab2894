/** The route table of index.js as one dispatch function over requests, and
    what holds of every request and of every sequence of requests. */
module App {
  import opened Json
  import opened Auth
  import opened Routes

  /** The process-wide collaborators: the token service and the payment gateway. */
  datatype Env = Env(jwt: Jwt, stripe: Stripe)

  /** One request per route of the core; `auth` is the `Authorization` header. */
  datatype Request =
    | CreatePaymentIntentReq(auth: Option<string>, body: Doc)
    | ListUsersReq(auth: Option<string>)
    | GetAdminReq(email: string)
    | MakeAdminReq(auth: Option<string>, email: string)
    | PutUserReq(email: string, body: Doc)
    | ListOrdersReq(auth: Option<string>, query: Option<string>)
    | GetOrderReq(id: Id)
    | PatchOrderReq(id: Id, body: Doc)
    | PostOrderReq(auth: Option<string>, body: Doc)
    | ListProductsReq
    | PostProductReq(auth: Option<string>, body: Doc)
    | GetProductReq(id: Id)
    | PutProductReq(id: Id, body: Doc)
    | DeleteOrderReq(auth: Option<string>, id: Id)
    | DeleteProductReq(auth: Option<string>, id: Id)

  /** The routes mounted behind `verifyJWT`. */
  predicate Guarded(req: Request) {
    || req.CreatePaymentIntentReq? || req.ListUsersReq? || req.MakeAdminReq?
    || req.ListOrdersReq? || req.PostOrderReq? || req.PostProductReq?
    || req.DeleteOrderReq? || req.DeleteProductReq?
  }

  /** The routes mounted behind `verifyJWT, verifyAdmin`. */
  predicate AdminOnly(req: Request) {
    req.MakeAdminReq? || req.PostProductReq?
  }

  /** The routes that only read. */
  predicate ReadOnly(req: Request) {
    || req.CreatePaymentIntentReq? || req.ListUsersReq? || req.GetAdminReq?
    || req.ListOrdersReq? || req.GetOrderReq? || req.ListProductsReq? || req.GetProductReq?
  }

  function Dispatch(env: Env, db: Db, req: Request): Outcome {
    match req
    case CreatePaymentIntentReq(auth, body) => Outcome(db, CreatePaymentIntent(env.jwt, env.stripe, auth, body))
    case ListUsersReq(auth) => Outcome(db, ListUsers(env.jwt, db, auth))
    case GetAdminReq(email) => Outcome(db, GetAdmin(db, email))
    case MakeAdminReq(auth, email) => MakeAdmin(env.jwt, db, auth, email)
    case PutUserReq(email, body) => PutUser(env.jwt, db, email, body)
    case ListOrdersReq(auth, query) => Outcome(db, ListOrders(env.jwt, db, auth, query))
    case GetOrderReq(id) => Outcome(db, GetOrder(db, id))
    case PatchOrderReq(id, body) => PatchOrder(db, id, body)
    case PostOrderReq(auth, body) => PostOrder(env.jwt, db, auth, body)
    case ListProductsReq => Outcome(db, ListProducts(db))
    case PostProductReq(auth, body) => PostProduct(env.jwt, db, auth, body)
    case GetProductReq(id) => Outcome(db, GetProduct(db, id))
    case PutProductReq(id, body) => PutProduct(db, id, body)
    case DeleteOrderReq(auth, id) => DeleteOrder(env.jwt, db, auth, id)
    case DeleteProductReq(auth, id) => DeleteProduct(env.jwt, db, auth, id)
  }

  /** The database after handling `reqs` one after another. */
  function Run(env: Env, db: Db, reqs: seq<Request>): Db
    decreases |reqs|
  {
    if reqs == [] then db else Run(env, Dispatch(env, db, reqs[0]).db, reqs[1..])
  }

  /** How many of `reqs` are PATCH /order/:id. */
  function Settlements(reqs: seq<Request>): nat
    decreases |reqs|
  {
    if reqs == [] then 0 else (if reqs[0].PatchOrderReq? then 1 else 0) + Settlements(reqs[1..])
  }

  // ---- one request -------------------------------------------------------------

  /** Every guarded route answers 401 to a request without a (non-empty)
      `Authorization` header and leaves the database as it was. */
  lemma MissingHeaderIs401(env: Env, db: Db, req: Request)
    requires Guarded(req)
    requires req.auth.None? || req.auth == Some("")
    ensures Dispatch(env, db, req) == Outcome(db, Status(401, "UnAuthorized access"))
  {
  }

  /** A header whose token does not verify is 403 on every guarded route, and
      nothing changes. */
  lemma BadTokenIs403(env: Env, db: Db, req: Request)
    requires Guarded(req)
    requires req.auth.Some? && req.auth.value != ""
    requires BearerToken(req.auth.value).None? || env.jwt.verify(BearerToken(req.auth.value).value).None?
    ensures Dispatch(env, db, req) == Outcome(db, Status(403, "Forbidden access"))
  {
  }

  /** The admin-only routes change the database only for a verified token
      whose stored record has role 'admin'; a token whose email has no record
      makes them throw, never pass. */
  lemma OnlyAdminsWrite(env: Env, db: Db, req: Request)
    requires AdminOnly(req)
    ensures Dispatch(env, db, req).db != db ==>
              && VerifyJwt(env.jwt, req.auth).Pass?
              && VerifyJwt(env.jwt, req.auth).email in db.users
              && IsAdmin(db.users[VerifyJwt(env.jwt, req.auth).email])
    ensures VerifyJwt(env.jwt, req.auth).Pass? && VerifyJwt(env.jwt, req.auth).email !in db.users ==>
              Dispatch(env, db, req) == Outcome(db, Crash)
    ensures VerifyJwt(env.jwt, req.auth).Pass? && VerifyJwt(env.jwt, req.auth).email in db.users
            && !IsAdmin(db.users[VerifyJwt(env.jwt, req.auth).email]) ==>
              Dispatch(env, db, req) == Outcome(db, Status(403, "forbidden"))
  {
  }

  /** The reading routes never change the database. */
  lemma ReadsChangeNothing(env: Env, db: Db, req: Request)
    requires ReadOnly(req)
    ensures Dispatch(env, db, req).db == db
  {
  }

  /** A handler that throws has written nothing. */
  lemma CrashChangesNothing(env: Env, db: Db, req: Request)
    ensures Dispatch(env, db, req).response.Crash? ==> Dispatch(env, db, req).db == db
  {
  }

  /** Only PATCH /order/:id writes to `payments`, and it appends exactly its body. */
  lemma PaymentsLogStep(env: Env, db: Db, req: Request)
    ensures req.PatchOrderReq? ==> Dispatch(env, db, req).db.payments == db.payments + [req.body]
    ensures !req.PatchOrderReq? ==> Dispatch(env, db, req).db.payments == db.payments
  {
  }

  /** Every handler keeps ids fresh. */
  lemma DispatchKeepsValid(env: Env, db: Db, req: Request)
    requires Valid(db)
    ensures Valid(Dispatch(env, db, req).db)
    ensures Dispatch(env, db, req).db.nextId >= db.nextId
  {
  }

  /** No handler removes a user record. */
  lemma UsersStep(env: Env, db: Db, req: Request)
    ensures db.users.Keys <= Dispatch(env, db, req).db.users.Keys
  {
  }

  /** An order that is paid stays paid while it exists: no handler writes
      `paid: false`, and a deleted id is never handed out again. */
  lemma PaidStep(env: Env, db: Db, req: Request, id: Id)
    requires Valid(db)
    requires id in db.orders && Get(db.orders[id], "paid") == Some(Bool(true))
    ensures id in Dispatch(env, db, req).db.orders ==>
              Get(Dispatch(env, db, req).db.orders[id], "paid") == Some(Bool(true))
  {
  }

  /** The upsert route is reachable without a token and its body may carry
      any role; so anyone can give an email the admin role and then pass
      `verifyAdmin` with a token for that email. */
  lemma SelfServicePromotion(env: Env, db: Db, email: string, body: Doc)
    requires Get(body, "role") == Some(Str("admin"))
    ensures VerifyAdmin(Dispatch(env, db, PutUserReq(email, body)).db.users, email) == Pass(email)
  {
  }

  /** The token PUT /user/:email hands out, sent back as `Bearer <token>`,
      passes `verifyJWT` as that email, when `jwt.verify` accepts what
      `jwt.sign` produced. */
  lemma LoginTokenAuthenticates(env: Env, db: Db, email: string, body: Doc)
    requires ' ' !in env.jwt.sign(Claims(email), TOKEN_LIFETIME) && env.jwt.sign(Claims(email), TOKEN_LIFETIME) != ""
    requires env.jwt.verify(env.jwt.sign(Claims(email), TOKEN_LIFETIME)) == Some(Claims(email))
    ensures Dispatch(env, db, PutUserReq(email, body)).response.body.Login?
    ensures VerifyJwt(env.jwt, Some("Bearer " + Dispatch(env, db, PutUserReq(email, body)).response.body.token))
            == Pass(email)
  {
    var token := env.jwt.sign(Claims(email), TOKEN_LIFETIME);
    IssuedTokenAuthenticates(env.jwt, email, "Bearer");
    assert "Bearer " + token == "Bearer" + " " + token;
  }

  // ---- sequences of requests ------------------------------------------------

  /** Over any run the payment log only grows: the old log is a prefix, and
      exactly one receipt is appended per settlement, repeated settlement of
      one order included. */
  lemma {:induction false} PaymentsAppendOnly(env: Env, db: Db, reqs: seq<Request>)
    ensures |Run(env, db, reqs).payments| == |db.payments| + Settlements(reqs)
    ensures Run(env, db, reqs).payments[..|db.payments|] == db.payments
    decreases |reqs|
  {
    if reqs != [] {
      var next := Dispatch(env, db, reqs[0]).db;
      PaymentsLogStep(env, db, reqs[0]);
      PaymentsAppendOnly(env, next, reqs[1..]);
      assert next.payments[..|db.payments|] == db.payments;
    }
  }

  /** Ids stay fresh over any run. */
  lemma {:induction false} RunKeepsValid(env: Env, db: Db, reqs: seq<Request>)
    requires Valid(db)
    ensures Valid(Run(env, db, reqs))
    decreases |reqs|
  {
    if reqs != [] {
      DispatchKeepsValid(env, db, reqs[0]);
      RunKeepsValid(env, Dispatch(env, db, reqs[0]).db, reqs[1..]);
    }
  }

  /** User records are never deleted over any run. */
  lemma {:induction false} UsersNeverDeleted(env: Env, db: Db, reqs: seq<Request>)
    ensures db.users.Keys <= Run(env, db, reqs).users.Keys
    decreases |reqs|
  {
    if reqs != [] {
      UsersStep(env, db, reqs[0]);
      UsersNeverDeleted(env, Dispatch(env, db, reqs[0]).db, reqs[1..]);
    }
  }

  /** An order marked paid is never marked unpaid over any run. */
  lemma {:induction false} PaidIsPermanent(env: Env, db: Db, reqs: seq<Request>, id: Id)
    requires Valid(db)
    requires id in db.orders && Get(db.orders[id], "paid") == Some(Bool(true))
    ensures id in Run(env, db, reqs).orders ==> Get(Run(env, db, reqs).orders[id], "paid") == Some(Bool(true))
    decreases |reqs|
  {
    if reqs != [] {
      var next := Dispatch(env, db, reqs[0]).db;
      DispatchKeepsValid(env, db, reqs[0]);
      PaidStep(env, db, reqs[0], id);
      if id in next.orders {
        PaidIsPermanent(env, next, reqs[1..], id);
      } else {
        DeletedStaysDeleted(env, next, reqs[1..], id);
      }
    }
  }

  /** Once an id below `nextId` is absent, no later request brings it back. */
  lemma {:induction false} DeletedStaysDeleted(env: Env, db: Db, reqs: seq<Request>, id: Id)
    requires Valid(db)
    requires id < db.nextId && id !in db.orders
    ensures id !in Run(env, db, reqs).orders
    decreases |reqs|
  {
    if reqs != [] {
      DispatchKeepsValid(env, db, reqs[0]);
      DeletedStaysDeleted(env, Dispatch(env, db, reqs[0]).db, reqs[1..], id);
    }
  }

  /** Settling one order twice appends two receipts, leaves the order paid
      with the second transaction id, and touches no stock: the source has
      neither an at-most-once guard nor a stock decrement on settlement. */
  lemma SettleTwice(env: Env, db: Db, id: Id, first: Doc, second: Doc)
    requires id in db.orders
    ensures var out := Run(env, db, [PatchOrderReq(id, first), PatchOrderReq(id, second)]);
              && out.payments == db.payments + [first, second]
              && id in out.orders
              && Get(out.orders[id], "paid") == Some(Bool(true))
              && Get(out.orders[id], "transactionId") == Some(Stored(Get(second, "transactionId")))
              && out.products == db.products
  {
    var reqs := [PatchOrderReq(id, first), PatchOrderReq(id, second)];
    var mid := PatchOrder(db, id, first).db;
    assert Run(env, db, reqs) == Run(env, mid, reqs[1..]);
    assert reqs[1..][1..] == [];
    assert Run(env, mid, reqs[1..]) == PatchOrder(mid, id, second).db;
  }
}
