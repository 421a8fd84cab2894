/** The server of index.js: the collections are fields of one `Store`
    object and every route is a method that updates them in place. Each
    method's result and new state are those of the matching function in
    `Routes`, whose properties are proved there and in `App`. */
module Server {
  import opened Json
  import opened Auth
  import opened Routes

  class Store {
    /** `ACCESS_TOKEN_SECRET` and `STRIPE_SECRET_KEY`, fixed at startup. */
    const jwt: Jwt
    const stripe: Stripe

    var users: map<string, Doc>
    var orders: map<Id, Doc>
    var products: map<Id, Doc>
    var payments: seq<Doc>
    var nextId: Id

    function Snapshot(): Db
      reads this
    {
      Db(users, orders, products, payments, nextId)
    }

    ghost predicate Valid()
      reads this
    {
      Routes.Valid(Snapshot())
    }

    constructor (jwt: Jwt, stripe: Stripe)
      ensures Valid()
      ensures this.jwt == jwt && this.stripe == stripe
      ensures Snapshot() == Db(map[], map[], map[], [], 0)
    {
      this.jwt := jwt;
      this.stripe := stripe;
      users, orders, products, payments, nextId := map[], map[], map[], [], 0;
    }

    /** POST /create-payment-intent. */
    method CreatePaymentIntent(header: Option<string>, order: Doc) returns (r: Response)
      ensures r == Routes.CreatePaymentIntent(jwt, stripe, header, order)
    {
      var g := VerifyJwt(jwt, header);
      if !g.Pass? {
        return Refusal(g);
      }
      var intent := stripe(IntentFor(order));
      if intent.None? {
        return Crash;
      }
      return Send(ClientSecret(intent.value));
    }

    /** GET /user. */
    method ListUsers(header: Option<string>) returns (r: Response)
      ensures r == Routes.ListUsers(jwt, Snapshot(), header)
    {
      var g := VerifyJwt(jwt, header);
      if !g.Pass? {
        return Refusal(g);
      }
      return Send(UserList(users));
    }

    /** GET /admin/:email. */
    method GetAdmin(email: string) returns (r: Response)
      ensures r == Routes.GetAdmin(Snapshot(), email)
    {
      if email !in users {
        return Crash;
      }
      return Send(AdminFlag(IsAdmin(users[email])));
    }

    /** PUT /user/admin/:email. */
    method MakeAdmin(header: Option<string>, email: string) returns (r: Response)
      requires Valid()
      modifies this
      ensures Valid()
      ensures Outcome(Snapshot(), r) == Routes.MakeAdmin(jwt, old(Snapshot()), header, email)
      ensures !AdminGuard(jwt, old(users), header).Pass? ==> unchanged(this)
    {
      var g := VerifyJwt(jwt, header);
      if !g.Pass? {
        return Refusal(g);
      }
      var admin := VerifyAdmin(users, g.email);
      if !admin.Pass? {
        return Refusal(admin);
      }
      if email !in users {
        return Send(Updated(UpdateResult(0, 0, 0)));
      }
      var before := users[email];
      var after := Promoted(before);
      users := users[email := after];
      r := Send(Updated(UpdateResult(1, if after == before then 0 else 1, 0)));
    }

    /** PUT /user/:email. */
    method PutUser(email: string, body: Doc) returns (r: Response)
      requires Valid()
      modifies this
      ensures Valid()
      ensures Outcome(Snapshot(), r) == Routes.PutUser(jwt, old(Snapshot()), email, body)
      ensures email in users && forall e :: e in old(users) && e != email ==> e in users && users[e] == old(users)[e]
    {
      var existing := if email in users then Some(users[email]) else None;
      var after := Upserted(existing, email, body);
      users := users[email := after];
      var result := UpdateResult(
        if existing.Some? then 1 else 0,
        if existing.Some? && after != existing.value then 1 else 0,
        if existing.Some? then 0 else 1);
      var token := jwt.sign(Claims(email), TOKEN_LIFETIME);
      r := Send(Login(result, token));
    }

    /** GET /order?email=. */
    method ListOrders(header: Option<string>, query: Option<string>) returns (r: Response)
      ensures r == Routes.ListOrders(jwt, Snapshot(), header, query)
    {
      var g := VerifyJwt(jwt, header);
      if !g.Pass? {
        return Refusal(g);
      }
      if query == Some(g.email) {
        return Send(OrderList(OwnedBy(orders, g.email)));
      }
      return Status(403, "forbidden access");
    }

    /** GET /order/:id. */
    method GetOrder(id: Id) returns (r: Response)
      ensures r == Routes.GetOrder(Snapshot(), id)
    {
      r := Send(Record(Get(orders, id)));
    }

    /** PATCH /order/:id: receipt first, then the order. */
    method PatchOrder(id: Id, payment: Doc) returns (r: Response)
      requires Valid()
      modifies this
      ensures Valid()
      ensures Outcome(Snapshot(), r) == Routes.PatchOrder(old(Snapshot()), id, payment)
      ensures payments == old(payments) + [payment]
    {
      payments := payments + [payment];
      var matched, modified := 0, 0;
      if id in orders {
        var after := Settled(orders[id], payment);
        matched := 1;
        if after != orders[id] {
          modified := 1;
        }
        orders := orders[id := after];
      }
      r := Send(Updated(UpdateResult(matched, modified, 0)));
    }

    /** POST /order. */
    method PostOrder(header: Option<string>, order: Doc) returns (r: Response)
      requires Valid()
      modifies this
      ensures Valid()
      ensures Outcome(Snapshot(), r) == Routes.PostOrder(jwt, old(Snapshot()), header, order)
    {
      var g := VerifyJwt(jwt, header);
      if !g.Pass? {
        return Refusal(g);
      }
      var id := nextId;
      orders := orders[id := order];
      nextId := nextId + 1;
      r := Send(Inserted(id));
    }

    /** DELETE /order/:id. */
    method DeleteOrder(header: Option<string>, id: Id) returns (r: Response)
      requires Valid()
      modifies this
      ensures Valid()
      ensures Outcome(Snapshot(), r) == Routes.DeleteOrder(jwt, old(Snapshot()), header, id)
    {
      var g := VerifyJwt(jwt, header);
      if !g.Pass? {
        return Refusal(g);
      }
      var count := if id in orders then 1 else 0;
      orders := orders - {id};
      r := Send(Deleted(count));
    }

    /** GET /product. */
    method ListProducts() returns (r: Response)
      ensures r == Routes.ListProducts(Snapshot())
    {
      r := Send(ProductList(products));
    }

    /** GET /product/:id. */
    method GetProduct(id: Id) returns (r: Response)
      ensures r == Routes.GetProduct(Snapshot(), id)
    {
      r := Send(Record(Get(products, id)));
    }

    /** POST /product. */
    method PostProduct(header: Option<string>, product: Doc) returns (r: Response)
      requires Valid()
      modifies this
      ensures Valid()
      ensures Outcome(Snapshot(), r) == Routes.PostProduct(jwt, old(Snapshot()), header, product)
    {
      var g := VerifyJwt(jwt, header);
      if !g.Pass? {
        return Refusal(g);
      }
      var admin := VerifyAdmin(users, g.email);
      if !admin.Pass? {
        return Refusal(admin);
      }
      var id := nextId;
      products := products[id := product];
      nextId := nextId + 1;
      r := Send(Inserted(id));
    }

    /** PUT /product/:id: read, then write the decremented quantity. */
    method PutProduct(id: Id, body: Doc) returns (r: Response)
      requires Valid()
      modifies this
      ensures Valid()
      ensures Outcome(Snapshot(), r) == Routes.PutProduct(old(Snapshot()), id, body)
    {
      if id !in products {
        return Crash;
      }
      var current := products[id];
      products := products[id := Restocked(current, body)];
      r := Send(Record(Some(current)));
    }

    /** DELETE /product/:id. */
    method DeleteProduct(header: Option<string>, id: Id) returns (r: Response)
      requires Valid()
      modifies this
      ensures Valid()
      ensures Outcome(Snapshot(), r) == Routes.DeleteProduct(jwt, old(Snapshot()), header, id)
    {
      var g := VerifyJwt(jwt, header);
      if !g.Pass? {
        return Refusal(g);
      }
      var count := if id in products then 1 else 0;
      products := products - {id};
      r := Send(Deleted(count));
    }
  }

  /** Sign-up and the guards, as a client of the methods above: anybody can
      register an email with role 'admin' through PUT /user/:email and then
      add products with a token for it; a request without a header is 401. */
  method GuardScenario(stripe: Stripe)
  {
    var jwt := Jwt((c: Claims, lifetime: nat) => c.email, (t: string) => Some(Claims(t)));
    var s := new Store(jwt, stripe);
    var bearer := "Bearer" + " " + "a";
    BearerRoundTrip("Bearer", "a");
    var r := s.PutUser("a", map["role" := Str("admin")]);
    assert r.body.token == "a";
    r := s.PostProduct(Some(bearer), map["quantity" := Num(10.0)]);
    assert r == Send(Inserted(0));
    r := s.PostOrder(None, map["email" := Str("c")]);
    assert r == Status(401, "UnAuthorized access");
  }

  /** A customer's orders are 403 to anyone else, and an unknown requester
      makes an admin route throw. */
  method OwnershipScenario(stripe: Stripe)
  {
    var jwt := Jwt((c: Claims, lifetime: nat) => c.email, (t: string) => Some(Claims(t)));
    var s := new Store(jwt, stripe);
    var bearer := "Bearer" + " " + "a";
    BearerRoundTrip("Bearer", "a");
    var r := s.ListOrders(Some(bearer), Some("c"));
    assert r == Status(403, "forbidden access");
    r := s.PostProduct(Some(bearer), map["quantity" := Num(10.0)]);
    assert r == Crash;
  }

  /** An order at 20.00 asks for an intent of 2000 cents; settling it twice
      records two receipts and keeps the second transaction id, and the
      stock is not touched. */
  method SettlementScenario(jwt: Jwt, stripe: Stripe)
  {
    var s := new Store(jwt, stripe);
    s.products, s.orders, s.nextId := map[0 := map["quantity" := Num(10.0)]], map[1 := map["price" := Num(20.0)]], 2;
    assert IntentFor(s.orders[1]).amount == Num(2000.0);
    var r := s.PatchOrder(1, map["transactionId" := Str("tx1")]);
    assert s.orders[1]["paid"] == Bool(true) && s.orders[1]["transactionId"] == Str("tx1");
    r := s.PatchOrder(1, map["transactionId" := Str("tx2")]);
    assert |s.payments| == 2 && s.orders[1]["transactionId"] == Str("tx2");
    assert s.products[0]["quantity"] == Num(10.0);
  }

  /** PUT /product/:id takes 3 off a stock of 10, and throws on an unknown id. */
  method StockScenario(jwt: Jwt, stripe: Stripe)
  {
    var s := new Store(jwt, stripe);
    s.products, s.nextId := map[0 := map["quantity" := Num(10.0)]], 1;
    var r := s.PutProduct(0, map["quantity" := Num(3.0)]);
    assert s.products[0]["quantity"] == Num(7.0);
    r := s.PutProduct(2, map["quantity" := Num(1.0)]);
    assert r == Crash;
  }
}
