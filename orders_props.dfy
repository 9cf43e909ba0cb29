/** What the checkout and the order listing guarantee, stated over the
    `Checkout` function that `Database.PlaceOrder` is proved to implement. */
module CheckoutProperties {
  import opened Js
  import opened Money
  import opened Entities
  import opened Grouping
  import opened Orders

  // ---------------------------------------------------------------------
  // Guards: nothing is written unless every check passes
  // ---------------------------------------------------------------------

  /** A caller who is not signed in gets 401 before anything is looked up. */
  lemma UnauthenticatedRejected(db: Tables, auth: Auth, req: Request, sessionCreated: bool)
    requires !Truthy(auth.userId)
    ensures Checkout(db, auth, req, sessionCreated) == Outcome(NotAuthorized, db.orders, db.carts)
    ensures Status(NotAuthorized) == 401
  {
  }

  /** A signed-in caller with no address, no payment method or no items gets
      "missing order details." and nothing is written. */
  lemma IncompleteRequestRejected(db: Tables, auth: Auth, req: Request, sessionCreated: bool)
    requires Truthy(auth.userId)
    requires !Truthy(req.addressId) || req.paymentMethod.None? || req.items.None? || req.items.value == []
    ensures Checkout(db, auth, req, sessionCreated) == Outcome(MissingOrderDetails, db.orders, db.carts)
  {
  }

  /** An unknown coupon code always stops the checkout with "Coupon not found". */
  lemma UnknownCouponRejected(db: Tables, auth: Auth, req: Request, sessionCreated: bool)
    requires Truthy(auth.userId) && Complete(req)
    requires Truthy(req.couponCode) && Upper(req.couponCode.value) !in db.coupons
    ensures Checkout(db, auth, req, sessionCreated) == Outcome(CouponRejected(CouponNotFound), db.orders, db.carts)
    ensures Status(CouponRejected(CouponNotFound)) == 400
  {
  }

  /** The coupon rules in order, first failure wins: the code must exist, a
      new-user coupon needs a shopper without orders, a members-only coupon
      needs a member; otherwise the coupon is applied. No code at all (or "")
      applies none. */
  lemma CouponRules(code: Option<string>, coupons: map<string, Coupon>, prior: nat, isPlusMember: bool)
    ensures !Truthy(code) ==> CheckCoupon(code, coupons, prior, isPlusMember) == NoCoupon
    ensures Truthy(code) && Upper(code.value) !in coupons ==>
      CheckCoupon(code, coupons, prior, isPlusMember) == Reject(CouponNotFound)
    ensures Truthy(code) && Upper(code.value) in coupons && coupons[Upper(code.value)].forNewUser && prior > 0 ==>
      CheckCoupon(code, coupons, prior, isPlusMember) == Reject(NewUsersOnly)
    ensures (&& Truthy(code) && Upper(code.value) in coupons
             && !(coupons[Upper(code.value)].forNewUser && prior > 0)
             && coupons[Upper(code.value)].forPlusMember && !isPlusMember) ==>
      CheckCoupon(code, coupons, prior, isPlusMember) == Reject(PremiumOnly)
    ensures forall c :: CheckCoupon(code, coupons, prior, isPlusMember) == Apply(c) <==>
      && Truthy(code) && Upper(code.value) in coupons && c == coupons[Upper(code.value)]
      && (!c.forNewUser || prior == 0) && (!c.forPlusMember || isPlusMember)
  {
  }

  /** The code is looked up upper-cased, so its case does not matter. */
  lemma CouponLookupIgnoresCase(code: string, coupons: map<string, Coupon>, prior: nat, isPlusMember: bool)
    ensures CheckCoupon(Some(code), coupons, prior, isPlusMember)
         == CheckCoupon(Some(Upper(code)), coupons, prior, isPlusMember)
  {
    UpperIsUpper(code);
  }

  /** Orders are written exactly when the checkout passes every check, and
      rows already in the table are never changed. A failing check also
      leaves every cart alone. */
  lemma WritesOnlyWhenChecksPass(db: Tables, auth: Auth, req: Request, sessionCreated: bool)
    ensures var o := Checkout(db, auth, req, sessionCreated);
      && |o.orders| >= |db.orders| && o.orders[..|db.orders|] == db.orders
      && (|o.orders| > |db.orders| <==> Passes(db, auth, req))
      && (Passes(db, auth, req) ==> o.orders == db.orders + Created(db, auth, req))
      && (!Passes(db, auth, req) ==> o.carts == db.carts)
  {
    var o := Checkout(db, auth, req, sessionCreated);
    if Passes(db, auth, req) {
      var items := req.items.value;
      GroupSpecGroups(items, db.products);
      assert items[0].id in db.products;
      assert |GroupSpec(items, db.products).keys| > 0;
      assert o.orders == db.orders + Created(db, auth, req);
    }
  }

  // ---------------------------------------------------------------------
  // One order per store
  // ---------------------------------------------------------------------

  /** The orders built from a store map: one per key, in key order, each
      holding its key's lines and the checkout's shared fields. */
  lemma OrdersOfStoreMap(m: StoreMap, ctx: OrderContext, first: nat)
    requires forall k :: k in m.keys ==> k in m.entries
    ensures var created := NewOrders(m, ctx, first);
      && |created| == |m.keys|
      && (forall j :: 0 <= j < |created| ==>
            && created[j].storeId == m.keys[j]
            && created[j].orderItems == m.entries[m.keys[j]]
            && created[j].id == first + j
            && created[j].userId == ctx.userId
            && created[j].addressId == ctx.addressId
            && created[j].isPaid == false
            && created[j].paymentMethod == ctx.paymentMethod)
  {
  }

  /** The store of each order, in order. */
  function OrderStores(orders: seq<Order>): seq<string> {
    seq(|orders|, j requires 0 <= j < |orders| => orders[j].storeId)
  }

  /** The orders have distinct stores, one for each store of the cart: every
      cart line's store has an order, and every order's store is the store of
      some cart line. */
  predicate OnePerStore(created: seq<Order>, items: seq<CartItem>, products: map<string, Product>)
    requires AllKnown(items, products)
  {
    && (forall a, b :: 0 <= a < b < |created| ==> created[a].storeId != created[b].storeId)
    && (forall i :: 0 <= i < |items| ==> products[items[i].id].storeId in OrderStores(created))
    && (forall j :: 0 <= j < |created| ==> created[j].storeId in Stores(items, products))
  }

  /** The orders built from a grouping of the cart are one per store of the cart. */
  lemma OrdersCoverStores(m: StoreMap, items: seq<CartItem>, products: map<string, Product>, ctx: OrderContext,
                          first: nat)
    requires AllKnown(items, products) && GroupedBy(m, items, products)
    ensures |NewOrders(m, ctx, first)| == |m.keys|
    ensures OnePerStore(NewOrders(m, ctx, first), items, products)
  {
    var created := NewOrders(m, ctx, first);
    OrdersOfStoreMap(m, ctx, first);
    assert OrderStores(created) == m.keys;
    StoresMembers(items, products);
    forall j | 0 <= j < |created| ensures created[j].storeId in Stores(items, products) {
      assert m.keys[j] in m.keys;
      var i :| 0 <= i < |items| && products[items[i].id].storeId == m.keys[j];
      assert Stores(items, products)[i] == m.keys[j];
    }
  }

  /** The orders carry the ids `first`, `first + 1`, ... and the shopper's id. */
  predicate FreshIds(created: seq<Order>, first: nat, userId: string) {
    forall j :: 0 <= j < |created| ==> created[j].id == first + j && created[j].userId == userId
  }

  /** A passing checkout creates one order per distinct store of the cart,
      with fresh consecutive ids, all for the shopper (they are appended to
      the table, by `WritesOnlyWhenChecksPass`). */
  lemma OneOrderPerStore(db: Tables, auth: Auth, req: Request)
    requires Passes(db, auth, req)
    ensures |Created(db, auth, req)| == |GroupSpec(req.items.value, db.products).keys|
    ensures OnePerStore(Created(db, auth, req), req.items.value, db.products)
    ensures FreshIds(Created(db, auth, req), |db.orders|, auth.userId.value)
  {
    var items := req.items.value;
    var m := GroupSpec(items, db.products);
    var ctx := CheckoutContext(db, auth, req);
    GroupSpecGroups(items, db.products);
    OrdersOfStoreMap(m, ctx, |db.orders|);
    OrdersCoverStores(m, items, db.products, ctx, |db.orders|);
  }

  /** Every line of every created order is a cart line of that order's store
      priced from the catalogue, and taken together the orders hold exactly
      the priced cart lines. */
  lemma OrderItemsFromCatalogue(db: Tables, auth: Auth, req: Request)
    requires Passes(db, auth, req)
    ensures PricedFromCatalogue(Created(db, auth, req), req.items.value, db.products)
  {
    GroupSpecGroups(req.items.value, db.products);
    GroupedLinesFromCatalogue(GroupSpec(req.items.value, db.products), req.items.value, db.products,
                              CheckoutContext(db, auth, req), |db.orders|);
  }

  /** Each order line is a cart line of the order's store at the catalogue
      price, and the orders' lines are the priced cart lines, each once. */
  predicate PricedFromCatalogue(created: seq<Order>, items: seq<CartItem>, products: map<string, Product>)
    requires AllKnown(items, products)
  {
    FromCatalogue(created, products) && multiset(AllItems(created)) == multiset(Lines(items, products))
  }

  /** Every line of an order is a catalogue product of the order's store at its catalogue price. */
  predicate FromCatalogue(created: seq<Order>, products: map<string, Product>) {
    forall j, l :: 0 <= j < |created| && l in created[j].orderItems ==>
      && l.productId in products
      && l.price == products[l.productId].price
      && products[l.productId].storeId == created[j].storeId
  }

  lemma GroupedLinesFromCatalogue(m: StoreMap, items: seq<CartItem>, products: map<string, Product>,
                                  ctx: OrderContext, first: nat)
    requires AllKnown(items, products) && GroupedBy(m, items, products)
    ensures PricedFromCatalogue(NewOrders(m, ctx, first), items, products)
  {
    GroupedOrdersFromCatalogue(m, items, products, ctx, first);
    GroupedOrdersHoldCart(m, items, products, ctx, first);
  }

  lemma GroupedOrdersFromCatalogue(m: StoreMap, items: seq<CartItem>, products: map<string, Product>,
                                   ctx: OrderContext, first: nat)
    requires AllKnown(items, products) && GroupedBy(m, items, products)
    ensures FromCatalogue(NewOrders(m, ctx, first), products)
  {
    var created := NewOrders(m, ctx, first);
    forall j | 0 <= j < |created|
      ensures forall l :: l in created[j].orderItems ==>
        && l.productId in products
        && l.price == products[l.productId].price
        && products[l.productId].storeId == created[j].storeId
    {
      assert created[j] == OrderFor(m, ctx, first, j);
      LinesForFromCatalogue(items, products, m.keys[j]);
    }
  }

  lemma GroupedOrdersHoldCart(m: StoreMap, items: seq<CartItem>, products: map<string, Product>,
                              ctx: OrderContext, first: nat)
    requires AllKnown(items, products) && GroupedBy(m, items, products)
    ensures multiset(AllItems(NewOrders(m, ctx, first))) == multiset(Lines(items, products))
  {
    var created := NewOrders(m, ctx, first);
    forall j | 0 <= j < |created|
      ensures created[j].orderItems == LinesFor(items, products, m.keys[j])
    {
      assert created[j] == OrderFor(m, ctx, first, j);
    }
    ItemsAreFlatten(created, m.keys, items, products, |m.keys|);
    assert created[..|m.keys|] == created;
    assert m.keys[..|m.keys|] == m.keys;
    FlattenIsPartition(m.keys, items, products);
  }

  /** All order lines of a sequence of orders, one order after the other. */
  function AllItems(orders: seq<Order>): seq<OrderItem> {
    if orders == [] then [] else AllItems(orders[..|orders| - 1]) + orders[|orders| - 1].orderItems
  }

  /** Orders holding the groups' lines, one per key, hold the groups one
      after the other. */
  lemma {:induction false} ItemsAreFlatten(created: seq<Order>, keys: seq<string>, items: seq<CartItem>,
                                           products: map<string, Product>, n: nat)
    requires AllKnown(items, products) && n <= |created| == |keys|
    requires forall j :: 0 <= j < |created| ==> created[j].orderItems == LinesFor(items, products, keys[j])
    ensures AllItems(created[..n]) == Flatten(keys[..n], items, products)
  {
    if n == 0 {
      assert created[..0] == [] && keys[..0] == [];
    } else {
      ItemsAreFlatten(created, keys, items, products, n - 1);
      assert created[..n][..n - 1] == created[..n - 1] && created[..n][n - 1] == created[n - 1];
      assert keys[..n][..n - 1] == keys[..n - 1] && keys[..n][n - 1] == keys[n - 1];
    }
  }

  // ---------------------------------------------------------------------
  // Totals, shipping fee and the amount charged
  // ---------------------------------------------------------------------

  /** Each order's total is its lines' sum of price times quantity, less the
      coupon's percentage, plus the shipping fee exactly when it is the first
      store and the shopper is not a member, rounded to cents; the coupon is
      recorded on every order. */
  predicate PricedOrders(created: seq<Order>, coupon: Option<Coupon>, isPlusMember: bool) {
    forall j :: 0 <= j < |created| ==>
      && created[j].total == Round2(Discounted(Subtotal(created[j].orderItems), coupon)
                                    + (if GetsShipping(isPlusMember, j) then ShippingFee else 0.0))
      && created[j].coupon == coupon && created[j].isCouponUsed == coupon.Some?
  }

  /** The positions of the orders that carry the shipping fee. */
  function FeePositions(created: seq<Order>, isPlusMember: bool): set<nat> {
    set j: nat | j < |created| && GetsShipping(isPlusMember, j)
  }

  lemma OrdersArePriced(m: StoreMap, ctx: OrderContext, first: nat)
    requires forall k :: k in m.keys ==> k in m.entries
    ensures PricedOrders(NewOrders(m, ctx, first), ctx.coupon, ctx.isPlusMember)
  {
  }

  /** For a non-member the fee is in the first order's total and in no
      other, for a member in none; so exactly one order, or none, carries it. */
  lemma FeeCharged(created: seq<Order>, coupon: Option<Coupon>, isPlusMember: bool)
    requires PricedOrders(created, coupon, isPlusMember) && |created| > 0
    ensures !isPlusMember ==>
      created[0].total == Round2(Discounted(Subtotal(created[0].orderItems), coupon) + ShippingFee)
    ensures forall j :: 0 <= j < |created| && (isPlusMember || j > 0) ==>
      created[j].total == Round2(Discounted(Subtotal(created[j].orderItems), coupon))
    ensures |FeePositions(created, isPlusMember)| == (if isPlusMember then 0 else 1)
  {
    if isPlusMember {
      assert FeePositions(created, isPlusMember) == {};
    } else {
      assert FeePositions(created, isPlusMember) == {0};
    }
  }

  /** A passing checkout prices every order that way: the fee is charged once
      to a non-member and never to a member. */
  lemma ShippingFeeAtMostOnce(db: Tables, auth: Auth, req: Request)
    requires Passes(db, auth, req)
    ensures PricedOrders(Created(db, auth, req), CouponApplied(db, auth, req), auth.isPlusMember)
    ensures |FeePositions(Created(db, auth, req), auth.isPlusMember)| == (if auth.isPlusMember then 0 else 1)
  {
    var items := req.items.value;
    var m := GroupSpec(items, db.products);
    GroupSpecGroups(items, db.products);
    assert items[0].id in db.products;
    OrdersOfStoreMap(m, CheckoutContext(db, auth, req), |db.orders|);
    OrdersArePriced(m, CheckoutContext(db, auth, req), |db.orders|);
    FeeCharged(Created(db, auth, req), CouponApplied(db, auth, req), auth.isPlusMember);
  }

  /** A sum of whole-cent totals is a whole number of cents. */
  lemma {:induction false} SumOfWholeCents(orders: seq<Order>) returns (k: int)
    requires forall j :: 0 <= j < |orders| ==> orders[j].total == Cents(orders[j].total) as real / 100.0
    ensures SumTotals(orders) * 100.0 == k as real
  {
    if orders == [] {
      k := 0;
    } else {
      var p := orders[..|orders| - 1];
      var last := orders[|orders| - 1];
      var kp := SumOfWholeCents(p);
      k := kp + Cents(last.total);
    }
  }

  /** Orders whose totals were rounded to cents sum to a whole number of cents. */
  lemma RoundedTotals(m: StoreMap, ctx: OrderContext, first: nat) returns (k: int)
    requires forall k :: k in m.keys ==> k in m.entries
    ensures SumTotals(NewOrders(m, ctx, first)) * 100.0 == k as real
  {
    var created := NewOrders(m, ctx, first);
    forall j | 0 <= j < |created|
      ensures created[j].total == Cents(created[j].total) as real / 100.0
    {
      CentsOfWholeCents(Cents(StoreTotal(m.entries[m.keys[j]], ctx.coupon, GetsShipping(ctx.isPlusMember, j))));
    }
    k := SumOfWholeCents(created);
  }

  /** With STRIPE, the session is for the sum of the rounded order totals,
      exactly, in cents (`Math.round(fullAmount * 100)`), its metadata lists
      the new order ids in processing order with the shopper, and no cart is
      touched. When the gateway creates no session the answer is a 400 and
      the orders stay written (unpaid, as every new order is). */
  lemma CardPaymentSession(db: Tables, auth: Auth, req: Request, sessionCreated: bool)
    requires Passes(db, auth, req) && req.paymentMethod.value == STRIPE
    ensures var o := Checkout(db, auth, req, sessionCreated);
      var created := Created(db, auth, req);
      && o.orders == db.orders + created
      && o.carts == db.carts
      && (!sessionCreated ==> o.response == Failed(SessionNotCreated) && Status(o.response) == 400)
      && (sessionCreated ==>
            && o.response.StripeSession?
            && o.response.session.unitAmount as real == SumTotals(created) * 100.0
            && o.response.session.orderIds == Ids(created)
            && o.response.session.userId == auth.userId.value
            && o.response.session.quantity == 1)
  {
    var k := RoundedTotals(GroupSpec(req.items.value, db.products), CheckoutContext(db, auth, req), |db.orders|);
    MathRoundWhole(k);
  }

  /** Otherwise the shopper's cart is emptied and every other cart is kept;
      a shopper without a user row gets an error, with the orders already
      written. */
  lemma CashOnDeliveryClearsCart(db: Tables, auth: Auth, req: Request, sessionCreated: bool)
    requires Passes(db, auth, req) && req.paymentMethod.value == COD
    ensures var o := Checkout(db, auth, req, sessionCreated);
      var uid := auth.userId.value;
      && o.orders == db.orders + Created(db, auth, req)
      && (uid in db.carts ==> o.response == OrdersPlaced && o.carts == db.carts[uid := map[]])
      && (uid !in db.carts ==> o.response == Failed(UserNotFound) && o.carts == db.carts)
      && (forall u :: u != uid && u in db.carts ==> u in o.carts && o.carts[u] == db.carts[u])
  {
  }

  /** The order amounts reconcile with the cart: their sum differs from the
      discounted cart subtotal plus one shipping fee (none for members) by at
      most half a cent per order. */
  lemma TotalsReconcile(db: Tables, auth: Auth, req: Request)
    requires Passes(db, auth, req)
    ensures Reconciles(Created(db, auth, req), Lines(req.items.value, db.products),
                       CouponApplied(db, auth, req), auth.isPlusMember)
  {
    GroupSpecGroups(req.items.value, db.products);
    GroupedTotalsReconcile(GroupSpec(req.items.value, db.products), req.items.value, db.products,
                           CheckoutContext(db, auth, req), |db.orders|);
  }

  /** The sum of the order totals is within half a cent per order of the
      discounted subtotal of `lines` plus one shipping fee for non-members. */
  predicate Reconciles(created: seq<Order>, lines: seq<OrderItem>, coupon: Option<Coupon>, isPlusMember: bool) {
    ReconcilesUpTo(SumTotals(created), Subtotal(lines), |created|, coupon, isPlusMember)
  }

  /** A sum of `n` order totals against the sum of their subtotals: within
      half a cent per order of the discounted subtotals, plus the fee when a
      non-member has at least one order. */
  predicate ReconcilesUpTo(sum: real, subtotals: real, n: nat, coupon: Option<Coupon>, isPlusMember: bool) {
    var expected := Discounted(subtotals, coupon) + (if !isPlusMember && n > 0 then ShippingFee else 0.0);
    -(n as real) * 0.005 <= sum - expected <= n as real * 0.005
  }

  lemma GroupedTotalsReconcile(m: StoreMap, items: seq<CartItem>, products: map<string, Product>,
                               ctx: OrderContext, first: nat)
    requires AllKnown(items, products) && GroupedBy(m, items, products)
    ensures Reconciles(NewOrders(m, ctx, first), Lines(items, products), ctx.coupon, ctx.isPlusMember)
  {
    var created := NewOrders(m, ctx, first);
    OrdersArePriced(m, ctx, first);
    SumsReconcile(created, ctx.coupon, ctx.isPlusMember, |created|);
    assert created[..|created|] == created;
    SubtotalSumIsSubtotal(created);
    GroupedOrdersHoldCart(m, items, products, ctx, first);
    SubtotalPermutation(AllItems(created), Lines(items, products));
  }

  /** The sum of the orders' subtotals. */
  function SubtotalSum(orders: seq<Order>): real {
    if orders == [] then 0.0 else SubtotalSum(orders[..|orders| - 1]) + Subtotal(orders[|orders| - 1].orderItems)
  }

  lemma {:induction false} SubtotalSumIsSubtotal(orders: seq<Order>)
    ensures SubtotalSum(orders) == Subtotal(AllItems(orders))
  {
    if orders != [] {
      var p := orders[..|orders| - 1];
      SubtotalSumIsSubtotal(p);
      SubtotalConcat(AllItems(p), orders[|orders| - 1].orderItems);
    }
  }

  lemma DiscountedAdds(a: real, b: real, coupon: Option<Coupon>)
    ensures Discounted(a + b, coupon) == Discounted(a, coupon) + Discounted(b, coupon)
  {
    if coupon.Some? {
      var d := coupon.value.discount;
      assert (a + b) * d == a * d + b * d;
    }
  }

  /** One more order: a total within half a cent of its discounted subtotal
      (plus the fee, for the first order of a non-member) keeps the running
      sums reconciled. */
  lemma ReconcileStep(sum: real, subtotals: real, n: nat, coupon: Option<Coupon>, isPlusMember: bool,
                      total: real, subtotal: real)
    requires n > 0 && ReconcilesUpTo(sum, subtotals, n - 1, coupon, isPlusMember)
    requires -0.005 <= total - (Discounted(subtotal, coupon) + (if GetsShipping(isPlusMember, n - 1) then ShippingFee else 0.0)) <= 0.005
    ensures ReconcilesUpTo(sum + total, subtotals + subtotal, n, coupon, isPlusMember)
  {
    DiscountedAdds(subtotals, subtotal, coupon);
  }

  /** Orders priced as the checkout prices them reconcile, prefix by prefix. */
  lemma {:induction false} SumsReconcile(created: seq<Order>, coupon: Option<Coupon>, isPlusMember: bool, n: nat)
    requires n <= |created| && PricedOrders(created, coupon, isPlusMember)
    ensures ReconcilesUpTo(SumTotals(created[..n]), SubtotalSum(created[..n]), n, coupon, isPlusMember)
  {
    if n == 0 {
      assert created[..0] == [];
    } else {
      SumsReconcile(created, coupon, isPlusMember, n - 1);
      var p := created[..n];
      assert p[..n - 1] == created[..n - 1] && p[n - 1] == created[n - 1];
      var raw := Discounted(Subtotal(created[n - 1].orderItems), coupon)
                 + (if GetsShipping(isPlusMember, n - 1) then ShippingFee else 0.0);
      Round2Close(raw);
      var sum, subtotals := SumTotals(created[..n - 1]), SubtotalSum(created[..n - 1]);
      ReconcileStep(sum, subtotals, n, coupon, isPlusMember, created[n - 1].total, Subtotal(created[n - 1].orderItems));
      assert SumTotals(p) == sum + created[n - 1].total;
      assert SubtotalSum(p) == subtotals + Subtotal(created[n - 1].orderItems);
    }
  }

  // ---------------------------------------------------------------------
  // Order ids and the GET listing
  // ---------------------------------------------------------------------

  /** Every order's id is its position in the table. */
  predicate IdsArePositions(orders: seq<Order>) {
    forall i :: 0 <= i < |orders| ==> orders[i].id == i
  }

  /** A checkout keeps ids equal to table positions, so ids stay unique. */
  lemma CheckoutKeepsIds(db: Tables, auth: Auth, req: Request, sessionCreated: bool)
    requires IdsArePositions(db.orders)
    ensures IdsArePositions(Checkout(db, auth, req, sessionCreated).orders)
  {
    if Passes(db, auth, req) {
      WritesOnlyWhenChecksPass(db, auth, req, sessionCreated);
      OneOrderPerStore(db, auth, req);
    }
  }

  /** `GET` lists exactly the shopper's cash-on-delivery orders and paid card orders. */
  lemma {:induction false} ListedExactly(orders: seq<Order>, userId: string)
    ensures forall o :: o in VisibleOrders(orders, userId) <==> o in orders && o.userId == userId && Listed(o)
  {
    if orders != [] {
      ListedExactly(orders[..|orders| - 1], userId);
      assert orders == orders[..|orders| - 1] + [orders[|orders| - 1]];
    }
  }

  /** Listed orders carry ids below the table size. */
  lemma {:induction false} VisibleIdsBelow(orders: seq<Order>, userId: string)
    requires IdsArePositions(orders)
    ensures forall a :: 0 <= a < |VisibleOrders(orders, userId)| ==> VisibleOrders(orders, userId)[a].id < |orders|
  {
    if orders != [] {
      var p := orders[..|orders| - 1];
      VisibleIdsBelow(p, userId);
    }
  }

  /** ...newest first. */
  lemma {:induction false} ListedNewestFirst(orders: seq<Order>, userId: string)
    requires IdsArePositions(orders)
    ensures NewestFirst(VisibleOrders(orders, userId))
  {
    if orders != [] {
      var p, last := orders[..|orders| - 1], orders[|orders| - 1];
      assert IdsArePositions(p);
      assert last.id == |p|;
      ListedNewestFirst(p, userId);
      VisibleIdsBelow(p, userId);
      var rp := VisibleOrders(p, userId);
      if last.userId == userId && Listed(last) {
        var r := [last] + rp;
        assert VisibleOrders(orders, userId) == r;
        forall a, b | 0 <= a < b < |r| ensures r[a].id > r[b].id {
          assert r[b] == rp[b - 1];
          if a > 0 {
            assert r[a] == rp[a - 1];
          }
        }
      } else {
        assert VisibleOrders(orders, userId) == rp;
      }
    }
  }

  /** Ids strictly decrease along the sequence. */
  predicate NewestFirst(r: seq<Order>) {
    forall a, b :: 0 <= a < b < |r| ==> r[a].id > r[b].id
  }

  lemma {:induction false} VisibleOrdersAppendHidden(orders: seq<Order>, extra: seq<Order>, userId: string)
    requires forall j :: 0 <= j < |extra| ==> !Listed(extra[j])
    ensures VisibleOrders(orders + extra, userId) == VisibleOrders(orders, userId)
  {
    if extra != [] {
      var e := extra[..|extra| - 1];
      assert (orders + extra)[..|orders + extra| - 1] == orders + e;
      VisibleOrdersAppendHidden(orders, e, userId);
    } else {
      assert orders + extra == orders;
    }
  }

  /** Card orders are created unpaid, so a STRIPE checkout changes nobody's
      order listing until the payment is confirmed elsewhere. */
  lemma CardOrdersHiddenUntilPaid(db: Tables, auth: Auth, req: Request, sessionCreated: bool, userId: string)
    requires Passes(db, auth, req) && req.paymentMethod.value == STRIPE
    ensures VisibleOrders(Checkout(db, auth, req, sessionCreated).orders, userId) == VisibleOrders(db.orders, userId)
  {
    VisibleOrdersAppendHidden(db.orders, Created(db, auth, req), userId);
  }

  // ---------------------------------------------------------------------
  // Two carts worked through
  // ---------------------------------------------------------------------

  function ExampleProducts(): map<string, Product> {
    map["A" := Product("A", "a", "", 12.0, 10.0, "c", [], "S1"),
        "B" := Product("B", "b", "", 25.0, 20.0, "c", [], "S2")]
  }

  function ExampleCart(): seq<CartItem> {
    [CartItem("A", 2), CartItem("B", 1)]
  }

  /** The example cart groups into S1 (two of A) then S2 (one of B). */
  lemma ExampleGrouping()
    ensures AllKnown(ExampleCart(), ExampleProducts())
    ensures GroupSpec(ExampleCart(), ExampleProducts())
         == StoreMap(["S1", "S2"], map["S1" := [OrderItem("A", 2, 10.0)], "S2" := [OrderItem("B", 1, 20.0)]])
  {
    var products, items := ExampleProducts(), ExampleCart();
    var one := [CartItem("A", 2)];
    assert items[..1] == one && one[..0] == [];
    assert AllKnown(one, products);
    assert Stores(one, products) == ["S1"];
    assert Stores(items, products) == ["S1", "S2"];
    assert ["S1", "S2"][..1] == ["S1"] && ["S1"][..0] == [];
    assert Distinct(["S1"]) == ["S1"];
    assert Distinct(["S1", "S2"]) == ["S1", "S2"];
    assert LinesFor(one, products, "S1") == [OrderItem("A", 2, 10.0)];
    assert LinesFor(one, products, "S2") == [];
    assert LinesFor(items, products, "S1") == [OrderItem("A", 2, 10.0)];
    assert LinesFor(items, products, "S2") == [OrderItem("B", 1, 20.0)];
  }

  /** The orders a non-member's checkout builds from that grouping, without coupon:
      S1's is 20.00 + 5.00 shipping, S2's is 20.00. */
  lemma ExampleOrders(ctx: OrderContext, first: nat)
    requires ctx.coupon.None? && !ctx.isPlusMember
    ensures var m := StoreMap(["S1", "S2"], map["S1" := [OrderItem("A", 2, 10.0)], "S2" := [OrderItem("B", 1, 20.0)]]);
      var created := NewOrders(m, ctx, first);
      && |created| == 2
      && created[0].storeId == "S1" && created[0].total == 25.0
      && created[1].storeId == "S2" && created[1].total == 20.0
  {
    var line1, line2 := OrderItem("A", 2, 10.0), OrderItem("B", 1, 20.0);
    assert [line1][..0] == [] && [line2][..0] == [];
    assert Subtotal([line1]) == 20.0;
    assert Subtotal([line2]) == 20.0;
    CentsOfWholeCents(2500);
    CentsOfWholeCents(2000);
  }

  function ExampleTables(): Tables {
    Tables(ExampleProducts(), map[], [], map["u" := map["A" := 2, "B" := 1]])
  }

  function ExampleRequest(): Request {
    Request(Some("addr"), Some(ExampleCart()), None, Some(COD))
  }

  /** Product A (10.00, store S1) twice and product B (20.00, store S2) once,
      paid on delivery by a non-member: S1's order is 20.00 + 5.00 shipping,
      S2's order is 20.00, and the cart is emptied. */
  lemma ExampleTwoStores()
    ensures Checkout(ExampleTables(), Auth(Some("u"), false), ExampleRequest(), true).response == OrdersPlaced
    ensures var orders := Checkout(ExampleTables(), Auth(Some("u"), false), ExampleRequest(), true).orders;
      && |orders| == 2
      && orders[0].storeId == "S1" && orders[0].total == 25.0
      && orders[1].storeId == "S2" && orders[1].total == 20.0
    ensures Checkout(ExampleTables(), Auth(Some("u"), false), ExampleRequest(), true).carts["u"] == map[]
  {
    var db, auth, req := ExampleTables(), Auth(Some("u"), false), ExampleRequest();
    ExampleGrouping();
    assert CheckCoupon(req.couponCode, db.coupons, PriorOrders(db.orders, "u"), false) == NoCoupon;
    assert Passes(db, auth, req);
    var ctx := CheckoutContext(db, auth, req);
    assert ctx == OrderContext("u", "addr", COD, None, false);
    ExampleOrders(ctx, 0);
    CashOnDeliveryClearsCart(db, auth, req, true);
    assert Checkout(db, auth, req, true).orders == Created(db, auth, req);
  }
}
