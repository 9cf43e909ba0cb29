/** The orders route: `POST` places a multi-seller checkout (one order per
    store), `GET` lists the orders a shopper may see. The database is a
    class whose fields are the tables the handler touches. */
module Orders {
  import opened Js
  import opened Money
  import opened Entities
  import opened Grouping

  /** The flat shipping fee added once per checkout for non-members. */
  const ShippingFee: real := 5.0

  /** The application tag put in the payment session metadata. */
  const AppId: string := "gocart"

  /** What the identity provider reports: the signed-in user, if any, and
      whether the user has the "plus" plan. */
  datatype Auth = Auth(userId: Option<string>, isPlusMember: bool)

  /** The JSON body of a checkout. `items` is None when it is missing or not an array. */
  datatype Request = Request(
    addressId: Option<string>,
    items: Option<seq<CartItem>>,
    couponCode: Option<string>,
    paymentMethod: Option<PaymentMethod>)

  datatype CouponError = CouponNotFound | NewUsersOnly | PremiumOnly

  /** Exceptions that reach the handler's catch block: a cart line naming no
      product, a payment session the gateway did not create, a missing user
      row when the cart is cleared. */
  datatype ServerError = ProductNotFound | SessionNotCreated | UserNotFound

  /** The values handed to the payment gateway's session creation: the
      amount in cents, the order ids (sent comma-joined) and the shopper. */
  datatype SessionRequest = SessionRequest(
    currency: string,
    unitAmount: int,
    quantity: nat,
    orderIds: seq<nat>,
    userId: string,
    appId: string)

  datatype Response =
    | NotAuthorized
    | MissingOrderDetails
    | CouponRejected(reason: CouponError)
    | Failed(error: ServerError)
    | StripeSession(session: SessionRequest)
    | OrdersPlaced

  /** The HTTP status of each response. */
  function Status(r: Response): int {
    match r
    case NotAuthorized => 401
    case MissingOrderDetails => 401
    case CouponRejected(reason) => if reason == CouponNotFound then 400 else 404
    case Failed(_) => 400
    case StripeSession(_) => 200
    case OrdersPlaced => 200
  }

  // ---------------------------------------------------------------------
  // Checks before any order is written
  // ---------------------------------------------------------------------

  /** The body has an address, a payment method and a non-empty item array. */
  predicate Complete(req: Request) {
    Truthy(req.addressId) && req.paymentMethod.Some? && req.items.Some? && |req.items.value| > 0
  }

  datatype CouponCheck = NoCoupon | Apply(coupon: Coupon) | Reject(reason: CouponError)

  /** The coupon guards, in the handler's order: look the code up upper-cased,
      then the new-user rule, then the members-only rule. */
  function CheckCoupon(code: Option<string>, coupons: map<string, Coupon>, priorOrders: nat, isPlusMember: bool): CouponCheck {
    if !Truthy(code) then NoCoupon
    else
      var key := Upper(code.value);
      if key !in coupons then Reject(CouponNotFound)
      else if coupons[key].forNewUser && priorOrders > 0 then Reject(NewUsersOnly)
      else if coupons[key].forPlusMember && !isPlusMember then Reject(PremiumOnly)
      else Apply(coupons[key])
  }

  function Applied(check: CouponCheck): Option<Coupon> {
    if check.Apply? then Some(check.coupon) else None
  }

  /** How many orders of the table belong to the user. */
  function PriorOrders(orders: seq<Order>, userId: string): nat {
    if orders == [] then 0
    else PriorOrders(orders[..|orders| - 1], userId) + (if orders[|orders| - 1].userId == userId then 1 else 0)
  }

  // ---------------------------------------------------------------------
  // Totals of the per-store orders
  // ---------------------------------------------------------------------

  /** The total less the coupon's percentage of it, when a coupon applies. */
  function Discounted(total: real, coupon: Option<Coupon>): real {
    if coupon.Some? then total - total * coupon.value.discount / 100.0 else total
  }

  /** Whether the store processed at position `j` gets the shipping fee. */
  predicate GetsShipping(isPlusMember: bool, j: nat) {
    !isPlusMember && j == 0
  }

  /** A store's total before rounding. */
  function StoreTotal(lines: seq<OrderItem>, coupon: Option<Coupon>, withFee: bool): real {
    Discounted(Subtotal(lines), coupon) + (if withFee then ShippingFee else 0.0)
  }

  /** What every order of one checkout shares. */
  datatype OrderContext = OrderContext(
    userId: string,
    addressId: string,
    paymentMethod: PaymentMethod,
    coupon: Option<Coupon>,
    isPlusMember: bool)

  /** The order created for the store processed at position `j`. */
  function OrderFor(m: StoreMap, ctx: OrderContext, firstId: nat, j: nat): Order
    requires j < |m.keys| && m.keys[j] in m.entries
  {
    var lines := m.entries[m.keys[j]];
    Order(
      firstId + j, ctx.userId, m.keys[j], ctx.addressId,
      Round2(StoreTotal(lines, ctx.coupon, GetsShipping(ctx.isPlusMember, j))),
      ctx.paymentMethod, ctx.coupon.Some?, ctx.coupon, false, lines)
  }

  /** The orders a checkout creates, one per store, in processing order. */
  function NewOrders(m: StoreMap, ctx: OrderContext, firstId: nat): seq<Order>
    requires forall k :: k in m.keys ==> k in m.entries
  {
    seq(|m.keys|, j requires 0 <= j < |m.keys| => OrderFor(m, ctx, firstId, j))
  }

  /** The sum of the order totals (`fullAmount`). */
  function SumTotals(orders: seq<Order>): real {
    if orders == [] then 0.0 else SumTotals(orders[..|orders| - 1]) + orders[|orders| - 1].total
  }

  /** The ids of the orders, in order (`orderIds`). */
  function Ids(orders: seq<Order>): seq<nat> {
    if orders == [] then [] else Ids(orders[..|orders| - 1]) + [orders[|orders| - 1].id]
  }

  /** One more order written: the running sum and the ids grow by it. */
  lemma Appended(done: seq<Order>, o: Order)
    ensures SumTotals(done + [o]) == SumTotals(done) + o.total
    ensures Ids(done + [o]) == Ids(done) + [o.id]
  {
    assert (done + [o])[..|done|] == done;
  }

  /** The order at position `j` of a checkout's new orders. */
  lemma NewOrderAt(m: StoreMap, ctx: OrderContext, firstId: nat, j: nat)
    requires forall k :: k in m.keys ==> k in m.entries
    requires j < |m.keys|
    ensures |NewOrders(m, ctx, firstId)| == |m.keys| && NewOrders(m, ctx, firstId)[j] == OrderFor(m, ctx, firstId, j)
  {
  }

  /** A prefix one longer is the shorter prefix and the next element. */
  lemma PrefixSnoc<T>(s: seq<T>, j: nat)
    requires j < |s|
    ensures s[..j + 1] == s[..j] + [s[j]]
  {
  }

  // ---------------------------------------------------------------------
  // The whole checkout, as a function of the tables before it
  // ---------------------------------------------------------------------

  datatype Tables = Tables(
    products: map<string, Product>,
    coupons: map<string, Coupon>,
    orders: seq<Order>,
    carts: map<string, Cart>)

  /** The response and the order and cart tables after the checkout. */
  datatype Outcome = Outcome(response: Response, orders: seq<Order>, carts: map<string, Cart>)

  /** `POST /api/orders` on the tables `db`. `sessionCreated` tells whether
      the payment gateway would create a card-payment session; the gateway
      is not modelled otherwise. */
  function Checkout(db: Tables, auth: Auth, req: Request, sessionCreated: bool): Outcome {
    if !Truthy(auth.userId) then Outcome(NotAuthorized, db.orders, db.carts)
    else if !Complete(req) then Outcome(MissingOrderDetails, db.orders, db.carts)
    else
      var uid := auth.userId.value;
      var check := CheckCoupon(req.couponCode, db.coupons, PriorOrders(db.orders, uid), auth.isPlusMember);
      if check.Reject? then Outcome(CouponRejected(check.reason), db.orders, db.carts)
      else if !AllKnown(req.items.value, db.products) then Outcome(Failed(ProductNotFound), db.orders, db.carts)
      else
        var ctx := OrderContext(uid, req.addressId.value, req.paymentMethod.value, Applied(check), auth.isPlusMember);
        Settlement(db, ctx, NewOrders(GroupSpec(req.items.value, db.products), ctx, |db.orders|), sessionCreated)
  }

  /** The tables and the response once the orders are written: a card
      payment opens a session for the rounded sum in cents (and fails, with
      the orders kept, when the gateway creates none), cash on delivery
      empties the shopper's cart (and fails when there is no user row). */
  function Settlement(db: Tables, ctx: OrderContext, created: seq<Order>, sessionCreated: bool): Outcome {
    var after := db.orders + created;
    if ctx.paymentMethod == STRIPE then
      if !sessionCreated then Outcome(Failed(SessionNotCreated), after, db.carts)
      else
        Outcome(StripeSession(SessionRequest("usd", MathRound(SumTotals(created) * 100.0), 1, Ids(created), ctx.userId, AppId)),
                after, db.carts)
    else if ctx.userId !in db.carts then Outcome(Failed(UserNotFound), after, db.carts)
    else Outcome(OrdersPlaced, after, db.carts[ctx.userId := map[]])
  }

  /** The checkout gets past every check and writes orders. */
  predicate Passes(db: Tables, auth: Auth, req: Request) {
    && Truthy(auth.userId)
    && Complete(req)
    && !CheckCoupon(req.couponCode, db.coupons, PriorOrders(db.orders, auth.userId.value), auth.isPlusMember).Reject?
    && AllKnown(req.items.value, db.products)
  }

  /** The coupon a passing checkout applies, if any. */
  function CouponApplied(db: Tables, auth: Auth, req: Request): Option<Coupon>
    requires Truthy(auth.userId)
  {
    Applied(CheckCoupon(req.couponCode, db.coupons, PriorOrders(db.orders, auth.userId.value), auth.isPlusMember))
  }

  /** What the orders of a passing checkout share. */
  function CheckoutContext(db: Tables, auth: Auth, req: Request): OrderContext
    requires Passes(db, auth, req)
  {
    OrderContext(auth.userId.value, req.addressId.value, req.paymentMethod.value,
                 CouponApplied(db, auth, req), auth.isPlusMember)
  }

  /** The orders a checkout that got past every check created. */
  function Created(db: Tables, auth: Auth, req: Request): seq<Order>
    requires Passes(db, auth, req)
  {
    NewOrders(GroupSpec(req.items.value, db.products), CheckoutContext(db, auth, req), |db.orders|)
  }

  // ---------------------------------------------------------------------
  // The database and the handlers
  // ---------------------------------------------------------------------

  class Database {
    var products: map<string, Product>
    var coupons: map<string, Coupon>
    var orders: seq<Order>
    var carts: map<string, Cart>

    constructor (products: map<string, Product>, coupons: map<string, Coupon>, orders: seq<Order>, carts: map<string, Cart>)
      ensures this.products == products && this.coupons == coupons
      ensures this.orders == orders && this.carts == carts
    {
      this.products, this.coupons, this.orders, this.carts := products, coupons, orders, carts;
    }

    function State(): Tables
      reads this
    {
      Tables(products, coupons, orders, carts)
    }

    /** One store's total: the lines' subtotal, less the coupon's percentage,
        plus the shipping fee when this store carries it. */
    static method PriceStore(sellerItems: seq<OrderItem>, coupon: Option<Coupon>, addFee: bool) returns (total: real)
      ensures total == StoreTotal(sellerItems, coupon, addFee)
    {
      total := Subtotal(sellerItems);
      if coupon.Some? {
        total := total - total * coupon.value.discount / 100.0;
      }
      if addFee {
        total := total + ShippingFee;
      }
    }

    /** The order written for the store at position `j`: its lines priced,
        the total rounded to cents, the coupon recorded, not yet paid. */
    static method StoreOrder(ordersByStore: StoreMap, ctx: OrderContext, ghost first: nat, id: nat, j: nat, addFee: bool)
      returns (order: Order)
      requires j < |ordersByStore.keys| && ordersByStore.keys[j] in ordersByStore.entries
      requires id == first + j && addFee == GetsShipping(ctx.isPlusMember, j)
      ensures order == OrderFor(ordersByStore, ctx, first, j)
    {
      var storeId := ordersByStore.keys[j];
      var sellerItems := ordersByStore.entries[storeId];
      var total := PriceStore(sellerItems, ctx.coupon, addFee);
      order := Order(id, ctx.userId, storeId, ctx.addressId, Round2(total), ctx.paymentMethod,
                     ctx.coupon.Some?, ctx.coupon, false, sellerItems);
    }

    /** The loop over `ordersByStore.entries()`: price each store's lines,
        take the discount off, add the shipping fee to the first store only
        (non-members), round, write the order and collect its id. */
    method CreateStoreOrders(ordersByStore: StoreMap, ctx: OrderContext) returns (orderIds: seq<nat>, fullAmount: real)
      requires forall k :: k in ordersByStore.keys ==> k in ordersByStore.entries
      modifies this
      ensures products == old(products) && coupons == old(coupons) && carts == old(carts)
      ensures orders == old(orders) + NewOrders(ordersByStore, ctx, |old(orders)|)
      ensures orderIds == Ids(NewOrders(ordersByStore, ctx, |old(orders)|))
      ensures fullAmount == SumTotals(NewOrders(ordersByStore, ctx, |old(orders)|))
    {
      ghost var first, before := |orders|, orders;
      ghost var created := NewOrders(ordersByStore, ctx, first);
      ghost var done: seq<Order> := [];
      orderIds := [];
      fullAmount := 0.0;
      var isShippingFeeAdded := false;
      var j := 0;
      while j < |ordersByStore.keys|
        invariant 0 <= j <= |ordersByStore.keys|
        invariant products == old(products) && coupons == old(coupons) && carts == old(carts)
        invariant done == created[..j] && orders == before + done
        invariant isShippingFeeAdded == (!ctx.isPlusMember && j > 0)
        invariant fullAmount == SumTotals(done) && orderIds == Ids(done)
      {
        assert GetsShipping(ctx.isPlusMember, j) == (!ctx.isPlusMember && !isShippingFeeAdded);
        var addFee := !ctx.isPlusMember && !isShippingFeeAdded;
        var order := StoreOrder(ordersByStore, ctx, first, |orders|, j, addFee);
        if addFee {
          isShippingFeeAdded := true;
        }
        fullAmount := fullAmount + order.total;
        orders := orders + [order];
        orderIds := orderIds + [order.id];
        Appended(done, order);
        done := done + [order];
        NewOrderAt(ordersByStore, ctx, first, j);
        PrefixSnoc(created, j);
        j := j + 1;
      }
      assert created[..j] == created;
    }

    /** `POST /api/orders`. Orders are written one at a time, so a failure
        after the loop (an unknown user row) leaves them in place. */
    method PlaceOrder(auth: Auth, req: Request, sessionCreated: bool) returns (resp: Response)
      modifies this
      ensures products == old(products) && coupons == old(coupons)
      ensures Outcome(resp, orders, carts) == Checkout(old(State()), auth, req, sessionCreated)
    {
      if !Truthy(auth.userId) {
        return NotAuthorized;
      }
      var uid := auth.userId.value;
      if !Complete(req) {
        return MissingOrderDetails;
      }
      var items := req.items.value;
      var paymentMethod := req.paymentMethod.value;
      var check := CheckCoupon(req.couponCode, coupons, PriorOrders(orders, uid), auth.isPlusMember);
      if check.Reject? {
        return CouponRejected(check.reason);
      }
      var coupon := Applied(check);

      var grouped := GroupByStore(items, products);
      if grouped.None? {
        return Failed(ProductNotFound);
      }
      var ctx := OrderContext(uid, req.addressId.value, paymentMethod, coupon, auth.isPlusMember);
      resp := Settle(grouped.value, ctx, sessionCreated);
    }

    /** The rest of `POST /api/orders` once the cart is grouped: write the
        orders, then open the card session or clear the cart. */
    method Settle(ordersByStore: StoreMap, ctx: OrderContext, sessionCreated: bool) returns (resp: Response)
      requires forall k :: k in ordersByStore.keys ==> k in ordersByStore.entries
      modifies this
      ensures products == old(products) && coupons == old(coupons)
      ensures Outcome(resp, orders, carts)
           == Settlement(old(State()), ctx, NewOrders(ordersByStore, ctx, |old(orders)|), sessionCreated)
    {
      var orderIds, fullAmount := CreateStoreOrders(ordersByStore, ctx);
      if ctx.paymentMethod == STRIPE {
        if !sessionCreated {
          return Failed(SessionNotCreated);
        }
        return StripeSession(SessionRequest("usd", MathRound(fullAmount * 100.0), 1, orderIds, ctx.userId, AppId));
      }
      if ctx.userId !in carts {
        return Failed(UserNotFound);
      }
      carts := carts[ctx.userId := map[]];
      return OrdersPlaced;
    }
  }

  // ---------------------------------------------------------------------
  // GET: the orders a shopper sees
  // ---------------------------------------------------------------------

  /** Cash-on-delivery orders, and card orders once they are paid. */
  predicate Listed(o: Order) {
    o.paymentMethod == COD || (o.paymentMethod == STRIPE && o.isPaid)
  }

  /** The shopper's listed orders, newest (latest written) first. */
  function VisibleOrders(orders: seq<Order>, userId: string): seq<Order> {
    if orders == [] then []
    else
      var last := orders[|orders| - 1];
      (if last.userId == userId && Listed(last) then [last] else []) + VisibleOrders(orders[..|orders| - 1], userId)
  }

  /** `GET /api/orders`: None is the 401 for a caller who is not signed in. */
  function ListOrders(orders: seq<Order>, userId: Option<string>): Option<seq<Order>> {
    if !Truthy(userId) then None else Some(VisibleOrders(orders, userId.value))
  }
}
