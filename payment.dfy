/** Checkout (backend/controllers/payment.controller.js): pricing a cart in cents, the
    percentage coupon, the gift coupon minted for large orders, the metadata snapshot
    attached to the payment session, and the order recorded once the session is paid.
    The coupon and order collections are sequences; the payment gateway's answers are
    parameters. */
module Payment {
  import opened Common

  /** A checkout at or above this total (in cents) earns a gift coupon. */
  const GiftThreshold: int := 20000
  const GiftDiscountPercentage: int := 10
  const GiftLifetime: int := 30 * DayMs

  /** One element of the request's `products`; `price` is in cents. */
  datatype CheckoutProduct = CheckoutProduct(id: string, name: string, image: string, price: int, quantity: int)

  /** One gateway line item as the handler builds it (it carries no quantity). */
  datatype LineItem = LineItem(currency: string, name: string, images: seq<string>, unitAmount: int)

  datatype Coupon = Coupon(code: string, discountPercentage: int, expirationDate: int, userId: string, isActive: bool)

  /** One product of the cart snapshot stored in the session metadata. */
  datatype SnapshotLine = SnapshotLine(id: string, quantity: int, price: int)

  datatype Metadata = Metadata(userId: string, couponCode: string, products: seq<SnapshotLine>)

  /** What is sent to the gateway: the line items, the percentage of the gateway coupon
      created for a found coupon (none otherwise), and the metadata. */
  datatype SessionRequest = SessionRequest(lineItems: seq<LineItem>, discounts: seq<int>, metadata: Metadata)

  /** The answer of `createCheckoutSession`, with the request it sent. */
  datatype Checkout = Checkout(request: SessionRequest, sessionId: string, totalAmount: int)

  datatype CheckoutError = InvalidProducts | ServerError(message: string)

  /** A session as retrieved from the gateway when the client reports success. */
  datatype RetrievedSession = RetrievedSession(paymentStatus: string, amountTotal: int, metadata: Metadata)

  datatype OrderLine = OrderLine(product: string, quantity: int, price: int)

  datatype Order = Order(user: string, products: seq<OrderLine>, totalAmount: int, paymentIntent: string, createdAt: int)

  // ---- Pricing ----

  function LineItemOf(p: CheckoutProduct): LineItem {
    LineItem("usd", p.name, [p.image], p.price)
  }

  /** One line item per product, in order, each priced at its product's unit price. */
  function LineItems(products: seq<CheckoutProduct>): (r: seq<LineItem>)
    ensures |r| == |products|
    ensures forall i :: 0 <= i < |products| ==>
      r[i].unitAmount == products[i].price && r[i].name == products[i].name && r[i].currency == "usd"
    ensures forall i :: 0 <= i < |products| ==> r[i].images == [products[i].image]
  {
    if products == [] then []
    else LineItems(products[..|products| - 1]) + [LineItemOf(products[|products| - 1])]
  }

  /** The cart total before any discount: unit price times quantity, summed. */
  function Subtotal(products: seq<CheckoutProduct>): int {
    if products == [] then 0
    else Subtotal(products[..|products| - 1]) + products[|products| - 1].price * products[|products| - 1].quantity
  }

  lemma {:induction false} SubtotalConcat(a: seq<CheckoutProduct>, b: seq<CheckoutProduct>)
    ensures Subtotal(a + b) == Subtotal(a) + Subtotal(b)
  {
    if b == [] {
      assert a + b == a;
    } else {
      assert (a + b)[..|a + b| - 1] == a + b[..|b| - 1];
      SubtotalConcat(a, b[..|b| - 1]);
    }
  }

  predicate WellFormedCart(products: seq<CheckoutProduct>) {
    forall i :: 0 <= i < |products| ==> products[i].price >= 0 && products[i].quantity >= 0
  }

  lemma {:induction false} SubtotalNonNegative(products: seq<CheckoutProduct>)
    requires WellFormedCart(products)
    ensures Subtotal(products) >= 0
  {
    if products != [] {
      var last := products[|products| - 1];
      SubtotalNonNegative(products[..|products| - 1]);
      assert last.price * last.quantity >= 0;
    }
  }

  /** The pricing loop of `createCheckoutSession`: the `map` over the products that builds
      the line items and accumulates `totalAmount`. */
  method PriceLines(products: seq<CheckoutProduct>) returns (lineItems: seq<LineItem>, totalAmount: int)
    ensures lineItems == LineItems(products)
    ensures totalAmount == Subtotal(products)
  {
    lineItems, totalAmount := [], 0;
    var i := 0;
    while i < |products|
      invariant 0 <= i <= |products|
      invariant lineItems == LineItems(products[..i])
      invariant totalAmount == Subtotal(products[..i])
    {
      var amount := products[i].price;
      totalAmount := totalAmount + amount * products[i].quantity;
      lineItems := lineItems + [LineItemOf(products[i])];
      assert products[..i + 1][..i] == products[..i];
      i := i + 1;
    }
    assert products[..i] == products;
  }

  /** `Math.round(total * percentage / 100)`: the discount, rounded half up. */
  function Discount(total: int, percentage: int): (r: int)
    ensures 100 * r <= total * percentage + 50 < 100 * r + 100
    ensures total >= 0 && 0 <= percentage <= 100 ==> 0 <= r <= total
  {
    assert total >= 0 && 0 <= percentage <= 100 ==> 0 <= total * percentage <= total * 100 by {
      if total >= 0 && 0 <= percentage <= 100 {
        assert total * (100 - percentage) >= 0;
      }
    }
    (total * percentage + 50) / 100
  }

  /** A percentage in [0, 100] never discounts more than the total, nor below zero. */
  lemma DiscountBounds(total: int, percentage: int)
    requires total >= 0 && 0 <= percentage <= 100
    ensures 0 <= Discount(total, percentage) <= total
  {
    assert 0 <= total * percentage <= total * 100 by {
      assert total * (100 - percentage) >= 0;
    }
  }

  /** Half a cent rounds up: 10% of 1000 is 100, 10% of 1005 is 101. */
  lemma DiscountRoundsHalfUp()
    ensures Discount(1000, 10) == 100
    ensures Discount(1005, 10) == 101
  {
  }

  // ---- Coupons ----

  predicate ActiveFor(c: Coupon, code: string, userId: string) {
    c.code == code && c.userId == userId && c.isActive
  }

  /** `Coupon.findOne({ code, userId, isActive: true })`. */
  function FindActiveCoupon(coupons: seq<Coupon>, code: string, userId: string): (r: Option<Coupon>)
    ensures r.Some? ==> r.value in coupons && ActiveFor(r.value, code, userId)
    ensures r.None? <==> forall c :: c in coupons ==> !ActiveFor(c, code, userId)
  {
    match FindFirst(coupons, (c: Coupon) => ActiveFor(c, code, userId))
    case None => None
    case Some(i) => Some(coupons[i])
  }

  /** The coupon `createCheckoutSession` applies: looked up only when a code is given. */
  function LookupCoupon(coupons: seq<Coupon>, couponCode: Option<string>, userId: string): (r: Option<Coupon>)
    ensures !Present(couponCode) ==> r.None?
    ensures r.Some? ==> r.value in coupons && ActiveFor(r.value, couponCode.value, userId)
    ensures Present(couponCode) && r.None? ==>
      forall c :: c in coupons ==> !ActiveFor(c, couponCode.value, userId)
  {
    if Present(couponCode) then FindActiveCoupon(coupons, couponCode.value, userId) else None
  }

  /** The coupon lookup as written: it calls `findOne` on the local `coupon`, which is
      still null, so any given code makes the handler fail. */
  function LookupCouponAsWritten(couponCode: Option<string>): (r: Result<Option<Coupon>, CheckoutError>)
    ensures r.Err? <==> Present(couponCode)
    ensures r.Ok? ==> r.value.None?
  {
    if Present(couponCode) then Err(ServerError("Cannot read properties of null (reading 'findOne')"))
    else Ok(None)
  }

  /** The amount to charge: the subtotal less the found coupon's discount. */
  function CheckoutTotal(products: seq<CheckoutProduct>, coupon: Option<Coupon>): (r: int)
    ensures coupon.None? ==> r == Subtotal(products)
    ensures coupon.Some? ==> var subtotal, p := Subtotal(products), coupon.value.discountPercentage;
      100 * (subtotal - r) <= subtotal * p + 50 < 100 * (subtotal - r) + 100
    ensures coupon.Some? && Subtotal(products) >= 0 && 0 <= coupon.value.discountPercentage <= 100 ==>
      0 <= r <= Subtotal(products)
  {
    var subtotal := Subtotal(products);
    if coupon.None? then subtotal else subtotal - Discount(subtotal, coupon.value.discountPercentage)
  }

  /** A 10% coupon on a 1005-cent cart takes off 101 cents (half a cent rounds up). */
  lemma CheckoutTotalExample()
    ensures CheckoutTotal([CheckoutProduct("p", "Mug", "mug.png", 1005, 1)], Some(Coupon("SAVE10", 10, 0, "u", true))) == 904
  {
    var products := [CheckoutProduct("p", "Mug", "mug.png", 1005, 1)];
    assert products[..0] == [];
    assert Subtotal(products) == 1005;
  }

  /** For a well-formed cart and a percentage in [0, 100], the charged total lies between
      zero and the subtotal; without a coupon it is the subtotal. */
  lemma CheckoutTotalBounds(products: seq<CheckoutProduct>, coupon: Option<Coupon>)
    requires WellFormedCart(products)
    requires coupon.Some? ==> 0 <= coupon.value.discountPercentage <= 100
    ensures 0 <= CheckoutTotal(products, coupon) <= Subtotal(products)
    ensures coupon.None? ==> CheckoutTotal(products, coupon) == Subtotal(products)
  {
    SubtotalNonNegative(products);
    if coupon.Some? {
      DiscountBounds(Subtotal(products), coupon.value.discountPercentage);
    }
  }

  /** `createNewCoupon(userId)`: a 10% coupon for the user, coded "GIFT" followed by a
      random suffix (a parameter here), expiring 30 days after `now`. */
  function GiftCoupon(userId: string, suffix: string, now: int): (r: Coupon)
    ensures |r.code| >= 4 && r.code[..4] == "GIFT"
    ensures r.discountPercentage == GiftDiscountPercentage && r.expirationDate == now + GiftLifetime
    ensures r.userId == userId && r.isActive
  {
    Coupon("GIFT" + suffix, GiftDiscountPercentage, now + GiftLifetime, userId, true)
  }

  /** A stored gift coupon can be redeemed by its owner at a later checkout: the lookup
      finds an active coupon with its code, and the gift itself when no older coupon of
      that user has the same code. */
  lemma GiftCouponRedeemable(coupons: seq<Coupon>, userId: string, suffix: string, now: int)
    ensures var gift := GiftCoupon(userId, suffix, now);
      FindActiveCoupon(coupons + [gift], gift.code, userId).Some?
    ensures var gift := GiftCoupon(userId, suffix, now);
      (forall c :: c in coupons ==> !ActiveFor(c, gift.code, userId)) ==>
      FindActiveCoupon(coupons + [gift], gift.code, userId) == Some(gift)
  {
    var gift := GiftCoupon(userId, suffix, now);
    assert gift in coupons + [gift];
    var s := coupons + [gift];
    var m := (c: Coupon) => ActiveFor(c, gift.code, userId);
    if forall c :: c in coupons ==> !ActiveFor(c, gift.code, userId) {
      forall j | 0 <= j < |coupons| ensures !m(s[j]) {
        assert s[j] == coupons[j];
      }
    }
  }

  /** `createNewCoupon` as written: the coupon document is built but never saved, so the
      coupon collection is unchanged. Returns the built coupon and the collection after. */
  function CreateNewCouponAsWritten(coupons: seq<Coupon>, userId: string, suffix: string, now: int): (r: (Coupon, seq<Coupon>))
    ensures r.1 == coupons
    ensures r.0.userId == userId && r.0.discountPercentage == GiftDiscountPercentage
  {
    (GiftCoupon(userId, suffix, now), coupons)
  }

  /** `Coupon.findOneAndUpdate({ code, userId }, { isActive: false })`: the first coupon
      with that code and owner, active or not, becomes inactive. */
  function Deactivated(coupons: seq<Coupon>, code: string, userId: string): (r: seq<Coupon>)
    ensures |r| == |coupons|
    ensures forall i :: 0 <= i < |coupons| ==>
      r[i] == coupons[i] ||
      (r[i] == coupons[i].(isActive := false) && coupons[i].code == code && coupons[i].userId == userId)
    ensures FindFirst(coupons, (c: Coupon) => c.code == code && c.userId == userId).None? ==> r == coupons
    ensures FindFirst(coupons, (c: Coupon) => c.code == code && c.userId == userId).Some? ==>
      var i := FindFirst(coupons, (c: Coupon) => c.code == code && c.userId == userId).value;
      !r[i].isActive && r[i].(isActive := coupons[i].isActive) == coupons[i] &&
      forall j :: 0 <= j < |coupons| && j != i ==> r[j] == coupons[j]
  {
    match FindFirst(coupons, (c: Coupon) => c.code == code && c.userId == userId)
    case None => coupons
    case Some(i) => coupons[i := coupons[i].(isActive := false)]
  }

  /** Codes are unique per user. */
  ghost predicate UniqueCodes(coupons: seq<Coupon>) {
    forall i, j :: 0 <= i < j < |coupons| ==>
      !(coupons[i].code == coupons[j].code && coupons[i].userId == coupons[j].userId)
  }

  /** With codes unique per user, a redeemed coupon cannot be found again by a later
      checkout, and every other user's or code's lookup is unaffected. */
  lemma RedemptionIsFinal(coupons: seq<Coupon>, code: string, userId: string, otherCode: string, otherUser: string)
    requires UniqueCodes(coupons)
    ensures FindActiveCoupon(Deactivated(coupons, code, userId), code, userId).None?
    ensures (otherCode, otherUser) != (code, userId) ==>
      FindActiveCoupon(Deactivated(coupons, code, userId), otherCode, otherUser)
        == FindActiveCoupon(coupons, otherCode, otherUser)
  {
    var r := Deactivated(coupons, code, userId);
    forall c | c in r ensures !ActiveFor(c, code, userId) {
      var k :| 0 <= k < |r| && r[k] == c;
    }
    if (otherCode, otherUser) != (code, userId) {
      var m := (c: Coupon) => ActiveFor(c, otherCode, otherUser);
      assert forall i :: 0 <= i < |r| ==> m(r[i]) == m(coupons[i]);
      SameMatchesSameFind(coupons, r, m);
    }
  }

  /** Two sequences whose elements agree on `m` have the same first match under `m`. */
  lemma {:induction false} SameMatchesSameFind(a: seq<Coupon>, b: seq<Coupon>, m: Coupon -> bool)
    requires |a| == |b|
    requires forall i :: 0 <= i < |a| ==> m(a[i]) == m(b[i])
    requires forall i :: 0 <= i < |a| ==> m(a[i]) ==> a[i] == b[i]
    ensures (match FindFirst(a, m) case None => None case Some(i) => Some(a[i]))
         == (match FindFirst(b, m) case None => None case Some(i) => Some(b[i]))
  {
  }

  /** Redeeming twice is the same as redeeming once. */
  lemma DeactivationIdempotent(coupons: seq<Coupon>, code: string, userId: string)
    ensures Deactivated(Deactivated(coupons, code, userId), code, userId) == Deactivated(coupons, code, userId)
  {
    var m := (c: Coupon) => c.code == code && c.userId == userId;
    var once := Deactivated(coupons, code, userId);
    assert forall i :: 0 <= i < |coupons| ==> m(once[i]) == m(coupons[i]);
    assert FindFirst(once, m) == FindFirst(coupons, m);
  }

  // ---- Metadata snapshot and the order built from it ----

  /** The `products` snapshot stored in the session metadata: each product's id, quantity
      and unit price, in cart order. */
  function SnapshotOf(products: seq<CheckoutProduct>): (r: seq<SnapshotLine>)
    ensures |r| == |products|
    ensures forall i :: 0 <= i < |products| ==>
      r[i] == SnapshotLine(products[i].id, products[i].quantity, products[i].price)
  {
    if products == [] then []
    else [SnapshotLine(products[0].id, products[0].quantity, products[0].price)] + SnapshotOf(products[1..])
  }

  /** `metadata` of the session: the user, the given coupon code or "", and the snapshot. */
  function MetadataOf(userId: string, couponCode: Option<string>, products: seq<CheckoutProduct>): (r: Metadata)
    ensures r.couponCode != "" <==> Present(couponCode)
    ensures Present(couponCode) ==> r.couponCode == couponCode.value
    ensures r.userId == userId && r.products == SnapshotOf(products)
  {
    Metadata(userId, if couponCode.Some? then couponCode.value else "", SnapshotOf(products))
  }

  /** The order lines `checkoutSuccess` builds from the parsed snapshot. */
  function OrderLines(snapshot: seq<SnapshotLine>): (r: seq<OrderLine>)
    ensures |r| == |snapshot|
    ensures forall i :: 0 <= i < |snapshot| ==>
      r[i] == OrderLine(snapshot[i].id, snapshot[i].quantity, snapshot[i].price)
  {
    if snapshot == [] then []
    else [OrderLine(snapshot[0].id, snapshot[0].quantity, snapshot[0].price)] + OrderLines(snapshot[1..])
  }

  /** Round trip: the order lines rebuilt from the snapshot are the checked-out products'
      ids, quantities and prices, element for element, in order. */
  lemma SnapshotRoundTrip(products: seq<CheckoutProduct>)
    ensures |OrderLines(SnapshotOf(products))| == |products|
    ensures forall i :: 0 <= i < |products| ==>
      OrderLines(SnapshotOf(products))[i] == OrderLine(products[i].id, products[i].quantity, products[i].price)
  {
  }

  /** The order `checkoutSuccess` records for a paid session. */
  function OrderFrom(sessionId: string, session: RetrievedSession, now: int): (r: Order)
    ensures r.user == session.metadata.userId && r.paymentIntent == sessionId
    ensures r.totalAmount == session.amountTotal && r.createdAt == now
    ensures r.products == OrderLines(session.metadata.products)
    ensures |r.products| == |session.metadata.products|
  {
    Order(session.metadata.userId, OrderLines(session.metadata.products), session.amountTotal, sessionId, now)
  }

  // ---- createCheckoutSession as a whole ----

  /** The answer `createCheckoutSession` gives. `gatewaySession` is the id of the session
      the gateway creates, or None when that call fails. */
  function CheckoutOutcome(coupons: seq<Coupon>, userId: string, products: seq<CheckoutProduct>,
                           couponCode: Option<string>, gatewaySession: Option<string>): (r: Result<Checkout, CheckoutError>)
    ensures products == [] ==> r == Err(InvalidProducts)
    ensures products != [] && gatewaySession.None? ==> r.Err? && r.error.ServerError?
    ensures r.Ok? ==> |r.value.request.lineItems| == |products| && r.value.request.metadata.userId == userId
    ensures r.Ok? ==> (r.value.request.lineItems == LineItems(products) &&
      r.value.request.metadata == MetadataOf(userId, couponCode, products) &&
      r.value.sessionId == gatewaySession.value)
    ensures r.Ok? ==> var coupon := LookupCoupon(coupons, couponCode, userId);
      r.value.totalAmount == CheckoutTotal(products, coupon) &&
      r.value.request.discounts == (if coupon.Some? then [coupon.value.discountPercentage] else [])
  {
    if products == [] then Err(InvalidProducts)
    else if gatewaySession.None? then Err(ServerError("session creation failed"))
    else
      var coupon := LookupCoupon(coupons, couponCode, userId);
      var request := SessionRequest(LineItems(products),
                                    if coupon.Some? then [coupon.value.discountPercentage] else [],
                                    MetadataOf(userId, couponCode, products));
      Ok(Checkout(request, gatewaySession.value, CheckoutTotal(products, coupon)))
  }

  /** `createCheckoutSession` as written: the pricing loop adds to `totalAmount`, which
      is never declared (the declared accumulator is `totalPrice`), so every non-empty
      cart ends in the error handler before any session is created. */
  function CreateCheckoutSessionAsWritten(products: seq<CheckoutProduct>): (r: Result<Checkout, CheckoutError>)
    ensures r.Err?
    ensures products != [] ==> r.error == ServerError("totalAmount is not defined")
  {
    if products == [] then Err(InvalidProducts) else Err(ServerError("totalAmount is not defined"))
  }

  /** A checkout that succeeds and is then paid produces an order for the same user whose
      lines are the checked-out products, in order; the confirmation deactivates by the
      code and owner of the coupon applied at checkout, and only when a code was given. */
  lemma CheckoutThenOrder(coupons: seq<Coupon>, userId: string, products: seq<CheckoutProduct>,
                          couponCode: Option<string>, gatewaySession: Option<string>, amountPaid: int, now: int)
    requires CheckoutOutcome(coupons, userId, products, couponCode, gatewaySession).Ok?
    ensures var checkout := CheckoutOutcome(coupons, userId, products, couponCode, gatewaySession).value;
      var order := OrderFrom(checkout.sessionId, RetrievedSession("paid", amountPaid, checkout.request.metadata), now);
      order.user == userId && order.paymentIntent == checkout.sessionId &&
      |order.products| == |products| &&
      forall i :: 0 <= i < |products| ==>
        order.products[i] == OrderLine(products[i].id, products[i].quantity, products[i].price)
    ensures var checkout := CheckoutOutcome(coupons, userId, products, couponCode, gatewaySession).value;
      var coupon := LookupCoupon(coupons, couponCode, userId);
      (checkout.request.metadata.couponCode != "" <==> Present(couponCode)) &&
      (coupon.Some? ==> checkout.request.metadata.couponCode == coupon.value.code &&
                        checkout.request.metadata.userId == coupon.value.userId)
  {
    SnapshotRoundTrip(products);
  }

  /** `checkoutSuccess` as written: for a paid session with a coupon code it calls
      `findOneAndUpdate` on `coupon`, an undeclared identifier, so no coupon is deactivated
      and no order is recorded. Returns the answer, the coupons and the orders after. */
  function CheckoutSuccessAsWritten(coupons: seq<Coupon>, orders: seq<Order>, sessionId: string,
                                    session: RetrievedSession, now: int): (r: (Result<Option<Order>, CheckoutError>, seq<Coupon>, seq<Order>))
    ensures r.1 == coupons
    ensures session.paymentStatus == "paid" && session.metadata.couponCode != "" ==> r.0.Err? && r.2 == orders
    ensures session.paymentStatus == "paid" && session.metadata.couponCode == "" ==>
      r.0 == Ok(Some(OrderFrom(sessionId, session, now))) && r.2 == orders + [OrderFrom(sessionId, session, now)]
  {
    if session.paymentStatus != "paid" then (Ok(None), coupons, orders)
    else if session.metadata.couponCode != "" then (Err(ServerError("coupon is not defined")), coupons, orders)
    else
      var order := OrderFrom(sessionId, session, now);
      (Ok(Some(order)), coupons, orders + [order])
  }

  /** The coupon and order collections that the checkout handlers change. */
  class Store {
    var coupons: seq<Coupon>
    var orders: seq<Order>

    constructor (coupons: seq<Coupon>, orders: seq<Order>)
      ensures this.coupons == coupons && this.orders == orders
    {
      this.coupons := coupons;
      this.orders := orders;
    }

    /** `createCheckoutSession`: price the cart, apply a found coupon, ask the gateway for
        a session and, when the charged total reaches the threshold, store a gift coupon
        for the user. `giftSuffix` and `now` stand for the random code suffix and the clock. */
    method CreateCheckoutSession(userId: string, products: seq<CheckoutProduct>, couponCode: Option<string>,
                                 gatewaySession: Option<string>, giftSuffix: string, now: int)
      returns (r: Result<Checkout, CheckoutError>)
      modifies this
      ensures r == CheckoutOutcome(old(coupons), userId, products, couponCode, gatewaySession)
      ensures orders == old(orders)
      ensures |coupons| == |old(coupons)| + 1 <==> r.Ok? && r.value.totalAmount >= GiftThreshold
      ensures coupons == old(coupons) || coupons == old(coupons) + [GiftCoupon(userId, giftSuffix, now)]
    {
      if |products| == 0 {
        return Err(InvalidProducts);
      }
      var lineItems, totalAmount := PriceLines(products);
      var coupon: Option<Coupon> := None;
      if Present(couponCode) {
        coupon := FindActiveCoupon(coupons, couponCode.value, userId);
        if coupon.Some? {
          totalAmount := totalAmount - Discount(totalAmount, coupon.value.discountPercentage);
        }
      }
      var discounts := if coupon.Some? then [coupon.value.discountPercentage] else [];
      var request := SessionRequest(lineItems, discounts, MetadataOf(userId, couponCode, products));
      if gatewaySession.None? {
        return Err(ServerError("session creation failed"));
      }
      if totalAmount >= GiftThreshold {
        coupons := coupons + [GiftCoupon(userId, giftSuffix, now)];
      }
      r := Ok(Checkout(request, gatewaySession.value, totalAmount));
    }

    /** `checkoutSuccess`: nothing happens unless the session is paid; then the coupon
        named in the metadata (if any) is deactivated and the order is recorded. */
    method CheckoutSuccess(sessionId: string, session: RetrievedSession, now: int) returns (r: Option<Order>)
      modifies this
      ensures session.paymentStatus != "paid" ==> r.None? && coupons == old(coupons) && orders == old(orders)
      ensures session.paymentStatus == "paid" ==>
        r == Some(OrderFrom(sessionId, session, now)) && orders == old(orders) + [r.value]
      ensures session.paymentStatus == "paid" ==>
        coupons == if session.metadata.couponCode != ""
                   then Deactivated(old(coupons), session.metadata.couponCode, session.metadata.userId)
                   else old(coupons)
    {
      if session.paymentStatus != "paid" {
        return None;
      }
      var code, userId := session.metadata.couponCode, session.metadata.userId;
      if code != "" {
        var found := FindFirst(coupons, (c: Coupon) => c.code == code && c.userId == userId);
        if found.Some? {
          var i := found.value;
          coupons := coupons[i := coupons[i].(isActive := false)];
        }
      }
      var order := Order(userId, OrderLines(session.metadata.products), session.amountTotal, sessionId, now);
      orders := orders + [order];
      r := Some(order);
    }
  }
}
