/** Pricing and the checkout transaction of store/views.py. */
module Views {
  import opened Models
  import opened Cart

  /** `quantize(Decimal('0.01'))` of an amount given in ten-thousandths of a cent: the nearest
      whole number of cents, ties to the even neighbour (ROUND_HALF_EVEN, the rounding of
      Python's default decimal context). */
  function QuantizeCents(n: int): (r: Cents)
    ensures -10000 <= 2 * (n - 10000 * r) <= 10000
    ensures 2 * (n - 10000 * r) == 10000 || 2 * (n - 10000 * r) == -10000 ==> r % 2 == 0
  {
    var q, m := n / 10000, n % 10000;
    if 2 * m < 10000 then q
    else if 2 * m > 10000 then q + 1
    else if q % 2 == 0 then q
    else q + 1
  }

  /** The nearest whole number of cents, ties to even, is unique: QuantizeCents is the rounding. */
  lemma QuantizeCentsUnique(n: int, r: int)
    requires -10000 <= 2 * (n - 10000 * r) <= 10000
    requires 2 * (n - 10000 * r) == 10000 || 2 * (n - 10000 * r) == -10000 ==> r % 2 == 0
    ensures r == QuantizeCents(n)
  {
  }

  /** `_calculate_discount(subtotal, coupon)`. A percent coupon is worth subtotal x value / 100,
      which in cents is subtotal x value / 10000, quantized to 0.01. */
  function Discount(subtotal: Cents, coupon: Option<Coupon>): (d: Cents)
    ensures coupon.None? ==> d == 0
    ensures coupon.Some? && subtotal < coupon.value.minOrderAmount ==> d == 0
    ensures coupon.Some? && subtotal >= coupon.value.minOrderAmount && coupon.value.discountType == Percent ==>
              -10000 <= 2 * (subtotal * coupon.value.value - d * 10000) <= 10000
    ensures coupon.Some? && subtotal >= coupon.value.minOrderAmount && coupon.value.discountType == Percent ==>
              d == QuantizeCents(subtotal * coupon.value.value)
    ensures coupon.Some? && subtotal >= coupon.value.minOrderAmount && coupon.value.discountType == Amount ==>
              d <= subtotal && d <= coupon.value.value && (d == subtotal || d == coupon.value.value)
  {
    match coupon
    case None => 0
    case Some(c) =>
      if subtotal < c.minOrderAmount then 0
      else if c.discountType == Percent then QuantizeCents(subtotal * c.value)
      else if subtotal < c.value then subtotal
      else c.value
  }

  /** `active_delivery.calculate_fee(amount) if active_delivery else 0.00`. */
  function FeeFor(delivery: Option<DeliveryRate>, amount: Cents): (fee: Cents)
    ensures delivery.None? ==> fee == 0
    ensures delivery.Some? ==> fee == CalculateFee(delivery.value, amount)
  {
    match delivery
    case None => 0
    case Some(rate) => CalculateFee(rate, amount)
  }

  /** `Coupon.objects.filter(code=code, active=True).first()`; codes are unique. */
  function FindCoupon(coupons: map<string, Coupon>, code: string): (r: Option<Coupon>)
    ensures r.Some? <==> code in coupons && coupons[code].active
    ensures r.Some? ==> r.value == coupons[code]
  {
    if code in coupons && coupons[code].active then Some(coupons[code]) else None
  }

  /** `get_object_or_404(Product, id=pid, is_active=True)`: the first active row with that id. */
  function FindActive(products: seq<Product>, pid: ProductId): (r: Option<Product>)
    ensures r.Some? ==> r.value in products && r.value.id == pid && r.value.isActive
    ensures r.None? ==> forall k :: 0 <= k < |products| ==> !(products[k].id == pid && products[k].isActive)
  {
    if products == [] then None
    else if products[0].id == pid && products[0].isActive then Some(products[0])
    else
      var r := FindActive(products[1..], pid);
      assert forall k :: 1 <= k < |products| ==> products[k] == products[1..][k - 1];
      r
  }

  /** The cleaned checkout form: its validity, the fields it copies onto the Order and the
      coupon code, already stripped and upper-cased. */
  datatype CheckoutForm = CheckoutForm(isValid: bool, contact: Contact, paymentMethod: PaymentMethod, couponCode: string)

  datatype Request = Get | Post(form: CheckoutForm)

  /** The figures the checkout page shows. */
  datatype Pricing = Pricing(subtotal: Cents, discount: Cents, deliveryFee: Cents, total: Cents)

  /** How a checkout request ends: redirected for a reason, redirected to the new order,
      or the checkout page rendered with its pricing. */
  datatype Outcome = EmptyCart | InvalidCoupon | InsufficientStock(product: ProductId) | Placed(orderId: nat)
                   | ShowForm(pricing: Pricing)

  /** The rows checkout reads and writes, and the session cart. */
  datatype Db = Db(
    products: seq<Product>,
    coupons: map<string, Coupon>,
    cart: CartMap,
    orders: seq<Order>,
    items: seq<OrderItem>)

  datatype Step = Step(db: Db, outcome: Outcome)

  datatype Committed = Committed(db: Db, shortOf: Option<ProductId>)

  /** `product.save()`: the row with the product's primary key becomes the given product. */
  function SaveProduct(products: seq<Product>, p: Product): (r: seq<Product>)
    ensures |r| == |products|
    ensures forall k :: 0 <= k < |r| ==> r[k] == if products[k].id == p.id then p else products[k]
  {
    seq(|products|, k requires 0 <= k < |products| => if products[k].id == p.id then p else products[k])
  }

  /** The OrderItem created for a line: the line's quantity at the product's current price. */
  function Purchase(orderId: nat, line: CartLine): (it: OrderItem)
    ensures it.order == orderId && it.product == line.product.id && it.quantity == line.quantity
    ensures it.price == line.product.price
    ensures line.subtotal == line.product.price * line.quantity ==> ItemSubtotal(it) == line.subtotal
  {
    OrderItem(orderId, line.product.id, line.quantity, line.product.price)
  }

  /** A line whose product, as read, has too little stock. */
  predicate Short(line: CartLine): (short: bool)
    ensures short <==> line.quantity > line.product.inventory
    ensures !short ==> line.product.inventory - line.quantity >= 0
  {
    line.product.inventory < line.quantity
  }

  /** The product as saved after selling a line: its inventory less the line's quantity. */
  function AfterSale(line: CartLine): (p: Product)
    requires !Short(line)
    ensures p.id == line.product.id && p.price == line.product.price
    ensures p.inventory + line.quantity == line.product.inventory
    ensures p == line.product.(inventory := p.inventory)
  {
    line.product.(inventory := line.product.inventory - line.quantity)
  }

  /** The loop over the cart lines (store/views.py:105-122): stop at the first line short of stock,
      otherwise create its OrderItem and save its decremented product. What was written before
      a stop stays written. */
  function Commit(db: Db, orderId: nat, lines: seq<CartLine>): (r: Committed)
    ensures r.db.orders == db.orders && r.db.coupons == db.coupons && r.db.cart == db.cart
    decreases |lines|
  {
    if lines == [] then Committed(db, None)
    else if Short(lines[0]) then Committed(db, Some(lines[0].product.id))
    else
      Commit(db.(items := db.items + [Purchase(orderId, lines[0])],
                 products := SaveProduct(db.products, AfterSale(lines[0]))),
             orderId, lines[1..])
  }

  /** The Order that checkout saves. Both payment methods leave the payment pending. */
  function NewOrder(id: nat, form: CheckoutForm, user: Option<UserId>, coupon: Option<Coupon>,
                    discount: Cents, fee: Cents): (o: Order)
    ensures o.id == id && o.user == user && o.contact == form.contact && o.paymentMethod == form.paymentMethod
    ensures o.status == Pending && o.paymentStatus == PaymentPending && o.paymentReference == ""
    ensures o.coupon.Some? <==> coupon.Some?
    ensures coupon.Some? ==> o.coupon.value == coupon.value.code
    ensures o.discountAmount == discount && o.deliveryFee == fee
  {
    Order(id, user, form.contact, Pending, form.paymentMethod,
          if form.paymentMethod == Cod then PaymentPending else PaymentPending,
          "", if coupon.Some? then Some(coupon.value.code) else None, discount, fee)
  }

  /** The page shown for a GET, or for a POST whose form is invalid: no discount, and the
      fee on the undiscounted subtotal. */
  function FormPricing(subtotal: Cents, delivery: Option<DeliveryRate>): (p: Pricing)
    ensures p.subtotal == subtotal && p.discount == 0
    ensures p.deliveryFee == FeeFor(delivery, subtotal)
    ensures p.total == p.subtotal - p.discount + p.deliveryFee
  {
    var fee := FeeFor(delivery, subtotal);
    Pricing(subtotal, 0, fee, subtotal - 0 + fee)
  }

  /** The submitted branch of `checkout` (store/views.py:80-129) for a non-empty cart whose
      resolved lines total `subtotal`: check the coupon, price the order, save it, commit the
      lines, count the coupon's use and empty the cart. */
  function PlaceSpec(db: Db, lines: seq<CartLine>, subtotal: Cents, form: CheckoutForm, user: Option<UserId>,
                     delivery: Option<DeliveryRate>, now: Timestamp): (s: Step)
    ensures s.outcome.InvalidCoupon? || s.outcome.InsufficientStock? || s.outcome.Placed?
    ensures s.outcome.InvalidCoupon? <==>
              form.couponCode != ""
              && (FindCoupon(db.coupons, form.couponCode).None? || !IsValid(FindCoupon(db.coupons, form.couponCode).value, now))
    ensures s.outcome.InvalidCoupon? ==> s.db == db
    ensures !s.outcome.InvalidCoupon? ==> |s.db.orders| == |db.orders| + 1 && s.db.orders[..|db.orders|] == db.orders
    ensures s.outcome.InsufficientStock? ==> s.db.coupons == db.coupons && s.db.cart == db.cart
    ensures s.outcome.Placed? ==> s.outcome.orderId == |db.orders| + 1 && s.db.cart == map[]
  {
    var code := form.couponCode;
    var found := FindCoupon(db.coupons, code);
    if code != "" && (found.None? || !IsValid(found.value, now)) then Step(db, InvalidCoupon)
    else
      var coupon := if code != "" then found else None;
      var discount := Discount(subtotal, coupon);
      var fee := FeeFor(delivery, subtotal - discount);
      var order := NewOrder(|db.orders| + 1, form, user, coupon, discount, fee);
      var c := Commit(db.(orders := db.orders + [order]), order.id, lines);
      if c.shortOf.Some? then Step(c.db, InsufficientStock(c.shortOf.value))
      else
        var coupons := if coupon.Some?
                       then c.db.coupons[code := coupon.value.(usedCount := coupon.value.usedCount + 1)]
                       else c.db.coupons;
        Step(c.db.(coupons := coupons, cart := map[]), Placed(order.id))
  }

  /** `checkout` as written, run against `db` with the request's user, the active delivery rate
      and the current time. */
  function CheckoutSpec(db: Db, request: Request, user: Option<UserId>, delivery: Option<DeliveryRate>,
                        now: Timestamp): (s: Step)
    ensures s.outcome.EmptyCart? <==> CartLines(db.products, db.cart) == []
    ensures s.outcome.InvalidCoupon? <==>
              CartLines(db.products, db.cart) != [] && request.Post? && request.form.isValid
              && request.form.couponCode != ""
              && (FindCoupon(db.coupons, request.form.couponCode).None?
                  || !IsValid(FindCoupon(db.coupons, request.form.couponCode).value, now))
    ensures s.outcome.ShowForm? <==> CartLines(db.products, db.cart) != [] && !(request.Post? && request.form.isValid)
    ensures s.outcome.EmptyCart? || s.outcome.InvalidCoupon? || s.outcome.ShowForm? ==> s.db == db
  {
    var lines := CartLines(db.products, db.cart);
    if lines == [] then Step(db, EmptyCart)
    else if request.Post? && request.form.isValid then
      PlaceSpec(db, lines, LinesTotal(lines), request.form, user, delivery, now)
    else
      Step(db, ShowForm(FormPricing(LinesTotal(lines), delivery)))
  }

  /** Checkout with the rollback `@transaction.atomic` was evidently meant to give: any outcome
      other than a placed order leaves every row and the cart as they were. */
  function CheckoutAtomic(db: Db, request: Request, user: Option<UserId>, delivery: Option<DeliveryRate>,
                          now: Timestamp): (s: Step)
    ensures s.outcome == CheckoutSpec(db, request, user, delivery, now).outcome
    ensures !s.outcome.Placed? ==> s.db == db
    ensures s.outcome.Placed? ==> s.db == CheckoutSpec(db, request, user, delivery, now).db
  {
    var s := CheckoutSpec(db, request, user, delivery, now);
    if s.outcome.InsufficientStock? then Step(db, s.outcome) else s
  }

  datatype AddOutcome = NotFound | OutOfStock | AddedToCart

  /** The shop's tables together with the visitor's session. */
  class Store {
    var products: seq<Product>
    var coupons: map<string, Coupon>
    const session: Session
    var orders: seq<Order>
    var orderItems: seq<OrderItem>

    constructor (products: seq<Product>, coupons: map<string, Coupon>, session: Session)
      ensures this.products == products && this.coupons == coupons && this.session == session
      ensures orders == [] && orderItems == []
    {
      this.products := products;
      this.coupons := coupons;
      this.session := session;
      orders := [];
      orderItems := [];
    }

    /** The current rows and cart. */
    function State(): Db
      reads this, session
    {
      Db(products, coupons, session.cart, orders, orderItems)
    }

    /** `add_cart`: a missing or inactive product is a 404, a product out of stock is refused,
        anything else goes into the cart. */
    method AddCart(pid: ProductId, quantity: int) returns (outcome: AddOutcome)
      modifies session
      ensures outcome == NotFound <==> FindActive(products, pid).None?
      ensures outcome == OutOfStock <==> FindActive(products, pid).Some? && !InStock(FindActive(products, pid).value)
      ensures outcome == AddedToCart ==> session.cart == Added(old(session.cart), pid, quantity)
      ensures outcome != AddedToCart ==> session.cart == old(session.cart)
    {
      var found := FindActive(products, pid);
      if found.None? {
        return NotFound;
      }
      var product := found.value;
      if product.inventory <= 0 {
        return OutOfStock;
      }
      session.AddToCart(product.id, quantity);
      return AddedToCart;
    }

    /** The loop of `checkout` over the cart lines (store/views.py:105-122). */
    method CommitLines(orderId: nat, lines: seq<CartLine>) returns (shortOf: Option<ProductId>)
      modifies this
      ensures Committed(State(), shortOf) == Commit(old(State()), orderId, lines)
    {
      var i := 0;
      while i < |lines|
        invariant 0 <= i <= |lines|
        invariant Commit(State(), orderId, lines[i..]) == Commit(old(State()), orderId, lines)
      {
        var product := lines[i].product;
        var quantity := lines[i].quantity;
        assert lines[i..][0] == lines[i] && lines[i..][1..] == lines[i + 1..];
        if product.inventory < quantity {
          return Some(product.id);
        }
        orderItems := orderItems + [OrderItem(orderId, product.id, quantity, product.price)];
        products := SaveProduct(products, product.(inventory := product.inventory - quantity));
        i := i + 1;
      }
      return None;
    }

    /** The submitted branch of `checkout`, for the resolved `lines` totalling `subtotal`. */
    method Place(lines: seq<CartLine>, subtotal: Cents, form: CheckoutForm, user: Option<UserId>,
                 delivery: Option<DeliveryRate>, now: Timestamp) returns (outcome: Outcome)
      modifies this, session
      ensures State() == PlaceSpec(old(State()), lines, subtotal, form, user, delivery, now).db
      ensures outcome == PlaceSpec(old(State()), lines, subtotal, form, user, delivery, now).outcome
    {
      var code := form.couponCode;
      var coupon: Option<Coupon> := None;
      if code != "" {
        coupon := FindCoupon(coupons, code);
        if coupon.None? || !IsValid(coupon.value, now) {
          return InvalidCoupon;
        }
      }
      var discount := Discount(subtotal, coupon);
      var fee := FeeFor(delivery, subtotal - discount);
      var order := NewOrder(|orders| + 1, form, user, coupon, discount, fee);
      ghost var db := State();
      orders := orders + [order];
      assert State() == db.(orders := db.orders + [order]);
      var shortOf := CommitLines(order.id, lines);
      if shortOf.Some? {
        return InsufficientStock(shortOf.value);
      }
      if coupon.Some? {
        coupons := coupons[code := coupon.value.(usedCount := coupon.value.usedCount + 1)];
      }
      session.cart := map[];
      return Placed(order.id);
    }

    /** `checkout`. */
    method Checkout(request: Request, user: Option<UserId>, delivery: Option<DeliveryRate>, now: Timestamp)
      returns (outcome: Outcome)
      modifies this, session
      ensures State() == CheckoutSpec(old(State()), request, user, delivery, now).db
      ensures outcome == CheckoutSpec(old(State()), request, user, delivery, now).outcome
    {
      var lines, subtotal := session.GetCartItems(products);
      if lines == [] {
        return EmptyCart;
      }
      if request.Post? && request.form.isValid {
        outcome := Place(lines, subtotal, request.form, user, delivery, now);
        return;
      }
      return ShowForm(FormPricing(subtotal, delivery));
    }

    /** Checkout inside a transaction that rolls back on a stock shortfall: the rows and the
        cart are put back as they were before the order was saved. */
    method CheckoutAtomically(request: Request, user: Option<UserId>, delivery: Option<DeliveryRate>,
                              now: Timestamp) returns (outcome: Outcome)
      modifies this, session
      ensures State() == CheckoutAtomic(old(State()), request, user, delivery, now).db
      ensures outcome == CheckoutAtomic(old(State()), request, user, delivery, now).outcome
    {
      var before := State();
      outcome := Checkout(request, user, delivery, now);
      if outcome.InsufficientStock? {
        products, coupons, orders, orderItems := before.products, before.coupons, before.orders, before.items;
        session.cart := before.cart;
      }
    }
  }
}
