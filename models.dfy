/** Records of the storefront (store/models.py) and the pricing rules attached to them.
    Every money field is a two-place decimal, held here as a whole number of cents. */
module Models {

  /** An amount of money in cents: 12.34 is 1234. */
  type Cents = int

  /** Primary key of a Product row. */
  type ProductId = nat

  /** Primary key of a user account. */
  type UserId = nat

  /** A point in time; only the order of two timestamps matters. */
  type Timestamp = int

  datatype Option<+T> = None | Some(value: T)

  /** The fields of a Product that pricing and stock use; `inventory` is a PositiveIntegerField. */
  datatype Product = Product(id: ProductId, name: string, price: Cents, inventory: nat, isActive: bool)

  /** The two choices of `Coupon.discount_type`: 'percent' and 'amount'. */
  datatype DiscountType = Percent | Amount

  /** A Coupon row. `value` and `minOrderAmount` are two-place decimals; `maxUses` None is unlimited. */
  datatype Coupon = Coupon(
    code: string,
    discountType: DiscountType,
    value: Cents,
    minOrderAmount: Cents,
    maxUses: Option<nat>,
    usedCount: nat,
    active: bool,
    expiresAt: Option<Timestamp>)

  /** A DeliveryRate row; a `freeOver` of zero means there is no free tier. */
  datatype DeliveryRate = DeliveryRate(name: string, fee: Cents, freeOver: Cents, isActive: bool)

  datatype OrderStatus = Pending | Paid | Packed | Shipped | Delivered | Cancelled

  datatype PaymentMethod = Cod | Upi | Stripe

  datatype PaymentStatus = PaymentPending | PaymentPaid | PaymentFailed

  /** The contact and shipping fields the checkout form copies onto an Order. */
  datatype Contact = Contact(
    fullName: string,
    phone: string,
    email: string,
    address: string,
    city: string,
    state: string,
    postalCode: string,
    notes: string)

  /** An Order row; `coupon` refers to a Coupon by its unique code. */
  datatype Order = Order(
    id: nat,
    user: Option<UserId>,
    contact: Contact,
    status: OrderStatus,
    paymentMethod: PaymentMethod,
    paymentStatus: PaymentStatus,
    paymentReference: string,
    coupon: Option<string>,
    discountAmount: Cents,
    deliveryFee: Cents)

  /** An OrderItem row: `price` is the product's price when the order was placed. */
  datatype OrderItem = OrderItem(order: nat, product: ProductId, quantity: int, price: Cents)

  /** `Product.in_stock`: something is left to sell. */
  function InStock(p: Product): (b: bool)
    ensures b <==> p.inventory != 0
  {
    p.inventory > 0
  }

  /** `Coupon.is_valid` at time `now`. An expiry equal to `now` has not passed yet. */
  function IsValid(c: Coupon, now: Timestamp): (ok: bool)
    ensures !c.active ==> !ok
    ensures c.expiresAt.Some? && c.expiresAt.value < now ==> !ok
    ensures c.maxUses.Some? && c.usedCount >= c.maxUses.value ==> !ok
    ensures (c.active && (c.expiresAt.None? || now <= c.expiresAt.value)
             && (c.maxUses.None? || c.usedCount < c.maxUses.value)) ==> ok
  {
    if !c.active then false
    else if c.expiresAt.Some? && c.expiresAt.value < now then false
    else if c.maxUses.Some? && c.usedCount >= c.maxUses.value then false
    else true
  }

  /** `DeliveryRate.calculate_fee`: free once the amount reaches a nonzero threshold, else the flat fee. */
  function CalculateFee(rate: DeliveryRate, subtotal: Cents): (fee: Cents)
    ensures rate.freeOver != 0 && subtotal >= rate.freeOver ==> fee == 0
    ensures rate.freeOver == 0 || subtotal < rate.freeOver ==> fee == rate.fee
    ensures fee == 0 || fee == rate.fee
  {
    if rate.freeOver != 0 && subtotal >= rate.freeOver then 0 else rate.fee
  }

  /** `OrderItem.subtotal`: the price paid per unit times the quantity. */
  function ItemSubtotal(item: OrderItem): (r: Cents)
    ensures item.quantity == 0 ==> r == 0
    ensures item.quantity == 1 ==> r == item.price
  {
    item.price * item.quantity
  }

  /** The rows of `items` that belong to order `orderId` (the `order.items` relation). */
  function ItemsOf(items: seq<OrderItem>, orderId: nat): (r: seq<OrderItem>)
    ensures |r| <= |items|
  {
    if items == [] then []
    else
      ItemsOf(items[..|items| - 1], orderId)
      + (if items[|items| - 1].order == orderId then [items[|items| - 1]] else [])
  }

  /** An item is among an order's items exactly when it is a row of the table belonging to that order. */
  lemma {:induction false} ItemsOfMembers(items: seq<OrderItem>, orderId: nat)
    ensures forall it :: it in ItemsOf(items, orderId) <==> it in items && it.order == orderId
    decreases |items|
  {
    if items != [] {
      var init := items[..|items| - 1];
      ItemsOfMembers(init, orderId);
      assert items == init + [items[|items| - 1]];
    }
  }

  /** Sum of the item subtotals, accumulated in list order. */
  function ItemsTotal(items: seq<OrderItem>): Cents
  {
    if items == [] then 0 else ItemsTotal(items[..|items| - 1]) + ItemSubtotal(items[|items| - 1])
  }

  /** `Order.total` given the order's items. */
  function OrderTotal(o: Order, items: seq<OrderItem>): Cents
  {
    ItemsTotal(items) - o.discountAmount + o.deliveryFee
  }

  /** The total of two lists of items placed one after the other is the sum of their totals. */
  lemma {:induction false} ItemsTotalAppend(a: seq<OrderItem>, b: seq<OrderItem>)
    ensures ItemsTotal(a + b) == ItemsTotal(a) + ItemsTotal(b)
    decreases |b|
  {
    if b == [] {
      assert a + b == a;
    } else {
      var b' := b[..|b| - 1];
      assert (a + b)[..|a + b| - 1] == a + b';
      ItemsTotalAppend(a, b');
    }
  }

  /** Selecting the items of one order distributes over appending rows to the table. */
  lemma {:induction false} ItemsOfAppend(a: seq<OrderItem>, b: seq<OrderItem>, orderId: nat)
    ensures ItemsOf(a + b, orderId) == ItemsOf(a, orderId) + ItemsOf(b, orderId)
    decreases |b|
  {
    if b == [] {
      assert a + b == a;
    } else {
      var b' := b[..|b| - 1];
      assert (a + b)[..|a + b| - 1] == a + b';
      ItemsOfAppend(a, b', orderId);
    }
  }

  /** `Order.subtotal`: the loop that adds up the subtotals of the order's items, starting at 0.00. */
  method Subtotal(items: seq<OrderItem>) returns (total: Cents)
    ensures total == ItemsTotal(items)
    ensures items == [] ==> total == 0
  {
    total := 0;
    var i := 0;
    while i < |items|
      invariant 0 <= i <= |items|
      invariant total == ItemsTotal(items[..i])
    {
      assert items[..i + 1][..i] == items[..i];
      total := total + ItemSubtotal(items[i]);
      i := i + 1;
    }
    assert items[..|items|] == items;
  }

  /** `Order.total`: subtotal less the stored discount plus the stored delivery fee. */
  method Total(o: Order, items: seq<OrderItem>) returns (total: Cents)
    ensures total == OrderTotal(o, items)
    ensures total + o.discountAmount - o.deliveryFee == ItemsTotal(items)
  {
    var subtotal := Subtotal(items);
    total := subtotal - o.discountAmount + o.deliveryFee;
  }

  /** Two items (10.00 x 2 and 5.00 x 1), no discount and no delivery fee: the order totals 25.00. */
  lemma TwoItemOrderTotal(o: Order)
    requires o.discountAmount == 0 && o.deliveryFee == 0
    ensures OrderTotal(o, [OrderItem(o.id, 1, 2, 1000), OrderItem(o.id, 2, 1, 500)]) == 2500
  {
    var items := [OrderItem(o.id, 1, 2, 1000), OrderItem(o.id, 2, 1, 500)];
    assert items[..1] == [items[0]];
    assert [items[0]][..0] == [];
    assert ItemsTotal([items[0]]) == 2000;
    assert ItemsTotal(items) == 2500;
  }
}
