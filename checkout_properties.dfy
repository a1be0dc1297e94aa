/** What a checkout does to the shop, stated over the checkout function of module Views. */
module CheckoutProperties {
  import opened Models
  import opened Cart
  import opened Views

  /** The cart as resolved against the catalog. */
  function Lines(db: Db): seq<CartLine>
  {
    CartLines(db.products, db.cart)
  }

  /** No line is short of stock. */
  predicate Affordable(lines: seq<CartLine>)
  {
    forall j :: 0 <= j < |lines| ==> !Short(lines[j])
  }

  /** Index of the first line short of stock, or the number of lines when none is. */
  function FirstShort(lines: seq<CartLine>): (i: nat)
    ensures i <= |lines|
    ensures Affordable(lines[..i])
    ensures i < |lines| ==> Short(lines[i])
    decreases |lines|
  {
    if lines == [] || Short(lines[0]) then 0
    else
      var i := 1 + FirstShort(lines[1..]);
      assert forall j :: 1 <= j < i ==> lines[..i][j] == lines[1..][..i - 1][j - 1];
      i
  }

  /** The OrderItems created for `lines`, in order. */
  function ItemsFor(orderId: nat, lines: seq<CartLine>): (r: seq<OrderItem>)
    ensures |r| == |lines|
    ensures forall j :: 0 <= j < |lines| ==> r[j] == Purchase(orderId, lines[j])
  {
    seq(|lines|, j requires 0 <= j < |lines| => Purchase(orderId, lines[j]))
  }

  /** The products after saving, line by line, each line's product with its quantity taken off. */
  function SaveAll(products: seq<Product>, lines: seq<CartLine>): seq<Product>
    requires Affordable(lines)
    decreases |lines|
  {
    if lines == [] then products
    else SaveAll(SaveProduct(products, AfterSale(lines[0])), lines[1..])
  }

  /** Items for a first line followed by the rest. */
  lemma ItemsForCons(orderId: nat, line: CartLine, rest: seq<CartLine>)
    ensures ItemsFor(orderId, [line] + rest) == [Purchase(orderId, line)] + ItemsFor(orderId, rest)
  {
    assert forall j :: 1 <= j <= |rest| ==> ([line] + rest)[j] == rest[j - 1];
  }

  /** The commit loop stops at the first line short of stock and reports its product. */
  lemma {:induction false} CommitStopsAtFirstShort(db: Db, orderId: nat, lines: seq<CartLine>)
    ensures var i := FirstShort(lines);
            Commit(db, orderId, lines).shortOf == (if i < |lines| then Some(lines[i].product.id) else None)
    decreases |lines|
  {
    if lines != [] && !Short(lines[0]) {
      var db1 := db.(items := db.items + [Purchase(orderId, lines[0])],
                     products := SaveProduct(db.products, AfterSale(lines[0])));
      var rest := lines[1..];
      CommitStopsAtFirstShort(db1, orderId, rest);
      assert Commit(db, orderId, lines) == Commit(db1, orderId, rest);
      assert FirstShort(lines) < |lines| ==> lines[FirstShort(lines)] == rest[FirstShort(rest)];
    }
  }

  /** One step of the commit loop: a first line in stock is bought, then the rest committed. */
  lemma CommitStep(db: Db, orderId: nat, lines: seq<CartLine>)
    requires lines != [] && !Short(lines[0])
    ensures Commit(db, orderId, lines)
            == Commit(db.(items := db.items + [Purchase(orderId, lines[0])],
                          products := SaveProduct(db.products, AfterSale(lines[0]))),
                      orderId, lines[1..])
  {
  }

  /** Past a first line in stock, the first short line is one further on than in the rest. */
  lemma FirstShortStep(lines: seq<CartLine>)
    requires lines != [] && !Short(lines[0])
    ensures FirstShort(lines) == 1 + FirstShort(lines[1..])
  {
  }

  /** A nonempty prefix is the first element followed by a prefix of the rest. */
  lemma PrefixStep(lines: seq<CartLine>, k: nat)
    requires k < |lines|
    ensures lines[..k + 1] == [lines[0]] + lines[1..][..k]
  {
  }

  /** The items for a nonempty prefix: the first line's item, then the items for a prefix of the rest. */
  lemma ItemsForPrefixStep(orderId: nat, lines: seq<CartLine>, k: nat)
    requires k < |lines|
    ensures ItemsFor(orderId, lines[..k + 1]) == [Purchase(orderId, lines[0])] + ItemsFor(orderId, lines[1..][..k])
  {
    PrefixStep(lines, k);
    ItemsForCons(orderId, lines[0], lines[1..][..k]);
  }

  /** The commit loop adds one OrderItem for every line before the first short one. */
  lemma {:induction false} CommitItems(db: Db, orderId: nat, lines: seq<CartLine>)
    ensures Commit(db, orderId, lines).db.items == db.items + ItemsFor(orderId, lines[..FirstShort(lines)])
    decreases |lines|
  {
    if lines == [] || Short(lines[0]) {
      assert lines[..FirstShort(lines)] == [];
    } else {
      var p := Purchase(orderId, lines[0]);
      var db1 := db.(items := db.items + [p], products := SaveProduct(db.products, AfterSale(lines[0])));
      var rest := lines[1..];
      var k := FirstShort(rest);
      CommitStep(db, orderId, lines);
      FirstShortStep(lines);
      CommitItems(db1, orderId, rest);
      ItemsForPrefixStep(orderId, lines, k);
      calc {
        Commit(db, orderId, lines).db.items;
        Commit(db1, orderId, rest).db.items;
        (db.items + [p]) + ItemsFor(orderId, rest[..k]);
        db.items + ([p] + ItemsFor(orderId, rest[..k]));
        db.items + ItemsFor(orderId, lines[..FirstShort(lines)]);
      }
    }
  }

  /** The commit loop saves the product of every line before the first short one. */
  lemma {:induction false} CommitProducts(db: Db, orderId: nat, lines: seq<CartLine>)
    ensures Commit(db, orderId, lines).db.products == SaveAll(db.products, lines[..FirstShort(lines)])
    decreases |lines|
  {
    if lines == [] || Short(lines[0]) {
      assert lines[..FirstShort(lines)] == [];
    } else {
      var db1 := db.(items := db.items + [Purchase(orderId, lines[0])],
                     products := SaveProduct(db.products, AfterSale(lines[0])));
      var rest := lines[1..];
      var k := FirstShort(rest);
      CommitStep(db, orderId, lines);
      FirstShortStep(lines);
      CommitProducts(db1, orderId, rest);
      PrefixStep(lines, k);
      SaveAllCons(db.products, lines[0], rest[..k]);
    }
  }

  /** Saving a first line followed by the rest. */
  lemma SaveAllCons(products: seq<Product>, line: CartLine, rest: seq<CartLine>)
    requires !Short(line) && Affordable(rest)
    ensures Affordable([line] + rest)
    ensures SaveAll(products, [line] + rest) == SaveAll(SaveProduct(products, AfterSale(line)), rest)
  {
    var all := [line] + rest;
    assert forall j :: 1 <= j < |all| ==> all[j] == rest[j - 1];
    assert all[0] == line && all[1..] == rest;
  }

  /** No line is for product `pid`. */
  predicate NoLineFor(lines: seq<CartLine>, pid: ProductId)
  {
    forall j :: 0 <= j < |lines| ==> lines[j].product.id != pid
  }

  /** Saving distinct affordable lines touches each row once: a row some line names ends as that
      line's product less its quantity, every other row is unchanged. */
  lemma {:induction false} SaveAllRows(products: seq<Product>, lines: seq<CartLine>)
    requires Affordable(lines) && DistinctLines(lines)
    ensures |SaveAll(products, lines)| == |products|
    ensures forall k :: 0 <= k < |products| ==> SaveAll(products, lines)[k].id == products[k].id
    ensures forall k, j :: 0 <= k < |products| && 0 <= j < |lines| && lines[j].product.id == products[k].id ==>
              SaveAll(products, lines)[k] == AfterSale(lines[j])
    ensures forall k :: 0 <= k < |products| && NoLineFor(lines, products[k].id) ==>
              SaveAll(products, lines)[k] == products[k]
    decreases |lines|
  {
    if lines != [] {
      var first := AfterSale(lines[0]);
      var ps1 := SaveProduct(products, first);
      var rest := lines[1..];
      assert forall j :: 1 <= j < |lines| ==> lines[j] == rest[j - 1];
      SaveAllRows(ps1, rest);
      var r := SaveAll(products, lines);
      forall k, j | 0 <= k < |products| && 0 <= j < |lines| && lines[j].product.id == products[k].id
        ensures r[k] == AfterSale(lines[j])
      {
        if j == 0 {
          assert forall j' :: 0 <= j' < |rest| ==> rest[j'].product.id != ps1[k].id;
        } else {
          assert rest[j - 1].product.id == ps1[k].id;
        }
      }
    }
  }

  /** `after` is `before` with each resolved row's inventory lowered by its cart quantity and
      every other field and row left alone. */
  predicate SoldFrom(before: seq<Product>, after: seq<Product>, cart: CartMap)
  {
    && |after| == |before|
    && forall k :: 0 <= k < |before| ==>
         && after[k] == before[k].(inventory := after[k].inventory)
         && after[k].inventory == before[k].inventory - (if Resolves(before[k], cart) then cart[before[k].id] else 0)
  }

  /** A resolved row has a line, at some index `j`. */
  lemma ResolvedRowSold(products: seq<Product>, cart: CartMap, k: nat) returns (j: nat)
    requires k < |products| && Resolves(products[k], cart)
    ensures j < |CartLines(products, cart)| && CartLines(products, cart)[j] == LineFor(products[k], cart)
  {
    CartLinesExactly(products, cart);
    var lines := CartLines(products, cart);
    assert LineFor(products[k], cart) in lines;
    j :| 0 <= j < |lines| && lines[j] == LineFor(products[k], cart);
  }

  /** No line names a row the cart does not resolve. */
  lemma UnresolvedRowUntouched(products: seq<Product>, cart: CartMap, k: nat)
    requires UniqueIds(products) && k < |products| && !Resolves(products[k], cart)
    ensures NoLineFor(CartLines(products, cart), products[k].id)
  {
    CartLinesExactly(products, cart);
    var lines := CartLines(products, cart);
    forall j | 0 <= j < |lines| ensures lines[j].product.id != products[k].id {
      assert lines[j] in lines;
      var k' :| 0 <= k' < |products| && Resolves(products[k'], cart) && lines[j] == LineFor(products[k'], cart);
    }
  }

  /** Saving all lines of a cart over a catalog with unique ids sells exactly the cart. */
  lemma SaveCartLines(products: seq<Product>, cart: CartMap)
    requires UniqueIds(products)
    requires Affordable(CartLines(products, cart))
    ensures SoldFrom(products, SaveAll(products, CartLines(products, cart)), cart)
  {
    var lines := CartLines(products, cart);
    CartLinesDistinct(products, cart);
    SaveAllRows(products, lines);
    var r := SaveAll(products, lines);
    forall k | 0 <= k < |products|
      ensures r[k] == products[k].(inventory := r[k].inventory)
      ensures r[k].inventory == products[k].inventory - (if Resolves(products[k], cart) then cart[products[k].id] else 0)
    {
      if Resolves(products[k], cart) {
        var j := ResolvedRowSold(products, cart, k);
        assert lines[j].product == products[k];
        assert r[k] == AfterSale(lines[j]);
        assert r[k] == products[k].(inventory := products[k].inventory - cart[products[k].id]);
      } else {
        UnresolvedRowUntouched(products, cart, k);
        assert r[k] == products[k];
      }
    }
  }

  /** The coupon a valid POST applies: the looked-up coupon when a code was given. */
  function AppliedCoupon(db: Db, form: CheckoutForm): Option<Coupon>
  {
    if form.couponCode != "" then FindCoupon(db.coupons, form.couponCode) else None
  }

  /** The Order a valid POST saves. */
  function OrderFor(db: Db, form: CheckoutForm, user: Option<UserId>, delivery: Option<DeliveryRate>): Order
  {
    var subtotal := LinesTotal(Lines(db));
    var coupon := AppliedCoupon(db, form);
    var discount := Discount(subtotal, coupon);
    NewOrder(|db.orders| + 1, form, user, coupon, discount, FeeFor(delivery, subtotal - discount))
  }

  /** The commit loop as a valid POST runs it, after saving the Order. */
  function PostCommit(db: Db, form: CheckoutForm, user: Option<UserId>, delivery: Option<DeliveryRate>): Committed
  {
    var order := OrderFor(db, form, user, delivery);
    Commit(db.(orders := db.orders + [order]), order.id, Lines(db))
  }

  /** A placed order came from a valid POST whose commit loop found every line in stock; the
      new state is the loop's, with the coupon's use counted and the cart emptied. */
  lemma PlacedUnfold(db: Db, request: Request, user: Option<UserId>, delivery: Option<DeliveryRate>, now: Timestamp)
    requires CheckoutSpec(db, request, user, delivery, now).outcome.Placed?
    ensures request.Post? && request.form.isValid
    ensures var s := CheckoutSpec(db, request, user, delivery, now);
            var c := PostCommit(db, request.form, user, delivery);
            var code := request.form.couponCode;
            && c.shortOf.None?
            && s.outcome == Placed(|db.orders| + 1)
            && (code == "" ==> s.db == c.db.(cart := map[]))
            && (code != "" ==>
                  (code in db.coupons
                   && s.db == c.db.(coupons := db.coupons[code := db.coupons[code].(usedCount := db.coupons[code].usedCount + 1)],
                                    cart := map[])))
  {
  }

  /** A placed order is saved as one new Order carrying the user, the form's contact and payment
      method, the applied coupon's code, no payment reference, the computed discount and the fee on the discounted subtotal, with the order and its
      payment pending whatever the payment method. */
  lemma PlacedOrderRecord(db: Db, request: Request, user: Option<UserId>, delivery: Option<DeliveryRate>, now: Timestamp)
    requires CheckoutSpec(db, request, user, delivery, now).outcome.Placed?
    ensures request.Post? && request.form.isValid
    ensures var s := CheckoutSpec(db, request, user, delivery, now);
            var subtotal := LinesTotal(Lines(db));
            var discount := Discount(subtotal, AppliedCoupon(db, request.form));
            && s.outcome.orderId == |db.orders| + 1
            && |s.db.orders| == |db.orders| + 1 && s.db.orders[..|db.orders|] == db.orders
            && s.db.orders[|db.orders|].id == s.outcome.orderId
            && s.db.orders[|db.orders|].user == user
            && s.db.orders[|db.orders|].contact == request.form.contact
            && s.db.orders[|db.orders|].paymentMethod == request.form.paymentMethod
            && s.db.orders[|db.orders|].status == Pending
            && s.db.orders[|db.orders|].paymentStatus == PaymentPending
            && s.db.orders[|db.orders|].paymentReference == ""
            && s.db.orders[|db.orders|].coupon
               == (if request.form.couponCode != "" then Some(db.coupons[request.form.couponCode].code) else None)
            && s.db.orders[|db.orders|].discountAmount == discount
            && s.db.orders[|db.orders|].deliveryFee == FeeFor(delivery, subtotal - discount)
  {
    PlacedUnfold(db, request, user, delivery, now);
  }

  /** A placed order has one OrderItem per cart line, in line order, each at the product's
      price when the order was placed. */
  lemma PlacedItems(db: Db, request: Request, user: Option<UserId>, delivery: Option<DeliveryRate>, now: Timestamp)
    requires CheckoutSpec(db, request, user, delivery, now).outcome.Placed?
    ensures request.Post?
    ensures CheckoutSpec(db, request, user, delivery, now).db.items == db.items + ItemsFor(|db.orders| + 1, Lines(db))
  {
    PlacedUnfold(db, request, user, delivery, now);
    var order := OrderFor(db, request.form, user, delivery);
    var lines := Lines(db);
    CommitStopsAtFirstShort(db.(orders := db.orders + [order]), order.id, lines);
    CommitItems(db.(orders := db.orders + [order]), order.id, lines);
    assert lines[..FirstShort(lines)] == lines;
  }

  /** A placed order lowers each resolved product's inventory by exactly its cart quantity, so
      every line had the stock, and leaves every other row and field alone. */
  lemma PlacedStock(db: Db, request: Request, user: Option<UserId>, delivery: Option<DeliveryRate>, now: Timestamp)
    requires UniqueIds(db.products)
    requires CheckoutSpec(db, request, user, delivery, now).outcome.Placed?
    ensures SoldFrom(db.products, CheckoutSpec(db, request, user, delivery, now).db.products, db.cart)
  {
    PlacedUnfold(db, request, user, delivery, now);
    var order := OrderFor(db, request.form, user, delivery);
    var lines := Lines(db);
    CommitStopsAtFirstShort(db.(orders := db.orders + [order]), order.id, lines);
    CommitProducts(db.(orders := db.orders + [order]), order.id, lines);
    assert lines[..FirstShort(lines)] == lines;
    SaveCartLines(db.products, db.cart);
  }

  /** A placed order counts one more use of the coupon it applied, changes no other coupon,
      and empties the cart. */
  lemma PlacedCouponAndCart(db: Db, request: Request, user: Option<UserId>, delivery: Option<DeliveryRate>, now: Timestamp)
    requires CheckoutSpec(db, request, user, delivery, now).outcome.Placed?
    ensures request.Post?
    ensures var s := CheckoutSpec(db, request, user, delivery, now);
            var code := request.form.couponCode;
            && (code == "" ==> s.db.coupons == db.coupons)
            && (code != "" ==>
                  (code in db.coupons
                   && s.db.coupons == db.coupons[code := db.coupons[code].(usedCount := db.coupons[code].usedCount + 1)]))
            && s.db.cart == map[]
  {
    PlacedUnfold(db, request, user, delivery, now);
  }

  /** Every coupon with a cap has been used at most that many times. */
  predicate CapsHold(coupons: map<string, Coupon>)
  {
    forall code :: code in coupons && coupons[code].maxUses.Some? ==>
      coupons[code].usedCount <= coupons[code].maxUses.value
  }

  /** Checkout never pushes a coupon past its cap: a coupon is counted only after it passed the
      validity check, which demands a use left. */
  lemma CheckoutKeepsCaps(db: Db, request: Request, user: Option<UserId>, delivery: Option<DeliveryRate>, now: Timestamp)
    requires CapsHold(db.coupons)
    ensures CapsHold(CheckoutSpec(db, request, user, delivery, now).db.coupons)
  {
    var s := CheckoutSpec(db, request, user, delivery, now);
    if s.outcome.Placed? {
      PlacedCouponAndCart(db, request, user, delivery, now);
      var code := request.form.couponCode;
      if code != "" {
        assert IsValid(db.coupons[code], now);
      }
    } else if s.outcome.InsufficientStock? {
      ShortfallKeepsPartialWrites(db, request, user, delivery, now);
    }
  }

  /** A coupon is counted once per placed order, even when the request is sent again: the cart
      is empty after a placed order, so a repeated checkout changes nothing. */
  lemma RetryAfterPlacedChangesNothing(db: Db, request: Request, user: Option<UserId>,
                                       delivery: Option<DeliveryRate>, now: Timestamp,
                                       retry: Request, now': Timestamp)
    requires CheckoutSpec(db, request, user, delivery, now).outcome.Placed?
    ensures var s := CheckoutSpec(db, request, user, delivery, now);
            CheckoutSpec(s.db, retry, user, delivery, now') == Step(s.db, EmptyCart)
  {
    var s := CheckoutSpec(db, request, user, delivery, now);
    PlacedCouponAndCart(db, request, user, delivery, now);
    EmptyCartResolvesToNothing(s.db.products);
  }

  /** A stock shortfall is a partial commit: the Order stays saved, and so do the items and
      inventory decrements of every line before the short one; the coupon and the cart are
      untouched. */
  lemma ShortfallKeepsPartialWrites(db: Db, request: Request, user: Option<UserId>,
                                    delivery: Option<DeliveryRate>, now: Timestamp)
    requires CheckoutSpec(db, request, user, delivery, now).outcome.InsufficientStock?
    ensures var lines := Lines(db);
            var i := FirstShort(lines);
            var s := CheckoutSpec(db, request, user, delivery, now);
            && i < |lines| && Short(lines[i]) && s.outcome.product == lines[i].product.id
            && |s.db.orders| == |db.orders| + 1 && s.db.orders[..|db.orders|] == db.orders
            && s.db.items == db.items + ItemsFor(|db.orders| + 1, lines[..i])
            && s.db.products == SaveAll(db.products, lines[..i])
            && s.db.coupons == db.coupons && s.db.cart == db.cart
  {
    var lines := Lines(db);
    var form := request.form;
    var coupon := AppliedCoupon(db, form);
    var subtotal := LinesTotal(lines);
    var discount := Discount(subtotal, coupon);
    var fee := FeeFor(delivery, subtotal - discount);
    var order := NewOrder(|db.orders| + 1, form, user, coupon, discount, fee);
    var db1 := db.(orders := db.orders + [order]);
    CommitStopsAtFirstShort(db1, order.id, lines);
    CommitItems(db1, order.id, lines);
    CommitProducts(db1, order.id, lines);
  }

  /** A list whose rows all belong to one order: selecting that order's items gives it back. */
  lemma {:induction false} ItemsOfOwn(items: seq<OrderItem>, orderId: nat)
    requires forall j :: 0 <= j < |items| ==> items[j].order == orderId
    ensures ItemsOf(items, orderId) == items
    decreases |items|
  {
    if items != [] {
      var init := items[..|items| - 1];
      var last := items[|items| - 1];
      ItemsOfOwn(init, orderId);
      assert last.order == orderId;
      assert ItemsOf(items, orderId) == ItemsOf(init, orderId) + [last];
      assert items == init + [last];
    }
  }

  /** Items placed for one order and nothing else: selecting that order's items gives them back. */
  lemma ItemsOfItemsFor(orderId: nat, lines: seq<CartLine>)
    ensures ItemsOf(ItemsFor(orderId, lines), orderId) == ItemsFor(orderId, lines)
  {
    ItemsOfOwn(ItemsFor(orderId, lines), orderId);
  }

  /** The items made from priced lines add up to the lines' total. */
  lemma {:induction false} ItemsForTotal(orderId: nat, lines: seq<CartLine>)
    requires forall j :: 0 <= j < |lines| ==> lines[j].subtotal == lines[j].product.price * lines[j].quantity
    ensures ItemsTotal(ItemsFor(orderId, lines)) == LinesTotal(lines)
    decreases |lines|
  {
    if lines != [] {
      var init := lines[..|lines| - 1];
      ItemsForTotal(orderId, init);
      assert ItemsFor(orderId, lines)[..|lines| - 1] == ItemsFor(orderId, init);
    }
  }

  /** Appending the items made from priced lines for a new order id: that order's items are
      exactly them, and they add up to the lines' total. */
  lemma NewOrderItems(items: seq<OrderItem>, orderId: nat, lines: seq<CartLine>)
    requires forall it :: it in items ==> it.order < orderId
    requires forall j :: 0 <= j < |lines| ==> lines[j].subtotal == lines[j].product.price * lines[j].quantity
    ensures ItemsOf(items + ItemsFor(orderId, lines), orderId) == ItemsFor(orderId, lines)
    ensures ItemsTotal(ItemsOf(items + ItemsFor(orderId, lines), orderId)) == LinesTotal(lines)
  {
    ItemsOfNone(items, orderId);
    ItemsOfAppend(items, ItemsFor(orderId, lines), orderId);
    ItemsOfItemsFor(orderId, lines);
    ItemsForTotal(orderId, lines);
  }

  /** When every existing item belongs to an existing order, the placed order's subtotal is the
      cart total checkout priced, and its total is that less the discount plus the fee. */
  lemma PlacedOrderTotal(db: Db, request: Request, user: Option<UserId>, delivery: Option<DeliveryRate>, now: Timestamp)
    requires forall it :: it in db.items ==> it.order <= |db.orders|
    requires CheckoutSpec(db, request, user, delivery, now).outcome.Placed?
    ensures var s := CheckoutSpec(db, request, user, delivery, now);
            var o := s.db.orders[|db.orders|];
            && ItemsTotal(ItemsOf(s.db.items, o.id)) == LinesTotal(Lines(db))
            && OrderTotal(o, ItemsOf(s.db.items, o.id)) == LinesTotal(Lines(db)) - o.discountAmount + o.deliveryFee
  {
    PlacedOrderRecord(db, request, user, delivery, now);
    PlacedItems(db, request, user, delivery, now);
    CartLinesPriced(db.products, db.cart);
    NewOrderItems(db.items, |db.orders| + 1, Lines(db));
  }

  /** No row of the table belongs to the order: the order has no items. */
  lemma {:induction false} ItemsOfNone(items: seq<OrderItem>, orderId: nat)
    requires forall it :: it in items ==> it.order < orderId
    ensures ItemsOf(items, orderId) == []
    decreases |items|
  {
    if items != [] {
      var init := items[..|items| - 1];
      assert forall it :: it in init ==> it in items;
      assert items[|items| - 1] in items;
      ItemsOfNone(init, orderId);
    }
  }

  /** A coupon whose minimum order amount is not met still passes the validity check, gives no
      discount, is recorded on the order and has its use counted. */
  lemma CouponConsumedWithoutDiscount(db: Db, form: CheckoutForm, user: Option<UserId>,
                                      delivery: Option<DeliveryRate>, now: Timestamp)
    requires form.isValid && form.couponCode != "" && form.couponCode in db.coupons
    requires db.coupons[form.couponCode].code == form.couponCode
    requires LinesTotal(Lines(db)) < db.coupons[form.couponCode].minOrderAmount
    requires CheckoutSpec(db, Post(form), user, delivery, now).outcome.Placed?
    ensures var s := CheckoutSpec(db, Post(form), user, delivery, now);
            var code := form.couponCode;
            && s.db.orders[|db.orders|].coupon == Some(code)
            && s.db.orders[|db.orders|].discountAmount == 0
            && s.db.coupons[code].usedCount == db.coupons[code].usedCount + 1
  {
    PlacedOrderRecord(db, Post(form), user, delivery, now);
    PlacedCouponAndCart(db, Post(form), user, delivery, now);
  }

  /** The checkout page (a GET, or a POST with an invalid form) shows no discount and the fee on
      the undiscounted subtotal, and changes nothing. */
  lemma FormPageChangesNothing(db: Db, request: Request, user: Option<UserId>, delivery: Option<DeliveryRate>, now: Timestamp)
    requires CheckoutSpec(db, request, user, delivery, now).outcome.ShowForm?
    ensures var s := CheckoutSpec(db, request, user, delivery, now);
            && s.db == db
            && s.outcome.pricing.subtotal == LinesTotal(Lines(db))
            && s.outcome.pricing.discount == 0
            && s.outcome.pricing.deliveryFee == FeeFor(delivery, LinesTotal(Lines(db)))
            && s.outcome.pricing.total == s.outcome.pricing.subtotal + s.outcome.pricing.deliveryFee
  {
  }

  /** A concrete partial commit. Apple (5 in stock, 2 wanted) sorts before Banana (2 in stock,
      3 wanted): the order is saved with Apple's item alone, Apple drops to 3, and the request
      ends as out of stock for Banana with the cart as it was. */
  lemma PartialCommitExample(contact: Contact)
    ensures var apple := Product(1, "Apple", 100, 5, true);
            var banana := Product(2, "Banana", 50, 2, true);
            var db := Db([apple, banana], map[], map[1 := 2, 2 := 3], [], []);
            var s := CheckoutSpec(db, Post(CheckoutForm(true, contact, Cod, "")), None, None, 0);
            && s.outcome == InsufficientStock(2)
            && |s.db.orders| == 1
            && s.db.items == [OrderItem(1, 1, 2, 100)]
            && s.db.products == [apple.(inventory := 3), banana]
            && s.db.cart == db.cart
  {
    var apple := Product(1, "Apple", 100, 5, true);
    var banana := Product(2, "Banana", 50, 2, true);
    var cart := map[1 := 2, 2 := 3];
    var db := Db([apple, banana], map[], cart, [], []);
    var ps := [apple, banana];
    assert ps[..1] == [apple];
    assert [apple][..0] == [];
    assert CartLines([apple], cart) == [CartLine(apple, 2, 200)];
    var lines := [CartLine(apple, 2, 200), CartLine(banana, 3, 150)];
    assert Lines(db) == lines;
    var request := Post(CheckoutForm(true, contact, Cod, ""));
    assert FirstShort(lines[1..]) == 0;
    assert FirstShort(lines) == 1;
    var order := NewOrder(1, request.form, None, None, 0, 0);
    var db1 := db.(orders := [order]);
    CommitStopsAtFirstShort(db1, 1, lines);
    CommitItems(db1, 1, lines);
    CommitProducts(db1, 1, lines);
    assert lines[..1] == [CartLine(apple, 2, 200)];
    assert ItemsFor(1, lines[..1]) == [OrderItem(1, 1, 2, 100)];
    assert SaveAll(ps, lines[..1]) == SaveAll(SaveProduct(ps, apple.(inventory := 3)), []);
    assert SaveProduct(ps, apple.(inventory := 3)) == [apple.(inventory := 3), banana];
  }

  /** With rollback, the shortfall of the example above leaves no order, no item and Apple at 5. */
  lemma AtomicShortfallExample(contact: Contact)
    ensures var apple := Product(1, "Apple", 100, 5, true);
            var banana := Product(2, "Banana", 50, 2, true);
            var db := Db([apple, banana], map[], map[1 := 2, 2 := 3], [], []);
            var s := CheckoutAtomic(db, Post(CheckoutForm(true, contact, Cod, "")), None, None, 0);
            && s.outcome == InsufficientStock(2)
            && s.db.orders == [] && s.db.items == [] && s.db.products == [apple, banana]
  {
    PartialCommitExample(contact);
  }

  /** Worked figures for the pricing rules, in cents. */
  lemma PricingExamples(now: Timestamp)
    ensures var ten := Coupon("TEN", Percent, 1000, 0, None, 0, true, None);
            Discount(10000, Some(ten)) == 1000
    ensures var flat := Coupon("FLAT", Amount, 15000, 0, None, 0, true, None);
            Discount(10000, Some(flat)) == 10000
    ensures var big := Coupon("BIG", Percent, 1000, 50000, None, 0, true, None);
            Discount(49999, Some(big)) == 0 && Discount(50000, Some(big)) == 5000
    ensures var half := Coupon("HALF", Percent, 5000, 0, None, 0, true, None);
            Discount(5, Some(half)) == 2 && Discount(15, Some(half)) == 8
    ensures var over := Coupon("OVER", Percent, 15000, 0, None, 0, true, None);
            Discount(10000, Some(over)) == 15000
    ensures forall active: bool :: !IsValid(Coupon("ONCE", Amount, 100, 0, Some(1), 1, active, None), now)
    ensures var rate := DeliveryRate("Standard Delivery", 5000, 100000, true);
            CalculateFee(rate, 99999) == 5000 && CalculateFee(rate, 100000) == 0
  {
  }
}
