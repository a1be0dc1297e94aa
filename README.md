# Storefront checkout, modelled in Dafny

This project models the pricing and stock-commitment core of a small Django storefront: the
record types and their pricing helpers (`store/models.py`), the session cart
(`store/cart.py`), and the checkout view with its discount rule and the out-of-stock guard of
`add_cart` (`store/views.py`).

Modules, one per source file, plus one module of properties:

- `Models` (`models.dfy`): products, coupons, delivery rates, orders and order items as
  datatypes. Money is a whole number of cents. It contains `Coupon.is_valid`,
  `DeliveryRate.calculate_fee`, `Product.in_stock`, `OrderItem.subtotal`, and `Order.subtotal`
  and `Order.total` (the subtotal is a loop, proved against a recursive sum).
- `Cart` (`cart.dfy`): the session is a class whose `cart` field is a map from product id to
  quantity. The add, set and remove methods are each proved equal to a function whose contract
  states the new cart key by key. `GetCartItems` walks the catalog rows in order and is proved
  equal to `CartLines`. Lemmas about `CartLines` state which lines appear, how they are priced,
  and their order and uniqueness.
- `Views` (`views.dfy`): `_calculate_discount` with ROUND_HALF_EVEN quantization, and the
  checkout as a function `CheckoutSpec` over a snapshot `Db` of the tables and the cart. The
  class `Store` holds the tables and the session. Its methods `AddCart`, `CommitLines`,
  `Place` and `Checkout` are proved to change the state exactly as the specification functions
  say.
- `CheckoutProperties` (`checkout_properties.dfy`): what a placed order, a shortfall and the
  checkout page each do to the shop. Also a concrete partial commit, the rolled-back variant,
  and worked pricing figures.

The current time, the active delivery rate and the requesting user are parameters. So are the
checkout form's validity and cleaned fields.

## Model

| member | source | states |
|---|---|---|
| Models.InStock | store/models.py:29-31 | a product is in stock exactly when its inventory is not zero |
| Models.IsValid | store/models.py:51-58 | an inactive coupon, one past its expiry (an expiry equal to now has not passed), or one whose used count reached its max uses is invalid; an active, unexpired coupon under its cap is valid |
| Models.CalculateFee | store/models.py:69-72 | the fee is zero once the subtotal reaches a nonzero free-over threshold; otherwise it is the flat fee, and a zero threshold never makes delivery free |
| Models.ItemsOfMembers | store/models.py:129 | the `order.items` relation: an item is among an order's items exactly when it is in the table and belongs to the order |
| Models.Subtotal | store/models.py:117-122 | the loop over the order's items adds up price x quantity of each item, starting from 0.00, and equals the recursive sum `ItemsTotal` |
| Models.Total | store/models.py:124-126 | the order total is the item subtotal less the stored discount plus the stored delivery fee |
| Models.ItemSubtotal | store/models.py:137-139 | an item of quantity 0 costs 0.00, and an item of quantity 1 costs its price |
| Models.ItemsTotalAppend | store/models.py:117-122 | the subtotal of two item lists placed one after the other is the sum of their subtotals |
| Models.ItemsOfAppend | store/models.py:129 | selecting one order's items distributes over appending rows to the table |
| Models.TwoItemOrderTotal | store/models.py:124-126 | two items at 10.00 x 2 and 5.00 x 1, with no discount and no fee, total 25.00 |
| Cart.Added | store/cart.py:13-19 | after adding, the product's quantity is the old quantity (0 if absent) plus the added amount, and the entry is dropped when that is not positive; other entries are unchanged; an all-positive cart stays all-positive |
| Cart.WithQuantity | store/cart.py:22-29 | after setting, a positive quantity overwrites the entry and a quantity of zero or less removes it; other entries are unchanged |
| Cart.Removed | store/cart.py:32-36 | after removal the product is absent, a cart without it is unchanged, and other entries are unchanged |
| Cart.RemoveIdempotent | store/cart.py:32-36 | removing twice is the same as removing once |
| Cart.Session.AddToCart | store/cart.py:13-19 | the session cart becomes `Added` of the old cart |
| Cart.Session.SetQuantity | store/cart.py:22-29 | the session cart becomes `WithQuantity` of the old cart |
| Cart.Session.RemoveFromCart | store/cart.py:32-36 | the session cart becomes `Removed` of the old cart |
| Cart.Session.GetCartItems | store/cart.py:39-56 | the loop over the catalog rows yields `CartLines` of the cart and the sum of their subtotals |
| Cart.Session.GetCartSummary | store/cart.py:59-65 | the count is the sum of the quantities of the resolved lines only, and the total is the same as for the cart items |
| Cart.CartLinesExactly | store/cart.py:39-56 | every active catalog row whose id is in the cart gives a line with the cart's quantity, and every line comes from such a row |
| Cart.CartLinesPriced | store/cart.py:47-48 | every line's subtotal is its product's price times its quantity |
| Cart.EmptyCartResolvesToNothing | store/cart.py:39-56 | an empty cart resolves to no lines and a total of 0.00 |
| Cart.UnresolvedEntryIgnored | store/cart.py:41-42 | an entry whose id names no active row (deleted or deactivated) is ignored: the lines are as if the entry were absent |
| Cart.CartLinesFollowCatalogOrder | store/cart.py:42-46 | when the catalog is in name order, so are the lines |
| Cart.CartLinesDistinct | store/cart.py:41-46 | with unique product ids, no two lines are for the same product |
| Views.QuantizeCents | store/views.py:63 | the result is the nearest whole cent to the exact percentage, with a tie going to the even neighbour |
| Views.QuantizeCentsUnique | store/views.py:63 | any whole cent that meets that nearest-with-ties-to-even condition is the one `QuantizeCents` returns |
| Views.Discount | store/views.py:57-64 | no coupon, or a subtotal under the coupon's minimum, gives 0.00; a percent coupon gives subtotal x value / 100 quantized to the cent (`QuantizeCents`: within half a cent, ties to the even cent); an amount coupon gives the smaller of its value and the subtotal |
| Views.FeeFor | store/views.py:89 | no active delivery rate gives a fee of 0.00; otherwise the rate's `calculate_fee` |
| Views.FindCoupon | store/views.py:83 | a coupon is found exactly when its code exists and it is active, and then it is that row |
| Views.FindActive | store/views.py:31 | a product is found only when it is an active row with the id; nothing is found only when no active row has the id |
| Views.SaveProduct | store/views.py:122 | saving replaces the row with the product's id and leaves the other rows and the length unchanged |
| Views.AfterSale | store/views.py:121 | the saved product is the product as read with only its inventory changed, lowered by the line's quantity |
| Views.Short | store/views.py:108 | a line is short exactly when its quantity exceeds the inventory read, and a line that is not short leaves a nonnegative inventory once sold |
| Views.Purchase | store/views.py:115-120 | the OrderItem for a line belongs to the order and carries the line's product, quantity and the product's current price; for a priced line its subtotal is the line's subtotal |
| Views.NewOrder | store/views.py:91-103 | the saved Order carries the user, the form's contact and payment method, the applied coupon's code (none without a coupon), the discount and fee, status pending and payment pending with no reference, whatever the payment method |
| Views.Commit | store/views.py:105-122 | the line loop never touches the orders, the coupons or the cart |
| Views.FormPricing | store/views.py:133-135 | the page shows a discount of 0.00, the fee on the undiscounted subtotal, and total = subtotal + fee |
| Views.PlaceSpec | store/views.py:79-129 | a submitted valid form ends in an invalid coupon, a shortfall or a placed order; the invalid coupon happens exactly when a code is given that is missing, inactive or invalid now, and changes nothing; otherwise one Order is appended after the kept ones; a shortfall leaves the coupons and the cart; a placed order gets the next id and empties the cart |
| Views.CheckoutSpec | store/views.py:67-146 | checkout ends with an empty cart exactly when no line resolves; it ends with an invalid coupon exactly when a valid form names a code that is missing, inactive or invalid now; it shows the form exactly for a GET or an invalid form; none of these changes anything |
| Views.CheckoutAtomic | store/views.py:67-113 | with rollback, the outcome is the same as checkout's; anything but a placed order leaves every row and the cart as they were; a placed order has the same effect |
| Views.Store.AddCart | store/views.py:30-39 | a missing or inactive product is not found; an active product with no inventory is refused; only otherwise does the cart change, by `Added` |
| Views.Store.CommitLines | store/views.py:105-122 | the loop over the lines leaves the state, and reports the short product, as `Commit` says |
| Views.Store.Place | store/views.py:79-129 | the submitted branch changes the state and returns the outcome as `PlaceSpec` says |
| Views.Store.Checkout | store/views.py:67-146 | the view changes the state and returns the outcome as `CheckoutSpec` says |
| Views.Store.CheckoutAtomically | store/views.py:67-113 | checkout followed by rollback on a shortfall changes the state as `CheckoutAtomic` says |
| CheckoutProperties.FirstShort | store/views.py:105-113 | the index of the first line short of stock: every earlier line has the stock, and the line there, if any, lacks it |
| CheckoutProperties.CommitStopsAtFirstShort | store/views.py:105-113 | the line loop reports the product of the first short line, or nothing when every line has the stock |
| CheckoutProperties.CommitItems | store/views.py:105-120 | the line loop adds exactly the items of the lines before the first short one |
| CheckoutProperties.CommitProducts | store/views.py:105-122 | the line loop saves the decremented product of exactly the lines before the first short one |
| CheckoutProperties.SaveAllRows | store/views.py:121-122 | saving distinct lines that all have the stock keeps the row count and ids; a row a line names ends with its inventory less that line's quantity; every other row is unchanged |
| CheckoutProperties.SaveCartLines | store/views.py:105-122 | saving every resolved line sells from the catalog: each active row in the cart loses its cart quantity, every other row is unchanged |
| CheckoutProperties.PlacedUnfold | store/views.py:77-129 | a placed order came from a valid POST whose line loop found all the stock, and the new state is the loop's, with the coupon's use counted and the cart emptied |
| CheckoutProperties.PlacedOrderRecord | store/views.py:88-103 | a placed order adds one Order with the next id, the user, the form's contact and payment method, the applied coupon's code (none without a code), no payment reference, the computed discount, the fee on the discounted subtotal, status pending and payment pending whatever the method; earlier orders are kept |
| CheckoutProperties.PlacedItems | store/views.py:105-120 | a placed order adds one item per cart line, in line order, each at the product's price when it was placed |
| CheckoutProperties.PlacedStock | store/views.py:105-122 | a placed order lowers each resolved product's inventory by its cart quantity and leaves every other row unchanged |
| CheckoutProperties.PlacedCouponAndCart | store/views.py:124-128 | a placed order with a code counts one more use of that coupon and changes no other coupon; without a code the coupons are unchanged; the cart is emptied |
| CheckoutProperties.CheckoutKeepsCaps | store/views.py:84-126 | when no coupon is used beyond its max uses, none is after any checkout: a coupon is counted only after it passed `is_valid`, which demands a use left |
| CheckoutProperties.RetryAfterPlacedChangesNothing | store/views.py:70-73 | after a placed order, sending checkout again finds the cart empty and changes nothing, so the coupon is not counted twice |
| CheckoutProperties.ShortfallKeepsPartialWrites | store/views.py:103-113 | a shortfall is reported for the first short line; the Order stays saved, and so do the items and decrements of the earlier lines; the coupons and the cart are untouched |
| CheckoutProperties.ItemsOfOwn | store/models.py:129 | a list whose rows all belong to one order is exactly that order's items |
| CheckoutProperties.ItemsOfItemsFor | store/views.py:115-120 | the items created for an order all belong to it |
| CheckoutProperties.ItemsForTotal | store/models.py:117-122 | the items created from priced lines add up to the lines' total |
| CheckoutProperties.ItemsOfNone | store/models.py:117-122 | a new order id owns no existing item |
| CheckoutProperties.NewOrderItems | store/models.py:117-122 | after appending the items made from priced lines for a new order id, that order's items are exactly those items, and they add up to the lines' total |
| CheckoutProperties.PlacedOrderTotal | store/models.py:117-126 | a placed order's subtotal is the cart total checkout priced, and its total is that less the discount plus the fee |
| CheckoutProperties.CouponConsumedWithoutDiscount | store/views.py:84-126 | a valid coupon whose minimum order is not met gives no discount, yet it is recorded on the order and its use is counted |
| CheckoutProperties.FormPageChangesNothing | store/views.py:130-146 | the checkout page changes nothing; it shows the cart total, no discount, and the fee on the undiscounted subtotal |
| CheckoutProperties.PartialCommitExample | store/views.py:103-113 | with Apple (5 in stock, 2 wanted) and Banana (2 in stock, 3 wanted), checkout reports Banana short, yet the order, Apple's item and Apple's decrement to 3 stay written |
| CheckoutProperties.AtomicShortfallExample | store/views.py:67-113 | with rollback, the same input leaves no order, no item and Apple at 5 |
| CheckoutProperties.PricingExamples | store/views.py:57-64 | 10% of 100.00 is 10.00; a 150.00 flat coupon on 100.00 gives 100.00; a 500.00 minimum rejects 499.99 and accepts 500.00; 50% of 0.05 is 0.02 and 50% of 0.15 is 0.08 (ties to even); a 150% coupon gives 150.00; a coupon used up is invalid; a 1000.00 threshold charges 50.00 at 999.99 and nothing at 1000.00 |

## Behaviour of the code as written

The model follows the code in each of these points, where a reader might expect otherwise:

- Rounding: `quantize(Decimal('0.01'))` at store/views.py:63 uses the default decimal context,
  whose rounding is ROUND_HALF_EVEN, so 50% of 0.05 is 0.02 rather than 0.03.
- No cap on a percent discount: only the amount branch takes `min(coupon.value, subtotal)`
  (store/views.py:64). A coupon worth more than 100% gives a discount above the subtotal.
- Minimum order: `Coupon.is_valid` (store/models.py:51-58) does not look at
  `min_order_amount`; `_calculate_discount` returns 0.00 below it (store/views.py:60-61), yet
  the coupon is still attached to the order and its use counted (store/views.py:94, 124-126).
- Partial commit: the `@transaction.atomic` decorator (store/views.py:67) shows that checkout
  is meant to be all or nothing, but the shortfall branch returns a redirect instead of
  raising (store/views.py:113), so the Order and the earlier lines' writes are committed.
  This is the one entry under Findings.
- Payment: the card method is stored as `stripe` (store/models.py:87), and both payment
  branches set the payment status to pending (store/views.py:98-101).

## Left out

- `store/forms.py` is not part of this model. The form's validity, its cleaned fields and the
  coupon code's normalisation are inputs.
- `store/admin.py`, `store/urls.py`, the other views, templates, flash messages and
  redirects are left out. They are presentation; each outcome of checkout is one constructor
  of `Outcome`.
- The ORM is modelled as sequences and maps: a catalog `seq<Product>` in query order, a
  coupon map keyed by code, and order and item lists. Row locking, isolation and concurrent
  checkouts are not modelled. Each request runs alone.
- `Product.save`'s slug generation and the `__str__` methods do not affect pricing or stock.
- The clock is a parameter `now` (`timezone.now()`), and only its order matters.
- `_get_active_delivery` picks the first active rate in unspecified order. The rate it
  returns is a parameter, `delivery`.
- Decimal fields are unbounded integers of cents. `max_digits` overflow and Decimal context
  precision are not modelled.
- The database collation of the name ordering is approximated by the character order
  `NameLe`.
- Session keys are `str(product_id)` and are read back with `int(...)`. The cart is written
  only by the add, set and remove operations of store/cart.py, which key it by
  `str(product_id)`, and by checkout's reset to an empty map (store/views.py:128), so the model
  keys it by the id itself. A malformed key, which
  would make `int` raise, cannot arise.
- The quantity parsing in `add_cart` (`int(request.POST.get(...))`) is left out; the quantity
  is an integer parameter.

## Findings

| source | as written | input that shows it | evidently intended | confidence | as-written member | corrected member |
|---|---|---|---|---|---|---|
| store/views.py:67-113 | on a stock shortfall the view returns a redirect inside `@transaction.atomic`, so the saved Order, the items and the inventory decrements of the earlier lines are committed | cart {Apple: 2, Banana: 3}; Apple 1.00 with 5 in stock, Banana 0.50 with 2 in stock; a valid POST with no coupon; the result is an Order with Apple's item alone and Apple at 3, reported as Banana out of stock | a shortfall rolls back: no order, no item, no decrement, coupon and cart unchanged | high; not executed | CheckoutProperties.PartialCommitExample | Views.CheckoutAtomic |
