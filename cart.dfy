/** The session cart (store/cart.py): a map from product id to requested quantity,
    changed in place by add, set and remove, and resolved against the catalog on every read.
    The session stores keys as `str(product_id)` and reads them back with `int(...)`; since
    only these operations write the map, every key is the decimal form of a product id and
    the model keys the map by the id itself. */
module Cart {
  import opened Models

  type CartMap = map<ProductId, int>

  /** One resolved line of the cart: the product as read now, its quantity and price x quantity. */
  datatype CartLine = CartLine(product: Product, quantity: int, subtotal: Cents)

  /** `cart.get(pid, 0)`. */
  function QuantityIn(cart: CartMap, pid: ProductId): int
  {
    if pid in cart then cart[pid] else 0
  }

  /** Every stored quantity is positive. */
  predicate AllPositive(cart: CartMap)
  {
    forall pid :: pid in cart ==> cart[pid] > 0
  }

  /** The cart after `add_to_cart(pid, quantity)`: old quantity plus `quantity`, dropped when not positive. */
  function Added(cart: CartMap, pid: ProductId, quantity: int): (r: CartMap)
    ensures pid in r <==> QuantityIn(cart, pid) + quantity > 0
    ensures pid in r ==> r[pid] == QuantityIn(cart, pid) + quantity
    ensures forall k :: k != pid ==> (k in r <==> k in cart)
    ensures forall k :: k in r && k != pid ==> r[k] == cart[k]
    ensures AllPositive(cart) ==> AllPositive(r)
  {
    var n := QuantityIn(cart, pid) + quantity;
    if n <= 0 then cart - {pid} else cart[pid := n]
  }

  /** The cart after `set_quantity(pid, quantity)`: overwritten when positive, dropped otherwise. */
  function WithQuantity(cart: CartMap, pid: ProductId, quantity: int): (r: CartMap)
    ensures pid in r <==> quantity > 0
    ensures pid in r ==> r[pid] == quantity
    ensures forall k :: k != pid ==> (k in r <==> k in cart)
    ensures forall k :: k in r && k != pid ==> r[k] == cart[k]
    ensures AllPositive(cart) ==> AllPositive(r)
  {
    if quantity <= 0 then cart - {pid} else cart[pid := quantity]
  }

  /** The cart after `remove_from_cart(pid)`; a no-op when `pid` is not there. */
  function Removed(cart: CartMap, pid: ProductId): (r: CartMap)
    ensures pid !in r
    ensures pid !in cart ==> r == cart
    ensures forall k :: k != pid ==> (k in r <==> k in cart)
    ensures forall k :: k in r ==> r[k] == cart[k]
    ensures AllPositive(cart) ==> AllPositive(r)
  {
    cart - {pid}
  }

  /** Removing twice is removing once. */
  lemma RemoveIdempotent(cart: CartMap, pid: ProductId)
    ensures Removed(Removed(cart, pid), pid) == Removed(cart, pid)
  {
  }

  /** A product the cart resolves to a line: active and present in the cart. */
  predicate Resolves(p: Product, cart: CartMap)
  {
    p.isActive && p.id in cart
  }

  /** The line for product `p`: the cart's quantity and price x quantity. */
  function LineFor(p: Product, cart: CartMap): CartLine
    requires p.id in cart
  {
    CartLine(p, cart[p.id], p.price * cart[p.id])
  }

  /** The lines `get_cart_items` builds from the catalog rows `products`, in the rows' order. */
  function CartLines(products: seq<Product>, cart: CartMap): seq<CartLine>
  {
    if products == [] then []
    else
      var last := products[|products| - 1];
      CartLines(products[..|products| - 1], cart)
      + (if Resolves(last, cart) then [LineFor(last, cart)] else [])
  }

  /** Sum of the line subtotals, starting from 0.00. */
  function LinesTotal(lines: seq<CartLine>): Cents
  {
    if lines == [] then 0 else LinesTotal(lines[..|lines| - 1]) + lines[|lines| - 1].subtotal
  }

  /** Sum of the line quantities. */
  function LinesCount(lines: seq<CartLine>): int
  {
    if lines == [] then 0 else LinesCount(lines[..|lines| - 1]) + lines[|lines| - 1].quantity
  }

  /** Product ids are the primary key of the catalog. */
  predicate UniqueIds(products: seq<Product>)
  {
    forall i, j :: 0 <= i < j < |products| ==> products[i].id != products[j].id
  }

  /** No two lines are for the same product id. */
  predicate DistinctLines(lines: seq<CartLine>)
  {
    forall i, j :: 0 <= i < j < |lines| ==> lines[i].product.id != lines[j].product.id
  }

  /** Character-by-character order of names, standing in for the database collation. */
  predicate NameLe(a: string, b: string)
  {
    a == [] || (b != [] && (a[0] < b[0] || (a[0] == b[0] && NameLe(a[1..], b[1..]))))
  }

  /** Rows in the catalog's `ordering = ['name']`. */
  predicate SortedByName(products: seq<Product>)
  {
    forall i, j :: 0 <= i < j < |products| ==> NameLe(products[i].name, products[j].name)
  }

  /** The resolved lines are exactly the active catalog rows whose id is a cart key,
      each with the cart's quantity and price x quantity; unknown and inactive ids drop out. */
  lemma {:induction false} CartLinesExactly(products: seq<Product>, cart: CartMap)
    ensures forall k :: 0 <= k < |products| && Resolves(products[k], cart) ==>
              LineFor(products[k], cart) in CartLines(products, cart)
    ensures forall line :: line in CartLines(products, cart) ==>
              exists k :: 0 <= k < |products| && Resolves(products[k], cart)
                          && line == LineFor(products[k], cart)
    decreases |products|
  {
    if products != [] {
      var init := products[..|products| - 1];
      CartLinesExactly(init, cart);
      forall line | line in CartLines(products, cart)
        ensures exists k :: 0 <= k < |products| && Resolves(products[k], cart)
                            && line == LineFor(products[k], cart)
      {
        if line in CartLines(init, cart) {
          var k :| 0 <= k < |init| && Resolves(init[k], cart) && line == LineFor(init[k], cart);
          assert products[k] == init[k];
        } else {
          assert line == LineFor(products[|products| - 1], cart);
        }
      }
      forall k | 0 <= k < |products| && Resolves(products[k], cart)
        ensures LineFor(products[k], cart) in CartLines(products, cart)
      {
        if k < |init| {
          assert products[k] == init[k];
        }
      }
    }
  }

  /** Every line carries the cart's quantity for its product and price x quantity as subtotal. */
  lemma {:induction false} CartLinesPriced(products: seq<Product>, cart: CartMap)
    ensures forall j :: 0 <= j < |CartLines(products, cart)| ==>
              var line := CartLines(products, cart)[j];
              Resolves(line.product, cart) && line.quantity == cart[line.product.id]
              && line.subtotal == line.product.price * line.quantity
  {
    CartLinesExactly(products, cart);
    forall j | 0 <= j < |CartLines(products, cart)|
      ensures var line := CartLines(products, cart)[j];
              Resolves(line.product, cart) && line.quantity == cart[line.product.id]
              && line.subtotal == line.product.price * line.quantity
    {
      assert CartLines(products, cart)[j] in CartLines(products, cart);
    }
  }

  /** An empty cart resolves to no lines and a total of 0.00. */
  lemma {:induction false} EmptyCartResolvesToNothing(products: seq<Product>)
    ensures CartLines(products, map[]) == []
    ensures LinesTotal(CartLines(products, map[])) == 0
    decreases |products|
  {
    if products != [] {
      EmptyCartResolvesToNothing(products[..|products| - 1]);
    }
  }

  /** A cart entry for an id no active catalog row has changes neither the lines nor the total. */
  lemma {:induction false} UnresolvedEntryIgnored(products: seq<Product>, cart: CartMap, pid: ProductId, q: int)
    requires forall k :: 0 <= k < |products| ==> !(products[k].isActive && products[k].id == pid)
    ensures CartLines(products, cart[pid := q]) == CartLines(products, cart - {pid})
    decreases |products|
  {
    if products != [] {
      var init := products[..|products| - 1];
      UnresolvedEntryIgnored(init, cart, pid, q);
      var last := products[|products| - 1];
      assert Resolves(last, cart[pid := q]) == Resolves(last, cart - {pid});
      if Resolves(last, cart - {pid}) {
        assert LineFor(last, cart[pid := q]) == LineFor(last, cart - {pid});
      }
    }
  }

  /** Lines come out in catalog order, so a catalog sorted by name yields lines sorted by name. */
  lemma {:induction false} CartLinesFollowCatalogOrder(products: seq<Product>, cart: CartMap)
    requires SortedByName(products)
    ensures forall i, j :: 0 <= i < j < |CartLines(products, cart)| ==>
              NameLe(CartLines(products, cart)[i].product.name, CartLines(products, cart)[j].product.name)
    decreases |products|
  {
    if products != [] {
      var init := products[..|products| - 1];
      var last := products[|products| - 1];
      var lines := CartLines(products, cart);
      var head := CartLines(init, cart);
      CartLinesFollowCatalogOrder(init, cart);
      CartLinesExactly(init, cart);
      forall i, j | 0 <= i < j < |lines|
        ensures NameLe(lines[i].product.name, lines[j].product.name)
      {
        if j < |head| {
          assert lines[i] == head[i] && lines[j] == head[j];
        } else {
          assert lines[i] == head[i] && head[i] in head;
          var k :| 0 <= k < |init| && Resolves(init[k], cart) && head[i] == LineFor(init[k], cart);
          assert lines[j].product == last;
          assert init[k] == products[k];
        }
      }
    }
  }

  /** With unique catalog ids no two lines are for the same product. */
  lemma {:induction false} CartLinesDistinct(products: seq<Product>, cart: CartMap)
    requires UniqueIds(products)
    ensures DistinctLines(CartLines(products, cart))
    decreases |products|
  {
    if products != [] {
      var init := products[..|products| - 1];
      var last := products[|products| - 1];
      var lines := CartLines(products, cart);
      var head := CartLines(init, cart);
      CartLinesDistinct(init, cart);
      CartLinesExactly(init, cart);
      forall i, j | 0 <= i < j < |lines|
        ensures lines[i].product.id != lines[j].product.id
      {
        if j < |head| {
          assert lines[i] == head[i] && lines[j] == head[j];
        } else {
          assert lines[i] == head[i] && head[i] in head;
          var k :| 0 <= k < |init| && Resolves(init[k], cart) && head[i] == LineFor(init[k], cart);
          assert lines[j].product == last;
          assert init[k] == products[k];
        }
      }
    }
  }

  /** The browser's session, holding the cart map. */
  class Session {
    var cart: CartMap

    constructor ()
      ensures cart == map[]
    {
      cart := map[];
    }

    /** `add_to_cart`. */
    method AddToCart(pid: ProductId, quantity: int)
      modifies this
      ensures cart == Added(old(cart), pid, quantity)
    {
      var c := cart;
      c := c[pid := QuantityIn(c, pid) + quantity];
      if c[pid] <= 0 {
        c := c - {pid};
      }
      cart := c;
    }

    /** `set_quantity`. */
    method SetQuantity(pid: ProductId, quantity: int)
      modifies this
      ensures cart == WithQuantity(old(cart), pid, quantity)
    {
      var c := cart;
      if quantity <= 0 {
        c := c - {pid};
      } else {
        c := c[pid := quantity];
      }
      cart := c;
    }

    /** `remove_from_cart`. */
    method RemoveFromCart(pid: ProductId)
      modifies this
      ensures cart == Removed(old(cart), pid)
    {
      var c := cart;
      c := c - {pid};
      cart := c;
    }

    /** `get_cart_items`: walk the catalog rows in order, keep the active ones the cart names,
        and accumulate the total. */
    method GetCartItems(products: seq<Product>) returns (lines: seq<CartLine>, total: Cents)
      ensures lines == CartLines(products, cart)
      ensures total == LinesTotal(lines)
    {
      lines := [];
      total := 0;
      var i := 0;
      while i < |products|
        invariant 0 <= i <= |products|
        invariant lines == CartLines(products[..i], cart)
        invariant total == LinesTotal(lines)
      {
        assert products[..i + 1][..i] == products[..i];
        var product := products[i];
        if product.isActive && product.id in cart {
          var quantity := cart[product.id];
          var subtotal := product.price * quantity;
          total := total + subtotal;
          lines := lines + [CartLine(product, quantity, subtotal)];
        }
        i := i + 1;
      }
      assert products[..|products|] == products;
    }

    /** `get_cart_summary`: the quantities of the resolved lines only, and the same total. */
    method GetCartSummary(products: seq<Product>) returns (count: int, total: Cents)
      ensures count == LinesCount(CartLines(products, cart))
      ensures total == LinesTotal(CartLines(products, cart))
    {
      var lines;
      lines, total := GetCartItems(products);
      count := LinesCount(lines);
    }
  }
}
