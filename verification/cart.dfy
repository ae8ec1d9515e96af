/**
 The two cart views: adding a product to the session cart, with the quantity
 clamped to the product's stock, and listing the cart with its line prices and
 grand total.
 */
module CartViews {
  import opened Store

  /** The lookup of a product id that is not in the catalog (a 404 response). */
  datatype LookupError = NotFound

  /** The non-fatal notice shown when a requested quantity was cut down to the
      stock available; it names the product and the quantity that was kept. */
  datatype StockWarning = StockLimited(name: string, available: int)

  /** The session cart after an add, and the notice the user sees, if any. */
  datatype Added = Added(cart: Cart, warning: Option<StockWarning>)

  datatype DetailLine = DetailLine(product: ProductId, item: Product, quantity: int, itemPrice: int)

  /** What the cart page shows: one line per cart entry and the grand total. */
  datatype CartSummary = CartSummary(items: seq<DetailLine>, totalPrice: int)

  function Min(a: int, b: int): int {
    if a <= b then a else b
  }

  /** Adds `quantity` units of product `id` to the cart. The new quantity is the
      old one (0 when absent) plus `quantity`, cut down to the product's stock,
      and it is stored even when the cut leaves 0. An unknown product leaves the
      session untouched. The quantity is not checked to be positive. */
  function AddToCart(catalog: Catalog, cart: Cart, id: ProductId, quantity: int): (r: Result<Added, LookupError>)
    ensures r.Err? <==> id !in catalog
    ensures r.Ok? ==> id in r.value.cart.quantities
    ensures r.Ok? ==> QuantityIn(r.value.cart, id) == Min(QuantityIn(cart, id) + quantity, catalog[id].stock)
    ensures r.Ok? ==> QuantityIn(r.value.cart, id) <= catalog[id].stock
    ensures r.Ok? ==> (r.value.warning.Some? <==> QuantityIn(cart, id) + quantity > catalog[id].stock)
    ensures r.Ok? && r.value.warning.Some? ==> r.value.warning.value == StockLimited(catalog[id].name, catalog[id].stock)
    ensures r.Ok? ==> forall other :: other != id ==> QuantityIn(r.value.cart, other) == QuantityIn(cart, other)
    ensures r.Ok? ==> forall other :: other != id ==> (other in r.value.cart.quantities <==> other in cart.quantities)
    ensures r.Ok? && id in cart.quantities ==> r.value.cart.ids == cart.ids
    ensures r.Ok? && id !in cart.quantities ==> r.value.cart.ids == cart.ids + [id]
  {
    if id !in catalog then Err(NotFound)
    else
      var product := catalog[id];
      var wanted := QuantityIn(cart, id) + quantity;
      if wanted > product.stock then
        Ok(Added(Put(cart, id, product.stock), Some(StockLimited(product.name, product.stock))))
      else
        Ok(Added(Put(cart, id, wanted), None))
  }

  /** An add never lets an entry exceed its product's stock, and leaves the
      other entries as they were, so a cart within stock stays within stock. */
  lemma AddToCartKeepsCartWithinStock(catalog: Catalog, cart: Cart, id: ProductId, quantity: int)
    requires CartWithinStock(catalog, cart)
    requires id in catalog
    ensures CartWithinStock(catalog, AddToCart(catalog, cart, id, quantity).value.cart)
  {
  }

  /** Posting the add form twice, the second time with a non-negative quantity,
      leaves the same cart as posting once with the sum: the stock clamp
      saturates rather than losing units. */
  lemma AddToCartAccumulates(catalog: Catalog, cart: Cart, id: ProductId, a: int, b: int)
    requires id in catalog
    requires b >= 0
    ensures AddToCart(catalog, AddToCart(catalog, cart, id, a).value.cart, id, b).value.cart
         == AddToCart(catalog, cart, id, a + b).value.cart
  {
  }

  /** Once an entry has reached its product's stock, further adds of a
      non-negative quantity change nothing in the cart; they warn exactly when
      the quantity is positive. */
  lemma AddToCartAtStockIsStable(catalog: Catalog, cart: Cart, id: ProductId, quantity: int)
    requires id in catalog && id in cart.quantities
    requires cart.quantities[id] == catalog[id].stock
    requires quantity >= 0
    ensures AddToCart(catalog, cart, id, quantity).value.cart == cart
    ensures AddToCart(catalog, cart, id, quantity).value.warning.Some? <==> quantity > 0
  {
  }

  /** The cart page's line for one entry: the product as it is now, the
      quantity, and unit price times quantity. */
  function Detail(catalog: Catalog, line: Line): DetailLine
    requires line.product in catalog
  {
    DetailLine(line.product, catalog[line.product], line.quantity, catalog[line.product].price * line.quantity)
  }

  /** The sum of the line prices shown on the cart page. */
  function ShownTotal(items: seq<DetailLine>): int
  {
    if items == [] then 0
    else ShownTotal(items[..|items| - 1]) + items[|items| - 1].itemPrice
  }

  lemma ShownTotalAppend(items: seq<DetailLine>, item: DetailLine)
    ensures ShownTotal(items + [item]) == ShownTotal(items) + item.itemPrice
  {
    assert (items + [item])[..|items|] == items;
  }

  /** The loop of the cart page over the cart's items: one line per item, in
      order, and the running total. It stops at the first item whose product
      is not in the catalog. */
  method ListLines(catalog: Catalog, lines: seq<Line>) returns (r: Result<CartSummary, LookupError>)
    ensures r.Err? <==> !AllListed(catalog, lines)
    ensures r.Ok? ==> |r.value.items| == |lines|
    ensures r.Ok? ==> forall i :: 0 <= i < |lines| ==> r.value.items[i] == Detail(catalog, lines[i])
    ensures r.Ok? ==> r.value.totalPrice == ShownTotal(r.value.items)
    ensures r.Ok? ==> r.value.totalPrice == LinesTotal(catalog, lines)
  {
    var items: seq<DetailLine> := [];
    var total := 0;
    for i := 0 to |lines|
      invariant AllListed(catalog, lines[..i])
      invariant |items| == i
      invariant forall j :: 0 <= j < i ==> items[j] == Detail(catalog, lines[j])
      invariant total == ShownTotal(items)
      invariant total == LinesTotal(catalog, lines[..i])
    {
      var line := lines[i];
      if line.product !in catalog {
        return Err(NotFound);
      }
      var item := Detail(catalog, line);
      ShownTotalAppend(items, item);
      LinesTotalStep(catalog, lines, i);
      total := total + item.itemPrice;
      items := items + [item];
    }
    assert lines[..|lines|] == lines;
    return Ok(CartSummary(items, total));
  }

  /** Lists the cart in cart order, looking each product up afresh. Each line's
      price is unit price times quantity and the total is the sum of the line
      prices, which is also what checkout charges for the same cart. Any entry
      whose product is gone makes the whole page a 404. */
  method CartDetail(catalog: Catalog, cart: Cart) returns (r: Result<CartSummary, LookupError>)
    ensures r.Err? <==> exists id :: id in cart.quantities && id !in catalog
    ensures r.Ok? ==> |r.value.items| == |cart.ids|
    ensures r.Ok? ==> forall i :: 0 <= i < |cart.ids| ==>
      cart.ids[i] in catalog && r.value.items[i] == Detail(catalog, Items(cart)[i])
    ensures r.Ok? ==> r.value.totalPrice == ShownTotal(r.value.items)
    ensures r.Ok? ==> AllListed(catalog, Items(cart)) && r.value.totalPrice == LinesTotal(catalog, Items(cart))
  {
    var lines := Items(cart);
    r := ListLines(catalog, lines);
    ListedItems(catalog, cart);
    if r.Ok? {
      forall i | 0 <= i < |cart.ids|
        ensures cart.ids[i] in catalog && r.value.items[i] == Detail(catalog, lines[i])
      {
        assert lines[i].product == cart.ids[i];
      }
    }
  }
}
