/**
 The checkout view: validates every cart line against current stock, then
 records one sale with one item per line, takes the sold quantities out of
 stock and empties the cart. It is all-or-nothing: every way it can fail
 leaves the catalog, the ledger and the cart exactly as they were.
 */
module CheckoutView {
  import opened Store

  /** Where the view redirects the browser. */
  datatype Page = ProductList | CartPage | CheckoutSuccess

  /** What the user is told when checkout is refused: the shortage message
      names the product; every other failure, including a product that has
      disappeared from the catalog, gets one generic message. */
  datatype CheckoutError = InsufficientStock(product: ProductId, name: string) | Unexpected

  datatype CheckoutReply = CheckoutReply(shop: Shop, page: Page, error: Option<CheckoutError>)

  /** The validation test one line must pass: its product still exists and
      has at least the requested quantity in stock. */
  predicate Fillable(catalog: Catalog, line: Line) {
    line.product in catalog && catalog[line.product].stock >= line.quantity
  }

  predicate AllFillable(catalog: Catalog, lines: seq<Line>) {
    forall i :: 0 <= i < |lines| ==> Fillable(catalog, lines[i])
  }

  /** Line `i` is the first one, in cart order, that validation rejects. */
  predicate FirstUnfillable(catalog: Catalog, lines: seq<Line>, i: int) {
    && 0 <= i < |lines|
    && !Fillable(catalog, lines[i])
    && forall j :: 0 <= j < i ==> Fillable(catalog, lines[j])
  }

  /** The validation loop: walks the lines in order and stops at the first
      one that fails. */
  function FirstBadLine(catalog: Catalog, lines: seq<Line>): (r: Option<nat>)
    ensures r.None? <==> AllFillable(catalog, lines)
    ensures r.Some? ==> FirstUnfillable(catalog, lines, r.value)
  {
    if lines == [] then None
    else if !Fillable(catalog, lines[0]) then Some(0)
    else
      match FirstBadLine(catalog, lines[1..])
      case None => None
      case Some(k) => Some(k + 1)
  }

  /** The error a rejected line produces: a missing product raises a not-found
      error that only the generic handler catches; a short one raises the
      stock error with the product's name. */
  function ErrorFor(catalog: Catalog, line: Line): (e: CheckoutError)
    ensures e == Unexpected <==> line.product !in catalog
    ensures e.InsufficientStock? ==> e.product == line.product && e.name == catalog[line.product].name
  {
    if line.product !in catalog then Unexpected
    else InsufficientStock(line.product, catalog[line.product].name)
  }

  /** One sale item per line, in order, capturing the price seen during validation. */
  function SaleItems(catalog: Catalog, lines: seq<Line>): (items: seq<SaleItem>)
    requires AllListed(catalog, lines)
    ensures |items| == |lines|
    ensures forall i :: 0 <= i < |lines| ==>
      items[i] == SaleItem(lines[i].product, lines[i].quantity, catalog[lines[i].product].price)
  {
    if lines == [] then []
    else SaleItems(catalog, lines[..|lines| - 1]) + [SaleItem(lines[|lines| - 1].product, lines[|lines| - 1].quantity, catalog[lines[|lines| - 1].product].price)]
  }

  /** The amount charged for the lines is the sum of the recorded items'
      subtotals, so the sale balances. */
  lemma {:induction false} ChargedTotalIsItemsTotal(catalog: Catalog, lines: seq<Line>)
    requires AllListed(catalog, lines)
    ensures ItemsTotal(SaleItems(catalog, lines)) == LinesTotal(catalog, lines)
  {
    if lines != [] {
      var prefix := lines[..|lines| - 1];
      ChargedTotalIsItemsTotal(catalog, prefix);
      var items := SaleItems(catalog, lines);
      assert items[..|items| - 1] == SaleItems(catalog, prefix);
    }
  }

  /** `after` is `before` with each line's quantity taken out of its product's
      stock; names, prices and every product not in the lines are untouched. */
  predicate StockTaken(before: Catalog, lines: seq<Line>, after: Catalog)
    requires AllListed(before, lines)
  {
    && after.Keys == before.Keys
    && (forall id :: id in before ==> after[id].name == before[id].name && after[id].price == before[id].price)
    && (forall i :: 0 <= i < |lines| ==> after[lines[i].product].stock == before[lines[i].product].stock - lines[i].quantity)
    && (forall id :: id in before && (forall i :: 0 <= i < |lines| ==> lines[i].product != id) ==> after[id] == before[id])
  }

  /** The stock updates, applied line by line in cart order. */
  function TakeStock(catalog: Catalog, lines: seq<Line>): (after: Catalog)
    requires AllListed(catalog, lines)
    requires DistinctIds(lines)
    ensures StockTaken(catalog, lines, after)
  {
    if lines == [] then catalog
    else
      var prefix := lines[..|lines| - 1];
      var last := lines[|lines| - 1];
      var before := TakeStock(catalog, prefix);
      var product := before[last.product];
      before[last.product := product.(stock := product.stock - last.quantity)]
  }

  /** What a committed checkout leaves behind: the cart emptied, exactly one
      sale appended to the ledger with one item per cart line in cart order at
      the validated prices and a total equal to the sum of the items'
      subtotals, and every line's quantity taken out of stock. */
  predicate Committed(before: Shop, after: Shop)
    requires AllListed(before.catalog, Items(before.cart))
  {
    var lines := Items(before.cart);
    && after.cart == EmptyCart
    && |after.ledger| == |before.ledger| + 1
    && after.ledger[..|before.ledger|] == before.ledger
    && var sale := after.ledger[|before.ledger|];
    && |sale.items| == |lines|
    && (forall i :: 0 <= i < |lines| ==>
          sale.items[i] == SaleItem(lines[i].product, lines[i].quantity, before.catalog[lines[i].product].price))
    && SaleBalanced(sale)
    && StockTaken(before.catalog, lines, after.catalog)
  }

  /** Lines that pass validation name listed products. */
  lemma FillableLinesAreListed(catalog: Catalog, lines: seq<Line>)
    requires AllFillable(catalog, lines)
    ensures AllListed(catalog, lines)
  {
    forall i | 0 <= i < |lines|
      ensures lines[i].product in catalog
    {
      assert Fillable(catalog, lines[i]);
    }
  }

  /** Taking validated quantities out of stock never drives a product's stock
      below zero. */
  lemma {:induction false} ValidatedStockStaysNonNegative(catalog: Catalog, cart: Cart, after: Catalog)
    requires AllFillable(catalog, Items(cart))
    requires AllListed(catalog, Items(cart))
    requires StockTaken(catalog, Items(cart), after)
    ensures forall id :: id in cart.quantities ==> id in after && after[id].stock >= 0
    ensures StockNonNegative(catalog) ==> StockNonNegative(after)
  {
    var lines := Items(cart);
    forall id | id in cart.quantities
      ensures id in after && after[id].stock >= 0
    {
      var k :| 0 <= k < |cart.ids| && cart.ids[k] == id;
      assert lines[k].product == id && Fillable(catalog, lines[k]);
    }
    if StockNonNegative(catalog) {
      forall id | id in after
        ensures after[id].stock >= 0
      {
        if id !in cart.quantities {
          forall i | 0 <= i < |lines|
            ensures lines[i].product != id
          {
            assert lines[i].product == cart.ids[i] && cart.ids[i] in cart.ids;
          }
        }
      }
    }
  }

  /** Appending a balanced sale keeps a balanced ledger balanced. */
  lemma AppendBalanced(ledger: Ledger, sale: Sale)
    requires SaleBalanced(sale)
    ensures LedgerBalanced(ledger) ==> LedgerBalanced(ledger + [sale])
  {
  }

  /** The commit step, reached only when every line passed validation: the
      sale and its items are recorded, the stock is taken and the cart is
      emptied. Stock stays non-negative because every line was within it. */
  function Commit(s: Shop): (after: Shop)
    requires AllFillable(s.catalog, Items(s.cart))
    ensures AllListed(s.catalog, Items(s.cart)) && Committed(s, after)
    ensures after.ledger[|s.ledger|].totalPrice == LinesTotal(s.catalog, Items(s.cart))
    ensures forall id :: id in s.cart.quantities ==> id in after.catalog && after.catalog[id].stock >= 0
    ensures StockNonNegative(s.catalog) ==> StockNonNegative(after.catalog)
    ensures LedgerBalanced(s.ledger) ==> LedgerBalanced(after.ledger)
  {
    var lines := Items(s.cart);
    FillableLinesAreListed(s.catalog, lines);
    var sale := Sale(LinesTotal(s.catalog, lines), SaleItems(s.catalog, lines));
    ChargedTotalIsItemsTotal(s.catalog, lines);
    AppendBalanced(s.ledger, sale);
    var stock := TakeStock(s.catalog, lines);
    ValidatedStockStaysNonNegative(s.catalog, s.cart, stock);
    var after := Shop(stock, s.ledger + [sale], EmptyCart);
    assert after.ledger[..|s.ledger|] == s.ledger;
    after
  }

  /** The checkout request. An empty cart sends the user back to the product
      list and changes nothing. Otherwise the first line in cart order whose
      product is missing or short of stock aborts the whole checkout and
      changes nothing; if every line passes, one sale is committed. */
  function Checkout(s: Shop): (r: CheckoutReply)
    ensures s.cart == EmptyCart ==> r == CheckoutReply(s, ProductList, None)
    ensures r.page == ProductList <==> s.cart == EmptyCart
    ensures s.cart != EmptyCart && !AllFillable(s.catalog, Items(s.cart)) ==> r.page == CartPage && r.error.Some?
    ensures r.page != CheckoutSuccess ==> r.shop == s
    ensures r.page == CheckoutSuccess <==> s.cart != EmptyCart && AllFillable(s.catalog, Items(s.cart))
    ensures r.page == CartPage <==> r.error.Some?
    ensures r.error.Some? ==>
      exists i :: FirstUnfillable(s.catalog, Items(s.cart), i) && r.error.value == ErrorFor(s.catalog, Items(s.cart)[i])
    ensures r.page == CheckoutSuccess ==> AllListed(s.catalog, Items(s.cart)) && Committed(s, r.shop)
    ensures r.page == CheckoutSuccess ==> r.shop.ledger[|s.ledger|].totalPrice == LinesTotal(s.catalog, Items(s.cart))
    ensures r.page == CheckoutSuccess ==> forall id :: id in s.cart.quantities ==> id in r.shop.catalog && r.shop.catalog[id].stock >= 0
    ensures StockNonNegative(s.catalog) ==> StockNonNegative(r.shop.catalog)
    ensures LedgerBalanced(s.ledger) ==> LedgerBalanced(r.shop.ledger)
  {
    var lines := Items(s.cart);
    if lines == [] then CheckoutReply(s, ProductList, None)
    else
      match FirstBadLine(s.catalog, lines)
      case Some(i) => CheckoutReply(s, CartPage, Some(ErrorFor(s.catalog, lines[i])))
      case None => CheckoutReply(Commit(s), CheckoutSuccess, None)
  }

  /** Repeating the request after a successful checkout finds the cart empty:
      it goes to the product list and records no second sale. */
  lemma RepeatedCheckoutIsNoOp(s: Shop)
    requires Checkout(s).page == CheckoutSuccess
    ensures Checkout(Checkout(s).shop) == CheckoutReply(Checkout(s).shop, ProductList, None)
    ensures |Checkout(Checkout(s).shop).shop.ledger| == |s.ledger| + 1
  {
  }

  /** A cart every entry of which names a listed product and stays within its
      stock always checks out; the stock test can only fail when stock has
      fallen since the entries were added. */
  lemma CheckoutWithinStockSucceeds(s: Shop)
    requires s.cart != EmptyCart
    requires forall id :: id in s.cart.quantities ==> id in s.catalog
    requires CartWithinStock(s.catalog, s.cart)
    ensures Checkout(s).page == CheckoutSuccess
  {
    var lines := Items(s.cart);
    forall i | 0 <= i < |lines|
      ensures Fillable(s.catalog, lines[i])
    {
      assert lines[i].product in s.cart.ids;
    }
  }
}
