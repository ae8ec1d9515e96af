/**
 The state the shop's views work on: the product catalog, the session cart and
 the sales ledger, with the lookups, updates and sums that more than one view
 needs. Prices are whole cents, so every amount is an exact integer.
 */
module Store {

  datatype Option<T> = None | Some(value: T)

  /** The outcome of a view that can fail: a value, or the error it reports. */
  datatype Result<T, E> = Ok(value: T) | Err(error: E)

  type ProductId = int

  /** A catalog row. Stock is an `int` so that "stock never goes negative" is
      something the model proves rather than something its types assume. */
  datatype Product = Product(name: string, price: int, stock: int)

  type Catalog = map<ProductId, Product>

  /** One cart entry: a product id and the quantity requested for it. */
  datatype Line = Line(product: ProductId, quantity: int)

  /** The session cart, an insertion-ordered dictionary from product id to
      quantity: `ids` lists its keys in insertion order, `quantities` maps each
      key to its value. */
  datatype CartRep = CartRep(ids: seq<ProductId>, quantities: map<ProductId, int>)

  /** A dictionary's keys are distinct, and its ordered keys are exactly the keys
      of its mapping. */
  ghost predicate IsDictionary(c: CartRep) {
    && (forall i, j :: 0 <= i < j < |c.ids| ==> c.ids[i] != c.ids[j])
    && (forall id :: id in c.quantities <==> id in c.ids)
  }

  type Cart = c: CartRep | IsDictionary(c) witness CartRep([], map[])

  const EmptyCart: Cart := CartRep([], map[])

  /** One line of a recorded sale, with the unit price captured when it was sold. */
  datatype SaleItem = SaleItem(product: ProductId, quantity: int, priceAtSale: int)

  datatype Sale = Sale(totalPrice: int, items: seq<SaleItem>)

  /** Recorded sales, oldest first; checkout only ever appends to it. */
  type Ledger = seq<Sale>

  datatype Shop = Shop(catalog: Catalog, ledger: Ledger, cart: Cart)

  /** No two lines name the same product. */
  predicate DistinctIds(lines: seq<Line>) {
    forall i, j :: 0 <= i < j < |lines| ==> lines[i].product != lines[j].product
  }

  /** Every line names a product of the catalog. */
  predicate AllListed(catalog: Catalog, lines: seq<Line>) {
    forall i :: 0 <= i < |lines| ==> lines[i].product in catalog
  }

  /** No entry of the cart asks for more than its product's stock. */
  predicate CartWithinStock(catalog: Catalog, cart: Cart) {
    forall id :: id in cart.quantities && id in catalog ==> cart.quantities[id] <= catalog[id].stock
  }

  predicate StockNonNegative(catalog: Catalog) {
    forall id :: id in catalog ==> catalog[id].stock >= 0
  }

  /** The quantity the cart holds for `id`, or 0 when it has no entry for it
      (the dictionary lookup with a default). */
  function QuantityIn(cart: Cart, id: ProductId): (q: int)
    ensures id !in cart.ids ==> q == 0
    ensures id in cart.ids ==> q == cart.quantities[id]
  {
    if id in cart.quantities then cart.quantities[id] else 0
  }

  /** Stores `q` under `id`: an existing key keeps its place in the order, a
      new one goes last, as a dictionary assignment does. */
  function Put(cart: Cart, id: ProductId, q: int): (r: Cart)
    ensures id in r.quantities && r.quantities[id] == q
    ensures forall other :: other != id ==> QuantityIn(r, other) == QuantityIn(cart, other)
    ensures r.ids == if id in cart.quantities then cart.ids else cart.ids + [id]
  {
    var r := CartRep(if id in cart.quantities then cart.ids else cart.ids + [id], cart.quantities[id := q]);
    assert forall k :: k in r.quantities <==> k in r.ids;
    r
  }

  /** The cart's entries in insertion order, as the dictionary's item view
      yields them. */
  function Items(cart: Cart): (lines: seq<Line>)
    ensures |lines| == |cart.ids|
    ensures forall i :: 0 <= i < |lines| ==> lines[i].product == cart.ids[i] && lines[i].quantity == QuantityIn(cart, cart.ids[i])
    ensures DistinctIds(lines)
    ensures lines == [] <==> cart == EmptyCart
  {
    assert forall i :: 0 <= i < |cart.ids| ==> cart.ids[i] in cart.ids;
    assert cart.ids == [] ==> cart.quantities == map[] by {
      if cart.ids == [] {
        assert forall id :: id !in cart.quantities;
      }
    }
    seq(|cart.ids|, i requires 0 <= i < |cart.ids| => Line(cart.ids[i], cart.quantities[cart.ids[i]]))
  }

  /** The amount one line costs at the catalog's current price. */
  function LinePrice(catalog: Catalog, line: Line): int
    requires line.product in catalog
  {
    catalog[line.product].price * line.quantity
  }

  /** The sum of the line prices of a sequence of lines, accumulated in order. */
  function LinesTotal(catalog: Catalog, lines: seq<Line>): int
    requires AllListed(catalog, lines)
  {
    if lines == [] then 0
    else LinesTotal(catalog, lines[..|lines| - 1]) + LinePrice(catalog, lines[|lines| - 1])
  }

  /** The cart's items all name listed products exactly when every key of the
      cart does. */
  lemma ListedItems(catalog: Catalog, cart: Cart)
    ensures AllListed(catalog, Items(cart)) <==> forall id :: id in cart.quantities ==> id in catalog
  {
    var lines := Items(cart);
    if AllListed(catalog, lines) {
      forall id | id in cart.quantities
        ensures id in catalog
      {
        var k :| 0 <= k < |cart.ids| && cart.ids[k] == id;
        assert lines[k].product == id;
      }
    }
    if forall id :: id in cart.quantities ==> id in catalog {
      forall i | 0 <= i < |lines|
        ensures lines[i].product in catalog
      {
        assert cart.ids[i] in cart.ids;
      }
    }
  }

  /** Extending the lines by one adds that line's price to their total. */
  lemma LinesTotalStep(catalog: Catalog, lines: seq<Line>, i: int)
    requires 0 <= i < |lines|
    requires AllListed(catalog, lines[..i + 1])
    ensures AllListed(catalog, lines[..i])
    ensures LinesTotal(catalog, lines[..i + 1]) == LinesTotal(catalog, lines[..i]) + LinePrice(catalog, lines[i])
  {
    assert lines[..i + 1][..i] == lines[..i];
  }

  /** The sum of quantity times captured price over a sale's items. */
  function ItemsTotal(items: seq<SaleItem>): int
  {
    if items == [] then 0
    else ItemsTotal(items[..|items| - 1]) + items[|items| - 1].quantity * items[|items| - 1].priceAtSale
  }

  /** A sale's recorded total is the sum of its items' subtotals. */
  predicate SaleBalanced(sale: Sale) {
    sale.totalPrice == ItemsTotal(sale.items)
  }

  predicate LedgerBalanced(ledger: Ledger) {
    forall k :: 0 <= k < |ledger| ==> SaleBalanced(ledger[k])
  }
}
