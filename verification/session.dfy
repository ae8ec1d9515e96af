/**
 One browser session driving the views in turn: any sequence of add-to-cart
 and checkout requests keeps stock non-negative, every recorded sale balanced,
 the cart within stock and the ledger append-only.
 */
module Session {
  import opened Store
  import CartViews
  import CheckoutView

  /** The requests that change state; the list and cart pages only read it. */
  datatype Request = AddToCart(product: ProductId, quantity: int) | Checkout

  /** The state after one request: an add to an unknown product (a 404) keeps
      the session as it was. */
  function Step(s: Shop, req: Request): Shop
  {
    match req
    case AddToCart(id, q) =>
      (match CartViews.AddToCart(s.catalog, s.cart, id, q)
       case Ok(added) => s.(cart := added.cart)
       case Err(_) => s)
    case Checkout => CheckoutView.Checkout(s).shop
  }

  function Run(s: Shop, reqs: seq<Request>): Shop
    decreases |reqs|
  {
    if reqs == [] then s else Run(Step(s, reqs[0]), reqs[1..])
  }

  predicate Consistent(s: Shop) {
    && StockNonNegative(s.catalog)
    && LedgerBalanced(s.ledger)
    && CartWithinStock(s.catalog, s.cart)
  }

  /** The old ledger is a prefix of the new one. */
  predicate LedgerExtends(before: Ledger, after: Ledger) {
    |before| <= |after| && after[..|before|] == before
  }

  lemma StepKeepsConsistent(s: Shop, req: Request)
    requires Consistent(s)
    ensures Consistent(Step(s, req))
    ensures LedgerExtends(s.ledger, Step(s, req).ledger)
  {
    match req
    case AddToCart(id, q) =>
      if id in s.catalog {
        CartViews.AddToCartKeepsCartWithinStock(s.catalog, s.cart, id, q);
      }
    case Checkout =>
  }

  /** Whatever requests arrive, a consistent shop stays consistent and no
      recorded sale is ever changed or removed. */
  lemma {:induction false} RunKeepsConsistent(s: Shop, reqs: seq<Request>)
    requires Consistent(s)
    ensures Consistent(Run(s, reqs))
    ensures LedgerExtends(s.ledger, Run(s, reqs).ledger)
    decreases |reqs|
  {
    if reqs != [] {
      var next := Step(s, reqs[0]);
      StepKeepsConsistent(s, reqs[0]);
      RunKeepsConsistent(next, reqs[1..]);
      var final := Run(next, reqs[1..]).ledger;
      assert final[..|s.ledger|] == next.ledger[..|s.ledger|];
    }
  }

  /** With no other session taking stock, checkout can fail only because a
      product has gone from the catalog, never for a stock shortage: every
      entry was already cut down to its stock when it was added. */
  lemma NoShortageWithinOneSession(s: Shop)
    requires Consistent(s)
    ensures CheckoutView.Checkout(s).error.Some? ==> CheckoutView.Checkout(s).error.value == CheckoutView.Unexpected
  {
    var r := CheckoutView.Checkout(s);
    if r.error.Some? {
      var lines := Items(s.cart);
      var i :| CheckoutView.FirstUnfillable(s.catalog, lines, i) && r.error.value == CheckoutView.ErrorFor(s.catalog, lines[i]);
      assert lines[i].product in s.cart.ids;
    }
  }
}
