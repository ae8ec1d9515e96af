/**
 A worked example: product A at 10.00 with 5 in stock and product B at 3.50
 with 2 in stock (prices in cents), a cart holding 2 of each, a checkout, and
 then one more B added against the stock of 0 that is left.
 */
module Scenario {
  import opened Store
  import CartViews
  import CheckoutView

  const A: ProductId := 1
  const B: ProductId := 2

  function ShopBefore(): Shop {
    Shop(map[A := Product("A", 1000, 5), B := Product("B", 350, 2)], [], CartRep([A, B], map[A := 2, B := 2]))
  }

  lemma ItemsBefore()
    ensures Items(ShopBefore().cart) == [Line(A, 2), Line(B, 2)]
  {
    var lines := Items(ShopBefore().cart);
    assert |lines| == 2 && lines[0] == Line(A, 2) && lines[1] == Line(B, 2);
  }

  /** The checkout succeeds with one sale of 27.00 in two items, leaves 3 of A
      and 0 of B in stock, and empties the cart. */
  lemma CheckoutOfTwoLines()
    ensures CheckoutView.Checkout(ShopBefore()).page == CheckoutView.CheckoutSuccess
    ensures |CheckoutView.Checkout(ShopBefore()).shop.ledger| == 1
    ensures CheckoutView.Checkout(ShopBefore()).shop.ledger[0].totalPrice == 2700
    ensures CheckoutView.Checkout(ShopBefore()).shop.ledger[0].items
         == [SaleItem(A, 2, 1000), SaleItem(B, 2, 350)]
    ensures CheckoutView.Checkout(ShopBefore()).shop.catalog[A].stock == 3
    ensures CheckoutView.Checkout(ShopBefore()).shop.catalog[B].stock == 0
    ensures CheckoutView.Checkout(ShopBefore()).shop.cart == EmptyCart
  {
    var s := ShopBefore();
    var lines := [Line(A, 2), Line(B, 2)];
    ItemsBefore();
    assert CheckoutView.Fillable(s.catalog, lines[0]) && CheckoutView.Fillable(s.catalog, lines[1]);
    assert CheckoutView.AllFillable(s.catalog, lines);
    var r := CheckoutView.Checkout(s);
    assert r.page == CheckoutView.CheckoutSuccess;
    assert r.shop.ledger[0].totalPrice == LinesTotal(s.catalog, lines);
    assert lines[..1] == [Line(A, 2)];
    assert LinesTotal(s.catalog, lines) == 2700;
    var sale := r.shop.ledger[0];
    assert |sale.items| == 2;
    assert sale.items[0] == SaleItem(A, 2, 1000);
    assert sale.items[1] == SaleItem(B, 2, 350);
    assert r.shop.catalog[lines[0].product].stock == 3;
    assert r.shop.catalog[lines[1].product].stock == 0;
  }

  /** Adding one B against a stock of 0 stores an entry of 0 and warns; the
      add still succeeds. */
  lemma AddAgainstEmptyStock()
    ensures var after := CheckoutView.Checkout(ShopBefore()).shop;
            var r := CartViews.AddToCart(after.catalog, after.cart, B, 1);
            r.Ok? && r.value.cart == CartRep([B], map[B := 0])
            && r.value.warning == Some(CartViews.StockLimited("B", 0))
  {
    CheckoutOfTwoLines();
    var after := CheckoutView.Checkout(ShopBefore()).shop;
    ItemsBefore();
    assert B in after.catalog && after.catalog[B].name == "B";
    var r := CartViews.AddToCart(after.catalog, after.cart, B, 1);
    assert r.value.cart.ids == [B];
    assert r.value.cart.quantities == map[B := 0];
  }

  /** A cart whose only entry was cut down to 0 still checks out: the stock
      test passes, and a sale with a total of 0 and one item of quantity 0 is
      recorded. */
  lemma ZeroEntryIsSold()
    ensures var s := Shop(map[B := Product("B", 350, 0)], [], CartRep([B], map[B := 0]));
            var r := CheckoutView.Checkout(s);
            r.page == CheckoutView.CheckoutSuccess
            && r.shop.ledger == [Sale(0, [SaleItem(B, 0, 350)])]
  {
    var s := Shop(map[B := Product("B", 350, 0)], [], CartRep([B], map[B := 0]));
    var lines := Items(s.cart);
    assert |lines| == 1 && lines[0] == Line(B, 0);
    assert lines == [Line(B, 0)];
    assert CheckoutView.AllFillable(s.catalog, lines);
    var r := CheckoutView.Checkout(s);
    assert r.page == CheckoutView.CheckoutSuccess;
    var sale := r.shop.ledger[0];
    assert sale.items == [SaleItem(B, 0, 350)];
    assert sale.totalPrice == LinesTotal(s.catalog, lines);
    assert lines[..0] == [];
    assert LinesTotal(s.catalog, lines) == 0;
    assert r.shop.ledger == [sale];
  }
}
