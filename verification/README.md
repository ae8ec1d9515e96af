# micro_pos cart and checkout, modelled in Dafny

This project models the cart and checkout logic of a small Django point-of-sale
app (`core/views.py`). It treats the views as pure functions over three pieces
of state:

- the **catalog**: product id → product (name, unit price in cents, stock);
- the **session cart**: an insertion-ordered dictionary from product id to quantity;
- the **sales ledger**: the recorded sales, each with its sale items.

The three views with logic are modelled:

- **add to cart** adds a quantity to a product's cart entry and clamps the result
  to the product's stock. A clamp produces a non-fatal warning.
- **cart detail** lists each entry with its line price and the grand total.
- **checkout** validates every line in cart order, then records one sale with one
  item per line, takes the quantities out of stock and empties the cart.

Checkout is all-or-nothing. The source gets this from a database transaction and
from doing every write after validation. The model returns the original state
unchanged on every path except success.

Files:

- `store.dfy` (module `Store`): the data model, the dictionary operations on the
  cart (`QuantityIn`, `Put`, `Items`) and the sums.
- `cart.dfy` (module `CartViews`): `AddToCart` and `CartDetail`.
- `checkout.dfy` (module `CheckoutView`): validation, sale items, stock update,
  `Commit` and `Checkout`.
- `session.dfy` (module `Session`): any sequence of add and checkout requests,
  and the invariants it keeps.
- `scenario.dfy` (module `Scenario`): a worked example with concrete numbers.

Three behaviours of the code are easy to miss, and the model keeps them:

- The code never checks that the add quantity is at least 1
  (`int(request.POST.get("quantity", 1))`), so the model takes any integer,
  including 0 and negative ones.
- A clamp against a stock of 0 stores an entry of 0, and checkout then sells it:
  the stock test `stock < quantity` passes, and a sale with total 0 is recorded
  (`Scenario.ZeroEntryIsSold`).
- The first line that fails *either* check decides the checkout outcome. A
  product missing from the catalog raises a not-found error. That error is not a
  `ValueError`, so only the catch-all handler sees it, and the user gets the
  generic message. If a missing product comes before a short one in the cart,
  the user sees the generic message.

## Model

| member | source | states |
|---|---|---|
| Store.QuantityIn | core/views.py:26 | The lookup of a product's cart quantity gives the stored value for a key of the cart and 0 for any other product. |
| Store.LinesTotalStep | core/views.py:46-49 | The running total over the first i + 1 lines is the total over the first i lines plus line i's unit price × quantity, as the loop accumulates it. |
| Store.Put | core/views.py:34 | Assigning a cart key stores the quantity under it. Every other key's quantity stays the same. An existing key keeps its place in the order and a new key goes last. |
| Store.Items | core/views.py:46 | The cart's items come out in insertion order, one per key, with no product twice. There are none exactly when the cart is empty. |
| CartViews.AddToCart | core/views.py:16-39 | An unknown product is a 404 and nothing is stored. Otherwise the entry becomes min(old + q, stock), with old = 0 when absent, and it is stored even when that is 0. The warning appears exactly when old + q > stock and names the product and its stock. Other entries and the key order stay as they were, except that a new key is appended. The catalog is only read. |
| CartViews.AddToCartKeepsCartWithinStock | core/views.py:29-34 | After an add, no cart entry exceeds its product's stock if none did before. |
| CartViews.AddToCartAccumulates | core/views.py:26-34 | Adding a then b, with b ≥ 0, leaves the same cart as adding a + b once. |
| CartViews.AddToCartAtStockIsStable | core/views.py:26-34 | Once an entry equals its product's stock, adding q ≥ 0 leaves the cart unchanged. It warns exactly when q > 0. |
| CartViews.ListLines | core/views.py:46-54 | The loop stops with a 404 exactly when some line's product is missing. Otherwise it yields one line per item, in order, each with the current product and price × quantity. Its running total is the sum of those line prices. |
| CartViews.CartDetail | core/views.py:41-60 | Any entry whose product is gone gives a 404. Otherwise there is one line per entry, in cart order, with the current product, the quantity and price × quantity. The total is the sum of the shown line prices, and it equals the amount checkout would charge. |
| CheckoutView.FirstBadLine | core/views.py:78-86 | Validation finds no failing line exactly when every line is `Fillable`: its product exists and its stock is ≥ the quantity (the test at line 81). Otherwise it returns the first failing line in cart order. |
| CheckoutView.ErrorFor | core/views.py:124-129 | A rejected line's product missing from the catalog gives the generic error, and exactly then. A short product gives the stock error carrying that product and its name. |
| CheckoutView.SaleItems | core/views.py:91-96 | There is one sale item per cart line, in cart order, with the line's quantity and the price seen during validation. |
| CheckoutView.ChargedTotalIsItemsTotal | core/views.py:88-89 | The total accumulated over the lines equals the sum of the recorded items' quantity × captured price. |
| CheckoutView.TakeStock | core/views.py:98-100 | Each line's product loses exactly that line's quantity of stock. Names, prices and products outside the cart are unchanged, and no product is added or removed. |
| CheckoutView.ValidatedStockStaysNonNegative | core/views.py:81-99 | After validated lines are taken out, every product in the cart has stock ≥ 0. A catalog whose stock was non-negative stays non-negative. |
| CheckoutView.Commit | core/views.py:102-120 | A commit empties the cart and appends exactly one sale, which balances. Its items match the cart lines and its total is Σ price × quantity. Stock is taken and stays non-negative, and earlier sales are untouched. |
| CheckoutView.Checkout | core/views.py:64-129 | An empty cart leads to the product list with no change, and only an empty cart leads there. A success happens exactly when the cart is non-empty and every line is fillable. A non-empty cart with a failing line always leads to the cart page with an error, and any failure leaves catalog, ledger and cart unchanged. The error comes from the first failing line: a shortage names the product, and a missing product gives the generic error. A success satisfies `Committed`. |
| CheckoutView.RepeatedCheckoutIsNoOp | core/views.py:68-69 | A second checkout after a successful one goes to the product list and records no second sale. |
| CheckoutView.CheckoutWithinStockSucceeds | core/views.py:78-86 | A non-empty cart whose products all exist and whose entries are all within stock always checks out. |
| Session.StepKeepsConsistent | core/views.py:16-129 | One add or checkout request keeps stock non-negative, every sale balanced and the cart within stock. It never alters an earlier sale. |
| Session.RunKeepsConsistent | core/views.py:16-129 | Any sequence of add and checkout requests keeps those invariants, and the ledger only grows. |
| Session.NoShortageWithinOneSession | core/views.py:29-32 | With no other session taking stock, checkout never reports a shortage. Only a missing product can make it fail. |
| Scenario.CheckoutOfTwoLines | core/views.py:71-122 | A: 10.00 with stock 5, and B: 3.50 with stock 2. Checking out 2 of each records one sale of 27.00 with two items. It leaves stock 3 and 0 and an empty cart. |
| Scenario.AddAgainstEmptyStock | core/views.py:26-34 | Adding 1 B against a stock of 0 stores an entry of 0 and warns. |
| Scenario.ZeroEntryIsSold | core/views.py:78-103 | A cart whose only entry is 0 checks out and records a sale of total 0 with one item of quantity 0. |

## Left out

- `product_list`, `checkout_success` and `core/urls.py`: a query, a render and the
  routing, with no logic.
- Rendering, redirects and the messages framework: each view's outcome is a value.
  The redirect target is a `Page` tag. The flash message is a tag carrying the
  product's name and, for the clamp, its stock; the message text is not modelled.
- Session persistence (`request.session`, `modified`): the cart is passed in and
  returned.
- The database transaction and concurrent checkouts from other sessions. Atomicity
  is modelled as "every failure returns the original state". Other sessions are
  not modelled. So `Session.NoShortageWithinOneSession` shows that the stock
  test only matters when stock falls between an add and the checkout.
- Failures of the database writes themselves (`Sale.objects.create`,
  `SaleItem.objects.create`, `save`): the generic error path is reached only
  through a missing product.
- `core/models.py` is not part of this model. Field constraints it may declare,
  such as a positive quantity or a non-negative price, are not modelled.
- Decimal prices are modelled as integer cents, and string session keys as
  integer product ids.
- Parsing the quantity with `int(...)`, and its failure on non-numeric input: the
  quantity is an integer parameter.
- Sale ids and creation timestamps: a sale's identity is its position in the
  ledger.
