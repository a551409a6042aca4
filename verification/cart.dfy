/** The cart ledger: a sequence of (productId, quantity) lines with three
    updates (set a quantity, remove a product, clear) and the derived money
    figures (subtotal, shipping, tax, total). */
module Cart {
  import opened Wrappers
  import Seqs
  import opened Catalog
  import Pricing

  type Ledger = seq<LineItem>

  /** The cart the page starts with. */
  const InitialCart: Ledger := [LineItem("1", 1), LineItem("4", 2)]

  /** Every line carries a positive quantity. */
  predicate WellFormed(cart: Ledger)
  {
    forall i :: 0 <= i < |cart| ==> cart[i].quantity > 0
  }

  /** The lines of `cart` for product `id`, in cart order. */
  function LinesFor(cart: Ledger, id: string): seq<LineItem>
  {
    Seqs.Filter(cart, (l: LineItem) => l.productId == id)
  }

  /** `removeItem`: drops every line for `id`. */
  function RemoveItem(cart: Ledger, id: string): (r: Ledger)
    ensures forall i :: 0 <= i < |r| ==> r[i].productId != id
    ensures forall i :: 0 <= i < |cart| && cart[i].productId != id ==> cart[i] in r
    ensures Seqs.IsSubsequence(r, cart)
    ensures WellFormed(cart) ==> WellFormed(r)
  {
    var keep := (l: LineItem) => l.productId != id;
    Seqs.FilterMembers(cart, keep);
    Seqs.FilterIsSubsequence(cart, keep);
    Seqs.Filter(cart, keep)
  }

  /** The `map` branch of `updateQuantity`: every line for `id` gets quantity `q`. */
  function SetQuantity(cart: Ledger, id: string, q: int): (r: Ledger)
    ensures |r| == |cart|
    ensures forall i :: 0 <= i < |cart| ==> r[i].productId == cart[i].productId
    ensures forall i :: 0 <= i < |cart| && cart[i].productId == id ==> r[i].quantity == q
    ensures forall i :: 0 <= i < |cart| && cart[i].productId != id ==> r[i] == cart[i]
  {
    if cart == [] then []
    else
      var line := if cart[0].productId == id then LineItem(cart[0].productId, q) else cart[0];
      [line] + SetQuantity(cart[1..], id, q)
  }

  /** `updateQuantity`: a quantity of zero or less removes the product, a
      positive one overwrites it in place; it never inserts a line. */
  function UpdateQuantity(cart: Ledger, id: string, q: int): (r: Ledger)
    ensures q <= 0 ==> forall i :: 0 <= i < |r| ==> r[i].productId != id
    ensures q <= 0 ==> Seqs.IsSubsequence(r, cart)
    ensures q <= 0 ==> forall i :: 0 <= i < |cart| && cart[i].productId != id ==> cart[i] in r
    ensures q > 0 ==> |r| == |cart|
    ensures q > 0 ==> forall i :: 0 <= i < |cart| ==>
      r[i].productId == cart[i].productId &&
      r[i].quantity == (if cart[i].productId == id then q else cart[i].quantity)
    ensures (forall i :: 0 <= i < |cart| ==> cart[i].productId != id) ==> (q > 0 ==> r == cart)
    ensures WellFormed(cart) ==> WellFormed(r)
  {
    if q <= 0 then RemoveItem(cart, id) else SetQuantity(cart, id, q)
  }

  /** `clearCart`: the empty ledger, whatever came before. */
  function ClearCart(cart: Ledger): (r: Ledger)
    ensures forall id :: LinesFor(r, id) == []
  {
    []
  }

  /** The minus button of a displayed line: one less, which removes the line at 1. */
  function DecrementLine(cart: Ledger, i: nat): (r: Ledger)
    requires i < |cart|
    ensures cart[i].quantity <= 1 ==> forall j :: 0 <= j < |r| ==> r[j].productId != cart[i].productId
    ensures cart[i].quantity <= 1 ==> forall j :: 0 <= j < |cart| && cart[j].productId != cart[i].productId ==> cart[j] in r
    ensures cart[i].quantity > 1 ==> |r| == |cart| && r[i].quantity == cart[i].quantity - 1
    ensures cart[i].quantity > 1 ==> forall j :: 0 <= j < |cart| ==>
      r[j].productId == cart[j].productId && (cart[j].productId != cart[i].productId ==> r[j] == cart[j])
  {
    UpdateQuantity(cart, cart[i].productId, cart[i].quantity - 1)
  }

  /** The plus button of a displayed line: one more, in place. */
  function IncrementLine(cart: Ledger, i: nat): (r: Ledger)
    requires i < |cart|
    requires cart[i].quantity >= 0
    ensures |r| == |cart| && r[i].quantity == cart[i].quantity + 1
    ensures forall j :: 0 <= j < |cart| ==>
      r[j].productId == cart[j].productId && (cart[j].productId != cart[i].productId ==> r[j] == cart[j])
  {
    UpdateQuantity(cart, cart[i].productId, cart[i].quantity + 1)
  }

  /** Removing a product and updating a quantity leave the lines of every other product as they were. */
  lemma {:induction false} UpdateLeavesOtherProducts(cart: Ledger, id: string, q: int, k: string)
    requires k != id
    ensures LinesFor(UpdateQuantity(cart, id, q), k) == LinesFor(cart, k)
    ensures LinesFor(RemoveItem(cart, id), k) == LinesFor(cart, k)
  {
    Seqs.FilterNarrowing(cart, (l: LineItem) => l.productId != id, (l: LineItem) => l.productId == k);
    if q > 0 {
      SetQuantityLeavesOtherProducts(cart, id, q, k);
    }
  }

  lemma {:induction false} SetQuantityLeavesOtherProducts(cart: Ledger, id: string, q: int, k: string)
    requires k != id
    ensures LinesFor(SetQuantity(cart, id, q), k) == LinesFor(cart, k)
  {
    if cart != [] {
      SetQuantityLeavesOtherProducts(cart[1..], id, q, k);
      var r := SetQuantity(cart, id, q);
      assert r[1..] == SetQuantity(cart[1..], id, q);
    }
  }

  /** Removing a product twice is removing it once. */
  lemma RemoveItemIdempotent(cart: Ledger, id: string)
    ensures RemoveItem(RemoveItem(cart, id), id) == RemoveItem(cart, id)
  {
    Seqs.FilterIdempotent(cart, (l: LineItem) => l.productId != id);
  }

  /** Sum of the line totals; a line whose product is unknown adds 0. */
  function Subtotal(catalog: seq<Product>, cart: Ledger): (r: real)
    ensures ResolvedItems(catalog, cart) == [] ==> r == 0.0
  {
    if cart == [] then 0.0 else LineTotal(catalog, cart[0]) + Subtotal(catalog, cart[1..])
  }

  /** The lines the page draws: those whose product resolves. */
  function DisplayedLines(catalog: seq<Product>, cart: Ledger): seq<LineItem>
  {
    ResolvedItems(catalog, cart)
  }

  /** Lines whose product is unknown contribute nothing: the subtotal is the subtotal of the drawn lines. */
  lemma {:induction false} UnknownLinesContributeNothing(catalog: seq<Product>, cart: Ledger)
    ensures Subtotal(catalog, cart) == Subtotal(catalog, DisplayedLines(catalog, cart))
  {
    if cart != [] {
      UnknownLinesContributeNothing(catalog, cart[1..]);
      if Resolves(catalog, cart[0]) {
        var d := DisplayedLines(catalog, cart);
        assert d[0] == cart[0] && d[1..] == DisplayedLines(catalog, cart[1..]);
      }
    }
  }

  /** Every price in the catalog is positive. */
  predicate PositivePrices(catalog: seq<Product>)
  {
    forall i :: 0 <= i < |catalog| ==> catalog[i].price > 0.0
  }

  /** A line with a positive quantity costs something exactly when its product resolves. */
  lemma LineTotalSign(catalog: seq<Product>, line: LineItem)
    requires PositivePrices(catalog) && line.quantity > 0
    ensures LineTotal(catalog, line) >= 0.0
    ensures LineTotal(catalog, line) > 0.0 <==> Resolves(catalog, line)
  {
    if Resolves(catalog, line) {
      ResolvedLineCosts(catalog, line);
    }
  }

  lemma ResolvedLineCosts(catalog: seq<Product>, line: LineItem)
    requires PositivePrices(catalog) && line.quantity > 0 && Resolves(catalog, line)
    ensures LineTotal(catalog, line) > 0.0
  {
    var p := ProductById(catalog, line.productId).value;
    ListedPricePositive(catalog, p);
    PositiveTimesAtLeastOne(p.price, line.quantity as real);
  }

  lemma ListedPricePositive(catalog: seq<Product>, p: Product)
    requires PositivePrices(catalog) && p in catalog
    ensures p.price > 0.0
  {
    var i :| 0 <= i < |catalog| && catalog[i] == p;
  }

  lemma PositiveTimesAtLeastOne(a: real, b: real)
    requires a > 0.0 && b >= 1.0
    ensures a * b > 0.0
  {
    assert a * b == a + a * (b - 1.0);
  }

  /** With positive prices and quantities, the subtotal is never negative, and
      it is positive exactly when some line's product resolves. */
  lemma {:induction false} SubtotalPositiveIffResolvedLine(catalog: seq<Product>, cart: Ledger)
    requires PositivePrices(catalog) && WellFormed(cart)
    ensures Subtotal(catalog, cart) >= 0.0
    ensures Subtotal(catalog, cart) > 0.0 <==> exists i :: 0 <= i < |cart| && Resolves(catalog, cart[i])
  {
    if cart != [] {
      var rest := cart[1..];
      SubtotalPositiveIffResolvedLine(catalog, rest);
      LineTotalSign(catalog, cart[0]);
      if exists i :: 0 <= i < |cart| && Resolves(catalog, cart[i]) {
        var i :| 0 <= i < |cart| && Resolves(catalog, cart[i]);
        if i > 0 {
          assert rest[i - 1] == cart[i];
        }
      }
      if exists i :: 0 <= i < |rest| && Resolves(catalog, rest[i]) {
        var i :| 0 <= i < |rest| && Resolves(catalog, rest[i]);
        assert cart[i + 1] == rest[i];
      }
    }
  }

  /** The four figures of the order summary. */
  datatype Totals = Totals(subtotal: real, shipping: real, tax: real, total: real)

  /** Summary figures for a subtotal: shipping only when something is bought, 7% tax. */
  function Summarize(subtotal: real): (t: Totals)
    ensures t.subtotal == subtotal
    ensures t.shipping == (if subtotal > 0.0 then Pricing.ShippingFee else 0.0)
    ensures t.tax == Pricing.TaxRate * subtotal
    ensures t.total == t.subtotal + t.shipping + t.tax
    ensures subtotal > 0.0 ==> t.total == (1.0 + Pricing.TaxRate) * subtotal + Pricing.ShippingFee
    ensures subtotal <= 0.0 ==> t.total == (1.0 + Pricing.TaxRate) * subtotal
  {
    var shipping := if subtotal > 0.0 then Pricing.ShippingFee else 0.0;
    var tax := subtotal * Pricing.TaxRate;
    Totals(subtotal, shipping, tax, subtotal + shipping + tax)
  }

  /** The cart page's summary. */
  function CartTotals(catalog: seq<Product>, cart: Ledger): (t: Totals)
    ensures t.subtotal == Subtotal(catalog, cart)
    ensures t == Summarize(t.subtotal)
    ensures t.shipping == Pricing.ShippingFee ==> t.total == (1.0 + Pricing.TaxRate) * t.subtotal + Pricing.ShippingFee
    ensures t.shipping == 0.0 ==> t.total == (1.0 + Pricing.TaxRate) * t.subtotal
  {
    Summarize(Subtotal(catalog, cart))
  }

  /** Shipping is charged exactly when some line's product resolves, and the
      total then exceeds the subtotal by the tax plus the fee. */
  lemma ShippingChargedIffResolvedLine(catalog: seq<Product>, cart: Ledger)
    requires PositivePrices(catalog) && WellFormed(cart)
    ensures CartTotals(catalog, cart).shipping == Pricing.ShippingFee <==>
            exists i :: 0 <= i < |cart| && Resolves(catalog, cart[i])
    ensures CartTotals(catalog, cart).total >= CartTotals(catalog, cart).subtotal
  {
    SubtotalPositiveIffResolvedLine(catalog, cart);
  }

  /** After `clearCart` every figure of the summary is 0. */
  lemma ClearedCartTotalsZero(catalog: seq<Product>, cart: Ledger)
    ensures CartTotals(catalog, ClearCart(cart)) == Totals(0.0, 0.0, 0.0, 0.0)
  {
  }

  /** The initial cart over the fixture catalog: 1299.99 + 2 * 129.99. */
  lemma InitialCartSubtotal()
    ensures Subtotal(Products, InitialCart) == 1559.97
  {
    FixtureIdsUnique();
    LookupFindsListed(Products, 0);
    LookupFindsListed(Products, 3);
    var rest := InitialCart[1..];
    assert rest[1..] == [];
    assert LineTotal(Products, InitialCart[0]) == 1299.99;
    assert LineTotal(Products, rest[0]) == 259.98;
    assert Subtotal(Products, rest) == 259.98 + Subtotal(Products, []);
    assert Subtotal(Products, InitialCart) == 1299.99 + Subtotal(Products, rest);
  }

  /** The summary of the initial cart over the fixture catalog. */
  lemma InitialCartTotals()
    ensures CartTotals(Products, InitialCart) == Totals(1559.97, 5.99, 109.1979, 1675.1579)
  {
    InitialCartSubtotal();
  }
}
