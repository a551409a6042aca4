/** The product page: which product the route shows (or "not found"), the
    quantity stepper that never goes below 1, and the "you may also like"
    selection of at most four products of the same category. */
module ProductDetail {
  import opened Wrappers
  import Seqs
  import opened Text
  import opened Catalog

  /** The product for the route parameter; None selects the "Product Not Found" page.
      A missing or empty parameter is falsy and looks nothing up. */
  function ProductForRoute(catalog: seq<Product>, id: Option<string>): (r: Option<Product>)
    ensures r.Some? ==> Truthy(id) && r.value.id == id.value && r.value in catalog
    ensures r.None? <==> !Truthy(id) || forall i :: 0 <= i < |catalog| ==> catalog[i].id != id.value
    ensures forall i :: (0 <= i < |catalog| && Truthy(id) && catalog[i].id == id.value &&
                         (forall j :: 0 <= j < i ==> catalog[j].id != id.value)) ==> r == Some(catalog[i])
  {
    if Truthy(id) then ProductById(catalog, id.value) else None
  }

  /** The quantity the page opens with. */
  const InitialQuantity: int := 1

  /** The stepper's two buttons. */
  datatype StepperButton = Minus | Plus

  /** One press: minus is `Math.max(1, q - 1)`, plus is `q + 1`; both buttons
      are disabled for a product that is out of stock. */
  function Press(q: int, inStock: bool, b: StepperButton): (r: int)
    ensures !inStock ==> r == q
    ensures inStock && b == Plus ==> r == q + 1
    ensures inStock && b == Minus ==> r >= 1 && (q > 1 ==> r == q - 1) && (q <= 1 ==> r == 1)
  {
    if !inStock then q
    else match b
      case Minus => if q - 1 > 1 then q - 1 else 1
      case Plus => q + 1
  }

  /** The quantity after a sequence of presses. */
  function PressAll(q: int, inStock: bool, bs: seq<StepperButton>): int
    decreases |bs|
  {
    if bs == [] then q else PressAll(Press(q, inStock, bs[0]), inStock, bs[1..])
  }

  /** Starting from a quantity of at least 1, no sequence of presses brings it
      below 1, and it grows by at most one per press. */
  lemma {:induction false} QuantityStaysPositive(q: int, inStock: bool, bs: seq<StepperButton>)
    requires q >= 1
    ensures 1 <= PressAll(q, inStock, bs) <= q + |bs|
    decreases |bs|
  {
    if bs != [] {
      QuantityStaysPositive(Press(q, inStock, bs[0]), inStock, bs[1..]);
    }
  }

  /** From the opening quantity, no sequence of presses brings the stepper below 1. */
  lemma StepperFromOpening(inStock: bool, bs: seq<StepperButton>)
    ensures 1 <= PressAll(InitialQuantity, inStock, bs) <= InitialQuantity + |bs|
  {
    QuantityStaysPositive(InitialQuantity, inStock, bs);
  }

  /** The stepper of an out-of-stock product never moves. */
  lemma {:induction false} OutOfStockQuantityFixed(q: int, bs: seq<StepperButton>)
    ensures PressAll(q, false, bs) == q
    decreases |bs|
  {
    if bs != [] {
      OutOfStockQuantityFixed(q, bs[1..]);
    }
  }

  /** The products eligible as related: same category, another id. */
  predicate IsRelated(shown: Product, p: Product)
  {
    p.category == shown.category && p.id != shown.id
  }

  function RelatedTo(shown: Product): Product -> bool
  {
    (p: Product) => IsRelated(shown, p)
  }

  /** Every catalog product related to `shown`, in catalog order. */
  function Candidates(catalog: seq<Product>, shown: Product): seq<Product>
  {
    Seqs.Filter(catalog, RelatedTo(shown))
  }

  /** `relatedProducts`: the first four candidates. */
  function RelatedProducts(catalog: seq<Product>, shown: Product): (r: seq<Product>)
    ensures |r| <= 4
    ensures forall i :: 0 <= i < |r| ==> r[i].category == shown.category && r[i].id != shown.id
    ensures forall i :: 0 <= i < |r| ==> r[i] in catalog
    ensures r <= Candidates(catalog, shown)
    ensures |Candidates(catalog, shown)| <= 4 ==> r == Candidates(catalog, shown)
    ensures |Candidates(catalog, shown)| > 4 ==> |r| == 4
  {
    var all := Candidates(catalog, shown);
    Seqs.FilterMembers(catalog, RelatedTo(shown));
    if |all| <= 4 then all else all[..4]
  }

  /** The shown product is never among its own related products. */
  lemma ShownNotRelated(catalog: seq<Product>, shown: Product)
    ensures shown !in RelatedProducts(catalog, shown)
  {
  }

  /** The related products are an order-preserving selection from the catalog. */
  lemma {:induction false} RelatedKeepCatalogOrder(catalog: seq<Product>, shown: Product)
    ensures Seqs.IsSubsequence(RelatedProducts(catalog, shown), catalog)
  {
    var all := Candidates(catalog, shown);
    Seqs.FilterIsSubsequence(catalog, RelatedTo(shown));
    if |all| > 4 {
      Seqs.PrefixOfSubsequence(all[..4], all, catalog);
    }
  }

  /** On the fixtures, the laptop's related products are the headphones and the watch. */
  lemma LaptopRelated()
    ensures RelatedProducts(Products, Laptop) == [Headphones, SmartWatch]
  {
    var keep := RelatedTo(Laptop);
    var tail := [CoffeeMaker, FloorLamp, LoungeChair, DiningTable, TShirt];
    Seqs.FilterEmptyIff(tail, keep);
    assert Seqs.Filter(tail, keep) == [];
    assert ([SmartWatch] + tail)[1..] == tail;
    assert Seqs.Filter([SmartWatch] + tail, keep) == [SmartWatch];
    assert ([Headphones, SmartWatch] + tail)[1..] == [SmartWatch] + tail;
    assert Seqs.Filter([Headphones, SmartWatch] + tail, keep) == [Headphones, SmartWatch];
    assert Products == [Laptop, Headphones, SmartWatch] + tail;
    assert ([Laptop, Headphones, SmartWatch] + tail)[1..] == [Headphones, SmartWatch] + tail;
  }
}
