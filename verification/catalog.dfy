/** The static store: products, categories and orders, the four-valued order
    status, the fixture arrays and the two first-match lookups by id. */
module Catalog {
  import opened Wrappers
  import Seqs

  datatype Product = Product(
    id: string,
    name: string,
    category: string,
    price: real,
    image: string,
    description: string,
    rating: real,
    inStock: bool)

  datatype Category = Category(id: string, name: string, image: string)

  /** The status of an order: a closed union of exactly four cases. */
  datatype Status = Processing | Shipped | Delivered | Cancelled

  /** One (productId, quantity) line: an item of an order, or a line of the cart. */
  datatype LineItem = LineItem(productId: string, quantity: int)

  datatype Order = Order(
    id: string,
    date: string,
    status: Status,
    total: real,
    items: seq<LineItem>,
    trackingNumber: Option<string>,
    estimatedDelivery: Option<string>)

  /** The literal a status is written as in the data. */
  function StatusName(s: Status): string
  {
    match s
    case Processing => "processing"
    case Shipped => "shipped"
    case Delivered => "delivered"
    case Cancelled => "cancelled"
  }

  /** Reads a status literal; anything outside the union is rejected. */
  function ParseStatus(name: string): (r: Option<Status>)
    ensures r.Some? ==> StatusName(r.value) == name
  {
    if name == "processing" then Some(Processing)
    else if name == "shipped" then Some(Shipped)
    else if name == "delivered" then Some(Delivered)
    else if name == "cancelled" then Some(Cancelled)
    else None
  }

  /** Every status reads back from its own literal, so the union is exactly the four cases. */
  lemma ParseStatusRoundTrip(s: Status)
    ensures ParseStatus(StatusName(s)) == Some(s)
  {
  }

  // The fixture products, one constant each.
  const Laptop: Product :=
    Product("1", "Modern Laptop Pro", "electronics", 1299.99,
      "https://images.unsplash.com/photo-1496181133206-80ce9b88a853?q=80&w=500",
      "High-performance laptop with the latest technology for professionals.", 4.8, true)
  const Headphones: Product :=
    Product("2", "Wireless Noise-Cancelling Headphones", "electronics", 249.99,
      "https://images.unsplash.com/photo-1505740420928-5e560c06d30e?q=80&w=500",
      "Premium headphones with active noise cancellation for immersive sound experience.", 4.6, true)
  const SmartWatch: Product :=
    Product("3", "Smart Watch Series 5", "electronics", 349.99,
      "https://images.unsplash.com/photo-1579586337278-3befd40fd17a?q=80&w=500",
      "Advanced smartwatch with health tracking, GPS and smartphone connectivity.", 4.5, true)
  const CoffeeMaker: Product :=
    Product("4", "Premium Coffee Maker", "home", 129.99,
      "https://images.unsplash.com/photo-1510017803434-a899398421b3?q=80&w=500",
      "Programmable coffee maker that brews the perfect cup every time.", 4.4, true)
  const FloorLamp: Product :=
    Product("5", "Modern Floor Lamp", "home", 89.99,
      "https://images.unsplash.com/photo-1513506003901-1e6a229e2d15?q=80&w=500",
      "Elegant floor lamp with adjustable brightness for your living space.", 4.3, true)
  const LoungeChair: Product :=
    Product("6", "Cotton Lounge Chair", "furniture", 499.99,
      "https://images.unsplash.com/photo-1598300042247-d088f8ab3a91?q=80&w=500",
      "Comfortable lounge chair with ergonomic design and premium materials.", 4.7, false)
  const DiningTable: Product :=
    Product("7", "Designer Dining Table", "furniture", 799.99,
      "https://images.unsplash.com/photo-1577140917170-285929fb55b7?q=80&w=500",
      "Modern dining table that seats up to 6 people, perfect for family gatherings.", 4.5, true)
  const TShirt: Product :=
    Product("8", "Casual Cotton T-Shirt", "clothing", 29.99,
      "https://images.unsplash.com/photo-1521572163474-6864f9cf17ab?q=80&w=500",
      "Comfortable cotton t-shirt, perfect for everyday wear.", 4.2, true)

  /** The fixture catalog, in listing order. */
  const Products: seq<Product> :=
    [Laptop, Headphones, SmartWatch, CoffeeMaker, FloorLamp, LoungeChair, DiningTable, TShirt]

  const Categories: seq<Category> := [
    Category("electronics", "Electronics",
             "https://images.unsplash.com/photo-1526738549149-8e07eca6c147?q=80&w=500"),
    Category("home", "Home & Kitchen",
             "https://images.unsplash.com/photo-1551298370-9d3d53740c72?q=80&w=500"),
    Category("furniture", "Furniture",
             "https://images.unsplash.com/photo-1555041469-a586c61ea9bc?q=80&w=500"),
    Category("clothing", "Clothing",
             "https://images.unsplash.com/photo-1523381294911-8d3cead13475?q=80&w=500")
  ]

  const Orders: seq<Order> := [
    Order("ORD-12345", "2025-03-25", Delivered, 1549.98,
          [LineItem("1", 1), LineItem("2", 1)], Some("TRK123456789"), Some("2025-03-28")),
    Order("ORD-12346", "2025-04-01", Shipped, 349.99,
          [LineItem("3", 1)], Some("TRK987654321"), Some("2025-04-08")),
    Order("ORD-12347", "2025-04-03", Processing, 219.98,
          [LineItem("4", 1), LineItem("8", 3)], None, None)
  ]

  /** `getProductById` over a catalog: the first product carrying `id`, if any. */
  function ProductById(catalog: seq<Product>, id: string): (r: Option<Product>)
    ensures r.Some? ==> r.value.id == id && r.value in catalog
    ensures r.None? <==> forall i :: 0 <= i < |catalog| ==> catalog[i].id != id
    ensures forall i :: 0 <= i < |catalog| && catalog[i].id == id && (forall j :: 0 <= j < i ==> catalog[j].id != id) ==>
      r == Some(catalog[i])
  {
    Seqs.Find(catalog, (p: Product) => p.id == id)
  }

  /** `getOrderById` over an order list: the first order carrying `id`, if any. */
  function OrderById(orders: seq<Order>, id: string): (r: Option<Order>)
    ensures r.Some? ==> r.value.id == id && r.value in orders
    ensures r.None? <==> forall i :: 0 <= i < |orders| ==> orders[i].id != id
    ensures forall i :: 0 <= i < |orders| && orders[i].id == id && (forall j :: 0 <= j < i ==> orders[j].id != id) ==>
      r == Some(orders[i])
  {
    Seqs.Find(orders, (o: Order) => o.id == id)
  }

  /** A line's product resolves in the catalog. */
  predicate Resolves(catalog: seq<Product>, item: LineItem)
  {
    ProductById(catalog, item.productId).Some?
  }

  /** The lines whose product resolves, in their original order. */
  function ResolvedItems(catalog: seq<Product>, items: seq<LineItem>): seq<LineItem>
  {
    Seqs.Filter(items, (l: LineItem) => Resolves(catalog, l))
  }

  /** What one line costs: price times quantity, or 0 when its product is unknown. */
  function LineTotal(catalog: seq<Product>, item: LineItem): (r: real)
    ensures !Resolves(catalog, item) ==> r == 0.0
    ensures Resolves(catalog, item) ==>
      r == ProductById(catalog, item.productId).value.price * item.quantity as real
  {
    match ProductById(catalog, item.productId)
    case None => 0.0
    case Some(p) => p.price * item.quantity as real
  }

  /** No two products of the catalog share an id. */
  predicate UniqueIds(catalog: seq<Product>)
  {
    forall i, j :: 0 <= i < j < |catalog| ==> catalog[i].id != catalog[j].id
  }

  /** In a catalog without duplicate ids, the lookup of a listed product's id finds that product. */
  lemma LookupFindsListed(catalog: seq<Product>, i: nat)
    requires UniqueIds(catalog)
    requires i < |catalog|
    ensures ProductById(catalog, catalog[i].id) == Some(catalog[i])
  {
  }

  /** The fixture catalog has unique ids. */
  lemma FixtureIdsUnique()
    ensures UniqueIds(Products)
  {
    var ids := ["1", "2", "3", "4", "5", "6", "7", "8"];
    assert forall i :: 0 <= i < |Products| ==> Products[i].id == ids[i];
  }

  /** Every item of every fixture order resolves in the fixture catalog. */
  lemma FixtureOrdersResolve()
    ensures forall n, k :: 0 <= n < |Orders| && 0 <= k < |Orders[n].items| ==> Resolves(Products, Orders[n].items[k])
  {
    assert Products[0].id == "1" && Products[1].id == "2" && Products[2].id == "3";
    assert Products[3].id == "4" && Products[7].id == "8";
    forall n, k | 0 <= n < |Orders| && 0 <= k < |Orders[n].items|
      ensures Resolves(Products, Orders[n].items[k])
    {
      var id := Orders[n].items[k].productId;
      assert id == "1" || id == "2" || id == "3" || id == "4" || id == "8";
    }
  }

  /** On the fixtures, an unknown order id finds nothing and "ORD-12346" is the shipped order. */
  lemma FixtureOrderLookups()
    ensures OrderById(Orders, "ORD-99999").None?
    ensures OrderById(Orders, "ORD-12346").Some?
    ensures OrderById(Orders, "ORD-12346").value.status == Shipped
  {
    assert Orders[0].id != "ORD-12346";
    assert Orders[1].id == "ORD-12346";
  }
}
