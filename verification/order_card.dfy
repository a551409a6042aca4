/** The order card of the order list: the item count and its plural, the
    status badge, the footer line and the thumbnail of the first item. */
module OrderCard {
  import opened Wrappers
  import opened Text
  import opened Catalog

  // ----- Item count -----

  /** `reduce((sum, item) => sum + item.quantity, acc)`: a left fold. */
  function SumFrom(acc: int, items: seq<LineItem>): int
    decreases |items|
  {
    if items == [] then acc else SumFrom(acc + items[0].quantity, items[1..])
  }

  /** `itemCount`: the fold started at 0, which is the sum of the quantities. */
  function ItemCount(items: seq<LineItem>): (r: int)
    ensures r == TotalQuantity(items)
  {
    SumFromIsShift(0, items);
    SumFrom(0, items)
  }

  /** Reference definition: the sum of the quantities, first item first. */
  function TotalQuantity(items: seq<LineItem>): int
  {
    if items == [] then 0 else items[0].quantity + TotalQuantity(items[1..])
  }

  /** The fold adds the sum of the quantities to its starting value. */
  lemma {:induction false} SumFromIsShift(acc: int, items: seq<LineItem>)
    ensures SumFrom(acc, items) == acc + TotalQuantity(items)
    decreases |items|
  {
    if items != [] {
      SumFromIsShift(acc + items[0].quantity, items[1..]);
    }
  }

  /** The item count is the sum of the quantities, and 0 for an order without items. */
  lemma ItemCountIsTotalQuantity(items: seq<LineItem>)
    ensures ItemCount(items) == TotalQuantity(items)
    ensures items == [] ==> ItemCount(items) == 0
  {
    SumFromIsShift(0, items);
  }

  /** The sum of the quantities over two item lists joined. */
  lemma {:induction false} TotalQuantityAppend(a: seq<LineItem>, b: seq<LineItem>)
    ensures TotalQuantity(a + b) == TotalQuantity(a) + TotalQuantity(b)
    decreases |a|
  {
    if a != [] {
      TotalQuantityAppend(a[1..], b);
      assert (a + b)[0] == a[0];
      assert (a + b)[1..] == a[1..] + b;
    } else {
      assert a + b == b;
    }
  }

  /** Counting the items of two lists joined adds their counts. */
  lemma ItemCountAppend(a: seq<LineItem>, b: seq<LineItem>)
    ensures ItemCount(a + b) == ItemCount(a) + ItemCount(b)
  {
    ItemCountIsTotalQuantity(a + b);
    ItemCountIsTotalQuantity(a);
    ItemCountIsTotalQuantity(b);
    TotalQuantityAppend(a, b);
  }

  /** With positive quantities there are at least as many items as lines. */
  lemma {:induction false} ItemCountAtLeastLines(items: seq<LineItem>)
    requires forall i :: 0 <= i < |items| ==> items[i].quantity >= 1
    ensures ItemCount(items) >= |items|
    decreases |items|
  {
    ItemCountIsTotalQuantity(items);
    if items != [] {
      ItemCountAtLeastLines(items[1..]);
      ItemCountIsTotalQuantity(items[1..]);
    }
  }

  /** The fixture orders hold 2, 1 and 4 items. */
  lemma FixtureItemCounts()
    ensures ItemCount(Orders[0].items) == 2
    ensures ItemCount(Orders[1].items) == 1
    ensures ItemCount(Orders[2].items) == 4
  {
    ItemCountIsTotalQuantity(Orders[0].items);
    ItemCountIsTotalQuantity(Orders[1].items);
    ItemCountIsTotalQuantity(Orders[2].items);
    assert Orders[0].items[1..][1..] == [];
    assert Orders[2].items[1..][1..] == [];
  }

  /** The suffix after "item": an "s" unless the count is exactly one. */
  function PluralSuffix(n: int): (r: string)
    ensures |r| <= 1
    ensures r == "s" <==> n != 1
    ensures r == "" <==> n == 1
  {
    if n != 1 then "s" else ""
  }

  /** The card's "n item(s)" wording for a list of items. */
  function ItemsNoun(items: seq<LineItem>): (r: string)
    ensures r == "item" <==> ItemCount(items) == 1
    ensures r == "items" <==> ItemCount(items) != 1
  {
    "item" + PluralSuffix(ItemCount(items))
  }

  // ----- Status badge -----

  /** The badge text per status: the status literal with a capital first letter. */
  function StatusLabel(s: Status): (r: string)
    ensures |r| == |StatusName(s)| > 0
    ensures 'A' <= r[0] <= 'Z' && LowerChar(r[0]) == StatusName(s)[0]
    ensures r[1..] == StatusName(s)[1..]
  {
    match s
    case Processing => "Processing"
    case Shipped => "Shipped"
    case Delivered => "Delivered"
    case Cancelled => "Cancelled"
  }

  /** The colour of a status badge. */
  function BadgeColour(s: Status): string
  {
    match s
    case Processing => "blue"
    case Shipped => "amber"
    case Delivered => "green"
    case Cancelled => "red"
  }

  /** The badge colour classes per status: a light background and dark text of one colour. */
  function StatusBadgeClass(s: Status): (r: string)
    ensures |r| > 3 + |BadgeColour(s)|
    ensures r[..3] == "bg-" && r[3..3 + |BadgeColour(s)|] == BadgeColour(s)
  {
    match s
    case Processing => BadgeClassOf("bg-blue-100 text-blue-800", "blue")
    case Shipped => BadgeClassOf("bg-amber-100 text-amber-800", "amber")
    case Delivered => BadgeClassOf("bg-green-100 text-green-800", "green")
    case Cancelled => BadgeClassOf("bg-red-100 text-red-800", "red")
  }

  /** A class list whose first class is the light background of `colour`. */
  function BadgeClassOf(classes: string, colour: string): (r: string)
    requires |classes| > 3 + |colour|
    requires forall k :: 0 <= k < 3 ==> classes[k] == "bg-"[k]
    requires forall k :: 0 <= k < |colour| ==> classes[3 + k] == colour[k]
    ensures |r| > 3 + |colour|
    ensures r[..3] == "bg-" && r[3..3 + |colour|] == colour
  {
    classes
  }

  /** Each label is its status literal with the first letter capitalised. */
  lemma LabelLowersToName(s: Status)
    ensures |StatusLabel(s)| == |StatusName(s)| > 0
    ensures 'A' <= StatusLabel(s)[0] <= 'Z'
    ensures StatusLabel(s)[1..] == StatusName(s)[1..]
    ensures LowerChar(StatusLabel(s)[0]) == StatusName(s)[0]
    ensures Lower(StatusLabel(s)) == StatusName(s)
  {
    var text := StatusLabel(s);
    var name := StatusName(s);
    assert text[1..] == name[1..];
    assert LowerChar(text[0]) == name[0];
    forall i | 1 <= i < |text|
      ensures LowerChar(text[i]) == name[i]
    {
      assert text[i] == name[i];
    }
  }

  /** The label map tells the four statuses apart. */
  lemma LabelsDistinct(s: Status, t: Status)
    requires s != t
    ensures StatusLabel(s) != StatusLabel(t)
  {
    if StatusLabel(s) == StatusLabel(t) {
      LabelLowersToName(s);
      LabelLowersToName(t);
      ParseStatusRoundTrip(s);
      ParseStatusRoundTrip(t);
    }
  }

  /** So does the colour map. */
  lemma BadgeClassesDistinct(s: Status, t: Status)
    requires s != t
    ensures StatusBadgeClass(s) != StatusBadgeClass(t)
  {
    assert StatusBadgeClass(s)[3] != StatusBadgeClass(t)[3];
  }

  // ----- Footer -----

  /** A line of the card's footer. */
  datatype FooterMessage =
    | EstimatedDelivery(date: string)
    | Preparing
    | DeliveredOn(date: string)

  /** The footer's three conditional fragments, in the order they are written;
      an absent or empty estimate on a delivered order is read as "". */
  function FooterFragments(o: Order): (r: seq<FooterMessage>)
    ensures |r| <= 1
    ensures r == [] <==> o.status == Cancelled || (o.status == Shipped && !Truthy(o.estimatedDelivery))
    ensures |r| == 1 && r[0] == Preparing <==> o.status == Processing
    ensures |r| == 1 && r[0].EstimatedDelivery? <==> o.status == Shipped && Truthy(o.estimatedDelivery)
    ensures |r| == 1 && r[0].EstimatedDelivery? ==> o.estimatedDelivery == Some(r[0].date)
    ensures |r| == 1 && r[0].DeliveredOn? <==> o.status == Delivered
    ensures |r| == 1 && r[0].DeliveredOn? ==> r[0].date == o.estimatedDelivery.GetOr("")
  {
    (if o.status == Shipped && Truthy(o.estimatedDelivery) then [EstimatedDelivery(o.estimatedDelivery.value)] else []) +
    (if o.status == Processing then [Preparing] else []) +
    (if o.status == Delivered then [DeliveredOn(if Truthy(o.estimatedDelivery) then o.estimatedDelivery.value else "")] else [])
  }

  // ----- Thumbnail -----

  /** The image of the first item's product; later items are never consulted. */
  function CardImage(catalog: seq<Product>, o: Order): (r: Option<string>)
    ensures r.None? <==> o.items == [] || !Resolves(catalog, o.items[0])
    ensures r.Some? ==> r.value == ProductById(catalog, o.items[0].productId).value.image
    ensures r.Some? ==> exists i :: 0 <= i < |catalog| && catalog[i].id == o.items[0].productId && catalog[i].image == r.value
  {
    if |o.items| == 0 then None
    else match ProductById(catalog, o.items[0].productId)
      case None => None
      case Some(p) => Some(p.image)
  }

  /** The thumbnail is drawn when the image is present and non-empty. */
  function ShowsImage(catalog: seq<Product>, o: Order): (r: bool)
    ensures r <==> (o.items != [] && Resolves(catalog, o.items[0]) &&
                    ProductById(catalog, o.items[0].productId).value.image != "")
  {
    Truthy(CardImage(catalog, o))
  }

  /** Two orders whose first items agree show the same image, whatever follows. */
  lemma ImageFromFirstItemOnly(catalog: seq<Product>, o: Order, p: Order)
    requires |o.items| > 0 && |p.items| > 0 && o.items[0] == p.items[0]
    ensures CardImage(catalog, o) == CardImage(catalog, p)
  {
  }

  /** The first fixture order shows the laptop's image. */
  lemma FixtureCardImage()
    ensures CardImage(Products, Orders[0]) == Some(Products[0].image)
  {
    FixtureIdsUnique();
    LookupFindsListed(Products, 0);
  }
}
