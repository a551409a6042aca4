/** The order page: which order the route shows (or "not found"), the item
    lines it draws, the tracking panel, the three-step progress display and
    the summary split of the order total. */
module OrderDetail {
  import opened Wrappers
  import Seqs
  import opened Text
  import opened Catalog
  import Cart
  import Pricing

  /** The order for the route parameter; None selects the "Order Not Found" page. */
  function OrderForRoute(orders: seq<Order>, id: Option<string>): (r: Option<Order>)
    ensures r.Some? ==> Truthy(id) && r.value.id == id.value && r.value in orders
    ensures r.None? <==> !Truthy(id) || forall i :: 0 <= i < |orders| ==> orders[i].id != id.value
    ensures forall i :: (0 <= i < |orders| && Truthy(id) && orders[i].id == id.value &&
                         (forall j :: 0 <= j < i ==> orders[j].id != id.value)) ==> r == Some(orders[i])
  {
    if Truthy(id) then OrderById(orders, id.value) else None
  }

  // ----- Item lines -----

  /** An item joined with its product and its line total. */
  datatype OrderLine = OrderLine(item: LineItem, product: Product, total: real)

  /** The items underneath a list of lines. */
  function ItemsOf(lines: seq<OrderLine>): seq<LineItem>
  {
    seq(|lines|, i requires 0 <= i < |lines| => lines[i].item)
  }

  /** A line carries the product its item resolves to and that product's price times the quantity. */
  predicate Joined(catalog: seq<Product>, line: OrderLine)
  {
    ProductById(catalog, line.item.productId) == Some(line.product) &&
    line.total == line.product.price * line.item.quantity as real
  }

  /** An item joined with the product it resolved to. */
  function JoinLine(item: LineItem, p: Product): OrderLine
  {
    OrderLine(item, p, p.price * item.quantity as real)
  }

  /** `orderItems`: each item is joined with its product, and items whose
      product is unknown are dropped; the survivors keep their order. */
  function OrderLines(catalog: seq<Product>, items: seq<LineItem>): (r: seq<OrderLine>)
    ensures |r| <= |items|
    decreases |items|
  {
    if items == [] then []
    else
      var found := ProductById(catalog, items[0].productId);
      if found.None? then OrderLines(catalog, items[1..])
      else [JoinLine(items[0], found.value)] + OrderLines(catalog, items[1..])
  }

  /** Every drawn line carries its item's product and the price times the quantity. */
  lemma {:induction false} OrderLinesJoined(catalog: seq<Product>, items: seq<LineItem>)
    ensures forall i :: 0 <= i < |OrderLines(catalog, items)| ==> Joined(catalog, OrderLines(catalog, items)[i])
    decreases |items|
  {
    if items != [] {
      OrderLinesJoined(catalog, items[1..]);
      var rest := OrderLines(catalog, items[1..]);
      var found := ProductById(catalog, items[0].productId);
      if found.Some? {
        var line := JoinLine(items[0], found.value);
        assert OrderLines(catalog, items) == [line] + rest;
        assert Joined(catalog, line);
      } else {
        assert OrderLines(catalog, items) == rest;
      }
    }
  }

  /** The drawn lines are exactly the items whose product resolves, in item order. */
  lemma {:induction false} OrderLinesKeepResolvedItems(catalog: seq<Product>, items: seq<LineItem>)
    ensures ItemsOf(OrderLines(catalog, items)) == ResolvedItems(catalog, items)
    decreases |items|
  {
    if items != [] {
      OrderLinesKeepResolvedItems(catalog, items[1..]);
      var rest := OrderLines(catalog, items[1..]);
      var found := ProductById(catalog, items[0].productId);
      if found.Some? {
        var line := JoinLine(items[0], found.value);
        assert OrderLines(catalog, items) == [line] + rest;
        assert ResolvedItems(catalog, items) == [items[0]] + ResolvedItems(catalog, items[1..]);
        ItemsOfCons(line, rest);
      } else {
        assert OrderLines(catalog, items) == rest;
        assert ResolvedItems(catalog, items) == ResolvedItems(catalog, items[1..]);
      }
    }
  }

  lemma ItemsOfCons(line: OrderLine, rest: seq<OrderLine>)
    ensures ItemsOf([line] + rest) == [line.item] + ItemsOf(rest)
  {
  }

  /** The sum of the drawn line totals. */
  function SumTotals(lines: seq<OrderLine>): real
  {
    if lines == [] then 0.0 else lines[0].total + SumTotals(lines[1..])
  }

  /** The drawn lines add up to what the cart's subtotal rule charges for the same items. */
  lemma {:induction false} LinesSumToSubtotal(catalog: seq<Product>, items: seq<LineItem>)
    ensures SumTotals(OrderLines(catalog, items)) == Cart.Subtotal(catalog, items)
    decreases |items|
  {
    if items != [] {
      LinesSumToSubtotal(catalog, items[1..]);
      LinesSumStep(catalog, items);
    }
  }

  /** The first item adds the same amount to the drawn totals as to the subtotal. */
  lemma LinesSumStep(catalog: seq<Product>, items: seq<LineItem>)
    requires items != []
    ensures SumTotals(OrderLines(catalog, items)) == LineTotal(catalog, items[0]) + SumTotals(OrderLines(catalog, items[1..]))
  {
    var rest := OrderLines(catalog, items[1..]);
    var found := ProductById(catalog, items[0].productId);
    if found.Some? {
      var line := JoinLine(items[0], found.value);
      assert OrderLines(catalog, items) == [line] + rest;
      assert ([line] + rest)[1..] == rest;
    } else {
      assert OrderLines(catalog, items) == rest;
    }
  }

  // ----- Tracking panel -----

  /** The coloured panel above the progress bar. */
  datatype TrackingPanel =
    | BeingPrepared
    | OnTheWay(estimate: Option<string>, trackingNumber: Option<string>)
    | DeliveredOn(date: Option<string>)

  /** `renderTrackingStatus`: nothing for a cancelled order; the estimate
      and the tracking number only when they are present and non-empty. */
  function Tracking(o: Order): (r: Option<TrackingPanel>)
    ensures r.None? <==> o.status == Cancelled
    ensures r == Some(BeingPrepared) <==> o.status == Processing
    ensures r.Some? && r.value.OnTheWay? <==> o.status == Shipped
    ensures r.Some? && r.value.OnTheWay? && r.value.trackingNumber.Some? <==>
      o.status == Shipped && Truthy(o.trackingNumber)
    ensures r.Some? && r.value.OnTheWay? ==> r.value.estimate.Some? == Truthy(o.estimatedDelivery)
    ensures r.Some? && r.value.DeliveredOn? ==> r.value.date.Some? == Truthy(o.estimatedDelivery)
    ensures r.Some? && r.value.OnTheWay? && r.value.estimate.Some? ==> r.value.estimate == o.estimatedDelivery
    ensures r.Some? && r.value.OnTheWay? && r.value.trackingNumber.Some? ==> r.value.trackingNumber == o.trackingNumber
    ensures r.Some? && r.value.DeliveredOn? ==> o.status == Delivered
    ensures r.Some? && r.value.DeliveredOn? && r.value.date.Some? ==> r.value.date == o.estimatedDelivery
  {
    match o.status
    case Processing => Some(BeingPrepared)
    case Shipped => Some(OnTheWay(Shown(o.estimatedDelivery), Shown(o.trackingNumber)))
    case Delivered => Some(DeliveredOn(Shown(o.estimatedDelivery)))
    case Cancelled => None
  }

  // ----- Progress -----

  datatype StepState = Complete | Pending

  /** How far along the three steps an order is: 0 placed, 1 shipped, 2
      delivered; a cancelled order counts as placed. */
  function Rank(s: Status): nat
  {
    match s
    case Processing => 0
    case Shipped => 1
    case Delivered => 2
    case Cancelled => 0
  }

  /** `steps`: the states of "Processing", "Shipped" and "Delivered". */
  function ProgressSteps(s: Status): (r: seq<StepState>)
    ensures |r| == 3
    ensures forall i :: 0 <= i < 3 ==> (r[i] == Complete <==> i <= Rank(s))
  {
    [Complete,
     if s == Shipped || s == Delivered then Complete else Pending,
     if s == Delivered then Complete else Pending]
  }

  /** The completed steps always form a prefix. */
  lemma CompletedStepsArePrefix(s: Status, i: nat, j: nat)
    requires i <= j < 3
    requires ProgressSteps(s)[j] == Complete
    ensures ProgressSteps(s)[i] == Complete
  {
  }

  /** Further progress completes at least the same steps. */
  lemma StepsMonotone(s: Status, t: Status, i: nat)
    requires Rank(s) <= Rank(t) && i < 3
    requires ProgressSteps(s)[i] == Complete
    ensures ProgressSteps(t)[i] == Complete
  {
  }

  /** The progress bar: hidden for a cancelled order, else its width in percent. */
  function ProgressBar(s: Status): (r: Option<nat>)
    ensures r.None? <==> s == Cancelled
    ensures r.Some? ==> r.value == 100 * (Rank(s) + 1) / 3
  {
    if s == Cancelled then None
    else Some(if s == Processing then 33 else if s == Shipped then 66 else 100)
  }

  /** The bar grows with the order's progress and is full only once delivered. */
  lemma ProgressBarMonotone(s: Status, t: Status)
    requires s != Cancelled && t != Cancelled
    ensures Rank(s) < Rank(t) ==> ProgressBar(s).value < ProgressBar(t).value
    ensures ProgressBar(s).value == 100 <==> s == Delivered
  {
  }

  // ----- Summary -----

  /** The summary card: 93% of the total as subtotal, 7% as tax, a flat
      shipping line, and the order's own total. */
  function OrderSummary(o: Order): (t: Cart.Totals)
    ensures t.total == o.total
    ensures t.tax == Pricing.TaxRate * o.total
    ensures t.subtotal + t.tax == t.total
    ensures t.shipping == Pricing.ShippingFee
  {
    Cart.Totals(o.total * 0.93, 5.99, o.total * 0.07, o.total)
  }

  /** The shown rows do not add up to the shown total: the shipping line is
      outside it. */
  lemma SummaryRowsExceedTotal(o: Order)
    ensures OrderSummary(o).subtotal + OrderSummary(o).shipping + OrderSummary(o).tax ==
            OrderSummary(o).total + Pricing.ShippingFee
    ensures OrderSummary(o).subtotal + OrderSummary(o).shipping + OrderSummary(o).tax != OrderSummary(o).total
  {
  }
}
