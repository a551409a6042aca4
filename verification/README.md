# Storefront logic in Dafny

A model of the logic inside a small React storefront: the static catalog and order data with their
first-match lookups, the cart ledger with its three updates and money figures, the product listing's
search/category/price filter, the product page's quantity stepper and related-products selection,
the three-step checkout wizard with its required fields, and the order page and order card
(item lines, tracking panel, progress display, summary split, item count, status labels, footer,
thumbnail). Each page's state is an immutable datatype, and each React state setter is a pure
function from old state to new state. Money is `real`, so `tax = 0.07 * subtotal` and the sum
identities hold exactly.

Modules, one per file:

| module | file | models |
|---|---|---|
| `Wrappers` | wrappers.dfy | `Option` |
| `Seqs` | seqs.dfy | `Array.prototype.filter` / `find`, order-preserving subsequence |
| `Text` | text.dfy | `toLowerCase` (ASCII), `includes`, `slice(-n)`, truthiness of an optional string |
| `Pricing` | pricing.dfy | the 5.99 shipping fee and the 7% tax rate |
| `Catalog` | catalog.dfy | src/data/mockData.ts |
| `Cart` | cart.dfy | src/pages/Cart.tsx |
| `ProductFilter` | product_filter.dfy | src/pages/Products.tsx |
| `ProductDetail` | product_detail.dfy | src/pages/ProductDetail.tsx |
| `Checkout` | checkout.dfy | src/pages/Checkout.tsx |
| `OrderDetail` | order_detail.dfy | src/pages/OrderDetail.tsx |
| `OrderCard` | order_card.dfy | src/components/ui/OrderCard.tsx |

Modelling choices:

- Cart lines and order items are both `{productId, quantity}` in the source. They share one
  datatype, `Catalog.LineItem`.
- JavaScript truthiness is kept where the code relies on it:
  - `!selectedCategory` is also true for `""`.
  - `id ? lookup(id) : undefined` looks nothing up for `""`.
  - `order.trackingNumber && …` hides an empty string.
  - `Text.Truthy` states this once.
- The handlers of the checkout forms change the step unconditionally. The field check lives in the
  inputs' `required` attributes, which the browser enforces before a submit. The model makes it an
  explicit guard: `MissingShipping` and `MissingCard` list the empty required inputs, and a submit
  with any of them empty leaves the step where it is.
- The model follows the code in three places where one might expect otherwise:
  - `updateQuantity` never inserts a line for a product that is not in the cart. It is not an
    upsert.
  - The checkout summary is computed from fixed constants, not from the cart.
  - The order page's summary takes 93% and 7% of the order total and shows a 5.99 shipping line
    that is not part of that total.
- The cart page computes line totals with `products.find(p => p.id === …)` (src/pages/Cart.tsx:46).
  This is the same first-match lookup as `getProductById`, so both use `Catalog.ProductById`.

## Model

| member | source | states |
|---|---|---|
| Catalog.ParseStatus | src/data/mockData.ts:22 | a status literal is accepted only if it is one of the four, and reading it gives back the status it names |
| Catalog.ProductById | src/data/mockData.ts:172-174 | the result carries the queried id and comes from the catalog; it is none exactly when no product has that id; with duplicate ids it is the first match |
| Catalog.OrderById | src/data/mockData.ts:177-179 | the same first-match / none semantics over the order list |
| Catalog.LineTotal | src/pages/Cart.tsx:45-52 | a line whose product is unknown costs 0; otherwise it costs price times quantity |
| Catalog.LookupFindsListed | src/data/mockData.ts:172-174 | in a catalog without duplicate ids, looking up a listed product's id returns that product |
| Catalog.FixtureIdsUnique | src/data/mockData.ts:29-110 | no two fixture products share an id |
| Catalog.FixtureOrdersResolve | src/data/mockData.ts:135-169 | every item of every fixture order resolves to a fixture product |
| Catalog.FixtureOrderLookups | src/data/mockData.ts:135-169 | "ORD-99999" finds nothing; "ORD-12346" finds the shipped order |
| Cart.RemoveItem | src/pages/Cart.tsx:36-38 | no line for the id survives; every other line survives, in order; positive quantities stay positive |
| Cart.SetQuantity | src/pages/Cart.tsx:31-33 | same length and product ids; the lines for the id get the new quantity; every other line is unchanged |
| Cart.UpdateQuantity | src/pages/Cart.tsx:25-34 | q ≤ 0 removes the product and keeps the rest in order; q > 0 overwrites in place, keeping length and ids; with no line for the id the cart is unchanged (no insertion) |
| Cart.UpdateLeavesOtherProducts | src/pages/Cart.tsx:25-38 | updating or removing one product leaves the lines of every other product exactly as they were |
| Cart.RemoveItemIdempotent | src/pages/Cart.tsx:36-38 | removing a product twice is removing it once |
| Cart.ClearCart | src/pages/Cart.tsx:40-42 | the cleared cart has no line for any product |
| Cart.DecrementLine | src/pages/Cart.tsx:120 | minus on a line of quantity 1 removes the product and keeps every line of another product; above 1 it lowers the quantity by one in place, keeps every line's product and leaves the lines of other products unchanged |
| Cart.IncrementLine | src/pages/Cart.tsx:129 | plus raises the line's quantity by one in place, keeps every line's product and leaves the lines of other products unchanged |
| Cart.UnknownLinesContributeNothing | src/pages/Cart.tsx:45-54 | the subtotal equals the subtotal of the lines the page draws (those whose product resolves) |
| Cart.LineTotalSign | src/pages/Cart.tsx:45-52 | with positive prices and quantity, a line costs something exactly when its product resolves |
| Cart.SubtotalPositiveIffResolvedLine | src/pages/Cart.tsx:54 | with positive prices and quantities the subtotal is never negative, and it is positive exactly when some line resolves |
| Cart.Subtotal | src/pages/Cart.tsx:54 | the sum of the line totals is 0 when the page draws no line (no line's product resolves); its sign and its relation to the drawn lines are fixed by the lemmas below |
| Cart.Summarize | src/pages/Cart.tsx:55-57 | shipping is 5.99 exactly when the subtotal is positive, tax is 7% of the subtotal, total is the sum of the three, i.e. 1.07 × subtotal plus the fee when something is bought |
| Cart.CartTotals | src/pages/Cart.tsx:54-57 | the page's summary is built on the cart's subtotal; its four figures follow the summary rule for that subtotal (5.99 shipping exactly when it is positive, 7% tax, total the sum), i.e. total 1.07 × subtotal, plus 5.99 when shipping is charged |
| Cart.ShippingChargedIffResolvedLine | src/pages/Cart.tsx:54-57 | the fee is charged exactly when some line's product resolves, and the total never falls below the subtotal |
| Cart.ClearedCartTotalsZero | src/pages/Cart.tsx:40-57 | after clearing, all four figures are 0 |
| Cart.InitialCartSubtotal | src/pages/Cart.tsx:20-54 | the opening cart over the fixture prices has subtotal 1559.97 |
| Cart.InitialCartTotals | src/pages/Cart.tsx:20-57 | the opening cart's summary is 1559.97 / 5.99 / 109.1979 / 1675.1579 |
| ProductFilter.FilterProducts | src/pages/Products.tsx:21-33 | the result is an order-preserving subsequence of the catalog; every product in it passes all three tests; each product occurs in it exactly as often as in the catalog when it passes, and not at all otherwise |
| ProductFilter.MatchesSearchIffOccurs | src/pages/Products.tsx:23-24 | the search test holds exactly when the lowered term occurs at some position of the lowered name or description |
| ProductFilter.FilterIdempotent | src/pages/Products.tsx:21-33 | filtering the filtered list again with the same criteria changes nothing |
| ProductFilter.EmptyTermNoCategoryIsPriceFilter | src/pages/Products.tsx:21-33 | an empty term and no category leave only the price range as a restriction |
| ProductFilter.ToggleCategory | src/pages/Products.tsx:60-62 | clicking the selected category clears the selection; clicking any other selects it |
| ProductFilter.ClearFilters | src/pages/Products.tsx:35-39 | the reset criteria are "", no category, [0, 1500], which is the opening state |
| ProductFilter.LaptopSearchFindsLaptop | src/pages/Products.tsx:21-33 | searching "laptop" over the fixtures keeps "Modern Laptop Pro" |
| ProductDetail.ProductForRoute | src/pages/ProductDetail.tsx:19-21 | a missing, empty or unknown id gives the not-found branch; otherwise the page shows the first product in the catalog with that id |
| ProductDetail.Press | src/pages/ProductDetail.tsx:93-103 | plus adds exactly 1; minus gives max(1, q - 1); an out-of-stock product's buttons change nothing |
| ProductDetail.QuantityStaysPositive | src/pages/ProductDetail.tsx:93-103 | from a start of at least 1, no sequence of presses takes the quantity below 1, and it rises by at most one per press |
| ProductDetail.StepperFromOpening | src/pages/ProductDetail.tsx:17 | the stepper opens at 1, so whatever buttons are pressed the quantity stays between 1 and one more than the number of presses |
| ProductDetail.OutOfStockQuantityFixed | src/pages/ProductDetail.tsx:94-103 | for an out-of-stock product the quantity never moves |
| ProductDetail.RelatedProducts | src/pages/ProductDetail.tsx:42-44 | at most 4 products, all from the catalog, in the shown product's category and with another id; they are the first candidates in catalog order, and all of them when there are at most 4 |
| ProductDetail.ShownNotRelated | src/pages/ProductDetail.tsx:43 | the shown product is never among its related products |
| ProductDetail.RelatedKeepCatalogOrder | src/pages/ProductDetail.tsx:42-44 | the related products are an order-preserving subsequence of the catalog |
| ProductDetail.LaptopRelated | src/pages/ProductDetail.tsx:42-44 | over the fixtures the laptop's related products are the headphones and the watch |
| Checkout.SetShipping | src/pages/Checkout.tsx:102-175 | an input's change sets its own field and leaves the other eight as they were |
| Checkout.ShippingValid | src/pages/Checkout.tsx:98-178 | the shipping form submits exactly when no required input is empty, i.e. when every field except the apartment is non-empty |
| Checkout.MissingShippingEmptyIff | src/pages/Checkout.tsx:98-178 | the list of empty required inputs is empty exactly when every field except the apartment is non-empty |
| Checkout.ApartmentOptional | src/pages/Checkout.tsx:124-131 | the apartment line never decides whether the shipping form submits |
| Checkout.SetCard | src/pages/Checkout.tsx:219-250 | a card input's change sets its own field and leaves the other three as they were |
| Checkout.PaymentValid | src/pages/Checkout.tsx:211-266 | the payment form submits exactly when no rendered required input is empty: with a card all four card fields must be non-empty; a bank transfer submits whatever they hold |
| Checkout.MissingCardEmptyIff | src/pages/Checkout.tsx:211-266 | the list of empty required card inputs is empty exactly when the method is not a card or all four card fields are non-empty |
| Checkout.Next | src/pages/Checkout.tsx:74-317 | a control works only on the step that draws it; forward moves go one step at a time, and only through a submit whose form is complete; backward moves come only from Back and the two Edit links; Back leads to shipping, Edit shipping to shipping, Edit payment to payment, and Place order stays on review |
| Checkout.Apply | src/pages/Checkout.tsx:94-317 | an event on an input or control the view does not draw changes nothing; typing sets exactly one field and leaves the step; choosing a method changes only the method; a control changes only the step, as `Next` says |
| Checkout.Run | src/pages/Checkout.tsx:74-317 | a session of n events passes through n + 1 page states from its start, each the previous one after its event |
| Checkout.NoSkipAlongRun | src/pages/Checkout.tsx:74-82 | along any session, with any typing in between, review is never entered straight from shipping |
| Checkout.ReviewOnlyThroughPayment | src/pages/Checkout.tsx:74-82 | every session from the opening page (empty form) that reaches review passed through payment before, whatever was typed in between |
| Checkout.HappyPath | src/pages/Checkout.tsx:74-82 | from the opening page, typing any non-empty values into the eight required inputs, submitting, choosing bank transfer and submitting reaches payment and then review |
| Checkout.BackAlwaysReturns | src/pages/Checkout.tsx:270-275 | Back on the payment step returns to shipping and keeps the form, whatever it holds |
| Checkout.Indicator | src/pages/Checkout.tsx:361-376 | a step's circle is highlighted exactly on its own step, checked exactly once the wizard is past it, plain before it |
| Checkout.IndicatorChecks | src/pages/Checkout.tsx:361-376 | step 1 shows a check off the shipping step, step 2 only on review, step 3 never |
| Checkout.PaymentShown | src/pages/Checkout.tsx:319-329 | a card shows its last min(4, length) characters, which end its number; a bank transfer shows no digits |
| Checkout.FixedSummary | src/pages/Checkout.tsx:17-20 | the summary obeys the cart's rule for subtotal 1429.98: 5.99 shipping, tax 100.0986, total 1536.0686 |
| OrderDetail.OrderForRoute | src/pages/OrderDetail.tsx:14-16 | a missing, empty or unknown id gives the not-found branch; otherwise the page shows the first order in the list with that id |
| OrderDetail.OrderLines | src/pages/OrderDetail.tsx:28-35 | at most one line per item; which items and what each line holds are fixed by the two lemmas below |
| OrderDetail.OrderLinesJoined | src/pages/OrderDetail.tsx:28-34 | every drawn line carries its item's product and price times quantity |
| OrderDetail.OrderLinesKeepResolvedItems | src/pages/OrderDetail.tsx:28-35 | the drawn lines are exactly the items whose product resolves, in item order |
| OrderDetail.LinesSumToSubtotal | src/pages/OrderDetail.tsx:28-35 | the drawn line totals add up to what the cart's subtotal rule charges for the same items |
| OrderDetail.Tracking | src/pages/OrderDetail.tsx:37-87 | no panel for a cancelled order; the tracking number is shown exactly for a shipped order with a non-empty number; estimate and delivery date only when non-empty; whatever is shown is the order's own estimate, tracking number or date |
| OrderDetail.ProgressSteps | src/pages/OrderDetail.tsx:90-94 | step i is complete exactly when the status has reached it in the order processing < shipped < delivered |
| OrderDetail.CompletedStepsArePrefix | src/pages/OrderDetail.tsx:90-94 | the completed steps form a prefix of the three |
| OrderDetail.StepsMonotone | src/pages/OrderDetail.tsx:90-94 | a further status completes at least the same steps |
| OrderDetail.ProgressBar | src/pages/OrderDetail.tsx:114-121 | the bar is hidden exactly for a cancelled order; its width is 100·(rank+1)/3 percent, i.e. 33, 66, 100 |
| OrderDetail.ProgressBarMonotone | src/pages/OrderDetail.tsx:120 | the bar grows with the status and is full only when delivered |
| OrderDetail.OrderSummary | src/pages/OrderDetail.tsx:193-209 | the shown total is the order total, tax is 7% of it, subtotal plus tax is the total, shipping is 5.99 |
| OrderDetail.SummaryRowsExceedTotal | src/pages/OrderDetail.tsx:193-209 | the four shown rows do not add up: subtotal + shipping + tax exceeds the total by the 5.99 fee |
| OrderCard.ItemCount | src/components/ui/OrderCard.tsx:38 | the `reduce` from 0 equals the reference sum of the quantities |
| OrderCard.SumFromIsShift | src/components/ui/OrderCard.tsx:38 | the `reduce` fold adds the sum of the quantities to its start value |
| OrderCard.ItemCountIsTotalQuantity | src/components/ui/OrderCard.tsx:38 | the item count is the sum of the quantities, and 0 for an order without items |
| OrderCard.ItemCountAppend | src/components/ui/OrderCard.tsx:38 | the count of two joined item lists is the sum of their counts |
| OrderCard.ItemCountAtLeastLines | src/components/ui/OrderCard.tsx:38 | with positive quantities the count is at least the number of lines |
| OrderCard.FixtureItemCounts | src/components/ui/OrderCard.tsx:38 | the fixture orders hold 2, 1 and 4 items |
| OrderCard.PluralSuffix | src/components/ui/OrderCard.tsx:60 | the suffix is "s" exactly when the count is not 1 |
| OrderCard.ItemsNoun | src/components/ui/OrderCard.tsx:60 | the noun reads "item" exactly for a count of 1 and "items" otherwise |
| OrderCard.StatusLabel | src/components/ui/OrderCard.tsx:20-25 | each label has its status literal's length, a capital first letter that lowers to the literal's first letter, and the literal's remaining letters |
| OrderCard.StatusBadgeClass | src/components/ui/OrderCard.tsx:13-18 | each class list starts with `bg-` followed by the status's colour (blue, amber, green, red) |
| OrderCard.LabelLowersToName | src/components/ui/OrderCard.tsx:20-25 | each label lowers to its status literal, and its first letter is a capital |
| OrderCard.LabelsDistinct | src/components/ui/OrderCard.tsx:20-29 | the label map gives four distinct labels |
| OrderCard.BadgeClassesDistinct | src/components/ui/OrderCard.tsx:13-18 | the colour map gives four distinct classes |
| OrderCard.FooterFragments | src/components/ui/OrderCard.tsx:66-76 | at most one footer line shows: "Preparing" exactly for processing, the estimate exactly for shipped with a non-empty estimate, "Delivered on" exactly for delivered, nothing otherwise |
| OrderCard.CardImage | src/components/ui/OrderCard.tsx:36-37 | the image is none exactly when there are no items or the first item's product is unknown; otherwise it is the image of the first catalog product with that id, as the lookup returns it |
| OrderCard.ShowsImage | src/components/ui/OrderCard.tsx:45 | the thumbnail is drawn exactly when the order has a first item whose product is in the catalog with a non-empty image |
| OrderCard.ImageFromFirstItemOnly | src/components/ui/OrderCard.tsx:36-37 | two orders with the same first item show the same image, whatever follows |
| OrderCard.FixtureCardImage | src/components/ui/OrderCard.tsx:36-37 | the first fixture order shows the laptop's image |
| Seqs.FilterMembers | src/pages/Products.tsx:21 | a filter keeps only elements of its input, and every element that passes |
| Seqs.FilterMultiset | src/pages/Products.tsx:21 | filtering keeps every copy of an element that passes and no copy of one that fails |
| Seqs.FilterIsSubsequence | src/pages/Products.tsx:21 | a filter's result is an order-preserving subsequence of its input |
| Seqs.FilterEmptyIff | src/pages/Checkout.tsx:98-178 | the browser's "no required input is empty" test is stated as an empty filter of the required inputs; a filter comes back empty exactly when no element passes |
| Seqs.Find | src/data/mockData.ts:173 | `find` returns none exactly when no element matches, and otherwise the first match |
| Text.IncludesIffOccurs | src/pages/Products.tsx:23-24 | `includes` answers yes exactly when the needle occurs at some position |
| Text.SliceFromEnd | src/pages/Checkout.tsx:322 | `slice(-n)` is a suffix of the string: of length min(n, len) for n > 0, and the whole string for n = 0 (as `slice(-0)` is `slice(0)`) |

## Left out

- Markup, styling, icons, `Layout`, routing (`useNavigate`, `Link`, `useParams`), `toast` and the
  `setTimeout` redirect after placing an order. These are presentation and side effects. The route
  parameter becomes an `Option<string>` argument, and "Place order" leaves the step unchanged.
- React `useState` plumbing. Each setter is a pure function from old state to new state.
- `new Date(…)`, `toLocaleDateString` and `toFixed(2)`. These are locale and float formatting. Dates
  stay strings, and money is `real`, not IEEE doubles. A delivered order card with no estimate is
  modelled as "Delivered on" with an empty date string; the "Invalid Date" the browser would print
  is not modelled.
- `toLowerCase` beyond ASCII. `Text.Lower` folds only `A`–`Z`, which covers every fixture string.
- The browser's other input checks. `type="email"` also rejects a malformed address and the model
  checks only non-emptiness. The HTML `required` rule is the explicit guard described above.
- The star rating (`Math.floor(rating)`), which depends on the float rating. "Add to cart" on the
  product page only shows a toast.
- The review step's echo of the shipping fields. It is display only; the apartment line shows when
  it is non-empty.
- The seller page, navbar, footer, home page, product and category cards and the orders list. They
  are presentation with no logic of their own.
- ProductFilter.LaptopSearchFindsLaptop: proves only that the laptop is kept. Proving that the
  other seven products are dropped would mean scanning their 50–80 character descriptions for
  "laptop" inside the verifier, which is too costly.
- Implicit (Enter-key) submission of the payment form. The "Back" button there has no `type`, so
  it is the form's default button, and Enter in a card field activates "Back" rather than
  submitting. The model treats every control as clicked explicitly; Enter only leads back to the
  shipping step, so the reachable steps are the same.
- Seqs.Filter: its own contract gives only the length bound and that kept elements pass. Membership,
  subsequence and emptiness are separate lemmas (Seqs.FilterMembers, Seqs.FilterIsSubsequence,
  Seqs.FilterEmptyIff), and the members that need them call them.
- Text.SliceFromEnd: strings are sequences of Unicode scalar values, not UTF-16 code units. For
  a string with a character outside the Basic Multilingual Plane, JavaScript's `length` and
  `slice(-4)` count that character twice, and the model counts it once.
- Quantities and prices are unbounded `int` and `real`. JavaScript numbers are doubles, and
  overflow or rounding at their limits is not modelled.
