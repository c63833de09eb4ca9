# Storefront cart, checkout and catalogue logic in Dafny

A model of the state handling and arithmetic inside the storefront's DOM-building
JavaScript (`js/data-loader.js`, `js/product-detail-renderer.js`), with HTML strings,
event wiring, timers, storage and network access stripped away. The following parts are modelled:

- **Cart session** (`renderCart`): class `CartSession.Session` holds the copied cart
  lines, the payment method (cash on delivery by default), the subtotal and grand total
  of the latest repaint, the checkout attempts started so far and the number of
  navigations to the storefront. Every quantity change is followed by the repaint loop
  (`UpdateTotals`). The repaint sets each line's total to price × quantity, the subtotal
  to the sum of those totals, and the grand total to subtotal + 50000 shipping.
- **Checkout simulator** (`Checkout`): each click of the pay button creates one attempt.
  Cash on delivery completes at once with one navigation. MoMo or bank QR opens an
  overlay: its countdown starts at 10 and loses 1 per tick of the interval. At 0 it
  completes and navigates. The close button stops it. Ticks are discrete events, not time.
- **Add to cart** (`CartStore`): merging a product into the stored cart, as a search loop
  plus an update in place or an append, against a recursive reference definition.
- **Product list** (`Catalog`): defaults, page count, the visible window, the filter path and
  the pager bar.
- **Product page** (`ProductDetail`): lookup by id and merge over the detail record,
  related-products choice, image-path prefixing, and the quantity input.
  `Quantity` holds the min-1 stepper rule. The cart buttons and the product page share it.

Integers are unbounded. Prices are whole VND, so floating point never matters for the amounts.

The model follows the code as written, including where it lacks a guard or a clean-up step:
- A second pay click while a QR overlay is open is not rejected. It starts another
  attempt with its own countdown (`Session.CheckoutClick`), and `navigations` counts one
  navigation per completed attempt.
- Nothing clears the cart after checkout.
- Closing the overlay returns the page to a state in which a new click starts a new attempt.
- An out-of-range line index cannot come from the rendered buttons, so `Inc`/`Dec` require
  a valid index. They do not model a silent no-op.
- The code does not guarantee quantity ≥ 1 for loaded lines. The model proves it is
  preserved from any start that satisfies it (`PressesKeepCartSound`, `Session.Dec`).

## Model

| member | source | states |
|---|---|---|
| `Quantity.Increment` | js/product-detail-renderer.js:223-226 | `+` raises the value, and from any value ≥ 1 a following `-` returns exactly to it |
| `Quantity.Decrement` | js/product-detail-renderer.js:228-233 | `-` moves by at most one, lowers the value iff it is above 1, and never takes a value ≥ 1 below 1 |
| `Quantity.PressesStayPositive` | js/product-detail-renderer.js:223-233 | after any sequence of presses from a start ≥ 1 the value stays ≥ 1 and exceeds the start by at most the number of `+` presses |
| `ProductDetail.QuantityInput.constructor` | js/product-detail-renderer.js:224 | the input holds its initial value |
| `ProductDetail.QuantityInput.Increase` | js/product-detail-renderer.js:223-226 | the input's value becomes one more |
| `ProductDetail.QuantityInput.Decrease` | js/product-detail-renderer.js:228-233 | the value drops by one when above 1 and is unchanged otherwise |
| `Checkout.Recipient` | js/data-loader.js:247-251 | the QR carries the given amount; bank id 970422 with account 999999999 "MOMO DEMO" for MoMo, 970436 with 123456789 "NGUYEN VAN A" for bank |
| `Checkout.Start` | js/data-loader.js:244-296 | a click with cash on delivery completes and navigates; with a QR method it waits with timer 10, carries that method's recipient (bank id, account, name) and amount = the subtotal, and the displayed total is subtotal + 50000 |
| `Checkout.Tick` | js/data-loader.js:275-283 | a tick navigates iff it moves a waiting attempt at timer 1 to completed; otherwise a waiting attempt loses exactly 1 and keeps its QR; closed or completed attempts do not change |
| `Checkout.Close` | js/data-loader.js:284-287 | closing leaves the attempt neither waiting nor completed |
| `Checkout.CountdownRun` | js/data-loader.js:273-283 | from timer t ≥ 1, n < t ticks leave it waiting at t − n with no navigation; t or more ticks complete it with exactly one navigation |
| `Checkout.CompletedIsQuiet` | js/data-loader.js:278-281 | after completion the cleared interval never changes the state or navigates again |
| `Checkout.ClosedIsQuiet` | js/data-loader.js:284-287 | after closing no tick reopens, completes or navigates |
| `Checkout.QrCheckoutNavigatesOnceAfterTenTicks` | js/data-loader.js:245-283 | a MoMo/bank checkout navigates exactly once, after exactly 10 ticks, never before |
| `Checkout.CloseBeforeZeroNeverNavigates` | js/data-loader.js:273-287 | closing after k < 10 ticks means no navigation ever, whatever ticks follow |
| `CartSession.Repriced` | js/data-loader.js:165-167 | a repaint keeps every line except its total, and afterwards every total equals price × quantity |
| `CartSession.RepricedFresh` | js/data-loader.js:163-168 | repainting lines that are already fresh changes nothing |
| `CartSession.FreshTotalsSum` | js/data-loader.js:164-168 | when totals are fresh, the sum of stored totals is the order value |
| `CartSession.UpdateTotals` | js/data-loader.js:163-170 | the repaint loop yields the repriced lines and a subtotal that is both the sum of their totals and the sum of price × quantity |
| `CartSession.SubtotalWithQuantity` | js/data-loader.js:229-231 | changing one line's quantity moves the subtotal by that line's price × the change |
| `CartSession.SubtotalAfterInc` | js/data-loader.js:229 | `+` raises the subtotal by exactly that line's price |
| `CartSession.SubtotalAfterDec` | js/data-loader.js:230 | `-` lowers the subtotal by the line's price when its quantity is above 1 and is a no-op at 1 or below |
| `CartSession.DecUndoesInc` | js/data-loader.js:229-230 | `-` after `+` on a line with quantity ≥ 1 restores the lines |
| `CartSession.PressesKeepCartSound` | js/data-loader.js:225-232 | any sequence of `+`/`-` presses with repaints keeps quantities ≥ 1, totals fresh, and every line's id, name, price and image |
| `CartSession.Session.constructor` | js/data-loader.js:159-161 | the session holds a value copy of the loaded lines, repriced; cash on delivery is selected; subtotal and total are those of the loaded lines; no attempt or navigation yet |
| `CartSession.Session.Repaint` | js/data-loader.js:163-170 | totals are recomputed and the invariant holds; method and attempts are unchanged |
| `CartSession.Session.Inc` | js/data-loader.js:229-231 | only line idx changes, its quantity by +1; the subtotal rises by its price; everything else is unchanged |
| `CartSession.Session.Dec` | js/data-loader.js:230-231 | line idx drops by 1 only above 1 (the subtotal by its price); at 1 the whole state is unchanged; quantity ≥ 1 is kept; other lines are unchanged |
| `CartSession.Session.SetMethod` | js/data-loader.js:235-238 | only the payment method changes |
| `CartSession.Session.CheckoutClick` | js/data-loader.js:244-296 | one attempt is appended from the current method and subtotal; a QR attempt carries the selected method's recipient, its amount is the subtotal and its displayed total the grand total; only cash on delivery navigates; the cart is unchanged |
| `CartSession.Session.TickAttempt` | js/data-loader.js:275-283 | attempt k advances by `Tick`, navigation happens iff it completes, nothing else changes, and the invariant navigations = completed attempts holds |
| `CartSession.Session.CloseOverlay` | js/data-loader.js:284-287 | attempt k becomes closed, with no navigation and no change to lines, totals or method |
| `CartSession.MomoCheckoutScenario` | js/data-loader.js:159-283 | one line 100000 × 2 paid by MoMo: QR amount 200000, displayed 250000, exactly one navigation after 10 ticks |
| `CartSession.BankCancelScenario` | js/data-loader.js:273-287 | bank QR closed after 5 ticks and then 5 more ticks: no navigation, attempt closed, lines unchanged |
| `CartStore.Bumped` | js/data-loader.js:373 | an existing quantity q becomes q + 1, and a zero (falsy) quantity becomes 2 |
| `CartStore.AddedWhenAbsent` | js/data-loader.js:374-375 | a product not in the cart is appended last with quantity 1, the rest unchanged |
| `CartStore.AddedAtFirstMatch` | js/data-loader.js:371-373 | when the id first occurs at k, only entry k changes, and only its quantity |
| `CartStore.AddedKeepsIdsUnique` | js/data-loader.js:367-377 | adding keeps at most one entry per id |
| `CartStore.AddTwiceNew` | js/data-loader.js:371-376 | adding a new product twice yields one entry for it, last, with quantity 2 |
| `CartStore.FindEntry` | js/data-loader.js:371 | returns the first index with the id, or none exactly when no entry has it |
| `CartStore.Storage.constructor` | js/data-loader.js:368-369 | the storage holds the given cart |
| `CartStore.Storage.AddToCart` | js/data-loader.js:360-377 | the stored cart becomes the reference merge of the old one, and unique ids stay unique |
| `Catalog.OrDefault` | js/data-loader.js:53-54 | a given non-zero option is kept; a zero or omitted one takes the default |
| `Catalog.TotalPages` | js/data-loader.js:58 | the page count is the least number of pages of the given size that hold all products |
| `Catalog.Slice` | js/data-loader.js:61 | `slice` of non-negative bounds is the clamped subsequence, of at most end − start items |
| `Catalog.Window` | js/data-loader.js:59-61 | page p shows `products[min((p-1)·ipp, n) .. min(p·ipp, n)]`, at most ipp items |
| `Catalog.Filter` | js/data-loader.js:48-50 | the result is no longer than the input, holds only accepted input products, and holds every accepted one (order and counts: the three lemmas below) |
| `Catalog.FilterConcat` | js/data-loader.js:49 | filtering a concatenation is the concatenation of the filtered parts, so catalogue order is kept |
| `Catalog.FilterSingle` | js/data-loader.js:49 | a single product is kept exactly when the filter accepts it |
| `Catalog.FilterCounts` | js/data-loader.js:49 | each accepted product appears as often as in the catalogue, each rejected one never |
| `Catalog.PageLinks` | js/data-loader.js:121-124 | one link per page 1..totalPages, in order, active exactly for the current page |
| `Catalog.RenderProducts` | js/data-loader.js:47-130 | with a filter: all accepted products and no pager; otherwise the window of the defaulted page, and a pager iff totalPages > 1. The pager has Prev iff page > 1, Next iff page < totalPages, all numbers, and only in-range targets for an in-range page |
| `Catalog.PagesUpToIsPrefix` | js/data-loader.js:59-61 | pages 1..k together are the first min(k·ipp, n) products |
| `Catalog.PagesCoverCatalogue` | js/data-loader.js:58-61 | pages 1..totalPages shown one after another are exactly the catalogue, in order |
| `Catalog.ProductOnPage` | js/data-loader.js:58-61 | product i appears on page i / ipp + 1, which is within 1..totalPages, at position i mod ipp |
| `ProductDetail.FindProduct` | js/product-detail-renderer.js:24 | returns the first product whose id matches, or none exactly when no product matches |
| `ProductDetail.MergeDetail` | js/product-detail-renderer.js:32 | the merged keys are the union; product fields override, detail-only fields are kept |
| `ProductDetail.LoadById` | js/product-detail-renderer.js:24-36 | none iff no product has the id; otherwise the first match merged over the detail record, carrying the requested id and every detail key |
| `ProductDetail.Related` | js/product-detail-renderer.js:198-200 | between 1 and 3 items; for a non-empty array, its first min(3, len) entries in order; otherwise three copies of the current product |
| `ProductDetail.ResolveImage` | js/product-detail-renderer.js:77 | a path starting with "http" is kept; any other path gets "../" in front |
| `ProductDetail.ResolvedShape` | js/product-detail-renderer.js:77-78 | a resolved path starts with "http" or "../" and ends with the original path |
| `ProductDetail.ResolveImageInjective` | js/product-detail-renderer.js:77-78 | two paths that resolve alike are the same path |
| `ProductDetail.ResolveGallery` | js/product-detail-renderer.js:78 | the gallery keeps its length and order, each image resolved |
| `ProductDetail.RelatedImage` | js/product-detail-renderer.js:204 | a related card uses `image` when non-empty, otherwise `mainImage`, resolved |

## Left out

- Fetching and parsing the JSON files (`load`, the fetches in `loadById`) and `localStorage`. These are I/O: loaded data and the stored cart are inputs (`seq` values), and parse or storage failures are not modelled. So are the early returns of `renderProducts` and `renderCart` (js/data-loader.js:36-45, 148-157) when the loaded data or the target container is missing; each leaves the page as it was and changes no state.
- `formatPrice` (`Intl.NumberFormat`) and all HTML assembly, inline styles, `innerHTML` replacement, `scrollTo`, toasts and alerts. These are presentation: the model keeps the numbers they display.
- Event wiring and re-binding after every repaint. A repaint hands out fresh handlers that read the closure state, so each model method is one handler firing. Stale-handler races are not modelled.
- Wall-clock timing of `setInterval` (1000 ms) and `setTimeout` (1500 ms). Ticks are events. The cash-on-delivery navigation that waits 1500 ms is counted when the attempt starts. The toast and alert branches are not distinguished, because both navigate once.
- Leaving the page on navigation. The model keeps the state and only counts navigations.
- The QR image URL string and `encodeURIComponent`. Only the bank id, account, name and amount it is built from are modelled.
- JavaScript number semantics: `NaN` ids, prices and input values, and `undefined` quantities (other than the falsy zero in `(quantity || 1) + 1`). Values are unbounded integers, so precision loss above 2^53 is not modelled either.
- `Catalog.RenderProducts`: `page` and `itemsPerPage` are naturals, with 0 standing for an omitted or falsy option. Negative option values, which `slice` would count from the end, are not modelled. The pager's click handler only re-renders with the chosen page and the same `itemsPerPage`, which is another call of the same method.
- `ProductDetail.FindProduct`: the loose `==` between a URL string and a numeric id is not modelled. Records are maps from field names to values of one type, and a match means an `"id"` field equal to the requested value.
- `ProductDetail.RelatedImage`: a product with neither `image` nor `mainImage` (where the source would throw) is not modelled. An empty string stands for a missing `image`.
- `renderLoginForm`, `getTitle`, `getPageType`, `getProductIdFromUrl`, `renderReviews`, `renderProductDetails` and `buyNowFromButton`. These are templating or navigation only.
- data-loader.js at the repository root, js/layout-loader.js and js/notifications.js. These are an older duplicate without cart logic, and header/footer/toast I/O; they are not part of this model.
