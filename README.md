# Storefront client logic in Dafny

This project models the client-side logic of a small Next.js storefront and
proves properties of it. The storefront shows a product list that can be
narrowed by a search box, a category choice and a price slider, a product
detail page with a quantity stepper and thumbnails, and a three-step
checkout. Everything else in the repository is markup.

The modules follow the components:

- `Wrappers`: `Option`. It models JavaScript's `null`.
- `Text`: the string primitives the components rely on. These are
  `toLowerCase` (ASCII letters only), `includes`, `split` on one character,
  `Number(...)` on decimal text and the template form `${n}` of a
  non-negative integer. `Number` yields `Finite(n)` or `NaN`.
- `Collections`: `Array.prototype.filter` is `Select` and
  `[...new Set(xs)]` is `Distinct`, each with its specification.
- `Types`: the `Product` record of `types/types.d.ts`. Prices are `real`,
  because a JavaScript number can be fractional.
- `ProductFilters`: the filter form, a class `FiltersForm`.
  - Its fields are the search text, the chosen category and the slider pair.
  - It logs every callback it makes to the list in a `sent` field.
  - `Valid()` says that the latest value sent through each callback is the
    form's current value.
- `ProductList`: the list component. It contains:
  - the `debounce` helper, a class `Debouncer` specified by `Replay`, a
    function over the history of calls and timer expiries;
  - the filter pipeline `Filter`, specified by the predicate `Matches`;
  - category extraction;
  - the component itself, a class `ProductListView`.
- `ProductDetail`: the detail page, a class `ProductDetailView`, with the
  stepper and thumbnail functions.
- `Checkout`: the step state machine (`Next`, `Run`), the indicator
  functions and the class `CheckoutPage`.

Behaviours of the code that the model keeps on purpose:

- **The list does not coalesce bursts of filter changes.**
  - `useCallback` rebuilds the debounced closure whenever the products or a
    filter input change. Each new closure has a fresh, empty `timeout`, and
    the effect calls it once.
  - So a timer is only ever cleared within one closure (`Debouncer.Call`).
    Across changes, every change leaves its own timer, and that timer uses
    the values its closure captured.
  - `ProductListView.timers` is that queue, oldest first. `Valid()` keeps
    two facts: the newest timer holds the current values, and once no timer
    is left the filtered list is `Filter(products, filters)`.
  - So two filter changes within 300 ms run two recomputations, each with
    the values its own closure captured, and not one recomputation with the
    latest values. Only the last one leaves the final result.
- **The form's defaults differ from the list's.** The list starts with the
  price range `"all"`, which applies no price filter. Its filter form,
  however, reports `"0-1000"` when it mounts (`FiltersForm.constructor`).
  From then on, products priced above 1000 are hidden even though nobody
  moved the slider (`ProductList.MountedFormHidesExpensiveProducts`).
- **The order of the category list is kept.** The category names appear in
  order of first appearance. The form renders its radio options in that
  order, after "all" (`ProductFilters.CategoryOptions`).
- **An empty product id means no fetch.** When the product id is empty, the
  detail page starts no fetch and stays on its skeleton
  (`ProductDetail.ProductDetailView.constructor`).

## Model

| member | source | states |
|---|---|---|
| Text.ToLower | components/product/product-list.tsx:68 | lower-casing keeps the length, maps each character by ASCII lower-casing and leaves no upper-case letter |
| Text.Includes | components/product/product-list.tsx:71-72 | `includes` is true iff the needle occurs at some index of the text |
| Text.ToNumber | components/product/product-list.tsx:84-85 | `Number` of the text is finite and non-negative iff the text is all digits, and the empty text gives 0 |
| Text.FormatNatRoundTrip | components/product/product-filters.tsx:37 | `Number` of the decimal form of n is n |
| Text.CanonicalDecimalRoundTrip | components/product/product-list.tsx:84-85 | a digit string with no leading zero (other than "0" itself) is a finite number whose decimal form is that string, so with FormatNatRoundTrip `${n}` and `Number` are inverse on canonical decimals |
| Text.Split | components/product/product-list.tsx:83 | `split` returns at least one part, and no part contains the separator |
| Text.SplitJoin | components/product/product-list.tsx:83 | joining the parts of a split with the separator restores the text |
| Collections.Select | components/product/product-list.tsx:69-73 | `filter` returns an order-preserving subsequence; each element is kept as often as in the input if the predicate holds, and otherwise not at all |
| Collections.SelectIdempotent | components/product/product-list.tsx:69-73 | filtering twice with the same predicate equals filtering once |
| Collections.Distinct | components/product/product-list.tsx:47 | the result has no duplicates and contains exactly the input's elements |
| Collections.DistinctFirstOccurrenceOrder | components/product/product-list.tsx:47 | the distinct elements are listed in order of their first occurrence in the input |
| ProductList.CallsOnlyReplacePending | components/product/product-list.tsx:18-20 | a series of calls to one debounced closure runs nothing, and leaves the last call's arguments pending |
| ProductList.BurstRunsOnceWithLastArgs | components/product/product-list.tsx:16-21 | a burst of calls followed by one quiet period runs the wrapped function exactly once, with the last call's arguments |
| ProductList.RunsUseCalledArgs | components/product/product-list.tsx:18-20 | the pending arguments and every run's arguments come from some call |
| ProductList.Debouncer.constructor | components/product/product-list.tsx:16 | a new closure has no pending timer and has run nothing |
| ProductList.Debouncer.Call | components/product/product-list.tsx:18-20 | a call clears the pending timer, returns it, sets a new one for its arguments and runs nothing |
| ProductList.Debouncer.Fire | components/product/product-list.tsx:20 | when the timer expires the pending call runs, once, and nothing stays pending |
| ProductList.FilterSelectsMatches | components/product/product-list.tsx:64-92 | the three conditional filters in a row equal one filter by the conjunction of the search, category and price conditions |
| ProductList.FilterKeepsExactlyMatches | components/product/product-list.tsx:64-92 | the filtered list is an order-preserving subsequence, holds exactly the matching products and keeps each matching product's multiplicity |
| ProductList.FilterWithoutInputsIsIdentity | components/product/product-list.tsx:34-36 | with the initial inputs `""`, `"all"`, `"all"` the filter returns the products unchanged |
| ProductList.FilterIdempotent | components/product/product-list.tsx:64-92 | re-filtering the result with the same inputs changes nothing |
| ProductList.SearchIgnoresCase | components/product/product-list.tsx:67-74 | a query and its lower-cased form select the same products |
| ProductList.UpperCaseQueryFindsTitle | components/product/product-list.tsx:67-74 | the query "SHOE" matches the title "running shoes" |
| ProductList.InvertedRangeIsEmpty | components/product/product-list.tsx:82-90 | a parsed range with min above max empties the result, without an error |
| ProductList.RangeRoundTrip | components/product/product-list.tsx:83-85 | splitting `${lo}-${hi}` on "-" and applying `Number` to both parts gives back (lo, hi) |
| ProductList.MountedFormHidesExpensiveProducts | components/product/product-filters.tsx:35-39 | under the range the form reports on mount, the list keeps exactly the products priced 0 to 1000 |
| ProductList.RedSearchKeeps | components/product/product-list.tsx:67-90 | a product titled "Red…" or "red…" priced 0 to 1000 passes the search "red" over "0-1000" |
| ProductList.RedSearchDrops | components/product/product-list.tsx:67-74 | a product with no letter d in its title or description, in either case, fails the search "red" |
| ProductList.RedSearchVerdicts | components/product/product-list.tsx:64-92 | in the sample catalogue the red shirt and the red mug pass the red search and the blue shirt fails it |
| ProductList.SampleSearchScenario | components/product/product-list.tsx:64-92 | over red shirt, blue shirt and red mug, "red" with any category and "0-1000" yields the red shirt and the red mug in that order |
| ProductList.SampleCategoryPriceScenario | components/product/product-list.tsx:64-92 | over the same catalogue, "Apparel" with "0-50" yields only the red shirt |
| ProductList.UniqueCategoriesContract | components/product/product-list.tsx:47 | the category list has no duplicates, names every product's category and nothing else, in first-occurrence order |
| ProductList.OfferedOptionIsNeverEmpty | components/product/product-list.tsx:77-79 | over a non-empty catalogue, choosing any option the form offers ("all" or a listed category), with no other filter, leaves at least one product |
| ProductList.ReceiveAllKeepsLatest | components/product/product-list.tsx:102-112 | after a series of callbacks each input holds the value last sent for it, or its initial value |
| ProductList.ListMirrorsForm | components/product/product-list.tsx:102-112 | while the form's invariant holds, the list's inputs are the form's search, category and range string |
| ProductList.ProductListView.constructor | components/product/product-list.tsx:29-36 | the list mounts with empty lists, loading, the initial inputs and one timer, and shows the skeletons |
| ProductList.ProductListView.LoadSucceeded | components/product/product-list.tsx:42-50 | on success both lists are the data, the categories are derived from it, loading ends and the invariant holds |
| ProductList.ProductListView.LoadFailed | components/product/product-list.tsx:51-54 | on failure the fixed message is set, loading ends, the products stay empty and the error card shows |
| ProductList.ProductListView.Receive | components/product/product-list.tsx:94-100 | a callback updates its input, and a real change enqueues a timer holding the new values |
| ProductList.ProductListView.HandleSearchChange | components/product/product-list.tsx:102-104 | sets the search input; nothing else changes except the timer queue |
| ProductList.ProductListView.HandleCategoryChange | components/product/product-list.tsx:106-108 | sets the category input; nothing else changes except the timer queue |
| ProductList.ProductListView.HandlePriceRangeChange | components/product/product-list.tsx:110-112 | sets the range input; nothing else changes except the timer queue |
| ProductList.ProductListView.FireNextTimer | components/product/product-list.tsx:62-95 | the oldest timer recomputes the filtered list from its captured values; with no timer left the filtered list is the current filter result |
| ProductList.ProductListView.View | components/product/product-list.tsx:114-170 | eight skeletons iff loading; the error card with the message iff loading has ended and the error is a non-empty string; the "no matching products" message iff neither and the filtered list is empty; otherwise the grid of exactly the filtered products |
| ProductList.SettledListShowsMatches | components/product/product-list.tsx:62-92 | once loaded without error and with no timer left, the list shows "no matching products" iff no product matches the current inputs, and otherwise a grid of exactly the matching products in catalogue order |
| ProductFilters.RangeString | components/product/product-filters.tsx:37 | splitting the range string on "-" gives exactly the two decimal forms |
| ProductFilters.CategoryOptions | components/product/product-filters.tsx:91-100 | the options are "all" followed by the categories in the given order |
| ProductFilters.LastSent | components/product/product-filters.tsx:31-44 | a value exists iff the callback was called, and it is the value of a notice through that callback after which no other notice went through the same callback (the most recent one) |
| ProductFilters.FiltersForm.constructor | components/product/product-filters.tsx:24-39 | the form starts with "", "all" and [0, 1000], and reports "" and "0-1000" |
| ProductFilters.FiltersForm.SetSearch | components/product/product-filters.tsx:31-33 | a new search text is stored and forwarded once if it changed; the other fields are unchanged |
| ProductFilters.FiltersForm.ChooseOption | components/product/product-filters.tsx:86-100 | clicking radio option k selects "all" for k = 0 and otherwise the (k-1)-th category, and forwards that value |
| ProductFilters.FiltersForm.HandleCategoryChange | components/product/product-filters.tsx:41-44 | the category is stored and exactly that value is forwarded |
| ProductFilters.FiltersForm.HandlePriceChange | components/product/product-filters.tsx:46-48 | the whole pair is replaced and its range string is forwarded |
| ProductDetail.Thumbnails | components/product/product-detail.tsx:106 | at most five thumbnails are offered; they are the first images in order, and all of them when there are at most five |
| ProductDetail.ThumbnailRow | components/product/product-detail.tsx:106-121 | one thumbnail per offered image, ringed iff it is the selected image, showing the image when its URL is non-empty and the placeholder exactly when it is empty |
| ProductDetail.DefaultImage | components/product/product-detail.tsx:29 | the first image is selected, or "" when there is none; a non-empty selection is an offered thumbnail |
| ProductDetail.Decremented | components/product/product-detail.tsx:51-53 | decrementing never goes below 1 and lowers a valid quantity by at most one |
| ProductDetail.StepperRoundTrip | components/product/product-detail.tsx:47-53 | decrementing after incrementing restores any valid quantity |
| ProductDetail.DisabledExactlyAtFloor | components/product/product-detail.tsx:144 | the minus button is disabled iff decrementing would change nothing; otherwise it lowers the quantity by one |
| ProductDetail.PressesStayAboveFloor | components/product/product-detail.tsx:47-53 | any series of presses from a valid quantity stays at 1 or above and at most the start plus the plus presses, with equality when there is no minus press |
| ProductDetail.ProductDetailView.View | components/product/product-detail.tsx:64-86 | skeleton iff loading; the error card iff `error` is non-empty or there is no product, with the error or "Product not found"; the panel shows the quantity and disables minus iff quantity ≤ 1 |
| ProductDetail.ProductDetailView.constructor | components/product/product-detail.tsx:18-41 | the page starts loading with quantity 1 and no image, and a fetch is pending iff the id is non-empty |
| ProductDetail.ProductDetailView.FetchSucceeded | components/product/product-detail.tsx:27-30 | the product is stored, its default image is selected, loading ends and the panel shows it |
| ProductDetail.ProductDetailView.FetchFailed | components/product/product-detail.tsx:31-34 | the fixed message is set, loading ends, there is no product and the error card shows it |
| ProductDetail.ProductDetailView.HandleImageClick | components/product/product-detail.tsx:43-45 | the clicked image becomes the selected one and nothing else changes |
| ProductDetail.ProductDetailView.SelectThumbnail | components/product/product-detail.tsx:106-112 | clicking thumbnail k (k < 5) selects image k, which is then ringed |
| ProductDetail.ProductDetailView.IncrementQuantity | components/product/product-detail.tsx:47-49 | the quantity rises by exactly one and stays at least 1 |
| ProductDetail.ProductDetailView.DecrementQuantity | components/product/product-detail.tsx:51-53 | the quantity falls by one when above 1 and otherwise stays at 1 |
| Checkout.Rank | app/checkout/page.tsx:23 | steps are ranked 1 to 3, with rank 1 only for shipping and 3 only for confirmation |
| Checkout.Offered | app/checkout/page.tsx:97-226 | the confirmation card offers no step action; Back is offered only on payment |
| Checkout.Next | app/checkout/page.tsx:39-47 | only an offered action changes the step; an action moves at most one step forward, only Back moves backwards (to shipping), and confirmation is entered only by submitting payment |
| Checkout.HandlerTable | app/checkout/page.tsx:39-47 | shipping submit leads to payment, payment submit to confirmation, Back on payment to shipping; confirmation ignores every action and actions a card does not offer change nothing |
| Checkout.ConfirmationIsTerminal | app/checkout/page.tsx:205-226 | no series of actions leaves the confirmation step |
| Checkout.ConfirmationNeedsPayment | app/checkout/page.tsx:44-47 | reaching confirmation from another step needs a payment submit |
| Checkout.ConfirmationNeedsBothSubmits | app/checkout/page.tsx:39-47 | from the start, confirmation needs a shipping submit followed later by a payment submit |
| Checkout.ExactlyOneCard | app/checkout/page.tsx:97-205 | exactly one step card is rendered, the current step's |
| Checkout.HighlightsFollowRank | app/checkout/page.tsx:58-89 | circle i is highlighted iff it is at or before the current step, so 1, 2, 3 circles are lit in step order |
| Checkout.BadgesFollowRank | app/checkout/page.tsx:65-91 | a circle shows a check mark iff its step lies behind the current one, and its number otherwise; circle 1 shows "1" only in shipping, circle 2 a check only in confirmation |
| Checkout.CheckoutPage.constructor | app/checkout/page.tsx:23-25 | the page opens on shipping |
| Checkout.CheckoutPage.HandleShippingSubmit | app/checkout/page.tsx:39-42 | the step becomes payment |
| Checkout.CheckoutPage.HandlePaymentSubmit | app/checkout/page.tsx:44-47 | the step becomes confirmation |
| Checkout.CheckoutPage.HandleBack | app/checkout/page.tsx:196 | the step becomes shipping |
| Checkout.CheckoutPage.Perform | app/checkout/page.tsx:97-226 | a user action leaves the step at `Next` of the old step, and confirmation stays confirmation |

## Left out

- Network I/O is not modelled. `fetchProducts` and `fetchProductById` belong to `@/lib/api`, which is not part of this model. Only their outcome, success with data or failure, enters as a method call. `parseInt(productId)` is also not modelled.
- Real timers are not modelled. `setTimeout`, `clearTimeout`, the 300 ms wait and React's effect and render scheduling appear only as explicit steps (`Debouncer.Fire`, `ProductListView.FireNextTimer`). A timer firing after the list unmounts is not modelled either.
- The wrapped function `func` in `debounce` is not called by the model. `Debouncer` records the arguments of each run in `ran`.
- The values a pending timer captured never change. Products change only through the one load.
- JavaScript numbers are modelled as unbounded integers, and `FormatNat` writes plain decimal. In JavaScript, `${n}` switches to exponent form from 1e21 and loses precision above 2^53. Slider values stay at most 1000, so this does not arise here.
- Re-sends on every parent render are not modelled. The list passes fresh callback functions on each render, so the form's two effects can send the same values again. Such a repeat does not change the list's inputs, and `Receive` leaves the queue alone for it.
- Only ASCII letters are lower-cased. Full Unicode `toLowerCase` is not modelled.
- Text.ToNumber: only decimal digit strings are finite numbers. Signs, spaces, fractions and exponents all read as NaN, whereas JavaScript's `Number` accepts them. The form only ever sends digit strings.
- The slider's value array is modelled as a pair of natural numbers. Arrays of another length and fractional slider values are not modelled.
- `Intl.NumberFormat` currency formatting is not modelled, because it is locale-dependent library code.
- All JSX, Tailwind classes, images, links and UI components are not modelled. The rendering is reduced to the `View` functions and the indicator functions.
- The checkout's mock order summary is not modelled. It is fixed floating-point constants.
- The Back button's interplay with the browser's form submit is not modelled. The button has no `type="button"`. The model keeps only its handler's transition.
- `ProductDetail.ProductDetailView`'s `productId` is fixed for the component's lifetime. A prop change that would re-run the fetch effect is not modelled.
