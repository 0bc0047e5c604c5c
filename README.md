# Catalog front-end: component state machines in Dafny

This project models the event-handling logic of a small product-catalog and
discount-calculation web front-end. Rendering and HTTP wiring are outside
the model. Three components hold state of their own, and each becomes a
Dafny class whose fields are the component's state variables and whose
methods are its handlers:

- **Discount calculator** (`discount_calculator.dfy`, module
  `DiscountCalculator`). It holds a quantity, an ordered list of selected
  discounts, a value buffer for the next discount, the discount catalog and
  the state of the catalog fetch. Adding a discount appends a
  `{type, value?}` record. Removing one splices the list at an index.
  Calculate hands `{productId, quantity, discountTypes}` to a callback, but
  only when a product is selected. The view is chosen by precedence: no
  product, then loading, then error, then the interactive form.
- **Product list** (`product_list.dfy`, module `ProductList`). It holds the
  current page of products, the page number and page count, and the fetch
  state. Previous moves to `max(1, page-1)` and Next to
  `min(totalPages, page+1)`. Each button is disabled exactly on its
  boundary. The numbered buttons are `1..totalPages`. A fetched page
  replaces the products and the page count, and a failed fetch sets an
  error. The view is the spinner, else the error banner alone, else the
  cards with the pagination controls.
- **Product form** (`product_form.dfy`, module `ProductForm`). It holds a
  `{name, price}` record with one change handler per field. The browser's
  constraint validation lets a submit through only with a non-empty name
  and a whole, non-negative price. Submit hands the record to the page's
  handler and resets it once that handler resolves. The submit is split at its await, so edits and further submits
  made while the handler is pending are part of the model.

Shared types are in `types.dfy`. `decimal.dfy` is a supporting model of
JavaScript's own `id.toString()` for the integral ids the list converts, with a
parser that reads it back; it serves the record mapping's id property rather
than the components' logic.

Each awaited call is split into two methods. The first runs before the
await. The second receives the awaited result: for the fetches a
`FetchOutcome` (the decoded payload, or a failure), for the form's submit a
`HandlerOutcome` (resolved or rejected).

Behaviour modelled as the code has it:

- The add handler compares the type string with the upper-case key `"BOGO"`.
  The catalog sends the lower-case `"bogo"`, so a buy-one-get-one entry
  picked from the catalog keeps a value (`CatalogBogoKeepsValue`).
- The value buffer starts at 0 and is only ever set to 0. So every added
  discount other than `"BOGO"` carries the amount 0, whatever amount its
  catalog entry shows. `CalculatorState.Valid` is this invariant, and
  `CatalogScenario` follows a 10% catalog entry through to the calculate
  call, where it arrives with value 0.
- The price input has `min="0"` and no `step`, so a fractional price such
  as 10.5 fails validation and cannot be submitted (`ValidationExamples`).
- The form is reset only after the submit handler resolves. A rejection
  leaves the fields as they were. The application's own handler catches
  every error of the create request and never rejects, so there the form is
  reset after every create attempt; `Rejected` arises only under a parent
  whose handler rethrows. The inputs and the button stay live while
  the handler is pending (the `isLoading` property is never read), so an
  edit made in that window is wiped on resolve (`EditWhilePendingScenario`)
  and a second click submits again (`DoubleSubmitScenario`).
- The catalog is fetched on mount whether or not a product is selected. The
  selected discounts are not cleared when the selected product changes.
- When the server reports 0 pages, Next on page 1 goes to page 0, and no
  numbered button exists (`NextWithoutPages`).
- The calculator's request type declares `productId` as a number, but the
  handler passes the product's string id. The model carries the string.

## Model

| member | source | states |
|---|---|---|
| Decimal.NatDigits | src/components/product-management/product-list.tsx:41 | the digits of a natural number are non-empty, all decimal digits, and have no leading zero |
| Decimal.DecimalString | src/components/product-management/product-list.tsx:41 | an integer's string starts with '-' exactly when it is negative, and the rest is digits |
| Decimal.ParseNatDigits | src/components/product-management/product-list.tsx:41 | reading back the digits of a natural number gives that number |
| Decimal.DecimalRoundTrip | src/components/product-management/product-list.tsx:41 | parsing the decimal string of any integer gives the integer back |
| Decimal.DecimalStringInjective | src/components/product-management/product-list.tsx:41 | two integers have the same decimal string if and only if they are equal |
| DiscountCalculator.NewDiscount | src/components/discount-calculator/discount-calculator.tsx:63-67 | the added record keeps the type string; it has no value iff the type is "BOGO"; otherwise its value is the buffer |
| DiscountCalculator.RemoveAt | src/components/discount-calculator/discount-calculator.tsx:159-160 | splicing an in-range index shortens the list by one, keeps earlier elements, and shifts later ones down by one; an index past the end changes nothing |
| DiscountCalculator.RemoveAtTakesOne | src/components/discount-calculator/discount-calculator.tsx:159-160 | removal takes out exactly the element at the index, as a multiset |
| DiscountCalculator.AddThenRemoveLast | src/components/discount-calculator/discount-calculator.tsx:68 | appending a discount and then removing the last index restores the previous list |
| DiscountCalculator.AddKeepsConforming | src/components/discount-calculator/discount-calculator.tsx:63-69 | adding from a zero buffer keeps every selected discount either value-less "BOGO" or of value 0 |
| DiscountCalculator.RemoveKeepsConforming | src/components/discount-calculator/discount-calculator.tsx:158-161 | removing keeps every selected discount conforming |
| DiscountCalculator.CatalogBogoKeepsValue | src/components/discount-calculator/discount-calculator.tsx:131 | the lower-case type "bogo" sent by the catalog is not the key "BOGO", so its record keeps the buffer value |
| DiscountCalculator.ViewOf | src/components/discount-calculator/discount-calculator.tsx:82-106 | with no product the prompt is shown whatever the loading and error state; otherwise loading beats error, and an error that is truthy in JavaScript's sense (`Truthy`: present and non-empty, the `if (error)` test at line 98) beats the ready view |
| DiscountCalculator.CalculatorState.constructor | src/components/discount-calculator/discount-calculator.tsx:32-42 | the initial state is quantity 1, no selected discounts, buffer 0, empty catalog, not loading and no error |
| DiscountCalculator.CalculatorState.BeginFetchDiscounts | src/components/discount-calculator/discount-calculator.tsx:44-46 | starting the catalog fetch sets loading and clears the error; nothing else changes |
| DiscountCalculator.CalculatorState.ResolveFetchDiscounts | src/components/discount-calculator/discount-calculator.tsx:48-56 | success replaces the catalog; failure sets the error and keeps the catalog; loading is false either way |
| DiscountCalculator.CalculatorState.SetQuantity | src/components/discount-calculator/discount-calculator.tsx:119 | the quantity input sets the quantity and nothing else |
| DiscountCalculator.CalculatorState.AddDiscount | src/components/discount-calculator/discount-calculator.tsx:63-70 | adding appends exactly one record at the end (duplicates allowed), built from the old buffer, and resets the buffer to 0; the buffer invariant is kept |
| DiscountCalculator.CalculatorState.RemoveDiscount | src/components/discount-calculator/discount-calculator.tsx:158-162 | removing replaces the list by its stable removal at the index, and changes nothing else |
| DiscountCalculator.CalculatorState.Calculate | src/components/discount-calculator/discount-calculator.tsx:72-80 | with no product the callback is not called; with one it receives the product id, the quantity and the selected discounts, and the state is unchanged |
| DiscountCalculator.CatalogScenario | src/components/discount-calculator/discount-calculator.tsx:44-80 | a 10% catalog entry clicked with quantity 2 reaches the callback as a percentage discount of value 0 |
| ProductList.PreviousPage | src/components/product-management/product-list.tsx:96 | Previous never goes below 1, moves down one from page 2 and above, and stays at 1 from page 1 |
| ProductList.NextPage | src/components/product-management/product-list.tsx:124 | Next never exceeds the page count, moves up one below it, and lands on the page count otherwise |
| ProductList.PreviousDisabled | src/components/product-management/product-list.tsx:96-97 | Previous is disabled (`currentPage === 1`) iff clicking it would leave the page unchanged |
| ProductList.NextDisabled | src/components/product-management/product-list.tsx:124-125 | Next is disabled (`currentPage === totalPages`) iff clicking it would leave the page unchanged |
| ProductList.NavigationStaysInRange | src/components/product-management/product-list.tsx:95-133 | with at least one page, Previous and Next keep a page in [1, totalPages] inside that range |
| ProductList.NextWithoutPages | src/components/product-management/product-list.tsx:108-125 | with 0 pages, Next from page 1 goes to page 0, is enabled, and there are no numbered buttons |
| ProductList.PageNumbers | src/components/product-management/product-list.tsx:108 | the numbered buttons are 1..totalPages in order, and there are none when the count is not positive |
| ProductList.PageButtonsCoverRange | src/components/product-management/product-list.tsx:108-111 | a page has a button iff it lies in [1, totalPages], and the buttons strictly ascend |
| ProductList.ToProduct | src/components/product-management/product-list.tsx:40-45 | the map callback: the product's id is the record id's decimal string and reads back as that id, the price is the parsed price text, and the name and creation time are copied unchanged |
| ProductList.MapRecords | src/components/product-management/product-list.tsx:40-45 | the mapping keeps the length and maps each record, position by position |
| ProductList.MapRecordsKeepsIdsDistinct | src/components/product-management/product-list.tsx:40-45 | records with distinct ids become products with distinct ids |
| ProductList.ViewOf | src/components/product-management/product-list.tsx:59-134 | loading beats error; the error view, chosen exactly when the error is truthy in JavaScript's sense (`Truthy`, the `if (error)` test at line 67), has no cards and no pagination; the grid shows the products, buttons 1..totalPages, and the two disabled flags at their boundaries |
| ProductList.ListState.constructor | src/components/product-management/product-list.tsx:28-32 | the initial state is page 1, one page, no products, not loading and no error |
| ProductList.ListState.BeginFetch | src/components/product-management/product-list.tsx:34-39 | starting a fetch sets loading, clears the error, and requests the given page with limit 6 |
| ProductList.ListState.ResolveFetch | src/components/product-management/product-list.tsx:38-52 | success replaces the products by the mapped records and the page count by the response's; failure sets the error and keeps both; loading is false either way |
| ProductList.ListState.Previous | src/components/product-management/product-list.tsx:96 | Previous sets the page to max(1, page-1) and changes nothing else |
| ProductList.ListState.Next | src/components/product-management/product-list.tsx:124 | Next sets the page to min(totalPages, page+1) and changes nothing else |
| ProductList.ListState.SelectPage | src/components/product-management/product-list.tsx:111 | clicking button p sets the page to p and changes nothing else |
| ProductList.FailedPageScenario | src/components/product-management/product-list.tsx:34-111 | after a first fetch reports two pages and button 2 is clicked, a failed fetch of page 2 shows only the error banner, with no cards and no pagination controls |
| ProductForm.FormState.constructor | src/components/product-management/product-form.tsx:16-19 | the form starts as {name: '', price: 0} |
| ProductForm.FormState.EditName | src/components/product-management/product-form.tsx:37 | editing the name changes only the name |
| ProductForm.FormState.EditPrice | src/components/product-management/product-form.tsx:51 | editing the price changes only the price |
| ProductForm.ValidationExamples | src/components/product-management/product-form.tsx:39-54 | the initial form (empty name), a negative price and the fractional price 10.5 fail the form's validation; a named form with a whole price passes |
| ProductForm.FormState.BeginSubmit | src/components/product-management/product-form.tsx:21-54 | the handler is called exactly when the form passes validation (name `required`; price `required`, `min="0"`, default step 1), and then once with the fields as they are at submission; nothing changes before its await |
| ProductForm.FormState.SettleSubmit | src/components/product-management/product-form.tsx:23-24 | once the handler resolves the form is reset to the initial form, whatever it held; if it rejects the fields keep their values |
| ProductForm.SubmitScenario | src/components/product-management/product-form.tsx:21-51 | after a name and a price edit, submitting sends exactly those values when they pass validation and nothing otherwise; a resolved handler leaves the initial form, on which a further submit is blocked |
| ProductForm.EditWhilePendingScenario | src/components/product-management/product-form.tsx:21-51 | for a submitted non-empty name, a name typed while the handler is pending was not submitted; it is wiped when the handler resolves and kept when it rejects |
| ProductForm.DoubleSubmitScenario | src/components/product-management/product-form.tsx:21-62 | with a non-empty name, a second submit while the first is pending sends the same fields again |

## Left out

- Decimal.DecimalString: ids are unbounded integers; JavaScript's exponent form for magnitudes of 10^21 and above, and the loss of precision of ids above 2^53 when the response is decoded, are not modelled.
- HTTP calls (axios) are not modelled. Each call's result is an abstract `FetchOutcome` input, and the start and the end of a fetch are separate methods.
- When fetches are triggered (`useEffect` on mount and on page change) is not modelled, nor is the order in which concurrent responses arrive. A stale response is just another `ResolveFetch` call.
- `parseFloat` of the price text is a function parameter of the record mapping. The result is a `real`, so floating-point rounding and `NaN` are not modelled.
- `Number(...)` parsing of the quantity and price inputs is not modelled. The handlers take the parsed number directly. Quantity is not assumed to be at least 1: its input is not inside a form, so `min="1"` blocks nothing.
- The form's price field is declared `number | null`, but no handler ever stores `null`. The model's price is always a number.
- The messages the browser shows for a form that fails validation are not modelled; only whether the submit goes through is.
- Price, date and currency formatting (`toFixed`, `toLocaleString`, `toLocaleDateString`) is not modelled.
- The labels of catalog buttons and applied-discount rows are not modelled. They read `name`, `discount_type` and `discount_value`, which neither the fetched catalog record nor the selected-discount record has.
- The product card's click, which hands the product to the page's selection callback, is not modelled. It has no state of its own.
- Logging (`console.log`, `console.error`) is not modelled.
- `src/app/page.tsx` is not part of this model. It only composes the components, the calculate callback there is a logging stub, and the final price is never set.
- JSX markup and CSS classes are not modelled.
