# MAXNotes storefront core, in Dafny

MAXNotes is a single-page storefront that sells course notes and tools to
students. Its page component (`App.tsx`) holds all the logic worth proving:

- **Cart pricing engine** (`calculateCartTotals`). 'Note' items are priced by
  tier on their summed quantity: 10 each, 8 each from 3, 7 each from 5, and a
  flat 89 from 21. When the full-access bundle ("DaBao") is in the cart, the
  notes are instead charged 89 per bundle unit. Every item outside the 'Note'
  category is charged price times quantity. The engine also returns a savings
  message.
- **Cart store**. `addToCart`, `removeFromCart`, `handleCheckoutSuccess` and
  the header badge count update or read the cart, a list of lines with one
  quantity each, and the "students helped" counter.
- **Catalog filter**. The effect that narrows the product list by the active
  browse filter and the search box.

The project has these modules:

- `types.dfy` (`Types`): the `Product` and `CartItem` records of `types.ts`.
  Money is whole cents; the source's constants 10, 8, 7 and 89 become 1000,
  800, 700 and 8900.
- `sequences.dfy` (`Sequences`): `filter` and `reduce` over sequences, and
  what they preserve (order, multiplicities, sums under reordering).
- `text.dfy` (`Text`): `toLowerCase` (ASCII letters), `trim`, `includes`,
  and the decimal rendering of an integer in a template literal.
- `cart.dfy` (`Cart`): the updaters `addToCart` and `removeFromCart` pass to
  `setCart`, as functions from the old line list to the new one. It proves
  how they change the lines and the quantity total. It also proves that they
  keep a cart **well formed**: one line per product, each with a quantity of
  at least one.
- `pricing.dfy` (`Pricing`): `calculateCartTotals` branch by branch, and
  reference definitions of the per-line sums stated over the whole cart.
  Its lemmas state the tiers, the bundle override, the messages, and that
  the total ignores note prices and line order.
- `catalog.dfy` (`Catalog`): the filtering effect, and a statement of which
  products it shows.
- `storefront.dfy` (`Storefront`): the component's state as a class `App`.
  Each handler is a method that updates the fields and re-runs the filtering
  effect where the source's dependencies would.

## Model

| member | source | states |
|---|---|---|
| Cart.QuantitySum | App.tsx:159 | the badge count: when every line holds at least one unit it is at least the number of lines, and zero exactly when the cart is empty |
| Cart.CountCoversLines | App.tsx:152 | the same bound for the `reduce` that counts the units sold at checkout, proved by induction over the lines |
| Cart.Find | App.tsx:136 | `find` by id is absent exactly when no line has the id; otherwise it is a line of the cart with that id |
| Cart.FindFirst | App.tsx:75 | `find` returns the line at k whenever no earlier line has its id, which in a well-formed cart is every line |
| Cart.Incremented | App.tsx:138-140 | the `map` keeps the number of lines and every line's product; only quantities change |
| Cart.IncrementedSum | App.tsx:138-140 | the `map` raises the summed quantity by one if the id is present and leaves it alone otherwise |
| Cart.IncrementedAt | App.tsx:138-140 | in a cart with one line per product, the `map` changes only the product's line, raising its quantity by one |
| Cart.AddedToCart | App.tsx:134-143 | afterwards the product has a line; a line is added only when it had none; lines for other products keep their place and content |
| Cart.AddToCartLines | App.tsx:134-143 | in a cart with one line per product, adding a present product changes exactly one line, whose quantity rises by one; adding a new product appends it with quantity 1 |
| Cart.AddToCartCount | App.tsx:134-143 | adding a product raises the cart's summed quantity by exactly one |
| Cart.AddToCartWellFormed | App.tsx:134-143 | adding keeps one line per product, each with quantity at least one |
| Cart.RemovedFromCart | App.tsx:148 | the updater keeps exactly the lines whose id differs from the removed one |
| Cart.RemoveFromCartLines | App.tsx:147-149 | afterwards no line has the id; the rest is a subsequence of the old cart holding exactly the lines with other ids, each as often as before |
| Cart.RemoveFromCartCount | App.tsx:147-149 | the summed quantity drops by the quantity of the removed line, or not at all if the id was absent |
| Cart.RemoveFromCartWellFormed | App.tsx:147-149 | removing keeps one line per product, each with quantity at least one |
| Pricing.BundleCount | App.tsx:75-79 | `daBaoCount` is 0 without a bundle or a bundle line, and otherwise the quantity of a line with the bundle's id |
| Pricing.NotesCount | App.tsx:76-80 | `notesCount` equals the quantity summed over every 'Note' line whose id is not the bundle's |
| Pricing.OthersTotal | App.tsx:107 | `othersTotalCost` equals price times quantity summed over every line outside the 'Note' category |
| Pricing.NotesPricing | App.tsx:82-105 | a message is set exactly when there is a bundle unit or a note; without a bundle the notes never cost more than the base price each |
| Pricing.CalculateCartTotals | App.tsx:74-111 | the message is empty exactly when there is neither a bundle unit nor a regular note; without a bundle the total lies between the non-note cost and that cost plus 10 per note |
| Pricing.NoActiveBundleCount | App.tsx:75-79 | when no bundle line has a positive quantity, `daBaoCount` is not positive |
| Pricing.BundleOverridesTiers | App.tsx:75-87 | a bundle line with quantity q > 0 makes the total q × 89 plus the non-note cost, with "DaBao Active: All Notes Included!", whatever the regular notes |
| Pricing.NoteTiers | App.tsx:89-104 | without an active bundle, n regular notes cost 89 (n ≥ 21), 7n (5–20), 8n (3–4) or 10n (otherwise), plus the non-note cost, with each tier's message and "Add 3−n more notes…" for n = 1, 2 |
| Pricing.AddOneMoreMessage | App.tsx:101 | the hint template filled with 1 reads "Add 1 more notes to save ($8/each)!" |
| Pricing.AddTwoMoreMessage | App.tsx:101 | the hint template filled with 2 reads "Add 2 more notes to save ($8/each)!" |
| Pricing.EmptyNotesNoMessage | App.tsx:99-100 | with no active bundle and no regular notes, the total is the non-note cost and the message is empty |
| Pricing.SuperSaverNeverShown | App.tsx:100-103 | the "more notes for super saver" message is never returned, for any cart and any count it might name |
| Pricing.NotePricesIgnored | App.tsx:107-108 | two carts that differ only in the prices of their 'Note' lines get the same total and message |
| Pricing.PricingInputsAgree | App.tsx:75-80 | such carts agree on `daBaoCount`, on the regular-note quantity and on the non-note cost |
| Pricing.OrderIrrelevant | App.tsx:74-111 | reordering a cart with one line per product changes neither the total nor the message |
| Pricing.BundleOutsideNotesChargedTwice | App.tsx:75-108 | when the first bundle line, with q > 0 units, lies outside the 'Note' category, the total is q × 89 plus q × its own price plus the non-note cost of the other lines: the bundle is charged twice |
| Pricing.NonNoteCostWithout | App.tsx:107 | the non-note cost is one line's share plus that of the remaining lines |
| Catalog.FilterProducts | App.tsx:116-131 | the list the filtering effect stores; what it holds is stated by `Catalog.FilterProductsSpec` and `Catalog.FilterProductsCount` below |
| Catalog.FilterProductsSpec | App.tsx:116-131 | the shown list keeps catalog order; it holds exactly the products in the active category (any for 'All') whose lower-cased name or code contains the lower-cased query, or all of them when the query is blank, each as often as in the catalog; it is the whole catalog for 'All' with a blank query |
| Catalog.FilterProductsCount | App.tsx:116-131 | each product appears in the shown list as often as in the catalog if it should be shown, and not at all otherwise |
| Text.Lower | App.tsx:124 | lower-casing keeps the length, turns each capital A–Z into its small letter, leaves every other character alone, and leaves no capital |
| Text.LowerFixed | App.tsx:124 | a string without capitals is its own lower-case form |
| Text.LowerIdempotent | App.tsx:124 | lower-casing twice is lower-casing once |
| Text.Trim | App.tsx:123 | `trim()` gives the empty string exactly when every character is whitespace |
| Text.TrimStartWhitespace | App.tsx:123 | dropping leading whitespace keeps a string all-whitespace or not |
| Text.TrimEndEmpty | App.tsx:123 | dropping trailing whitespace leaves nothing exactly when the string was all whitespace |
| Text.Contains | App.tsx:126-127 | `includes` holds exactly when the needle occurs at some position |
| Text.OccursShift | App.tsx:126-127 | when the needle is not a prefix, it occurs in the string exactly when it occurs in the tail |
| Text.NatString | App.tsx:101 | a count renders as decimal digits that denote it, with no leading zero unless the count is zero |
| Storefront.App.constructor | App.tsx:31-47 | initial state: empty catalog, no bundle, empty cart, drawer closed, empty query, filter 'All', counter 842, and the invariant holds |
| Storefront.App.Totals | App.tsx:113 | `cartTotal` and `savingsMessage` of the current cart; an empty cart costs 0 with no message |
| Storefront.App.CatalogLoaded | App.tsx:62-63 | stores the loaded products and bundle; the shown list is recomputed from them; nothing else changes |
| Storefront.App.SetSearchQuery | App.tsx:116-132 | stores the query; the shown list is the filter of the catalog by it; nothing else changes |
| Storefront.App.SetActiveFilter | App.tsx:116-132 | stores the filter; the shown list is the filter of the catalog by it; nothing else changes |
| Storefront.App.AddToCart | App.tsx:134-145 | exactly the product's line gains a unit, or the product is appended with quantity 1; the badge count rises by one, the drawer opens, the cart stays well formed, and nothing else changes |
| Storefront.App.RemoveFromCart | App.tsx:147-149 | the id's line goes, the others stay in order, the badge count drops by that line's quantity, and nothing else changes |
| Storefront.App.HandleCheckoutSuccess | App.tsx:151-155 | the counter grows by the badge count (at least the number of lines), the cart empties and prices at 0 with no message, and nothing else changes |

Choices the source leaves open:

- `CartItem` in `types.ts:15-17` extends `Product` with a quantity. The model
  nests the product inside the line (`CartItem(product, quantity)`), and a
  line's id is its product's id.
- A bundle is an optional product (`Option<Product>`), and the pricing
  engine receives its id, or `None` when no bundle has loaded.
- The `otherItems` filter (`App.tsx:77`) does not exclude the bundle id.
  The last branch keeps an inner `notesCount < 5` test (`App.tsx:102`) that
  can never hold. The model keeps both as written. It keeps the inner test in
  `Pricing.NotesPricing` and proves that its message is never returned
  (`Pricing.SuperSaverNeverShown`). It proves the double charge that follows
  from the unfiltered group (`Pricing.BundleOutsideNotesChargedTwice`).
- `handleCheckoutSuccess` is handed to the checkout modal as `onSuccess`
  (`App.tsx:368`). The modal never calls it, because checkout redirects to
  the payment page (`components/CheckoutModal.tsx:10`). In the program as
  shipped the handler is therefore unreachable. The model still states what
  it does.
- The search lower-cases the query without trimming it (`App.tsx:124`), so a
  query with surrounding spaces must match them. `Catalog.Shown` states this.

## Left out

- The counter's `localStorage` load and save and the `parseInt` of the saved
  value (`App.tsx:44-51`) are browser storage. The counter starts at 842, as
  when nothing was saved.
- Asynchronous catalog loading (`App.tsx:54-71`), the `isLoading` flag and the
  failure path are not modelled. `services/productService.ts` is not part of
  this model. A successful load is the method `Storefront.App.CatalogLoaded`
  with the products and bundle as inputs; a failed load changes nothing the
  model holds.
- React's scheduling is not modelled. The filtering effect runs after the
  render that follows a change of the query, the filter or the catalog. The
  model recomputes the shown list inside the method that makes the change.
- Prices and totals are JavaScript numbers (dollars) in the source. The model
  uses whole cents, so amounts with fractions of a cent, IEEE rounding and
  `toFixed` display are out of scope.
- Text.Lower: lower-cases only the ASCII letters A–Z, not the whole Unicode
  mapping of `toLowerCase`.
- Rendering is not modelled: JSX, the footer and legal text, the bundle card
  and its display condition (`App.tsx:236`), the skeleton loaders, and the
  checkout modal and its `isCheckoutOpen` flag. Closing the cart drawer only
  clears a UI flag. The "clear filters" button (`App.tsx:255`) is the two
  modelled setters called in turn.
- The components under `components/`, the payment endpoint under `api/`,
  `services/geminiService.ts` and `scripts/driveSyncReference.js` are not
  part of this model. They are presentation, network calls and file
  transfer. `OrderDetails` in `types.ts` belongs to checkout and is not
  modelled.
- Quantities are unbounded integers. The source's numbers are doubles, which
  stay exact only up to 2^53.
