# Building-materials shop: cart, favourites, pricing and order document

This project is a Dafny model of the client-side core of a small Next.js shop that sells building materials.

- **Store.** A Redux store holds the shopping cart and the favourites list. Every change is mirrored into the browser's storage under the keys `cart` and `favorites`.
- **Product page.** Adding to the cart shows a notification ("toast"). It prices the line from the product's base price, its sale discount or its bulk tiers.
- **Cart page.**
  - At load time it joins the stored cart lines to the static catalogue.
  - It lets the user change quantities and remove lines.
  - It computes a subtotal, shipping, a 20% tax and a total.
  - At checkout it posts all of this to a server.
  - The server lays out a PDF order document with a y-cursor that walks down the page.
- **Favourites page.** It resolves stored ids to products, removes favourites and adds a favourite to the cart.
- **Call-back request dialog.** It validates a name and a phone number before it posts them.

One module per core file, plus `Catalog` for the product shape and the lookups the pages share:

| module | file | models |
|---|---|---|
| `Catalog` | catalog.dfy | the product shape, the catalogue lookup, and the `find` over bulk tiers |
| `Store` | store.dfy | the `AppStore` class: the store's two lists, the two storage entries, and one method per reducer |
| `ToastPricing` | toast_pricing.dfy | `calculatePrice`: a copy of the tiers sorted by threshold, largest first, then `find` |
| `CartPage` | cart_page.dfy | the load-time join, subtotal and summary as functions; the page's state and handlers as the `Page` class |
| `FavouritesPage` | favourites_page.dfy | id resolution as a function; the page's state and handlers as the `Page` class |
| `OrderDocument` | order_document.dfy | the `generateCartPDF` loop as a method, proved against the `Layout` function |
| `RequestForm` | request_form.dfy | the two field rules and the branch on the answer to the POST |

Modelling choices:

- **Storage.** A storage entry is `Option<seq<…>>`, where `None` means the key is absent. JSON serialisation is the identity.
- **Prices** are exact `real`s.
- **The network.** Checkout's response and the request dialog's response are parameters ("oracles").
- **Drawing calls.** Each PDF drawing call is a record: page index, text as a structured value, x, y and font size. Each `addPage` appends a page size.

Several behaviours of the code are modelled as written, and lemmas state them:

- **An empty tier list takes the bulk branch.** With the bulk flag set, the toast branches on `bulkPrices` being present. An empty list is present (it is truthy in JavaScript), so the toast takes the bulk branch and shows the base price, with no sale.
- **The subtotal ignores the stored price.** The cart subtotal uses the catalogue price, never the price stored on the line. For bulk lines it uses the first tier *in listed order* that the quantity reaches, with no sort. A tier priced 0 falls back to the base price (`?.price || value`). So for product 1001, whose tiers are listed smallest first, the subtotal never reaches the 100-unit tier, although the toast does (`CartPage.CementSubtotalDiffersFromToast`).
- **The document uses the stored price.** The order document prints each line total from the price stored on the line. Its summary prints the catalogue-based subtotal, so the two can disagree (`OrderDocument.LineTotalsCanDisagreeWithSubtotal`).
- **All text goes to the first page.** After a page break the document adds a page, but every later drawing call still targets the first page object. The continuation marker is drawn in the library's default font size.
- **Adding from favourites goes by what is stored.** `handleAddCart` on the favourites page checks the *stored* cart, not the store's list. When the stored cart has the id, the store's cart becomes the stored cart with that line reset to one unit. Otherwise the line goes through the store's `addToCart`, which adds to an existing quantity.

## Model

| member | source | states |
|---|---|---|
| `Catalog.FindProduct` | src/app/cart/page.tsx:31 | None exactly when no catalogue product has the id; otherwise the first product with that id |
| `Catalog.FindTier` | src/app/cart/page.tsx:73 | None exactly when every threshold exceeds the quantity; otherwise the first listed tier the quantity reaches |
| `Store.FindIndex` | src/store/reducers/appReducer.ts:61-63 | -1 exactly when no entry has the id; otherwise the index of the first entry that has it |
| `Store.Contains` | src/store/reducers/appReducer.ts:128 | true exactly when some entry has the id |
| `Store.Without` | src/store/reducers/appReducer.ts:117 | keeps only entries of the list, none with the id, and every entry without the id; order and repeats are fixed by `Store.WithoutSingle` and `Store.WithoutAppend` |
| `Store.WithoutSingle` | src/store/reducers/appReducer.ts:117 | a one-entry list is kept exactly when its id differs |
| `Store.WithoutAppend` | src/store/reducers/appReducer.ts:117 | the filter works entry by entry in order: filtering a concatenation concatenates the filtered parts |
| `Store.WithoutAbsent` | src/store/reducers/appReducer.ts:117 | filtering out an absent id gives the list back unchanged |
| `Store.WithoutUniqueAt` | src/store/reducers/appReducer.ts:117 | with unique ids, removing the id at index i leaves exactly the entries before and after i, in order |
| `Store.WithoutKeepsUnique` | src/store/reducers/appReducer.ts:135 | removing an id keeps ids unique |
| `Store.UpdateKeepsUnique` | src/store/reducers/appReducer.ts:107-108 | overwriting an entry with one of the same id keeps ids unique |
| `Store.AppendKeepsUnique` | src/store/reducers/appReducer.ts:109-110 | appending an entry whose id is absent keeps ids unique |
| `Store.WithoutSameOnOthers` | src/store/reducers/appReducer.ts:88-96 | changing the quantity of the entry that is about to be filtered out does not change the filter's result |
| `Store.AppStore.constructor` | src/store/reducers/appReducer.ts:28-35 | each list is rehydrated from its storage entry, or is empty when the key is absent |
| `Store.AppStore.SaveCart` | src/store/reducers/appReducer.ts:41-45 | the cart entry holds the store's cart |
| `Store.AppStore.SaveFavorites` | src/store/reducers/appReducer.ts:41-45 | the favourites entry holds the store's favourites |
| `Store.AppStore.SetCart` | src/store/reducers/appReducer.ts:55-58 | the cart and its storage entry become the payload; favourites are untouched |
| `Store.AppStore.AddToCart` | src/store/reducers/appReducer.ts:60-77 | a present id keeps its position and takes the payload with old + new quantity; a new id is appended; unique ids stay unique; storage equals the cart |
| `Store.AppStore.UpdateCartItemQuantity` | src/store/reducers/appReducer.ts:79-100 | the quantity becomes old + q or q; a result of 0 or less removes every entry with the id; a missing id changes nothing, but storage is written in every case |
| `Store.AppStore.ReplaceCartItem` | src/store/reducers/appReducer.ts:102-114 | a present id is overwritten by the payload exactly; a new id is appended; unique ids stay unique |
| `Store.AppStore.RemoveFromCart` | src/store/reducers/appReducer.ts:116-119 | every entry with the id is dropped and the others kept; an absent id changes nothing; storage equals the cart |
| `Store.AppStore.SetFavorites` | src/store/reducers/appReducer.ts:122-125 | favourites and their storage entry become the payload; the cart is untouched |
| `Store.AppStore.AddToFavorites` | src/store/reducers/appReducer.ts:126-132 | idempotent: an id already present changes neither the list nor storage; otherwise the id is appended and stored |
| `Store.AppStore.RemoveFromFavorites` | src/store/reducers/appReducer.ts:133-137 | every favourite with the id is dropped, the rest kept; storage equals the list |
| `ToastPricing.Insert` | src/components/ToastBody.tsx:25-26 | produces the same tiers plus one, and keeps a largest-first order |
| `ToastPricing.ConsSorted` | src/components/ToastBody.tsx:26 | a tier not below the head of a sorted list, put in front of it, leaves the list sorted |
| `ToastPricing.HeadAboveRest` | src/components/ToastBody.tsx:26 | the head of a sorted list that is above the inserted tier is above every element of the rest after the insertion |
| `ToastPricing.SortByThresholdDesc` | src/components/ToastBody.tsx:25-26 | the sorted copy holds the same tiers and is ordered largest threshold first |
| `ToastPricing.CalculatePrice` | src/components/ToastBody.tsx:23-37 | the notification's unit price; its behaviour on every input is stated by `ToastPricing.ToastPriceRule` |
| `ToastPricing.ToastTotal` | src/components/ToastBody.tsx:39-41 | the unit price times the quantity; tied to tiers by `ToastPricing.PriceAtThreshold` |
| `ToastPricing.FindTierInSorted` | src/components/ToastBody.tsx:25-27 | on a largest-first list, the first reached tier has the largest reached threshold |
| `ToastPricing.BulkBranchPrice` | src/components/ToastBody.tsx:24-29 | bulk branch: the price of a tier with the largest threshold the quantity reaches, or the base price (no sale) when none is reached |
| `ToastPricing.NoneReachedInSorted` | src/components/ToastBody.tsx:25-27 | when no threshold is reached, the sorted copy finds no tier |
| `ToastPricing.BestOfSortedIsBest` | src/components/ToastBody.tsx:25-27 | a best tier of the sorted copy is a best tier of the list as given |
| `ToastPricing.ToastPriceRule` | src/components/ToastBody.tsx:23-37 | all three branches: bulk as above; otherwise the sale price value × (1 − percent/100) when on sale, else the base price |
| `ToastPricing.PriceAtThreshold` | src/components/ToastBody.tsx:27 | a quantity exactly at a threshold gets that tier's price, and the total shown is that price × quantity |
| `ToastPricing.BestTiersAgree` | src/components/ToastBody.tsx:25-27 | two listings of the same tiers with distinct thresholds have the same best tier |
| `ToastPricing.FindAfterInsert` | src/components/ToastBody.tsx:25-27 | after inserting a tier into a sorted list, the tier is found exactly when it is reached and nothing found before has a larger threshold; otherwise the same tier as before is found |
| `ToastPricing.FoundWithinBound` | src/components/ToastBody.tsx:25-27 | a tier found in the sorted copy is no larger than any bound on the reached thresholds |
| `ToastPricing.SortedFindsFirstBest` | src/components/ToastBody.tsx:25-27 | the sorted copy finds the first listed of the tiers with the largest reached threshold |
| `ToastPricing.TiesPickFirstListed` | src/components/ToastBody.tsx:24-29 | with the bulk flag, the toast charges the price of the first listed tier among those tied at the largest reached threshold |
| `ToastPricing.PriceIgnoresTierOrder` | src/components/ToastBody.tsx:25-26 | with distinct thresholds, reordering the tier list does not change the price |
| `CartPage.JoinCatalog` | src/app/cart/page.tsx:30-33 | no more entries than lines; each entry carries its line and the first catalogue product of that line's id |
| `CartPage.JoinLine` | src/app/cart/page.tsx:31-32 | one stored line with its product, or nothing; stated by `CartPage.JoinSingle` |
| `CartPage.JoinAppend` | src/app/cart/page.tsx:30-33 | the join works line by line, in stored order |
| `CartPage.JoinSingle` | src/app/cart/page.tsx:31-32 | a line with a product yields one entry; a line without a product yields none |
| `CartPage.JoinKeepsKnown` | src/app/cart/page.tsx:30-33 | when every line has a product, the join keeps all lines, in order |
| `CartPage.SetQuantity` | src/app/cart/page.tsx:42-44 | same length; exactly the lines with the id take the new quantity |
| `CartPage.SetProductQuantity` | src/app/cart/page.tsx:50-54 | same length; exactly the entries for the product take the new quantity in their line |
| `CartPage.JoinEditedHead` | src/app/cart/page.tsx:42-54 | one line edited and then joined equals its joined entry edited |
| `CartPage.JoinSetQuantity` | src/app/cart/page.tsx:42-54 | editing the lines and then joining gives the joined list edited, so the page's two lists stay in step |
| `CartPage.SetProductQuantityAppend` | src/app/cart/page.tsx:50-54 | the entry edit works entry by entry |
| `CartPage.JoinWithout` | src/app/cart/page.tsx:59-63 | removing lines and then joining gives the joined list filtered by product id |
| `CartPage.SubtotalUnitPrice` | src/app/cart/page.tsx:72-74 | the subtotal's unit price; stated by `CartPage.SubtotalPriceRule` |
| `CartPage.SubtotalPriceRule` | src/app/cart/page.tsx:72-74 | the base price for non-bulk lines or products without tiers; for bulk lines, the first listed tier reached, falling back to the base price when its price is 0 or when no tier is reached |
| `CartPage.SortKeepsSorted` | src/components/ToastBody.tsx:25-26 | the toast's sort leaves a largest-first list as it is |
| `CartPage.SubtotalMatchesToastOnSortedTiers` | src/app/cart/page.tsx:72-74 | with tiers listed largest first and none priced 0, the subtotal's unit price equals the toast's |
| `CartPage.CementSubtotalDiffersFromToast` | src/app/cart/page.tsx:73 | product 1001 at quantity 100: the toast shows 340, the subtotal charges 360 |
| `CartPage.Subtotal` | src/app/cart/page.tsx:70-77 | the left `reduce` from 0 over unit price × quantity; stated by `CartPage.SubtotalAppend`, `CartPage.SubtotalIgnoresStoredPrice` and `CartPage.CementScenario` |
| `CartPage.Shipping` | src/app/cart/page.tsx:81 | 500 with items, 0 without; stated through `CartPage.BuildOrderSummary` |
| `CartPage.CalculateTotal` | src/app/cart/page.tsx:79-84 | subtotal + shipping + 0.20 × subtotal; stated through `CartPage.BuildOrderSummary` |
| `CartPage.LineAmount` | src/app/cart/page.tsx:75 | one line's amount, the subtotal's unit price × quantity; stated through `CartPage.SubtotalAppend` and `CartPage.CementScenario` |
| `CartPage.SubtotalAppend` | src/app/cart/page.tsx:70-77 | the subtotal is additive over a concatenation |
| `CartPage.SubtotalIgnoresStoredPrice` | src/app/cart/page.tsx:72-75 | lines that differ only in their stored price give the same subtotal |
| `CartPage.SubtotalNonNegative` | src/app/cart/page.tsx:70-77 | with non-negative catalogue prices and quantities, the subtotal is non-negative |
| `CartPage.BuildOrderSummary` | src/app/cart/page.tsx:79-98 | the subtotal is `Subtotal` of the entries; total = subtotal + shipping + tax; tax = 0.20 × subtotal; shipping is 500 when there are items; all four are 0 for an empty cart |
| `CartPage.CementScenario` | src/app/cart/page.tsx:70-84 | one bulk line of product 1001 at quantity 10 gives 3600, 500, 720 and 4820 |
| `CartPage.FailureMessage` | src/app/cart/page.tsx:113-139 | the server's `error`, or the thrown message, is shown verbatim when non-empty; a missing or empty one gives the default text; never empty |
| `CartPage.Succeeded` | src/app/cart/page.tsx:113 | the `data.success` test: only a response that arrived with `success` set counts as placed; stated through `CartPage.Page.Checkout` |
| `CartPage.Page.constructor` | src/app/cart/page.tsx:20-22 | not processing, both lists empty and consistent |
| `CartPage.Page.CheckoutEnabled` | src/app/cart/page.tsx:291 | the checkout button is enabled exactly when items are shown and nothing is in flight; used by `CartPage.Page.Checkout` |
| `CartPage.Page.Load` | src/app/cart/page.tsx:24-37 | with a cart entry, the lines are the entry and the entries are their join; without one, nothing changes |
| `CartPage.Page.UpdateQuantity` | src/app/cart/page.tsx:39-56 | below 1 nothing changes; otherwise both lists take the new quantity for the id and storage holds the lines; the store is not touched; the lists stay consistent |
| `CartPage.Page.RemoveFromCart` | src/app/cart/page.tsx:58-68 | the id leaves the lines, the entries, the store's cart and storage; the lists stay consistent |
| `CartPage.Page.Checkout` | src/app/cart/page.tsx:87-144 | posts the entries and their summary; only a successful response removes the cart entry and empties both lists; a failure changes nothing and shows its message; the store's cart is untouched; processing ends false; after success the checkout button is disabled, after a failure it is enabled exactly when items were shown |
| `FavouritesPage.ResolveFavorites` | src/app/favourites/page.tsx:38-41 | no more products than ids; each one is the first catalogue product of its id |
| `FavouritesPage.ResolveOne` | src/app/favourites/page.tsx:39-40 | one id's product, or nothing; stated by `FavouritesPage.ResolveKnown` and `FavouritesPage.ResolveDropsUnknown` |
| `FavouritesPage.ResolveAppend` | src/app/favourites/page.tsx:38-41 | ids are resolved one at a time, in stored order |
| `FavouritesPage.ResolveKnown` | src/app/favourites/page.tsx:38-41 | when every id is known, each resolves to its product, in order |
| `FavouritesPage.ResolveDropsUnknown` | src/app/favourites/page.tsx:40-41 | an id with no product contributes nothing |
| `FavouritesPage.ResolveWithout` | src/app/favourites/page.tsx:61-64 | removing an id and then resolving drops exactly that product from the resolved list |
| `FavouritesPage.FreshCartItem` | src/app/favourites/page.tsx:81-86 | one unit of the product, at its base price, not bulk-priced |
| `FavouritesPage.Page.constructor` | src/app/favourites/page.tsx:25-27 | no favourites, loading, no notification |
| `FavouritesPage.Page.LoadFavorites` | src/app/favourites/page.tsx:29-54 | with a favourites entry, the page shows its ids resolved; loading ends either way |
| `FavouritesPage.Page.RemoveFavorite` | src/app/favourites/page.tsx:61-72 | the store drops the id and writes storage; the page shows the rest resolved, which is the old list minus that product |
| `FavouritesPage.Page.HandleAddCart` | src/app/favourites/page.tsx:74-106 | an unknown id changes no list and shows the error; a stored id resets that stored line to one unit through setCart; otherwise the line goes through addToCart |
| `OrderDocument.GenerateCartPdf` | src/app/api/utils/generatePDF.ts:3-89 | the document is `Layout` of the items and summary; it has a first page of 600×800, and every drawing call is on page 0 |
| `OrderDocument.DrawText` | src/app/api/utils/generatePDF.ts:22-30 | the `drawText` helper: the call targets page 0, at the given place and size, and the calls that omit the size pass the helper's default, 12; stated through `OrderDocument.DrawsPlaced` and `OrderDocument.HeaderPlacement` |
| `OrderDocument.HeaderDraws` | src/app/api/utils/generatePDF.ts:33-45 | title, date and item heading; placement stated by `OrderDocument.HeaderPlacement` |
| `OrderDocument.ItemDraws` | src/app/api/utils/generatePDF.ts:48-59 | an item's four lines; stated by `OrderDocument.ItemBlock` |
| `OrderDocument.SummaryDraws` | src/app/api/utils/generatePDF.ts:69-83 | the five summary lines; stated by `OrderDocument.SummaryBlock` |
| `OrderDocument.ItemStep` | src/app/api/utils/generatePDF.ts:48-66 | one pass of the loop body, page break included; stated by `OrderDocument.StepBreaks` |
| `OrderDocument.AfterItems` | src/app/api/utils/generatePDF.ts:33-67 | the layout after n items; stated by `OrderDocument.CursorInvariant` and `OrderDocument.AfterItemsPrefix` |
| `OrderDocument.Layout` | src/app/api/utils/generatePDF.ts:3-84 | the whole document; what `OrderDocument.GenerateCartPdf` computes, stated by `OrderDocument.LayoutOnFirstPage` |
| `OrderDocument.BreaksAppend` | src/app/api/utils/generatePDF.ts:62-66 | continuation markers add up over a concatenation |
| `OrderDocument.NoBreaks` | src/app/api/utils/generatePDF.ts:48-59 | calls with no continuation marker count zero breaks |
| `OrderDocument.CursorRange` | src/app/api/utils/generatePDF.ts:45-66 | between items the cursor stays within [100, 750] |
| `OrderDocument.StepBreaks` | src/app/api/utils/generatePDF.ts:62-66 | one item adds a page exactly when it adds a marker; the new page is 600×800 |
| `OrderDocument.PagesMatchBreaks` | src/app/api/utils/generatePDF.ts:16-66 | pages = 1 + continuation markers, and every page is 600×800 |
| `OrderDocument.PageCount` | src/app/api/utils/generatePDF.ts:62-66 | pages = 1 + continuation markers after any number of items |
| `OrderDocument.PagesAllSized` | src/app/api/utils/generatePDF.ts:65 | every page added is 600×800 |
| `OrderDocument.DrawsPlaced` | src/app/api/utils/generatePDF.ts:22-66 | every call so far targets page 0 at y ≥ 10 |
| `OrderDocument.CursorInvariant` | src/app/api/utils/generatePDF.ts:45-66 | the cursor range, page count, page size and placement facts together |
| `OrderDocument.PagesBeforeItems` | src/app/api/utils/generatePDF.ts:16 | the first page exists and is 600×800 |
| `OrderDocument.LayoutOnFirstPage` | src/app/api/utils/generatePDF.ts:22-83 | in the whole document every call targets page 0 at y ≥ 10; pages = 1 + markers, all 600×800 |
| `OrderDocument.AfterItemsPrefix` | src/app/api/utils/generatePDF.ts:48-67 | later items only append calls |
| `OrderDocument.HeaderPlacement` | src/app/api/utils/generatePDF.ts:33-45 | the document opens with the title at 750 (size 20), the date at 710 and the heading at 680 (size 14) |
| `OrderDocument.ItemBlock` | src/app/api/utils/generatePDF.ts:48-59 | item k is four lines at y, y−20, y−40, y−60 with y ≥ 100, numbered k + 1, with the line total = stored price × quantity |
| `OrderDocument.BlockInPrefix` | src/app/api/utils/generatePDF.ts:48-59 | item k's block directly follows the calls before it |
| `OrderDocument.SummaryBlock` | src/app/api/utils/generatePDF.ts:69-83 | the last five calls are the summary at y, …, y−80 with y ≥ 100, all at 20 or higher |
| `OrderDocument.LineTotalsCanDisagreeWithSubtotal` | src/app/api/utils/generatePDF.ts:55-58 | a product-1001 bulk line stored at 360 with quantity 1 prints a line total of 360 beside a subtotal of 380 |
| `RequestForm.DigitRun` | src/components/RequestDialog.tsx:85 | the matcher for `[0-9]{lo,hi}$`; stated by `RequestForm.DigitRunMeans` |
| `RequestForm.PhonePattern` | src/components/RequestDialog.tsx:85 | the phone pattern; stated by `RequestForm.PhonePatternMeans` |
| `RequestForm.DigitRunMeans` | src/components/RequestDialog.tsx:85 | `[0-9]{lo,hi}$` matches exactly the all-digit strings of length lo to hi |
| `RequestForm.PhonePatternMeans` | src/components/RequestDialog.tsx:85 | the phone pattern accepts exactly the ASCII-digit strings of 10 to 15 characters |
| `RequestForm.Validate` | src/components/RequestDialog.tsx:67-88 | a name error exactly when the name is empty; phone Required exactly when it is empty; a pattern error exactly when it is non-empty and not 10–15 digits |
| `RequestForm.Submit` | src/components/RequestDialog.tsx:26-59 | rejected exactly when a rule fails; otherwise {name, phone} is posted to /api/send-request, and the dialog closes (success toast) exactly when the response is ok |
| `RequestForm.PhoneSamples` | src/components/RequestDialog.tsx:85 | eleven digits are accepted; a "+" prefix or nine digits are rejected |

## Left out

- `getInitialState` outside the browser, which returns empty lists, and `saveToLocalStorage`'s no-op there. Only the browser path is modelled.
- JSON serialisation and parsing of the storage entries. An entry is its list. The model does not represent malformed entries. `JSON.parse` in `getInitialState` (src/store/reducers/appReducer.ts:33-34) and in the cart page's mount effect (src/app/cart/page.tsx:27) is unguarded, so malformed storage throws there. The code does not fall back to an empty list, and the model claims no such fallback.
- The favourites page's catch branches. Its parses are inside `try`. A failure in `loadFavorites` (src/app/favourites/page.tsx:48-53) shows an error notification and ends loading. A failure to parse the stored cart in `handleAddCart` (src/app/favourites/page.tsx:101-105) shows the add-to-cart error. The model covers only the lookup failure in `handleAddCart`, as `AddToCartFailed`.
- `fetch`, `async`/`await` and the servers behind it. Checkout's response and the request dialog's response are parameters. The mail-sending route (src/app/api/checkout/route.ts) is not part of this model.
- The PDF download after a successful checkout (Blob, object URL, link click). It is modelled as never throwing. If it threw, the code would show the error and keep the cart.
- Some notifications. Three are modelled, as values:
  - the favourites page's `Notification` (which one is shown, not its text);
  - the cart page's `CheckoutNotice`, whose failure text is `CartPage.FailureMessage`;
  - the request dialog's `Toast` (sent or failed).
- The cart page's removal toast (src/app/cart/page.tsx:64-66) and its checkout loading toast with its dismissal (src/app/cart/page.tsx:88, 141) are not modelled. Neither are the other notification texts or the `setTimeout` that clears the favourites notification. The request dialog's field errors are modelled as the kind of error, not as its message.
- Number and date formatting (`toFixed`, `toLocaleDateString`) and IEEE double arithmetic. Prices are exact reals, and document text is a structured value.
- pdf-lib font embedding and `pdfDoc.save`. Drawing is modelled as never failing. With the standard Helvetica font, pdf-lib cannot encode the Cyrillic text, so `drawText` would throw, and the order route would then answer with `success: false`.
- The quantity bounds `minOrder`/`maxOrder`. The code never enforces them in these operations: `updateQuantity` only refuses quantities below 1, and it does not clamp. The model follows the code.
- The price snapshot. A cart line's stored price is not what the subtotal uses, because the code uses the catalogue price. The model follows the code.
- `ToastPricing.PriceIgnoresTierOrder`: proved only for tier lists with distinct thresholds. With a repeated threshold, the stable sort keeps list order, so the first listed of the tied tiers is picked (`ToastPricing.TiesPickFirstListed`), and reordering can change the price.
- The rest of the application (product and category pages, navigation, sliders, layout, configuration) is presentation only and is not part of this model.
