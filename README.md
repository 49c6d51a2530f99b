# Tanba store: a verified model of the storefront's logic

Tanba store is a small Next.js storefront with a Supabase back end. Shoppers
browse a product catalog with search, category and price filters. They fill a
cart and check out with a delivery form that is validated against a Kazakh
phone-number format. Administrators list and edit orders and products, upload
product images and read sales statistics.

This project models the logic of that system in Dafny, keeping each source
file's own form:

- **Cart store** (`CartStore`). A class holding the line items. Its actions
  are specified by functions over the list and proved against them.
- **Checkout hook** (`Checkout`). A class holding the cart, `loading` and
  `successData`.
- **Admin order-form store** (`OrderFormStore`). A class whose `form` is a map
  from field keys to values.
- **Validators** (`OrderValidators`, `ProductValidators`, `CommonValidators`,
  `PhoneNumber`). Methods that build an error map. Each key is present exactly
  when its condition fails.
- **Services** (`OrderService`, `ProductService`, `UploadService`). The
  decisions made around the database and storage calls:
  - validate before insert;
  - the recomputed total;
  - the page-to-row-range arithmetic;
  - the not-found mapping;
  - the upload and delete partitioning.

  Every database or storage call is an oracle parameter. It is either a
  function from the query to the answer or a per-item answer. Each answer is
  one of the outcomes the code distinguishes: rows, an error, or a thrown
  exception.
- **Statistics helpers** (`StatsHelpers`). Group-by-day as a loop over a map,
  and the summary with its rounded average.
- **Catalog URL logic** (`CatalogPage`, `CatalogRoute`, `Search`,
  `WhatsAppLink`, `OrdersRoute`):
  - query-string building;
  - the page-button window;
  - filter normalization and the page count;
  - the search box's parameter merge;
  - the WhatsApp link;
  - the orders API's query parsing and HTTP status.

JavaScript's built-ins that the code leans on are modelled once, in `JsText`:
`String.prototype.trim`, the regular-expression classes `\s` and `\D`,
`Number(string)` on integer text, and `String(n)` on integers. `Api` holds the
response envelope and the shapes of the database's answers. Prices, totals
and quantities are integers.

## Model

| member | source | states |
|---|---|---|
| JsText.TrimSpec | src/lib/validators/common.ts:1 | `trim()` returns a contiguous slice of the input with only whitespace cut off around it, leaves no whitespace at either end, and is empty exactly for all-whitespace text |
| JsText.TrimOfTrimmed | src/lib/validators/common.ts:3-4 | trimming is idempotent |
| JsText.DigitsOf | src/lib/validators/phoneNumber.ts:2 | `replace(/\D/g, "")` yields only digits and is no longer than its input |
| JsText.DigitsOfConcat | src/lib/validators/phoneNumber.ts:2 | digit cleaning distributes over concatenation, so the digits keep their order |
| JsText.DigitsOfIdempotent | src/lib/utils/buildWhatsAppLink.ts:3 | cleaning an already cleaned number changes nothing |
| JsText.DigitsOfDropsSeparator | src/lib/validators/phoneNumber.ts:2 | a non-digit anywhere in the input leaves no trace in the cleaned number |
| JsText.ParseNumber | src/app/catalog/page.tsx:15-16 | `Number(text)` on all-whitespace text is 0 |
| JsText.ParseNumberOfIntToString | src/app/catalog/page.tsx:15-18 | `Number(String(n)) == n` for every integer n |
| JsText.NatToStringInjective | src/features/orders/order.validators.ts:33 | different indices are written as different decimal strings |
| JsText.Number | src/app/catalog/page.tsx:16 | `Number(text)` on text is an integer or NaN in this model |
| CommonValidators.IsRequired | src/lib/validators/common.ts:1 | `isRequired` holds iff the value has a non-whitespace character |
| CommonValidators.MinLength | src/lib/validators/common.ts:3-4 | a minimum of at most 0 always passes, and passing implies the raw value is that long |
| CommonValidators.RequiredIsMinLengthOne | src/lib/validators/common.ts:1-4 | `isRequired(v)` equals `minLength(v, 1)` |
| CommonValidators.MinLengthMonotone | src/lib/validators/common.ts:3-4 | passing a minimum implies passing every smaller minimum |
| CommonValidators.MatchDigits | src/lib/validators/common.ts:6 | `/^[0-9]+$/` matches iff the text is non-empty and all digits |
| CommonValidators.IsNumber | src/lib/validators/common.ts:6 | `isNumber` holds iff every character is in '0'..'9' and there is at least one |
| CommonValidators.IsNumberParses | src/lib/validators/common.ts:6 | text `isNumber` accepts is read by `Number` as its decimal value |
| CommonValidators.IsPositive | src/lib/validators/common.ts:8 | `isPositive(n)` iff n >= 1 on integers |
| PhoneNumber.MatchKazakhPattern | src/lib/validators/phoneNumber.ts:3 | `/^7\d{10}$/` matches iff the text is 11 digits starting with 7 |
| PhoneNumber.IsValidKazakhPhone | src/lib/validators/phoneNumber.ts:1-4 | a phone is valid iff its digits are 11 and the first is 7 |
| PhoneNumber.SeparatorsIrrelevant | src/lib/validators/phoneNumber.ts:2-3 | inserting or removing a non-digit never changes the verdict |
| PhoneNumber.CleanedNumberEquivalent | src/lib/validators/phoneNumber.ts:2-3 | validating the cleaned number gives the same verdict |
| PhoneNumber.TrunkPrefixRejected | src/lib/validators/phoneNumber.ts:3 | an 11-digit number starting with the trunk prefix 8 is rejected |
| CartStore.UpdateQty | src/store/cart.store.ts:38-42 | the per-id `map` changes only the quantity of matching lines and keeps length and order |
| CartStore.FilterLines | src/store/cart.store.ts:51 | `filter` keeps exactly the lines passing the test |
| CartStore.FilterLinesConcat | src/store/cart.store.ts:51 | `filter` splits over concatenation, so the kept lines keep their relative order |
| CartStore.FilterLinesSingle | src/store/cart.store.ts:51 | a single line is kept iff it passes the test |
| CartStore.AddLine | src/store/cart.store.ts:32-47 | a present id gets the incoming qty added with every other field kept; a new id is appended after unchanged lines |
| CartStore.Without | src/store/cart.store.ts:49-52 | after `remove(id)` no line has that id, every other line survives, and nothing new appears |
| CartStore.Bumped | src/store/cart.store.ts:56-61 | `increment` raises only matching lines by 1, keeping length and other fields |
| CartStore.Decremented | src/store/cart.store.ts:63-72 | after `decrement` every line has a positive quantity; a line survives iff its lowered form has a positive quantity, so target lines always survive as `max(1, qty-1)` and other lines iff their quantity is positive; unique ids stay unique |
| CartStore.CartState.constructor | src/store/cart.store.ts:30 | the cart starts empty |
| CartStore.CartState.Add | src/store/cart.store.ts:32-47 | the store's items become `AddLine` of the old items |
| CartStore.CartState.Remove | src/store/cart.store.ts:49-52 | the store's items become `Without` of the old items |
| CartStore.CartState.Clear | src/store/cart.store.ts:54 | the cart is empty, with total and count 0 |
| CartStore.CartState.Increment | src/store/cart.store.ts:56-61 | the store's items become `Bumped` of the old items |
| CartStore.CartState.Decrement | src/store/cart.store.ts:63-72 | the store's items become `Decremented` of the old items, all positive |
| CartStore.CartState.Total | src/store/cart.store.ts:74-75 | the total of an empty cart is 0 |
| CartStore.CartState.Count | src/store/cart.store.ts:77-78 | the count of an empty cart is 0 |
| CartStore.AddKeepsIdsUnique | src/store/cart.store.ts:34-46 | `add` preserves the one-line-per-id invariant |
| CartStore.AddMergesQuantity | src/store/cart.store.ts:34-46 | after `add` the quantity held for each id is the old one plus the incoming qty for the added id |
| CartStore.AddRaisesTotals | src/store/cart.store.ts:32-47 | `add` raises `count()` by the incoming qty and `total()` by qty times the unit price already held |
| CartStore.MergeInvariant | src/store/cart.store.ts:32-47 | any sequence of adds keeps ids unique and sums the quantities per id |
| CartStore.RemoveAbsent | src/store/cart.store.ts:49-52 | removing an absent id is a no-op |
| CartStore.RemoveCount | src/store/cart.store.ts:49-52 | `remove` lowers `count()` by exactly the removed line's quantity |
| CartStore.RemoveKeepsIdsUnique | src/store/cart.store.ts:49-52 | `remove` preserves the one-line-per-id invariant |
| CartStore.RemoveKeepsOrder | src/store/cart.store.ts:49-52 | `remove` splits over concatenation and drops a single line iff it carries the id, so the rest keep their order |
| CartStore.UpdateQtyConcat | src/store/cart.store.ts:38-42 | the per-id `map` splits over concatenation |
| CartStore.DecrementKeepsOrder | src/store/cart.store.ts:63-72 | `decrement` splits over concatenation; a single line is lowered if it is the target and kept iff its quantity is then positive |
| CartStore.IncrementCount | src/store/cart.store.ts:56-61 | `increment` raises `count()` by the number of matching lines and keeps ids unique |
| CartStore.DecrementNeverRemoves | src/store/cart.store.ts:63-72 | on a cart of positive quantities, `decrement` removes nothing and only clamps the target |
| CartStore.DecrementKeepsTarget | src/store/cart.store.ts:63-72 | the decremented line is never removed |
| CartStore.MergeScenario | src/store/cart.store.ts:32-47 | adding p1 with qty 1 and then 2 at price 100 gives one line of qty 3 and total 300 |
| Checkout.Snapshot | src/app/checkout/hooks/useCheckout.ts:24-29 | the payload items match the cart lines one for one, in order, with id, name, price and qty |
| Checkout.SnapshotTotal | src/app/checkout/hooks/useCheckout.ts:24-30 | the server's recomputed total of the snapshot equals the cart's `total()` |
| Checkout.Payload | src/app/checkout/hooks/useCheckout.ts:18-31 | the five form fields are copied verbatim, with the items snapshot and a total equal to its recomputed total |
| Checkout.Checkout.constructor | src/app/checkout/hooks/useCheckout.ts:9-11 | the hook starts not loading and without success data |
| Checkout.Checkout.SubmitOrder | src/app/checkout/hooks/useCheckout.ts:13-41 | an empty cart changes nothing; otherwise the payload is sent while loading and loading ends false; success stores the order and empties the cart; failure leaves cart and success data as they were |
| OrderFormStore.DefaultForm | src/store/orderFormStore.ts:15-20 | the default form has name '', phone '', total 0, status 'pending' and no id |
| OrderFormStore.OrString | src/store/orderFormStore.ts:38-41 | an undefined or empty string falls back to the default, any other string is kept |
| OrderFormStore.OrNumber | src/store/orderFormStore.ts:40 | an undefined or zero total falls back to 0, any other number is kept |
| OrderFormStore.Loaded | src/store/orderFormStore.ts:34-43 | `loadOrder` writes id as given (possibly undefined) and defaults for falsy fields |
| OrderFormStore.OrderFormState.constructor | src/store/orderFormStore.ts:15-20 | the store starts with the default form |
| OrderFormStore.OrderFormState.SetField | src/store/orderFormStore.ts:21-24 | `setField(k, v)` sets k to v and leaves every other key as it was |
| OrderFormStore.OrderFormState.Reset | src/store/orderFormStore.ts:25-33 | `reset` restores the default form with no id, whatever came before |
| OrderFormStore.OrderFormState.LoadOrder | src/store/orderFormStore.ts:34-43 | `loadOrder` replaces the whole form with the loaded one |
| OrderFormStore.LoadEmptyIsDefault | src/store/orderFormStore.ts:34-43 | loading an order with only falsy fields gives the default form plus an undefined id |
| OrderFormStore.LoadedFieldsDefined | src/store/orderFormStore.ts:34-43 | after `loadOrder` no field other than id is undefined |
| OrderValidators.KeyNameInjective | src/features/orders/order.validators.ts:33 | the error keys, including `items[idx]`, are pairwise distinct strings |
| OrderValidators.ValidateOrderCreate | src/features/orders/order.validators.ts:4-38 | valid iff no errors iff every check passes; each key is present iff its check fails; every message is the fixed one; the record is `CreateErrors` of the payload |
| OrderValidators.IsCreateErrors | src/features/orders/order.validators.ts:4-38 | a record holding exactly the failing keys with their messages is `CreateErrors` |
| OrderValidators.CheckFields | src/features/orders/order.validators.ts:7-29 | one key per failing field check, and only those |
| OrderValidators.CheckItems | src/features/orders/order.validators.ts:31-35 | `items[idx]` is added iff item idx has a falsy id, name, price or qty |
| OrderValidators.ValidateOrderStatusUpdate | src/features/orders/order.validators.ts:40-52 | valid iff the id is non-empty and the status is one of the four; each key is present iff its check fails |
| ProductValidators.ValidateProductCreate | src/features/products/product.validators.ts:3-26 | valid iff no errors; name, price, stock and images keys present iff their checks fail |
| ProductValidators.ValidateProductUpdate | src/features/products/product.validators.ts:28-51 | id is required, and name, price and stock are checked only when given; images are never checked |
| ProductValidators.PriceRule | src/features/products/product.validators.ts:10 | a price passes iff it is a number that is not NaN and not negative |
| ProductValidators.StockRule | src/features/products/product.validators.ts:14 | a stock passes iff it is an integer >= 0 |
| ProductValidators.CreateNameIsLengthRule | src/features/products/product.validators.ts:6 | the create name check is the trimmed-length-below-2 rule (the empty name included) |
| ProductValidators.UpdateChecksLikeCreate | src/features/products/product.validators.ts:28-51 | a given field fails update exactly when it fails create |
| Api.ToErrorResponse | src/features/orders/order.service.ts:16-18 | the error response is unsuccessful, carries the message and no details |
| Api.PageRangeOf | src/features/orders/order.service.ts:85-88 | page >= 1 (default 1), limit defaults to 20, the range spans exactly `limit` rows, and page 1 starts at row 0 |
| Api.ConsecutivePagesContiguous | src/features/orders/order.service.ts:85-88 | page p+1 starts on the row after page p ends |
| Api.EarlierPagesComeFirst | src/features/orders/order.service.ts:85-88 | with a positive limit, every row of an earlier page precedes every row of a later one |
| Api.AssemblePage | src/features/orders/order.service.ts:110-113 | the page holds the rows, `count ?? rows.length`, and the page and limit asked for |
| OrderService.CalculateTotal | src/features/orders/order.service.ts:20-22 | the total of no items is 0 and of one item is price times qty |
| OrderService.CalculateTotalConcat | src/features/orders/order.service.ts:20-22 | the total of a concatenation is the sum of the totals |
| OrderService.CalculateTotalNonNegative | src/features/orders/order.service.ts:20-22 | non-negative prices and quantities give a non-negative total |
| OrderService.RowToInsert | src/features/orders/order.service.ts:54-63 | the inserted row copies the payload, with the recomputed total, status 'pending' and the current time |
| OrderService.ClientTotalIgnored | src/features/orders/order.service.ts:54-63 | two payloads differing only in their client total insert the same row |
| OrderService.CreateOrder | src/features/orders/order.service.ts:45-76 | an invalid payload is refused with the validator's error record `CreateErrors(payload)`, which is non-empty, and nothing is inserted; a valid one inserts `RowToInsert`; success iff the insert returns a row; errors and throws map to their messages |
| OrderService.AdminGetOrders | src/features/orders/order.service.ts:81-120 | newest first over the page range; status and search filters iff given non-empty; success iff rows came back, assembled into the page |
| ProductService.GetPublicProducts | src/features/products/product.service.ts:19-77 | page range, ordering (default created_at, descending unless 'asc'), name/description search on the trimmed term, category and price bounds; success iff rows came back |
| ProductService.GetProductById | src/features/products/product.service.ts:80-96 | success iff a row came back; status 404 or 406 is "not found" and only those; other errors and throws keep their own messages |
| ProductService.NotFoundDistinguishable | src/features/products/product.service.ts:84-88 | a not-found answer and any other failure carry different messages |
| ProductService.FirstThrow | src/features/products/product.service.ts:172-181 | the index of the first update that throws: all before it went through |
| ProductService.AdminBulkUpdateStock | src/features/products/product.service.ts:168-187 | updates are sent in order up to the first throw; success iff none throws; per-item errors do not fail the call |
| ProductService.UpdateErrorsIgnored | src/features/products/product.service.ts:178-180 | updates that only report errors never stop the loop |
| UploadService.CleanName | src/features/upload/upload.service.ts:11 | the cleaned name has no whitespace and is no longer than the original |
| UploadService.CleanNameOfClean | src/features/upload/upload.service.ts:11 | a name without whitespace is left unchanged |
| UploadService.CleanNameIdempotent | src/features/upload/upload.service.ts:11 | cleaning twice is cleaning once |
| UploadService.CleanNameOfRun | src/features/upload/upload.service.ts:11 | a whole run of whitespace becomes a single `_` |
| UploadService.GenerateUniqueName | src/features/upload/upload.service.ts:10-15 | the generated name ends with the cleaned original, and has no whitespace when the time and suffix have none |
| UploadService.BuildPublicUrl | src/features/upload/upload.service.ts:18-20 | the public URL ends with `/` followed by the file path |
| UploadService.FullPath | src/features/upload/upload.service.ts:35 | the path ends with the file name, and equals it iff the folder is empty |
| UploadService.StoredResultShape | src/features/upload/upload.service.ts:30-58 | the stored record's name, its path under the folder, and a public URL iff `makePublicUrl` is not false |
| UploadService.UploadSingleFile | src/features/upload/upload.service.ts:26-59 | a storage error gives null, a throw propagates, and an accepted upload gives the stored record |
| UploadService.UploadMultipleFiles | src/features/upload/upload.service.ts:65-93 | `success` and `failed` are the stored records and the failure records, in file order |
| UploadService.UploadPartition | src/features/upload/upload.service.ts:72-90 | every file lands in exactly one of the two lists |
| UploadService.FailureRecords | src/features/upload/upload.service.ts:78-88 | each failure names a file that was not stored, with one of the two fixed messages |
| UploadService.DeleteFiles | src/features/upload/upload.service.ts:117-131 | `deleted` and `failed` are the paths whose removal succeeded or failed, in order |
| UploadService.DeletePartition | src/features/upload/upload.service.ts:124-128 | together the two lists are exactly the input paths, as a multiset |
| UploadService.AllDeleted | src/features/upload/upload.service.ts:124-128 | when every removal succeeds, every path is deleted in order and none failed |
| StatsHelpers.TallyOnePositive | src/features/stats/stats.helpers.ts:16-18 | a day's order count is positive iff some order falls on that day |
| StatsHelpers.DateLessIrreflexive | src/features/stats/stats.helpers.ts:30 | the date order is irreflexive |
| StatsHelpers.DateLessTransitive | src/features/stats/stats.helpers.ts:30 | the date order is transitive |
| StatsHelpers.DateLessTotal | src/features/stats/stats.helpers.ts:30 | any two different dates are ordered |
| StatsHelpers.InsertSorted | src/features/stats/stats.helpers.ts:30 | inserting a point for a new date keeps the chart strictly sorted, with the same points plus the new one |
| StatsHelpers.OnePointPerDay | src/features/stats/stats.helpers.ts:10-31 | a chart has one point per date |
| StatsHelpers.GroupOrdersByDay | src/features/stats/stats.helpers.ts:10-31 | the chart is strictly sorted by date, has one point per date that has orders, and each point holds that day's revenue and order count |
| StatsHelpers.Accumulate | src/features/stats/stats.helpers.ts:13-21 | the map holds every order's date with that day's totals, and the key list has no repeats |
| StatsHelpers.Entries | src/features/stats/stats.helpers.ts:24-29 | each map entry becomes the point with its date, total and order count |
| StatsHelpers.SortByDate | src/features/stats/stats.helpers.ts:30 | the result is strictly sorted and holds the same points |
| StatsHelpers.ChartTotals | src/features/stats/stats.helpers.ts:10-31 | the chart's order counts add up to the number of orders, and its totals to the revenue |
| StatsHelpers.RoundHalfUp | src/features/stats/stats.helpers.ts:42 | `Math.round(r / n)` is the integer a with a - 1/2 <= r/n < a + 1/2 |
| StatsHelpers.RoundUnique | src/features/stats/stats.helpers.ts:42 | that integer is unique |
| StatsHelpers.RoundExact | src/features/stats/stats.helpers.ts:42 | an exact average is returned unchanged |
| StatsHelpers.BuildStatsSummary | src/features/stats/stats.helpers.ts:34-44 | order count and revenue sum, the rounded average, and all zero for no orders |
| CatalogPage.Kept | src/app/catalog/components/CatalogPage.tsx:21-24 | exactly the entries whose value is neither undefined nor '' are kept, as `[key, String(value)]` |
| CatalogPage.KeptConcat | src/app/catalog/components/CatalogPage.tsx:21-24 | filtering keeps the entries' order |
| CatalogPage.SearchFilters | src/app/catalog/components/CatalogPage.tsx:49-52 | a search sets q and page 1 and keeps every other filter |
| CatalogPage.ApplyFilters | src/app/catalog/components/CatalogPage.tsx:87-89 | the sidebar overrides exactly the keys it sends (possibly to undefined) and resets to page 1 |
| CatalogPage.PageFilters | src/app/catalog/components/CatalogPage.tsx:107 | a page button changes only the page |
| CatalogPage.NavigationResetsPage | src/app/catalog/components/CatalogPage.tsx:45-52 | search and sidebar navigation always put `page=1` in the query |
| CatalogPage.EmptySearchDropsQ | src/app/catalog/components/CatalogPage.tsx:23 | a blank search puts no `q` in the query |
| CatalogPage.Pages | src/app/catalog/components/CatalogPage.tsx:96-99 | the pages are 1..totalPages |
| CatalogPage.PageWindow | src/app/catalog/components/CatalogPage.tsx:96-103 | the buttons are the run max(1, page-2) .. min(totalPages, page+2) |
| CatalogPage.PaginationButtons | src/app/catalog/components/CatalogPage.tsx:94-103 | no buttons without pagination or with at most one page; otherwise at most five, including the current page |
| CatalogPage.PageWindowFacts | src/app/catalog/components/CatalogPage.tsx:96-103 | at most five ascending valid pages within two of the current one, which is among them |
| CatalogRoute.ToNumber | src/app/catalog/page.tsx:15-16 | absent or empty text gives undefined; otherwise a number iff `Number` is not NaN |
| CatalogRoute.NonEmpty | src/app/catalog/page.tsx:22-23 | an empty string counts as absent |
| CatalogRoute.NormalizeFilters | src/app/catalog/page.tsx:14-29 | limit 12, page defaults to 1, q and category only when non-empty, prices only when numeric |
| CatalogRoute.ToNumberOfWritten | src/app/catalog/page.tsx:15-16 | a number written into the URL reads back unchanged |
| CatalogRoute.PageRoundTrip | src/app/catalog/page.tsx:18 | a page the catalog put in the URL comes back as that page |
| CatalogRoute.TotalPages | src/app/catalog/page.tsx:42 | `Math.ceil(total / limit)` is the least page count covering the total |
| CatalogRoute.Page | src/app/catalog/page.tsx:36-52 | a failed listing shows no products and no pagination; a successful one shows its items, page and page count |
| CatalogRoute.RenderCatalog | src/app/catalog/page.tsx:31-53 | the view's filters are the normalized ones; 12 rows are asked for; pagination appears iff rows came back, with the ceiling page count |
| Search.Drop | src/components/Search.tsx:41 | removing a key removes all its values and touches no other key |
| Search.SetParam | src/components/Search.tsx:41 | `params.set(k, v)` leaves exactly the value v under k and every other key's values as they were |
| Search.CopyOthers | src/components/Search.tsx:39-43 | each non-filter key keeps exactly its last value from the URL, and no filter key is copied |
| Search.ApplyFilters | src/components/Search.tsx:35-52 | no page; each filter present iff supplied, with its value; other keys keep their last value; the target is `/catalog?` and the query |
| Search.HandleSearch | src/components/Search.tsx:30-33 | q is the trimmed text, absent when blank; category, prices and page are removed from the URL |
| WhatsAppLink.BuildWhatsAppLink | src/lib/utils/buildWhatsAppLink.ts:1-6 | the link reads back as the phone's digits in order and the encoded message |
| WhatsAppLink.PhonePartIsDigits | src/lib/utils/buildWhatsAppLink.ts:3-5 | the phone part of the link is digits only |
| WhatsAppLink.CleanedPhoneSameLink | src/lib/utils/buildWhatsAppLink.ts:3 | a pre-cleaned phone gives the same link |
| WhatsAppLink.DistinctPhonesDistinctLinks | src/lib/utils/buildWhatsAppLink.ts:3-5 | phones with different digits give different links |
| OrdersRoute.StatusFilter | src/app/api/orders/route.ts:8-23 | the status is passed iff it is one of the four allowed |
| OrdersRoute.NumberParam | src/app/api/orders/route.ts:28-33 | page and limit are undefined when absent or empty, otherwise `Number` of the text |
| OrdersRoute.Get | src/app/api/orders/route.ts:15-38 | q passes unchanged; whitelisted status; numeric page and limit; with integral values the listing is asked, newest first, for their page range, with the trimmed-search `or` filter iff q is non-empty; rows give the assembled page, a database error or a throw gives its message |
| OrdersRoute.HttpStatus | src/app/api/orders/route.ts:44-46 | 200 iff the result reports success, otherwise 400 |
| OrdersRoute.Post | src/app/api/orders/route.ts:40-47 | status 200 iff the order was created; an invalid payload always gets 400 |

## Left out

- Persistence of the cart to local storage, and zustand's and React's subscription and re-render machinery, are not modelled. Each store is a class whose methods run one at a time.
- The database and storage are oracles. The model does not capture what `ilike`, `or`, `eq`, `gte`, `lte`, `order` and `range` select. The queries are recorded as the values the code builds.
- `getOrderById`, `adminUpdateOrderStatus` and `adminDeleteOrder` (order service) are not modelled. Neither are `adminCreateProduct`, `adminUpdateProduct` and `adminDeleteProduct` (product service). Each of them is a validation or a single database call whose answer is passed through. The validations they use are modelled.
- `deleteFile` is given as its boolean answers. A storage call that throws inside `deleteFiles` is not modelled.
- Clocks and randomness (`Date.now()`, `Math.random()`, `new Date().toISOString()`) are parameters. So is the public base URL from the environment.
- `normalizeDate` is a function parameter. Date parsing and time zones are outside the model.
- `encodeURIComponent` and `URLSearchParams`' form encoding are a function parameter. Only the `key=value&…` structure is modelled.
- JsText.Number: reads only optionally signed decimal integers with surrounding whitespace, and all-whitespace text as 0. Decimals, exponents, hexadecimal and `Infinity` text give NaN in the model, where JavaScript gives a number.
- Fractional prices, totals and quantities are not modelled: every amount is an integer. The product validators still keep JavaScript's typeof/NaN/isInteger distinctions for price and stock.
- StatsHelpers.SortByDate: orders dates by code points. The source uses `localeCompare`, which agrees on the `YYYY-MM-DD` keys that `normalizeDate` produces.
- OrdersRoute.Get: a `page` or `limit` whose text `Number` reads as NaN gives no modelled answer. The source would ask for a NaN row range.
- Intl price formatting and every component's markup are outside the model.
- The `loading` flag of `useCheckout` is observable only through the out-parameter that records its value while order creation is pending.
- CartStore.Decremented: the clamp at 1 means `decrement` never removes its target line; the filter after it removes only other lines already at 0 or below (see `DecrementKeepsTarget`).
- Checkout.Checkout.SubmitOrder: the hook exposes no error state. A failure leaves the cart and `successData` untouched and reports nothing else.
- Search.ApplyFilters: fixes the values under each key of the new query but not the order of the keys in it, so the exact `target` string is determined only up to that order.
