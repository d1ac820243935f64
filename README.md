# Northwind-WebOrder order creation, modelled in Dafny

This project models the order-creation path of Northwind-WebOrder, a small web shop on top of the Northwind database:

- **Backend validator.** It checks a submitted order's structure and value ranges. Then it checks four facts against the store: the customer, case worker and shipper exist exactly once, and every ordered article exists.
- **Backend writer.** It allocates an order id. In one transaction it inserts the order header, one detail row per line and the reduced stock of each article, and reports a warning for every article that falls below its minimum stock.
- **Older draft of the writer.** It has its own store-free validation, discount checks, minimum-stock warnings and order-id rule.
- **Browser side:**
  - the order being assembled in the create-order dialog, and its lines;
  - the GET cache;
  - the filtered table with its date range filter;
  - the row filter of the old order list page.

The project has one module per source file:

| file | module | models |
|---|---|---|
| `js_values.dfy` | `JsValues` | JavaScript values, truthiness, `===`, `Number(...)`/`parseFloat` coercion, `parseInt` and the integer test `parseInt(x) + "" === x` |
| `sequences.dfy` | `Sequences` | `filter` and its laws, the first-failure scan every validator loop performs |
| `order_validator.dfy` | `OrderValidator` | `src/backend/OrderCreator/OrderValidator.js` |
| `order_creator.dfy` | `OrderCreator` | `src/backend/OrderCreator/OrderCreator.js` (class `OrderStore`) |
| `legacy_order_creator.dfy` | `LegacyOrderCreator` | `src/backend/OrderCreator.js` |
| `order_article.dfy` | `ClientOrderArticle` | `OrderArticle.js` (class `OrderArticle`) |
| `client_order.dfy` | `ClientOrder` | `Order.js` (class `Order`) |
| `data_fetcher.dfy` | `DataFetcher` | `DataFetcher.js` (class `DataFetcher`) |
| `table.dfy` | `Tables` | `Table.js` and `DateRangeFilter.js` (classes `Table`, `DateRangeFilter`, which refer to each other) |
| `order_list_page.dfy` | `OrderListPage` | `applyFilters` of `src/web/resources/pages/index.js` |

## Modelling choices

- **Payload fields.** Each field of a submitted order is a `JsValue`: undefined, null, boolean, finite number (exact, as `real`), NaN, string, or a Date (its time value in ms).
- **Messages.** Error and warning messages are datatype constructors that name their cause. The line index or article id a message carries is kept as data.
- **Store queries.** They are inputs. A query's result is `DbError(message)` or `Rows(value)`.
- **The writer's store.** It is a class whose fields are the orders table, the order details table, the article table and the open transaction's snapshot.
  - A failing header insert is the `fault` input.
  - The clock is the `now` input.
- **Promise chains.** Each nested chain is modelled as a sequential first-failure composition. A rejection in an inner chain is never forwarded to the outer promise, which stays pending. The model reports that first failure instead.
- **Money and dates.** Money is `real`. Dates are integer milliseconds. `setHours(0,0,0,0)` and `setHours(23,59,59,999)` are the start and end of a UTC day.
- **String-to-number conversion.**
  - `Number(s)`, `parseFloat(s)`, `Date.parse(v)` and the float round trip `parseFloat(s) + "" === s` are parameters: `stringToNumber`, `parseFloatText`, `parseDate`, `isFloatText`.
  - `parseInt` and the integer round trip are defined in full.
- **The GET cache.** The class `DataFetcher` is modelled as written.
  - The age test is `timestamp - now > 300 * 1000`, so an entry stamped in the past never expires. `DataFetcher.PastEntriesNeverExpire` states this.
  - When the test does fire, `splice(i, i)` removes `i` entries, so nothing is removed at index 0. `DataFetcher.SpliceRemovesIndexCount` states this.
  - The intended expiry is `DataFetcher.IntendedLookup`; see "## Findings".

## Model

| member | source | states |
|---|---|---|
| JsValues.IntegerTestCharacterisation | src/backend/OrderCreator/OrderValidator.js:78 | `parseInt(s) + "" === s` holds exactly for canonical decimal integers ("0", optional minus, no leading zero) and for the text "NaN" |
| JsValues.ParseIntOfIntegerText | src/backend/OrderCreator/OrderValidator.js:260-262 | parseInt of a canonical integer text is that integer |
| JsValues.NumberTextIsCanonical | src/backend/OrderCreator/OrderValidator.js:78 | every rendering `n + ""` of a parsed integer is canonical and parses back to `n` |
| JsValues.IntegerTestAccepts | src/backend/OrderCreator/OrderValidator.js:102 | "7" and "-12" pass the integer test |
| JsValues.IntegerTestRejects | src/backend/OrderCreator/OrderValidator.js:107 | "07", "7a" and "" fail the integer test |
| JsValues.IntegerTestRejectsSigns | src/backend/OrderCreator/OrderValidator.js:83 | "+7" and "-0" fail the integer test |
| JsValues.NonCanonicalTextFails | src/backend/OrderCreator/OrderValidator.js:78 | text that is neither canonical nor "NaN" fails the integer test |
| JsValues.NaNPassesIntegerTest | src/backend/OrderCreator/OrderValidator.js:78 | "NaN" passes the integer test although it is not an integer |
| Sequences.FilterIsSubsequence | src/backend/OrderCreator/OrderValidator.js:279-281 | `filter` only deletes elements and keeps their order |
| Sequences.FilterCounts | src/backend/OrderCreator/OrderValidator.js:279-281 | `filter` keeps each accepted element as often as it occurs and drops every other one |
| Sequences.FilterAppend | src/frontend/javascript/util/Table/Table.js:48-76 | filtering distributes over concatenation, so pushing the accepted rows one at a time builds the filtered list |
| Sequences.FilterConjunction | src/frontend/javascript/util/Table/Table.js:50-76 | keeping rows under two conditions is filtering twice |
| Sequences.FirstFailure | src/backend/OrderCreator/OrderValidator.js:95-115 | the loop with early return finds the first element that fails, and every earlier element passed |
| OrderValidator.LineError | src/backend/OrderCreator/OrderValidator.js:99-114 | a line is rejected iff its article id, amount or discount percent fails its check; the checks run in the order article id, amount, discount percent, each first "missing" then "wrong type", and the error names the first one that fails and the line index |
| OrderValidator.ValidateStructure | src/backend/OrderCreator/OrderValidator.js:67-118 | no error iff the order is well formed; the checks run in the order object, customer code, case worker id (missing, then not an integer), shipper id (likewise), order articles (missing, not an array, empty), then the lines; each error is the first failing check; a line error is that line's `LineError`, all earlier lines being well formed |
| OrderValidator.ValidateValueRanges | src/backend/OrderCreator/OrderValidator.js:128-143 | no error iff every amount is positive and every numeric `discount` lies in [0, 1]; an error names the first such line; it is the amount error iff that line's amount is not positive, so a discount error has a positive amount |
| OrderValidator.RowCountCheck | src/backend/OrderCreator/OrderValidator.js:162-176 | a customer, case worker or shipper lookup resolves iff exactly one row matches; 0 rows is "not found", more is "multiple", a driver error is passed on |
| OrderValidator.MissingArticleIds | src/backend/OrderCreator/OrderValidator.js:279-281 | the missing ids are exactly the requested ids the query did not return, in request order and with their multiplicity |
| OrderValidator.ArticlesCheck | src/backend/OrderCreator/OrderValidator.js:258-291 | the article check resolves iff the query succeeds and returns every requested id; a failing query gives the store error with the query's message; otherwise the error lists the missing ids |
| OrderValidator.RequestedArticleIds | src/backend/OrderCreator/OrderValidator.js:260-262 | one id per line, in line order, each the value `parseInt` reads from that line's article id |
| OrderValidator.ReferentialCheck | src/backend/OrderCreator/OrderValidator.js:43-53 | customer, then case worker, then shipper, then articles, the first failure winning; when the three row counts are exactly 1 the result is the article check's; none fails iff all four lookups succeed; it never rejects with a structural or range reason |
| OrderValidator.Validate | src/backend/OrderCreator/OrderValidator.js:33-54 | a structural error, else a value-range error, else the referential rejection is the verdict; valid iff well formed, in range and every lookup succeeds |
| OrderValidator.EarlyRejectionIgnoresStore | src/backend/OrderCreator/OrderValidator.js:35-40 | a structural or range rejection is the same whatever the store would answer |
| OrderValidator.Request | src/backend/OrderCreator/OrderValidator.js:95-115 | a well-formed order keeps its customer code; its case worker and shipper ids are what `parseInt` reads from the fields; one typed line per submitted line, whose id and amount are what `parseInt` reads and whose discount is the submitted one |
| OrderValidator.ValidRequest | src/backend/OrderCreator/OrderValidator.js:33-54 | a valid order's every line names a known article, orders a positive amount and has a discount in [0, 1] when numeric |
| OrderCreator.NewOrderIdIsFresh | src/backend/OrderCreator/OrderCreator.js:108-128 | the new id (maximum + 1, NULL counting as 0) exceeds every existing id, so it is unused; it is 1 on an empty table |
| OrderCreator.NewOrderId | src/backend/OrderCreator/OrderCreator.js:116-125 | with no row, or a NULL maximum, the id is 1; otherwise it exceeds the maximum |
| OrderCreator.MaxOrderId | src/backend/OrderCreator/OrderCreator.js:108-128 | the maximum is an existing id and no id exceeds it |
| OrderCreator.Insert | src/backend/OrderCreator/OrderCreator.js:187-189 | inserting into a sorted list keeps it sorted and adds exactly the line |
| OrderCreator.SortByArticleId | src/backend/OrderCreator/OrderCreator.js:187-189 | the lines sorted ascending by article id, a permutation of the input |
| OrderCreator.DetailRows | src/backend/OrderCreator/OrderCreator.js:206-208 | one detail row per line, in processing order, with the unit price of the line's own article |
| OrderCreator.SetStock | src/backend/OrderCreator/OrderCreator.js:253-266 | the UPDATE sets that article's stock and keeps its other columns; every other row is unchanged; no row is added or removed (an unknown id changes nothing) |
| OrderCreator.StockAfter | src/backend/OrderCreator/OrderCreator.js:192-211 | the stock updates never add or remove article rows |
| OrderCreator.Warnings | src/backend/OrderCreator/OrderCreator.js:191-204 | at most one warning per line, each one a real shortfall (new stock below the minimum) |
| OrderCreator.WarningsAppend | src/backend/OrderCreator/OrderCreator.js:197-204 | warnings follow processing order: the warnings of a concatenation are those of its parts |
| OrderCreator.Breaches | src/backend/OrderCreator/OrderCreator.js:197 | every selected line leaves its article below the minimum stock |
| OrderCreator.WarningsOf | src/backend/OrderCreator/OrderCreator.js:199-203 | one warning per line with its article id, new stock and minimum stock |
| OrderCreator.WarningsSelectBreaches | src/backend/OrderCreator/OrderCreator.js:195-204 | the warnings are exactly one per line whose new stock is below the minimum, in processing order; a new stock equal to the minimum gives none |
| OrderCreator.StockAfterDistinct | src/backend/OrderCreator/OrderCreator.js:195-209 | with one line per article, each ordered article's stock drops by its amount and no other article row changes |
| OrderCreator.PairingFailsOnGaps | src/backend/OrderCreator/OrderCreator.js:176-181 | with articles 1, 2 and 3 and one line for article 2, the query's rows are not paired with the line, while the line's own article row carries its price |
| OrderCreator.SortedLinesKnown | src/backend/OrderCreator/OrderCreator.js:187-192 | sorting keeps every line, so every sorted line's article is known |
| OrderCreator.ProcessedStep | src/backend/OrderCreator/OrderCreator.js:192-211 | one loop iteration extends the warnings, detail rows and stock table by exactly that line's contribution |
| OrderCreator.OrderStore.constructor | src/backend/OrderCreator/OrderCreator.js:51-61 | the store starts from the given tables with no open transaction |
| OrderCreator.OrderStore.MaxOrderIdQuery | src/backend/OrderCreator/OrderCreator.js:108-128 | the MAX query returns one row: NULL on an empty table, otherwise the largest id |
| OrderCreator.OrderStore.BeginTransaction | src/backend/OrderCreator/OrderCreator.js:80 | the tables are unchanged and their state is saved |
| OrderCreator.OrderStore.Commit | src/backend/OrderCreator/OrderCreator.js:85-88 | the tables keep their new state; no transaction is open |
| OrderCreator.OrderStore.Rollback | src/backend/OrderCreator/OrderCreator.js:91-95 | the tables return to the saved state |
| OrderCreator.OrderStore.InsertOrderIntoOrdersTable | src/backend/OrderCreator/OrderCreator.js:139-161 | the insert succeeds iff there is no store error and the id is unused; it appends the header with the placeholder address, the three dates and freight 1.5; nothing else changes |
| OrderCreator.OrderStore.InsertOrderArticleIntoOrderDetailsTable | src/backend/OrderCreator/OrderCreator.js:228-242 | appends exactly one detail row |
| OrderCreator.OrderStore.UpdateOrderArticleStock | src/backend/OrderCreator/OrderCreator.js:253-266 | only that article's stock changes |
| OrderCreator.OrderStore.SaveOrderArticle | src/backend/OrderCreator/OrderCreator.js:193-210 | one iteration: a warning iff the new stock is below the minimum, one detail row, one stock update |
| OrderCreator.OrderStore.SaveOrderArticles | src/backend/OrderCreator/OrderCreator.js:174-216 | given article query rows paired by position with the sorted lines, the warnings, detail rows and stock table are those of the lines in article id order, computed from the article rows read before the loop |
| OrderCreator.OrderStore.SaveSortedOrderArticles | src/backend/OrderCreator/OrderCreator.js:192-211 | the loop reads row i of the article query for line i; when that row is line i's own article row, the warnings are `Warnings` of the lines, the details gain `DetailRows`, and the article table becomes `StockAfter`, all computed from the article rows as they were before the loop |
| OrderCreator.OrderStore.SaveOrder | src/backend/OrderCreator/OrderCreator.js:74-100 | fails iff the header insert fails, then leaving the tables unchanged; otherwise, with the article rows paired by position, the header with a fresh id, the detail rows, the new stocks and the warnings |
| OrderCreator.OrderStore.CreateOrder | src/backend/OrderCreator/OrderCreator.js:51-61 | a rejected order is refused with the validator's reason and changes nothing; a valid order (whose article rows are paired by position) is written as by SaveOrder |
| LegacyOrderCreator.LegacyLineError | src/backend/OrderCreator.js:38-57 | a line passes iff its id passes the integer test, its amount passes it and is positive, and its discount is not NaN and does not parse as negative; a bad id gives the id message, else a bad amount the amount message, else the discount message |
| LegacyOrderCreator.ValidateOrder | src/backend/OrderCreator.js:26-60 | no articles first, then the additional discount, then the first failing line; with lines present and a valid additional discount, any error is a line error (id, amount or discount); valid iff all pass |
| LegacyOrderCreator.ValidatedLine | src/backend/OrderCreator.js:313-315 | a validated line's id and amount are what `parseInt` reads from its fields, and the amount is positive |
| LegacyOrderCreator.ValidatedLines | src/backend/OrderCreator.js:313-315 | one validated line per submitted line, in order: id and amount as `parseInt` reads them, amount positive, discount the number the field coerces to |
| LegacyOrderCreator.CheckDiscounts | src/backend/OrderCreator.js:342-363 | the discount loop rejects a line whose discount exceeds its price, else a total discount exceeding the summed unit prices |
| LegacyOrderCreator.TotalIgnoresAmounts | src/backend/OrderCreator.js:356 | the total sums unit prices, not line prices: 2 pieces at 10.0 with discount 15.0 pass the line check and fail the total |
| LegacyOrderCreator.CreateFromLines | src/backend/OrderCreator.js:311-373 | after validation: refused iff an id is missing; then the discount verdict; an accepted order carries the warnings of the lines sorted by article id |
| LegacyOrderCreator.SortedStockWarnings | src/backend/OrderCreator.js:400-422 | the warnings of the lines sorted by article id, at most one per line |
| LegacyOrderCreator.CheckMinimumStocks | src/backend/OrderCreator.js:400-422 | the loop's warnings are those of `MinimumStockWarnings` |
| LegacyOrderCreator.MinimumStockWarningsSelect | src/backend/OrderCreator.js:411-419 | one warning per line leaving its article below the minimum, in order, with the name, stock and minimum stock |
| LegacyOrderCreator.MinimumStockThreshold | src/backend/OrderCreator.js:415 | reaching the minimum exactly gives no warning; one piece more gives one |
| LegacyOrderCreator.LegacyNewOrderIdAgrees | src/backend/OrderCreator.js:379-395 | on every orders table the draft allocates the same id as the newer writer; the rules differ only on a result with no row (0 against 1) |
| LegacyOrderCreator.CreateOrder | src/backend/OrderCreator.js:14-21 | refuses with validateOrder's error; then refuses iff an id is missing from the article rows; then refuses with the discount verdict; otherwise accepts with exactly the minimum-stock warnings of the lines in article id order, at most one per line |
| ClientOrderArticle.ValidateLine | src/frontend/javascript/index/Dialog/CreateOrderDialog/OrderArticle.js:77-93 | valid iff the amount is not 0 and the discount is in [0, 100]; the fault names the first failing check (a negative amount passes) |
| ClientOrderArticle.Price | src/frontend/javascript/index/Dialog/CreateOrderDialog/OrderArticle.js:100-103 | the price of the line before the discount: non-negative for a non-negative unit price and amount, 0 for no piece, the unit price for one piece |
| ClientOrderArticle.DiscountInEuros | src/frontend/javascript/index/Dialog/CreateOrderDialog/OrderArticle.js:110-113 | for a discount in [0, 100] and a non-negative price it lies between 0 and the price; 0 % gives 0, 100 % gives the price |
| ClientOrderArticle.OrderArticle.constructor | src/frontend/javascript/index/Dialog/CreateOrderDialog/OrderArticle.js:11-16 | a new line orders one piece without discount |
| ClientOrderArticle.OrderArticle.SetAmount | src/frontend/javascript/index/Dialog/CreateOrderDialog/OrderArticle.js:45-47 | sets the amount, keeps the discount |
| ClientOrderArticle.OrderArticle.SetDiscount | src/frontend/javascript/index/Dialog/CreateOrderDialog/OrderArticle.js:63-65 | sets the discount, keeps the amount |
| ClientOrder.IndexOf | src/frontend/javascript/index/Dialog/CreateOrderDialog/Order.js:180-191 | the first line with the article number, or none iff no line has it |
| ClientOrder.IndexOfUnique | src/frontend/javascript/index/Dialog/CreateOrderDialog/Order.js:180-191 | with distinct article numbers the line found is the only one with that number |
| ClientOrder.OrderVerdict | src/frontend/javascript/index/Dialog/CreateOrderDialog/Order.js:230-275 | customer, worker, provider, at least one line, each line valid (the first invalid one reported with its article number), total discount not above total price, each missing item giving its own fault in that order; with all three ids set, any invalid line gives the article fault; the discount fault arises iff everything else holds and the discounts exceed the price; valid iff all hold |
| ClientOrder.TotalPriceAppend | src/frontend/javascript/index/Dialog/CreateOrderDialog/Order.js:199-207 | one more line adds its Einzelpreis times its amount to the total |
| ClientOrder.TotalPriceOneMore | src/frontend/javascript/index/Dialog/CreateOrderDialog/Order.js:136-139 | adding an article already in the order raises the total by one Einzelpreis |
| ClientOrder.TotalDiscountChange | src/frontend/javascript/index/Dialog/CreateOrderDialog/Order.js:163-170 | changing one line's discount changes the total discount by the difference |
| ClientOrder.Order.Lines | src/frontend/javascript/index/Dialog/CreateOrderDialog/Order.js:87-89 | the lines as values, one per order article |
| ClientOrder.Order.constructor | src/frontend/javascript/index/Dialog/CreateOrderDialog/Order.js:15-22 | nothing chosen, no lines, additional discount 0 |
| ClientOrder.Order.SetCustomerId | src/frontend/javascript/index/Dialog/CreateOrderDialog/Order.js:42-44 | sets only the customer |
| ClientOrder.Order.SetWorkerId | src/frontend/javascript/index/Dialog/CreateOrderDialog/Order.js:60-62 | sets only the worker |
| ClientOrder.Order.SetProviderId | src/frontend/javascript/index/Dialog/CreateOrderDialog/Order.js:78-80 | sets only the provider |
| ClientOrder.Order.SetAdditionalDiscount | src/frontend/javascript/index/Dialog/CreateOrderDialog/Order.js:105-107 | sets only the additional discount |
| ClientOrder.Order.Reset | src/frontend/javascript/index/Dialog/CreateOrderDialog/Order.js:115-121 | back to the state of a new order |
| ClientOrder.Order.GetOrderArticleIndexByArticleId | src/frontend/javascript/index/Dialog/CreateOrderDialog/Order.js:180-191 | the loop returns the index of the first line with the article number, or null |
| ClientOrder.Order.AddOrderArticle | src/frontend/javascript/index/Dialog/CreateOrderDialog/Order.js:128-140 | a new article is appended, a known one gets one piece more; article numbers stay distinct |
| ClientOrder.Order.ChangeOrderArticleAmount | src/frontend/javascript/index/Dialog/CreateOrderDialog/Order.js:148-155 | only the matching line's amount changes; nothing changes without a match |
| ClientOrder.Order.ChangeOrderArticleDiscount | src/frontend/javascript/index/Dialog/CreateOrderDialog/Order.js:163-170 | only the matching line's discount changes; nothing changes without a match |
| ClientOrder.Order.CalculateTotalPrice | src/frontend/javascript/index/Dialog/CreateOrderDialog/Order.js:199-207 | the sum of Einzelpreis times amount |
| ClientOrder.Order.CalculateTotalArticleDiscount | src/frontend/javascript/index/Dialog/CreateOrderDialog/Order.js:214-222 | the sum of the line discounts as stored |
| ClientOrder.Order.Validate | src/frontend/javascript/index/Dialog/CreateOrderDialog/Order.js:230-275 | the method's answer is `OrderVerdict` of the current state |
| DataFetcher.FirstMatch | src/frontend/javascript/util/DataFetcher.js:71-73 | the first entry with the same url and deep-equal parameters, or none iff there is none |
| DataFetcher.Spliced | src/frontend/javascript/util/DataFetcher.js:78 | `splice(start, count)` removes `count` entries (or all that remain) from `start`, keeps the prefix, and removes nothing for count 0 |
| DataFetcher.PastEntriesNeverExpire | src/frontend/javascript/util/DataFetcher.js:75-76 | an entry stamped no later than now never counts as expired |
| DataFetcher.FirstMatchStable | src/frontend/javascript/util/DataFetcher.js:47 | appending an entry never changes which entry a lookup finds first |
| DataFetcher.AppendedEntryIsFound | src/frontend/javascript/util/DataFetcher.js:36-47 | after a miss that caches its result, the next lookup finds the new entry |
| DataFetcher.IntendedLookup | src/frontend/javascript/util/DataFetcher.js:69-86 | the lookup with the intended age test: a miss keeps the cache; anything served matches the url and parameters and is at most the validity old |
| DataFetcher.IntendedLookupRefetchesOld | src/frontend/javascript/util/DataFetcher.js:75-79 | with the intended test, an entry older than the validity is not served and exactly that entry is removed |
| DataFetcher.IntendedLookupServesYoung | src/frontend/javascript/util/DataFetcher.js:75-81 | with the intended test, an entry at most the validity old is served and the cache is kept |
| DataFetcher.StaleEntryServedAsWritten | src/frontend/javascript/util/DataFetcher.js:75-76 | an entry cached an hour ago is fresh under the test as written and expired under the intended one |
| DataFetcher.SpliceRemovesIndexCount | src/frontend/javascript/util/DataFetcher.js:78 | `splice(i, i)` removes nothing at index 0 and two entries at index 2 |
| DataFetcher.DataFetcher.constructor | src/frontend/javascript/util/DataFetcher.js:14-18 | empty cache, 300 seconds validity |
| DataFetcher.DataFetcher.GetCachedResultForUrl | src/frontend/javascript/util/DataFetcher.js:69-86 | null without a match; for the first match, null and the splice when the age test fires, otherwise the entry with the cache unchanged |
| DataFetcher.DataFetcher.Get | src/frontend/javascript/util/DataFetcher.js:29-55 | a hit answers from the cache and changes nothing; a miss answers the fetched data and appends it iff caching is requested |
| Tables.DayStart | src/frontend/javascript/util/Table/Filter/DateRangeFilter.js:63 | the first millisecond of the day: at most the time, within one day of it, on a day boundary |
| Tables.DayEnd | src/frontend/javascript/util/Table/Filter/DateRangeFilter.js:66 | the last millisecond of the day: at least the time, within one day of it, just before a day boundary |
| Tables.DayBoundsStable | src/frontend/javascript/util/Table/Filter/DateRangeFilter.js:199-212 | normalising twice is normalising once; a day's end lies in that day |
| Tables.FilteredRows | src/frontend/javascript/util/Table/Table.js:43-81 | the rows loaded are a subsequence of the data rows, each passing every filter and every combo box selection, and every passing row is among them |
| Tables.NothingSelectedKeepsAll | src/frontend/javascript/util/Table/Table.js:48-76 | with no filter selection and no combo box value every row is shown |
| Tables.AddedSelectionNarrows | src/frontend/javascript/util/Table/Table.js:64-74 | one more combo box selection shows exactly the rows shown before whose field strictly equals it |
| Tables.SelectionUpdate | src/frontend/javascript/util/Table/Table.js:112-123 | the field reads as the new value (null: as nothing truthy), no other field changes, and for strings and null the table is re-filtered iff the selections change |
| Tables.States | src/frontend/javascript/util/Table/Table.js:51-58 | the filters' states, one per filter, in order |
| Tables.Table.constructor | src/frontend/javascript/util/Table/Table.js:10-15 | no filters, no combo box selections |
| Tables.Table.AddFilter | src/frontend/javascript/index/OrdersTable/OrdersTable.js:158 | a table subclass registering its date range filter appends exactly that filter and changes nothing else |
| Tables.Table.FilterStates | src/frontend/javascript/util/Table/Table.js:51-58 | the filters' states, one per filter, in order |
| Tables.Table.RowMatchesFilters | src/frontend/javascript/util/Table/Table.js:48-77 | the loops with `break` decide exactly `MatchesFilters` |
| Tables.Table.ApplyFilters | src/frontend/javascript/util/Table/Table.js:43-81 | loads exactly `FilteredRows` of the data rows and changes nothing else |
| Tables.Table.SetSelectedComboBoxValue | src/frontend/javascript/util/Table/Table.js:112-123 | no-op when the value counts as selected; otherwise null deletes and any other value sets the field, and the table is re-filtered |
| Tables.Table.OnLoadSuccess | src/frontend/javascript/util/Table/Table.js:160-166 | with a filter, the rows are stored and filtered; without one, nothing changes |
| Tables.DateRangeFilter.constructor | src/frontend/javascript/util/Table/Filter/DateRangeFilter.js:14-24 | nothing selected |
| Tables.DateRangeFilter.LoadData | src/frontend/javascript/util/Table/Filter/DateRangeFilter.js:60-74 | the bounds become the start of the minimum's day and the end of the maximum's day; selections stay |
| Tables.DateRangeFilter.OnDateRangeFilterClose | src/frontend/javascript/util/Table/Filter/DateRangeFilter.js:192-229 | afterwards the effective range is the chosen range (missing ends fall back to the bounds), a choice equal to its bound is stored as null, and the table is re-filtered iff the effective range changed |
| OrderListPage.Selected | src/web/resources/pages/index.js:77-111 | the rows shown are a subsequence of the rows, each passing, and every passing row is shown |
| OrderListPage.ApplyFilters | src/web/resources/pages/index.js:77-111 | the nested loops return exactly `Selected` |
| OrderListPage.WildcardsKeepAll | src/web/resources/pages/index.js:87-105 | with only "all" selections and no date bounds (the initial empty filter object among them) every row is shown |
| OrderListPage.WildcardIsNoConstraint | src/web/resources/pages/index.js:90 | selecting "all" in a column is the same as selecting nothing there |
| OrderListPage.DateBounds | src/web/resources/pages/index.js:103-105 | with both bounds set, a row with a parseable date is shown by them iff the date lies within the bounds inclusively; a row whose date does not parse is never excluded by them |

## Left out

- **Writes over the network.** SQL text, the database driver, HTTP, `$.get` and the bootstrap-table/select2/flatpickr widgets are not modelled. Query results, the clock and fetched data are inputs.
- **Concurrency.** Interleaved requests are not modelled. In particular, two orders racing for the same new id are not covered.
- **`parseInt`, partly.** Hexadecimal prefixes and precision above 2^53 are not modelled.
- **`OrderCreator.OrderStore.Commit`.** A failing commit is not modelled.
- OrderCreator.OrderStore.SaveOrderArticles: does not model a failing detail insert or stock update. The source neither checks nor rolls back those writes.
- OrderCreator.OrderStore.SaveOrderArticles: requires `PairedByPosition`, which says that row i of the article query is the row of line i's own article. The source's query (`OrderCreator.js` lines 176-181) selects every article, ordered by ArtikelNr, with no WHERE clause on the ordered ids. The loop then pairs line i with row i (lines 195, 197, 207).
  - The pairing holds only when the ordered ids are the smallest ids in the table.
  - Outside it, the source uses other articles' prices, stocks and minimum stocks. With fewer rows than lines it throws a TypeError.
  - `OrderCreator.PairingFailsOnGaps` shows a case outside the pairing: articles 1, 2 and 3 with one line for article 2.
  - The same precondition carries over to `OrderCreator.OrderStore.SaveSortedOrderArticles`, `OrderCreator.OrderStore.SaveOrder` and `OrderCreator.OrderStore.CreateOrder`.
- OrderCreator.OrderStore.SaveOrderArticles: does not model the query as written. Lines 177-179 lack a comma between the stock and minimum-stock columns, so the query fails. The callback ignores `_error`, and `_result[i]` throws a TypeError. As written, no detail row and no stock update is ever written. The model assumes the three columns the query evidently means to return.
- OrderCreator.OrderStore.SaveOrderArticles: does not model the warning as written. Lines 199-203 read the undefined `_orderArticle` and `_minimumStock`, so the first warning throws a ReferenceError inside the query callback and the promise never settles. The model's warning carries the article id, the new stock and the minimum stock.
- OrderCreator.DetailRows, OrderCreator.Warnings, OrderCreator.StockAfter: look each line's article up by id. The source reads row i of the article query, and the two agree under `PairedByPosition`.
- OrderCreator.OrderStore.InsertOrderIntoOrdersTable: does not model the ReferenceError at line 149. `mysql` is not defined in the file, so building the column values throws. No header is inserted, the transaction stays open and saveOrder's promise never settles. The model stores the customer code as given, which is what `mysql.escape` would quote.
- OrderCreator.OrderStore.InsertOrderIntoOrdersTable: the three dates are the string "NOW()" bound as a value. The model writes the clock input `now` instead.
- OrderCreator.OrderStore.InsertOrderArticleIntoOrderDetailsTable: does not model the ReferenceError at line 237. `self` is not defined in that method, so the insert throws inside its promise. No detail row is written, and the stock update chained after it never runs. The model appends the row.
- OrderCreator.OrderStore.SaveOrder: the model performs every detail insert and stock update inside the transaction, before the commit. The source behaves differently:
  - saveOrderArticles resolves its warnings (line 213) as soon as it has started the chain of writes, without waiting for them.
  - So saveOrder issues the commit (line 85) after at most the first detail insert.
  - The remaining inserts and all stock updates run after the commit, outside the transaction, and their failures are never reported.
- OrderCreator.OrderStore.MaxOrderIdQuery: does not model a failing MAX query. getNewOrderId rejects (line 117), but saveOrder has no handler for that rejection (line 78), so its promise never settles.
- OrderCreator.OrderStore.SaveOrder: the contract states the evident intent. Because of the ReferenceError in `InsertOrderIntoOrdersTable`, no order is saved as written. The same holds for `OrderCreator.OrderStore.CreateOrder`, which as written also leaves a validator rejection pending instead of forwarding it (lines 55-59).
- **Sort comparators.** Both writers sort with a boolean comparator (`a > b`). The model sorts numerically ascending.
- LegacyOrderCreator.CreateOrder, LegacyOrderCreator.CheckMinimumStocks: the model pairs each line with its article row by id. checkMinimumStocks pairs row i of the article rows with line i of the lines (`OrderCreator.js` lines 404-416). It "sorts" both with a comparator that returns a boolean.
  - That comparator never returns a negative number, so the sort keeps the input order. The line ids are payload strings in any case.
  - The query returns one row per distinct id (`WHERE ArtikelNr IN`).
  - So the two pairings agree only when three things hold: the ids are distinct, the lines are submitted in ascending id order, and the rows come back in id order.
  - Otherwise the source uses another article's stock and name. With a repeated id there are fewer rows than lines, and it reads past the end.
- LegacyOrderCreator.CheckDiscounts: the model checks and sums every line with its own article's row. The source's loop (lines 346-357) runs over the query rows (`i < _result.length`) and pairs row i, from a query with no ORDER BY, with line i.
  - With a repeated id there are fewer rows than lines, so the later lines are neither checked nor summed.
  - With lines not in the rows' order, a line is checked against another article's price.
- **Old draft's write path.** `insertOrder`, `insertOrderArticles`, `updateRemainingStocks` (which writes `amount - amount`) and `saveOrder` are not modelled. Neither are `getCustomerCodeFromOrder`, `getWorkerIdFromOrder` (whose integer check is inverted) and `getProviderIdFromOrder`.
- **LegacyOrderCreator.CheckDiscounts:** does not model `+=` on a string discount, which concatenates text instead of adding numbers.
- ClientOrderArticle.ValidateLine, ClientOrder.OrderVerdict: amounts are integers and discounts are reals, so NaN cannot occur. In the dialog, an emptied amount, discount or additional-discount input becomes NaN through `parseInt`/`parseFloat` (`CreateOrderDialog.js` lines 53, 126 and 151). Every comparison with NaN is false, so such a line, and the order's discount total, pass the source's `validate`. The model does not capture that.
- **ClientOrder.OrderVerdict:** `validate` calls `getArticleId()`, which `OrderArticle` does not define. The model reports the line's ArtikelNr instead.
- OrderValidator.ValidateStructure: does not model a `null` order or a `null` line, since the payload types have neither. `typeof null` is "object", so a `null` order passes the test at line 70 and then throws a TypeError reading `customerCode`. A `null` line throws the same way reading `articleId` (line 100).
- **OrderValidator.FloatField:** the float round trip `parseFloat(s) + "" === s` is a parameter and is not defined.
- **Not part of this model:**
  - `Order.save`, which only posts over HTTP;
  - the dialogs, the PDF generator, Utils and the web server.
- **Tables.Table.constructor:** `dataRows` is undefined in the source until the first load, so `applyFilters` would throw before it. The model starts with no rows.
- **Date bounds before `loadData`.** `minDate` and `maxDate` are undefined before `loadData` runs; the model represents this as None.
- **Time zones.** Day boundaries are UTC days, not local days.
- **Date objects.** The model does not capture that `setHours` mutates the picker's Date objects.
- **Tables.DateRangeFilter.OnDateRangeFilterClose:** when the range is unchanged, the source calls `flatpickr.setDate`. The model leaves that widget call out.
- **Tables.Table.OnLoadSuccess:** with no filter, bootstrap-table shows the loaded rows itself. `loadedRows` records only what `applyFilters` loads.

## Findings

| source | as written | input that shows it | evidently intended | confidence | as-written member | corrected member |
|---|---|---|---|---|---|---|
| src/backend/OrderCreator/OrderValidator.js:78 | `parseInt(x) + "" !== x` is meant to reject non-integers (the same test is at lines 83, 102 and 107, and at lines 43 and 49 of src/backend/OrderCreator.js), but `parseInt("NaN") + ""` is `"NaN"` | caseWorkerId `"NaN"` passes the integer test and reaches the store query | only canonical decimal integers pass | not executed | JsValues.NaNPassesIntegerTest (with JsValues.PassesIntegerTest) | JsValues.IsIntegerText, with JsValues.IntegerTestCharacterisation, JsValues.ParseIntOfIntegerText and JsValues.NumberTextIsCanonical; the validators use it through OrderValidator.IntegerField |
| src/frontend/javascript/util/DataFetcher.js:75 | the age is computed as `timestamp - Date.now()`, which is never positive for an entry stamped in the past, so the 300-second validity the constructor documents never runs out; when the test fires, `splice(i, i)` removes `i` entries rather than the one found | an entry fetched an hour ago is still served | entries older than the validity are dropped (`splice(i, 1)`) and fetched again | not executed | DataFetcher.StaleEntryServedAsWritten (with DataFetcher.PastEntriesNeverExpire, DataFetcher.SpliceRemovesIndexCount and the class DataFetcher, which keeps the code as written) | DataFetcher.IntendedLookup, with DataFetcher.IntendedLookupRefetchesOld and DataFetcher.IntendedLookupServesYoung |
