# A verified model of the NETSEA → WooCommerce admin tool

The application is a browser admin tool. It reads a wholesale catalog from the NETSEA
supplier API (suppliers, cursor-paginated items, categories) and publishes chosen products
to a WooCommerce store. A published product is a parent product plus one variation per
NETSEA variant. Prices come from a tiered price rule with a profit floor. Names and
descriptions are rewritten by replace rules, and products containing an exclude word are
refused. NETSEA categories are mapped onto store categories. Store stock is kept in line
with NETSEA availability. Every step writes to an application log kept in browser storage.

This project models the application's core in Dafny, one module per source file:

- **Services:** the log service, the WooCommerce client (base URL, Basic header with
  `btoa`, `fetchWithRetry` and its exponential backoff), the product and variation
  endpoints, the older category and publishing service, the NETSEA/BASE client, stock
  synchronisation, and the generic error helpers.
- **Rules:** the price calculator and the content rules.
- **Hooks:** settings, categories, the WooCommerce product cache, and authentication.
- **Pages and components:** products, pricing, inventory, logs, users, the product list
  and detail, the inventory list, statistics and store product list, the settings editors,
  and the route guard.

How the model is built:

- **Effects are oracles and traces.** Each network call is an event in a trace, and its
  outcome is an oracle parameter: a function from attempt or item index to the reply or
  the rejection. Waits, progress callbacks and log writes are events too. A pipeline
  therefore returns its result together with everything it did, in order.
- **Loops become methods.** The source's loops are `method`s with `while` loops. Each is
  proved equal to a recursive function that specifies it, and the lemmas state what the source
  promises about that function: order, counts, waits, logs and error paths.
- **Stateful objects become classes.** Objects whose state the source updates (React
  providers and pages, the log store) are classes whose methods state their whole new state.
- **Values are exact.** Strings are `seq<char>`. Money is `int` yen, and multipliers are
  exact reals with `Math.ceil` / `Math.round` written out. JavaScript `Set`s are
  duplicate-free sequences in insertion order.

Where the code does something other than its names suggest, the model follows the code:

- **Price floor:** a cost that falls in no tier is marked up by 30 % with no profit floor
  (src/utils/priceCalculator.ts:9-12). Under the default tiers every non-negative cost
  falls in a tier, so there the floor always applies (`PriceCalculator.DefaultsKeepFloor`).
- **Stock sync:** `checkAndUpdateStock` passes `undefined` settings to the NETSEA lookup
  (src/services/inventorySync.ts:41), so as written it never updates stock (see Findings).
- **Pricing page load:** `loadProducts` calls `fetchBaseProducts()` without settings
  (src/pages/Pricing.tsx:28), so as written it never loads a product (see Findings).
- **Zero anchor price:** a variant priced against an anchor of 0 gets the text
  "Infinity", "-Infinity" or "NaN", as JavaScript's division by zero gives
  (src/services/api/woocommerce/products.ts:121).
- **Bulk publish guard:** `handleBulkPublish` looks selected ids up in the raw product
  list, whose records carry no `isExcluded` field, so its `!product.isExcluded` guard
  never fires (src/components/ProductList.tsx:101-107). The page's own controls only
  select products that are not excluded, and on such a selection the guard would change
  nothing (`ProductList.BulkTargetsAgree`).
- **Publish-all logging:** publish-all collects error lines and shows one closing message
  (src/pages/Products.tsx:154-187). It writes no per-product log line of its own.

## Model

| member | source | states |
|---|---|---|
| LogService.Inserted | src/services/logService.ts:9-22 | the new record goes first and the list keeps at most 1000 entries |
| LogService.InsertedLength | src/services/logService.ts:17-22 | a list within the bound stays within it, and grows by one until it holds 1000 |
| LogService.InsertedDropsOnlyOldest | src/services/logService.ts:20-22 | at most one old entry is dropped, and only the oldest |
| LogService.SameMillisecondSameId | src/services/logService.ts:13-22 | two entries written in the same millisecond get the same id, whatever the store holds, also when it is full and each write drops the oldest entry |
| LogService.LogStore.AddLogEntry | src/services/logService.ts:8-25 | the stored list becomes the new record followed by the old list, cut to 1000 |
| PriceCalculator.FindRange | src/utils/priceCalculator.ts:5-7 | the index of the first tier whose minimum is at most the cost and whose maximum (or unbounded) is at least it, or none when no tier matches |
| PriceCalculator.CalculatePrice | src/utils/priceCalculator.ts:3-24 | without a tier the price is the cost times 1.3 rounded up; with one it is the tier price rounded up, lifted to cost plus the minimum profit when the profit falls short |
| PriceCalculator.FirstTierWins | src/utils/priceCalculator.ts:5-7 | tiers after the first matching one never change the price |
| PriceCalculator.DefaultsKeepFloor | src/utils/priceCalculator.ts:3-24 | under the default settings every non-negative cost falls in a tier, so it is sold at least 500 above cost, and every cost up to 1000 exactly at cost + 500 |
| PriceCalculator.SamePrice | src/utils/priceCalculator.ts:3-24 | the price depends on the settings only through the tier found and the minimum profit |
| PriceCalculator.RoundTripKeepsTiers | src/utils/priceCalculator.ts:6 | a tier whose unbounded maximum became null in storage still matches the same costs |
| PriceCalculator.RoundTripKeepsPrice | src/utils/priceCalculator.ts:3-24 | prices are unchanged by saving and reloading the settings |
| WooClient.SiteBase | src/services/api/woocommerce/client.ts:6 | the site URL with its trailing slashes removed, never empty and never ending in a slash, or the default site |
| WooClient.ApiUrl | src/services/api/woocommerce/client.ts:5-8 | the REST path follows the slash-free site URL |
| WooClient.TrailingSlashesIgnored | src/services/api/woocommerce/client.ts:6 | any number of trailing slashes gives the same base |
| WooClient.CleanUrlKept | src/services/api/woocommerce/client.ts:6 | a URL without a trailing slash is kept as it is |
| WooClient.SlashesFallBack | src/services/api/woocommerce/client.ts:6 | an empty URL or one made of slashes falls back to the default site |
| WooClient.AuthHeader | src/services/api/woocommerce/client.ts:10-13 | the header starts with "Basic " exactly when every credential character fits in a byte; otherwise btoa's error |
| WooClient.AuthHeaderDecodes | src/services/api/woocommerce/client.ts:12 | decoding what follows "Basic " gives back the bytes of "key:secret" |
| WooClient.Caught | src/services/api/woocommerce/client.ts:60-74 | an attempt fails exactly when fetch rejects or the status is outside 2xx; a non-2xx becomes an APIError with that status and body, a non-Error rejection becomes Error('Unknown error') |
| WooClient.FailureDetailsSpec | src/services/api/woocommerce/client.ts:26-33 | the details start with the error message and carry the timeout note exactly for an AbortError |
| WooClient.FailureLog | src/services/api/woocommerce/client.ts:29-34 | the failure line is an error in the sync category with those details |
| WooClient.SuffixTimeout | src/services/api/woocommerce/client.ts:33 | the timeout note appears exactly when the request was aborted |
| WooClient.HandleRequestError | src/services/api/woocommerce/client.ts:19-39 | logs the failure line and rethrows exactly on the last attempt |
| WooClient.RecoveryLog | src/services/api/woocommerce/client.ts:76-83 | the recovery line is a success in the sync category |
| WooClient.FetchWithRetry | src/services/api/woocommerce/client.ts:41-99 | the result and the events of the loop are those of the retry run from attempt 1 |
| WooClient.RunSucceeds | src/services/api/woocommerce/client.ts:55-96 | the loop stops at the first successful attempt with its reply, after the calls, logs and backoffs of the failed ones |
| WooClient.RunFails | src/services/api/woocommerce/client.ts:55-96 | when every attempt fails all are made, each but the last waits, and the last error is thrown |
| WooClient.RunCallsBound | src/services/api/woocommerce/client.ts:55 | whatever the replies, at most one request per attempt allowed |
| WooClient.RunErrorsAreErrors | src/services/api/woocommerce/client.ts:87 | what the loop throws is an Error and what it returns is a 2xx response |
| WooClient.RunStartsWithCall | src/services/api/woocommerce/client.ts:55-63 | with at least one attempt allowed the first event is the request |
| WooClient.NoAttempts | src/services/api/woocommerce/client.ts:98 | with no attempt allowed nothing is requested and the fallback error is thrown |
| WooClient.FailedAttemptsWait | src/services/api/woocommerce/client.ts:91-94 | the doubling backoffs of failed attempts sum to retryDelay times a difference of powers of two |
| WooClient.SucceedsAt | src/services/api/woocommerce/client.ts:41-99 | success at attempt k: k calls, waits summing to retryDelay*(2^(k-1)-1), one error log per failure, a success log exactly when k > 1 |
| WooClient.AllFail | src/services/api/woocommerce/client.ts:41-99 | all attempts failing: maxRetries calls and error logs, no success log, waits summing to retryDelay*(2^(maxRetries-1)-1), last error thrown |
| LogService.LogStore.constructor | src/services/logService.ts:9 | a fresh store holds no `system_logs` entry |
| LogService.LogStore.Logs | src/services/logService.ts:9 | the stored list reads as empty when nothing is stored |
| AppSettings.DefaultTiersCover | src/hooks/useSettings.tsx:38-43 | the three default tiers start at 0, meet without gaps, end unbounded, and the minimum profit is 500 |
| AppSettings.MergeLaws | src/hooks/useSettings.tsx:76 | a spread update touches only the keys it supplies: the empty update changes nothing and applying an update twice equals applying it once |
| AppSettings.Load | src/hooks/useSettings.tsx:59-72 | without stored settings the defaults; otherwise the stored keys over the defaults, the stored site URL when it is non-empty and the default URL when it is missing or empty |
| AppSettings.JsonRoundTrip | src/hooks/useSettings.tsx:78 | what JSON storage makes of the settings: the same tiers, with no Infinity bound left |
| AppSettings.ReloadPersisted | src/hooks/useSettings.tsx:59-72 | loading what was saved gives the saved settings back up to JSON's treatment of Infinity and the site URL fallback |
| AppSettings.SettingsProvider.constructor | src/hooks/useSettings.tsx:59-95 | the state is what Load gives and it is written back to storage |
| AppSettings.SettingsProvider.UpdateSettings | src/hooks/useSettings.tsx:74-81 | the new state is the merge of the old one and the update, and storage holds it |
| AppSettings.SettingsProvider.SaveSettings | src/hooks/useSettings.tsx:83-90 | the state is unchanged and storage holds it |
| PriceSettings.AddPriceRange | src/components/settings/PriceSettings.tsx:8-19 | one tier is appended: [0, 5000] at 1.2 on an empty list, otherwise from the last maximum plus 1 to the last maximum plus 5000; after an `Infinity` maximum that is [Infinity, Infinity], after a reloaded `null` it is [1, 5000] |
| PriceSettings.AddAfterDefaultsInert | src/components/settings/PriceSettings.tsx:9-14 | on the default tiers the appended tier is [Infinity, Infinity] and no price changes |
| PriceSettings.AddKeepsContiguous | src/components/settings/PriceSettings.tsx:11 | appending after a finite last tier keeps the tiers contiguous |
| Prelude.RemoveIndex | src/components/settings/PriceSettings.tsx:21-24 | `removePriceRange`, and the same `filter` as `removeReplaceWord` and `removeExcludeWord` (ContentSettings.tsx lines 21-24 and 39-42): exactly the entry at the index goes, the others keep their order; an index outside the list changes nothing |
| PriceSettings.UpdatePriceRange | src/components/settings/PriceSettings.tsx:26-31 | only the tier at the index changes, by the one edit |
| PriceSettings.EditTouchesOneField | src/components/settings/PriceSettings.tsx:28 | an edit changes exactly the field it names |
| PriceSettings.ExamplePrice | src/components/settings/PriceSettings.tsx:126-127 | the example is the calculator's tier price at a cost of 1000 |
| PriceSettings.ExampleIgnoresProfitFloor | src/components/settings/PriceSettings.tsx:126-127 | under the default tiers the example shows 1300 for a cost of 1000, which the calculator sells at 1500 |
| ContentRules.MatchedWords | src/components/ProductList.tsx:33-36 | the matched words are the configured words, in order, that occur in the text ignoring case, and only those |
| ContentRules.ExcludedIffMatched | src/services/woocommerceApi.ts:140-148 | a text is excluded exactly when some word matches |
| ContentRules.AllMatchKeepsList | src/components/ProductList.tsx:34-36 | when every word matches, the matched list is the word list itself, duplicates included |
| ContentRules.EmptyWordExcludesAll | src/components/ProductList.tsx:35 | an empty exclude word excludes every text |
| ContentRules.RewriteAppend | src/services/woocommerceApi.ts:153-156 | rules apply one after another in list order |
| ContentRules.RewriteSkipsAbsent | src/services/woocommerceApi.ts:153-156 | a rule whose pattern does not occur changes nothing |
| ContentRules.EmptyRuleIsIdentity | src/services/woocommerceApi.ts:153-156 | the blank rule leaves every text unchanged |
| ContentRules.EmptyPatternInserts | src/services/woocommerceApi.ts:153-156 | for every text and replacement, an empty pattern yields one block of the replacement followed by character i for each i, then the replacement once more |
| ContentSettings.AddReplaceWord | src/components/settings/ContentSettings.tsx:8-12 | a blank rule is appended and the rest is unchanged |
| ContentSettings.UpdateReplaceWord | src/components/settings/ContentSettings.tsx:14-19 | one field of one rule changes and nothing else |
| ContentSettings.AddExcludeWord | src/components/settings/ContentSettings.tsx:26-30 | a blank word is appended |
| ContentSettings.UpdateExcludeWord | src/components/settings/ContentSettings.tsx:32-37 | one word changes and nothing else |
| ContentSettings.RemoveUndoesAdd | src/components/settings/ContentSettings.tsx:8-42 | removing the row just added gives the original list back |
| ContentSettings.BlankRuleHarmless | src/components/settings/ContentSettings.tsx:8-12 | the blank rule leaves every rewrite unchanged |
| ContentSettings.BlankWordExcludesEverything | src/components/settings/ContentSettings.tsx:26-30 | the blank exclude row excludes every product until it is filled in |
| Errors.MessageOr | src/services/inventorySync.ts:81 | an Error's own message, and the fallback text for any other thrown value |
| Errors.UndefinedRead | src/services/netseaApi.ts:93 | reading a property of undefined throws a TypeError |
| Base64.ValueOfCharOf | src/services/api/woocommerce/client.ts:12 | every alphabet character decodes to the value it encodes |
| Base64.Encode | src/services/api/woocommerce/client.ts:12 | four characters per started group of three bytes |
| Base64.DecodeEncode | src/services/api/woocommerce/client.ts:12 | decoding inverts encoding, as section 4 of RFC 4648 requires |
| Base64.Latin1 | src/services/api/woocommerce/client.ts:12 | the bytes of a string exist exactly when every character is at most U+00FF, one byte per character |
| Base64.BtoaRoundTrip | src/services/api/woocommerce/client.ts:12 | what btoa produced decodes back to the characters it was given |
| WooPayload.VariantPriceText | src/services/api/woocommerce/products.ts:121-123 | the variant price scaled by the listing price over the first variant's price, rounded up and printed; with a zero anchor JavaScript's Infinity, -Infinity or NaN |
| WooPayload.Variations | src/services/api/woocommerce/products.ts:120-130 | one variation per variant in order, with SKU product-id "-" item-id, the set quantity when in stock and 0 otherwise, managed stock, the label as description, and the scaled price |
| WooPayload.FirstVariationAtListingPrice | src/services/api/woocommerce/products.ts:121 | the first variant is listed at the listing price itself |
| WooPayload.VariantsScaleListingPrice | src/services/api/woocommerce/products.ts:121 | a variant priced at t times the first variant's price is listed at t times the listing price |
| WooPayload.ShortDescription | src/services/api/woocommerce/products.ts:137 | the description up to 300 characters, cut to 300 and followed by "..." when longer |
| WooPayload.KindAttributes | src/services/api/woocommerce/products.ts:146-151 | one visible variation attribute "種類" listing every variant label in order |
| WooPayload.BuildProductData | src/services/api/woocommerce/products.ts:132-160 | the payload: the given name, variable type, published, the description and its short form, the categories, the non-empty images, the variations, the product id as SKU and as the one meta entry |
| Catalog.ImageList | src/components/ProductDetail.tsx:21-27 | the non-empty image URLs of the five slots, and every non-empty slot is among them |
| Catalog.FindMeta | src/services/inventorySync.ts:34 | the value of the first meta entry with the key, and none exactly when no entry has it |
| ProductDetail.ArrowsWrapAround | src/components/ProductDetail.tsx:44-54 | both arrows stay in range, undo each other, and step by one modulo the image count |
| ProductDetail.ImagesKeepSlots | src/components/ProductDetail.tsx:21-27 | all five filled slots are all shown; only the first filled gives that one image and no arrows |
| ProductDetail.ArrowsShowImages | src/components/ProductDetail.tsx:37-54 | from a shown image both arrows lead to a shown image |
| InventorySync.Site | src/services/inventorySync.ts:16-18 | the stored site URL without trailing slashes, or the default site when none is stored |
| InventorySync.Quantity | src/services/inventorySync.ts:59 | the new stock is 1 exactly when the product has stock and 0 exactly when it has none |
| InventorySync.FromProduct | src/services/inventorySync.ts:34-66 | success needs a NETSEA id, a non-empty lookup and a 2xx update, and reports whether the first NETSEA product has stock |
| InventorySync.Try | src/services/inventorySync.ts:15-78 | success needs the store product and its NETSEA id to have been fetched |
| InventorySync.CheckAndUpdateStock | src/services/inventorySync.ts:14-92 | the run ends with one stock-category log, a success exactly when the result is; on success the stock reflects the first NETSEA product, the message names the new stock and the log names the product; on failure the error log carries the error's message |
| InventorySync.CheckLogsOnce | src/services/inventorySync.ts:68-88 | a check writes the lookup's logs and then exactly one log of its own |
| InventorySync.MissingIdStopsEarly | src/services/inventorySync.ts:34-38 | a store product without a NETSEA id stops after the one read with "NETSEA商品IDが見つかりません" |
| InventorySync.EmptyLookupStopsBeforeUpdate | src/services/inventorySync.ts:42-46 | an empty NETSEA answer stops before the update with "NETSEA商品が見つかりません" |
| InventorySync.UpdateFollowsVariants | src/services/inventorySync.ts:49-62 | the update sent is a PUT with stock management on and stock 1 exactly when some variant is not sold out, 0 exactly when all are |
| InventorySync.AsWrittenLookup | src/services/inventorySync.ts:41 | the lookup as written throws a TypeError reading the API key of undefined settings |
| InventorySync.AsWrittenNeverUpdates | src/services/inventorySync.ts:41 | as written, every check fails, makes at most one request and logs only its failure |
| InventorySync.Recovery | src/services/inventorySync.ts:139-148 | the outer catch logs the error and waits 300000 ms |
| InventorySync.StartAutoSync | src/services/inventorySync.ts:95-138 | the events are those of one pass over the products in batches of 10, and nothing at all when auto sync is off |
| InventorySync.BatchesCount | src/services/inventorySync.ts:111 | the number of batches is the product count divided by 10, rounded up |
| InventorySync.PassWaits | src/services/inventorySync.ts:111-138 | a pass waits 2000 ms after each successful check, 5000 ms after each batch and the interval at the end |
| InventorySync.PassLogs | src/services/inventorySync.ts:104-136 | a pass logs the start line, then each product's logs in order, then the done line |
| InventorySync.AsWrittenPassWaits | src/services/inventorySync.ts:114-128 | as written no check succeeds, so a pass waits only the batch pauses and the interval |
| InventorySync.CheckQuiet | src/services/inventorySync.ts:14-92 | a check itself never waits beyond what its lookup waits |
| NetseaApi.Received | src/services/netseaApi.ts:119-124 | a rejected fetch keeps its error; a status outside 2xx becomes "NETSEA API エラー (status): body"; only a 2xx JSON reply passes, unchanged |
| NetseaApi.FailureLog | src/services/netseaApi.ts:137-143 | the catch logs an error whose details are the error's message or "不明なエラー" |
| NetseaApi.FetchSuppliers | src/services/netseaApi.ts:47-86 | without a key it throws before any request; with one it makes one request and one log, a success exactly when it returns, and returns exactly the 2xx payload; a 2xx reply carrying a supplier list is returned as that list |
| NetseaApi.ItemsFields | src/services/netseaApi.ts:98-106 | supplier_ids is sent exactly when the supplier id is truthy and next_direct_item_id exactly when the cursor is truthy, in that order |
| NetseaApi.BuildItemsForm | src/services/netseaApi.ts:98-106 | the appended form fields are those fields |
| NetseaApi.FetchSupplierProducts | src/services/netseaApi.ts:88-146 | undefined settings throw a TypeError and an empty key its message, both before any request; otherwise one request and one log, a success exactly when it returns the 2xx page's products and cursor |
| NetseaApi.ItemsFailureRethrown | src/services/netseaApi.ts:119-145 | a failed request is logged once and its error rethrown unchanged |
| NetseaApi.ItemsSuccessProjects | src/services/netseaApi.ts:124-136 | a page is logged with its item count and returned with only its products and cursor |
| NetseaApi.Project | src/services/netseaApi.ts:177-180 | each category keeps its id and name, in order |
| NetseaApi.FetchCategories | src/services/netseaApi.ts:148-191 | without a key it throws before any request; success returns the projected 2xx payload; at most one request |
| NetseaApi.CategoriesInOrder | src/services/netseaApi.ts:177-180 | every category of the reply appears at its position with its id and name |
| NetseaApi.FetchBaseProducts | src/services/netseaApi.ts:193-232 | `undefined` settings throw a TypeError and a missing BASE key its message, both before any request; otherwise one request and one log, a success exactly when it returns the 2xx payload |
| NetseaApi.BaseListReturned | src/services/netseaApi.ts:200-224 | with a key, a 2xx reply holding a list is returned as that list after one request and one success log with its count |
| WooCommerceApi.GetConfig | src/services/woocommerceApi.ts:19-29 | a missing key or secret throws "WooCommerce APIキーとシークレットが必要です"; otherwise the API URL is the site URL without trailing slashes plus the REST path, and btoa's error for credentials outside Latin-1 |
| WooCommerceApi.SameHeaderAsClient | src/services/woocommerceApi.ts:26 | the header is the same as the REST client's |
| WooCommerceApi.ApiUrlWithoutDefault | src/services/woocommerceApi.ts:24-25 | only trailing slashes are removed and no default site is used, so a URL of slashes leaves just the REST path where the client would use the default site |
| WooCommerceApi.DropRun | src/services/woocommerceApi.ts:46 | one match of the non-alphanumeric run removes the longest prefix of other characters |
| WooCommerceApi.Dashed | src/services/woocommerceApi.ts:46 | every run of other characters becomes one dash: only a-z, 0-9 and single dashes remain, and letters or digits survive exactly when there were some |
| WooCommerceApi.TrimDashesShape | src/services/woocommerceApi.ts:47 | dropping a leading and a trailing dash leaves no dash at either end |
| WooCommerceApi.SlugShape | src/services/woocommerceApi.ts:44-47 | a slug has only a-z, 0-9 and single inner dashes |
| WooCommerceApi.DashedFixed | src/services/woocommerceApi.ts:46 | a text already in slug form is left alone by the replacement |
| WooCommerceApi.SlugIdempotent | src/services/woocommerceApi.ts:44-47 | slugging a slug gives the same slug |
| WooCommerceApi.SlugEmptyIff | src/services/woocommerceApi.ts:44-47 | the slug is empty exactly when the name has no ASCII letter or digit |
| WooCommerceApi.CategoryBody | src/services/woocommerceApi.ts:49-53 | the body has the name and its slug, and a parent exactly when the parent id is truthy |
| WooCommerceApi.CreatedId | src/services/woocommerceApi.ts:65-70 | a 2xx JSON reply gives the created id, if it has one; anything else is an error |
| WooCommerceApi.CreatedIdRefused | src/services/woocommerceApi.ts:65-68 | a refusal reports the reply's message when it has one and the status text otherwise |
| WooCommerceApi.CreateCategory | src/services/woocommerceApi.ts:31-89 | missing settings or keys throw before any request; otherwise one POST and one log, a success exactly when the category was created |
| WooCommerceApi.PathNames | src/services/woocommerceApi.ts:95 | the path split at '>' with each part trimmed |
| WooCommerceApi.CreateCategoryHierarchy | src/services/woocommerceApi.ts:91-109 | the loop's result and events are those of creating the levels in order, each under the previous one |
| WooCommerceApi.HierarchyCreatesChain | src/services/woocommerceApi.ts:95-104 | when every level is created, one request per level, level k under level k-1, and the last level's id is returned |
| WooCommerceApi.LevelsStop | src/services/woocommerceApi.ts:99-108 | the first level that fails ends the walk with its error and no later level is requested |
| WooCommerceApi.FetchCategories | src/services/woocommerceApi.ts:111-130 | keys are checked before the one request; failures are rethrown as "WooCommerceカテゴリの取得に失敗: ..." with the status text or the message; success returns the 2xx payload |
| WooCommerceApi.Wrap | src/services/woocommerceApi.ts:234-236 | every failure of the publish is rethrown as an Error starting "WooCommerce APIエラー: " |
| WooCommerceApi.CategoryIds | src/services/woocommerceApi.ts:176 | the chosen category when its id is truthy, otherwise category 1 |
| WooCommerceApi.RewriteName | src/services/woocommerceApi.ts:151-156 | the loop's name is the replace rules applied in order |
| WooCommerceApi.PublishToWooCommerce | src/services/woocommerceApi.ts:132-237 | the method's result and events are those of the publish pipeline |
| WooCommerceApi.PublishNeedsKeys | src/services/woocommerceApi.ts:138 | without keys the publish throws before any request |
| WooCommerceApi.PublishRequestsIff | src/services/woocommerceApi.ts:138-209 | a request is made exactly when the keys are set and no exclude word matches, and the first is the product POST |
| WooCommerceApi.PublishRejectsExcluded | src/services/woocommerceApi.ts:140-149 | a matching exclude word throws, listing the matched words joined with "、", before any request |
| WooCommerceApi.PublishDataFields | src/services/woocommerceApi.ts:151-198 | the payload carries the rewritten name, the description or "", the chosen or default category and the scaled variations |
| WooCommerceApi.VariationsIgnoreStatus | src/services/woocommerceApi.ts:219-232 | every variation is posted in order with a 1000 ms pause each, whatever status the answers have |
| WooCommerceApi.VariationsStop | src/services/woocommerceApi.ts:219-232 | a rejected variation request ends the loop with its error |
| WooCommerceApi.PublishErrorsWrapped | src/services/woocommerceApi.ts:200-236 | every error after the checks is an Error starting "WooCommerce APIエラー: " |
| WooCommerceApi.MissingIdPostsToUndefined | src/services/woocommerceApi.ts:216-220 | a created product without an id gets its variations posted to ".../products/undefined/variations" |
| WooCommerceApi.LevelsChain | src/services/woocommerceApi.ts:91-109 | when every level is created with a non-zero id, each level is requested under the one before it and the id of the last level is returned |
| Categories.FindMapping | src/hooks/useCategories.tsx:98 | the first mapping in the list with the NETSEA id, and none exactly when no mapping has that id |
| Categories.SyncLoop | src/hooks/useCategories.tsx:85-134 | the loop's new mappings and events are those of the per-category steps in order |
| Categories.CategoriesProvider.constructor | src/hooks/useCategories.tsx:27-31 | empty lists, no mapping, not loading, no error |
| Categories.CategoriesProvider.SyncCategories | src/hooks/useCategories.tsx:64-148 | the events, the error and the new state are those of the sync: mappings replaced and stored only on success, the fetched lists kept, loading over |
| Categories.SyncNeedsKeys | src/hooks/useCategories.tsx:71-73 | without both keys the sync fails with "WooCommerce設定が不完全です" before any request |
| Categories.StepReuses | src/hooks/useCategories.tsx:98-102 | a category already mapped keeps its mapping and makes no request |
| Categories.StepCreates | src/hooks/useCategories.tsx:104-133 | an unmapped category is created at top level; on success its mapping is pushed and the step waits 500 ms, on failure nothing is pushed and the failure is logged |
| Categories.SyncFromInOrder | src/hooks/useCategories.tsx:88-114 | when no creation fails, one mapping per category in order, existing mappings reused |
| Categories.SyncFromReusesAll | src/hooks/useCategories.tsx:98-102 | when every category is mapped no request is made |
| Categories.RerunCreatesNothing | src/hooks/useCategories.tsx:98-139 | a second sync after a fully successful one creates nothing |
| Categories.SyncFromCalls | src/hooks/useCategories.tsx:88-134 | the loop makes at most one request per category |
| Categories.LoopProgressBounds | src/hooks/useCategories.tsx:90-91 | each loop progress value lies between 30 and 99 |
| Categories.LoopProgressMonotone | src/hooks/useCategories.tsx:90-91 | loop progress never decreases |
| Categories.StepProgress | src/hooks/useCategories.tsx:90-95 | each step reports exactly its own progress value |
| Categories.LoopProgressOrdered | src/hooks/useCategories.tsx:86-95 | the loop's progress values lie in 30..99 and never decrease |
| Categories.SyncProgress | src/hooks/useCategories.tsx:76-136 | a successful sync reports 0, 20, one value per category in 30..99, then 100, never decreasing |
| Categories.FetchFailureStops | src/hooks/useCategories.tsx:76-83 | a failed fetch of either list fails the sync after at most two requests |
| Categories.SyncCalls | src/hooks/useCategories.tsx:76-134 | a successful sync makes at most two requests plus one per NETSEA category |
| Categories.NameById | src/hooks/useCategories.tsx:150-153 | the name of the first category whose id prints as the given id |
| Categories.UnknownName | src/hooks/useCategories.tsx:150-153 | an id no category has gives "Unknown Category" |
| Categories.LoopProgressValues | src/hooks/useCategories.tsx:86-91 | when no step logs or waits, the loop reports `30 + floor(i / n * 70)` for each category `i` in turn |
| ErrorHandling.HandleApiError | src/utils/errorHandling.ts:14-34 | one error log "context: message" with the APIError's details, the stack of another Error, or "" for a non-Error; then a bare APIError carrying only the message, or "An unknown error occurred" |
| ErrorHandling.HandleDropsStatus | src/utils/errorHandling.ts:33 | the thrown error loses the status code and the details; only the message survives |
| ErrorHandling.RetryLog | src/utils/errorHandling.ts:52-57 | the retry line is info in the sync category with the error's message or "Unknown error" |
| ErrorHandling.RetryOperation | src/utils/errorHandling.ts:36-64 | the loop's result and events are those of the retry run from attempt 0 |
| ErrorHandling.RetryUnroll | src/utils/errorHandling.ts:44-61 | failed attempts before k contribute their call, info line and delay, and the run goes on from k |
| ErrorHandling.RetriesCount | src/utils/errorHandling.ts:44-59 | each failed attempt before the last runs the operation once and writes one info line |
| ErrorHandling.RetriesWait | src/utils/errorHandling.ts:50-58 | the delays of failed attempts lo..hi-1 sum to initialDelay*(2^hi - 2^lo) |
| ErrorHandling.SucceedsTrace | src/utils/errorHandling.ts:44-46 | the first success returns its value right after the retries before it |
| ErrorHandling.RetrySucceedsAt | src/utils/errorHandling.ts:36-64 | success at attempt k: k+1 runs, k info lines, waits summing to initialDelay*(2^k - 1) |
| ErrorHandling.LastAttemptFails | src/utils/errorHandling.ts:50-63 | a failure of the last attempt neither logs a retry nor waits, and goes to handleAPIError |
| ErrorHandling.ExhaustedTrace | src/utils/errorHandling.ts:44-63 | when all attempts fail the retries are followed by the last run and the handler's log |
| ErrorHandling.RetryExhausted | src/utils/errorHandling.ts:36-64 | all attempts failing: maxRetries runs, maxRetries-1 info lines then the handler's error line, and a bare APIError with the last error's message |
| ErrorHandling.RetryExhaustedWaits | src/utils/errorHandling.ts:50-58 | all attempts failing waits initialDelay*(2^(maxRetries-1) - 1), none after the last |
| ErrorHandling.RetryNoAttempts | src/utils/errorHandling.ts:44-63 | with no attempt allowed the operation never runs and the unknown-error APIError is thrown after one log |
| ErrorHandling.RetryBounded | src/utils/errorHandling.ts:44 | the operation runs at most maxRetries times |
| ErrorHandling.ValidateResponse | src/utils/errorHandling.ts:66-73 | no error exactly for a 2xx response; otherwise an APIError "context failed with status N" with that status |
| Variations.AsError | src/services/api/woocommerce/variations.ts:95 | what the catch passes on is an Error, the caught one when it is an Error |
| Variations.VariationErrorLog | src/services/api/woocommerce/variations.ts:32-37 | the failure line is an error in the sync category |
| Variations.HandleVariationError | src/services/api/woocommerce/variations.ts:24-42 | logs the failure and rethrows exactly when the error is not a retryable APIError or the retries are used up |
| Variations.ReadOnce | src/services/api/woocommerce/variations.ts:53-80 | every error one read produces is an Error |
| Variations.Summaries | src/services/api/woocommerce/variations.ts:82-92 | one summary per variation in order, with a missing SKU as "" and a missing stock as 0 |
| Variations.FetchNeverRejects | src/services/api/woocommerce/variations.ts:93-101 | fetchProductVariations never throws: a final error becomes [] |
| Variations.FetchCallsBound | src/services/api/woocommerce/variations.ts:44-102 | at most two requests per remaining level |
| Variations.FetchWaitsFirst | src/services/api/woocommerce/variations.ts:51 | level r starts by waiting 3000*r ms |
| Variations.FetchMapsOnSuccess | src/services/api/woocommerce/variations.ts:69-92 | a level that reads an array returns it mapped, in order |
| Variations.FetchStopsOnFinalError | src/services/api/woocommerce/variations.ts:93-100 | an error that is not retryable, or one at the last level, ends the read with [] after its log |
| Variations.FetchRetries | src/services/api/woocommerce/variations.ts:94-96 | a retryable error below the limit goes on to the next level |
| Variations.NonArrayIsRetried | src/services/api/woocommerce/variations.ts:71-73 | a 2xx body that is not an array becomes an APIError with the response status, which is retried |
| Variations.NotFoundGivesEmpty | src/services/api/woocommerce/variations.ts:29-67 | two 404 replies at a level end the read with [] after two requests |
| Variations.CreateFailedLog | src/services/api/woocommerce/variations.ts:141-146 | the failure line is an error carrying the message or "不明なエラー" |
| Variations.PostRunsAt | src/services/api/woocommerce/variations.ts:115-130 | variation k is posted to `/products/{id}/variations` through the retry loop with 3 attempts and a 2000 ms base delay |
| Variations.CreateProductVariations | src/services/api/woocommerce/variations.ts:104-151 | the loop's result and events are those of posting the variations one at a time |
| Variations.CreateOkIff | src/services/api/woocommerce/variations.ts:110-150 | creation succeeds exactly when every post succeeds |
| Variations.CreateStopsAtFailure | src/services/api/woocommerce/variations.ts:140-148 | nothing after the first failed post matters |
| Variations.CreateRethrows | src/services/api/woocommerce/variations.ts:140-148 | the first failure is logged last and rethrown |
| Variations.CreateWaitsAfterSuccess | src/services/api/woocommerce/variations.ts:132-139 | each created variation is followed by its success log and a 3000 ms wait |
| WooProducts.ToProductFields | src/services/api/woocommerce/products.ts:48-62 | each store product becomes a record with every field filled: `""`, `0` or `[]` where the store omits one, the price parsed from `"0"` when empty, the NETSEA id taken from the `_netsea_product_id` metadata |
| WooProducts.EnrichCases | src/services/api/woocommerce/products.ts:42-47 | variations are read only for a product that lists some; one that lists none gets an empty list and causes no request or log |
| WooProducts.ReadsNeverReject | src/services/api/woocommerce/products.ts:45 | the variation read of every product resolves, so one product's variation failure never fails the batch |
| WooProducts.MapBatch | src/services/api/woocommerce/products.ts:42-66 | the batch's products are the enriched entries of the batch, in index order, with their events in that order |
| WooProducts.SyncBatch | src/services/api/woocommerce/products.ts:33-70 | one batch writes its progress line, yields its products, then pauses unless it was the last batch |
| WooProducts.SyncBatches | src/services/api/woocommerce/products.ts:32-71 | the batch loop yields exactly the products and events of the batch-by-batch function `BatchProducts` / `BatchEvents` |
| WooProducts.FetchWooCommerceProducts | src/services/api/woocommerce/products.ts:11-85 | the method's result and trace equal `FetchProducts`: list read with retry, errors rethrown as their message or the fixed fallback, batches, then the completion log |
| WooProducts.BatchesInOrder | src/services/api/woocommerce/products.ts:32-66 | the batches together yield every product once, in index order |
| WooProducts.SyncKeepsOrder | src/services/api/woocommerce/products.ts:30-80 | the synced list is the input list enriched one to one, in the same order |
| WooProducts.BatchCountCeil | src/services/api/woocommerce/products.ts:8-32 | the loop runs `ceil(n / 5)` batches |
| WooProducts.ScheduleWaits | src/services/api/woocommerce/products.ts:68-70 | the loop waits 2000 ms between batches and never after the last |
| WooProducts.QuietTrace | src/services/api/woocommerce/products.ts:32-71 | with no variation reads, the loop makes no request, logs one progress line per batch (the `b`-th reports `min(5(b+1), n)/n`) and waits 2000 ms between batches |
| WooProducts.SyncWithoutVariations | src/services/api/woocommerce/products.ts:11-85 | when no product lists variations, the events of the sync are exactly the progress lines and the pauses |
| WooProducts.ExcludedEitherIff | src/services/api/woocommerce/products.ts:99-102 | the exclusion test holds if and only if some exclude word occurs, ignoring case, in the name or in the description |
| WooProducts.FinalDescription | src/services/api/woocommerce/products.ts:109-118 | the description sent is the rewritten one, followed by a blank line and the additional text exactly when that text is non-empty |
| WooProducts.Wrap | src/services/api/woocommerce/products.ts:191-196 | a rethrown error is a plain `Error` whose message is "WooCommerce APIエラー: " followed by the caught message, or by the unknown-error text for a non-`Error` |
| WooProducts.ParentId | src/services/api/woocommerce/products.ts:177-180 | the create reply yields an id if and only if it is JSON with a truthy `id`, and then that id |
| WooProducts.RewriteBoth | src/services/api/woocommerce/products.ts:111-114 | the rule loop leaves the name and the description each rewritten by every replace rule in order |
| WooProducts.PublishToWooCommerce | src/services/api/woocommerce/products.ts:87-197 | the method's result and trace equal `Publish`: header, key check, exclusion check, post, parent id, variations, success log |
| WooProducts.PublishNeedsKeys | src/services/api/woocommerce/products.ts:95-97 | a missing key or secret fails with the fixed message before any request |
| WooProducts.PublishRejectsExcluded | src/services/api/woocommerce/products.ts:99-106 | an exclude word in the name or the description rejects the product before any request |
| WooProducts.PublishDataFields | src/services/api/woocommerce/products.ts:108-160 | the product sent has the rewritten name, the final description, category 1 and one variation payload per variant |
| WooProducts.PublishPostsPayload | src/services/api/woocommerce/products.ts:162-175 | once the checks pass, the first request is the POST of that product's data to `/products` |
| WooProducts.PublishNeedsParentId | src/services/api/woocommerce/products.ts:177-182 | a create reply without a truthy id is the wrapped "product creation failed" error, and no variation is posted |
| WooProducts.PostErrorsWrapped | src/services/api/woocommerce/products.ts:162-196 | every error after the checks is some caught error wrapped by the outer catch |
| WooProducts.PublishErrorsPrefixed | src/services/api/woocommerce/products.ts:191-196 | once the checks pass, every error message starts with "WooCommerce APIエラー: " |
| WooProducts.HeaderBeforeKeyCheck | src/services/api/woocommerce/products.ts:92-97 | the header is built first, so credentials `btoa` refuses fail with its error even when a key is missing |
| ProductList.HighlightReplacedWords | src/components/ProductList.tsx:24-31 | the rule loop leaves the name with every match of each rule, ignoring case, replaced by the marked-up replacement, rules applied in order |
| ProductList.MarkupHasSpan | src/components/ProductList.tsx:28 | every replacement inserts a `span` element |
| ProductList.LaterRulesSeeMarkup | src/components/ProductList.tsx:26-29 | a later rule also rewrites the markup an earlier rule inserted (a rule for "span" rewrites the inserted tag) |
| ProductList.Process | src/components/ProductList.tsx:33-81 | a product is excluded if and only if some exclude word occurs in its name, ignoring case, if and only if the list of matched words is non-empty; the name is highlighted by the replace rules |
| ProductList.ProcessAll | src/components/ProductList.tsx:66-82 | one processed entry per product, in the same order |
| ProductList.FilterProducts | src/components/ProductList.tsx:84-90 | a product is listed if and only if the search term is in its name, ignoring case, and, when the stock filter is on, some variant is not sold out |
| ProductList.EmptyFilterShowsAll | src/components/ProductList.tsx:84-90 | with an empty term and the stock filter off, every product is listed, in order |
| ProductList.Available | src/components/ProductList.tsx:93 | the selectable products are exactly the listed ones that are neither excluded nor already published |
| ProductList.SelectAllResult | src/components/ProductList.tsx:92-99 | select-all clears the selection when its size equals the number of selectable products, and otherwise selects exactly their ids, each once |
| ProductList.SelectAllComparesSizesOnly | src/components/ProductList.tsx:94-95 | only the sizes are compared: a selection of one unrelated id is cleared when one product is selectable |
| ProductList.FindProduct | src/components/ProductList.tsx:103 | `find` returns a product with the id if and only if the list has one, and then the first such product in list order |
| ProductList.BulkTargetsAsWritten | src/components/ProductList.tsx:101-107 | the bulk publish as written toggles every selected id found in the raw product list, whose records carry no exclusion flag |
| ProductList.BulkTargets | src/components/ProductList.tsx:101-107 | the guarded targets: only selected products found in the list whose names contain no exclude word |
| ProductList.BulkPublishToggleExcluded | src/components/ProductList.tsx:104 | the guard never fires: a selected product named "Bag" with the exclude word "bag" is toggled as written, where the guarded targets skip it |
| ProductList.BulkTargetsAgree | src/components/ProductList.tsx:92-107 | on a selection naming no excluded product, which is what select-all and the per-row button produce, the code as written toggles exactly the guarded targets |
| ProductList.BulkTargetsNoWords | src/components/ProductList.tsx:101-107 | without exclude words the two versions agree |
| ProductList.MarginPrice | src/components/ProductList.tsx:121-123 | the margin price is the least integer not below `price * (100 + margin) / 100`, and never below the price for non-negative inputs |
| ProductList.MarginExact | src/components/ProductList.tsx:121-123 | when the marked-up amount is whole, the price rises by exactly the margin percentage; at the default 20 % every price divisible by 5 gains exactly a fifth |
| ProductList.ProductListView.constructor | src/components/ProductList.tsx:62-63 | the selection and the monitored set start empty |
| ProductList.ProductListView.SelectAll | src/components/ProductList.tsx:92-99 | select-all sets the selection as `SelectAllResult` says and leaves the monitored set alone |
| ProductList.ProductListView.ToggleSelected | src/components/ProductList.tsx:305-313 | the publish button flips one id in or out of the selection, which keeps no repeats |
| ProductList.ProductListView.BulkPublish | src/components/ProductList.tsx:101-109 | the products toggled are every selected id found in the raw list, in selection order (`BulkTargetsAsWritten`), and the selection is cleared |
| ProductList.ProductListView.ToggleMonitoring | src/components/ProductList.tsx:111-119 | monitoring flips one id in or out of the monitored set, which keeps no repeats |
| ProductsPage.FetchAllSupplierProducts | src/pages/Products.tsx:105-116 | the `do … while` loop returns exactly what the page-by-page function `FetchFrom` returns: pages concatenated in order until a page without a cursor, or the first error |
| ProductsPage.FetchAllStartsAtFirstPage | src/pages/Products.tsx:105-110 | without a NETSEA key nothing is requested; with one, the first request is for the supplier with no cursor |
| ProductsPage.FetchFollowsCursor | src/pages/Products.tsx:109-113 | a page with a truthy cursor is followed by a request for that cursor |
| ProductsPage.FetchAllCollects | src/pages/Products.tsx:106-115 | a successful read starts with the first page's products, and every product returned comes from one of the pages fetched |
| ProductsPage.PrefixCountsAsPublished | src/pages/Products.tsx:118-124 | a variation sku that merely starts with the id counts as published, so id "12" is taken as published by sku "123-…" |
| ProductsPage.PublishedGrows | src/pages/Products.tsx:118-124 | nothing is published in an empty store, and adding store products never unpublishes an id |
| ProductsPage.Unpublished | src/pages/Products.tsx:145-147 | publish-all attempts exactly the catalog products that are not already published |
| ProductsPage.FindCategoryMapping | src/pages/Products.tsx:170-172 | the mapping used is the first whose NETSEA id, as text, equals the product's category, and none is found only when no mapping matches |
| ProductsPage.CategoryForFirst | src/pages/Products.tsx:170-172 | the store category is that of the first matching mapping |
| ProductsPage.PricedFromFirstVariant | src/pages/Products.tsx:166-167 | each product is priced at `CalculatePrice(BasePrice(p))`, where the base price is the first variant's price, or 0 without variants, which the default settings list at 500 |
| ProductsPage.AllFromCounts | src/pages/Products.tsx:154-181 | publish-all's counter rises once per successful publish and it records one error line per failed one |
| ProductsPage.PublishEach | src/pages/Products.tsx:157-181 | the loop's counter, error lines and events equal the per-product function `AllFrom` |
| ProductsPage.RunPublishAll | src/pages/Products.tsx:126-206 | the handler's message, reload and events equal `PublishAll` |
| ProductsPage.PublishAfterRead | src/pages/Products.tsx:144-192 | after the catalog read the handler follows `AfterRead`: read error, nothing unpublished, publish loop, closing message, reload |
| ProductsPage.PublishAllNeedsSupplier | src/pages/Products.tsx:127-130 | without a selected supplier only the "select a supplier" message is set |
| ProductsPage.NothingUnpublished | src/pages/Products.tsx:149-152 | when every product of the supplier is already published, the message says so and nothing is reloaded |
| ProductsPage.PublishAllMessage | src/pages/Products.tsx:183-187 | successes and errors add up to the number attempted; the message lists the error lines joined by line breaks when any attempt failed, and the count otherwise |
| ProductsPage.SplitCount | src/pages/Products.tsx:157-181 | every attempt either succeeds or fails |
| ProductsPage.FindProduct | src/pages/Products.tsx:227 | `find` returns the first product in the list with the id, and none exactly when no product has it |
| ProductsPage.PickSkips | src/pages/Products.tsx:226-233 | an id not in the loaded list is skipped without counting; an already-published product is counted without a request |
| ProductsPage.PickProgress | src/pages/Products.tsx:226-274 | the selected-publish counter ends at the number of picked ids that are loaded, whether their publish failed or not |
| ProductsPage.PickErrorsOnlyFromFailures | src/pages/Products.tsx:267-269 | only a failed publish adds an error line |
| ProductsPage.PublishPicked | src/pages/Products.tsx:226-274 | the loop's counter, error lines and events equal the per-id function `PickFrom` |
| ProductsPage.ProductsPageState.constructor | src/pages/Products.tsx:26-48 | the page starts with no products, no cursor, no error, nothing picked and the store as the only platform |
| ProductsPage.ProductsPageState.TogglePublish | src/pages/Products.tsx:295-305 | toggling flips one id in or out of the picked set, which keeps no repeats |
| ProductsPage.ProductsPageState.PublishAllSupplierProducts | src/pages/Products.tsx:126-206 | publish-all sets the message and, after a reload, the products and cursor as `PublishAll` determines, and clears the busy flags when it ran its `try` |
| ProductsPage.ProductsPageState.HandlePublish | src/pages/Products.tsx:208-293 | publish-selected sets the message as `PublishSelected` determines and clears the busy flags when it ran its `try`; the products, cursor, `hasMore`, supplier, picked set and platforms stay as they were |
| Pricing.Filtered | src/pages/Pricing.tsx:46-50 | a product is listed if and only if the term is in its title or its product id, ignoring case |
| Pricing.CurrentPrice | src/pages/Pricing.tsx:57-79 | the price in effect is the adjustment when there is a non-zero one, and the product's price otherwise |
| Pricing.ShownSortedMatches | src/pages/Pricing.tsx:46-65 | the list shown is a permutation of the matching products, ordered by the chosen numeric key in the chosen direction |
| Pricing.ShownByTitle | src/pages/Pricing.tsx:54-55 | sorted by title, neighbours are in the comparator's order for the chosen direction |
| Pricing.NextSort | src/pages/Pricing.tsx:37-44 | sorting by the current field flips the direction; a new field starts ascending |
| Pricing.HandleSortTwice | src/pages/Pricing.tsx:37-44 | clicking the same column twice restores the sort; clicking a new column twice sorts it descending |
| Pricing.PriceChange | src/pages/Pricing.tsx:67-72 | an edit sets that product's adjustment and keeps every other |
| Pricing.FindBase | src/pages/Pricing.tsx:77 | `find` returns a product with the id exactly when one exists, and then the first such product in list order |
| Pricing.BulkPriceAdjustment | src/pages/Pricing.tsx:74-83 | the loop over the selection yields the specified adjustments |
| Pricing.AdjustedSpec | src/pages/Pricing.tsx:74-83 | every selected product that exists gets its price in effect scaled by the percentage and rounded; all other adjustments are kept and no other key appears |
| Pricing.RoundedMonotone | src/pages/Pricing.tsx:80 | a non-negative percentage never lowers a price, and 0 % keeps it |
| Pricing.SelectAll | src/pages/Pricing.tsx:88-94 | select-all clears the selection when its size equals the number shown, and otherwise selects exactly the ids shown, each once |
| Pricing.PricingPage.constructor | src/pages/Pricing.tsx:10-19 | the page starts sorted by update date, descending, with no adjustments, no selection and a 0 % bulk change |
| Pricing.PricingPage.LoadProducts | src/pages/Pricing.tsx:25-35 | given the settings the call passes, a list read replaces the products, an error shows its message or the fixed fallback, and loading ends; nothing else changes |
| Pricing.LoadError | src/pages/Pricing.tsx:31 | the message is the error's own, or "商品の取得に失敗しました" for a value that is not an Error |
| Pricing.LoadAsWritten | src/pages/Pricing.tsx:28 | as written (no settings) the load throws a TypeError before any request and the page shows "Cannot read properties of undefined (reading 'baseApiKey')" |
| Pricing.LoadWithSettings | src/pages/Pricing.tsx:25-35 | with the stored settings a 2xx list reply is loaded as it is after one request, and a missing key shows the key message without a request |
| Pricing.PricingPage.HandleSort | src/pages/Pricing.tsx:37-44 | the sort state becomes `NextSort` of the old one and no other field changes |
| Pricing.PricingPage.HandlePriceChange | src/pages/Pricing.tsx:67-72 | the adjustments become `PriceChange` of the old ones and no other field changes |
| Pricing.PricingPage.HandleBulkPriceAdjustment | src/pages/Pricing.tsx:74-86 | the adjustments become the bulk-adjusted ones of the old selection, the selection is cleared and the editor closed; products, search, sort, percentage, message and loading flag stay |
| Pricing.PricingPage.HandleSelectAll | src/pages/Pricing.tsx:88-94 | the selection becomes `SelectAll` over the list shown before the click, and no other field changes |
| Pricing.PricingPage.HandleSaveChanges | src/pages/Pricing.tsx:96-109 | saving sends nothing: it shows the "updated" message and clears the adjustments and the selection; products, search, sort, percentage and editor stay |
| UseWooCommerce.FetchStep | src/hooks/useWooCommerce.tsx:25-77 | a fetch returns data if and only if both credentials are set, the 30-second gate admits it and the product read succeeds, and then the data read |
| UseWooCommerce.MissingCredentialsNoFetch | src/hooks/useWooCommerce.tsx:26-29 | with a key or secret missing, only the credentials error is set: no request, no log, the last fetch time unchanged |
| UseWooCommerce.GateOnlyLogs | src/hooks/useWooCommerce.tsx:31-40 | a non-forced call within 30 s of the last fetch writes only the skip log and changes no state |
| UseWooCommerce.AdmittedFetches | src/hooks/useWooCommerce.tsx:42-76 | an admitted fetch logs the start, makes exactly the product read's requests and ends with loading off |
| UseWooCommerce.OutcomeUpdates | src/hooks/useWooCommerce.tsx:52-73 | success replaces the products and sets the last fetch time to the call's start; failure sets the error message and keeps both |
| UseWooCommerce.SuccessClosesGate | src/hooks/useWooCommerce.tsx:31-54 | after a success, a non-forced call within 30 s changes nothing and makes no request, while a forced one fetches again |
| UseWooCommerce.AutoSyncStartsAfterFetch | src/hooks/useWooCommerce.tsx:80-89 | auto-sync starts if and only if the credentials are set, the forced first fetch returns data and auto-sync is on, and it is given that data |
| UseWooCommerce.WooCommerceProvider.constructor | src/hooks/useWooCommerce.tsx:18-22 | the provider starts with no products, not loading, no error and a last fetch time of 0 |
| UseWooCommerce.WooCommerceProvider.BeginFetch | src/hooks/useWooCommerce.tsx:25-50 | the fetch goes ahead if and only if the credentials are set and the gate admits it; it then sets loading, clears the error and logs the start, and otherwise ends as `FetchStep` determines |
| UseWooCommerce.WooCommerceProvider.FinishFetch | src/hooks/useWooCommerce.tsx:52-76 | on success the products and fetch time are replaced and the completion is logged with the count; on failure the error is set and logged; loading ends either way |
| UseWooCommerce.WooCommerceProvider.FetchProducts | src/hooks/useWooCommerce.tsx:25-77 | the provider's new state, data and events equal `FetchStep` of the old state |
| UseWooCommerce.WooCommerceProvider.Refetch | src/hooks/useWooCommerce.tsx:95 | `refetch` is a forced fetch: with credentials set it always reads and returns data exactly when the read succeeds |
| UseWooCommerce.WooCommerceProvider.MountEffect | src/hooks/useWooCommerce.tsx:80-89 | the mount effect leaves the state and events of the forced fetch and hands its data to auto-sync as `Mount` says |
| InventoryList.ParseErrorRoundTrip | src/components/inventory/InventoryList.tsx:39-45 | the headline is the text before the first line break and never holds one; headline, a line break and the details give back the message; without a line break the details are empty and no toggle is shown |
| Inventory.Kept | src/pages/Inventory.tsx:47-56 | the filter keeps at most the products it was given |
| Inventory.VisibleIsFiltered | src/pages/Inventory.tsx:47-67 | the list shown is a permutation of the products that match the search (name or sku, ignoring case; everything for an empty term) and the stock filter |
| Inventory.UnfilteredShowsAll | src/pages/Inventory.tsx:48-52 | with an empty term and the "all" filter every product is shown |
| Inventory.LowAndOutDisjoint | src/pages/Inventory.tsx:52-54 | "low" means a stock of 1 to 5 and "out" a stock of 0 or less, so no product is both |
| Inventory.StockDescending | src/pages/Inventory.tsx:61-62 | sorted by stock, the list runs from the largest stock down |
| Inventory.UpdatedDescending | src/pages/Inventory.tsx:63-65 | sorted by update, the most recently modified product comes first |
| Inventory.NameAscending | src/pages/Inventory.tsx:59-60 | sorted by name, neighbours are in the comparator's order |
| Inventory.StockUpdateOnlyRefetches | src/pages/Inventory.tsx:69-91 | a stock edit changes no stock: it logs the new quantity and then refetches, and its only requests are the product read's |
| Inventory.MountCountIsStale | src/pages/Inventory.tsx:16-44 | as written, the closing line of the mount sync counts the products held before the refetch ("0件" after fetching one product on first mount), and a failed fetch is still logged as a success |
| Inventory.MountCountsFetched | src/pages/Inventory.tsx:16-44 | the corrected mount sync's closing line counts the products held after the refetch: the fetched list on success, the previous list otherwise |
| InventoryStats.StatsSpec | src/components/inventory/InventoryStats.tsx:10-12 | the total is the number of products, the out-of-stock and low-stock counts are those of the inventory's "out" and "low" filters, and the two never exceed the total together |
| WooCommerceProductList.TotalPages | src/components/inventory/WooCommerceProductList.tsx:34-36 | the page count is the least number of twenty-item pages that hold every product |
| WooCommerceProductList.PageBounds | src/components/inventory/WooCommerceProductList.tsx:37-39 | page `p` shows the products from `(p - 1) * 20` up to `min(p * 20, n)`, at most twenty, and a page within the page count is never empty |
| WooCommerceProductList.PagesFromSuffix | src/components/inventory/WooCommerceProductList.tsx:36-39 | the pages from `p` to the last, put together, are the list from position `(p - 1) * 20` on |
| WooCommerceProductList.PagesPartition | src/components/inventory/WooCommerceProductList.tsx:36-39 | the pages, one after another, are exactly the product list: nothing is skipped or repeated |
| WooCommerceProductList.PagerClamps | src/components/inventory/WooCommerceProductList.tsx:242-252 | the arrows stay within the pages, move by one except at the ends, and undo each other |
| WooCommerceProductList.CaptionCountsPage | src/components/inventory/WooCommerceProductList.tsx:231-237 | the caption's first and last positions are those of the first and last rows shown, and the pager appears exactly for more than twenty products |
| WooCommerceProductList.OutcomeMatchesLog | src/components/inventory/WooCommerceProductList.tsx:41-76 | a row's status is a success exactly when the check logged a success, with the in-stock message exactly when stock was found, and on failure shows the details of the error line |
| WooCommerceProductList.SyncAllKeepsOthers | src/components/inventory/WooCommerceProductList.tsx:79-89 | "sync all" leaves the status of every product not on the page as it was |
| WooCommerceProductList.SyncAllSettlesRows | src/components/inventory/WooCommerceProductList.tsx:79-89 | after "sync all" each row of the page shows the outcome of its own check |
| WooCommerceProductList.SyncAllWaits | src/components/inventory/WooCommerceProductList.tsx:82-86 | "sync all" pauses one second per row on top of the checks' own waits, and its requests are those of the checks, one after another |
| WooCommerceProductList.ProductListState.constructor | src/components/inventory/WooCommerceProductList.tsx:30-33 | the list starts on page 1 with no statuses and not syncing |
| WooCommerceProductList.ProductListState.GoPrev | src/components/inventory/WooCommerceProductList.tsx:242 | the left arrow moves to `PrevPage` and changes nothing else |
| WooCommerceProductList.ProductListState.GoNext | src/components/inventory/WooCommerceProductList.tsx:252 | the right arrow moves to `NextPage` and changes nothing else |
| WooCommerceProductList.ProductListState.HandleSyncStock | src/components/inventory/WooCommerceProductList.tsx:41-77 | the row's status becomes the outcome of its check, every other status is kept, and the events are the check's |
| WooCommerceProductList.ProductListState.HandleSyncAll | src/components/inventory/WooCommerceProductList.tsx:79-89 | the statuses become those of checking the page's rows in order, the events are the checks with a one-second pause after each, and syncing ends |
| LogsPage.FilteredLogsSpec | src/pages/Logs.tsx:135-141 | a log is shown if and only if its type and category are selected and the term is in its message or details, ignoring case; the list is a permutation of those logs, newest first |
| LogsPage.NoDetailsSearchesMessage | src/pages/Logs.tsx:138-139 | a log without details is found by its message alone |
| LogsPage.LogsPageState.constructor | src/pages/Logs.tsx:14-20 | the page starts with every type and every category selected, no term and no details open |
| LogsPage.LogsPageState.ToggleType | src/pages/Logs.tsx:74-82 | a type is flipped in or out of the selected set, which keeps no repeats; nothing else changes |
| LogsPage.LogsPageState.ToggleCategory | src/pages/Logs.tsx:84-92 | a category is flipped in or out of the selected set, which keeps no repeats; nothing else changes |
| LogsPage.LogsPageState.ToggleDetails | src/pages/Logs.tsx:94-102 | a log's details are flipped open or closed; nothing else changes |
| LogsPage.ToggleTypeTwice | src/pages/Logs.tsx:74-141 | turning a type off hides exactly that type's logs, and turning it back on shows the same list as before |
| UsersPage.FilteredUsersSpec | src/pages/Users.tsx:57-64 | a user is listed if and only if the term is in the username or e-mail, ignoring case, and the role and status filters accept it; with no term and both filters on "all" every user is listed |
| UsersPage.UpdateSpec | src/pages/Users.tsx:79-84 | an update changes only the users with the id, taking each of the seven fields the patch carries and keeping the rest; an empty patch changes nothing |
| UsersPage.DeleteSpec | src/pages/Users.tsx:86-90 | a delete removes every user with the id and keeps all others in order; an unknown id changes nothing |
| UsersPage.AddIdCanCollide | src/pages/Users.tsx:66-74 | the new id is the list length plus one, so after a delete it can repeat an id in use: with users "2" and "3" the new user gets "3" |
| UsersPage.UsersPageState.constructor | src/pages/Users.tsx:15-55 | the page starts with the sample users, no term, both filters on "all" and an empty form |
| UsersPage.UsersPageState.HandleAddUser | src/pages/Users.tsx:66-77 | adding appends one active user built from the form, then closes and clears the form |
| UsersPage.UsersPageState.HandleUpdateUser | src/pages/Users.tsx:79-84 | the list becomes the updated list and editing ends |
| UsersPage.UsersPageState.HandleDeleteUser | src/pages/Users.tsx:86-90 | the user is deleted only when the dialog is confirmed |
| Auth.CheckLoginSpec | src/hooks/useAuth.tsx:15-86 | login succeeds for exactly the two mock pairs, the admin account being the master admin, always with the demo company; anything else is the one error message |
| Auth.AuthProvider.constructor | src/hooks/useAuth.tsx:63-65 | the provider starts with nobody signed in and loading |
| Auth.AuthProvider.Restore | src/hooks/useAuth.tsx:67-78 | the session is restored only when both the user and the company are stored; loading ends either way |
| Auth.AuthProvider.Login | src/hooks/useAuth.tsx:80-95 | a login succeeds exactly when the pair is valid, and then sets and stores the account's user and company; a failure changes nothing |
| Auth.AuthProvider.Logout | src/hooks/useAuth.tsx:97-102 | logout clears both the state and storage |
| PrivateRoute.GuardSpec | src/components/PrivateRoute.tsx:9-30 | loading shows the spinner, no user goes to login, a role list without the user's role goes to "unauthorized", and the page is shown exactly otherwise |
| PrivateRoute.LoginThenGuard | src/components/PrivateRoute.tsx:25-27 | after logging in, the master admin reaches a master-admin page and the plain user is sent to "unauthorized" |

## Left out

**Runtime and platform**
- Concurrency: `Promise.all` over a batch of five and the overlapping handlers of the UI are not modelled. Every asynchronous step runs to completion in program order. A React state update is applied where the handler makes it, and a render in between is not modelled.
- WooProducts.MapBatch: the products of a batch are read one after another. The source starts them together and collects the results in order, so the products match but the interleaving of their events is not modelled.
- Time: clocks, `setTimeout` and `setInterval` are not modelled. Clock readings are parameters, and a wait is a `Sleep` event with its length.
- Request timeouts: the `AbortController` timeout is modelled only as its outcome, an `AbortError` the oracle may return.
- Browser services: `console.error` / `console.log` calls and JSX rendering are left out, and so are the icons, the CSS classes and the `InventoryFilters` component.
- Floating point: prices are integer yen and multipliers are exact reals. The rounding of binary floating point before `Math.ceil` / `Math.round` is not modelled.
- Unicode: `toLowerCase` lowers ASCII letters only, and Unicode case folding is not modelled.
- Sorting by text or date: `localeCompare` and `new Date(...).getTime()` are function parameters. The title and name sorts are proved only for a comparator that is antisymmetric.
- Regular expressions: replace rules build `new RegExp(from, 'gi')`, and the model reads `from` literally. A pattern with regular-expression metacharacters (`.`, `*`, `(`, …) behaves differently in the source. The replacement text is inserted literally as well: the `$&`, `$$`, `` $` `` and `$'` patterns that `String.prototype.replace` expands in it are not modelled.
- ProductList.HighlightReplacedWords: the markup template embeds both `from` and `to` and is inserted literally; a `$` pattern in either would be expanded by the source.
- WooCommerceApi.RewriteName: a `to` text containing a `$` pattern is inserted literally, where the source expands it.
- WooProducts.RewriteBoth: a `to` text containing a `$` pattern is inserted literally, where the source expands it.
- JSON: parsing and serialisation are not modelled. Storage holds already-parsed values. `JSON.stringify` is modelled only where it changes a value, turning `Infinity` into `null`, and where its text is compared.
- ErrorHandling.HandleApiError: the `details` of an `APIError` are carried as the text `JSON.stringify` would produce, and the serialisation itself is not modelled.

**Loops and unreachable paths**
- InventorySync.StartAutoSync: `startAutoSync` loops forever. The model covers one pass and, separately, the recovery step of the outer `catch` (`InventorySync.Recovery`), not the unbounded repetition.
- ProductsPage.FetchAllSupplierProducts: the `do … while (nextId)` loop is modelled only for page sequences that end, bounded by a ghost `last`. A NETSEA cursor chain that never ends is not covered.
- Outer `catch` blocks: several are unreachable in the model and are not modelled. `addLogEntry`, `refetch` and the variation read never throw there (the inventory mount and stock-edit handlers, the `try` around the Products page's publish loop).

**Operations not modelled**
- `loadCategories` and `getWooCommerceCategoryById` (src/hooks/useCategories.tsx:33-56, 155-157): storage and list loading with no logic beyond reading.
- Pricing.PricingPage.LoadProducts: a BASE reply that is JSON but not a list is stored by the source as it is; the model keeps the old list in that case.
- Products page: `loadSuppliers`, `handleSupplierClick`, `loadMoreProducts` and `handlePriceAdjustment` set state from a single `fetchSuppliers` / `fetchSupplierProducts` call, and are not modelled. The calls themselves are modelled in NetseaApi.
- Logs page: the sample log data, the `autoRefresh` interval, `refreshLogs` (a one-second wait) and `exportLogs` (a file download).
- WooCommerceProductList: the three-second timer that clears a row's success status is not modelled. The stock editor's state is display state only.

**Simplified behaviour**
- Variations.Summaries: a summary keeps the id, SKU and stock of a variation. The `attributes`, `price`, `regular_price`, `sale_price`, `manage_stock` and `status` fields that the source also passes on are not modelled, since nothing in the modelled code reads them.
- UsersPage.UsersPageState.HandleAddUser: the spread `...newUser` also copies the form's `password` into the user record. The model's `User` has no password field, so that copy is not represented.
- Auth, AppSettings and Categories: the `useAuth`, `useSettings` and `useCategories` hooks throw outside their provider. That check is not modelled.
- UsersPage.UsersPageState.HandleDeleteUser: `window.confirm` is the parameter `confirmed`.
- WooCommerceApi.FetchCategories: the source returns whatever JSON the reply holds. The model's result is a category list, so a JSON reply that is not one is returned as an empty list.
- InventorySync: the NETSEA product id is sent as a supplier id (`supplier_ids`). The model keeps that request as written, but because the lookup throws before sending it (see Findings), no request reaches NETSEA.

## Findings

| source | as written | input that shows it | evidently intended | confidence | as-written member | corrected member |
|---|---|---|---|---|---|---|
| src/pages/Pricing.tsx:28 | `fetchBaseProducts()` is called without settings, so reading `settings.baseApiKey` throws a TypeError before any request, and the page never loads a product | any mount of the pricing page: no request is made and the page shows "Cannot read properties of undefined (reading 'baseApiKey')" | pass the stored settings, as the other pages do | high, not executed | Pricing.LoadAsWritten | Pricing.LoadWithSettings |
| src/services/inventorySync.ts:41 | `fetchSupplierProducts(undefined, netseaProductId)` reads `netseaApiKey` of `undefined`, a TypeError, so every check ends in the `catch` and no stock is ever written | any store product carrying `_netsea_product_id`: the check fails with "Cannot read properties of undefined" after one request | look the product up with the stored settings and set the stock from its variants | high, not executed | InventorySync.AsWrittenNeverUpdates | InventorySync.UpdateFollowsVariants |
| src/pages/Inventory.tsx:27-32 | the mount effect's closing line reads `wooCommerceProducts.length` captured before `refetch()`, and logs a success even when the fetch failed | first mount with no products held, the refetch returns one product: the log says "取得商品数: 0件" | count the products held after the refetch | high, not executed | Inventory.MountCountIsStale | Inventory.MountCountsFetched |
