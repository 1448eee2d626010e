# AutoVid core, modelled in Dafny

AutoVid is a Shopify embedded app that attaches YouTube demo videos to products.
This project models the logic that sits between its remote calls:

- **Engagement analytics.** The analytics loader does the following:
  - folds the shop's activity log into play counters keyed `productId__videoUrl` and page-view counters keyed by product;
  - walks the tagged products page by page and fetches their details in batches of 20;
  - joins each product with its counters and its extended-info row;
  - sorts by engagement, lists untagged "opportunity" products, and prints coverage.
- **Video records.**
  - The manual edit (`api.update-metafield`): URL normalisation, the choice of summary and highlights, the case-insensitive tag add, the metafield payload, and the clear-then-upsert that leaves one main row per product and shop.
  - The bulk discovery (`api.get-video`): the partition into updated and errored products, the AUTO records, the exact-tag check, and the 206/200 choice.
  - The bulk removal (`api.delete-metafield`): delete-then-retag per id, stopping at the first failure.
  - The storefront counters (`api.update-videocount`, `api.update-pageview`) and the `isOpened` flag (`api.mark-video-opened`).
- **Request shaping.**
  - The product search (`api.get-products`): body defaults, filter parts, sort keys, the final query, and the extended-info join.
  - The product table page (`app._index`): the subscription gate, tag and category de-duplication, YouTube link parsing, the cursor stack, the applied-filter chips, and the row labels.
  - Prompt templating (`utils/prompts.js`).
  - Subscription and onboarding gates (`app`, `billing`, `welcome`), the account page's trial arithmetic and tagged-product count, and compliance-webhook dispatch (`webhook`).

## How the model is built

- **Remote answers are inputs.** Shopify Admin GraphQL, the workflow webhook, YouTube oEmbed and the summarizer become plain values or functions passed to the routes: pages of edges, item lists, an ok/not-ok flag, a `Variables -> seq<ProductEdge>` oracle, and so on.
- **Mutable state is a class.**
  - The Prisma tables `productExtendedInfo` (`ExtendedInfo.InfoTable`) and `videoPlayCount`/`videoPageView`/`activity` (`Engagement.Store`) are classes whose methods assign functions of the old state.
  - So are the shop's products seen by the removal loop (`DeleteMetafield.Catalog`) and the product table's cursor stack (`ProductTable.Pager`).
- **JavaScript objects and `Map`s keep insertion order.** They are association lists (`Collections.Entries`): `Put` overwrites in place or appends.
- **Sorting.** `Array.prototype.sort` is stable. It is modelled as a stable insertion sort with a comparator given by a rank pair (`Sorting`).
- **Strings and numbers.**
  - Strings are `seq<char>`.
  - `BigInt(s)` is a parse of decimal digits (`Text.ParseNat`).
  - `Math.round` and `toFixed(1)` on non-negative ratios are exact round-half-up on integers.
  - Instants are integer milliseconds.

## Model

| member | source | states |
|---|---|---|
| Webhook.Action | app/routes/webhook.jsx:3-20 | no admin context answers 200 whatever the topic; the three compliance topics answer 200 "Webhook processed"; every other topic answers 404 |
| Webhook.Loader | app/routes/webhook.jsx:22-29 | always 200 with the JSON body `{"message":"Webhook received"}` |
| Welcome.Loader | app/routes/welcome.jsx:8-40 | a missing shop or charge_id answers "Missing shop or charge_id"; success iff the first subscription whose id contains the charge id exists and is ACTIVE, returning the session shop; every other outcome answers "Charge not active" |
| Welcome.TopLocation | app/routes/welcome.jsx:46-52 | a redirect happens iff the load succeeded with a non-empty shop, and its target is exactly `https://<shop>/admin/apps/autovid/app` |
| Welcome.TargetIsShopAdmin | app/routes/welcome.jsx:46-52 | for a shop domain without "/", the target's scheme is https, its host is exactly the shop, and its path is the app page |
| Billing.Loader | app/routes/billing.jsx:8-71 | no charge id answers "Charge Id not found."; no subscription matching it answers "Charge not found."; no error iff the match exists and is ACTIVE; a non-ACTIVE match answers "Charge is not active."; onboarding is always reported incomplete |
| Billing.SuccessGoesToWelcome | app/routes/billing.jsx:66-84 | the component navigates iff the loader succeeded, and then always to "/app/welcome" |
| Subscriptions.FindByCharge | app/routes/welcome.jsx:33 | the first subscription whose id contains the charge id; none iff no id contains it |
| Subscriptions.FirstActive | app/routes/app._index.jsx:73 | the first ACTIVE subscription; none iff none is ACTIVE |
| Subscriptions.HasActive | app/routes/app.jsx:31-33 | holds iff some subscription is ACTIVE |
| AppShell.OnboardingComplete | app/routes/app.jsx:57-61 | holds iff an "Auto-Video"/"app_onboarding" metafield found first has value exactly "true" |
| AppShell.ApiKey | app/routes/app.jsx:71 | empty iff the key is unset or empty, else the key |
| AppShell.Loader | app/routes/app.jsx:31-71 | redirect iff no subscription is ACTIVE, to the shop's managed-pricing URL; otherwise the onboarding flag and the API key |
| AppShell.NavLinks | app/routes/app.jsx:91-100 | Home always comes first; Analytics, Account and Getting Started appear iff onboarding is complete |
| Account.CurrentPlan | app/routes/app.account.jsx:48-49 | the first listed subscription's name when non-empty, else "Trial" |
| Account.TrialDays | app/routes/app.account.jsx:60 | the first subscription's trial days, or 0 when there is none |
| Account.CeilDiv | app/routes/app.account.jsx:66 | the ceiling of the quotient: `(r-1)*d < a <= r*d` |
| Account.TrialStatus | app/routes/app.account.jsx:56-68 | days left are defined iff a subscription with a creation date exists; days left are never negative, are the ceiling of the remaining milliseconds over a day, and days used are trial days minus days left |
| Account.TrialUsedBounds | app/routes/app.account.jsx:61-68 | once the trial has started, `0 <= used <= trialDays` |
| Account.CountTagged | app/routes/app.account.jsx:69-99 | the loop reads pages until the first page without a next page; the count is the number of edges read; the cursors sent are null, then each read page's last cursor |
| Account.Loader | app/routes/app.account.jsx:48-103 | data iff the walk finishes, holding the count, the plan and the trial fields |
| Pagination.WalkFrom | app/routes/app.account.jsx:72-99 | the walk stops at the first page without a next page, throws at a page claiming more without edges, and is unfinished when the pages run out |
| Prompts.ReplaceAll | app/routes/utils/prompts.js:27 | a text without the pattern is unchanged |
| Prompts.JoinPieces | app/routes/utils/prompts.js:26-30 | the pieces between occurrences, joined back with the pattern, give the original text |
| Prompts.ReplaceAllJoinsPieces | app/routes/utils/prompts.js:26-30 | replacing all occurrences puts the value between the same pieces, so text outside the occurrences is kept verbatim |
| Prompts.FormatPrompt | app/routes/utils/prompts.js:25-31 | a template holding none of the four placeholders is returned unchanged |
| Prompts.SubstitutionOrder | app/routes/utils/prompts.js:26-30 | a `{{vendor}}` carried in by the title is replaced by the vendor, because substitution runs in a fixed order |
| Tags.AddVideoTag | app/routes/api.update-metafield.jsx:122-129 | unchanged when some tag matches "youtubevideo" ignoring case, else the tag appended |
| Tags.AddVideoTagSpec | app/routes/api.update-metafield.jsx:122-129 | afterwards the tag is present, the old tags come first in order, and at most one tag is new |
| Tags.AddVideoTagIdempotent | app/routes/api.update-metafield.jsx:122-129 | adding twice is adding once |
| Tags.RemoveVideoTag | app/routes/api.delete-metafield.jsx:155-157 | removes exactly the tags matching "youtubevideo" ignoring case |
| Tags.RemoveKeepsOthers | app/routes/api.delete-metafield.jsx:155-157 | removal keeps the order of the other tags |
| Tags.RemoveKeepsCounts | app/routes/api.delete-metafield.jsx:155-157 | each tag other than the video tag keeps its multiplicity, and every spelling of the video tag is gone |
| Tags.RemoveVideoTagIdempotent | app/routes/api.delete-metafield.jsx:155-157 | removing twice is removing once |
| Tags.RemoveAfterAdd | app/routes/api.delete-metafield.jsx:155-157 | removing after a manual add gives the same tags as removing alone |
| Tags.ExactTagIsStricter | app/routes/api.get-video.jsx:79 | the exact-tag test used by discovery is stricter than the case-insensitive one: every tag list passing the exact test passes the case-insensitive one, and "YouTubeVideo" passes the latter only |
| ExtendedInfo.ClearedMain | app/routes/api.update-metafield.jsx:236-243 | clears `isMain` on every row of (product, shop) and changes nothing else |
| ExtendedInfo.IndexOfVideo | app/routes/api.update-metafield.jsx:245-252 | finds the first row with the unique key (product, shop, url), or reports that there is none |
| ExtendedInfo.UpsertManual | app/routes/api.update-metafield.jsx:245-270 | when the key (product, shop, url) exists, that row is updated in place: the title, summary and highlights sent overwrite the stored ones, the source becomes MANUAL, the row becomes main, and nothing else changes; otherwise one row with exactly those fields, main and not opened, is appended |
| ExtendedInfo.ManualEditLeavesOneMain | app/routes/api.update-metafield.jsx:236-270 | after clear-then-upsert, exactly one row of (product, shop) is main, the one with the edited url |
| ExtendedInfo.ManualEditKeepsInvariant | app/routes/api.update-metafield.jsx:236-270 | the edit keeps "at most one main row per product and shop" for the whole table |
| ExtendedInfo.IndexOfProduct | app/routes/api.get-video.jsx:104-105 | finds the first row of the product, or reports that there is none |
| ExtendedInfo.UpsertDiscovered | app/routes/api.get-video.jsx:104-115 | when the product has a row, the first one is updated in place with the discovered title, url, summary and highlights, source AUTO and the shop, keeping its flags; otherwise one AUTO row, not main and not opened, is appended |
| ExtendedInfo.MatchCount | app/routes/api.mark-video-opened.jsx:37-46 | zero iff no row matches (shop, product) |
| ExtendedInfo.OpenedRows | app/routes/api.mark-video-opened.jsx:37-45 | sets `isOpened` on the matching rows and changes nothing else |
| ExtendedInfo.MarkOpenedIdempotent | app/routes/api.mark-video-opened.jsx:37-62 | a repeated call matches the same count and changes nothing more |
| ExtendedInfo.InfoTable.ClearMain | app/routes/api.update-metafield.jsx:236-243 | the table becomes `ClearedMain` of the old one |
| ExtendedInfo.InfoTable.UpsertManualRow | app/routes/api.update-metafield.jsx:245-270 | the table becomes `UpsertManual` of the old one, so it updates the keyed row in place or appends the MANUAL main row |
| ExtendedInfo.InfoTable.UpsertDiscoveredRow | app/routes/api.get-video.jsx:104-115 | the table becomes `UpsertDiscovered` of the old one, so it updates the product's first row in place or appends the AUTO row |
| ExtendedInfo.InfoTable.MarkOpened | app/routes/api.mark-video-opened.jsx:37-45 | the table becomes `OpenedRows`; the count is the number of rows matched |
| UpdateMetafield.NormalizeUrl | app/routes/api.update-metafield.jsx:25-27 | only the first "www." is removed; a url without it is unchanged |
| UpdateMetafield.EmbedUrlNormalized | app/routes/api.update-metafield.jsx:192 | normalising the embed url only touches the video id |
| UpdateMetafield.NormalizeNotIdempotent | app/routes/api.update-metafield.jsx:25-27 | a second "www." survives one pass, so normalising is not idempotent |
| UpdateMetafield.Select | app/routes/api.update-metafield.jsx:48-80 | manual mode without both fields gives "" and "[]"; both fields given are used verbatim; the summarizer is called at most once, and exactly when neither case applies; its failure gives no choice |
| UpdateMetafield.ProvidedSummaryIsKept | app/routes/api.update-metafield.jsx:52-55 | supplied summary and highlights are kept whatever the mode, with no summarizer call |
| UpdateMetafield.Metafields | app/routes/api.update-metafield.jsx:186-214 | four "custom" metafields: the normalised embed url, the highlights, the summary (written as " " when blank) and "MANUAL" |
| UpdateMetafield.WriteEdit | app/routes/api.update-metafield.jsx:105-270 | once the summary is chosen: success iff the tag query, the summary delete (made only for an empty summary) and the product update all succeed and the product id ends in a number; the writes are that delete followed by one product update with the tag added, and on success the table is cleared then upserted; `userErrors` give `success:false`; no failure touches the table |
| UpdateMetafield.Action | app/routes/api.update-metafield.jsx:21-307 | a failed oEmbed lookup gives 400 and a failed summary 500, both without writes; success iff every call succeeds, and then the writes are the summary delete (when the summary is empty) followed by one product update with the tag added, and the table is cleared then upserted; `userErrors` give `success:false`; no failure touches the table |
| UpdateMetafield.SuccessfulEditLeavesOneMain | app/routes/api.update-metafield.jsx:236-270 | after a successful edit, the edited video is the only main row of the product in the shop |
| GetVideo.Params | app/routes/api.get-video.jsx:11-14 | one `ids[]` parameter per id, in input order |
| GetVideo.FieldValue | app/routes/api.get-video.jsx:56-64 | the value of a metafield with the key, or none when no field has it |
| GetVideo.InfoOf | app/routes/api.get-video.jsx:56-75 | an AUTO record for the shop, with the product id taken from the gid's last segment and video, summary and highlights picked by key |
| GetVideo.PartitionSizes | app/routes/api.get-video.jsx:52-75 | every item lands in exactly one list |
| GetVideo.UpdatedSpec | app/routes/api.get-video.jsx:53-75 | the updated list holds exactly the records of the items without user errors |
| GetVideo.ErroredSpec | app/routes/api.get-video.jsx:53-54 | the errored list holds exactly the products of the items with user errors |
| GetVideo.TagWrites | app/routes/api.get-video.jsx:77-101 | every tag mutation carries the exact tag |
| GetVideo.TaggedItemNotRetagged | app/routes/api.get-video.jsx:79 | an item whose product already has the exact tag issues no mutation |
| GetVideo.UntaggedItemRetagged | app/routes/api.get-video.jsx:77-101 | an updated item whose product lacks the exact tag issues exactly one mutation, its tags plus "youtubevideo" |
| GetVideo.ErroredItemNotRetagged | app/routes/api.get-video.jsx:52-101 | an item with user errors issues no mutation |
| GetVideo.StoredRecordIsAuto | app/routes/api.get-video.jsx:104-115 | every record stored leaves an AUTO row for its product |
| GetVideo.Partition | app/routes/api.get-video.jsx:50-117 | the loop's lists and tag writes are the functions above, and the table is every updated record upserted in order |
| GetVideo.Action | app/routes/api.get-video.jsx:4-161 | an upstream failure or `code: 404` aborts before any write; otherwise 206 iff some item has user errors, else 200 |
| GetVideo.ErroredEmpty | app/routes/api.get-video.jsx:122 | the errored list is empty iff no item has user errors |
| DeleteMetafield.Ids | app/routes/api.delete-metafield.jsx:138 | `productIds` whenever it is sent, even empty; otherwise the one-element list of `productId`, or `["undefined"]` when neither is sent |
| DeleteMetafield.Strip | app/routes/api.delete-metafield.jsx:160-201 | deletes exactly the four video metafields and keeps the tags |
| DeleteMetafield.Untag | app/routes/api.delete-metafield.jsx:217-239 | rewrites the tags without the video tag and keeps the metafields |
| DeleteMetafield.Clean | app/routes/api.delete-metafield.jsx:141-239 | only the handled product changes, by strip then untag |
| DeleteMetafield.CleanAllSpec | app/routes/api.delete-metafield.jsx:141-262 | after all ids succeed, every handled product has no video tag and no video metafield, and the others are unchanged |
| DeleteMetafield.SingleProductRemoval | app/routes/api.delete-metafield.jsx:138-262 | a request naming one `productId` cleans exactly that product: it loses its video tag and video metafields and every other product is unchanged |
| DeleteMetafield.CleanIdempotent | app/routes/api.delete-metafield.jsx:141-262 | cleaning a product twice is cleaning it once |
| DeleteMetafield.FirstFailure | app/routes/api.delete-metafield.jsx:141-262 | the position of the first failing id; every id before it succeeds |
| DeleteMetafield.StepSpec | app/routes/api.delete-metafield.jsx:205-261 | a successful iteration cleans the product; a failed tag update leaves the metafields deleted and the tags unchanged; a failed delete changes nothing |
| DeleteMetafield.Catalog.Handle | app/routes/api.delete-metafield.jsx:142-261 | one iteration reports the stage that fails and leaves `Step` of the catalog |
| DeleteMetafield.Catalog.Remove | app/routes/api.delete-metafield.jsx:141-265 | with no failure, the reply is success and every id is cleaned; otherwise the ids before the first failure are cleaned, the failing one keeps its partial step, and later ids are untouched |
| DeleteMetafield.Action | app/routes/api.delete-metafield.jsx:134-276 | success with status 200 iff no id fails, and then every product is cleaned; otherwise 500 naming the first failing id and its stage, with the ids before it cleaned, the failing one left as its successful calls made it, and later ids untouched |
| GetProducts.OrDefault | app/routes/api.get-products.jsx:9-12 | a truthy field is kept, otherwise the default is used |
| GetProducts.Defaults | app/routes/api.get-products.jsx:9-14 | cursor and query are kept only when truthy; direction defaults to "next" and the sort key to "CREATED_AT" when not truthy; reverse is true unless it is explicitly false; sent filters are kept and missing filters become `{}` |
| GetProducts.EmptyBodyDefaults | app/routes/api.get-products.jsx:9-14 | an empty body asks for the first page, sorted by CREATED_AT, reversed, unfiltered |
| GetProducts.DemoPart | app/routes/api.get-products.jsx:38-42 | "true" adds `tag:youtubevideo`, "false" adds `-tag:youtubevideo`, anything else adds nothing |
| GetProducts.CategoryTerms | app/routes/api.get-products.jsx:33-34 | one `category_id:` term per category, built from the last gid segment |
| GetProducts.BuildFilterParts | app/routes/api.get-products.jsx:16-42 | the pushes produce the as-written parts in the fixed order status, tag, vendor group, category group, demo video, reading vendor and category only as arrays |
| GetProducts.PartsShape | app/routes/api.get-products.jsx:16-42 | at most five parts, none of them empty |
| GetProducts.PartsOrder | app/routes/api.get-products.jsx:19-42 | in the parts the route builds, a status part comes first and a demo-video part last |
| GetProducts.OtherDemoValueIgnored | app/routes/api.get-products.jsx:38-42 | a demoVideo other than "true"/"false" changes nothing in the parts the route builds |
| GetProducts.VendorGroup | app/routes/api.get-products.jsx:22-27 | a vendor array gives the group `(vendor:a OR vendor:b ...)` in the parts the route builds |
| GetProducts.CategoryById | app/routes/api.get-products.jsx:32-37 | a category array is searched by its gids' last segments: one category gives the group `(category_id:<last segment>)` |
| GetProducts.FilterValuesAsWritten | app/routes/api.get-products.jsx:22-32 | only an array contributes values; a string contributes none |
| GetProducts.AgreesOnArrays | app/routes/api.get-products.jsx:16-42 | on arrays, the as-written and corrected builders agree |
| GetProducts.FilterValues | app/routes/api.get-products.jsx:22-32 | as intended, an array contributes its items and a non-empty string contributes itself |
| GetProducts.SingleIsOneElementArray | app/routes/api.get-products.jsx:22-32 | as intended, a vendor or category string filters exactly as the one-element array |
| GetProducts.StringFiltersDropped | app/routes/api.get-products.jsx:22-32 | as written, string vendor and category filters add no part, while the intended builder adds one |
| GetProducts.StringFiltersNotSent | app/routes/api.get-products.jsx:16-122 | as written, the variables sent with string vendor and category filters are those sent without them, while a one-vendor array adds a part |
| GetProducts.FilterQuery | app/routes/api.get-products.jsx:44 | empty iff the route builds no parts |
| GetProducts.GqlSortKey | app/routes/api.get-products.jsx:47-54 | always one of the four sort keys; anything other than title/vendor/inventory gives CREATED_AT |
| GetProducts.SortKeysDistinct | app/routes/api.get-products.jsx:47-54 | title, vendor, createdAt and inventory map to TITLE, VENDOR, CREATED_AT and INVENTORY_TOTAL |
| GetProducts.FinalQuery | app/routes/api.get-products.jsx:121 | the truthy members of `[query, filterQuery]` joined by one space |
| GetProducts.VariablesOf | app/routes/api.get-products.jsx:117-122 | cursor and reverse are passed through; the sort key is valid; the query is empty iff there is no query text and the route builds no filter part |
| GetProducts.RowsOf | app/routes/api.get-products.jsx:137-143 | exactly the table rows of the shop and the product |
| GetProducts.RowsOfIgnoresOthers | app/routes/api.get-products.jsx:130-143 | rows of other products or shops do not change what a product gets |
| GetProducts.AttachExtendedInfo | app/routes/api.get-products.jsx:127-152 | defined iff every edge id ends in a number; then edge order is kept and each edge gets its rows |
| GetProducts.AttachedRowsBelong | app/routes/api.get-products.jsx:135-152 | every attached row belongs to the shop and to the edge's product |
| GetProducts.Action | app/routes/api.get-products.jsx:4-165 | the variables sent are those of the defaulted body with the as-written filter parts, and the answer is the join |
| Engagement.BumpPlay | app/routes/api.update-videocount.jsx:16-34 | an existing counter goes up by exactly one and keeps its shop; a new one starts at 1 with this shop; other keys are unchanged |
| Engagement.BumpView | app/routes/api.update-pageview.jsx:15-34 | the keyed counter goes up by one, or starts at 1; other keys are unchanged |
| Engagement.PlaysSharedAcrossShops | app/routes/api.update-videocount.jsx:17-22 | plays from two shops on the same (product, url) land on one counter, which keeps the first shop |
| Engagement.Store.UpsertPlay | app/routes/api.update-videocount.jsx:16-34 | the play counters become `BumpPlay` of the old ones; the new count is returned |
| Engagement.Store.UpsertView | app/routes/api.update-pageview.jsx:15-34 | the page-view counters become `BumpView` of the old ones; the new count is returned |
| Engagement.Store.Log | app/routes/api.update-videocount.jsx:37-44 | appends exactly one activity row |
| UpdateVideoCount.Action | app/routes/api.update-videocount.jsx:4-52 | missing input gives 400 with no write; a failing upsert gives 500 with no write; otherwise the counter is bumped, one VIDEO_PLAY row is appended, and the reply carries the new count |
| UpdatePageView.HandleOrEmpty | app/routes/api.update-pageview.jsx:21-31 | an absent or empty handle is keyed as "" |
| UpdatePageView.Action | app/routes/api.update-pageview.jsx:4-42 | missing input gives 400 with no write; a failure gives 500 with no write; otherwise the (shop, product, page type, handle) counter is bumped and the reply carries it |
| MarkVideoOpened.Action | app/routes/api.mark-video-opened.jsx:5-73 | no shop gives 401, no product id 400, an unparsable id 400, all without writes; otherwise the matching rows are flagged, and the reply is 404 when none matched, else 200 with the number matched; a store failure gives 500 |
| Analytics.TimeFilter | app/routes/app.analytics.jsx:35 | the parameter when non-empty, else "lastWeek" |
| Analytics.Since | app/routes/app.analytics.jsx:36-42 | lastWeek is 7 days back, lastMonth 30 days back, any other value has no lower bound |
| Analytics.SelectActivities | app/routes/app.analytics.jsx:45-50 | exactly the shop's rows inside the window |
| Analytics.SelectKeepsMultiplicity | app/routes/app.analytics.jsx:45-50 | each selected row occurs as often as in the log, and every other row not at all |
| Analytics.SelectAppend | app/routes/app.analytics.jsx:45-50 | selecting from two logs one after the other is selecting from their concatenation, so log order is kept |
| Analytics.WindowsNest | app/routes/app.analytics.jsx:38-49 | every row of the last week is a row of the last month, which is a row of "all" |
| Analytics.FoldActivities | app/routes/app.analytics.jsx:52-64 | the two objects are the tallies of the play keys and of the view keys of the counted rows |
| Analytics.TallyKeys | app/routes/app.analytics.jsx:55-64 | one counter per key, in order of first occurrence |
| Analytics.TallyCounts | app/routes/app.analytics.jsx:55-64 | each counter is the number of rows with its key |
| Analytics.TallySum | app/routes/app.analytics.jsx:55-64 | the counters add up to the number of counted rows |
| Analytics.SplitKey | app/routes/app.analytics.jsx:67-70 | split at the first "__", the halves join back to the key |
| Analytics.SplitKeyRoundTrip | app/routes/app.analytics.jsx:59-68 | splitting a counter key gives back its product id and url |
| Analytics.SplitKeyAsWrittenTruncates | app/routes/app.analytics.jsx:59-68 | as written, a url containing "__" is cut at it |
| Analytics.SplitKeyAsWrittenSpec | app/routes/app.analytics.jsx:59-68 | as written, splitting a counter key gives its product id and the url up to its first "__", which is the whole url iff it holds no "__" |
| Analytics.TruncationExample | app/routes/app.analytics.jsx:59-68 | an embed url whose id holds "__" comes back truncated |
| Analytics.VideoStats | app/routes/app.analytics.jsx:67-70 | the intended conversion: one entry per counter, in order, with the product id and url that the key joins back to, and its count |
| Analytics.VideoStatsAsWritten | app/routes/app.analytics.jsx:67-70 | as written: one entry per counter, in order, holding the two halves `split("__")` keeps and the counter's count |
| Analytics.VideoStatsComplete | app/routes/app.analytics.jsx:55-70 | as intended, every counted play row has an entry with its product, its whole url and its count |
| Analytics.VideoStatsAsWrittenEntry | app/routes/app.analytics.jsx:55-70 | as written, every counted play row has an entry with its product, its url cut at the first "__", and its count |
| Analytics.RoundHalfUp | app/routes/app.analytics.jsx:214 | the nearest integer, halves rounded up |
| Analytics.PlayRate | app/routes/app.analytics.jsx:214 | 0 without views, else the rounded percentage of plays over views |
| Analytics.TotalPlaysIsCounterSum | app/routes/app.analytics.jsx:81-89 | total plays over the as-written entries is the sum of the play counters |
| Analytics.TotalPlaysIsPlayRows | app/routes/app.analytics.jsx:55-89 | total plays over the as-written entries is the number of counted play rows |
| Analytics.TotalViewsIgnoreUnplayed | app/routes/app.analytics.jsx:81-89 | page views of a product without any video entry do not count toward total views |
| Analytics.StoreRate | app/routes/app.analytics.jsx:490 | the rounded store-wide rate, 0 without views |
| Analytics.StoreRateExample | app/routes/app.analytics.jsx:81-89 | 10 plays over 100 views plus 50 views of an unplayed product give 10 |
| Analytics.WalkTagged | app/routes/app.analytics.jsx:108-146 | when the walk finishes, the count is the edges read, the ids are the distinct node ids in order, and the cursors sent are null then each page's last cursor |
| Analytics.CollectIds | app/routes/app.analytics.jsx:145 | adding to the `Set` gives the distinct ids in first-insertion order |
| Analytics.OrElse | app/routes/app.analytics.jsx:211 | the first value when non-empty, else the second |
| Analytics.VideoOfProductIsLastEntry | app/routes/app.analytics.jsx:151-189 | a product is joined with its last video entry |
| Analytics.FirstInfo | app/routes/app.analytics.jsx:190-192 | the first extended-info row of the product, or none when no row matches |
| Analytics.ProductRow | app/routes/app.analytics.jsx:187-223 | the id is the gid without its prefix; plays come from the video map, views from the counters, and the rate from both; the url is the played url, else the info row's; the summary is the info row's AI summary, else the product's; without an info row the highlights, source and main flag are absent |
| Analytics.RowsForAppend | app/routes/app.analytics.jsx:155-226 | the rows of two id lists are the rows of each, concatenated |
| Analytics.FetchBatch | app/routes/app.analytics.jsx:180-224 | one batch gives a row per resolved id, in order |
| Analytics.FetchDetails | app/routes/app.analytics.jsx:149-226 | the batches hold 20 ids each except a shorter last one, and together are the ids in order; the rows are those of all ids in order |
| Analytics.Opportunities | app/routes/app.analytics.jsx:265-281 | exactly the untagged products without a non-blank video that are available |
| Analytics.CollectOpportunities | app/routes/app.analytics.jsx:265-282 | the loop and sort give the opportunities sorted by page views |
| Analytics.OpportunitiesSorted | app/routes/app.analytics.jsx:282 | the result is ordered most viewed first and is a permutation of the qualifying products (ties keep query order by `Sorting.SortDescSpec`) |
| Analytics.ProductsSorted | app/routes/app.analytics.jsx:228-230 | the rows are ordered by plays and then views, descending, and are a permutation of the fetched rows (ties keep fetch order by `Sorting.SortDescSpec`) |
| Analytics.CoverageTenths | app/routes/app.analytics.jsx:296 | tenths of a percent, rounded half up |
| Analytics.FormatTenthsRoundTrip | app/routes/app.analytics.jsx:296 | the printed percentage reads back as the same tenths |
| Analytics.CoverageOf | app/routes/app.analytics.jsx:293-296 | 0 iff there are no products, else text that reads back as the rounded tenths |
| Analytics.CoverageExamples | app/routes/app.analytics.jsx:296 | 37 of 100 gives "37", with the ".0" dropped; 1 of 3 gives "33.3" |
| Analytics.ShopInfos | app/routes/app.analytics.jsx:77-79 | exactly the shop's rows |
| Analytics.Loader | app/routes/app.analytics.jsx:30-301 | data iff the tagged walk finishes; the count, products, totals, opportunities and coverage are the functions above applied to the window's activity, with the as-written video entries |
| Sorting.SortDescSpec | app/routes/app.analytics.jsx:228-230 | the result is sorted larger first, is a permutation, and keeps each rank's elements in input order (stable) |
| Collections.Dedup | app/routes/app._index.jsx:123 | distinct, with the same members, and no longer than the input |
| Collections.DedupPrefix | app/routes/app._index.jsx:123 | the order is the order of first occurrence |
| Collections.FromPairsSpec | app/routes/app._index.jsx:129-131 | a `Map` built from pairs has keys in order of first occurrence, each holding its last value |
| Collections.Put | app/routes/app.analytics.jsx:60-62 | setting a key overwrites it in place or appends it, and leaves the other keys alone |
| Text.ReplaceFirst | app/routes/api.update-metafield.jsx:26 | only the first occurrence is replaced; without one, the text is unchanged |
| Text.LastSegment | app/routes/api.get-products.jsx:34 | the text after the last separator, a suffix without the separator |
| Text.ParsePrinted | app/routes/api.mark-video-opened.jsx:30 | printing a number and parsing it gives the number back |
| Text.TrimEmptyIffBlank | app/routes/app._index.jsx:659 | trim is empty iff the text is blank |
| ProductTable.FindCharge | app/routes/app._index.jsx:62-75 | with a charge id, the first subscription containing it, with NoMatch iff none does; without one, NoPlans iff there are no subscriptions, else the first ACTIVE one, with NoMatch iff none is ACTIVE |
| ProductTable.AllTags | app/routes/app._index.jsx:122 | a tag is listed iff some edge carries it |
| ProductTable.UniqueTags | app/routes/app._index.jsx:122-123 | distinct tags, exactly those carried by some edge |
| ProductTable.CategoryPairs | app/routes/app._index.jsx:125-130 | each pair is keyed by its category's id; a category is listed iff some edge has it |
| ProductTable.UniqueCategoriesSpec | app/routes/app._index.jsx:129-131 | the categories' ids are the distinct ids in order of first occurrence, each with the last category seen for that id |
| ProductTable.Loader | app/routes/app._index.jsx:62-143 | the data are the unique tags and categories, the onboarding flag, the shop and the charge gate |
| ProductTable.VideoIdOf | app/routes/app._index.jsx:665-673 | none iff no position matches; otherwise the 11 characters from `[A-Za-z0-9_-]` after the leftmost matching position and, there, the first matching alternative |
| ProductTable.FindLink | app/routes/app._index.jsx:666-667 | the leftmost match position and the first alternative matching there |
| ProductTable.LinkFound | app/routes/app._index.jsx:666-673 | a prefix, then an id, preceded by text without "y", yields that id |
| ProductTable.StoredEmbedUrlGivesId | app/routes/app._index.jsx:666 | the stored normalised embed url parses back to its video id |
| ProductTable.CheckEditLink | app/routes/app._index.jsx:659-673 | a missing or blank link is rejected first; an invalid link iff no position matches; otherwise the trimmed link and its id |
| ProductTable.CheckPreviewLink | app/routes/app._index.jsx:721-728 | a blank link is rejected; an accepted id is a valid id |
| ProductTable.ValidatePreview | app/routes/app._index.jsx:720-745 | accepted iff the link parses and the lookup answers OK, with the id and the trimmed link; an unparsable link gets the invalid-link message |
| ProductTable.ChecksAgree | app/routes/app._index.jsx:659-728 | the preview check and the edit check accept the same links and extract the same id |
| ProductTable.EditRequest | app/routes/app._index.jsx:679-689 | the request carries the product id, the trimmed link, the id and the mode, and no summary or highlights |
| ProductTable.AcceptedLinkStoresSameId | app/routes/app._index.jsx:663-689 | the video stored for an accepted link parses back to the same id |
| ProductTable.TabFilter | app/routes/app._index.jsx:198-199 | no tab filter iff tab 0 |
| ProductTable.TabsAreStatuses | app/routes/app._index.jsx:272-277 | tabs 1-3 filter on ACTIVE, DRAFT and ARCHIVED |
| ProductTable.FirstWord | app/routes/app._index.jsx:205 | a space-free prefix followed by a space or the end |
| ProductTable.RequestBody | app/routes/app._index.jsx:200-214 | cursor, direction and query are passed; the sort key is the option's first word and reverse iff it contains "desc", and both are absent without a sort option; the status is the tab's when a tab is selected; tag and demoVideo are passed, and vendor and category as the page's strings |
| ProductTable.SortChoicesReachSearch | app/routes/app._index.jsx:413-422 | each of the eight options reaches its sort key, and is reversed iff it is a "desc" option |
| ProductTable.TableFiltersIgnored | app/routes/app._index.jsx:209-210 | the vendor and category sent as strings produce no filter part |
| ProductTable.StackAfter | app/routes/app._index.jsx:221-227 | "next" with a cursor pushes it; "previous" pops one; anything else keeps the stack |
| ProductTable.PreviousCursor | app/routes/app._index.jsx:839 | the second-to-last entry when present and non-empty, else null |
| ProductTable.PreviousUndoesNext | app/routes/app._index.jsx:221-227 | after next, previous targets the page before and restores the stack |
| ProductTable.PreviousKeepsConsistent | app/routes/app._index.jsx:224-227 | going back keeps the stack consistent with the current cursor |
| ProductTable.ReloadKeepsStack | app/routes/app._index.jsx:238-246 | a filter change reloads page one but keeps the stack, which then no longer matches the page shown |
| ProductTable.RefreshPushesAgain | app/routes/app._index.jsx:618 | refreshing page two pushes its cursor again, so "previous" reloads the same page |
| ProductTable.StackAfterReload | app/routes/app._index.jsx:238-246 | a reload to page one leaves an empty stack, consistent with page one |
| ProductTable.RefreshKeepsConsistent | app/routes/app._index.jsx:618 | a refresh that keeps the stack keeps it consistent |
| ProductTable.Pager.HasPrevious | app/routes/app._index.jsx:835 | holds iff the stack is non-empty |
| ProductTable.Pager.FetchProducts | app/routes/app._index.jsx:196-228 | the body is `RequestBody`, the stack becomes `StackAfter`, and the current cursor is the one fetched |
| ProductTable.Pager.Next | app/routes/app._index.jsx:836-837 | pushes the last cursor and keeps the stack consistent |
| ProductTable.Pager.Previous | app/routes/app._index.jsx:838-840 | fetches the previous cursor, which becomes current, and the stack becomes the one the "previous" direction leaves |
| ProductTable.Pager.Reload | app/routes/app._index.jsx:238-246 | as written: the current cursor is reset and the stack kept |
| ProductTable.Pager.Refresh | app/routes/app._index.jsx:618 | as written: the current cursor is pushed again |
| ProductTable.Pager.ReloadFirstPage | app/routes/app._index.jsx:238-246 | a reload empties the stack, so there is no previous page |
| ProductTable.Pager.RefreshShownPage | app/routes/app._index.jsx:618 | a refresh refetches the current page and keeps the stack |
| ProductTable.CategoryLabel | app/routes/app._index.jsx:297-301 | the name of the category with the id, or "Unknown" when none matches |
| ProductTable.BuildAppliedFilters | app/routes/app._index.jsx:287-325 | the pushes produce the chips in the fixed order |
| ProductTable.AppliedFiltersSpec | app/routes/app._index.jsx:287-325 | the chips have distinct keys, and each key is present iff its filter is set |
| ProductTable.InventoryLabel | app/routes/app._index.jsx:862-872 | untracked gives "Not Tracked"; "Out of Stock" iff tracked and the quantity is 0; "-" iff there is no variant or the quantity is missing |
| ProductTable.InStockLabel | app/routes/app._index.jsx:870-871 | a positive tracked quantity N gives "N In Stock" |
| ProductTable.VideoSourceLabel | app/routes/app._index.jsx:873-878 | AUTO iff "Found automatically", MANUAL iff "Added manually", anything else iff "No video" |
| ProductTable.DemoColumn | app/routes/app._index.jsx:879 | the metafield value when truthy, else "No video" |
| ProductTable.SourceLabelsOfRoutes | app/routes/app._index.jsx:873-878 | the sources that discovery and the manual edit write get their labels |
| ProductTable.GenerationIds | app/routes/app._index.jsx:436-439 | the last "/" segment of each id, in order |
| ProductTable.GidGivesNumber | app/routes/app._index.jsx:436-439 | a product gid gives back its numeric id |

## Findings

| source | as written | input that shows it | evidently intended | confidence | as-written member | corrected member |
|---|---|---|---|---|---|---|
| app/routes/app.analytics.jsx:59-68 | the counter key `${pid}__${url}` is split with `split("__")`, keeping only the second piece as the url | a play of `https://youtube.com/embed/ab__cdefghi` (a valid video id) is reported under `https://youtube.com/embed/ab` | split at the first "__" and keep the rest, so the url comes back whole | high, not executed | Analytics.SplitKeyAsWrittenTruncates, Analytics.TruncationExample, Analytics.SplitKeyAsWrittenSpec, Analytics.VideoStatsAsWritten, Analytics.VideoStatsAsWrittenEntry, Analytics.Loader | Analytics.SplitKey, Analytics.SplitKeyRoundTrip, Analytics.VideoStats, Analytics.VideoStatsComplete |
| app/routes/api.get-products.jsx:22-32 | vendor and category filters are honoured only as arrays | the product table sends them as strings (app/routes/app._index.jsx:209-210), so choosing vendor "Acme" adds no `vendor:` term and the list is unfiltered | a string is the one-element list | high, not executed | GetProducts.FilterValuesAsWritten, GetProducts.StringFiltersDropped, GetProducts.StringFiltersNotSent, GetProducts.BuildFilterParts, GetProducts.Action, ProductTable.TableFiltersIgnored | GetProducts.FilterValues, GetProducts.SingleIsOneElementArray |
| app/routes/app._index.jsx:238-246 | a filter or sort change fetches the first page with a null cursor, which leaves the cursor stack as it was | on page three (stack `[c1, c2]`), changing the vendor shows page one while "previous" stays enabled and goes to `c1` | a reload starts a new walk with an empty stack | high, not executed | ProductTable.ReloadKeepsStack, ProductTable.Pager.Reload | ProductTable.StackAfterReload, ProductTable.Pager.ReloadFirstPage |
| app/routes/app._index.jsx:618 | after generating, deleting or editing a video (lines 618, 647 and 702), the page is refreshed with `fetchProducts(currentCursor, "next")`, which pushes the current cursor again | on page two (stack `[c]`), an edit makes the stack `[c, c]`; "previous" then reloads page two | refetch the page shown without touching the stack | high, not executed | ProductTable.RefreshPushesAgain, ProductTable.Pager.Refresh | ProductTable.StackAfterRefresh, ProductTable.RefreshKeepsConsistent, ProductTable.Pager.RefreshShownPage |

## Where the code differs from what a reader might expect

The model follows the code in each case.
- **Store play rate.** One might expect (10 plays, 100 views) and (0 plays, 50 views) to give 10 / 150, that is 7 %. The code adds page views only for products with a play counter, so the rate is 10 % (`Analytics.StoreRateExample`).
- **URL normalisation.** One might expect normalising twice to equal normalising once. `replace("www.", "")` removes only the first occurrence, so it does not (`UpdateMetafield.NormalizeNotIdempotent`).
- **Link regex.** One might expect `watch?v=`, `embed/` or `shorts/` to be accepted after any host. The regex requires `youtube.com/` right before them (`ProductTable.LINK_PREFIXES`).
- **Discovery abort status.** One might expect a fixed error code. A discovery abort answers with the upstream HTTP status (`GetVideo.Action`).

## Left out

- Rendering (React, Polaris, App Bridge), modals, toasts, the 400 ms search debounce, the analytics page's client-side slicing, `navigateToSelect` and `handleBuyPlan`: these are UI.
- Remote calls (Shopify Admin GraphQL, the oEmbed fetch, the discovery webhook, the summarizer): these are inputs. Their schemas, transport, URL encoding and JSON encoding are not modelled. That includes an oEmbed answer that is not JSON, and the `errors` field of the product search answer.
- Prisma is replaced by the table classes. `findMany` returns rows in table order, which Prisma does not promise.
- Concurrency of `data.forEach(async ...)` in discovery: the loop is modelled sequentially. Which pushes land before the response is built is not captured.
- Time: the 500 ms inter-batch pause, JavaScript `Date`, time zones and daylight saving. Instants are milliseconds and a day is 86 400 000 ms.
- Analytics.CoverageTenths: binary floating point is not modelled. `toFixed(1)` and `Math.round` are exact round-half-up on integers.
- Analytics.RoundHalfUp, Analytics.PlayRate, Analytics.StoreRate: the percentage is computed on exact rationals, while the route multiplies binary doubles before `Math.round`. They differ where the product of doubles falls just below a half: 201 plays over 200 views gives `(201 / 200) * 100 = 100.49999999999999` and 100 in the route, but 100.5 and 101 in the model.
- Text.ParseNat: models `BigInt` on decimal digits only. Surrounding whitespace, signs and hex forms that `BigInt` also accepts are treated as failures, and so are the empty and all-blank strings, which `BigInt` reads as 0n.
- Text.Lower, Text.Upper: ASCII only. The strings compared ("youtubevideo", tab names) are ASCII.
- Prompts.FormatPrompt: `$` patterns in replacement values are not modelled. The values are substituted literally.
- Pagination.WalkFrom: a finite list of pages. A walk that runs out of pages while the API still claims more is reported as unfinished, and the loaders then give no data.
- UpdateMetafield.Select: a summarizer answer whose summary is null is folded into absent. The later upsert then keeps the stored `aiSummary` of an existing row, where the store would write null.
- UpdateMetafield.Action: store errors from the table writes after a successful product update are not modelled; the route would answer "Invalid Url" after the Admin writes.
- ExtendedInfo.UpsertDiscovered: the discovery upsert passes `where: { productId }` with a plain string, and `productId` alone is not a unique key of the table (the manual edit keys on product, shop and url, and several rows per product are kept). The model reads it as "update the product's first row, of any shop, else append"; that key is the model's choice. The likely outcome that the store rejects the call, unnoticed because the `forEach(async ...)` is not awaited, is not modelled: every successful item stores its row. GetVideo.Store, GetVideo.Partition, GetVideo.StoredRecordIsAuto and ExtendedInfo.InfoTable.UpsertDiscoveredRow inherit this reading.
- DeleteMetafield.Action: transport failures of the Admin calls are folded into the error sets. The route reads only the top-level `errors` of `metafieldsDelete`, never its `userErrors`; a delete answering only `userErrors` (metafields kept, loop continuing to the retag) is not a separate input, so an id outside the delete errors always loses its four video metafields, and `DeleteMetafield.CleanAllSpec` rests on that.
- GetProducts.Action: `direction` is read but unused by the route, so the model ignores it. Keys inherited from `Object.prototype` in the sort-key lookup are not modelled.
- ProductTable.CheckEditLink: the `match[1].length !== 11` test is always false after a match, so it is not modelled separately.
- ProductTable.GenerationIds: the choice between explicit ids and the current selection (`Array.isArray(ids)`) is not modelled; the ids are an input.
- ProductTable.ValidatePreview: the oEmbed lookup is an input (`Lookup`).
- ProductTable.RequestBody: `demoVideo` left undefined is modelled as absent.
- The app-installation onboarding write (`app.welcome.jsx`), the filesystem backup (`app.additional.jsx`), the privacy page, the product carousel route and `shopify.server.js` are not part of this model.
