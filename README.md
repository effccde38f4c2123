# devs-qr: single-use QR redemption and entitlement listing, in Dafny

This project models the two request handlers of devs-qr.

- `api/qr.js` redeems a printed QR code. It reads the `code` query parameter and trims it. It looks up the code's row in the `qr_codes` registry. A row whose `first_scanned_at` is already set gets the blocked page (410). A first scan appends one record to the `qr_scans` ledger, marks the row `used` at the current time, and redirects (302) to the fixed account page `https://www.devs-store.it/pages/account`. A blank code gets 400. An unknown code, or a failed lookup, gets 404. Errors from the ledger insert or the row update are logged and do not change the response.
- `api/unlocks.js` lists what a customer has unlocked. It takes the customer's scans and collects the distinct truthy code ids. It selects those codes' rows and collects the distinct truthy Shopify product ids. It fetches those products from the Shopify Admin API and projects each one to `{id, handle, title, image, online_store_url}`, with fallback chains for the two URLs. A failed select, a non-ok Shopify answer and every thrown error each give 500 with their own message.

Modules:

- `Js` (js.dfy) holds optional values and JavaScript truthiness (`null`, `0` and `""` are falsy), with `a || b` and `s || null`.
- `Text` (text.dfy) holds `String.prototype.trim`, using the ECMAScript whitespace and line-terminator code points, and `split(',')[0]`.
- `Sequences` (sequences.dfy) holds `filter`, `[...new Set(s)]`, and lemmas on membership, repeats and first-occurrence order.
- `Redemption` (redemption.dfy) covers `api/qr.js`. `Handle` is the specification: a function from the two tables and the request to the response and the new tables. The class `Store` holds the registry (a `map` from code to row) and the ledger (a `seq` of scan records). Its method `Redeem` carries out the handler step by step and is proved equal to `Handle`. The lemmas state the handler's properties about `Handle`. The registry update is an unconditional write to every row with the scanned row's `id` (`api/qr.js:121-127`). Every first scan redirects to the one constant `ACCOUNT_URL` (`api/qr.js:9`, `api/qr.js:135`). A blocked scan writes nothing to either table.
- `Entitlements` (entitlements.dfy) covers `api/unlocks.js` as pure functions. The store and Shopify are a `Backend`: one function per query, mapping the query's argument to its answer. The handler returns its response together with the list of queries it made. This makes "before any store access" a statement that the list is empty, and it makes visible which ids each query receives.
- `Journey` (journey.dfy) links the two handlers. A customer's first scan puts the code's id into that customer's `qrIds`.

Inputs that stand for I/O:
- The store calls of `api/qr.js` become a `Faults` value: lookup fails, insert fails, update fails. A failed write changes nothing.
- The current time is the parameter `now`, a non-empty string.
- The request's query parameters, headers and socket address are fields of `ScanRequest`.
- The environment variables of `api/unlocks.js` are a `Config`.
- The Shopify request's outcome is an `Upstream` value. It is one of: `fetch` throws; a non-ok answer, whose `text()` may throw; a body that fails to parse; a `null` body; or a parsed body, whose `products` array may hold `null` or `undefined` entries.

## Model

| member | source | states |
|---|---|---|
| `Text.Trim` | api/qr.js:13 | `trim()` returns an infix of its input that neither starts nor ends with a trim character; what it cuts off on each side is entirely trim characters |
| `Text.TrimEmptyIff` | api/qr.js:13-17 | the trimmed code is empty (the `!code` test) exactly when the parameter held only whitespace or line terminators |
| `Text.SplitHead` | api/qr.js:21 | `split(',')[0]` is the prefix of the header up to its first comma, holds no comma, and is the whole header when there is no comma |
| `Js.Truthy` | api/unlocks.js:48 | no contract of its own; the definition of `Boolean` on a scalar: `null`, `0` and `""` are falsy and every other value is truthy; its use in `filter(Boolean)` is stated by `Entitlements.DistinctTruthySpec` |
| `Js.Present` | api/qr.js:20-29 | no contract of its own; the truthiness of an optional string (absent and `""` are falsy) that every or-fallback in both handlers tests; its consequences are stated by `Js.OrNull`, `Redemption.CustomerField` and `Redemption.ClientIp` |
| `Js.Or` | api/qr.js:20-23 | no contract of its own; the definition of the JavaScript or on optional strings (the first when it is a non-empty string, else the second); its consequences are stated by `Js.OrNull`, `Redemption.ClientIp`, `Entitlements.ImageOf` and `Entitlements.StoreUrlOf` |
| `Js.OrNull` | api/qr.js:25 | `user-agent` or null: the value when it is a non-empty string, otherwise null |
| `Redemption.CustomerField` | api/qr.js:28-29 | a customer field is null exactly when it is absent or blank; otherwise it is the trimmed value, which is non-empty |
| `Redemption.ClientIp` | api/qr.js:20-23 | the ip is the non-empty first comma segment of `x-forwarded-for`; failing that, the non-empty remote address; otherwise null; it is never an empty string |
| `Redemption.CodeOf` | api/qr.js:13 | the trimmed code is empty (the `!code` test) exactly when the parameter is absent or holds only trim characters |
| `Redemption.Response.Status` | api/qr.js:15-136 | the redirect is 302 and every other response (400, 404, 410) is a 4xx client error |
| `Redemption.Scanned` | api/qr.js:44 | no contract of its own; the one-time-use test: `first_scanned_at` is truthy, that is present and non-empty; its consequences are stated by `Redemption.UsedCodeBlocked`, `Redemption.Handle` and `Redemption.ScanTimeSetOnce` |
| `Redemption.ScanOf` | api/qr.js:105-112 | no contract of its own; the definition of the inserted record (the row's id, the trimmed-or-null customer id and email, the client ip, the user agent or null, a null `extra`); that a first scan appends exactly it is stated by `Redemption.FirstScanLogged` |
| `Redemption.MarkUsed` | api/qr.js:119-127 | the update keeps the set of codes; every row with the scanned id gets `first_scanned_at = now` and `status = 'used'`; every other row is unchanged |
| `Redemption.Handle` | api/qr.js:12-137 | a request redirects exactly when its trimmed code is non-blank, the lookup works, the code has a row and that row has no scan time; the redirect always goes to the account URL; every other request leaves both tables unchanged |
| `Redemption.Store.Redeem` | api/qr.js:12-137 | the imperative handler produces exactly the response and new registry and ledger that the specification `Handle` gives for the old tables |
| `Redemption.BlankCodeRejected` | api/qr.js:13-17 | a blank code gives 400 with both tables unchanged, and the response is the same whatever the tables hold (they are not read) |
| `Redemption.UnknownCodeRejected` | api/qr.js:32-41 | a code with no row, or a failed lookup, gives 404 with both tables unchanged |
| `Redemption.UsedCodeBlocked` | api/qr.js:44-102 | a row whose `first_scanned_at` is truthy gives 410; no scan is logged and no row changes |
| `Redemption.FirstScanLogged` | api/qr.js:104-116 | a first scan appends exactly one record (row id, trimmed-or-null customer id and email, ip, user agent, `extra` null) unless the insert fails, in which case the ledger is unchanged |
| `Redemption.FirstScanMarksRow` | api/qr.js:118-132 | a first scan marks the scanned code's row used at `now` and leaves rows with other ids unchanged, unless the update fails, in which case the registry is unchanged; the set of codes never changes |
| `Redemption.FirstScanChangesOnlyItsRow` | api/qr.js:121-127 | when ids are unique, no row other than the scanned code's own changes |
| `Redemption.OutcomeIgnoresWriteErrors` | api/qr.js:114-136 | the response does not depend on the insert or update errors, or on the time; a first scan always redirects to the account URL |
| `Redemption.LedgerAppendOnly` | api/qr.js:104-116 | the ledger only grows, keeping its old records as a prefix, by at most one record per request |
| `Redemption.SecondScanBlocked` | api/qr.js:44-127 | after a first scan with working writes has redirected, a second request for the same code gives 410 and changes nothing |
| `Redemption.HandlePreservesInvariants` | api/qr.js:119-127 | a run keeps "a row is used exactly when it has a scan time", keeps ids unique, and keeps the set of codes |
| `Redemption.ScanTimeSetOnce` | api/qr.js:44-127 | when ids are unique, a row that already has a scan time is left unchanged by any request |
| `Redemption.RedeemTwice` | api/qr.js:12-137 | through the `Store` object, two scans of a fresh code give the redirect and then 410; the ledger gains exactly the one record of the first scan; the row keeps the first scan's time |
| `Sequences.Filter` | api/unlocks.js:48 | `filter` keeps exactly the elements that pass the test |
| `Sequences.Dedup` | api/unlocks.js:48 | `[...new Set(s)]` has no repeats and holds exactly the values of `s` |
| `Sequences.DedupOrder` | api/unlocks.js:48 | the values of `[...new Set(s)]` come in order of their first occurrence in `s` |
| `Sequences.FilterOrder` | api/unlocks.js:48 | filtering keeps the relative order of the first occurrences of the values it keeps |
| `Entitlements.DistinctTruthy` | api/unlocks.js:48 | no contract of its own; the definition of `[...new Set(ids.filter(Boolean))]` as `Dedup` after `Filter`; its properties are stated by `Entitlements.DistinctTruthySpec` |
| `Entitlements.DistinctTruthySpec` | api/unlocks.js:66-70 | `[...new Set(ids.filter(Boolean))]` has no repeats; holds every truthy id and only truthy ids of the input; is ordered by first occurrence; this is the rule for both `qrIds` and `productIds` |
| `Entitlements.QrIds` | api/unlocks.js:48 | `qrIds` is `DistinctTruthy` of the scans' `qr_code_id`s, so it is in first-occurrence order by `Entitlements.DistinctTruthySpec`; it has no repeats and holds exactly the truthy `qr_code_id`s of the scans |
| `Entitlements.ProductIds` | api/unlocks.js:66-70 | `productIds` is `DistinctTruthy` of the codes' `shopify_product_id`s, so it is in first-occurrence order by `Entitlements.DistinctTruthySpec`; it has no repeats and holds exactly the truthy `shopify_product_id`s of the codes |
| `Entitlements.ImageOf` | api/unlocks.js:102 | `image` is `p.image.src` if truthy, else `p.images[0].src` if truthy, else null |
| `Entitlements.StoreUrlOf` | api/unlocks.js:103 | `online_store_url` is the product's own if truthy, else the storefront URL plus the handle if the handle is truthy, else null |
| `Entitlements.Project` | api/unlocks.js:98-104 | a summary keeps the product's id, handle and title; its `image` and `online_store_url` are those of the two fallback chains; its image is never an empty string |
| `Entitlements.ProjectAll` | api/unlocks.js:98-104 | the result has the same length and order as `products`, one projected summary per product |
| `Entitlements.ProductsOf` | api/unlocks.js:95 | no contract of its own; the definition of `Array.isArray(data.products) ? data.products : []`; its use is stated by `Entitlements.FetchStage` |
| `Entitlements.Objects` | api/unlocks.js:98-101 | the entries of `products` are all objects exactly when none is `null` or `undefined` (on which `p.id` throws), and then entry i is the i-th object, in order |
| `Entitlements.Error.Message` | api/unlocks.js:25-110 | every error body carries a non-empty `error` message |
| `Entitlements.Response.Status` | api/unlocks.js:25-110 | no contract of its own; the definition of the statuses: a listing is 200, a missing customer id is 400, every other error is 500; what causes 400 is stated by `Entitlements.ReplyStatus` |
| `Entitlements.ListUnlocks` | api/unlocks.js:25-110 | the handler queries nothing unless the trimmed customer id is non-blank and the Shopify domain and token are both set; it makes at most three queries |
| `Entitlements.Ready` | api/unlocks.js:25-34 | no contract of its own; the two early-exit tests passed: the trimmed customer id is non-blank and the Shopify domain and token are both truthy; its consequences are stated by `Entitlements.ListUnlocks` and the stage lemmas |
| `Entitlements.AfterScans` | api/unlocks.js:36-110 | after the scans query, the calls made so far stay at the head of the list and at most two more follow; a non-empty listing follows both; an error is only one of the scans, codes, Shopify or unexpected errors |
| `Entitlements.AfterCodes` | api/unlocks.js:55-110 | after the codes query, the calls made so far stay at the head of the list and at most the Shopify request follows; a non-empty listing follows it; an error is only one of the codes, Shopify or unexpected errors |
| `Entitlements.AfterFetch` | api/unlocks.js:76-110 | after the Shopify request no further query is made, and an error is only the Shopify failure or the unexpected error |
| `Entitlements.BlankCustomerRejected` | api/unlocks.js:25-29 | a blank customer id gives 400 `Missing customerId`, and no query is made |
| `Entitlements.MissingConfigRejected` | api/unlocks.js:31-34 | a missing or empty Shopify domain or token gives 500 `Shopify not configured`, and no query is made |
| `Entitlements.MessagesDistinct` | api/unlocks.js:25-110 | the six error messages differ from one another |
| `Entitlements.ScansStage` | api/unlocks.js:36-53 | the first query selects the scans of the trimmed customer id; a failed select gives 500 `Failed to fetch scans`, and scans with no truthy `qr_code_id` give `[]`, in both cases with no further query |
| `Entitlements.CodesStage` | api/unlocks.js:55-74 | when there are code ids, the second query selects the codes of exactly `qrIds`; a failed select gives 500 `Failed to fetch codes`, and codes with no truthy `shopify_product_id` give `[]`, in both cases without calling Shopify |
| `Entitlements.FetchStage` | api/unlocks.js:76-106 | when there are product ids, Shopify is asked for exactly `productIds`; a non-ok answer gives 500 `Failed to fetch products from Shopify`, unless reading its text throws; a thrown `fetch`, a body that fails to parse, a `null` body, a throwing `text()` and a `null` or `undefined` entry in `products` each give 500 `Unexpected error`; otherwise the listing is the projection of every product returned, in order, and `[]` when `products` is not an array |
| `Entitlements.ReplyStatus` | api/unlocks.js:25-110 | the handler answers 400 exactly when the customer id is blank after trimming; it answers `Shopify not configured` exactly when the customer id is given and the domain or token is missing; a non-empty listing comes only after all three queries |
| `Journey.CustomerScans` | api/unlocks.js:38-41 | the selected rows are exactly the `qr_code_id`s of the ledger records whose customer id is the given one: each such record appears, and each row comes from such a record |
| `Journey.RedeemedCodeListed` | api/unlocks.js:37-48 | after a customer's first scan of a code, with the ledger insert working, the code's (truthy) id is among the `qrIds` of that customer's scans |

## Left out

- Supabase client construction, environment-variable reading and the `fetch` to the Shopify Admin API are foreign I/O; their answers are inputs (`Faults`, `Backend`, `Config`).
- The URL of the Shopify request (`join(',')`, `encodeURIComponent`, the API version) is left out, because it is library string building; the model records only the id list the request is made for.
- The OPTIONS preflight, the CORS headers and `console.error` logging are transport and logging, so they are left out.
- The HTML of the 410 page and the plain-text bodies are presentation; only the response kind and status are modelled.
- `new Date().toISOString()` is left out; `now` is a parameter, assumed non-empty as `toISOString` guarantees.
- Concurrent scans are not modelled. The source does a read followed by an unconditional write (`api/qr.js:44`, `api/qr.js:121-127`), so a single-winner claim would not hold of it.
- Query parameters given more than once (arrays, on which `.trim()` throws) are not modelled; a parameter is absent or one string.
- A partially applied failed write is not modelled; a store error on insert or update leaves its table as it was.
- The store's row order is not modelled; the scans and codes come back in the order the `Backend` gives them, and `qrIds` and `productIds` follow that order.
- A thrown error from the Supabase selects in `api/unlocks.js` is not modelled; those calls report errors through their `error` field, which is modelled.
- Product fields: `id` is modelled as a scalar and `title` as an optional string, both passed through unchanged. A non-string `handle` or `src` is not modelled.
- Floating-point ids and `NaN` are left out; a scalar is `null`, an integer or a string.
