# Webhook log API, receiver signature check and checkout SDK — a Dafny model

This project models three small pieces of a payment gateway that notifies
merchants of payment events by signed webhooks:

- **The webhook-log API** (`backend/src/routes/webhooks.js`). `GET /` lists
  the authenticated merchant's webhook logs newest first. It pages them with
  `limit` (default 10) and `offset` (default 0), reports the total and
  projects each row to a fixed set of fields. `POST /:id/retry` checks that
  the log exists and belongs to the merchant. It then resets `attempts`,
  `status` and `next_retry_at`, enqueues one `deliver-webhook` job and
  replies `{id, status: 'pending', message}`. Otherwise it replies 404
  `NOT_FOUND_ERROR`, or 500 `SERVER_ERROR` when the database cannot read the
  path text as an id. Both endpoints are pure functions here. They work over
  an in-memory store (`seq<LogEntry>`) and the queue's job list
  (`seq<Job>`), and the caller's merchant id is a parameter.
- **The test merchant's receiver** (`test-merchant/webhook-receiver.js`). It
  first formats the body's `timestamp` for its log. A timestamp that
  coerces to NaN (missing, a non-numeric string, an object) or falls outside
  the `Date` range makes that formatting throw, and the framework answers
  500. Values such as `null`, `""` or `true` coerce to numbers and format
  without error. Otherwise the receiver accepts the
  webhook with 200 `OK` exactly when the `x-webhook-signature` header equals
  the hex HMAC-SHA256 of the re-serialised body under the shared secret
  `whsec_test_abc123`, and answers 401 `Invalid signature` when it does not.
- **The checkout SDK's control logic**
  (`checkout-widget/src/sdk/PaymentGateway.js`). This covers constructor
  validation and defaults and the iframe address. It also covers how `open`,
  `close` and `handleMessage` change the modal reference, the number of SDK
  overlays on the page and the body's `overflow`. Callback invocations are
  recorded in a trace.

Modules: `Wrappers` (Option, Result), `WebhookLog` (the `webhook_logs` row,
its listing projection and the retry reset), `QueueConfig` (the delivery job
and the queue's default job options from `backend/src/config/queue.js`),
`LogOrdering` (`ORDER BY created_at DESC`), `WebhookRoutes` (the two
endpoints), `WebhookReceiver` and `PaymentGateway`.

Modelling choices:

- `parseInt(x) || d` takes its input already parsed, as `Option<int>`.
  `None` stands for NaN. NaN and 0 give the default, and every other value
  passes through, negatives included.
- PostgreSQL rejects a negative `LIMIT` or `OFFSET`. A negative parameter
  therefore ends in the handler's catch block, and `List` returns
  `ServerError("SERVER_ERROR", ...)` for it.
- SQL gives no order to rows with equal `created_at`, and the database may
  order ties differently for each query. `List` therefore takes the order of
  its query as a parameter, which may be any newest-first permutation of the
  caller's rows (`ListingOrder`). The page is the LIMIT/OFFSET slice of that
  order. Two queries with different paging may use different orders, so
  nothing is promised about pages overlapping or skipping tied rows.
  `Ordered`, an insertion sort, shows that such an order always exists.
- The retry `UPDATE` is keyed by `id` alone, as in the source. The model
  therefore resets every row with that id. When ids are unique (the primary
  key), exactly the caller's row changes (`RetryTouchesOnlyTarget`).
- The retry passes the path text to the database, which casts it to the type
  of the `id` column. Which texts that cast accepts is a parameter of
  `Retry` (`admits`); PostgreSQL rejects a NUL character for every text
  type. A rejected text ends in the catch block, so `Retry` replies 500 and
  changes nothing.
- HMAC-SHA256, `JSON.stringify` and the numeric reading of the body's
  `timestamp` are function parameters (`hmacHex`, `serialize`,
  `timestampOf`), so every receiver property holds for any such functions.
- SDK callbacks are opaque handles (`Handler`). A missing callback becomes
  `NoOp`. A message whose `event.data` is `null` or `undefined` makes the
  destructuring throw before any effect, so the session is unchanged.

Properties the code does not have, and the model does not claim:

- The signature comparison is plain `!==` and is not constant-time.
- The receiver verifies its own re-serialisation of the parsed body, not
  the raw bytes it received.
- The retry's select, update and enqueue are separate steps. Nothing
  serialises retries per log or keeps at most one job in flight per log.

## Model

| member | source | states |
|---|---|---|
| WebhookRoutes.ParamOr | backend/src/routes/webhooks.js:13-14 | an absent (NaN) or zero parameter gives the default; any other parsed value, negative included, is used unchanged |
| WebhookRoutes.ParamOrDefaulting | backend/src/routes/webhooks.js:13-14 | the parameter resolves to the default exactly when it is absent, zero or equal to the default; otherwise it is the parsed value |
| WebhookRoutes.Owned | backend/src/routes/webhooks.js:25-28 | the merchant filter returns no more rows than the store holds (its contents are stated by OwnedMultiplicity and OwnedMember) |
| WebhookRoutes.OwnedMultiplicity | backend/src/routes/webhooks.js:25-28 | the merchant filter keeps each of the caller's rows exactly as often as it occurs in the store and drops every other merchant's rows |
| WebhookRoutes.OwnedMember | backend/src/routes/webhooks.js:25-28 | every filtered row is a stored row owned by the caller |
| WebhookRoutes.TotalCountsOwnedRows | backend/src/routes/webhooks.js:17-22 | the count equals the number of store positions whose merchant is the caller |
| WebhookRoutes.TotalIndependentOfPaging | backend/src/routes/webhooks.js:17-22 | `total` is the same for every limit and offset and counts the caller's rows |
| LogOrdering.Insert | backend/src/routes/webhooks.js:29 | inserting a row into a newest-first sequence keeps it newest-first and adds exactly that row |
| LogOrdering.SortNewestFirst | backend/src/routes/webhooks.js:29 | the result is a permutation of the input with non-increasing `created_at` |
| LogOrdering.SliceNewestFirst | backend/src/routes/webhooks.js:29-30 | any LIMIT/OFFSET slice of a newest-first sequence is newest-first |
| WebhookRoutes.Ordered | backend/src/routes/webhooks.js:25-29 | a listing order exists for every store: a newest-first permutation of the caller's rows |
| WebhookRoutes.Views | backend/src/routes/webhooks.js:35-43 | the mapped rows are, position by position, the projections of the fetched rows |
| WebhookRoutes.Page | backend/src/routes/webhooks.js:30-43 | the page has min(limit, rows left after offset) rows, row i is the projection of position offset+i, and it stays newest-first |
| WebhookRoutes.List | backend/src/routes/webhooks.js:11-56 | a listing succeeds exactly when limit and offset are non-negative (otherwise 500 SERVER_ERROR); it echoes the limit and offset used, reports the caller's row count as total, and returns at most limit projected rows, newest first, starting at position offset of the order the database chose for this query (any newest-first permutation of the caller's rows) |
| WebhookRoutes.ListedRowsAreOwned | backend/src/routes/webhooks.js:25-43 | every listed row is the projection of a stored row owned by the caller |
| WebhookRoutes.DefaultFirstPage | backend/src/routes/webhooks.js:13-31 | with no parameters the first min(10, total) of the caller's rows are listed with limit 10 and offset 0 |
| WebhookLog.View | backend/src/routes/webhooks.js:34-43 | a listed row carries the log's id, event, status, attempts, created_at, last_attempt_at and response_code, and has no field for anything else |
| WebhookLog.ViewHidesUnlistedColumns | backend/src/routes/webhooks.js:35-43 | changing a log's payload, owner or next retry time does not change its listed row, so neither payload nor merchant id leaks |
| WebhookLog.Reset | backend/src/routes/webhooks.js:85-90 | a reset log has attempts 0, status pending and no next retry; its id, owner, event, payload, last attempt, response code and creation time are unchanged |
| WebhookLog.ResetIdempotent | backend/src/routes/webhooks.js:85-90 | resetting twice equals resetting once |
| WebhookLog.ResetFixesExactlyFresh | backend/src/routes/webhooks.js:85-90 | a reset leaves a log unchanged if and only if it is already pending, untried and unscheduled |
| WebhookRoutes.ResetById | backend/src/routes/webhooks.js:85-90 | the update resets every row whose id matches, whatever its merchant, and leaves every other row as it was |
| WebhookRoutes.DeliveryJob | backend/src/routes/webhooks.js:93-98 | the job goes to the webhook-delivery queue under the name deliver-webhook with the default options (3 attempts, exponential backoff from 2000 ms) and carries the log's id, merchant, event and payload |
| WebhookRoutes.DeliveryJobIgnoresReset | backend/src/routes/webhooks.js:85-98 | the job built from a log equals the one built from its reset, so the reset before the enqueue does not change what is delivered |
| WebhookRoutes.FindOwned | backend/src/routes/webhooks.js:68-73 | the lookup finds nothing exactly when no row has both the id and the caller's merchant, and whatever it finds has both |
| WebhookRoutes.Retry | backend/src/routes/webhooks.js:63-114 | retry replies 500 `{SERVER_ERROR, 'Internal server error'}` with store and queue untouched exactly when the database's id column rejects the path text (the first query throws into the catch block); otherwise it replies 404 `{NOT_FOUND_ERROR, 'Webhook log not found'}` with store and queue untouched exactly when the caller owns no log with that id; otherwise it replies 200 `{id, pending, 'Webhook retry scheduled'}`, resets the rows with that id, keeps every other row, and appends exactly one job, the DeliveryJob of the caller's log (queue webhook-delivery, name deliver-webhook, default options, the log's id, merchant, event and payload) |
| WebhookRoutes.RetryTouchesOnlyTarget | backend/src/routes/webhooks.js:85-90 | with unique ids a successful retry changes only the caller's row, and no other merchant's row |
| WebhookRoutes.RetryKeepsUniqueIds | backend/src/routes/webhooks.js:85-90 | a retry keeps ids unique |
| WebhookRoutes.RetryOfForeignLogNotFound | backend/src/routes/webhooks.js:68-80 | retrying another merchant's stored log gives 404 NOT_FOUND_ERROR and changes neither store nor queue |
| WebhookRoutes.RetryIdempotent | backend/src/routes/webhooks.js:85-98 | on a store with unique ids (the primary key), a second retry gives the same reply and log store as the first, and enqueues one more identical job |
| WebhookRoutes.FindOwnedStable | backend/src/routes/webhooks.js:68-71 | the lookup depends only on ids and owners, which a reset keeps |
| WebhookRoutes.RetryOfFreshLogKeepsStore | backend/src/routes/webhooks.js:85-98 | retrying an already pending, untried, unscheduled log leaves the store unchanged and still enqueues one job |
| WebhookReceiver.HandleWebhook | test-merchant/webhook-receiver.js:9-34 | the reply is 200 OK, 401 Invalid signature or 500; it is 500 exactly when the body's timestamp cannot be formatted as a date, and 200 exactly when the timestamp formats and the header equals the HMAC of the serialised body under the shared secret; a missing header is never accepted |
| WebhookReceiver.TimestampFormats | test-merchant/webhook-receiver.js:15 | formatting succeeds exactly for a timestamp that is not NaN and lies within ±8.64·10^12 seconds of the epoch, the JavaScript Date range |
| WebhookReceiver.UnformattableTimestampFails | test-merchant/webhook-receiver.js:15-23 | a body whose timestamp is NaN or outside the Date range gets 500 whatever its signature, because line 15 throws before the check |
| WebhookReceiver.SignThenVerify | test-merchant/webhook-receiver.js:15-23 | a body with a formattable timestamp and a header signed with the shared secret over the same serialisation is accepted |
| WebhookReceiver.WrongSignatureRejected | test-merchant/webhook-receiver.js:15-27 | with a formattable timestamp, any header other than the expected digest, a missing one included, gets 401 |
| WebhookReceiver.OtherSecretRejected | test-merchant/webhook-receiver.js:7-27 | with a formattable timestamp, a signature made under a secret whose digest differs gets 401 |
| WebhookReceiver.VerdictDependsOnSerialisation | test-merchant/webhook-receiver.js:11-23 | bodies with the same serialisation and timestamp get the same reply to the same header |
| PaymentGateway.New | checkout-widget/src/sdk/PaymentGateway.js:7-27 | construction fails with 'API key is required' when options or key is missing or empty, otherwise with 'Order ID is required' when the order id is; on success key and order id are kept verbatim, missing callbacks become no-ops, the checkout URL defaults to http://localhost:3001 and no modal is open |
| PaymentGateway.IframeUrl | checkout-widget/src/sdk/PaymentGateway.js:89 | the template string is the checkout URL, then `/checkout?order_id=`, then the order id verbatim, then `&embedded=true` |
| PaymentGateway.IframeUrlRoundTrip | checkout-widget/src/sdk/PaymentGateway.js:89 | the order id can be read back from the line-89 template string, and only the template string built from it yields it |
| PaymentGateway.Open | checkout-widget/src/sdk/PaymentGateway.js:32-112 | open references a modal whose iframe `src` template string is checkoutUrl + '/checkout?order_id=' + orderId + '&embedded=true', attaches one more overlay, sets overflow to 'hidden' and runs no callback |
| PaymentGateway.Close | checkout-widget/src/sdk/PaymentGateway.js:117-131 | close leaves no modal referenced, detaches the referenced one if any, sets overflow to '' and appends exactly one onClose call, even when already closed |
| PaymentGateway.HandleMessage | checkout-widget/src/sdk/PaymentGateway.js:136-150 | payment_success appends onSuccess(data) and then performs exactly close (onClose follows, the modal is detached, overflow restored, configuration kept); payment_failed appends onFailure(data) and changes nothing else; close_modal closes; any other message, or none, changes nothing |
| PaymentGateway.CloseTwice | checkout-widget/src/sdk/PaymentGateway.js:117-131 | a second close leaves gateway and page as the first did but runs onClose again |
| PaymentGateway.HandleMessageExtendsTrace | checkout-widget/src/sdk/PaymentGateway.js:136-150 | message handling only appends to the callback trace and never changes the configuration |
| PaymentGateway.OpenTwiceOrphansOverlay | checkout-widget/src/sdk/PaymentGateway.js:32-121 | open, open, close on a fresh gateway leaves one overlay attached with no modal referenced and scrolling restored |
| PaymentGateway.OpenOnce | checkout-widget/src/sdk/PaymentGateway.js:32-112 | the guarded open always leaves a modal referenced, keeps an open modal instead of duplicating it, and keeps at most one overlay attached |
| PaymentGateway.TidyPreserved | checkout-widget/src/sdk/PaymentGateway.js:117-150 | with the guarded open, close and message handling keep at most one overlay attached, and close leaves none |
| PaymentGateway.StartTidy | checkout-widget/src/sdk/PaymentGateway.js:25 | a new gateway starts with no modal and no overlay |

## Left out

- WebhookRoutes.List: which newest-first order the database picks for a query is not modelled. The order is an input, so the model makes no promise that consecutive pages neither repeat nor skip rows tied on `created_at`. The count and the page are read from one store state, although the source runs them as two separate queries (backend/src/routes/webhooks.js:17-20 and 25-32); a log inserted between them can make the page one row longer or shorter than the contract's length formula says.
- Express routing, the `authenticate` middleware and the `pg` driver are not modelled. The authenticated merchant id is a parameter.
- The 500 `SERVER_ERROR` replies for failures of the database connection or the queue are left out; they come from foreign exceptions. The 500s that the request itself causes are modelled: a negative LIMIT/OFFSET in `List`, and a retry path id the id column rejects in `Retry`.
- WebhookRoutes.Retry: which path texts the id column accepts is a parameter (`admits`), because the column's type is not part of this model. Ids are compared as exact strings, so a column type that accepts several spellings of one id (upper- and lower-case hexadecimal in a `uuid`) is not modelled, nor is the reply then carrying the stored spelling rather than the path text.
- Query-string parsing (`parseInt` on strings or arrays) is left out; the parsed value is the input. Values beyond PostgreSQL's 64-bit range are not modelled.
- Atomicity and concurrency of retry are not modelled. The steps run in sequence, and no at-most-one-job-in-flight invariant is claimed, because the code does not enforce one.
- The delivery worker, Bull's retry counting, exponential backoff and job retention are not modelled. They live in the queue library, so `QueueConfig` only mirrors the constants (3 attempts, 2000 ms exponential backoff, keep 100).
- HMAC-SHA256 and `JSON.stringify` are left abstract (parameters), because they are foreign. The timing behaviour of the comparison is not modelled.
- Logging is left out; it has no effect on the replies. The timestamp formatting at test-merchant/webhook-receiver.js:15 is modelled only as whether it throws.
- WebhookReceiver.HandleWebhook: the text of the 500 reply comes from the framework's default error handler and depends on its environment; the model fixes it as `Internal Server Error`. A timestamp is modelled as an integer number of seconds, so fractional and infinite values are not modelled.
- PaymentGateway.Open: the contract is about the template string built at checkout-widget/src/sdk/PaymentGateway.js:89, not the address the browser loads. That string goes into `innerHTML` unescaped, so an order id or checkout URL containing `"`, `&` or `#` could end the attribute, be decoded as a character reference, or change the `order_id` the checkout page reads. Such values are not modelled.
- The SDK's DOM markup, styles, close-button and message listener registration, and the unchecked `postMessage` origin are left out. `HandleMessage` models the method itself, not whether the window delivers a message after `close` removed the listener.
- PaymentGateway.New: key, order id and checkout URL are strings. Non-string options (a numeric key, a truthy non-function callback) are not modelled.
- PaymentGateway.HandleMessage: callbacks are assumed to return normally. A throwing `onSuccess` would skip the following `close`.
- PaymentGateway.Close: requires that a referenced modal is attached. Detaching it from outside would make `removeChild` throw, and that is not modelled.
- `dashboard/src/pages/Webhooks.js` (UI and HTTP calls) and `checkout-widget/webpack.config.js` (build configuration) are left out.

## Findings

| source | as written | input that shows it | evidently intended | confidence | as-written member | corrected member |
|---|---|---|---|---|---|---|
| checkout-widget/src/sdk/PaymentGateway.js:34 | `open()` replaces `this.modal` without checking for an open modal, and `close()` removes only the referenced one | `open(); open(); close()` on a new gateway leaves the first overlay attached with no reference to it, while scrolling is restored | at most one SDK overlay on the page, removed by `close()` | medium; not executed | PaymentGateway.OpenTwiceOrphansOverlay | PaymentGateway.OpenOnce |
