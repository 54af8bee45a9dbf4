# Payment-provider demo: local mirror store and order workflow

This project models the sequential core of a small merchant web application
that drives a payment provider's checkout API. The application creates a
payment session, promotes it to an order, and then captures, refunds or
cancels that order. It keeps a local mirror of sessions and orders for a
dashboard. The core modelled here has two parts.

- **The mirror store** (`services/KlarnaService.js`). This is the class
  `Services.KlarnaService`. It holds two record collections, `sessions` and
  `orders`, as sequences. Its methods are the insertions done by
  `createSession` and `createOrder`, the listings, and the in-place updates
  `updateSession` and `updateOrder`. An update copies a field only when the
  incoming value is truthy in JavaScript terms: a non-empty string or a
  non-zero number. `Records` holds the record types and these copy rules.
  `Collection.FindAndUpdate` states what the store's `findAndUpdate` does to a
  whole collection.
- **The order routes** (`routes/order.js`). This is module `OrderRoutes`. It
  has the three eligibility rules shown on the order page, the capture and
  refund amounts, and the four POST handlers. Each handler is a method over
  the store. The method takes each provider call's result as an `Option`
  parameter (`None` is a failed call). It returns the list of provider calls
  it issued and its reply.

Conventions:

- A JSON field the provider may omit is an `Option`, and `None` stands for
  `undefined`.
- A subtraction with an absent operand gives NaN in the source. It is an
  absent amount (`None`) here.
- A handler that dereferences an absent re-fetch throws a TypeError in the
  source. It ends with `Reply.Unhandled`, and the store is left as it was
  when the exception was thrown. Nothing in the application catches the
  rejected promise of the async handler; on Node 15 and later an unhandled
  rejection ends the process, so in-memory changes since the last autosave
  are lost. The model stops at the throw.
- `res.redirect(url)` is a redirect with status 302, the web framework's
  default.
- `res.redirect('/', 404)` and `res.redirect('/', 500)` are redirects with
  the status written in the source.

Behaviours of the code worth noting:

- Capture, refund and cancel ignore the result of the action call itself.
  They always go on to the re-fetch and the store update. They do not abort
  when that call fails.
- After an order is created, the provider reports `captured_amount` and
  `refunded_amount` as 0. Because 0 is falsy, `updateOrder` does not copy
  them. The stored order therefore has no captured or refunded amount, not
  0. `OrderRoutes.LifecycleScenario` and `Records.ZeroCaptureIsNotRecorded`
  pin this down.
- `findAndUpdate` is modelled as updating every record whose key matches,
  not only the first one. With unique keys the two agree.
- The handlers never check `canCapture`, `canCancel` or `canRefund`. A
  capture on a cancelled order is still sent, for the uncaptured balance
  (0 when the order is fully captured).

## Model

| member | source | states |
|---|---|---|
| `Records.StampedSessionAwaitsPayment` | services/KlarnaService.js:48-50 | a stored new session has status `incomplete` and `payment` true, whatever the provider sent; its key and token are the provider's |
| `Records.PatchSessionStatusRule` | services/KlarnaService.js:208-214 | a non-empty update status is copied and sets `payment` to (status is not `complete`); an empty or absent one leaves both fields unchanged |
| `Records.PatchSessionTokenRule` | services/KlarnaService.js:216-219 | the authorization token is replaced only by a non-empty one; otherwise the stored token is kept |
| `Records.PatchSessionKeepsRest` | services/KlarnaService.js:207-222 | a session update leaves the key, client token and all cart fields unchanged |
| `Records.PatchSessionKeepsMirror` | services/KlarnaService.js:208-214 | a session update preserves the invariant that `payment` is the negation of "status is complete" |
| `Records.PatchOrderFalsyKeeps` | services/KlarnaService.js:236-254 | an empty or absent status, and a zero or absent amount, never overwrite the stored value; the key is kept |
| `Records.PatchOrderTruthyCopies` | services/KlarnaService.js:236-254 | every truthy field of an order update is copied into the record |
| `Records.ZeroCaptureIsNotRecorded` | services/KlarnaService.js:246-254 | for every record, an update reporting 0 captured or 0 refunded leaves that stored amount as it was; an absent stored captured amount stays absent |
| `Records.PatchSessionIdempotent` | services/KlarnaService.js:207-222 | applying the same session callback twice equals applying it once |
| `Records.PatchOrderIdempotent` | services/KlarnaService.js:235-257 | applying the same order callback twice equals applying it once |
| `Records.Stamp` | services/KlarnaService.js:48-49 | definition; its rules are stated in `Records.StampedSessionAwaitsPayment` |
| `Records.PatchSession` | services/KlarnaService.js:207-222 | definition of the `updateSession` callback; its rules are stated in `Records.PatchSessionStatusRule`, `Records.PatchSessionTokenRule`, `Records.PatchSessionKeepsRest`, `Records.PatchSessionKeepsMirror` and `Records.PatchSessionIdempotent` |
| `Records.PatchOrder` | services/KlarnaService.js:235-257 | definition of the `updateOrder` callback; its rules are stated in `Records.PatchOrderFalsyKeeps`, `Records.PatchOrderTruthyCopies`, `Records.ZeroCaptureIsNotRecorded` and `Records.PatchOrderIdempotent` |
| `Services.UpdateSessions` | services/KlarnaService.js:224-226 | definition: `FindAndUpdate` with the `session_id` filter and `PatchSession`; its rules are stated in `Services.UpdateSessionsFrame`, `Services.UpdateSessionsIdempotent`, `Services.UpdateSessionsNoop` and `Services.UpdateSessionsKeepsMirror` |
| `Services.UpdateOrders` | services/KlarnaService.js:259-261 | definition: `FindAndUpdate` with the `order_id` filter and `PatchOrder`; its rules are stated in `Services.UpdateOrdersFrame`, `Services.UpdateOrdersIdempotent` and `Services.UpdateOrdersNoop` |
| `OrderRoutes.CanCapture` | routes/order.js:17 | definition; its rules are stated in `OrderRoutes.CaptureAmount`, `OrderRoutes.CancelledOffersNothing` and `OrderRoutes.OffersOnProviderState` |
| `OrderRoutes.CanCancel` | routes/order.js:18 | definition; its rules are stated in `OrderRoutes.CancelledOffersNothing` and `OrderRoutes.OffersOnProviderState` |
| `OrderRoutes.CanRefund` | routes/order.js:19 | definition; its rules are stated in `OrderRoutes.RefundAmount`, `OrderRoutes.CancelledOffersNothing` and `OrderRoutes.OffersOnProviderState` |
| `OrderRoutes.SessionUpdateFrom` | routes/order.js:49-52 | definition: the status and token of the re-fetched session; its effect is stated in `OrderRoutes.PostNewOrder` and `OrderRoutes.PromotedSessionFollowsProvider` |
| `OrderRoutes.OrderUpdateFrom` | routes/order.js:84-89 | definition: the four fields of the re-fetched order; its effect is stated in `OrderRoutes.ReloadOrder` |
| `OrderRoutes.HasOrderInputs` | routes/order.js:25 | definition: both form fields truthy; its effect is stated in `OrderRoutes.PostNewOrder` |
| `Collection.FindAndUpdate` | services/KlarnaService.js:224-226 | the collection keeps its length; each selected record is replaced by the callback's result; each unselected record is unchanged |
| `Collection.FindAndUpdateTwice` | services/KlarnaService.js:259-261 | if the callback keeps the key and is idempotent, a second identical update leaves the collection as the first left it |
| `Collection.FindAndUpdateNoop` | services/KlarnaService.js:259-261 | a callback that changes no selected record leaves the collection equal to the original |
| `Collection.FindAndUpdatePreserves` | services/KlarnaService.js:224-226 | a per-record property that the callback preserves holds of every record afterwards |
| `Services.KlarnaService.constructor` | services/KlarnaService.js:26-29 | each collection is the saved one when the snapshot has it, and empty otherwise |
| `Services.KlarnaService.CreateSession` | services/KlarnaService.js:40-57 | success appends exactly one record (the stamped response) and returns it; failure returns absent and changes nothing; orders never change |
| `Services.KlarnaService.CreateOrder` | services/KlarnaService.js:65-80 | success appends the response unchanged; failure changes nothing; the result is the provider's result; sessions never change |
| `Services.KlarnaService.GetSessions` | services/KlarnaService.js:189-191 | returns the stored sessions in insertion order and changes nothing |
| `Services.KlarnaService.GetOrders` | services/KlarnaService.js:197-199 | returns the stored orders in insertion order and changes nothing |
| `Services.KlarnaService.UpdateSession` | services/KlarnaService.js:206-227 | the sessions become the key-filtered update of the old sessions; orders are unchanged |
| `Services.KlarnaService.UpdateOrder` | services/KlarnaService.js:234-262 | the orders become the key-filtered update of the old orders; sessions are unchanged |
| `Services.UpdateSessionsFrame` | services/KlarnaService.js:224-226 | `updateSession` keeps the record count, patches records with the given `session_id`, and leaves all others untouched |
| `Services.UpdateOrdersFrame` | services/KlarnaService.js:259-261 | `updateOrder` keeps the record count, patches records with the given `order_id`, and leaves all others untouched |
| `Services.UpdateSessionsIdempotent` | services/KlarnaService.js:207-226 | the same `updateSession` applied twice gives the store it gives once |
| `Services.UpdateOrdersIdempotent` | services/KlarnaService.js:235-261 | the same `updateOrder` applied twice gives the store it gives once |
| `Services.UpdateSessionsNoop` | services/KlarnaService.js:207-222 | an `updateSession` with no truthy field is the identity |
| `Services.UpdateOrdersNoop` | services/KlarnaService.js:235-257 | an `updateOrder` with no truthy field (all amounts 0, empty status) is the identity |
| `Services.UpdateSessionsKeepsMirror` | services/KlarnaService.js:208-214 | if every session's `payment` mirrors its status before an `updateSession`, every one does after |
| `OrderRoutes.CaptureAmount` | routes/order.js:80 | present exactly when both operands are; captured plus requested equals the order amount; strictly positive when `canCapture` holds |
| `OrderRoutes.RefundAmount` | routes/order.js:104 | present exactly when both operands are; refunded plus requested equals the captured amount; strictly positive when `canRefund` holds |
| `OrderRoutes.CancelledOffersNothing` | routes/order.js:17-19 | a `CANCELLED` order is offered neither capture, nor cancel, nor refund |
| `OrderRoutes.OffersOnProviderState` | routes/order.js:17-19 | for provider-consistent amounts, cancel and refund are never both offered, and capture or refund is offered exactly when the order is live and its requested amount is positive |
| `OrderRoutes.FullyCapturedRequestsZero` | routes/order.js:80 | on a fully captured order the capture request is for 0 and `canCapture` is false |
| `OrderRoutes.ReloadOrder` | routes/order.js:83-91 | after a re-fetch, the orders are the `updateOrder` of its fields; an absent re-fetch throws with the store unchanged |
| `OrderRoutes.PostCapture` | routes/order.js:71-92 | an absent pre-fetch means one call, a 404 and no store change; otherwise a capture of `order_amount - captured_amount` of that pre-fetch, then a re-fetch whose fields alone reach the store |
| `OrderRoutes.PostRefund` | routes/order.js:95-116 | an absent pre-fetch means one call, a 404 and no store change; otherwise a refund of `captured_amount - refunded_amount` of that pre-fetch, then a re-fetch whose fields alone reach the store |
| `OrderRoutes.PostCancel` | routes/order.js:119-138 | an absent pre-fetch means one call, a 404 and no store change; otherwise a cancel, then a re-fetch whose fields alone reach the store |
| `OrderRoutes.PostNewOrder` | routes/order.js:24-68 | missing inputs or an absent session fetch: no order call and no store change; the order request copies the seven cart fields; failed creation: no update; otherwise the order is inserted, the session is updated from its re-fetch, and the order from its detail |
| `OrderRoutes.PromotedSessionFollowsProvider` | routes/order.js:48-52 | after promotion the session's status is the re-fetched non-empty status, and `payment` mirrors it |
| `OrderRoutes.LifecycleScenario` | routes/order.js:24-138 | create 18000 → promote → capture → refund → cancel ends with the order cancelled and all amounts 18000, and the session complete with `payment` false; a later capture is still sent, for 0 |

## Left out

- HTTP requests to the provider, URL building and the Basic-auth header are
  not modelled. Each provider call's result is a parameter, and the issued
  calls are returned as `Call` values.
- The detail-fetch and action wrappers (`getSessionDetail`, `getOrderDetail`,
  `captureOrder`, `refundOrder`, `cancelOrder`) perform the HTTP call, log
  the response or the error, and turn a failure into `null`. They are those
  `Option` parameters.
- Debug and error logging is not modelled. Every provider call, including
  those in `createSession` and `createOrder`, logs its response on success
  and its error on failure; the log has no effect on the store or the reply.
- Persistence of the embedded store is not modelled: the file adapter, the
  asynchronous autoload and the 4-second autosave. The constructor receives
  the loaded snapshot. The store-assigned record identifiers and metadata
  are not modelled either.
- Aliasing is not modelled. The source stores the provider's response object
  itself, so the object returned by `createSession` is the stored record.
  Here records are values.
- The process-wide singleton wrapper is not modelled: it is global-instance
  plumbing.
- Interleaving of concurrent handlers on the shared store is not modelled.
  Each pipeline is atomic and sequential.
- View rendering is not modelled. This includes the order-detail page, whose
  flags are the three eligibility predicates, and its unguarded dereference
  of an absent fetch.
- The session routes, the dashboard route and application start-up are not
  modelled. Start-up covers the credential checks, middleware and error
  pages.
- JSON `null` fields are not modelled. Neither are non-string request
  fields, nor order-line fields beyond reference, name, type, quantity, unit
  price and total amount. These are forwarded verbatim and play no part in
  any rule.
- Provider response fields beyond those in `Session` and `Order` are not
  modelled. The store keeps the provider's whole response object, but no
  rule reads those other fields.
- Amounts are unbounded integers here, while JavaScript numbers are IEEE
  doubles. The two agree for integral minor-unit amounts below 2^53, which
  is every amount the provider handles.
