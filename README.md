# Payment-completion webhook of the store dashboard

This project models the handler behind `POST /api/webhook`. The payment processor calls it when a
hosted checkout finishes. The handler:

- verifies the event's signature;
- ignores every event type other than `checkout.session.completed`;
- requires an order id in the session metadata;
- looks the buyer up by the metadata user id and creates them only when they are absent;
- marks the order paid and writes the assembled billing address, the phone and the user's
  name and email into it;
- appends one shipment form record built from the metadata, each field defaulted on its own;
- archives every product that an item of the order still points at.

The model has three modules:

- `JsValues` (`js_values.dfy`) holds the JavaScript semantics the handler depends on:
  - a string property that may be `null` or `undefined` (`JsString`);
  - truthiness and `||` defaulting;
  - the strict `!== null` filter, which keeps `undefined`;
  - `Array.prototype.join`, which renders `null` and `undefined` as empty strings.
- `Webhook` (`webhook.dfy`) holds:
  - the event and the store records;
  - the pure steps (address assembly, metadata defaulting, the product-id map and filter,
    create-if-absent, the archival update);
  - `Handle`, one delivery written as a function of the store state before it;
  - the class `Store`. It keeps users, orders and products as maps and the form records as a
    sequence. Its method `Post` runs the handler one store write at a time, with the early
    returns the handler has. Its contract says it ends in exactly the state and response that
    `Handle` gives.
- `WebhookProperties` (`webhook_properties.dfy`) proves what a delivery does, as lemmas about
  `Handle`.

The signature check is a parameter `constructEvent` of `Post`. It is a function of the raw body,
the signature header and the secret. It yields either the parsed event or the error message it
throws. The event is a plain record: the event type, optional string metadata and optional
customer details.

A store call that throws ends the request with status 500. This happens in two places:

- The user lookup is given no id, because the metadata has no `userId`. The lookup then throws
  before anything is written.
- The order update finds no order. A user created just before it stays created, because the
  handler runs no transaction.

## Design versus code

A payment processor delivers each event at least once, so the intended behaviour is that handling
the same completion event again changes nothing. In particular it should not create a second
shipment form for the order. The handler does not guard against this. It always creates a form
record, and it keeps no record of which events it has already handled. The model follows the
code. `RedeliveryAppendsSecondRecord` proves that the same event delivered twice leaves users,
orders and products as one delivery left them, but appends a second, identical form record.
This rests on form records not being unique per order, as stated under "Left out". If the
database allowed only one form record per order, the second create would throw and the second
delivery would end in a 500 instead.

Settlement is also meant to be all-or-nothing, but the handler runs no transaction:
`UserKeptWhenOrderMissing` shows a user written by a delivery that then fails with a 500.

## Model

| member | source | states |
|---|---|---|
| `JsValues.Or` | app/api/webhook/route.ts:47-48 | JavaScript's or-default on a string-or-nullish value gives the value when it is a non-empty string and the fallback otherwise, so it is never empty when the fallback is not |
| `JsValues.WithoutNulls` | app/api/webhook/route.ts:37 | the `!== null` filter keeps exactly the non-null elements: no null remains, undefined survives, the length drops by the number of nulls, and a null-free input is returned unchanged |
| `JsValues.WithoutNullsAppend` | app/api/webhook/route.ts:37 | filtering distributes over concatenation, so the kept components stay in their original order |
| `JsValues.WithoutNullsOfNulls` | app/api/webhook/route.ts:37 | a sequence of nulls filters down to the empty sequence |
| `JsValues.JoinLength` | app/api/webhook/route.ts:37 | a join is as long as its rendered elements plus one separator for each gap between neighbours |
| `JsValues.JoinSnoc` | app/api/webhook/route.ts:37 | appending an element to a non-empty join appends one separator and that element's rendering |
| `Webhook.MetadataField` | app/api/webhook/route.ts:40-48 | `session?.metadata?.key` is never null; it is a string exactly when the metadata exists and has the key, and then it is the metadata's own value for that key; otherwise it is undefined. `OrderIdOf` and `UserIdOf` read the order id (lines 40 and 66) and the user id (line 46) through it |
| `JsValues.Render` | app/api/webhook/route.ts:37 | `join` renders a string as itself and null or undefined as the empty string |
| `JsValues.Join` | app/api/webhook/route.ts:37 | joining nothing gives the empty string; otherwise the result starts with the first element's rendering |
| `Webhook.Phone` | app/api/webhook/route.ts:71 | `session?.customer_details?.phone` is undefined without customer details and the details' phone, which may be null, otherwise |
| `Webhook.AddressComponents` | app/api/webhook/route.ts:28-35 | six components in the order line1, line2, city, state, postal code, country; all undefined when there are no customer details or no address |
| `Webhook.AddressString` | app/api/webhook/route.ts:37 | with every component null the address is empty; otherwise it starts with the first non-null component (its length is stated by `AddressLength`) |
| `Webhook.SettleOrder` | app/api/webhook/route.ts:64-74 | the order update makes the order paid and writes the address, the phone and the resolved user's name and email; the store, status and items stay as they were |
| `Webhook.FormRecordFor` | app/api/webhook/route.ts:81-89 | the form record carries the order id; each sender and recipient field is the metadata's value when present and non-empty, and "Unknown" when the key is missing or empty, so it is never empty; the notes are the metadata's value, else ""; without metadata every field takes its default |
| `Webhook.Settle` | app/api/webhook/route.ts:39-109 | a completed session answers 200 exactly when it has an order id and a user id and the order exists; a 400 writes nothing; a 500 writes nothing but the users; the only user any outcome can add is the metadata's user id; no order or product is created or removed, and no existing user is changed |
| `Webhook.Handle` | app/api/webhook/route.ts:9-112 | a delivery answers 200, 400 or 500; anything but 200 leaves orders, products and form records unchanged; every existing form record stays in place and at most one is added after them |
| `Webhook.UpsertUser` | app/api/webhook/route.ts:50-62 | the lookup-then-create adds only the looked-up id, keeps every existing user's record, and creates an absent user with the given name and email |
| `Webhook.ProductIds` | app/api/webhook/route.ts:95 | one product id per order item, in item order |
| `Webhook.ValidProductIds` | app/api/webhook/route.ts:95-97 | the filtered product ids hold no null, and a product id is among them exactly when some item of the order carries it |
| `Webhook.Archive` | app/api/webhook/route.ts:99-108 | `updateMany` keeps the set of products and every product's name; a product ends archived exactly when it was archived already or its id is listed |
| `Webhook.Store.Post` | app/api/webhook/route.ts:9-112 | the handler's sequence of store writes ends in the state and response given by `Handle` on the old state and the signature check's verdict; a 400 leaves the store unchanged |
| `Webhook.Store.SettleSession` | app/api/webhook/route.ts:39-109 | the completed-session branch, with its early returns, ends in the state and response given by `Settle` |
| `Webhook.Store.Fulfil` | app/api/webhook/route.ts:64-108 | once the order is found, the order is replaced by its settled version, one form record is appended and the referenced products are archived; the users are unchanged |
| `WebhookProperties.ForgedDeliveryRejected` | app/api/webhook/route.ts:15-23 | whatever the body, when the signature check throws the answer is 400 with "Webhook Error: " and the error's message, and the store is unchanged |
| `WebhookProperties.OtherEventTypesIgnored` | app/api/webhook/route.ts:39-111 | any event type other than `checkout.session.completed` gets an empty 200 and leaves the store unchanged |
| `WebhookProperties.MissingOrderIdRejected` | app/api/webhook/route.ts:40-44 | a completed session whose order id is missing or empty gets 400 "Order ID is missing" and leaves the store unchanged |
| `WebhookProperties.ResponseStatus` | app/api/webhook/route.ts:9-112 | 400 exactly for a failed signature check or a missing order id; 500 exactly when a completed session with an order id lacks the user id or names an unknown order; 200 in every other case |
| `WebhookProperties.ErrorExitsWriteNothing` | app/api/webhook/route.ts:15-78 | a 400 leaves the whole store unchanged; a 500 changes nothing but the users |
| `WebhookProperties.UsersCreatedIfAbsent` | app/api/webhook/route.ts:46-62 | no existing user is changed; the only user a delivery can add is the metadata's user id, from a completed event, with the metadata's name and email or "Unknown"; and once a completion with an order id and a user id reaches the lookup, that user exists afterwards, created with those values when it was absent, whether the delivery then answers 200 or 500 |
| `WebhookProperties.UserKeptWhenOrderMissing` | app/api/webhook/route.ts:50-78 | when the order does not exist the answer is 500, yet an absent user has been created; orders, products and form records are unchanged |
| `WebhookProperties.SettledOrder` | app/api/webhook/route.ts:64-78 | after a settlement the order is paid and carries the assembled address, the phone or "", and the resolved user's name and email: the stored user's when one exists, not the metadata's. Its store, status and items are unchanged, and so is every other order |
| `WebhookProperties.PaidOnlyBySettlement` | app/api/webhook/route.ts:64-74 | no order is created or removed; a paid order stays paid; an unpaid order becomes paid only through a verified completion event that names it and ends in 200 |
| `WebhookProperties.FormRecordAppended` | app/api/webhook/route.ts:81-93 | a settlement appends exactly one form record, the one built from the order id and the metadata; it carries the settled order's id, and its sender and recipient fields are never empty |
| `WebhookProperties.FormsGrowOnlyOnSuccess` | app/api/webhook/route.ts:81-93 | a delivery either leaves the form records unchanged or is a completion answered 200 that keeps the earlier records as a prefix and adds exactly one after them |
| `WebhookProperties.ReferencedIffListed` | app/api/webhook/route.ts:95-97 | a product id survives the null filter exactly when some item of the order carries it |
| `WebhookProperties.ArchivesExactlyReferencedProducts` | app/api/webhook/route.ts:95-108 | after a settlement the products keep their ids and names; a product is archived exactly when it was archived before or an item of the order points at it |
| `WebhookProperties.ProductsUntouchedUnlessSettled` | app/api/webhook/route.ts:95-108 | only a settled completion changes any product |
| `WebhookProperties.ArchiveIdempotent` | app/api/webhook/route.ts:99-108 | archiving the same ids a second time changes nothing |
| `WebhookProperties.RedeliveryAppendsSecondRecord` | app/api/webhook/route.ts:39-109 | delivering a settled event again gives 200 and leaves users, orders and products as they were, but appends a second, identical form record |
| `WebhookProperties.AddressWithoutDetails` | app/api/webhook/route.ts:26-37 | with no customer details or no address, the six undefined components survive the filter and render as ", , , , , " |
| `WebhookProperties.AddressAllPresent` | app/api/webhook/route.ts:28-37 | with every component present, the address is line1, line2, city, state, postal code and country joined by ", " in that order |
| `WebhookProperties.AddressNullLine2` | app/api/webhook/route.ts:28-37 | a null line2 is dropped together with its separator |
| `WebhookProperties.AddressAllNull` | app/api/webhook/route.ts:28-37 | an address whose components are all null renders as the empty string |
| `WebhookProperties.AddressLength` | app/api/webhook/route.ts:28-37 | the kept components are the six minus the nulls, and the address is their rendered length plus two characters for each separator |

## Left out

- Signature cryptography: the check over the raw body, the signature header and the secret is the
  parameter `constructEvent`. The model does not say which signatures are valid.
- Reading the request body and the `Stripe-Signature` header, and reading the secret from the
  environment. These are I/O, and their values are parameters of `Post`.
- The database client. The store is an in-memory value of maps and a sequence. Connection
  failures and constraint violations are not modelled. The schema is not part of this model, so
  it is unknown whether user emails or form order ids are unique.
- Status 500 carries no body in the model. The actual body is whatever the framework sends for an
  uncaught exception.
- The model assumes that a user lookup whose id is undefined throws. It does not model a lookup
  by an empty-string id as failing: that lookup finds nobody, and the user is created under the
  id "".
- Order timestamps, the owning user id, and each item's price and image. The handler neither
  reads nor writes them. Items keep only their product id and name.
- Undefined product ids: the database returns a product id or null, never undefined. An undefined
  id survives the filter but matches no product.
- Concurrent or racing deliveries: each call is one sequential step on the store.
- Checkout-session creation, order status updates and order queries: none of these belong to the
  webhook handler.
- `lib/utils.ts`: class-name merging and currency and date formatting are presentation helpers
  with nothing to verify.
