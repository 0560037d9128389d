# BusyBiz backend handlers and rank-search demo, in Dafny

BusyBiz is a small-business website. It has a React front end and four
serverless handlers. This project models the parts of it that carry logic:

- **Payment webhook** (`webhook.dfy`, module `Webhook`). A delivery either
  fails the provider's signature check or is dispatched on its event type.
  The handled types are:
  - `checkout.session.completed`, which appends an order;
  - `customer.subscription.created` and `customer.subscription.updated`,
    which upsert a subscription keyed by its id;
  - `customer.subscription.deleted`, which soft-deletes: status `canceled`
    plus `deleted_at`.

  Any other type is a no-op. `Reconcile` is the pure specification of one
  delivery. The class `Database` holds the three tables as fields, and its
  `Handle` method is proved to have exactly `Reconcile`'s effect.
- **Customer mapping table** (`customers.dfy`, module `CustomerDirectory`).
  `stripe_customers` maps accounts to provider customers. It offers the two
  single-row lookups the handlers use and the insert, with both columns
  unique.
- **Authenticated checkout** (`create_checkout.dfy`, module `CreateCheckout`).
  It checks the secret key and resolves or creates the user's provider
  customer. It then builds the session configuration and mutates it
  depending on whether a customer id was resolved. The class
  `CheckoutService` holds the mapping table and the customers and sessions
  created at the provider.
- **Open checkout** (`create_checkout_session.dfy`, module
  `CreateCheckoutSession`). It guards on the secret key and the price id,
  then builds the session parameters with defaults taken from the `origin`
  header.
- **Contact relay** (`contact_email.dfy`, module `ContactEmail`). It runs
  three checks in order: required fields, the email pattern
  `^[^\s@]+@[^\s@]+\.[^\s@]+$`, then the API key. It then composes the
  message: subject line, reply-to, recipient and the trimmed text body. The
  reply depends on the mail provider's answer. The pattern is a ghost
  existential predicate. An executable scanner is proved equivalent to it in
  both directions.
- **Rank-search demo** (`rank_search.dfy`, module `RankSearch`). It covers:
  - a typewriter that types and erases six Danish sample queries;
  - a scroll handler that moves "your business" up from position 28;
  - the first page of ten listings, with the business flagged when it is
    on the page.

  The class `RankSearchSection` holds the component's state fields.

Shared modules:
- `wrappers.dfy` holds `Option` and `Result`.
- `checkout_common.dfy` holds the request body and reply shapes that both
  checkout endpoints use.
- `js_values.dfy` models the JavaScript semantics the handlers depend on:
  - truthiness of an optional string (absent or `""` is falsy);
  - `||` defaulting;
  - how a template literal renders `undefined` and `null`;
  - the whitespace set of `\s` and of `String.prototype.trim`.

External services are inputs to the model, not computations:
- Whatever the payment provider, the database and the mail provider answer
  (created ids, retrieved cards, successful reads, accepted writes, provider
  errors) is a parameter.
- The signature check is its result (`Verified(event)` or
  `Rejected(message)`).
- The clock is a `now` / `received` string.

## Model

| member | source | states |
|---|---|---|
| `Webhook.Reconcile` | supabase/functions/webhook/index.ts:23-160 | Preflight answers 200 `ok`. A failed signature check answers 400 `Webhook Error: <message>` and changes no table. The status is always 200, 400 or 500. A status other than 200 means no table changed. 400 occurs exactly when the signature check failed. `stripe_customers` is never written. |
| `Webhook.Dispatch` | supabase/functions/webhook/index.ts:44-145 | Every event answers `{received: true}` except a created/updated event for a known customer whose subscription has no `items`, which answers 500 with no change. An unknown customer or a failed customer read is acknowledged before `items` is read, and a `deleted` event never reads `items`. An unrecognised type changes nothing. |
| `Webhook.CompleteCheckout` | supabase/functions/webhook/index.ts:46-76 | Always 200 `{received: true}`. An unknown customer, a failed customer read and a failed write all leave the tables as they were. Otherwise exactly one order is appended and nothing else changes. The new order has the session id, status `completed`, and the payment intent, customer, amounts, currency and payment status copied from the session. |
| `Webhook.CardDetails` | supabase/functions/webhook/index.ts:94-108 | Brand and last4 are set together. They are set exactly when the subscription names a default payment method whose retrieval returned a card. A failed retrieval leaves both null. |
| `Webhook.UpsertSubscription` | supabase/functions/webhook/index.ts:78-126 | An unknown customer, or a failed customer read, is a no-op with 200. For a found customer, `items` absent gives 500 and no change. Otherwise the keys become the old keys plus the subscription id, and every other row is unchanged. The row for the id carries the event's customer, period bounds, `cancel_at_period_end` and status. Its price is the first item's price. For an empty `items.data` the price is omitted, so an existing row keeps its price and a new row has none. When the card columns are sent they are the card details, and after a failed lookup they are null. A retrieved method without a card omits them, so an existing row keeps its own and a new row has none. An existing row keeps its `deleted_at`. |
| `Webhook.CancelSubscription` | supabase/functions/webhook/index.ts:128-141 | Always 200. No row is created or removed. Only the row with the subscription id changes: it becomes status `canceled` with `deleted_at` = now. Every other row, and all rows after a failed write, are unchanged. |
| `Webhook.DuplicateCompletionRecordsTwoOrders` | supabase/functions/webhook/index.ts:62-73 | Delivering the same completed-checkout event twice, for a known customer, records two orders for that session id, when both inserts are accepted. |
| `Webhook.SubscriptionRedeliveryIsIdempotent` | supabase/functions/webhook/index.ts:110-123 | Re-delivering a subscription created or updated event, under the same read, write and lookup results, gives the same reply and leaves the tables as the first delivery left them. |
| `Webhook.SubscriptionLastWriteWins` | supabase/functions/webhook/index.ts:110-123 | Whatever the first update of a subscription carried and however its delivery went, after an accepted second update the row holds the second event's customer, period bounds, `cancel_at_period_end` and status. It also holds the second's price and card whenever the second sends them. |
| `Webhook.CancelUnknownIsNoOp` | supabase/functions/webhook/index.ts:132-138 | Deleting a subscription id that has no row leaves every table unchanged and answers 200, whatever the database answers. |
| `Webhook.FailedCustomerReadIsAcknowledged` | supabase/functions/webhook/index.ts:50-92 | A failed `stripe_customers` read is taken for "customer not found". Completed-checkout and subscription created/updated events then answer 200 and change nothing, even when the subscription has no `items`. |
| `Webhook.Database.Handle` | supabase/functions/webhook/index.ts:23-160 | The in-place handler's reply and new tables are exactly `Reconcile` of the old tables. The customer mapping is untouched. |
| `Webhook.Database.ReadCustomer` | supabase/functions/webhook/index.ts:50-56 | The `.single()` read hands back a user exactly when the read succeeded and exactly one row has that customer id. |
| `Webhook.Database.Upsert` | supabase/functions/webhook/index.ts:78-126 | The in-place created/updated branch's reply and new tables are exactly `UpsertSubscription` of the old tables. |
| `CustomerDirectory.UsersOf` | supabase/functions/webhook/index.ts:50-54 | The users selected by customer id are exactly the users of rows with that customer id. There are none when no row has it. |
| `CustomerDirectory.CustomersOf` | supabase/functions/create-checkout/index.ts:47-51 | The customers selected by user id are exactly the customers of rows with that user id. There are none when no row has it. |
| `CustomerDirectory.UserOfCustomer` | supabase/functions/webhook/index.ts:50-56 | `.single()` by customer id returns only a user that the table maps to that customer. |
| `CustomerDirectory.CustomerOfUser` | supabase/functions/create-checkout/index.ts:47-53 | `.maybeSingle()` by user id returns only a customer that the table maps to that user. |
| `CustomerDirectory.UniqueHasOneUser` | supabase/functions/webhook/index.ts:50-59 | With unique columns, at most one row matches a customer id, and exactly one when the id is present. |
| `CustomerDirectory.UniqueHasOneCustomer` | supabase/functions/create-checkout/index.ts:47-54 | With unique columns, at most one row matches a user id, and exactly one when the id is present. |
| `CustomerDirectory.LookupsFindRows` | supabase/functions/create-checkout/index.ts:47-54 | With unique columns, each lookup returns the partner id exactly when that row exists, in both directions. |
| `CustomerDirectory.Insert` | supabase/functions/create-checkout/index.ts:65-70 | The insert succeeds exactly when neither the user id nor the customer id is present already. On success the row is appended and nothing else changes, and the columns stay unique. |
| `CustomerDirectory.InsertedMappingIsFound` | supabase/functions/create-checkout/index.ts:47-70 | After an accepted insert, the lookup by user id finds the new customer and the lookup by customer id finds the user. So the next checkout of that user reuses the same customer. |
| `CreateCheckout.ConfigFor` | supabase/functions/create-checkout/index.ts:75-95 | The configuration is:<br>- card only, payment mode;<br>- one line item `{priceId, 1}`;<br>- success URL = `successUrl` (rendered `undefined` when absent) + `&session_id={CHECKOUT_SESSION_ID}`;<br>- cancel URL verbatim.<br>`customer` is set exactly when `customer_creation` is not. A resolved id sets `customer` and `metadata.user_id` (`''` without a user). Otherwise only `customer_creation = 'always'` is set. |
| `CreateCheckout.ExistingCustomer` | supabase/functions/create-checkout/index.ts:47-54 | The `.maybeSingle()` read returns only a customer the table maps to the user, and nothing when the read fails. |
| `CreateCheckout.FailedReadOfMappedUser` | supabase/functions/create-checkout/index.ts:47-70 | For a user who already has a mapping, a failed read makes the endpoint settle on a newly created provider customer. The mapping insert for that customer is refused because the user id is taken. |
| `CreateCheckout.CheckoutService.ResolveCustomer` | supabase/functions/create-checkout/index.ts:46-71 | A mapping that the read returns is reused, with no customer created and no mapping inserted. Otherwise (no mapping, or a failed read):<br>- a provider failure is an error with no change;<br>- a created customer is recorded once, with the user's email and id;<br>- one mapping is appended exactly when the insert took effect.<br>Uniqueness of the table is kept. |
| `CreateCheckout.CheckoutService.Handle` | supabase/functions/create-checkout/index.ts:11-116 | Preflight is 200 with no change. An unparsable body and a missing or placeholder key are 400 with no change. Every reply is 200 or 400. Without a signed-in user nothing is looked up or created. For a signed-in user:<br>- a mapping the read returns is reused, with no customer created and no mapping inserted;<br>- otherwise a failed customer creation is 400 with the provider's message and no change;<br>- otherwise exactly one provider customer is recorded, and its mapping is appended exactly when the insert took effect.<br>At most one provider customer, one mapping and one session are added per request. A session is created exactly when every step succeeded. It is then `ConfigFor` the body and the resolved customer, and the reply carries its URL. When every step before it succeeded but the session request fails, the reply is 400 with the provider's message and no session is recorded. |
| `CreateCheckoutSession.ParamsFor` | supabase/functions/create-checkout-session/index.ts:35-45 | One line item `{priceId, 1}`, payment mode. A truthy `successUrl` / `cancelUrl` is passed verbatim. Otherwise the defaults are `<origin>/success?session_id={CHECKOUT_SESSION_ID}` and `<origin>#pricing`, where a missing origin header renders as `null`. |
| `CreateCheckoutSession.Serve` | supabase/functions/create-checkout-session/index.ts:10-69 | Preflight is 200 with no body. A missing key is 500 before the body is read. An unparsable body is 500. A falsy price id is 500 `priceId is required`. A session is requested exactly when all guards pass, with `ParamsFor` parameters. The reply is then 200 with its URL, or 500 with the provider's message. Every reply is 200 or 500. |
| `CreateCheckoutSession.KeyCheckPrecedesBody` | supabase/functions/create-checkout-session/index.ts:19-29 | Without a key, or with an empty one, every request body gets the same reply. |
| `JsValues.OrElse` | supabase/functions/create-checkout-session/index.ts:43-44 | The logical-or default on strings yields the value when it is set and non-empty, and the fallback otherwise. |
| `JsValues.TrimStart` | supabase/functions/send-contact-email/index.ts:164-176 | The result is a suffix of the input. Everything removed is whitespace, and the result is empty or starts with a non-whitespace character. |
| `JsValues.TrimEnd` | supabase/functions/send-contact-email/index.ts:164-176 | The result is a prefix of the input. Everything removed is whitespace, and the result is empty or ends with a non-whitespace character. |
| `JsValues.TrimEndDropsTrailingSpace` | supabase/functions/send-contact-email/index.ts:164-176 | Trimming the end of a text that ends visibly, followed by whitespace, gives back exactly that text. |
| `ContactEmail.EmailCheckMatchesPattern` | supabase/functions/send-contact-email/index.ts:37-38 | The executable address check accepts exactly the strings matching `^[^\s@]+@[^\s@]+\.[^\s@]+$`: a non-empty local part, one `@`, and a domain with an inner `.`, all free of whitespace and `@`. |
| `ContactEmail.Check` | supabase/functions/send-contact-email/index.ts:27-60 | The checks run in source order. A missing name, email or message gives 400 `Missing required fields`. Otherwise an address not matching the pattern gives 400 `Invalid email format`. Otherwise a missing key gives 500 `Email service not configured`. Otherwise the form passes. |
| `ContactEmail.SubjectLine` | supabase/functions/send-contact-email/index.ts:188 | `Ny besked fra <name> - <subject>`, with `Kontaktformular` when the subject is absent or empty. |
| `ContactEmail.TextBodyIsCore` | supabase/functions/send-contact-email/index.ts:164-176 | `.trim()` removes only the template's leading line break and trailing indentation: the text body is the lines from the title to the receipt time, when the receipt time ends in a visible character. |
| `ContactEmail.Compose` | supabase/functions/send-contact-email/index.ts:132-191 | The message:<br>- the fixed sender;<br>- recipients exactly `[TO_EMAIL]`;<br>- `reply_to` = the visitor's email;<br>- the subject line;<br>- the values the HTML body interpolates (name, email twice, subject or `Ingen emne`, message);<br>- the trimmed text body. |
| `ContactEmail.Respond` | supabase/functions/send-contact-email/index.ts:194-212 | 200 exactly when the provider accepted, and then the body carries its id. Any refusal or failure is 500 `Failed to send email`. |
| `ContactEmail.Serve` | supabase/functions/send-contact-email/index.ts:16-228 | Preflight is 200 with no body and no checks. An unparsable body is 500 `Failed to send email` with the parse error. A message is sent exactly when `Check` passes, and it is then `Compose` of the form. A failed check's reply is the reply. Nothing is sent otherwise. |
| `ContactEmail.ValidFormIsSent` | supabase/functions/send-contact-email/index.ts:24-212 | A form with name, message and a matching address, plus a key, is sent whatever its subject, and the reply is 200 with the provider's id. |
| `ContactEmail.MissingSubjectDefaults` | supabase/functions/send-contact-email/index.ts:144-188 | Without a subject, the subject line ends in `Kontaktformular`, while the HTML body shows `Ingen emne` and the text body is built with the `Ingen emne` subject field. |
| `ContactEmail.SampleAddressIsValid` | supabase/functions/send-contact-email/index.ts:37 | `anna@example.dk` matches the pattern. |
| `ContactEmail.AddressWithoutAtIsRefused` | supabase/functions/send-contact-email/index.ts:37-46 | Any form with name, email and message whose address has no `@` is refused with 400 `Invalid email format`, whatever the key and the provider, and nothing is sent. |
| `RankSearch.Tick` | src/components/RankSearchSection.tsx:26-49 | While typing and short of the target, one more character of the target is shown. At the full target, deleting turns on and the text stays. While deleting, exactly the last character goes. At empty, deleting turns off and the index becomes `(index + 1) % 6`. Every step keeps the text a prefix of the current query. |
| `RankSearch.RunIsConsistent` | src/components/RankSearchSection.tsx:12-49 | From a consistent state, every reachable state shows a prefix of its query. |
| `RankSearch.TypingPhase` | src/components/RankSearchSection.tsx:30-32 | Starting empty, after k ticks the first k characters of the query are shown. |
| `RankSearch.ErasingPhase` | src/components/RankSearchSection.tsx:37-38 | Starting to erase a full query, after k ticks its last k characters are gone. |
| `RankSearch.CycleReachesNextQuery` | src/components/RankSearchSection.tsx:26-49 | From an empty text, 2·length + 2 ticks type the query, pause, erase it and move to the next query. |
| `RankSearch.ScrollState` | src/components/RankSearchSection.tsx:63-84 | Below 50% the position resets to exactly 28 with progress 0. The position always lies in 1..28 and the progress in 0..1. At 100% the position is 1. |
| `RankSearch.ScrollPositionMonotone` | src/components/RankSearchSection.tsx:71-79 | Scrolling further never moves the business down the ranking. |
| `RankSearch.RegularListings` | src/components/RankSearchSection.tsx:90 | The positions 1 to 10 in order. |
| `RankSearch.ListingsWithYourBusiness` | src/components/RankSearchSection.tsx:92-110 | Exactly 10 entries with positions 1..10 in order. An entry is flagged exactly when it is at index `yourPosition - 1`. Some entry is flagged exactly when 1 ≤ `yourPosition` ≤ 10. |
| `RankSearch.RankSearchSection.constructor` | src/components/RankSearchSection.tsx:5-10 | The initial state: empty text, query 0, typing, position 28, progress 0. |
| `RankSearch.RankSearchSection.TypewriterTick` | src/components/RankSearchSection.tsx:26-49 | The state fields after one timeout are `Tick` of the old ones. Position and progress are untouched, and the prefix invariant is kept. |
| `RankSearch.RankSearchSection.OnScroll` | src/components/RankSearchSection.tsx:63-84 | Position and progress become `ScrollState` of the scroll percentage. The typewriter is untouched and the invariant is kept. |

## Left out

- CORS headers, response content types and the `Deno.serve` / `serve` plumbing: the model keeps only the status and the body's meaning.
- The HMAC check behind `constructEvent`: the model takes its outcome as an input, since the cryptography is outside the handler.
- Concurrent deliveries of the same webhook event: deliveries are sequential calls of `Handle`.
- Database errors: the handlers never look at the database client's error results. A failed insert, upsert or update is modelled as "no effect, same reply" (`writeOk` / `insertOk`). It is not a 500 or 400 reply, and this model follows the code. A failed `stripe_customers` read yields null data (`readOk`), which the handlers take for "not found".
- The `stripe_customers` schema: the table's migration is not in the repository. The model assumes that `user_id` and `customer_id` are each unique, and that an insert breaking either constraint is refused.
- The `stripe_subscriptions` schema: the table's migration is not in the repository. The model assumes that `subscription_id` is its primary key, so it is the conflict target of the upsert, which names no `onConflict`; the delete matches on the same column. A column the upsert omits is taken to be null in a new row.
- The `stripe_orders` schema: the table's migration is not in the repository. The model assumes no unique constraint on `checkout_session_id`. With one, a second insert for the same session would be refused (`writeOk` false) and one order would remain.
- Keys of a JSON body that are not strings (numbers, objects): body fields are modelled as optional strings, or as a parse failure.
- The HTML body's markup and styles: `Compose` keeps only the values it interpolates.
- The locale- and clock-dependent `toLocaleString` receipt times: they are a `received` parameter. The HTML body's time is not modelled.
- The cursor blink interval and the typewriter's timer delays (100 ms, 50 ms, and 2 s before erasing): one `Tick` is one firing.
- The scroll percentage computation from DOM measurements, and floating-point rounding: the handler is modelled over exact reals, with `Math.round` as floor(x + 0.5) and no NaN.
- JSX rendering of the section and the other pages and components, client setup, and the static product catalogue.
