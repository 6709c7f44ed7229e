# Subscription lifecycle of matchgenius.app, in Dafny

This project models the server and client logic that maintains one
subscription record per user in matchgenius.app, a dating-message assistant
with a paid tier. Several writers upsert that record:

- the payment-processor webhook;
- the manual and administrative sync endpoints;
- the post-checkout updater;
- the checkout customer bootstrap.

It is read by two consumers: the `/api/subscription` endpoint and the
client's `isSubscribed` predicate. The model also covers the chat-side
queries of the same database module and a handful of small pure decisions:

- request middleware routing;
- the free-tier daily message counter;
- JSON response builders;
- currency scaling;
- system-prompt assembly.

Everything is pure. The database tables are maps:

- `subscriptions` is keyed by the owning user's id;
- votes are keyed by (message id, user id);
- chats and messages are keyed by id.

Every handler is a function from its inputs to a response status and the new
table. The following are supplied as input values:

- the processor's answers (`Reply<T>`: returned a value, or threw);
- database errors (`Fault`: healthy, the lookup fails, or the write fails);
- the clock and database-generated ids (`Clock`);
- the signed-in user;
- signature verification, as the event it yields or nothing.

JavaScript truthiness of optional strings is `Common.Truthy`: `null`,
`undefined` and `""` are falsy. Timestamps are integers in milliseconds.

Modules:

- `Common`: shared vocabulary.
- `Db`: the subscription queries of `lib/supabase/db.ts`.
- `Sorting`: ordered list results.
- `ChatDb`: chat, message, vote and document queries.
- `Processor`: processor objects and the upsert built from a processor subscription.
- `Session`: the signed-in user.
- One module per handler: `Webhook`, `Sync`, `UpdateSubscription`, `Checkout`, `SubscriptionRoute`.
- `Hook`: `hooks/use-subscription.tsx`.
- `Normalize`: `lib/supabase/utils.ts`.
- `Middleware`.
- `Guard`: the subscription guard component.
- `Api`: `lib/utils/api.ts`.
- `StripeUtils`.
- `Prompts`.

The checkout and post-checkout handlers import their upsert from a query
module (`lib/db/queries`) that is not part of this model. Their writes are
therefore recorded as the argument objects they pass, not applied to the
table. That module's failures are inputs.

## Behaviour notes

Some behaviour of the code is easy to misread. The model follows the code:

- On a 401 from the read endpoint, the client hook keeps its cached subscription.
- `isSubscribed` holds only when three things hold together: the subscription has an id, its period end is in the future, and its status is active or trialing.
- The hook fetches once on mount, and only when the page passed an initial subscription. Concurrent fetches are not merged, and a fetch has no time limit.
- The webhook's `customer.subscription.created`/`.updated` handler finds the user in one of two places: the customer's `metadata.userId`, or the row that already holds the subscription id. It does not look the user up by customer id.
- The sync `GET` key check accepts only when the `api_key` parameter and the configured key are both present and equal.
- `updateSubscriptionStatus` reads the matching row with `maybeSingle`. Two rows holding the same subscription id therefore make it throw.

## Model

| member | source | states |
|---|---|---|
| Db.CreateOrUpdateSubscription | lib/supabase/db.ts:287-353 | Succeeds iff no query fails. Afterwards exactly the user's key is added or kept, and every other user's row is unchanged. The customer id is always overwritten. A truthy optional field overwrites and a falsy one keeps the stored value. `created_at` and the row id are kept on update and set only on insert. Rows stay keyed by their owner. |
| Db.GetSubscriptionByStripeSubscriptionId | lib/supabase/db.ts:355-370 | A failed query throws. Otherwise the result is null iff no row holds the subscription id. Two holders make `maybeSingle` fail. A single holder's row is returned. |
| Db.UpdateSubscriptionStatus | lib/supabase/db.ts:372-401 | Throws, writing nothing, when no row holds the id. Succeeds iff no query fails and exactly one row holds it. Then only that row's status and update time change. |
| Db.UpsertIdempotent | lib/supabase/db.ts:316-336 | Applying the same upsert twice, at any two times, gives the table of applying it once, up to update times. |
| Db.UpdateStatusIdempotent | lib/supabase/db.ts:379-393 | Repeating a status update converges, up to update times. |
| Sorting.SortDesc | lib/supabase/db.ts:93 | The result is a permutation of the input, ordered newest first. |
| Sorting.SortAsc | lib/supabase/db.ts:146 | The result is a permutation of the input, ordered oldest first. |
| Sorting.Filter | lib/supabase/db.ts:92 | Keeps each row satisfying the condition as often as it occurs, and drops every other row. |
| ChatDb.SaveChat | lib/supabase/db.ts:20-46 | Inserts a chat under the given id, carrying that id, the caller's user id and title, and the current time, and touches no other chat. Visibility defaults to private. An existing id or a failed write throws. |
| ChatDb.VoteMessage | lib/supabase/db.ts:164-221 | A failed lookup or write throws. Afterwards there is exactly one vote per (message, user), +1 for 'up' and -1 otherwise. An existing vote changes only its value; a new vote records the chat. No other vote changes. |
| ChatDb.LastVoteWins | lib/supabase/db.ts:178-218 | Voting twice on a message equals voting once with the second choice. |
| ChatDb.DeleteChatById | lib/supabase/db.ts:48-85 | Deletes the chat's votes, then its messages, then the chat. A failing step keeps the earlier deletions and skips the later ones. |
| ChatDb.DeleteLeavesNoTrace | lib/supabase/db.ts:51-84 | After a complete delete, no chat, vote or message refers to the id. |
| ChatDb.GetChatsByUserId | lib/supabase/db.ts:87-101 | Exactly the user's chats, newest first. A failed query throws. |
| ChatDb.GetMessagesByChatId | lib/supabase/db.ts:140-161 | Exactly the chat's messages, oldest first. A failed query throws. |
| ChatDb.GetDocumentsById | lib/supabase/db.ts:270-284 | Every stored version of the document, newest first. A failed query throws. |
| Processor.PeriodEndMillis | app/api/stripe/sync-subscription/route.ts:77 | The stored period end is the processor's seconds times 1000. It is a whole number of seconds and converts back exactly. |
| Processor.SubscriptionArgs | app/api/stripe/sync-subscription/route.ts:119-127 | The upsert for a processor subscription: given user and customer, the subscription id, the first item's price, the period end in milliseconds and the status. It throws (`None`) iff the subscription has no item. |
| Processor.UpsertReflects | app/api/stripe/sync-subscription/route.ts:119-127 | Upserting a complete subscription leaves a row that carries it, whatever the row held before. |
| Webhook.Upsert | app/api/stripe/webhook/route.ts:135-142 | A handler's upsert completes iff its arguments could be built and the database is healthy. It writes only the named user's row. |
| Webhook.SetStatus | app/api/stripe/webhook/route.ts:194-219 | A status-only write: it completes exactly when `updateSubscriptionStatus` succeeds, and changes only the holder's status and update time. |
| Webhook.HandleCheckoutCompleted | app/api/stripe/webhook/route.ts:111-147 | Only a subscription-mode session with a subscription and a customer is processed. A missing `metadata.userId` rejects the event. Otherwise that user's row reflects the subscription. |
| Webhook.HandleSubscriptionChange | app/api/stripe/webhook/route.ts:149-192 | The user comes from customer metadata, else from the unique row holding the subscription id. It is rejected iff there is neither. The chosen user's row then reflects the subscription. |
| Webhook.HandlePaymentSucceeded | app/api/stripe/webhook/route.ts:221-246 | Only a subscription-cycle invoice with a subscription and a customer writes. It writes the row keyed by the empty user id, with status 'active'. |
| Webhook.Dispatch | app/api/stripe/webhook/route.ts:110-262 | Only the checkout and subscription-created/updated cases can reject an event. A throw always has a cause: a failing query, a failing processor call, a subscription without items, or no single row holding the subscription. A processor throw once the event reaches that call always throws. A status event throws iff the status update fails. A failing query never leaves a partial write. |
| Webhook.HandleWebhook | app/api/stripe/webhook/route.ts:36-283 | A missing signature or secret, or a failed verification, gives 400 with no write. A type outside the eight-entry allow-list gives 200 with no write. An allow-listed event gives 200 with the handler's table when handled, 400 when the handler rejects it, and 500 when it throws. The last two leave the table unchanged. |
| Webhook.StatusEventsSetOnlyStatus | app/api/stripe/webhook/route.ts:194-219 | A successful deleted, paused or resumed event has a unique holder. Only that holder's status changes, to the event's status, along with its update time. |
| Webhook.PaymentFailedMarksPastDue | app/api/stripe/webhook/route.ts:248-258 | A successful failed-payment event has a unique holder of the subscription. Only that holder's status changes, to 'past_due', along with its update time. The keys are unchanged. |
| Webhook.UnknownSubscriptionIs500 | lib/supabase/db.ts:381-384 | A status event for a subscription id that no row holds answers 500 and writes nothing. |
| Webhook.RenewalWritesEmptyUserRow | app/api/stripe/webhook/route.ts:225-240 | A renewal answers 200 and writes the row keyed by `""`. That row has status 'active', the new price and period end. Every other row is unchanged. |
| Webhook.WebhookIdempotent | app/api/stripe/webhook/route.ts:36-283 | Redelivering an event, at any later time, leaves the table as after the first delivery, up to update times. |
| Webhook.DispatchIdempotent | app/api/stripe/webhook/route.ts:110-262 | A repeated allow-listed event either fails again or repeats the same write. |
| Webhook.StatusIdempotent | lib/supabase/db.ts:372-401 | A repeated status write succeeds iff the first did, and converges. |
| Webhook.SubscriptionChangeIdempotent | app/api/stripe/webhook/route.ts:149-192 | A repeated subscription change resolves the same user and converges. |
| Webhook.HoldersAfterUpsert | lib/supabase/db.ts:316-336 | Upserting the holder's own row with the subscription id it holds, or a falsy one, keeps it the only holder. |
| Webhook.UpdateAfterDeleteWins | app/api/stripe/webhook/route.ts:149-201 | After a deleted event and a later updated event with status 'active' for the same subscription, a row holding it is active. |
| Sync.UpsertAll | app/api/stripe/sync-subscription/route.ts:119-130 | One upsert of the target's row per listed subscription, in order. The loop completes iff every entry has an item and the database is healthy. Only the target's row changes. |
| Sync.UpsertAllLastWins | app/api/stripe/sync-subscription/route.ts:119-130 | After syncing a list of complete subscriptions, the row reflects the last one listed. |
| Sync.IsAdmin | app/api/stripe/sync-subscription/route.ts:34-49 | The caller is an admin iff the lookup succeeds and the caller's `users` row has role 'admin'. A failed lookup counts as not admin. |
| Sync.SyncTarget | app/api/stripe/sync-subscription/route.ts:51 | The target is the body's user id when truthy, else the caller. |
| Sync.SyncPost | app/api/stripe/sync-subscription/route.ts:9-171 | No session user with id and email gives 401 with no write. 403 iff the body names another user and the caller is not an admin. The target is the body's user id if truthy, else the caller. 404 iff no subscription id is given and the target has no stored customer id. Only the target's row changes. |
| Sync.SyncPostNamedSubscription | app/api/stripe/sync-subscription/route.ts:55-81 | A named complete subscription is synced into the target's row, with the period end in milliseconds, and the read-back returns that row. |
| Sync.SyncPostListedSubscriptions | app/api/stripe/sync-subscription/route.ts:91-131 | Without a subscription id, the stored customer's list is synced. The row read back reflects the last listed subscription. |
| Sync.KeyMatches | app/api/stripe/sync-subscription/route.ts:183-188 | The key check passes iff the parameter and the configured key are both present and equal. A missing parameter never matches an unset key. |
| Sync.UserByEmail | app/api/stripe/sync-subscription/route.ts:200-213 | A user id is found iff the query succeeds and exactly one user has that email. The id found is that user's. |
| Sync.SyncListed | app/api/stripe/sync-subscription/route.ts:247-314 | A failed listing gives 500 and an empty list gives 200, both with no further write. A non-empty list is upserted entry by entry into the user's row. The answer is 200 iff every entry has an item and the database is healthy, and 500 otherwise. A 200 leaves the row with that customer. Only the user's row changes. |
| Sync.SyncListedLastWins | app/api/stripe/sync-subscription/route.ts:282-313 | A healthy sync of a list of complete subscriptions answers 200 and leaves the user's row reflecting the last one listed. |
| Sync.SyncGet | app/api/stripe/sync-subscription/route.ts:174-377 | A wrong or missing API key gives 401 before anything else. Neither an email nor a subscription id gives 400. 404 writes nothing. By email, an unknown user gives 404. Otherwise only that user's row changes, and a 200 leaves it with the stored customer, or else the processor's first customer with that email. With a stored customer the answer is exactly the sync of that customer's listed subscriptions. Without one, a throw when listing customers or a failed customer-only write gives 500, no customer gives 404, and otherwise the answer is the sync of the listed subscriptions after the customer-only row. By subscription id, a processor throw gives 500. A customer email matching no single user gives 404. Otherwise only that user's row changes, the answer is 200 iff the subscription has an item and the database is healthy, and a 200 writes the complete subscription there. |
| Sync.SyncGetBySubscriptionId | app/api/stripe/sync-subscription/route.ts:317-365 | By subscription id, a complete subscription whose customer's email belongs to exactly one user answers 200. That user's row then reflects the subscription, with the period end in milliseconds. |
| Sync.SyncGetByEmailLastWins | app/api/stripe/sync-subscription/route.ts:279-312 | By email, a healthy sync for a user with a stored customer and a non-empty list of complete subscriptions answers 200. The user's row then reflects the last subscription listed. |
| Sync.SyncGetCreatesCustomerRow | app/api/stripe/sync-subscription/route.ts:224-244 | By email, a user without a stored customer id first gets a customer-only row for the processor's customer. This holds even when no subscription is listed. |
| UpdateSubscription.UpdatePost | app/api/stripe/update-subscription/route.ts:6-65 | 401, 400 and 404 follow the session, customer-id and empty-list guards, with no write. Any thrown error gives 500. At most one write is made. It is keyed by the session user and carries the body's customer id and the first listed subscription's id, price, status and period end (seconds times 1000). 200 iff that write and the read-back succeed. |
| UpdateSubscription.OnlyFirstListedMatters | app/api/stripe/update-subscription/route.ts:42-52 | Entries after the first listed subscription do not affect the outcome. |
| UpdateSubscription.UpdateSucceeds | app/api/stripe/update-subscription/route.ts:42-57 | With a complete first subscription and working queries, the answer is 200 with exactly the upsert built from it. |
| Checkout.CustomerOnly | app/api/stripe/checkout/route.ts:91-94 | The bootstrap row carries the user and customer and no subscription fields. |
| Checkout.CreateOrRetrieveCustomer | app/api/stripe/checkout/route.ts:61-97 | An existing customer found by email only gets its metadata updated, and no local row is written. Otherwise a customer is created with the user in its metadata, then a customer-only row is written. Any throw yields no customer. |
| Checkout.CheckoutPost | app/api/stripe/checkout/route.ts:6-58 | Malformed JSON gives 500 before the session check. No session user gives 401 with no request sent. For a signed-in user the answer is 200 iff the customer step yields a customer and the session request returns. Any other answer is 500 with no session id. The processor calls are exactly the customer step's calls, followed by one session request when a customer was obtained. A 200 carries the session id. The session request is in subscription mode with the user id in both metadata objects. A local row is written only for a newly created customer. |
| Checkout.CheckoutSucceeds | app/api/stripe/checkout/route.ts:20-50 | When every processor and database call returns, a signed-in user's checkout answers 200 with the created session's id. |
| Checkout.CheckoutCustomer | app/api/stripe/checkout/route.ts:21-45 | The session's customer is the existing customer if one was found, else the newly created one. |
| SubscriptionRoute.ToClient | app/api/subscription/route.ts:32-44 | Each column is copied unchanged under its camelCase key, the raw period end included. |
| SubscriptionRoute.ClientRoundTrip | app/api/subscription/route.ts:32-44 | The transform is a bijection between stored rows and client records. |
| SubscriptionRoute.SubscriptionGet | app/api/subscription/route.ts:7-59 | The status is always 200. An anonymous or failing caller gets null with 'private, max-age=5'. An authenticated caller gets their row, or null when there is none, with 'private, max-age=300'. |
| SubscriptionRoute.ReadOwnRow | app/api/subscription/route.ts:24-28 | A returned record carries the caller's own user id. |
| Hook.Initial | hooks/use-subscription.tsx:41-42 | The provider starts with the initial subscription and not loading. |
| Hook.AfterMount | hooks/use-subscription.tsx:44-52 | Without an initial subscription nothing is fetched, whatever the endpoint would answer. With one, the state is the outcome of one fetch: a readable 2xx answer replaces the subscription and any other outcome keeps the initial one. Loading is off once the effect has run. |
| Hook.IsSubscribed | hooks/use-subscription.tsx:81-85 | Entitled iff there is a subscription with a truthy id, a period end after now, and status active or trialing. |
| Hook.NotSubscribedWithoutGrant | hooks/use-subscription.tsx:81-85 | A null subscription is not subscribed. A canceled or past-due one is not subscribed even with a future period end. |
| Hook.EntitlementInterval | hooks/use-subscription.tsx:81-85 | An entitlement holds at every earlier time and at no time at or after the period end. |
| Hook.FetchSubscription | hooks/use-subscription.tsx:54-79 | A 2xx answer with a readable body replaces the subscription. A 401 changes nothing and raises no toast. Every other failure keeps the subscription and raises a toast. Loading is off after every outcome. |
| Hook.FetchFromEndpoint | hooks/use-subscription.tsx:58-69 | A fetch from the read endpoint always lands. The state then holds exactly the endpoint's answer and no toast is raised. |
| Hook.EntitledAfterFetch | hooks/use-subscription.tsx:81-85 | After a fetch, the user is subscribed iff they are signed in and their stored row has a subscription id, a future period end and an active or trialing status. |
| Normalize.NormalizeChat | lib/supabase/utils.ts:14-24 | Null for a missing row. Otherwise every field is copied under its camelCase key. |
| Normalize.NormalizeMessage | lib/supabase/utils.ts:26-36 | Null for a missing row. Otherwise every field is copied under its camelCase key. |
| Normalize.NormalizeVote | lib/supabase/utils.ts:38-46 | Null for a missing row. Otherwise chat and message ids, and `isUpvoted` iff the vote is positive. |
| Normalize.NormalizeVoteForgetsVoter | lib/supabase/utils.ts:41-45 | The voter is dropped: same-sign votes of different users look alike. A zero vote is not an upvote. |
| Normalize.VoteReadsBack | lib/supabase/utils.ts:44 | The vote `voteMessage` stores reads back as an upvote iff the user voted 'up'. |
| Normalize.NormalizeDocument | lib/supabase/utils.ts:48-59 | Null for a missing row. Otherwise every field is copied under its camelCase key. |
| Normalize.NormalizeSuggestion | lib/supabase/utils.ts:61-75 | Null for a missing row. Otherwise each snake_case column is copied under its camelCase key, the two timestamps as the same instants. |
| Normalize.NormalizeSubscription | lib/supabase/utils.ts:77-93 | Null for a missing row. A missing period end becomes null and a present one the same instant. Other fields are copied. |
| Normalize.NormalizeAgreesWithEndpoint | lib/supabase/utils.ts:77-93 | The mapper and the read endpoint's transform agree on every field. |
| Middleware.AddCacheControlHeaders | middleware.ts:5-9 | Sets Cache-Control and CDN-Cache-Control to 'private, max-age=15' and keeps every other header. |
| Middleware.IsPublicRoute | middleware.ts:96-98 | The public pages are exactly '/login', '/register' and every path under '/auth/'. |
| Middleware.Route | middleware.ts:11-122 | A static prefix gets the bare `next()` response with no headers. Other `/api/` paths forward the request with the two cache headers. A signed-in user on a public page goes to '/'. A signed-out user, or an auth error, on any other page goes to '/login', with `redirect` set iff the path is not '/'. A redirect is a fresh response with exactly the two cache headers. Any other page forwards the request with the cache headers. Any throw gets the bare `next()` with no headers. |
| Middleware.RedirectsSettle | middleware.ts:96-111 | Following a redirect reaches a page that does not redirect the same user again. |
| Guard.ParseIntOfToString | components/subscription-guard.tsx:45-60 | The stored count reads back as written: `parseInt(String(x), 10)` is `x`, NaN included. |
| Guard.ParseInt | components/subscription-guard.tsx:45 | `parseInt(s, 10)`: after leading whitespace, a digit gives a non-negative number. A negative result needs a minus sign first. A finite result needs a digit in the string. The round trip with `toString` is Guard.ParseIntOfToString. |
| Guard.NumToString | components/subscription-guard.tsx:60 | `count.toString()`: "NaN" exactly for NaN, digits only for a non-negative number, a minus sign then digits for a negative one. |
| Guard.CountKey | components/subscription-guard.tsx:43-44 | The count is stored under `messages_` followed by the date. |
| Guard.NoPathRequiresSubscription | components/subscription-guard.tsx:11-29 | The required-path list is empty, so no path sends the user to pricing. |
| Guard.StoredCount | components/subscription-guard.tsx:44-45 | A missing or empty stored value counts 0. A non-empty one is read with `parseInt`. Only a present, non-empty value can give NaN. |
| Guard.MountCheck | components/subscription-guard.tsx:31-53 | Nothing happens while loading. Only on '/' for an unsubscribed user is the day's count loaded. The dialog opens when that count is at least 5. There is never a pricing redirect. |
| Guard.IncrementMessageCount | components/subscription-guard.tsx:56-67 | A subscribed user changes nothing. Otherwise the count goes up by one, is stored under the day's key (other keys untouched), and the dialog opens at 5. |
| Guard.IncrementThenReload | components/subscription-guard.tsx:41-61 | After a counted message, the same day's home-page check reads back the incremented count. |
| Guard.DialogOpensAtFifthMessage | components/subscription-guard.tsx:17-65 | From a fresh day, the dialog is closed through four messages and open from the fifth. |
| Guard.UnparseableCountNeverLimits | components/subscription-guard.tsx:41-65 | A stored value starting with a character other than whitespace, a sign or a digit makes the home page's check load NaN. The dialog then stays closed and the count stays NaN after any number of messages. |
| Guard.ParseNoLeadingDigits | components/subscription-guard.tsx:45 | `parseInt` reads a value starting with a character other than whitespace, a sign or a digit as NaN. |
| Guard.NaNCountStaysClosed | components/subscription-guard.tsx:56-65 | From a NaN count and a closed dialog, any number of messages keeps the count NaN and the dialog closed. |
| Api.WithCacheControl | lib/utils/api.ts:41-44 | Cache-Control is set and the caller's headers are spread after it, so theirs win. |
| Api.ApiResponse | lib/utils/api.ts:28-46 | The body is the data. The status defaults to 200 and the cache to 'private, max-age=60'. |
| Api.ApiError | lib/utils/api.ts:49-67 | The body is `{ error: message }`. The status defaults to 400 and the cache to 'no-store, max-age=0'. |
| Api.AuthError | lib/utils/api.ts:70-75 | 401, 'Unauthorized', no-store. |
| Api.ServerError | lib/utils/api.ts:78-84 | 500, 'Internal server error', no-store. The error is never echoed. |
| Api.CacheControlPrecedence | lib/utils/api.ts:33-65 | The Cache-Control is the caller's header if given, else the option, else the default. |
| Api.ServerErrorHidesCause | lib/utils/api.ts:78-84 | Every server error response is the same whatever the cause. |
| StripeUtils.ToUpper | lib/stripe-utils.ts:38 | Upper-cases each ASCII letter and keeps the length. |
| StripeUtils.ToUpperIdempotent | lib/stripe-utils.ts:38 | Upper-casing twice is upper-casing once. |
| StripeUtils.Round | lib/stripe-utils.ts:39 | `Math.round`: the integer within one half, halves rounded up. |
| StripeUtils.FormatAmountForStripe | lib/stripe-utils.ts:15-40 | A zero-decimal currency (16 codes, any case) passes the amount through. Any other currency gives the integer nearest to amount times 100. |
| StripeUtils.CaseInsensitive | lib/stripe-utils.ts:38 | A currency code and its upper-case form give the same result. |
| StripeUtils.WholeAmountScales | lib/stripe-utils.ts:39 | A whole amount in a currency with cents becomes exactly amount times 100. |
| StripeUtils.YenIsZeroDecimal | lib/stripe-utils.ts:28-38 | 'jpy' and 'Jpy' pass the amount through. |
| Prompts.SystemPrompt | lib/ai/prompts.ts:39-49 | Always begins with the regular prompt. For 'chat-model-reasoning' it is exactly that prompt. For any other model, a blank line and the block instructions follow. |
| Prompts.BlocksOnlyForNonReasoning | lib/ai/prompts.ts:44-48 | The prompt is the bare regular prompt iff the model is the reasoning model. |
| Prompts.UpdateDocumentPrompt | lib/ai/prompts.ts:79-91 | Empty iff the kind is not 'text'. For 'text', the result is the base prompt and the "Original message:" label, then the current content verbatim (null rendered as "null"), then the closing "Refine the message…" line. |
| Prompts.UpdatePromptInjective | lib/ai/prompts.ts:86-87 | Different contents give different text prompts. |

## Left out

- Signature cryptography of the webhook: the request carries the event that verification yields.
- Every processor API call: its answer is an input. The list calls' `limit` and `status` filters are the processor's business, so a listed sequence is taken as given.
- Query execution, authentication and client construction: they are map lookups with an injected `Fault`, or an auth outcome. Each request sees one fault value for all its queries.
- Clocks and generated ids: they are the `Clock` input. `new Date(...)` of a stored timestamp keeps the instant, in milliseconds. Invalid dates are not modelled.
- Logging, `console.*`, toasts (a flag), React rendering, router navigation, and the window global through which other components call `incrementMessageCount`.
- Sync.SyncPost: the "Subscription not found in Stripe" 404 of the named-subscription branch is not modelled. Retrieving a subscription either returns it or throws, and throwing gives 500.
- Sync.SyncGet: the "Subscription not found in Stripe" 404 of the subscription-id branch is not modelled, for the same reason: retrieving a subscription returns it or throws, and throwing gives 500.
- Webhook.HandleWebhook: an event whose payload does not match its type cannot be expressed. `OtherEvent` is meant for types outside the allow-list; given an allow-listed type string, it is answered 200 with no write.
- Sync.UpsertAll: a loop iteration fails only on a subscription without items or on a database fault. A fault hits all iterations alike, so a fault from the second upsert onward is not modelled.
- UpdateSubscription.UpdatePost: the body of the 200 answer comes from the query module, which is not part of this model. Only whether that read throws is modelled.
- Checkout.CheckoutPost: the success and cancel URLs built from the `origin` header are not modelled.
- Guard.IncrementMessageCount: the window global holds a closure that is refreshed only when the count changes. A stale `isSubscribed` in that closure is not modelled.
- Guard.ParseIntOfToString: `parseInt` skips only ASCII whitespace here. Digit strings beyond the double-precision range are not modelled.
- StripeUtils.FormatAmountForStripe: amounts are exact reals, not IEEE-754 doubles. `toUpperCase` is modelled on ASCII letters only.
- `formatAmountForDisplay`: it is locale currency formatting.
- The duplicate helpers in `lib/stripe.ts` are not modelled.
- The other functions of `lib/supabase/db.ts` are not modelled: getUser, getChatById, saveMessages, getVotesByChatId, saveDocument.
- List queries take a table's rows in an arbitrary storage order. Ties in `created_at` may come out in any order the sort chooses.
- Middleware.Route: cookies that the authentication client writes onto the forwarding response are not modelled, so that response starts with no headers. Next.js `matcher` patterns are not modelled either. The decision is over the path and the auth outcome only.
- HTTP headers are compared by exact key, without case folding.
