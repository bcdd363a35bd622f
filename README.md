# RouterLimits billing example — a Dafny model

This project models the core of the Router Limits billing integration example. The example is a
small web service that keeps a billing system (Stripe, or an in-memory stand-in) in step with
Router Limits accounts. It covers:

- **the expiring id set** (`ExpireSet`). It is a two-generation set. Webhook endpoints use it to
  drop redeliveries, and sign-on uses it to refuse replayed token nonces;
- **the Router Limits webhook decoder** (`Webhook.fromObj` and the payload decoders);
- **the inbound webhook endpoints**, for Router Limits and for Stripe, in their current and
  older forms. Both Router Limits endpoints run a fixed chain of checks:
  1. signature;
  2. JSON;
  3. format;
  4. time window;
  5. seen id;
  6. one controller call;
  7. recording of the id when that call succeeds.

  The Stripe endpoints differ from that chain:
  - the signature, JSON and age checks all happen inside Stripe's `constructEvent`, so there
    is no time-window step of their own;
  - the current Stripe endpoint checks the seen id before the format check, and records the
    id when the controller call succeeds;
  - the older Stripe endpoint has no seen-id check and records nothing, so every valid
    delivery reaches the controller;
- **the reconciliation controllers**:
  - account created / subscribed / cancelled in Router Limits;
  - subscription deleted in Stripe, with its stale-event guard;
- **the in-memory directories they update**: accounts, billing customers, plans and API keys;
- **account creation**: the sequence of calls to Router Limits, billing, directory and key store;
- **single sign-on** with a Router Limits token: ordered checks and nonce replay protection;
- **the request validation and result-to-status mapping of the HTTP front ends**: accounts,
  authentication, the generic JSON adapter, and the plan listing.

Code that works by changing state becomes a class whose methods update its fields: the expiring
set, the directories, the controllers and the endpoints. Each such method is specified against
a pure function of the old state, such as `Rotate`, `CreateMapping`, `Authenticate` or `Receive`.
The properties are proved as lemmas about those functions.

Values the core takes from outside are parameters of the model:

- the clock;
- HMAC-SHA256;
- `JSON.parse`;
- JWT decoding;
- Stripe's event verification;
- the random API keys;
- the replies of the remote Router Limits service.

The central result is `Expiry.KeyLifetime`. A key inserted at time `t` and not inserted again is
reported present at exactly the query times `u` in `[t, t + ttl]`, whatever other keys are queried
or inserted in between, provided the clock never goes backwards. The endpoints use it to show that
a redelivered webhook is not processed twice. Sign-on uses it to show that a replayed token is
denied.

## Model

| member | source | states |
|---|---|---|
| Expiry.Elapsed | src/ExpireSet.ts:20 | the time since the last rotation is never negative and is at least the clock difference |
| Expiry.QuietWithinTtl | src/ExpireSet.ts:20-22 | within `ttl` seconds of the last rotation, `updateIfNeeded` changes nothing |
| Expiry.RotationShape | src/ExpireSet.ts:22-35 | between `ttl` and `2*ttl`, `prev` becomes the old `cur` and `cur` empties; beyond `2*ttl` both empty; either way `lastUpdate` becomes `now` |
| Expiry.BackwardsClockNeverRotates | src/ExpireSet.ts:20 | a clock reading earlier than the last rotation never rotates |
| Expiry.RotateIdempotent | src/ExpireSet.ts:17-38 | rotating twice at one instant is rotating once |
| Expiry.RotateNeverAdds | src/ExpireSet.ts:40-57 | after `has`, every key in `cur` or `prev` was there before, with the same expiry |
| Expiry.InsertThenHas | src/ExpireSet.ts:59-62 | `insert(k)` followed by `has(k)` at the same time answers true (for a non-zero expiry) |
| Expiry.KeyLifetime | src/ExpireSet.ts:40-62 | a key inserted at `t` and never inserted again is present at a later query time `u` if and only if `u <= t + ttl`, across any chronological sequence of other accesses |
| Expiry.TrackingReplay | src/ExpireSet.ts:17-62 | the invariant locating an inserted key (still in `cur`, moved to `prev`, or expired) is kept by any chronological sequence of accesses that does not insert it |
| Expiry.AbsenceIsPermanent | src/ExpireSet.ts:48-56 | once a query misses a key, every later query misses it too until it is inserted again |
| Expiry.ExpireSet.constructor | src/ExpireSet.ts:9-15 | the set starts empty with the given lifetime, rotated at the creation time |
| Expiry.ExpireSet.UpdateIfNeeded | src/ExpireSet.ts:17-38 | returns the clock reading; the new state is the rotation of the old one |
| Expiry.ExpireSet.Has | src/ExpireSet.ts:40-57 | the answer is the lookup in the rotated state, which becomes the new state |
| Expiry.ExpireSet.Insert | src/ExpireSet.ts:59-62 | the new state is the rotated state with the key recorded until `now + ttl` |
| Expiry.ExpiryScenario | src/test/ExpireSet.ts:5-23 | with a lifetime of 5: `a` is inserted at 0 and `b` at 3; at 6, `a` is gone and `b` is present |
| Text.SplitOn | src/http/RouterLimitsWebhookReceiver.ts:25-31 | splitting a header on commas yields at least one piece, and no piece contains a comma |
| Text.SplitJoin | src/http/RouterLimitsWebhookReceiver.ts:25-31 | splitting comma-free pieces joined by commas gives back the pieces |
| Text.NatToDecimal | src/models/BillingModel.ts:48 | the decimal rendering is non-empty, all digits, and has no leading zero |
| Text.DecimalRoundTrip | src/models/BillingModel.ts:48 | the decimal rendering of a counter reads back as the counter |
| Text.DecimalInjective | src/models/BillingModel.ts:48 | distinct counters render to distinct ids |
| RouterLimitsWebhooks.TypeNameRoundTrip | src/routerlimits/webhooks.ts:142-146 | each event type is found from its string value, and only the three values are found |
| RouterLimitsWebhooks.CreatedFromObjExact | src/routerlimits/webhooks.ts:13-17 | the account-created payload decodes if and only if `id` is a string and `user` is an object with truthy `firstName`, `lastName` and `email`; the result carries those values |
| RouterLimitsWebhooks.CanceledFromObjExact | src/routerlimits/webhooks.ts:30-34 | the cancelled payload decodes if and only if `accountId` is a string |
| RouterLimitsWebhooks.SubscribedFromObjExact | src/routerlimits/webhooks.ts:45-49 | the subscribed payload decodes if and only if `accountId` is a string, `plan` is truthy and the plan has string `id` and `name` |
| RouterLimitsWebhooks.WebhookFromObjRejects | src/routerlimits/webhooks.ts:83-124 | an envelope is rejected if and only if a type check fails, the event type is none of the three, or the payload fails the decoder chosen by the type |
| RouterLimitsWebhooks.WebhookFromObjSound | src/routerlimits/webhooks.ts:121 | an accepted envelope is well formed, every field equals the input's field, and the payload is the variant of the event type |
| RouterLimitsWebhooks.DataRoundTrip | src/routerlimits/webhooks.ts:13-65 | every payload decodes back from the object written for it |
| RouterLimitsWebhooks.WebhookRoundTrip | src/routerlimits/webhooks.ts:83-124 | every well-formed webhook decodes back, field for field, from the object written for it |
| RouterLimitsWebhooks.ExtraEnvelopeFieldsIgnored | src/routerlimits/webhooks.ts:84-90 | envelope properties the decoder does not read never change its result |
| RouterLimitsWebhooks.ExtraPayloadFieldsIgnored | src/routerlimits/webhooks.ts:14 | payload properties the decoders do not read never change their result |
| Accounts.CreateThenGet | src/models/AccountsModel.ts:36-52 | after a successful `create`, `get` returns the record with the requested billing id; the only failure is "Already created" for a conflicting mapping, which changes nothing |
| Accounts.CreateKeepsOthers | src/models/AccountsModel.ts:37-45 | `create` adds at most the requested entry and never alters an existing one |
| Accounts.CreateKeepsKeyedById | src/models/AccountsModel.ts:45 | every stored record keeps its map key as its id |
| Accounts.CreateIdempotent | src/models/AccountsModel.ts:37-41 | repeating a `create` changes nothing further and succeeds whenever the first did |
| Accounts.MockAccountsModel.Create | src/models/AccountsModel.ts:36-47 | the outcome and the new directory are those of the mapping function |
| Accounts.MockAccountsModel.Get | src/models/AccountsModel.ts:49-52 | returns the stored record, or nothing for an unknown id |
| Billing.CreateCustomerFresh | src/models/BillingModel.ts:47-51 | the new id is not yet a customer and is the counter in decimal; the customer starts without a plan; the others are untouched; ids stay below the counter |
| Billing.CreateCustomerTwiceDistinct | src/models/BillingModel.ts:47-51 | two successive creations hand out different ids |
| Billing.SubscribeThenGet | src/models/BillingModel.ts:62-70 | `subscribe` succeeds if and only if the customer exists, after which `get` returns the plan; subscribing twice equals subscribing once; an unknown customer fails with "No such billing customer" and nothing changes |
| Billing.CancelThenGet | src/models/BillingModel.ts:37-45 | `cancel` succeeds if and only if the customer exists, after which `get` returns null; an unknown customer fails and nothing changes |
| Billing.UpdatesAreLocal | src/models/BillingModel.ts:43 | `cancel` and `subscribe` change only the named customer and keep the customer set and the counter |
| Billing.MockBillingModel.constructor | src/models/BillingModel.ts:32-35 | no customers, counter zero |
| Billing.MockBillingModel.Cancel | src/models/BillingModel.ts:37-45 | the outcome and new state are those of the cancellation function |
| Billing.MockBillingModel.CreateCustomer | src/models/BillingModel.ts:47-51 | the id and new state are those of the creation function |
| Billing.MockBillingModel.Get | src/models/BillingModel.ts:53-60 | returns the customer's plan, or fails with "No such billing customer" |
| Billing.MockBillingModel.Subscribe | src/models/BillingModel.ts:62-70 | the outcome and new state are those of the subscription function |
| Plans.IndexedKeys | src/models/PlansModel.ts:24-29 | the table's keys are exactly the ids of the configured plans, and each plan is stored under its own id |
| Plans.LastOccurrenceWins | src/models/PlansModel.ts:26-28 | with duplicate ids, the last plan with an id is the one stored |
| Plans.PlansModel.constructor | src/models/PlansModel.ts:24-29 | the loop builds exactly the indexed table of the input list |
| Plans.PlansModel.Get | src/models/PlansModel.ts:31-35 | returns the plan stored under the id, or nothing, and changes nothing |
| ApiKeys.GenerateThenLookup | src/controllers/AuthenticationController.ts:83 | a generated key looks up the owner it was generated for; other keys keep their bindings |
| ApiKeys.ApiKeyStore.Generate | src/controllers/AuthenticationController.ts:83 | the key and new store are those of the issuing function |
| ApiKeys.ApiKeyStore.GetAccountIdByKey | src/controllers/AuthenticationController.ts:88 | returns the bound account id, or nothing for an unknown key |
| RouterLimitsService.CancelCountAppend | src/controllers/BillingWebhookController.ts:57 | cancellations in a concatenated call log are those of its parts added |
| RouterLimitsService.RouterLimitsClient.CreateAccount | src/controllers/AccountsController.ts:46 | returns the service's reply and logs the call |
| RouterLimitsService.RouterLimitsClient.GetAccount | src/controllers/AccountsController.ts:47 | returns the service's reply and logs the call |
| RouterLimitsService.RouterLimitsClient.GetSubscriptions | src/controllers/BillingWebhookController.ts:46 | returns the service's reply and logs the call |
| RouterLimitsService.RouterLimitsClient.Cancel | src/controllers/BillingWebhookController.ts:57 | returns the service's reply and logs the call |
| RouterLimitsWebhookControl.AccountCreatedOnce | src/controllers/RouterLimitsWebhookController.ts:29-44 | for an unknown account, exactly one customer is created, without a plan, and mapped; a known account changes nothing, so a second delivery changes nothing |
| RouterLimitsWebhookControl.SubscriptionCancelEffect | src/controllers/RouterLimitsWebhookController.ts:46-57 | an unknown account fails with "No such account is known" and changes nothing; a known one ends with no plan and the directory untouched |
| RouterLimitsWebhookControl.SubscriptionChangeEffect | src/controllers/RouterLimitsWebhookController.ts:59-76 | an unknown account or plan fails, the account reported first, and changes nothing; otherwise the customer's plan becomes the plan's billing id |
| RouterLimitsWebhookControl.HandlePreservesConsistency | src/controllers/RouterLimitsWebhookController.ts:29-76 | every handler keeps every mapped account's billing customer in existence and the directory keyed by id |
| RouterLimitsWebhookControl.TimestampIgnored | src/controllers/RouterLimitsWebhookController.ts:29-59 | the event timestamp never affects a handler's outcome or effect |
| RouterLimitsWebhookControl.RouterLimitsWebhookController.HandleAccountCreated | src/controllers/RouterLimitsWebhookController.ts:29-44 | outcome and new state are those of the created-handler function |
| RouterLimitsWebhookControl.RouterLimitsWebhookController.HandleAccountSubscriptionCancel | src/controllers/RouterLimitsWebhookController.ts:46-57 | outcome and new state are those of the cancel-handler function |
| RouterLimitsWebhookControl.RouterLimitsWebhookController.HandleAccountSubscriptionChange | src/controllers/RouterLimitsWebhookController.ts:59-76 | outcome and new state are those of the change-handler function over the plan table |
| BillingWebhookControl.UnknownAccountRejected | src/controllers/BillingWebhookController.ts:39-44 | an unknown billing id fails with the UNKNOWN_ACCOUNT special case and Router Limits is not called |
| BillingWebhookControl.CancelsExactlyWhenDue | src/controllers/BillingWebhookController.ts:46-57 | the subscription is cancelled, exactly once and for the mapped account, if and only if there is a subscription and the first one started no later than the event |
| BillingWebhookControl.OnlyFirstSubscriptionMatters | src/controllers/BillingWebhookController.ts:53 | subscription lists that agree on their first entry give the same outcome and calls |
| BillingWebhookControl.BillingWebhookController.HandleAccountSubscriptionCancel | src/controllers/BillingWebhookController.ts:36-59 | the outcome and the calls logged are those of the cancel flow; the directory is not modified |
| RouterLimitsWebhookReceiving.Screen | src/http/RouterLimitsWebhookReceiver.ts:19-60 | a request that passes the stateless checks yields a well-formed webhook |
| RouterLimitsWebhookReceiving.ChecksInOrder | src/http/RouterLimitsWebhookReceiver.ts:19-60 | each 400 ("Missing signature", "Invalid signature", "Invalid JSON", "Invalid webhook format", "Invalid attemptTimestamp") happens if and only if all earlier checks passed and its own failed; the timestamp must be within the valid interval of now |
| RouterLimitsWebhookReceiving.SignatureListed | src/http/RouterLimitsWebhookReceiver.ts:25-31 | the signature passes if and only if the body's HMAC is one of the comma-separated signatures |
| RouterLimitsWebhookReceiving.RejectionChangesNothing | src/http/RouterLimitsWebhookReceiver.ts:19-60 | a rejected request changes neither the seen ids nor the directories |
| RouterLimitsWebhookReceiving.DuplicateAcknowledged | src/http/RouterLimitsWebhookReceiver.ts:63-66 | a seen event id gets 204 and no handler runs |
| RouterLimitsWebhookReceiving.RecordedOnlyOnSuccess | src/http/RouterLimitsWebhookReceiver.ts:68-76 | a new event's id is recorded, with 204, only when the handler succeeds; on failure the reply is 500 and the id stays unseen |
| RouterLimitsWebhookReceiving.RedeliveryNotReprocessed | src/http/RouterLimitsWebhookReceiver.ts:63-76 | after an event is handled successfully at `t`, any later delivery with the same event id (new attempt, body and signature) that passes the checks at a time within the valid interval gets 204 and is not handled again, whatever other ids are looked up or recorded in between |
| RouterLimitsWebhookReceiving.LateRedeliveryReprocessed | src/http/RouterLimitsWebhookReceiver.ts:57-76 | the limit of that protection: the seen-id lifetime equals the time window, which is measured from each attempt's own timestamp, so a same-id delivery that passes the checks after `t + validInterval` is handed to the handler again, with 204 on success and 500 on failure |
| RouterLimitsWebhookReceiving.DispatchMatchesEvent | src/http/RouterLimitsWebhookReceiver.ts:78-100 | the handler of the event's type is called with the event timestamp and the payload's fields, so the unknown-type branch is unreachable |
| RouterLimitsWebhookReceiving.RouterLimitsWebhookReceiver.constructor | src/http/RouterLimitsWebhookReceiver.ts:108-112 | the seen-id set lives for the webhook valid interval |
| RouterLimitsWebhookReceiving.RouterLimitsWebhookReceiver.Router | src/http/RouterLimitsWebhookReceiver.ts:17-101 | the reply and the new seen ids and directories are those of the receive function |
| LegacyRouterLimitsWebhookReceiving.AgreesWithCurrentReceiver | src/controllers/http/routerlimitswebhooks.ts:18-96 | with a processor that behaves like the reconciliation controller, the older endpoint answers and records exactly as the current one |
| LegacyRouterLimitsWebhookReceiving.ProcessorCalledOncePerNewEvent | src/controllers/http/routerlimitswebhooks.ts:20-90 | the processor is called only for a new, valid event, with the call of its type; the id is recorded (204) exactly on success, and failure gives 500 |
| LegacyRouterLimitsWebhookReceiving.RouterLimitsWebhookController.Router | src/controllers/http/routerlimitswebhooks.ts:18-96 | the reply, seen ids and processor calls are those of the legacy receive function |
| StripeWebhookReceiving.HandlerCalledExactlyWhenDue | src/http/StripeWebhookReceiver.ts:27-54 | the handler is called exactly for a verified, unseen, well-formed deleted subscription, with `created` and the customer id; the id is recorded only on success; other events get 204 and are not recorded; malformed ones get 400 |
| StripeWebhookReceiving.MissingHeaderFirst | src/http/StripeWebhookReceiver.ts:12-25 | a missing header gives 400 "Missing signature" before verification; a failed verification gives 400 "Invalid signature or event" |
| StripeWebhookReceiving.RedeliveryNotReprocessed | src/http/StripeWebhookReceiver.ts:28-49 | after an event is handled successfully at `t`, any later delivery verified into an event with the same id (re-signed) within the lifetime gets 204 and no call, whatever other ids are looked up or recorded in between |
| StripeWebhookReceiving.StripeWebhookReceiver.Router | src/http/StripeWebhookReceiver.ts:10-55 | the reply, seen ids and Router Limits calls are those of the receive function over the billing controller |
| LegacyStripeWebhookReceiving.EveryDeliveryHandled | src/controllers/http/billingwebhooks.ts:25-49 | with no dedup, every delivery of a valid deleted subscription calls the handler; other events get 204 with no call |
| LegacyStripeWebhookReceiving.AgreesOnUnseenEvents | src/controllers/http/billingwebhooks.ts:10-49 | on events the current endpoint has not seen, both endpoints reply and call alike |
| Authentication.InvalidTokensChangeNothing | src/controllers/AuthenticationController.ts:37-62 | INVALID "Invalid token or signature" if and only if decoding fails; INVALID "Invalid decoded token format" if and only if the payload has the wrong shape; neither changes state |
| Authentication.ExtraClaimsAllowed | src/controllers/AuthenticationController.ts:45-59 | properties other than the five in the schema never change whether a payload is accepted |
| Authentication.ExpiredTokenNotRecorded | src/controllers/AuthenticationController.ts:65-68 | a token issued more than the valid interval from now is DENIED "Expired token" and nothing is recorded |
| Authentication.FreshTokenOutcome | src/controllers/AuthenticationController.ts:71-84 | a timely token with a new nonce records the nonce; an unknown account is DENIED "No such account" with no key issued; a known one is granted the next key, bound to the account, which then validates to it |
| Authentication.ReplayDenied | src/controllers/AuthenticationController.ts:31-74 | a token whose nonce was recorded at `t` is DENIED when presented again within the nonce lifetime, whatever happens in between, and at any later time if nonces outlive twice the token validity |
| Authentication.ValidateApiKeyMeaning | src/controllers/AuthenticationController.ts:87-93 | an unknown key, or one bound to no id, validates to nothing; otherwise to the directory's record |
| Authentication.AuthenticationController.constructor | src/controllers/AuthenticationController.ts:27-32 | the nonce set lives for the webhook valid interval |
| Authentication.AuthenticationController.Handle | src/controllers/AuthenticationController.ts:34-85 | the answer and the new nonce set and key store are those of the authentication function |
| Authentication.AuthenticationController.ValidateApiKey | src/controllers/AuthenticationController.ts:87-93 | returns the account the key validates to |
| AuthenticationReceiving.JwtRequired | src/http/AuthenticationReceiver.ts:13-17 | the controller is given exactly the truthy `jwt` of a truthy body |
| AuthenticationReceiving.AnswerStatus | src/http/AuthenticationReceiver.ts:21-43 | 200 if and only if SUCCESS, with key and account id as body; 400 if and only if INVALID; 401 if and only if DENIED, each with the message; 500 if and only if the controller throws |
| AuthenticationReceiving.AuthenticationReceiver.AuthViaJwt | src/http/AuthenticationReceiver.ts:11-44 | without a token, 400 "Missing JWT" and nothing changes; otherwise the controller's answer, mapped |
| JsonReceiving.ProcessMeaning | src/http/JsonReceiver.ts:14-28 | a rejection gives 500 with no body; otherwise the headers default to none, the body is sent as JSON if and only if it is truthy, and the status is the handler's when truthy, else 200 with a body and 204 without |
| JsonReceiving.FiveHundredOnlyFromRejectionOrHandler | src/http/JsonReceiver.ts:17-27 | a 500 comes only from a rejection or a handler asking for it |
| JsonReceiving.NoContentExactly | src/http/JsonReceiver.ts:17-27 | a resolved handler gets 204 exactly when it asks for 204 or gives neither a non-zero status nor a truthy body, and a 204 it did not ask for has no body |
| AccountsControl.UserIdRequired | src/controllers/AccountsController.ts:36-39 | a non-null body is answered with status 400 if and only if its `userId` is falsy, and then no call is made and nothing changes |
| AccountsControl.CreationSteps | src/controllers/AccountsController.ts:44-71 | calls `createAccount` with the body's values, then `getAccount`; 201 if and only if every step succeeds; then a customer is created, the mapping recorded, the key issued and the body is `{account: {id, active: false}, apiKey}`; a failed `getAccount` fails with its error, and an account without a user fails with "Failed RL account lookup", both before any customer is created and with nothing changed; a refused mapping leaves the new customer |
| AccountsControl.CreationKeepsInvariants | src/controllers/AccountsController.ts:54-60 | account creation keeps the directory keyed by id and the billing ids below the counter |
| AccountsControl.AsWrittenKeyValidatesToNothing | src/controllers/AccountsController.ts:57-60 | as written, the key returned by a successful creation is bound to no account and never validates |
| AccountsControl.AsWrittenExample | src/controllers/AccountsController.ts:57-60 | a concrete creation whose returned key does not validate |
| AccountsControl.KeyValidatesToNewAccount | src/controllers/AccountsController.ts:57-60 | with the key bound to the account id, the returned key validates to the new account record mapping to the new customer |
| AccountsControl.Unimplemented | src/controllers/AccountsController.ts:74-96 | each of the six stubbed operations is answered with status 501 and no body |
| AccountsControl.AccountsController.AccountCreation | src/controllers/AccountsController.ts:35-72 | the result, new state and Router Limits calls are those of the (key-binding) creation function |
| AccountsReceiving.AcctCreateMeaning | src/http/AccountsReceiver.ts:13-37 | the body is accepted if and only if it is an object with a non-empty string `userId`, optionally a non-empty string `routerPairingCode`, and nothing else; rejection gives 400 without a call; acceptance gives 201 with the controller's result |
| AccountsReceiving.UpdateShapes | src/http/AccountsReceiver.ts:58-80 | the two update shapes exclude each other, so `oneOf` accepts exactly their union; `{}` and `{planId}` are accepted; `{active: false}` with any other property is not |
| AccountsReceiving.AcctUpdateMeaning | src/http/AccountsReceiver.ts:81-88 | the owner's update reaches the controller if and only if the body is valid, and then gets 204; otherwise 400 |
| AccountsReceiving.OwnershipRequired | src/http/AccountsReceiver.ts:39-144 | every per-account handler answers 403 without a call unless the authenticated account is the path's; payment-method creation answers 400 for a missing token before that |
| AccountsReceiving.ListPageMeaning | src/http/AccountsReceiver.ts:100-105 | the page has `hasMore: false` and every method in order; `lastEvaluatedKey` is the last method's id and is absent for an empty list |
| PlansListing.PlansListMeaning | src/controllers/PlansController.ts:15-24 | one entry per configured plan, in order, with its id and name; `unavailable` is kept if and only if truthy; the page arguments make no difference |

## Left out

- The clock is a parameter (`now`) of every operation that reads it. The source truncates
  milliseconds with `| 0`, a 32-bit conversion that the model does not reproduce.
- `insert` reads the clock a second time in the source. The model uses the same `now` for
  its rotation and for the recorded expiry.
- JavaScript numbers are modelled as integers. Every number the core reads is a count of
  seconds or an attempt counter.
- `String(nextId)` is modelled as the decimal rendering of an unbounded counter. Exponent
  notation beyond 2^53 is not modelled.
- Promises, `async` and `AsyncLock` are sequential in the model. Each handler runs to
  completion, and interleavings between requests are not modelled. A rejected promise is a
  `Failure`/`Fail` value.
- HMAC-SHA256, `JSON.parse`, JWT decoding and signature checking, and Stripe's
  `constructEvent` are given functions. Stripe's own signature and tolerance checks happen
  inside `constructEvent`.
- The current Stripe endpoint checks an event's age only through the tolerance it passes to
  `constructEvent`; the model follows the code.
- LegacyStripeWebhookReceiving.AgreesOnUnseenEvents: both Stripe endpoints share one given
  verification function. The older endpoint calls `constructEvent` without a tolerance
  (src/controllers/http/billingwebhooks.ts:19), so Stripe's default tolerance applies there;
  the current one passes the configured `webhookValidInterval`. The two therefore agree only
  while that setting equals Stripe's default (it is 300 in the default configuration).
- AccountsControl.AccountsController.AccountCreation: the class method binds the new API key
  to the new account id, as the corrected `AccountCreation` does. Line 60 of
  src/controllers/AccountsController.ts instead passes the `void` result of `accounts.create`,
  so the method does not reproduce the code as written there; the as-written behaviour is
  `AccountCreationAsWritten`, and the Findings section describes the difference.
- The Router Limits service and the billing system behind the mock are remote. Their
  replies are fixed functions of the request, and each call is appended to a ghost call log.
  - `getSubscriptions` and `cancel` are not in the `IRouterLimitsModel` interface shown, so
    they are modelled in the same way.
  - The real `RouterLimitsModel` HTTP client is not part of this model.
- `getByBillingId` is not in the accounts model shown. It is a given function of the
  directory.
- `src/models/ApiKeysModel.ts` is not part of this model. The key store is reduced to
  `generate` (keys drawn from a given random stream) and `getAccountIdByKey`, and key expiry
  is left out.
- `createCustomer` receives the user's names from both controllers, but the mock billing
  model takes and stores none. The names are dropped.
- Express itself is not modelled: routing, header lookup, body parsing, and the API-key
  middleware that fills `res.locals.account` (an optional account parameter here).
  - A rejection that leaves a handler without a response is a `None` reply.
  - In `AccountsController`, reading `userId` of a `null` body throws synchronously. The
    model treats that as a rejection.
- `AccountsReceiver` calls controller operations with argument lists that do not match the
  `AccountsController` shown: `accountCreation(req.body)` passes the body as the path
  parameters. The receiver is therefore modelled with the controller's results as given
  values, and the two are not connected.
- The plan catalogue's `getAll` is not in the `PlansModel` shown. The listing takes the
  catalogue as a given list. Pagination (`startKey`, `limit`) is not implemented in the
  source.
- `ProxyUserController`, `ProxyUsersReceiver`, the logging model, the server wiring and the
  configuration loading are not part of this model. The configuration values the core reads
  become parameters:
  - `routerlimits.webhookValidInterval` (300 by default) is the `validInterval` of both
    Router Limits endpoints. It is their time window and their seen-id lifetime. Sign-on
    also uses it as its nonce lifetime, the `nonceTtl` of `AuthConfig`;
  - `routerlimits.jwtValidInterval` (no default is given) is `AuthConfig.jwtValidInterval`;
  - `routerlimits.sharedSecret` is built into the given `hmacHex` of `Primitives`, for the
    webhook signatures, and into the given `decode` of `AuthConfig`, for sign-on tokens;
  - `stripe.webhookValidInterval` (300 by default) is the current Stripe endpoint's `ttl`.
    Its tolerance for `constructEvent` lies inside the given `EventVerifier`;
  - `stripe.webhookSecret` lies inside the given `EventVerifier`;
  - `planMap` is the plan list given to the `PlansModel` constructor.

  The modelled code reads no other configuration value: `api.listenPort`,
  `routerlimits.apiKey`, `stripe.secretKey` and `stripe.publishableKey` matter only to code
  outside this model.
- Expiry.InsertThenHas: requires the expiry `now + ttl` to be non-zero. The source tests
  entries by truthiness, so an expiry of exactly 0 reads as absent; the lifetime lemmas
  assume `ttl > 0` and `t >= 0` for the same reason.
- Authentication.ReplayDenied: the nonce set's other accesses between the two
  presentations are stated as a chronological access trace, not as whole authentication
  calls.

## Findings

| source | as written | input that shows it | evidently intended | confidence | as-written member | corrected member |
|---|---|---|---|---|---|---|
| src/controllers/AccountsController.ts:57-60 | the API key is generated for the value `accounts.create` resolves to, which is nothing, so the key is bound to `undefined` | body `{userId: "u1"}`, with Router Limits returning account "5" that has a user: the creation answers 201, but `validateApiKey` of the returned key gives `undefined` | the key is generated for the new account's id, so that it validates to the new account | medium (not executed) | AccountsControl.AsWrittenKeyValidatesToNothing | AccountsControl.KeyValidatesToNewAccount |
