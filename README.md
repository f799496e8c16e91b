# Webhook notification callback of the Graph webhooks sample

This project models the callback endpoint of an ASP.NET Core sample that
subscribes to Microsoft Graph change notifications. It covers
`NotificationController.Listen` and `GetChangedMessagesAsync`. The model says
what one call decides, and the proofs state that decision precisely. There are
two paths:

- **Handshake.** A non-empty `validationToken` query value is echoed back
  HTML-encoded, and nothing else happens.
- **Batch.** The batch goes through these steps in order:
  1. A client-state filter is applied to the plain notifications. The survivors
     go into a dictionary keyed by resource, and the last write wins.
  2. The surviving notifications are enriched. A message resource is fetched
     from Graph, either app-only or as the subscribing user. Any other resource
     becomes its bare path. The records are sent to the browser if there are any.
  3. The validation-token gate runs. Every token must validate.
  4. Each rich notification is decrypted in batch order, and the resulting list
     is sent.
  5. The response is `Accepted`, `Unauthorized("Token Validation failed")`, or
     `Accepted` from the catch-all when anything throws.

Layout, one module per file:

- `wrappers.dfy`: `Option`. It stands for a C# null, or for an exception turned
  into a missing result.
- `dictionary.dfy`: the `Dictionary<string, ChangeNotification>` the handler
  fills. It is an association list in enumeration order.
- `text.dfy`: the case-insensitive `Contains` used to recognise message
  resources.
- `notifications.dfy`: the data: notifications, batches, subscriptions, display
  records, responses. It also holds the `Services` record of collaborators:
  - the subscription store,
  - the token validator,
  - the key-vault certificate,
  - the decryptor,
  - the Graph message fetch,
  - the HTML encoder.
- `ingest.dfy`: the first loop (filter and deduplication), the token gate and
  the decryption loop, each as a function of the batch. The lemmas about them
  are here too.
- `enrichment.dfy`: the per-notification enrichment and the record list of
  `GetChangedMessagesAsync`, with their lemmas.
- `listening.dfy`: `ListenOutcome`, the response plus the sequence of batches
  sent, with the lemmas about the whole endpoint.
- `controller.dfy`: the imperative model. The `NotificationController` class
  holds its collaborators. Its methods `Listen`, the loops it runs and
  `GetChangedMessages` are each proved equal to the functions above. The
  `NotificationHub` class records every SignalR send in a ghost log.

Exceptions are explicit. A collaborator that can throw returns `None` or a
failure variant. Inside the `try` block, each method returns `Accepted` at every
point where the source can throw.

### Consequences of the code as written

The model keeps each of these behaviours of the code:

- A null subscription id throws at `.Value`
  (`Controllers/NotificationController.cs:94`), which aborts the whole batch with
  202 Accepted. An unknown subscription is not dropped silently either: the
  store's code is not part of this model, and it is assumed to return null or
  throw for an unknown id. A null result then throws at the client-state
  comparison (:97), so the batch is also aborted.
- A `ServiceException` from the message fetch adds no record at all (:184-191).
  It does not fall back to the bare path.
- The handler catches only `ServiceException`. Any other exception from the
  fetch aborts the enrichment, and nothing of it is sent.
- The catch block indexes `AdditionalData["request-id"]` and `["date"]` of the
  inner error when there is one. A missing entry, or a null `Error`, throws from
  inside the handler. The enrichment then aborts in the same way.
- Rich notifications that arrive with a null or empty token list are neither
  decrypted nor refused. The answer is 202 Accepted (:110, :146), not 401.
- A decryption failure, or a key-vault failure, does not drop just that one
  item. It aborts the decryption loop, so none of the decrypted records are sent
  (:119-131, :140-146).
- Plain records are sent (:104-108) before the token gate. A 401 answer may
  therefore follow a send to the browser.

## Model

| member | source | states |
|---|---|---|
| `Controller.NotificationController.Listen` | src/GraphWebhooks-Core/Controllers/NotificationController.cs:78-154 | The response and the batches appended to the hub's log are exactly those of `ListenOutcome` for the query token and the request body. |
| `Controller.NotificationController.CollectPlainNotifications` | src/GraphWebhooks-Core/Controllers/NotificationController.cs:92-101 | The first loop yields the dictionary `CollectPlain` describes, or `None` when an item throws. |
| `Controller.NotificationController.ValidateTokens` | src/GraphWebhooks-Core/Controllers/NotificationController.cs:112-115 | Validating every token and folding the results with `&&` is true exactly when every token validates. |
| `Controller.NotificationController.DecryptNotifications` | src/GraphWebhooks-Core/Controllers/NotificationController.cs:118-129 | The decryption loop yields the records `DecryptAll` describes, or `None` when a certificate fetch or a decryption throws. |
| `Controller.NotificationController.GetChangedMessages` | src/GraphWebhooks-Core/Controllers/NotificationController.cs:158-203 | The method completes exactly when the enrichment does not throw. It then appends the record list to the hub's log only if the list is non-empty. |
| `Controller.NotificationController.constructor` | src/GraphWebhooks-Core/Controllers/NotificationController.cs:42-61 | The controller keeps the collaborators it is given. |
| `Controller.NotificationHub.SendNotificationToClient` | src/GraphWebhooks-Core/Controllers/NotificationController.cs:131 | Each send appends exactly one batch to the log. |
| `Dictionary.Put` | src/GraphWebhooks-Core/Controllers/NotificationController.cs:100 | The indexer setter maps the key to the new value and leaves every other key unchanged. A new key is appended at the end of the key order, and an existing key keeps its place. No key is ever duplicated. |
| `Dictionary.GetFindsKey` | src/GraphWebhooks-Core/Controllers/NotificationController.cs:100 | A key has a value exactly when it is among the keys, and the value is stored beside it. |
| `Text.ContainsIgnoreCaseIff` | src/GraphWebhooks-Core/Controllers/NotificationController.cs:170 | The scan succeeds exactly when the pattern occurs, ignoring case, at some position of the resource. |
| `Ingest.PlainStep` | src/GraphWebhooks-Core/Controllers/NotificationController.cs:92-101 | One iteration throws exactly when the item is plain and either its subscription is missing, or it passes the check and has no resource. |
| `Ingest.CollectPlainFailsIff` | src/GraphWebhooks-Core/Controllers/NotificationController.cs:92-101 | The first loop throws exactly when some item of the batch is faulty in that sense. |
| `Ingest.LastKeptIsLast` | src/GraphWebhooks-Core/Controllers/NotificationController.cs:99-100 | `LastKept` finds a notification for a resource exactly when one passed the check. What it finds is one that passed, and no later notification for that resource passed. |
| `Ingest.CollectPlainLastWins` | src/GraphWebhooks-Core/Controllers/NotificationController.cs:92-101 | After the loop there is at most one entry per resource. Every entry is a plain notification that passed the exact client-state check, filed under its own resource, so a rich notification never enters. The entry for each resource is the last such notification in batch order. |
| `Ingest.CollectPlainKeys` | src/GraphWebhooks-Core/Controllers/NotificationController.cs:97-100 | A resource is a key of the dictionary exactly when some notification for it passed the check. |
| `Ingest.CollectPlainKeyOrder` | src/GraphWebhooks-Core/Controllers/NotificationController.cs:100-107 | The dictionary enumerates resources in the order in which each first passed the check. |
| `Ingest.CollectPlainIgnoresRejected` | src/GraphWebhooks-Core/Controllers/NotificationController.cs:97-101 | Removing an item that neither passes the check nor throws leaves the first loop's result unchanged. |
| `Ingest.AllValidatedIffEvery` | src/GraphWebhooks-Core/Controllers/NotificationController.cs:113-115 | The `Aggregate((x, y) => x && y)` fold over the validation results is the conjunction over all tokens. |
| `Ingest.Encrypted` | src/GraphWebhooks-Core/Controllers/NotificationController.cs:119 | The encrypted payloads selected are exactly those of the batch's rich notifications. |
| `Ingest.DecryptAllFailsIff` | src/GraphWebhooks-Core/Controllers/NotificationController.cs:119-128 | The decryption loop throws exactly when some rich notification cannot be decrypted, either because the certificate fetch or the decryptor throws. |
| `Ingest.DecryptAllOnePerItem` | src/GraphWebhooks-Core/Controllers/NotificationController.cs:118-128 | A completed decryption loop gives exactly one record per rich notification, with no deduplication and in batch order. Each record is the decryption of that notification's data, key and signature. |
| `Ingest.DecryptAllIgnoresPlain` | src/GraphWebhooks-Core/Controllers/NotificationController.cs:119 | Plain notifications do not affect the decryption loop. |
| `Enrichment.EnrichOneOutcomes` | src/GraphWebhooks-Core/Controllers/NotificationController.cs:163-196 | A non-message resource gives its bare path, and the result does not depend on the Graph fetch. A message resource is fetched app-only when the subscription's user id is empty, and as `DelegatedUser(tenantId, userId)` otherwise. It gives the fetched message, no record when a `ServiceException` is handled, and an exception (`None`) when the fetch fails in any other way. |
| `Enrichment.EnrichAllFailsIff` | src/GraphWebhooks-Core/Controllers/NotificationController.cs:161-197 | The enrichment loop throws exactly when one of its iterations throws. |
| `Enrichment.EnrichAllRecords` | src/GraphWebhooks-Core/Controllers/NotificationController.cs:160-197 | The bare-path records are exactly the paths of the non-message notifications. The message records are exactly the messages fetched for message notifications. The only notifications without a record are those whose fetch failed with a `ServiceException`. |
| `Enrichment.ChangedMessagesDispatch` | src/GraphWebhooks-Core/Controllers/NotificationController.cs:199-202 | `GetChangedMessagesAsync` sends at most one batch. It sends it exactly when the enrichment completes with a non-empty list, and that batch is the list. |
| `Listening.HandshakeEchoesToken` | src/GraphWebhooks-Core/Controllers/NotificationController.cs:148-153 | A non-empty validation token yields exactly `Content(HtmlEncode(token))`. Nothing is sent, and the outcome is the same for every request body. |
| `Listening.ResponseKinds` | src/GraphWebhooks-Core/Controllers/NotificationController.cs:78-154 | The response is `Content` exactly for a handshake. An `Unauthorized` response always carries "Token Validation failed". |
| `Listening.UnauthorizedIff` | src/GraphWebhooks-Core/Controllers/NotificationController.cs:104-137 | A batch is answered 401 exactly when the plain stages complete, tokens are present and some token fails. Only the plain records are then sent. |
| `Listening.NoDecryptionUnlessAuthenticated` | src/GraphWebhooks-Core/Controllers/NotificationController.cs:110-137 | Without a non-empty token list that validates completely, the outcome does not depend on the key vault or the decryptor, so nothing is decrypted. |
| `Listening.AcceptedWithoutTokens` | src/GraphWebhooks-Core/Controllers/NotificationController.cs:110-146 | With a null or empty token list the answer is 202 Accepted, and only plain records are sent. |
| `Listening.DecryptedBatchFollowsPlain` | src/GraphWebhooks-Core/Controllers/NotificationController.cs:116-132 | When all tokens validate and all items decrypt, one batch follows the plain records, even when there are no rich notifications. It holds one record per rich notification in batch order, and the answer is Accepted. |
| `Listening.FailuresAreAccepted` | src/GraphWebhooks-Core/Controllers/NotificationController.cs:140-146 | An exception in the first loop or in the enrichment gives Accepted with nothing sent. A decryption failure gives Accepted with only the plain records sent. |
| `Listening.DispatchShape` | src/GraphWebhooks-Core/Controllers/NotificationController.cs:104-132 | The plain records go first, in at most one non-empty batch. At most one decrypted batch follows. |
| `Listening.NoSurvivorsNoFetch` | src/GraphWebhooks-Core/Controllers/NotificationController.cs:104-108 | When no plain notification passes the check, the outcome does not depend on the Graph client, so enrichment does not run. |
| `Listening.ForgedNotificationIsInert` | src/GraphWebhooks-Core/Controllers/NotificationController.cs:92-101 | A plain notification with a mismatching client state changes nothing: the outcome equals that of the batch without it. |
| `Listening.IsHandshake` | src/GraphWebhooks-Core/Controllers/NotificationController.cs:80 | The handshake path is taken exactly when the query token is neither null nor empty. |
| `Listening.ListenOutcome` | src/GraphWebhooks-Core/Controllers/NotificationController.cs:78-154 | The endpoint's decision: a handshake gives `Content(HtmlEncode(token))` with nothing sent; an unparsable body gives Accepted with nothing sent; a parsed batch goes to `BatchOutcome`. |
| `Listening.BatchOutcome` | src/GraphWebhooks-Core/Controllers/NotificationController.cs:82-146 | The `try` block: the first loop, then the plain dispatch, then the token gate. An exception in either of the first two gives Accepted with nothing sent. |
| `Listening.PlainDispatch` | src/GraphWebhooks-Core/Controllers/NotificationController.cs:104-108 | Enrichment runs only when at least one plain notification survived, and its dispatch is what `GetChangedMessagesAsync` sends. |
| `Listening.RichOutcome` | src/GraphWebhooks-Core/Controllers/NotificationController.cs:110-146 | After the plain records are sent: no tokens gives Accepted; a failing token gives `Unauthorized`; otherwise the decrypted list is sent and Accepted returned, or Accepted alone when a decryption throws. |
| `Ingest.Kept` | src/GraphWebhooks-Core/Controllers/NotificationController.cs:92-98 | A notification passes the filter when it is plain, its subscription is found, and its client state equals the stored one exactly. |
| `Ingest.CollectPlain` | src/GraphWebhooks-Core/Controllers/NotificationController.cs:92-101 | The dictionary the first loop builds over the batch in order, overwriting by resource, or `None` when an iteration throws. |
| `Ingest.AllValidated` | src/GraphWebhooks-Core/Controllers/NotificationController.cs:113-115 | The non-empty `Aggregate` of the validation results with `&&`. |
| `Ingest.DecryptOne` | src/GraphWebhooks-Core/Controllers/NotificationController.cs:121-126 | Fetching the certificate and decrypting one item's data, key and signature; `None` when either throws. |
| `Ingest.DecryptAll` | src/GraphWebhooks-Core/Controllers/NotificationController.cs:118-128 | The decryption loop over the rich items in batch order, one text record each, or `None` when one throws. |
| `Enrichment.IdentityFor` | src/GraphWebhooks-Core/Controllers/NotificationController.cs:167-168 | App-only when the subscription's user id is empty, otherwise that user in the subscription's tenant. |
| `Enrichment.IsMessageResource` | src/GraphWebhooks-Core/Controllers/NotificationController.cs:170 | A resource is fetched when it contains "/message", ignoring case. |
| `Enrichment.ErrorHandlerCompletes` | src/GraphWebhooks-Core/Controllers/NotificationController.cs:184-191 | The `ServiceException` handler runs to its end: the error is non-null and any inner error carries both "request-id" and "date". |
| `Enrichment.EnrichOne` | src/GraphWebhooks-Core/Controllers/NotificationController.cs:163-196 | One iteration of the enrichment loop: the records it adds, or `None` when an exception leaves the loop. |
| `Enrichment.EnrichAll` | src/GraphWebhooks-Core/Controllers/NotificationController.cs:160-197 | The record list the enrichment loop builds in order, or `None` when an iteration throws. |

## Left out

- `src/GraphWebhooks-Core/Models/KeyVaultOptions.cs`: a configuration object with no behaviour.
- JSON deserialization (:86-91), because it is a library call. The body arrives parsed. A malformed document, a null document, a null `value` array and a null item in `value` (which throws inside the filter at :92) are all `Unparsable`, since each throws before any other work.
- `ValidateTokens`: the token validator's internals are not shown, so it is a total boolean function. A validator that throws would also end in 202 Accepted, and that case is not modelled.
- `DecryptNotifications`: the decryptor's and the key vault's internals are not shown. The key vault is assumed to give the same result on each call in one request.
- The Graph request, and the projection of the fetched message into the display record (:172-182), are abstracted. The fetch returns the shaped summary, a `ServiceException`, or another exception.
- Logging (:142, :186-190) is left out. Only the exceptions the ServiceException handler can throw are kept.
- A non-null inner error with null additional data is represented as an empty map. Both throw at the indexer.
- The SignalR send is a ghost log, modelled as never failing. Delivery to browsers is a network concern.
- The `Task.WhenAll` parallelism (:113-115) becomes a sequential loop that still validates every token.
- `HttpContext.User` and `ClaimsPrincipalFactory` (:167-168) are ambient framework state. Only the choice between app-only and user identity is kept.
- `WebUtility.HtmlEncode` (:152) is an uninterpreted function, because its encoding table belongs to the library.
- `LoadView` and `LoadViewAppOnly` (:63-73) only render a view.
- The constructor's null-argument checks (:56-60) are left out. They concern dependency injection, not the callback.
- `Text.ContainsIgnoreCaseIff` folds only ASCII letters. Non-ASCII case equivalences of the culture-aware comparison are not modelled, and neither are the characters it ignores (such as a soft hyphen, U+00AD).
- `Notifications.LookupSubscription`: the subscription store's code is not part of this model. It is taken to be a read-only map. An unknown id is assumed to return null or throw, so in both cases processing aborts with 202 Accepted.
- `Dictionary.Put`: .NET documents dictionary enumeration order as unspecified. The model uses the order the implementation gives without removals: first insertion, with overwrites in place.
