/** The data the webhook callback handles, and the collaborators it calls.

    C# references that the handler dereferences are `Option`s: `None` stands
    for null. A collaborator that can throw returns `None` (or a failure
    variant) for the exception. */
module Notifications {
  import opened Wrappers

  /** A subscription id (a GUID in the source). */
  type SubscriptionId = string

  /** What the subscription store keeps per subscription. `userId` is "" for an
      application-only subscription (a null id is treated the same way). */
  datatype Subscription = Subscription(userId: string, tenantId: string, clientState: Option<string>)

  /** The encrypted resource data of a rich notification. */
  datatype EncryptedContent = EncryptedContent(data: string, dataKey: string, dataSignature: string)

  /** One item of the `value` array of a notification batch. */
  datatype ChangeNotification = ChangeNotification(
    subscriptionId: Option<SubscriptionId>,
    resource: Option<string>,
    clientState: Option<string>,
    encryptedContent: Option<EncryptedContent>)
  {
    /** A notification without resource data. */
    predicate IsPlain()
    {
      encryptedContent.None?
    }
  }

  /** A deserialized batch. */
  datatype NotificationCollection = NotificationCollection(
    value: seq<ChangeNotification>,
    validationTokens: Option<seq<string>>)

  /** The request body after deserialization: a batch, or a failure to obtain one
      (malformed JSON, a null document or a null `value` array). */
  datatype RequestBody = Parsed(collection: NotificationCollection) | Unparsable

  /** The fields of a fetched message that are shown to the browser. */
  datatype MessageSummary = MessageSummary(
    from: Option<string>,
    subject: Option<string>,
    sentDateTime: string,
    to: Option<seq<string>>)

  /** A `NotificationViewModel`: a message summary, or a plain string (a bare
      resource path or a decrypted payload). */
  datatype DisplayRecord = MessageRecord(summary: MessageSummary) | TextRecord(text: string)

  /** Whom a Graph request runs as. */
  datatype Identity = AppOnly | DelegatedUser(tenantId: string, userId: string)

  /** The `Error` of a Graph `ServiceException`; `innerErrorData` is the
      additional data of its inner error, `None` when there is no inner error. */
  datatype GraphError = GraphError(message: string, innerErrorData: Option<map<string, string>>)

  /** The result of fetching a message: the message, a `ServiceException`
      (whose `Error` may be null), or any other exception. */
  datatype FetchOutcome =
    | Fetched(message: MessageSummary)
    | ServiceFault(error: Option<GraphError>)
    | OtherFault

  datatype Certificate = Certificate(thumbprint: string)

  /** The collaborators of the controller.
      - `store`: the subscription store; a missing id makes the lookup fail;
      - `validateToken`: the token validator, already configured with the tenant
        and the application id;
      - `certificate`: what the key vault returns, `None` when it throws;
      - `decrypt`: the decryptor applied to data, data key, signature and
        certificate, `None` when it throws;
      - `fetchMessage`: the Graph message request for a resource and identity;
      - `htmlEncode`: the HTML entity encoder. */
  datatype Services = Services(
    store: map<SubscriptionId, Subscription>,
    validateToken: string -> bool,
    certificate: Option<Certificate>,
    decrypt: (string, string, string, Certificate) -> Option<string>,
    fetchMessage: (string, Identity) -> FetchOutcome,
    htmlEncode: string -> string)

  /** The action results the endpoint returns. */
  datatype Response = Content(body: string) | Accepted | Unauthorized(message: string)

  const TokenValidationFailed: string := "Token Validation failed"

  /** The subscription-store lookup by a notification's id, followed by a
      dereference of the result: `None` when the id is null, or when it is
      unknown (the store is taken to return null or throw for an unknown id). */
  function LookupSubscription(store: map<SubscriptionId, Subscription>, id: Option<SubscriptionId>): Option<Subscription>
  {
    if id.Some? && id.value in store then Some(store[id.value]) else None
  }
}
