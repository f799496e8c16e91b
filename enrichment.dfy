/** `GetChangedMessagesAsync`: for every deduplicated plain notification, fetch
    the changed message (as the subscribing user, or as the application) or use
    the bare resource path, and send the records to the browser if there are any. */
module Enrichment {
  import opened Wrappers
  import opened Text
  import opened Notifications

  /** The identity a fetch runs as: the application when the subscription has no
      user, otherwise that user in the subscription's tenant. */
  function IdentityFor(sub: Subscription): Identity
  {
    if sub.userId == "" then AppOnly else DelegatedUser(sub.tenantId, sub.userId)
  }

  /** Resources that are fetched: those containing "/message", ignoring case. */
  predicate IsMessageResource(resource: string)
  {
    ContainsIgnoreCase(resource, "/message")
  }

  /** The `ServiceException` handler runs to its end. It reads `Error.Message`
      and, when there is an inner error, the "request-id" and "date" entries of
      its additional data; a null `Error` or a missing entry throws from inside
      the handler. */
  predicate ErrorHandlerCompletes(error: Option<GraphError>)
  {
    && error.Some?
    && (error.value.innerErrorData.None? ||
        ("request-id" in error.value.innerErrorData.value && "date" in error.value.innerErrorData.value))
  }

  /** The records one iteration adds, or `None` if an exception leaves the loop. */
  function EnrichOne(store: map<SubscriptionId, Subscription>, fetch: (string, Identity) -> FetchOutcome, n: ChangeNotification): Option<seq<DisplayRecord>>
  {
    match LookupSubscription(store, n.subscriptionId)
    case None => None
    case Some(sub) =>
      match n.resource
      case None => None
      case Some(r) =>
        if IsMessageResource(r) then
          match fetch(r, IdentityFor(sub))
          case Fetched(m) => Some([MessageRecord(m)])
          case ServiceFault(e) => if ErrorHandlerCompletes(e) then Some([]) else None
          case OtherFault => None
        else Some([TextRecord(r)])
  }

  /** The record list the loop builds, or `None` if an exception leaves it. */
  function EnrichAll(store: map<SubscriptionId, Subscription>, fetch: (string, Identity) -> FetchOutcome, ns: seq<ChangeNotification>): Option<seq<DisplayRecord>>
  {
    if ns == [] then Some([])
    else match EnrichAll(store, fetch, ns[..|ns| - 1])
      case None => None
      case Some(rs) =>
        match EnrichOne(store, fetch, ns[|ns| - 1])
        case None => None
        case Some(more) => Some(rs + more)
  }

  /** The batches `GetChangedMessagesAsync` sends, or `None` if it throws. */
  function ChangedMessagesDispatch(store: map<SubscriptionId, Subscription>, fetch: (string, Identity) -> FetchOutcome, ns: seq<ChangeNotification>): (r: Option<seq<seq<DisplayRecord>>>)
    ensures r.None? <==> EnrichAll(store, fetch, ns).None?
    ensures r.Some? ==> |r.value| <= 1 && forall b :: b in r.value ==> b == EnrichAll(store, fetch, ns).value && |b| > 0
    ensures r.Some? && |EnrichAll(store, fetch, ns).value| > 0 ==> |r.value| == 1
  {
    match EnrichAll(store, fetch, ns)
    case None => None
    case Some(rs) => Some(if |rs| > 0 then [rs] else [])
  }

  /** `n` is a non-message resource: it is shown as its bare path. */
  predicate BareRecordFor(store: map<SubscriptionId, Subscription>, n: ChangeNotification, r: string)
  {
    LookupSubscription(store, n.subscriptionId).Some? && n.resource == Some(r) && !IsMessageResource(r)
  }

  /** `n` is a message resource and fetching it, as the identity its subscription
      calls for, returned `m`. */
  predicate FetchedFor(store: map<SubscriptionId, Subscription>, fetch: (string, Identity) -> FetchOutcome, n: ChangeNotification, m: MessageSummary)
  {
    && LookupSubscription(store, n.subscriptionId).Some?
    && n.resource.Some? && IsMessageResource(n.resource.value)
    && fetch(n.resource.value, IdentityFor(LookupSubscription(store, n.subscriptionId).value)) == Fetched(m)
  }

  /** `n` is a message resource whose fetch failed with a `ServiceException`. */
  predicate DroppedFor(store: map<SubscriptionId, Subscription>, fetch: (string, Identity) -> FetchOutcome, n: ChangeNotification)
  {
    && LookupSubscription(store, n.subscriptionId).Some?
    && n.resource.Some? && IsMessageResource(n.resource.value)
    && fetch(n.resource.value, IdentityFor(LookupSubscription(store, n.subscriptionId).value)).ServiceFault?
  }

  function CountDropped(store: map<SubscriptionId, Subscription>, fetch: (string, Identity) -> FetchOutcome, ns: seq<ChangeNotification>): nat
  {
    if ns == [] then 0
    else CountDropped(store, fetch, ns[..|ns| - 1]) + (if DroppedFor(store, fetch, ns[|ns| - 1]) then 1 else 0)
  }

  /** The outcomes of one notification whose subscription and resource are
      known: a non-message resource gives its bare path without calling `fetch`;
      a message resource is fetched app-only when the subscription has no user
      and as that user otherwise, and gives the message, nothing when the fetch
      fails with a handled `ServiceException`, or an exception for any other
      failure. */
  lemma EnrichOneOutcomes(store: map<SubscriptionId, Subscription>, fetch: (string, Identity) -> FetchOutcome, other: (string, Identity) -> FetchOutcome, n: ChangeNotification)
    requires LookupSubscription(store, n.subscriptionId).Some? && n.resource.Some?
    ensures var sub, r := LookupSubscription(store, n.subscriptionId).value, n.resource.value;
      && (!IsMessageResource(r) ==>
            EnrichOne(store, fetch, n) == EnrichOne(store, other, n) == Some([TextRecord(r)]))
      && (IsMessageResource(r) && fetch(r, IdentityFor(sub)).Fetched? ==>
            EnrichOne(store, fetch, n) == Some([MessageRecord(fetch(r, IdentityFor(sub)).message)]))
      && (IsMessageResource(r) && fetch(r, IdentityFor(sub)).ServiceFault? ==>
            EnrichOne(store, fetch, n) == (if ErrorHandlerCompletes(fetch(r, IdentityFor(sub)).error) then Some([]) else None))
      && (IsMessageResource(r) && fetch(r, IdentityFor(sub)).OtherFault? ==>
            EnrichOne(store, fetch, n) == None)
      && (sub.userId == "" ==> IdentityFor(sub) == AppOnly)
      && (sub.userId != "" ==> IdentityFor(sub) == DelegatedUser(sub.tenantId, sub.userId))
  {
  }

  /** The loop throws exactly when some iteration throws. */
  lemma {:induction false} EnrichAllFailsIff(store: map<SubscriptionId, Subscription>, fetch: (string, Identity) -> FetchOutcome, ns: seq<ChangeNotification>)
    ensures EnrichAll(store, fetch, ns).None? <==> exists i :: 0 <= i < |ns| && EnrichOne(store, fetch, ns[i]).None?
  {
    if ns != [] {
      var p := ns[..|ns| - 1];
      EnrichAllFailsIff(store, fetch, p);
      assert forall i :: 0 <= i < |p| ==> p[i] == ns[i];
    }
  }

  /** When the loop completes: the bare paths in the list are exactly those of
      the non-message notifications, the messages exactly those fetched for
      message notifications, and only the notifications whose fetch failed
      with a `ServiceException` are missing. */
  lemma {:induction false} EnrichAllRecords(store: map<SubscriptionId, Subscription>, fetch: (string, Identity) -> FetchOutcome, ns: seq<ChangeNotification>)
    requires EnrichAll(store, fetch, ns).Some?
    ensures var rs := EnrichAll(store, fetch, ns).value;
      && (forall t :: TextRecord(t) in rs <==> exists i :: 0 <= i < |ns| && BareRecordFor(store, ns[i], t))
      && (forall m :: MessageRecord(m) in rs <==> exists i :: 0 <= i < |ns| && FetchedFor(store, fetch, ns[i], m))
      && |rs| + CountDropped(store, fetch, ns) == |ns|
  {
    if ns != [] {
      var p := ns[..|ns| - 1];
      EnrichAllRecords(store, fetch, p);
      assert forall i :: 0 <= i < |p| ==> p[i] == ns[i];
    }
  }
}
