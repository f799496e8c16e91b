/** What one call of the `Listen` endpoint decides: the response it returns and
    the batches of records it sends to the browser, in order. */
module Listening {
  import opened Wrappers
  import opened Dictionary
  import opened Notifications
  import opened Ingest
  import opened Enrichment

  datatype Outcome = Outcome(response: Response, dispatched: seq<seq<DisplayRecord>>)

  /** `string.IsNullOrEmpty(validationToken)` is false: the request is the
      validation handshake of a new subscription. */
  predicate IsHandshake(validationToken: Option<string>)
  {
    validationToken.Some? && validationToken.value != ""
  }

  /** Enrichment of the deduplicated plain notifications: it runs only when at
      least one survived. */
  function PlainDispatch(svc: Services, plain: PlainMap): Option<seq<seq<DisplayRecord>>>
  {
    if |plain| > 0 then ChangedMessagesDispatch(svc.store, svc.fetchMessage, Values(plain)) else Some([])
  }

  /** The token gate and the decryption of the rich notifications, after the
      plain records `sent` have been dispatched. */
  function RichOutcome(svc: Services, c: NotificationCollection, sent: seq<seq<DisplayRecord>>): Outcome
  {
    if !HasValidationTokens(c) then Outcome(Accepted, sent)
    else if !AllValidated(svc.validateToken, c.validationTokens.value) then
      Outcome(Unauthorized(TokenValidationFailed), sent)
    else match DecryptAll(svc.certificate, svc.decrypt, c.value)
      case None => Outcome(Accepted, sent)
      case Some(rs) => Outcome(Accepted, sent + [rs])
  }

  /** The batch path; every exception ends in 202 Accepted. */
  function BatchOutcome(svc: Services, c: NotificationCollection): Outcome
  {
    match CollectPlain(svc.store, c.value)
    case None => Outcome(Accepted, [])
    case Some(plain) =>
      match PlainDispatch(svc, plain)
      case None => Outcome(Accepted, [])
      case Some(sent) => RichOutcome(svc, c, sent)
  }

  function ListenOutcome(svc: Services, validationToken: Option<string>, body: RequestBody): Outcome
  {
    if IsHandshake(validationToken) then Outcome(Content(svc.htmlEncode(validationToken.value)), [])
    else match body
      case Unparsable => Outcome(Accepted, [])
      case Parsed(c) => BatchOutcome(svc, c)
  }

  /** A handshake echoes the encoded token, reads no body and sends nothing. */
  lemma HandshakeEchoesToken(svc: Services, validationToken: Option<string>, body: RequestBody, otherBody: RequestBody)
    requires IsHandshake(validationToken)
    ensures ListenOutcome(svc, validationToken, body) == Outcome(Content(svc.htmlEncode(validationToken.value)), [])
    ensures ListenOutcome(svc, validationToken, body) == ListenOutcome(svc, validationToken, otherBody)
  {
  }

  /** The three responses: `Content` only for a handshake, `Unauthorized` only
      with the token-failure message, `Accepted` otherwise. */
  lemma ResponseKinds(svc: Services, validationToken: Option<string>, body: RequestBody)
    ensures var r := ListenOutcome(svc, validationToken, body).response;
      && (r.Content? <==> IsHandshake(validationToken))
      && (r.Unauthorized? ==> r == Unauthorized(TokenValidationFailed))
  {
  }

  /** The batch is answered 401 exactly when the plain stages complete, tokens are
      present and at least one of them fails. The plain records have then
      already been sent, and nothing else is. */
  lemma UnauthorizedIff(svc: Services, c: NotificationCollection)
    ensures BatchOutcome(svc, c).response.Unauthorized? <==>
      && CollectPlain(svc.store, c.value).Some?
      && PlainDispatch(svc, CollectPlain(svc.store, c.value).value).Some?
      && HasValidationTokens(c)
      && exists i :: 0 <= i < |c.validationTokens.value| && !svc.validateToken(c.validationTokens.value[i])
    ensures BatchOutcome(svc, c).response.Unauthorized? ==>
      BatchOutcome(svc, c).dispatched == PlainDispatch(svc, CollectPlain(svc.store, c.value).value).value
  {
    if HasValidationTokens(c) {
      AllValidatedIffEvery(svc.validateToken, c.validationTokens.value);
    }
  }

  /** Rich notifications are decrypted only behind a non-empty token list that
      validates completely: otherwise the outcome does not depend on the key
      vault or the decryptor at all. */
  lemma NoDecryptionUnlessAuthenticated(svc: Services, c: NotificationCollection,
                                         certificate: Option<Certificate>,
                                         decrypt: (string, string, string, Certificate) -> Option<string>)
    requires !HasValidationTokens(c) ||
      exists i :: 0 <= i < |c.validationTokens.value| && !svc.validateToken(c.validationTokens.value[i])
    ensures BatchOutcome(svc.(certificate := certificate, decrypt := decrypt), c) == BatchOutcome(svc, c)
  {
    if HasValidationTokens(c) {
      AllValidatedIffEvery(svc.validateToken, c.validationTokens.value);
    }
  }

  /** Without tokens the batch is always answered 202 Accepted and no decrypted
      batch is sent. */
  lemma AcceptedWithoutTokens(svc: Services, c: NotificationCollection)
    requires !HasValidationTokens(c)
    ensures BatchOutcome(svc, c).response == Accepted
    ensures BatchOutcome(svc, c).dispatched ==
      match CollectPlain(svc.store, c.value)
      case None => []
      case Some(plain) => PlainDispatch(svc, plain).GetOr([])
  {
  }

  /** When every token validates and every rich notification decrypts, one batch
      with one record per rich notification, in batch order, follows the plain
      records, even when there are no rich notifications. */
  lemma DecryptedBatchFollowsPlain(svc: Services, c: NotificationCollection)
    requires CollectPlain(svc.store, c.value).Some?
    requires PlainDispatch(svc, CollectPlain(svc.store, c.value).value).Some?
    requires HasValidationTokens(c)
    requires forall i :: 0 <= i < |c.validationTokens.value| ==> svc.validateToken(c.validationTokens.value[i])
    requires DecryptAll(svc.certificate, svc.decrypt, c.value).Some?
    ensures var o := BatchOutcome(svc, c);
      var plainSent := PlainDispatch(svc, CollectPlain(svc.store, c.value).value).value;
      && o.response == Accepted
      && |o.dispatched| == |plainSent| + 1
      && o.dispatched[..|plainSent|] == plainSent
      && |o.dispatched[|plainSent|]| == |Encrypted(c.value)|
      && forall j :: 0 <= j < |Encrypted(c.value)| ==>
           o.dispatched[|plainSent|][j].TextRecord? &&
           DecryptOne(svc.certificate, svc.decrypt, Encrypted(c.value)[j]) == Some(o.dispatched[|plainSent|][j].text)
  {
    AllValidatedIffEvery(svc.validateToken, c.validationTokens.value);
    DecryptAllOnePerItem(svc.certificate, svc.decrypt, c.value);
  }

  /** A failure before the token gate sends nothing; a failed decryption drops
      the whole decrypted batch but not the plain records. All are 202 Accepted. */
  lemma FailuresAreAccepted(svc: Services, c: NotificationCollection)
    ensures CollectPlain(svc.store, c.value).None? ==> BatchOutcome(svc, c) == Outcome(Accepted, [])
    ensures CollectPlain(svc.store, c.value).Some? && PlainDispatch(svc, CollectPlain(svc.store, c.value).value).None? ==>
      BatchOutcome(svc, c) == Outcome(Accepted, [])
    ensures
      (&& CollectPlain(svc.store, c.value).Some?
       && PlainDispatch(svc, CollectPlain(svc.store, c.value).value).Some?
       && HasValidationTokens(c)
       && (forall i :: 0 <= i < |c.validationTokens.value| ==> svc.validateToken(c.validationTokens.value[i]))
       && exists e :: e in Encrypted(c.value) && DecryptOne(svc.certificate, svc.decrypt, e).None?)
      ==> BatchOutcome(svc, c) == Outcome(Accepted, PlainDispatch(svc, CollectPlain(svc.store, c.value).value).value)
  {
    if HasValidationTokens(c) {
      AllValidatedIffEvery(svc.validateToken, c.validationTokens.value);
    }
    DecryptAllFailsIff(svc.certificate, svc.decrypt, c.value);
  }

  /** Every batch sent is non-empty except the decrypted one, and the plain
      records, when any are sent, go first and in a single batch. */
  lemma DispatchShape(svc: Services, c: NotificationCollection)
    ensures var o := BatchOutcome(svc, c);
      var sent := match CollectPlain(svc.store, c.value)
        case None => []
        case Some(plain) => PlainDispatch(svc, plain).GetOr([]);
      && |sent| <= 1
      && (forall b :: b in sent ==> |b| > 0)
      && |sent| <= |o.dispatched| <= |sent| + 1
      && o.dispatched[..|sent|] == sent
  {
  }

  /** With no plain notification surviving the check, the Graph client is never
      used: the outcome does not depend on `fetchMessage`. */
  lemma NoSurvivorsNoFetch(svc: Services, c: NotificationCollection, fetch: (string, Identity) -> FetchOutcome)
    requires CollectPlain(svc.store, c.value).Some?
    requires forall i :: 0 <= i < |c.value| ==> !Kept(svc.store, c.value[i])
    ensures BatchOutcome(svc.(fetchMessage := fetch), c) == BatchOutcome(svc, c)
  {
    var plain := CollectPlain(svc.store, c.value).value;
    if |plain| > 0 {
      CollectPlainKeys(svc.store, c.value, Keys(plain)[0]);
      assert false;
    }
  }

  /** A plain notification whose client state does not match (a forgery) has no
      effect at all: the outcome is that of the batch without it. */
  lemma ForgedNotificationIsInert(svc: Services, c: NotificationCollection, a: seq<ChangeNotification>, n: ChangeNotification, b: seq<ChangeNotification>)
    requires c.value == a + [n] + b
    requires n.IsPlain() && LookupSubscription(svc.store, n.subscriptionId).Some?
    requires n.clientState != LookupSubscription(svc.store, n.subscriptionId).value.clientState
    ensures BatchOutcome(svc, c) == BatchOutcome(svc, c.(value := a + b))
  {
    CollectPlainIgnoresRejected(svc.store, a, n, b);
    DecryptAllIgnoresPlain(svc.certificate, svc.decrypt, a, n, b);
  }
}
