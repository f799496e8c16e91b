/** The `NotificationController` and the SignalR hub it sends to. The
    controller's collaborators are fixed when it is constructed; the only state
    that changes is what the hub has sent to the browser. Inside the `try` block
    of `Listen`, every point where the source can throw returns 202 Accepted,
    as its catch-all does. */
module Controller {
  import opened Wrappers
  import opened Dictionary
  import opened Notifications
  import opened Ingest
  import opened Enrichment
  import opened Listening

  /** The SignalR hub, seen only through the batches sent to the browser. */
  class NotificationHub {
    ghost var sent: seq<seq<DisplayRecord>>

    constructor()
      ensures sent == []
    {
      sent := [];
    }

    /** `NotificationService.SendNotificationToClient`: one batch per call. */
    method SendNotificationToClient(records: seq<DisplayRecord>)
      modifies this
      ensures sent == old(sent) + [records]
    {
      sent := sent + [records];
    }
  }

  class NotificationController {
    const services: Services
    const notificationHub: NotificationHub

    constructor(services: Services, notificationHub: NotificationHub)
      ensures this.services == services && this.notificationHub == notificationHub
    {
      this.services := services;
      this.notificationHub := notificationHub;
    }

    /** The notification URL of the subscriptions. */
    method Listen(validationToken: Option<string>, body: RequestBody) returns (response: Response)
      modifies notificationHub
      ensures response == ListenOutcome(services, validationToken, body).response
      ensures notificationHub.sent == old(notificationHub.sent) + ListenOutcome(services, validationToken, body).dispatched
    {
      if validationToken.None? || validationToken.value == "" {
        if body.Unparsable? {
          return Accepted;
        }
        var collection := body.collection;
        assert ListenOutcome(services, validationToken, body) == BatchOutcome(services, collection);
        var plainNotifications := CollectPlainNotifications(collection.value);
        if plainNotifications.None? {
          return Accepted;
        }
        ghost var plainSent := PlainDispatch(services, plainNotifications.value);
        if |plainNotifications.value| > 0 {
          var completed := GetChangedMessages(Values(plainNotifications.value));
          if !completed {
            return Accepted;
          }
        }
        assert plainSent.Some? && notificationHub.sent == old(notificationHub.sent) + plainSent.value;
        assert BatchOutcome(services, collection) == RichOutcome(services, collection, plainSent.value);
        if collection.validationTokens.Some? && |collection.validationTokens.value| > 0 {
          var areValidationTokensValid := ValidateTokens(collection.validationTokens.value);
          AllValidatedIffEvery(services.validateToken, collection.validationTokens.value);
          if areValidationTokensValid {
            var notificationsToDisplay := DecryptNotifications(collection.value);
            if notificationsToDisplay.None? {
              return Accepted;
            }
            notificationHub.SendNotificationToClient(notificationsToDisplay.value);
            return Accepted;
          } else {
            return Unauthorized(TokenValidationFailed);
          }
        }
        return Accepted;
      } else {
        // The validation handshake of a new subscription.
        return Content(services.htmlEncode(validationToken.value));
      }
    }

    /** The first loop of `Listen`: the client-state filter, keeping the latest
        notification per resource; `None` when it throws. */
    method CollectPlainNotifications(items: seq<ChangeNotification>) returns (plainNotifications: Option<PlainMap>)
      ensures plainNotifications == CollectPlain(services.store, items)
    {
      var plain: PlainMap := [];
      var i := 0;
      while i < |items|
        invariant 0 <= i <= |items|
        invariant CollectPlain(services.store, items[..i]) == Some(plain)
      {
        var notification := items[i];
        assert items[..i + 1][..i] == items[..i];
        if notification.IsPlain() {
          var subscription := LookupSubscription(services.store, notification.subscriptionId);
          if subscription.None? {
            CollectPlainFailsIff(services.store, items);
            return None;
          }
          if notification.clientState == subscription.value.clientState {
            if notification.resource.None? {
              CollectPlainFailsIff(services.store, items);
              return None;
            }
            plain := Put(plain, notification.resource.value, notification);
          }
        }
        i := i + 1;
      }
      assert items[..i] == items;
      return Some(plain);
    }

    /** Validates every token (all of them, as `Task.WhenAll` does) and folds the
        results with `&&`. */
    method ValidateTokens(tokens: seq<string>) returns (valid: bool)
      requires |tokens| > 0
      ensures valid <==> forall i :: 0 <= i < |tokens| ==> services.validateToken(tokens[i])
    {
      valid := services.validateToken(tokens[0]);
      var k := 1;
      while k < |tokens|
        invariant 1 <= k <= |tokens|
        invariant valid == AllValidated(services.validateToken, tokens[..k])
      {
        var result := services.validateToken(tokens[k]);
        assert tokens[..k + 1][..k] == tokens[..k];
        valid := valid && result;
        k := k + 1;
      }
      assert tokens[..k] == tokens;
      AllValidatedIffEvery(services.validateToken, tokens);
    }

    /** The second loop of `Listen`: one record per rich notification, fetching
        the certificate and decrypting each in turn; `None` when either throws. */
    method DecryptNotifications(items: seq<ChangeNotification>) returns (notificationsToDisplay: Option<seq<DisplayRecord>>)
      ensures notificationsToDisplay == DecryptAll(services.certificate, services.decrypt, items)
    {
      var records: seq<DisplayRecord> := [];
      var j := 0;
      while j < |items|
        invariant 0 <= j <= |items|
        invariant DecryptAll(services.certificate, services.decrypt, items[..j]) == Some(records)
      {
        var item := items[j];
        assert items[..j + 1][..j] == items[..j];
        if !item.IsPlain() {
          var content := item.encryptedContent.value;
          assert content in Encrypted(items);
          if services.certificate.None? {
            DecryptAllFailsIff(services.certificate, services.decrypt, items);
            return None;
          }
          var decrypted := services.decrypt(content.data, content.dataKey, content.dataSignature, services.certificate.value);
          if decrypted.None? {
            DecryptAllFailsIff(services.certificate, services.decrypt, items);
            return None;
          }
          records := records + [TextRecord(decrypted.value)];
        }
        j := j + 1;
      }
      assert items[..j] == items;
      return Some(records);
    }

    /** Builds the records of the deduplicated plain notifications and sends
        them if there are any; `completed` is false when an exception leaves
        the method (and then nothing has been sent). */
    method GetChangedMessages(notifications: seq<ChangeNotification>) returns (completed: bool)
      modifies notificationHub
      ensures completed <==> ChangedMessagesDispatch(services.store, services.fetchMessage, notifications).Some?
      ensures notificationHub.sent ==
        old(notificationHub.sent) + ChangedMessagesDispatch(services.store, services.fetchMessage, notifications).GetOr([])
    {
      var notificationsToDisplay: seq<DisplayRecord> := [];
      var i := 0;
      while i < |notifications|
        invariant 0 <= i <= |notifications|
        invariant EnrichAll(services.store, services.fetchMessage, notifications[..i]) == Some(notificationsToDisplay)
        invariant notificationHub.sent == old(notificationHub.sent)
      {
        var notification := notifications[i];
        assert notifications[..i + 1][..i] == notifications[..i];
        var subscription := LookupSubscription(services.store, notification.subscriptionId);
        if subscription.None? || notification.resource.None? {
          EnrichAllFailsIff(services.store, services.fetchMessage, notifications);
          return false;
        }
        var resource := notification.resource.value;
        if IsMessageResource(resource) {
          var message := services.fetchMessage(resource, IdentityFor(subscription.value));
          match message
          case Fetched(m) =>
            assert EnrichOne(services.store, services.fetchMessage, notification) == Some([MessageRecord(m)]);
            notificationsToDisplay := notificationsToDisplay + [MessageRecord(m)];
          case ServiceFault(e) =>
            if !ErrorHandlerCompletes(e) {
              EnrichAllFailsIff(services.store, services.fetchMessage, notifications);
              return false;
            }
            assert EnrichOne(services.store, services.fetchMessage, notification) == Some([]);
            assert notificationsToDisplay + [] == notificationsToDisplay;
          case OtherFault =>
            EnrichAllFailsIff(services.store, services.fetchMessage, notifications);
            return false;
        } else {
          assert EnrichOne(services.store, services.fetchMessage, notification) == Some([TextRecord(resource)]);
          notificationsToDisplay := notificationsToDisplay + [TextRecord(resource)];
        }
        i := i + 1;
      }
      assert notifications[..i] == notifications;
      if |notificationsToDisplay| > 0 {
        notificationHub.SendNotificationToClient(notificationsToDisplay);
      }
      return true;
    }
  }
}
