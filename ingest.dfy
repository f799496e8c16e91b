/** The batch stages of `Listen` that need no downstream call: the client-state
    filter with its last-write-wins dictionary, the validation-token gate and the
    decryption of rich notifications. Each stage is a function of the batch;
    `None` stands for an exception, which the handler's catch-all turns into
    202 Accepted. */
module Ingest {
  import opened Wrappers
  import opened Dictionary
  import opened Notifications

  type PlainMap = Dict<string, ChangeNotification>

  // ---------------------------------------------------------------------------
  // Client-state filter and deduplication

  /** `n` passes the client-state check: a plain notification of a known
      subscription whose client state equals the stored one exactly. */
  predicate Kept(store: map<SubscriptionId, Subscription>, n: ChangeNotification)
  {
    && n.IsPlain()
    && LookupSubscription(store, n.subscriptionId).Some?
    && n.clientState == LookupSubscription(store, n.subscriptionId).value.clientState
  }

  predicate KeptFor(store: map<SubscriptionId, Subscription>, n: ChangeNotification, k: string)
  {
    Kept(store, n) && n.resource == Some(k)
  }

  /** Processing `n` in the first pass throws: its subscription cannot be found,
      or it passes the check but has no resource to key the dictionary with. */
  predicate Faulty(store: map<SubscriptionId, Subscription>, n: ChangeNotification)
  {
    && n.IsPlain()
    && (LookupSubscription(store, n.subscriptionId).None? || (Kept(store, n) && n.resource.None?))
  }

  /** One iteration of the first pass. */
  function PlainStep(store: map<SubscriptionId, Subscription>, d: PlainMap, n: ChangeNotification): (r: Option<PlainMap>)
    ensures r.None? <==> Faulty(store, n)
  {
    if !n.IsPlain() then Some(d)
    else match LookupSubscription(store, n.subscriptionId)
      case None => None
      case Some(sub) =>
        if n.clientState != sub.clientState then Some(d)
        else match n.resource
          case None => None
          case Some(r) => Some(Put(d, r, n))
  }

  /** The dictionary after the first pass over `items`, or `None` if it throws. */
  function CollectPlain(store: map<SubscriptionId, Subscription>, items: seq<ChangeNotification>): Option<PlainMap>
  {
    if items == [] then Some([])
    else match CollectPlain(store, items[..|items| - 1])
      case None => None
      case Some(d) => PlainStep(store, d, items[|items| - 1])
  }

  /** The last notification of `items` that passes the check for resource `k`. */
  function LastKept(store: map<SubscriptionId, Subscription>, items: seq<ChangeNotification>, k: string): Option<ChangeNotification>
  {
    if items == [] then None
    else if KeptFor(store, items[|items| - 1], k) then Some(items[|items| - 1])
    else LastKept(store, items[..|items| - 1], k)
  }

  /** The first pass throws exactly when some item is faulty. */
  lemma {:induction false} CollectPlainFailsIff(store: map<SubscriptionId, Subscription>, items: seq<ChangeNotification>)
    ensures CollectPlain(store, items).None? <==> exists i :: 0 <= i < |items| && Faulty(store, items[i])
  {
    if items != [] {
      var p := items[..|items| - 1];
      CollectPlainFailsIff(store, p);
      assert forall i :: 0 <= i < |p| ==> p[i] == items[i];
    }
  }

  /** `LastKept` is the last matching item: nothing after it matches. */
  lemma {:induction false} LastKeptIsLast(store: map<SubscriptionId, Subscription>, items: seq<ChangeNotification>, k: string)
    ensures LastKept(store, items, k).Some? <==> exists i :: 0 <= i < |items| && KeptFor(store, items[i], k)
    ensures LastKept(store, items, k).Some? ==>
      exists i :: 0 <= i < |items| && items[i] == LastKept(store, items, k).value
        && KeptFor(store, items[i], k)
        && forall j :: i < j < |items| ==> !KeptFor(store, items[j], k)
  {
    if items != [] {
      var p := items[..|items| - 1];
      LastKeptIsLast(store, p, k);
      assert forall i :: 0 <= i < |p| ==> p[i] == items[i];
    }
  }

  /** After the first pass the dictionary holds one entry per resource; every
      entry is a plain notification that passed the check, filed under its own
      resource, and the entry for resource `k` is the last such notification. */
  lemma {:induction false} CollectPlainLastWins(store: map<SubscriptionId, Subscription>, items: seq<ChangeNotification>)
    requires CollectPlain(store, items).Some?
    ensures DistinctKeys(CollectPlain(store, items).value)
    ensures forall e :: e in CollectPlain(store, items).value ==> KeptFor(store, e.1, e.0)
    ensures forall k :: Get(CollectPlain(store, items).value, k) == LastKept(store, items, k)
  {
    if items != [] {
      var p := items[..|items| - 1];
      CollectPlainLastWins(store, p);
    }
  }

  /** The resources in the dictionary are exactly those of the notifications
      that passed the check. */
  lemma CollectPlainKeys(store: map<SubscriptionId, Subscription>, items: seq<ChangeNotification>, k: string)
    requires CollectPlain(store, items).Some?
    ensures k in Keys(CollectPlain(store, items).value) <==> exists i :: 0 <= i < |items| && KeptFor(store, items[i], k)
  {
    CollectPlainLastWins(store, items);
    GetFindsKey(CollectPlain(store, items).value, k);
    LastKeptIsLast(store, items, k);
  }

  /** The resources of the notifications that pass the check, in batch order. */
  function KeptResources(store: map<SubscriptionId, Subscription>, items: seq<ChangeNotification>): seq<string>
  {
    if items == [] then []
    else
      var x := items[|items| - 1];
      KeptResources(store, items[..|items| - 1]) + (if Kept(store, x) && x.resource.Some? then [x.resource.value] else [])
  }

  /** `s` without repetitions, each element where it first occurs. */
  function FirstOccurrences(s: seq<string>): seq<string>
  {
    if s == [] then []
    else
      var p := FirstOccurrences(s[..|s| - 1]);
      if s[|s| - 1] in p then p else p + [s[|s| - 1]]
  }

  /** The dictionary enumerates its resources in the order in which each first
      passed the check, so `Values` hands the enrichment loop the surviving
      notifications in that order. */
  lemma {:induction false} CollectPlainKeyOrder(store: map<SubscriptionId, Subscription>, items: seq<ChangeNotification>)
    requires CollectPlain(store, items).Some?
    ensures Keys(CollectPlain(store, items).value) == FirstOccurrences(KeptResources(store, items))
  {
    if items != [] {
      var p := items[..|items| - 1];
      CollectPlainKeyOrder(store, p);
      var x := items[|items| - 1];
      if Kept(store, x) && x.resource.Some? {
        var ks := KeptResources(store, items);
        assert ks[..|ks| - 1] == KeptResources(store, p);
      } else {
        assert KeptResources(store, items) == KeptResources(store, p);
      }
    }
  }

  /** An item that does not pass the check and does not throw can be removed
      from a batch without changing the outcome of the first pass. */
  lemma {:induction false} CollectPlainIgnoresRejected(store: map<SubscriptionId, Subscription>, a: seq<ChangeNotification>, n: ChangeNotification, b: seq<ChangeNotification>)
    requires !Kept(store, n) && !Faulty(store, n)
    ensures CollectPlain(store, a + [n] + b) == CollectPlain(store, a + b)
  {
    if b == [] {
      assert (a + [n])[..|a + [n]| - 1] == a;
      assert a + [n] + b == a + [n];
      assert a + b == a;
    } else {
      var b' := b[..|b| - 1];
      CollectPlainIgnoresRejected(store, a, n, b');
      assert (a + [n] + b)[..|a + [n] + b| - 1] == a + [n] + b';
      assert (a + b)[..|a + b| - 1] == a + b';
    }
  }

  // ---------------------------------------------------------------------------
  // Validation-token gate

  /** The batch carries a non-null, non-empty `validationTokens` array. */
  predicate HasValidationTokens(c: NotificationCollection)
  {
    c.validationTokens.Some? && |c.validationTokens.value| > 0
  }

  /** The results of validating every token, folded with `&&` as `Aggregate` does
      (it needs at least one element). */
  function AllValidated(validate: string -> bool, tokens: seq<string>): bool
    requires |tokens| > 0
  {
    if |tokens| == 1 then validate(tokens[0])
    else AllValidated(validate, tokens[..|tokens| - 1]) && validate(tokens[|tokens| - 1])
  }

  /** The fold is the conjunction over all tokens. */
  lemma {:induction false} AllValidatedIffEvery(validate: string -> bool, tokens: seq<string>)
    requires |tokens| > 0
    ensures AllValidated(validate, tokens) <==> forall i :: 0 <= i < |tokens| ==> validate(tokens[i])
  {
    if |tokens| > 1 {
      var p := tokens[..|tokens| - 1];
      AllValidatedIffEvery(validate, p);
      assert forall i :: 0 <= i < |p| ==> p[i] == tokens[i];
    }
  }

  // ---------------------------------------------------------------------------
  // Decryption of rich notifications

  /** The resource data of the rich notifications of `items`, in batch order. */
  function Encrypted(items: seq<ChangeNotification>): (r: seq<EncryptedContent>)
    ensures |r| <= |items|
    ensures forall e :: e in r <==> exists i :: 0 <= i < |items| && items[i].encryptedContent == Some(e)
  {
    if items == [] then []
    else
      var p := items[..|items| - 1];
      var x := items[|items| - 1];
      assert forall i :: 0 <= i < |p| ==> p[i] == items[i];
      Encrypted(p) + (if x.IsPlain() then [] else [x.encryptedContent.value])
  }

  /** Fetching the certificate and decrypting one item: `None` when either throws. */
  function DecryptOne(certificate: Option<Certificate>, decrypt: (string, string, string, Certificate) -> Option<string>, e: EncryptedContent): Option<string>
  {
    match certificate
    case None => None
    case Some(cert) => decrypt(e.data, e.dataKey, e.dataSignature, cert)
  }

  /** The records of the second loop, or `None` if a decryption throws. */
  function DecryptAll(certificate: Option<Certificate>, decrypt: (string, string, string, Certificate) -> Option<string>, items: seq<ChangeNotification>): Option<seq<DisplayRecord>>
  {
    if items == [] then Some([])
    else match DecryptAll(certificate, decrypt, items[..|items| - 1])
      case None => None
      case Some(rs) =>
        var x := items[|items| - 1];
        if x.IsPlain() then Some(rs)
        else match DecryptOne(certificate, decrypt, x.encryptedContent.value)
          case None => None
          case Some(t) => Some(rs + [TextRecord(t)])
  }

  /** The second loop throws exactly when some rich notification cannot be decrypted. */
  lemma {:induction false} DecryptAllFailsIff(certificate: Option<Certificate>, decrypt: (string, string, string, Certificate) -> Option<string>, items: seq<ChangeNotification>)
    ensures DecryptAll(certificate, decrypt, items).None? <==>
      exists e :: e in Encrypted(items) && DecryptOne(certificate, decrypt, e).None?
  {
    if items != [] {
      var p := items[..|items| - 1];
      DecryptAllFailsIff(certificate, decrypt, p);
    }
  }

  /** When it completes, the second loop yields one record per rich notification,
      in batch order, each the decryption of that notification's data. */
  lemma {:induction false} DecryptAllOnePerItem(certificate: Option<Certificate>, decrypt: (string, string, string, Certificate) -> Option<string>, items: seq<ChangeNotification>)
    requires DecryptAll(certificate, decrypt, items).Some?
    ensures var rs := DecryptAll(certificate, decrypt, items).value;
      && |rs| == |Encrypted(items)|
      && forall j :: 0 <= j < |rs| ==> rs[j].TextRecord? && DecryptOne(certificate, decrypt, Encrypted(items)[j]) == Some(rs[j].text)
  {
    if items != [] {
      var p := items[..|items| - 1];
      DecryptAllOnePerItem(certificate, decrypt, p);
    }
  }

  /** Plain items play no part in decryption. */
  lemma {:induction false} DecryptAllIgnoresPlain(certificate: Option<Certificate>, decrypt: (string, string, string, Certificate) -> Option<string>, a: seq<ChangeNotification>, n: ChangeNotification, b: seq<ChangeNotification>)
    requires n.IsPlain()
    ensures DecryptAll(certificate, decrypt, a + [n] + b) == DecryptAll(certificate, decrypt, a + b)
  {
    if b == [] {
      assert (a + [n])[..|a + [n]| - 1] == a;
      assert a + [n] + b == a + [n];
      assert a + b == a;
    } else {
      var b' := b[..|b| - 1];
      DecryptAllIgnoresPlain(certificate, decrypt, a, n, b');
      assert (a + [n] + b)[..|a + [n] + b| - 1] == a + [n] + b';
      assert (a + b)[..|a + b| - 1] == a + b';
    }
  }
}
