/**
 * The routes under app/api/paypal: linking a subscription to a user,
 * the provider's webhook, cancellation, and the two read-only routes that
 * look up the user's subscription before calling the provider. The caller's
 * uid comes from the `x-uid` header. Every provider call is a parameter.
 */
module BillingRoutes {

  import opened Wrappers
  import opened Json
  import opened Http
  import opened RecordStore

  const PremiumPlan: string := "premium"
  const FreePlan: string := "free"
  const PendingStatus: string := "PENDING"
  const ActiveStatus: string := "ACTIVE"
  const CancelledStatus: string := "CANCELLED"
  const SuspendedStatus: string := "SUSPENDED"
  const ActivatedEvent: string := "BILLING.SUBSCRIPTION.ACTIVATED"
  const CancelledEvent: string := "BILLING.SUBSCRIPTION.CANCELLED"
  const SuspendedEvent: string := "BILLING.SUBSCRIPTION.SUSPENDED"

  /** The fields only the billing routes write; the rest of a `UserRecord` is its profile. */
  predicate SameProfile(u: UserRecord, v: UserRecord) {
    u.email == v.email && u.name == v.name && u.createdAt == v.createdAt
  }

  // ---- link-subscription ----

  /** The user after linking: pending premium on subscription `sid`, updated at `now`. */
  function Linked(u: UserRecord, sid: string, now: int): (r: UserRecord)
    ensures r.subscriptionId == Some(sid) && r.subscriptionStatus == Some(PendingStatus) && r.plan == Some(PremiumPlan)
    ensures r.updatedAt == Some(now)
    ensures SameProfile(r, u)
  {
    u.(subscriptionId := Some(sid), subscriptionStatus := Some(PendingStatus), plan := Some(PremiumPlan), updatedAt := Some(now))
  }

  /** Linking again with the same subscription changes nothing but the update time. */
  lemma LinkIdempotent(u: UserRecord, sid: string, t1: int, t2: int)
    ensures Linked(Linked(u, sid, t1), sid, t2) == Linked(u, sid, t2)
  {
  }

  /**
   * `POST /api/paypal/link-subscription`. `updateDoc` on a user document that
   * does not exist throws, which the handler answers with 500.
   */
  method LinkSubscription(store: Store, subscriptionId: Option<string>, uid: Option<string>, now: int) returns (status: int)
    modifies store`users
    ensures status != Ok ==> store.users == old(store.users)
    ensures !Truthy(subscriptionId) || !Truthy(uid) ==> status == BadRequest
    ensures Truthy(subscriptionId) && Truthy(uid) ==>
      if uid.value !in old(store.users) then status == ServerError
      else status == Ok && store.users == old(store.users)[uid.value := Linked(old(store.users)[uid.value], subscriptionId.value, now)]
  {
    if !Truthy(subscriptionId) || !Truthy(uid) {
      return BadRequest;
    }
    if uid.value !in store.users {
      return ServerError;
    }
    store.users := store.users[uid.value := Linked(store.users[uid.value], subscriptionId.value, now)];
    return Ok;
  }

  // ---- webhook ----

  /** The `resource` of a webhook event; each id is absent when it is not a truthy string. */
  datatype Resource = Resource(id: Option<string>, subscriptionId: Option<string>)

  /** `resource?.id || resource?.subscription_id`. */
  function ResourceSubscriptionId(resource: Option<Resource>): (r: Option<string>)
    ensures r.Some? ==> r.value != ""
    ensures r.None? <==> resource.None? || (!Truthy(resource.value.id) && !Truthy(resource.value.subscriptionId))
    ensures resource.Some? && Truthy(resource.value.id) ==> r == resource.value.id
    ensures resource.Some? && !Truthy(resource.value.id) && Truthy(resource.value.subscriptionId) ==> r == resource.value.subscriptionId
  {
    if resource.None? then None
    else if Truthy(resource.value.id) then resource.value.id
    else if Truthy(resource.value.subscriptionId) then resource.value.subscriptionId
    else None
  }

  /** The three conditional `updateDoc` calls of the webhook on the matched user. */
  function ApplyEvent(u: UserRecord, eventType: Option<string>): (r: UserRecord)
    ensures eventType == Some(ActivatedEvent) ==> r.plan == Some(PremiumPlan) && r.subscriptionStatus == Some(ActiveStatus)
    ensures eventType == Some(CancelledEvent) ==> r.plan == Some(FreePlan) && r.subscriptionStatus == Some(CancelledStatus)
    ensures eventType == Some(SuspendedEvent) ==> r.plan == u.plan && r.subscriptionStatus == Some(SuspendedStatus)
    ensures eventType !in {Some(ActivatedEvent), Some(CancelledEvent), Some(SuspendedEvent)} ==> r == u
    ensures SameProfile(r, u) && r.subscriptionId == u.subscriptionId && r.updatedAt == u.updatedAt
  {
    var u1 := if eventType == Some(ActivatedEvent) then u.(plan := Some(PremiumPlan), subscriptionStatus := Some(ActiveStatus)) else u;
    var u2 := if eventType == Some(CancelledEvent) then u1.(plan := Some(FreePlan), subscriptionStatus := Some(CancelledStatus)) else u1;
    if eventType == Some(SuspendedEvent) then u2.(subscriptionStatus := Some(SuspendedStatus)) else u2
  }

  /** An event delivered twice has the effect of one delivery. */
  lemma ApplyEventIdempotent(u: UserRecord, eventType: Option<string>)
    ensures ApplyEvent(ApplyEvent(u, eventType), eventType) == ApplyEvent(u, eventType)
  {
  }

  /** After a link, the activation event makes the plan active premium on the linked subscription. */
  lemma ActivationAfterLink(u: UserRecord, sid: string, now: int)
    ensures var v := ApplyEvent(Linked(u, sid, now), Some(ActivatedEvent));
      v.plan == Some(PremiumPlan) && v.subscriptionStatus == Some(ActiveStatus) && v.subscriptionId == Some(sid)
  {
  }

  /**
   * `POST /api/paypal/webhook`: always 200 once the body is parsed. `matched` is
   * `snap.docs[0]`, the least matching document id in the store's default order.
   */
  method Webhook(store: Store, eventType: Option<string>, resource: Option<Resource>) returns (status: int, matched: Option<string>)
    modifies store`users
    ensures status == Ok
    ensures matched.None? ==> store.users == old(store.users)
    ensures ResourceSubscriptionId(resource).None? ==> matched.None?
    ensures ResourceSubscriptionId(resource).Some? ==>
      var sid := ResourceSubscriptionId(resource).value;
      && (matched.None? <==> SubscribedUsers(old(store.users), sid) == {})
      && (matched.Some? ==>
            && IsLeastId(matched.value, SubscribedUsers(old(store.users), sid))
            && store.users == old(store.users)[matched.value := ApplyEvent(old(store.users)[matched.value], eventType)])
  {
    var sid := ResourceSubscriptionId(resource);
    if sid.None? {
      return Ok, None;
    }
    matched := store.FirstUserWithSubscription(sid.value);
    if matched.None? {
      return Ok, matched;
    }
    var k := matched.value;
    store.users := store.users[k := ApplyEvent(store.users[k], eventType)];
    return Ok, matched;
  }

  /** Replaying an event: the same user matches again, and the store does not change a second time. */
  lemma WebhookReplayIsNoOp(users: map<string, UserRecord>, sid: string, k: string, eventType: Option<string>)
    requires IsLeastId(k, SubscribedUsers(users, sid))
    ensures var after := users[k := ApplyEvent(users[k], eventType)];
      && SubscribedUsers(after, sid) == SubscribedUsers(users, sid)
      && IsLeastId(k, SubscribedUsers(after, sid))
      && after[k := ApplyEvent(after[k], eventType)] == after
  {
    var after := users[k := ApplyEvent(users[k], eventType)];
    assert SubscribedUsers(after, sid) == SubscribedUsers(users, sid);
    ApplyEventIdempotent(users[k], eventType);
    assert after[k := ApplyEvent(after[k], eventType)] == after;
  }

  // ---- the subscription lookup shared by cancel, subscription and transactions ----

  /**
   * The guard chain before any provider call: 400 without `x-uid`, 404 for an
   * unknown user, then the user's subscription id, absent when not truthy.
   */
  function SubscriptionOf(users: map<string, UserRecord>, uid: Option<string>): (r: Reply<Option<string>>)
    ensures !Truthy(uid) ==> r == Fail(BadRequest)
    ensures Truthy(uid) && uid.value !in users ==> r == Fail(NotFound)
    ensures r.Success? <==> Truthy(uid) && uid.value in users
    ensures r.Success? ==> (r.body.Some? <==> Truthy(users[uid.value].subscriptionId))
    ensures r.Success? && r.body.Some? ==> r.body == users[uid.value].subscriptionId && r.body.value != ""
  {
    if !Truthy(uid) then Fail(BadRequest)
    else if uid.value !in users then Fail(NotFound)
    else Success(OrNull(users[uid.value].subscriptionId))
  }

  // ---- cancel-subscription ----

  /** The user after a confirmed cancellation: free plan, cancelled status, everything else kept. */
  function Cancelled(u: UserRecord): (r: UserRecord)
    ensures r.plan == Some(FreePlan) && r.subscriptionStatus == Some(CancelledStatus)
    ensures SameProfile(r, u) && r.subscriptionId == u.subscriptionId && r.updatedAt == u.updatedAt
  {
    u.(subscriptionStatus := Some(CancelledStatus), plan := Some(FreePlan))
  }

  /** Cancelling through the route and receiving the provider's cancellation event leave the same user record. */
  lemma CancelAgreesWithCancelledEvent(u: UserRecord)
    ensures Cancelled(u) == ApplyEvent(u, Some(CancelledEvent))
  {
  }

  /**
   * `POST /api/paypal/cancel-subscription`. `providerCancel(sid)` stands for
   * obtaining a token and posting the cancellation, true when both succeed;
   * `providerRequest` records whether and for which subscription it was called.
   */
  method CancelSubscription(store: Store, uid: Option<string>, providerCancel: string -> bool)
    returns (status: int, providerRequest: Option<string>)
    modifies store`users
    ensures status != Ok ==> store.users == old(store.users)
    ensures SubscriptionOf(old(store.users), uid).Fail? ==>
      status == SubscriptionOf(old(store.users), uid).status && providerRequest.None?
    ensures SubscriptionOf(old(store.users), uid) == Success(None) ==> status == BadRequest && providerRequest.None?
    ensures SubscriptionOf(old(store.users), uid).Success? && SubscriptionOf(old(store.users), uid).body.Some? ==>
      var sid := SubscriptionOf(old(store.users), uid).body.value;
      && providerRequest == Some(sid)
      && (!providerCancel(sid) ==> status == ServerError)
      && (providerCancel(sid) ==> status == Ok && store.users == old(store.users)[uid.value := Cancelled(old(store.users)[uid.value])])
  {
    providerRequest := None;
    var lookup := SubscriptionOf(store.users, uid);
    if lookup.Fail? {
      return lookup.status, providerRequest;
    }
    if lookup.body.None? {
      return BadRequest, providerRequest;
    }
    var sid := lookup.body.value;
    providerRequest := Some(sid);
    if !providerCancel(sid) {
      return ServerError, providerRequest;
    }
    store.users := store.users[uid.value := Cancelled(store.users[uid.value])];
    return Ok, providerRequest;
  }

  // ---- subscription ----

  datatype BillingInfo = BillingInfo(nextBillingTime: Option<string>, lastPayment: Option<Json>, outstandingBalance: Option<Json>)

  datatype Subscriber = Subscriber(emailAddress: Option<string>)

  /** The provider's subscription record, as far as the route reads it. */
  datatype PayPalSubscription = PayPalSubscription(
    id: string,
    status: string,
    planId: Option<string>,
    startTime: Option<string>,
    billingInfo: Option<BillingInfo>,
    subscriber: Option<Subscriber>,
    statusUpdateTime: Option<string>)

  /**
   * The route's reply. An absent `planId` or `startTime` is left out of the JSON;
   * an absent one of the other five fields is sent as `null`.
   */
  datatype SubscriptionPayload = SubscriptionPayload(
    id: string,
    status: string,
    planId: Option<string>,
    startTime: Option<string>,
    nextBillingTime: Option<string>,
    lastPayment: Option<Json>,
    outstandingBalance: Option<Json>,
    subscriberEmail: Option<string>,
    statusUpdateTime: Option<string>)

  /** The projection of the provider record: four fields verbatim, five with `|| null`. */
  function Project(sub: PayPalSubscription): (p: SubscriptionPayload)
    ensures p.id == sub.id && p.status == sub.status && p.planId == sub.planId && p.startTime == sub.startTime
    ensures sub.billingInfo.None? ==> p.nextBillingTime.None? && p.lastPayment.None? && p.outstandingBalance.None?
    ensures sub.billingInfo.Some? ==>
      && p.nextBillingTime == OrNull(sub.billingInfo.value.nextBillingTime)
      && p.lastPayment == OrNullJson(sub.billingInfo.value.lastPayment)
      && p.outstandingBalance == OrNullJson(sub.billingInfo.value.outstandingBalance)
    ensures p.subscriberEmail == (if sub.subscriber.Some? then OrNull(sub.subscriber.value.emailAddress) else None)
    ensures p.statusUpdateTime == OrNull(sub.statusUpdateTime)
    ensures p.nextBillingTime != Some("") && p.subscriberEmail != Some("") && p.statusUpdateTime != Some("")
  {
    var info := sub.billingInfo;
    SubscriptionPayload(
      sub.id, sub.status, sub.planId, sub.startTime,
      if info.Some? then OrNull(info.value.nextBillingTime) else None,
      if info.Some? then OrNullJson(info.value.lastPayment) else None,
      if info.Some? then OrNullJson(info.value.outstandingBalance) else None,
      if sub.subscriber.Some? then OrNull(sub.subscriber.value.emailAddress) else None,
      OrNull(sub.statusUpdateTime))
  }

  /**
   * `GET /api/paypal/subscription`. `fetch(sid)` is `getSubscriptionDetails`,
   * absent when it throws (500). No subscription on the user is a 404.
   */
  function SubscriptionDetails(users: map<string, UserRecord>, uid: Option<string>,
                               fetch: string -> Option<PayPalSubscription>): (r: Reply<SubscriptionPayload>)
    ensures SubscriptionOf(users, uid).Fail? ==> r == Fail(SubscriptionOf(users, uid).status)
    ensures SubscriptionOf(users, uid) == Success(None) ==> r == Fail(NotFound)
    ensures SubscriptionOf(users, uid).Success? && SubscriptionOf(users, uid).body.Some? ==>
      var sid := SubscriptionOf(users, uid).body.value;
      r == (if fetch(sid).Some? then Success(Project(fetch(sid).value)) else Fail(ServerError))
  {
    match SubscriptionOf(users, uid)
    case Fail(status) => Fail(status)
    case Success(None) => Fail(NotFound)
    case Success(Some(sid)) =>
      match fetch(sid)
      case None => Fail(ServerError)
      case Some(sub) => Success(Project(sub))
  }

  /** Without a linked subscription the provider is not consulted: the reply is the same whatever it would answer. */
  lemma DetailsWithoutSubscriptionSkipProvider(users: map<string, UserRecord>, uid: Option<string>,
                                               f1: string -> Option<PayPalSubscription>, f2: string -> Option<PayPalSubscription>)
    requires SubscriptionOf(users, uid).Fail? || SubscriptionOf(users, uid) == Success(None)
    ensures SubscriptionDetails(users, uid, f1) == SubscriptionDetails(users, uid, f2)
  {
  }

  // ---- transactions ----

  /** The default window: 180 days of milliseconds. */
  const WindowMillis: int := 180 * 24 * 3600 * 1000

  predicate IsDigit(c: char) {
    '0' <= c <= '9'
  }

  /** `s` ends in "." followed by three digits and "Z": what `/\.\d{3}Z$/` matches. */
  predicate HasMillisSuffix(s: string) {
    |s| >= 5 && s[|s| - 5] == '.' && IsDigit(s[|s| - 4]) && IsDigit(s[|s| - 3]) && IsDigit(s[|s| - 2]) && s[|s| - 1] == 'Z'
  }

  /** `s.replace(/\.\d{3}Z$/, 'Z')`: at most one replacement, anchored at the end. */
  function StripMillis(s: string): (r: string)
    ensures HasMillisSuffix(s) ==> r == s[..|s| - 5] + "Z" && |r| == |s| - 4
    ensures !HasMillisSuffix(s) ==> r == s
    ensures r != [] ==> r[|r| - 1] == (if HasMillisSuffix(s) then 'Z' else s[|s| - 1])
  {
    if HasMillisSuffix(s) then s[..|s| - 5] + "Z" else s
  }

  /** The shape `Date.prototype.toISOString` gives for years 0000 to 9999: `YYYY-MM-DDTHH:mm:ss.sssZ`. */
  predicate IsIsoWithMillis(s: string) {
    && |s| == 24
    && (forall i | 0 <= i < 24 && i !in {4, 7, 10, 13, 16, 19, 23} :: IsDigit(s[i]))
    && s[4] == '-' && s[7] == '-' && s[10] == 'T' && s[13] == ':' && s[16] == ':' && s[19] == '.' && s[23] == 'Z'
  }

  /** On an ISO timestamp the milliseconds are dropped and the result is stable under a second strip. */
  lemma StripMillisOfIso(s: string)
    requires IsIsoWithMillis(s)
    ensures StripMillis(s) == s[..19] + "Z"
    ensures |StripMillis(s)| == 20
    ensures StripMillis(StripMillis(s)) == StripMillis(s)
  {
    var r := s[..19] + "Z";
    assert HasMillisSuffix(s);
    assert r[|r| - 5] == s[15];
    assert IsDigit(s[15]);
  }

  /** The replacement is made once: a string with two millisecond groups keeps the first. */
  lemma StripMillisReplacesOnce()
    ensures StripMillis(".123.456Z") == ".123Z"
    ensures StripMillis(".123Z") == "Z"
  {
    assert ".123.456Z"[..4] == ".123";
  }

  /** `toISO(new Date(ms))`; `isoString` stands for `Date.prototype.toISOString`. */
  function ToIso(ms: int, isoString: int -> string): (r: string)
    ensures IsIsoWithMillis(isoString(ms)) ==> r == isoString(ms)[..19] + "Z"
  {
    if IsIsoWithMillis(isoString(ms)) then StripMillisOfIso(isoString(ms)); StripMillis(isoString(ms))
    else StripMillis(isoString(ms))
  }

  /** The provider query: the subscription and the reporting window. */
  datatype TxRequest = TxRequest(subscriptionId: string, start: string, end: string)

  /** `searchParams.get('start') || toISO(now - 180 days)`, and `end` likewise with `now`. */
  function Window(startParam: Option<string>, endParam: Option<string>, now: int, isoString: int -> string): (w: (string, string))
    ensures Truthy(startParam) ==> w.0 == startParam.value
    ensures !Truthy(startParam) ==> w.0 == ToIso(now - WindowMillis, isoString)
    ensures Truthy(endParam) ==> w.1 == endParam.value
    ensures !Truthy(endParam) ==> w.1 == ToIso(now, isoString)
  {
    (if Truthy(startParam) then startParam.value else ToIso(now - WindowMillis, isoString),
     if Truthy(endParam) then endParam.value else ToIso(now, isoString))
  }

  /** The reply when the user has no subscription: `{ transactions: [] }`. */
  const NoTransactions: Json := JObject([("transactions", JArray([]))])

  /**
   * `GET /api/paypal/transactions`. `list(req)` is `listSubscriptionTransactions`,
   * absent when it throws (500); its JSON is returned as is.
   */
  function Transactions(users: map<string, UserRecord>, uid: Option<string>, startParam: Option<string>, endParam: Option<string>,
                        now: int, isoString: int -> string, list: TxRequest -> Option<Json>): (r: Reply<Json>)
    ensures SubscriptionOf(users, uid).Fail? ==> r == Fail(SubscriptionOf(users, uid).status)
    ensures SubscriptionOf(users, uid) == Success(None) ==> r == Success(NoTransactions)
    ensures SubscriptionOf(users, uid).Success? && SubscriptionOf(users, uid).body.Some? ==>
      var w := Window(startParam, endParam, now, isoString);
      var req := TxRequest(SubscriptionOf(users, uid).body.value, w.0, w.1);
      r == (if list(req).Some? then Success(list(req).value) else Fail(ServerError))
  {
    match SubscriptionOf(users, uid)
    case Fail(status) => Fail(status)
    case Success(None) => Success(NoTransactions)
    case Success(Some(sid)) =>
      var w := Window(startParam, endParam, now, isoString);
      match list(TxRequest(sid, w.0, w.1))
      case None => Fail(ServerError)
      case Some(result) => Success(result)
  }

  /**
   * Without `start` and `end`, a subscriber's transactions are asked for the
   * 180 days up to the clock, and the provider's answer is the reply.
   */
  lemma DefaultWindowIsLast180Days(users: map<string, UserRecord>, uid: Option<string>, sid: string,
                                   startParam: Option<string>, endParam: Option<string>, now: int,
                                   isoString: int -> string, list: TxRequest -> Option<Json>)
    requires SubscriptionOf(users, uid) == Success(Some(sid))
    requires !Truthy(startParam) && !Truthy(endParam)
    ensures var req := TxRequest(sid, ToIso(now - 180 * 24 * 3600 * 1000, isoString), ToIso(now, isoString));
      Transactions(users, uid, startParam, endParam, now, isoString, list)
        == (if list(req).Some? then Success(list(req).value) else Fail(ServerError))
  {
  }

  /** Without a linked subscription the provider is not consulted. */
  lemma TransactionsWithoutSubscriptionSkipProvider(users: map<string, UserRecord>, uid: Option<string>,
                                                    startParam: Option<string>, endParam: Option<string>, now: int,
                                                    isoString: int -> string, l1: TxRequest -> Option<Json>, l2: TxRequest -> Option<Json>)
    requires SubscriptionOf(users, uid).Fail? || SubscriptionOf(users, uid) == Success(None)
    ensures Transactions(users, uid, startParam, endParam, now, isoString, l1)
         == Transactions(users, uid, startParam, endParam, now, isoString, l2)
  {
  }
}
