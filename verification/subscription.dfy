/**
 * The Pro predicate: a user is subscribed when a record exists, it has a
 * price id, and its period end plus one day of grace lies after `now`.
 */
module Subscription {
  import opened Wrappers
  import opened JsValues

  /** Grace window after the billing period ends, in milliseconds. */
  const DAY_IN_MS: int := 86_400_000

  /** The selected columns of a userSubscription record; period end in ms since the epoch. */
  datatype SubscriptionRecord = SubscriptionRecord(
    stripeSubscriptionId: Option<string>,
    stripeCustomerId: Option<string>,
    stripePriceId: Option<string>,
    stripeCurrentPeriodEnd: Option<int>)

  /** The userSubscription records, keyed by user id. */
  type Subscriptions = map<string, SubscriptionRecord>

  /** A JavaScript number as far as this check needs: an integer or NaN. */
  datatype JsNumber = Finite(value: int) | NaN

  /** `periodEnd?.getTime()! + DAY_IN_MS`: undefined plus a number is NaN. */
  function PlusGrace(periodEnd: Option<int>): JsNumber
  {
    match periodEnd
    case None => NaN
    case Some(t) => Finite(t + DAY_IN_MS)
  }

  /** `a > b`: every comparison with NaN is false. */
  predicate GreaterThan(a: JsNumber, b: int)
  {
    match a
    case NaN => false
    case Finite(x) => x > b
  }

  /** checkSubscription with the clock reading `now` (ms) taken as a parameter. */
  function CheckSubscription(subs: Subscriptions, userId: Option<string>, now: int): (isPro: bool)
    ensures !Truthy(userId) ==> !isPro
    ensures Truthy(userId) && userId.value !in subs ==> !isPro
    ensures isPro ==> Truthy(userId) && userId.value in subs
                      && Truthy(subs[userId.value].stripePriceId)
                      && subs[userId.value].stripeCurrentPeriodEnd.Some?
    ensures Truthy(userId) && userId.value in subs
            && Truthy(subs[userId.value].stripePriceId)
            && subs[userId.value].stripeCurrentPeriodEnd.Some? ==>
              (isPro <==> subs[userId.value].stripeCurrentPeriodEnd.value > now - DAY_IN_MS)
  {
    if !Truthy(userId) then false
    else if userId.value !in subs then false
    else
      var record := subs[userId.value];
      Truthy(record.stripePriceId) && GreaterThan(PlusGrace(record.stripeCurrentPeriodEnd), now)
  }

  /** The grace boundary is strict: exactly one day late is lapsed, one millisecond less is not. */
  lemma GraceBoundary(subs: Subscriptions, userId: Option<string>, now: int)
    requires Truthy(userId) && userId.value in subs && Truthy(subs[userId.value].stripePriceId)
    ensures subs[userId.value].stripeCurrentPeriodEnd == Some(now - DAY_IN_MS) ==>
              !CheckSubscription(subs, userId, now)
    ensures subs[userId.value].stripeCurrentPeriodEnd == Some(now - DAY_IN_MS + 1) ==>
              CheckSubscription(subs, userId, now)
  {
  }

  /** An active subscription was active at every earlier clock reading. */
  lemma ActiveEarlier(subs: Subscriptions, userId: Option<string>, now: int, earlier: int)
    requires earlier <= now
    requires CheckSubscription(subs, userId, now)
    ensures CheckSubscription(subs, userId, earlier)
  {
  }
}
