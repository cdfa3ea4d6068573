/**
 * The quota gate every metered handler applies: the pre-check before the
 * provider call (`!freeTrial && !isPro` means 403) and the charge after a
 * served request (`if (!isPro) incrementApiLimit()`).
 */
module QuotaGate {
  import opened Wrappers
  import opened JsValues
  import opened ApiLimit
  import opened Subscription

  /** The pre-check: free allowance left, or a Pro subscription. */
  function Allowed(counts: Counts, subs: Subscriptions, userId: Option<string>, now: int): (allowed: bool)
    ensures CheckSubscription(subs, userId, now) ==> allowed
    ensures !CheckSubscription(subs, userId, now) && Truthy(userId) ==>
              (allowed <==> GetApiLimitCount(counts, userId) < MAX_FREE_COUNTS)
    ensures !Truthy(userId) ==> !allowed
  {
    var freeTrial := CheckApiLimit(counts, userId);
    var isPro := CheckSubscription(subs, userId, now);
    !(!freeTrial && !isPro)
  }

  /** The ledger after a request: one increment when a non-Pro caller was served, else untouched. */
  function Settled(counts: Counts, subs: Subscriptions, userId: Option<string>, now: int, served: bool): (after: Counts)
    ensures !served || CheckSubscription(subs, userId, now) ==> after == counts
    ensures served && !CheckSubscription(subs, userId, now) ==> after == Incremented(counts, userId)
  {
    if served && !CheckSubscription(subs, userId, now) then Incremented(counts, userId) else counts
  }

  /** The ledger after `n` served requests from one caller at the clock reading `now`. */
  function SettledTimes(counts: Counts, subs: Subscriptions, userId: Option<string>, now: int, n: nat): Counts
  {
    if n == 0 then counts else Settled(SettledTimes(counts, subs, userId, now, n - 1), subs, userId, now, true)
  }

  /**
   * `n` served requests raise a free-tier caller's count by exactly `n` and
   * a Pro caller's by nothing; other users' records are untouched.
   */
  lemma {:induction false} ServedRequests(counts: Counts, subs: Subscriptions, userId: Option<string>, now: int, n: nat)
    requires Truthy(userId)
    ensures GetApiLimitCount(SettledTimes(counts, subs, userId, now, n), userId)
            == GetApiLimitCount(counts, userId) + (if CheckSubscription(subs, userId, now) then 0 else n)
    ensures forall u :: u in counts && Some(u) != userId ==>
              u in SettledTimes(counts, subs, userId, now, n) && SettledTimes(counts, subs, userId, now, n)[u] == counts[u]
  {
    if n > 0 {
      ServedRequests(counts, subs, userId, now, n - 1);
    }
  }

  /**
   * A new free-tier caller is let through exactly MAX_FREE_COUNTS times:
   * after `n` served requests the gate still allows the next one iff
   * `n < MAX_FREE_COUNTS`, and the stored count is `n`.
   */
  lemma {:induction false} FreeTierExhaustion(counts: Counts, subs: Subscriptions, userId: Option<string>, now: int, n: nat)
    requires Truthy(userId) && userId.value !in counts && !CheckSubscription(subs, userId, now)
    ensures Allowed(SettledTimes(counts, subs, userId, now, n), subs, userId, now) <==> n < MAX_FREE_COUNTS
    ensures GetApiLimitCount(SettledTimes(counts, subs, userId, now, n), userId) == n
  {
    ServedRequests(counts, subs, userId, now, n);
  }
}
