/**
 * The usage ledger: per-user count of metered calls (the userApiLimit
 * table) with its create-or-increment update and its two reads.
 */
module ApiLimit {
  import opened Wrappers
  import opened JsValues

  /** Metered calls a user without a subscription may make. */
  const MAX_FREE_COUNTS: nat := 5

  /** The userApiLimit records, keyed by user id: at most one per user. */
  type Counts = map<string, nat>

  /** getApiLimitCount: 0 when signed out or without a record, else the stored count. */
  function GetApiLimitCount(counts: Counts, userId: Option<string>): (n: nat)
    ensures Truthy(userId) && userId.value in counts ==> n == counts[userId.value]
    ensures !Truthy(userId) || userId.value !in counts ==> n == 0
  {
    if !Truthy(userId) then 0
    else if userId.value !in counts then 0
    else counts[userId.value]
  }

  /** checkApiLimit: does the free allowance remain for this caller? */
  function CheckApiLimit(counts: Counts, userId: Option<string>): (freeTrial: bool)
    ensures !Truthy(userId) ==> !freeTrial
    ensures Truthy(userId) ==> (freeTrial <==> GetApiLimitCount(counts, userId) < MAX_FREE_COUNTS)
  {
    if !Truthy(userId) then false
    else
      var record := if userId.value in counts then Some(counts[userId.value]) else None;
      record.None? || record.value < MAX_FREE_COUNTS
  }

  /** The ledger after incrementApiLimit for this caller. */
  function Incremented(counts: Counts, userId: Option<string>): (after: Counts)
    ensures !Truthy(userId) ==> after == counts
    ensures Truthy(userId) ==> after.Keys == counts.Keys + {userId.value}
    ensures Truthy(userId) ==> GetApiLimitCount(after, userId) == GetApiLimitCount(counts, userId) + 1
    ensures forall u :: u in counts && Some(u) != userId ==> u in after && after[u] == counts[u]
  {
    if !Truthy(userId) then counts
    else if userId.value in counts then counts[userId.value := counts[userId.value] + 1]
    else counts[userId.value := 1]
  }

  /** The ledger after `n` consecutive increments for the same caller. */
  function IncrementedTimes(counts: Counts, userId: Option<string>, n: nat): Counts
  {
    if n == 0 then counts else Incremented(IncrementedTimes(counts, userId, n - 1), userId)
  }

  /** The store behind incrementApiLimit, updated in place. */
  class UsageLedger {
    var counts: Counts

    constructor (initial: Counts)
      ensures counts == initial
    {
      counts := initial;
    }

    /** Signed out: nothing; no record: create it with count 1; else read, add one, write. */
    method IncrementApiLimit(userId: Option<string>)
      modifies this
      ensures counts == Incremented(old(counts), userId)
      ensures Truthy(userId) && userId.value !in old(counts) ==> counts[userId.value] == 1
      ensures Truthy(userId) && userId.value in old(counts) ==>
                counts[userId.value] == old(counts)[userId.value] + 1
    {
      if !Truthy(userId) {
        return;
      }
      var id := userId.value;
      if id in counts {
        var count := counts[id];
        counts := counts[id := count + 1];
      } else {
        counts := counts[id := 1];
      }
    }
  }

  /** `n` increments raise the caller's count by exactly `n` and leave every other record alone. */
  lemma {:induction false} RepeatedIncrements(counts: Counts, userId: Option<string>, n: nat)
    requires Truthy(userId)
    ensures GetApiLimitCount(IncrementedTimes(counts, userId, n), userId) == GetApiLimitCount(counts, userId) + n
    ensures forall u :: u in counts && Some(u) != userId ==>
              u in IncrementedTimes(counts, userId, n) && IncrementedTimes(counts, userId, n)[u] == counts[u]
  {
    if n > 0 {
      RepeatedIncrements(counts, userId, n - 1);
    }
  }

  /**
   * A user without a record keeps the free allowance for exactly
   * MAX_FREE_COUNTS metered calls: it is there after fewer increments and
   * gone after that many or more.
   */
  lemma {:induction false} FreshUserAllowance(counts: Counts, userId: Option<string>, n: nat)
    requires Truthy(userId) && userId.value !in counts
    ensures CheckApiLimit(IncrementedTimes(counts, userId, n), userId) <==> n < MAX_FREE_COUNTS
    ensures GetApiLimitCount(IncrementedTimes(counts, userId, n), userId) == n
  {
    RepeatedIncrements(counts, userId, n);
  }
}
