/**
 The candidate source: `get_cf_speed_test_ip` asks the ranking service for
 its IP list up to `max_retries` times and keeps the body of the first reply
 whose status is 200. A reply with another status and an exception raised by
 the client are both passed over in silence (apart from logging).
 */
module SpeedTest {
  import opened Responses

  /** The default `max_retries`, the one the updater's entry point uses. */
  const DefaultMaxRetries: int := 5

  function Max(a: int, b: int): int
  {
    if a <= b then b else a
  }

  /** What the fetch returns (`None` when every attempt failed) together with
      how many requests it sent. */
  datatype Fetched = Fetched(text: Option<string>, attempts: nat)

  /** The loop from attempt `next` on; `replies(k)` is what attempt `k` (counted
      from 0) receives. */
  function FetchFrom(replies: nat -> Reply<string>, next: nat, maxRetries: int): (r: Fetched)
    ensures next <= r.attempts
    ensures r.text.Some? ==>
              && next < r.attempts <= maxRetries
              && IsOk(replies(r.attempts - 1))
              && r.text.value == replies(r.attempts - 1).body
              && forall j: nat :: next <= j < r.attempts - 1 ==> !IsOk(replies(j))
    ensures r.text.None? ==>
              && r.attempts == Max(next, maxRetries)
              && forall j: nat :: next <= j < maxRetries ==> !IsOk(replies(j))
    decreases maxRetries - next
  {
    if next >= maxRetries then Fetched(None, next)
    else if IsOk(replies(next)) then Fetched(Some(replies(next).body), next + 1)
    else FetchFrom(replies, next + 1, maxRetries)
  }

  /** `get_cf_speed_test_ip(max_retries=maxRetries)`. The result is the body of
      the first successful attempt, and no attempt follows it; it is `None`
      exactly when none of the `max_retries` attempts succeeded, and then every
      attempt was made (none at all when `max_retries` is not positive, as
      `range` of it is empty). */
  function GetCfSpeedTestIp(replies: nat -> Reply<string>, maxRetries: int): (r: Fetched)
    ensures r.attempts <= Max(maxRetries, 0)
    ensures r.text.Some? ==>
              && 1 <= r.attempts
              && IsOk(replies(r.attempts - 1))
              && r.text.value == replies(r.attempts - 1).body
              && forall j: nat :: j < r.attempts - 1 ==> !IsOk(replies(j))
    ensures r.text.None? <==> forall j: nat :: j < maxRetries ==> !IsOk(replies(j))
    ensures r.text.None? ==> r.attempts == Max(maxRetries, 0)
  {
    FetchFrom(replies, 0, maxRetries)
  }

  /** Only the replies to attempts actually made matter: two services that
      agree on those give the same result, so no attempt after the first
      success (or after the last retry) can influence it. */
  lemma FetchSeesOnlyItsAttempts(a: nat -> Reply<string>, b: nat -> Reply<string>, next: nat, maxRetries: int)
    requires forall j: nat :: next <= j < FetchFrom(a, next, maxRetries).attempts ==> a(j) == b(j)
    ensures FetchFrom(a, next, maxRetries) == FetchFrom(b, next, maxRetries)
  {
  }
}
