/** `limitShared` (src/lib/shared-store.ts, lines 380-404): one call, answered by the shared store
    or, where there is none or it fails, by the instance's own limiter. */
module SharedLimit {
  import opened Wrappers
  import opened FixedWindow
  import RateLimit

  datatype StoreKind = Redis | Memory

  datatype LimitResult = LimitResult(
    ok: bool, limit: int, remaining: int, resetAt: int, retryAfterSec: nat, store: StoreKind)

  /** One call. `reply` is the count and remaining milliseconds of the store, or missing when
      there is no store or its call failed; `now` was read before the store was asked. */
  method LimitShared(limiter: RateLimit.Limiter, reply: Option<(nat, nat)>, key: string, limit: int, windowMs: int,
                     now: int)
    returns (r: LimitResult)
    requires limit >= 1
    modifies limiter
    ensures r.limit == limit && r.remaining >= 0 && (r.retryAfterSec == 0 <==> r.ok)
    ensures reply.Some? ==>
              var (count, ttlMs) := reply.value;
              && r.store == Redis && limiter.windows == old(limiter.windows)
              && (r.ok <==> count <= limit) && r.resetAt == now + ttlMs
              && (r.ok ==> count + r.remaining == limit)
              && (!r.ok ==> r.remaining == 0 && r.retryAfterSec == SecondsUp(ttlMs))
    ensures reply.None? ==>
              var request := RateLimit.Request(key, limit, windowMs, now, now);
              var (next, verdict) := RateLimit.Handle(old(limiter.windows), request);
              && r.store == Memory && limiter.windows == next
              && (r.ok <==> verdict.Admit?) && r.resetAt == RateLimit.Advertised(request, verdict)
              && (r.ok ==> next[key].count + r.remaining == limit)
              && (!r.ok ==> r.remaining == 0 && r.retryAfterSec == SecondsUp(next[key].resetAt - now))
  {
    if reply.Some? {
      var (count, ttlMs) := reply.value;
      var ok := count <= limit;
      return LimitResult(ok, limit, if limit - count < 0 then 0 else limit - count, now + ttlMs,
                         if ok then 0 else SecondsUp(ttlMs), Redis);
    }
    var v := limiter.RateLimit(key, limit, windowMs, now);
    match v
    case Admit(remaining) => r := LimitResult(true, limit, remaining, now + windowMs, 0, Memory);
    case Deny(sec) => r := LimitResult(false, limit, 0, now + sec * 1000, sec, Memory);
  }

  /** On the store path the advertised reset is early by exactly the time from the caller's clock
      reading to the script's run at the store, so it is never early only if no time passed. */
  lemma StoreAdvertisedReset(key: StoreKey, windowMs: nat, now: int, at: int)
    ensures var (next, _, ttlMs) := Script(key, windowMs, at);
            && next.Key? && next.expireAt.Some?
            && next.expireAt.value - (now + ttlMs) == at - now
            && (now + ttlMs >= next.expireAt.value <==> now >= at)
  {
  }
}
