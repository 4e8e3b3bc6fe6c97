/** Token bucket: `burst` tokens at most, refilled continuously at `rate` tokens per
    second; a check that finds a whole token takes it, any other check changes nothing. */
module TokenBucket {

  datatype Quota = Quota(rate: real, burst: real)

  type ValidQuota = q: Quota | q.rate > 0.0 && q.burst >= 1.0 witness Quota(1.0, 1.0)

  /** Quota of `requestsPerSecond` and `burst`, both of which must be non-zero. */
  function PerSecond(requestsPerSecond: nat, burst: nat): ValidQuota
    requires requestsPerSecond > 0 && burst > 0
  {
    Quota(requestsPerSecond as real, burst as real)
  }

  datatype Bucket = Bucket(tokens: real, last: real)

  function Full(q: ValidQuota, now: real): Bucket {
    Bucket(q.burst, now)
  }

  /** Tokens refilled in `dt` seconds. */
  function Gain(q: ValidQuota, dt: real): (g: real)
    ensures dt >= 0.0 ==> g >= 0.0
    ensures dt == 0.0 ==> g == 0.0
  {
    q.rate * dt
  }

  lemma GainAdds(q: ValidQuota, a: real, b: real)
    ensures Gain(q, a + b) == Gain(q, a) + Gain(q, b)
  {
  }

  /** Tokens available at `now`. */
  function Level(q: ValidQuota, b: Bucket, now: real): real {
    var refilled := b.tokens + Gain(q, now - b.last);
    if refilled > q.burst then q.burst else refilled
  }

  function Check(q: ValidQuota, b: Bucket, now: real): (Bucket, bool) {
    if Level(q, b, now) >= 1.0 then (Bucket(Level(q, b, now) - 1.0, now), true) else (b, false)
  }

  predicate Sane(q: ValidQuota, b: Bucket, now: real) {
    0.0 <= b.tokens <= q.burst && b.last <= now
  }

  /** In `dt` seconds a bucket gains at most `rate * dt` tokens. */
  lemma LevelLater(q: ValidQuota, b: Bucket, now: real, dt: real)
    requires Sane(q, b, now) && dt >= 0.0
    ensures Sane(q, b, now + dt)
    ensures Level(q, b, now) <= Level(q, b, now + dt) <= Level(q, b, now) + Gain(q, dt)
  {
  }

  /** A check that passes costs exactly one token, one that fails costs nothing. */
  lemma CheckSpendsOne(q: ValidQuota, b: Bucket, now: real)
    requires Sane(q, b, now)
    ensures 0.0 <= Level(q, b, now) <= q.burst
    ensures var (b', ok) := Check(q, b, now);
            Sane(q, b', now) && Level(q, b', now) == Level(q, b, now) - (if ok then 1.0 else 0.0)
  {
  }
}
