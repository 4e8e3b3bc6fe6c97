/** The admin API's rate limiter: a global bucket, a table of per-address buckets that is
    filled on demand and swept, and a bucket per endpoint category. Clock readings are
    parameters. */
module RateLimiter {
  import opened Types
  import opened RateLimitConfig
  import opened TokenBucket
  import opened MapSums

  type Ip = nat

  datatype Entry = Entry(bucket: Bucket, lastAccess: real, requestCount: nat)

  datatype Limiters = Limiters(global: Option<Bucket>, ips: map<Ip, Entry>, categories: map<EndpointCategory, Bucket>,
                               lastCleanup: real, running: bool)

  function GlobalQuota(c: Config): ValidQuota
    requires Usable(c)
  {
    PerSecond(c.global.requestsPerSecond, c.global.burstCapacity)
  }

  function IpQuota(c: Config): ValidQuota
    requires Usable(c) && c.perIp.enabled
  {
    PerSecond(c.perIp.requestsPerSecond, c.perIp.burstCapacity)
  }

  function CategoryQuota(c: Config, k: EndpointCategory): ValidQuota
    requires Usable(c) && c.endpoints.Of(k).enabled
  {
    PerSecond(c.endpoints.Of(k).requestsPerSecond, c.endpoints.Of(k).burstCapacity)
  }

  /** A limiter exists exactly where the configuration asks for one. */
  ghost predicate Configured(c: Config, l: Limiters) {
    && Usable(c)
    && (l.global.Some? <==> c.enabled)
    && (forall k :: k in l.categories <==> c.enabled && c.endpoints.Of(k).enabled)
    && (l.ips != map[] ==> c.enabled && c.perIp.enabled)
  }

  ghost function FullCategories(c: Config, now: real): map<EndpointCategory, Bucket>
    requires Usable(c)
  {
    map k: EndpointCategory | c.enabled && c.endpoints.Of(k).enabled :: Full(CategoryQuota(c, k), now)
  }

  /** The limiters of a new manager: all buckets full, no address known. */
  ghost function Initial(c: Config, now: real): Limiters
    requires Usable(c)
  {
    Limiters(if c.enabled then Some(Full(GlobalQuota(c), now)) else None, map[],
             FullCategories(c, now), now, false)
  }

  // --- The parts of one request -------------------------------------------------

  function CheckGlobal(c: Config, l: Limiters, now: real): (Limiters, bool)
    requires Configured(c, l)
  {
    if l.global.None? then (l, true)
    else
      var (b, ok) := Check(GlobalQuota(c), l.global.value, now);
      (l.(global := Some(b)), ok)
  }

  function EntryOf(c: Config, l: Limiters, ip: Ip, now: real): Entry
    requires Configured(c, l) && c.perIp.enabled
  {
    if ip in l.ips then l.ips[ip] else Entry(Full(IpQuota(c), now), now, 0)
  }

  function CheckIp(c: Config, l: Limiters, ip: Ip, now: real): (Limiters, bool)
    requires Configured(c, l)
  {
    if !c.perIp.enabled then (l, true)
    else
      var entry := EntryOf(c, l, ip, now);
      var (b, ok) := Check(IpQuota(c), entry.bucket, now);
      (l.(ips := l.ips[ip := entry.(bucket := b)]), ok)
  }

  function CheckCategory(c: Config, l: Limiters, k: EndpointCategory, now: real): (Limiters, bool)
    requires Configured(c, l)
  {
    if k !in l.categories then (l, true)
    else
      var (b, ok) := Check(CategoryQuota(c, k), l.categories[k], now);
      (l.(categories := l.categories[k := b]), ok)
  }

  function UpdateAccess(l: Limiters, ip: Ip, now: real): Limiters {
    if ip !in l.ips then l
    else
      var entry := l.ips[ip];
      l.(ips := l.ips[ip := entry.(lastAccess := now, requestCount := entry.requestCount + 1)])
  }

  predicate ShouldClean(c: Config, l: Limiters, now: real) {
    !l.running && Elapsed(l.lastCleanup, now).Floor >= c.cleanup.cleanupIntervalSecs
  }

  function Trigger(c: Config, l: Limiters, now: real): Limiters {
    if ShouldClean(c, l, now) then l.(running := true, lastCleanup := now) else l
  }

  predicate Expired(c: Config, entry: Entry, now: real) {
    Elapsed(entry.lastAccess, now) >= c.cleanup.maxAgeSecs as real
  }

  /** The addresses whose entries have expired when each age is read at `at`. */
  ghost function ExpiredIn(c: Config, ips: map<Ip, Entry>, at: Ip -> real): set<Ip> {
    set ip | ip in ips && Expired(c, ips[ip], at(ip))
  }

  function Min(a: nat, b: nat): nat {
    if b < a then b else a
  }

  // --- A whole request ----------------------------------------------------------

  datatype Scope = GlobalScope | IpScope | CategoryScope(category: EndpointCategory)

  datatype RateLimitError = RateLimitError(scope: Scope, retryAfter: nat, limit: nat)

  /** Seconds a refused client is told to wait */
  function RetryAfter(requestsPerSecond: nat): (secs: nat)
    requires requestsPerSecond > 0
    ensures 1 <= secs <= 60 && (secs == 1 || secs * requestsPerSecond <= 60)
  {
    var share := 60 / requestsPerSecond;
    if share < 1 then 1 else share
  }

  function Refusal(scope: Scope, requestsPerSecond: nat): RateLimitError
    requires requestsPerSecond > 0
  {
    RateLimitError(scope, RetryAfter(requestsPerSecond), requestsPerSecond)
  }

  /** After the announced wait, an undisturbed bucket has a token again. */
  lemma RetryAfterSuffices(requestsPerSecond: nat, burst: nat, b: Bucket, now: real, later: real)
    requires requestsPerSecond > 0 && burst > 0
    requires Sane(PerSecond(requestsPerSecond, burst), b, now)
    requires later >= now + RetryAfter(requestsPerSecond) as real
    ensures Check(PerSecond(requestsPerSecond, burst), b, later).1
  {
    var q := PerSecond(requestsPerSecond, burst);
    var waited := later - b.last;
    assert waited >= 1.0;
    assert Gain(q, waited) == Gain(q, 1.0) + Gain(q, waited - 1.0) by {
      GainAdds(q, 1.0, waited - 1.0);
    }
  }

  /** Clock readings of one request, in the order they are taken. */
  datatype Clock = Clock(global: real, ip: real, category: real, access: real, cleanup: real)

  datatype Outcome = Outcome(limiters: Limiters, refused: Option<RateLimitError>, spawned: bool)

  function Answered(c: Config, l: Limiters, ip: Ip, t: Clock): Outcome {
    var l' := UpdateAccess(l, ip, t.access);
    Outcome(Trigger(c, l', t.cleanup), None, ShouldClean(c, l', t.cleanup))
  }

  function FromCategoryCheck(c: Config, l: Limiters, ip: Ip, k: EndpointCategory, t: Clock): Outcome
    requires Configured(c, l)
  {
    var (l', ok) := CheckCategory(c, l, k, t.category);
    if ok then Answered(c, l', ip, t)
    else Outcome(l', Some(Refusal(CategoryScope(k), c.endpoints.Of(k).requestsPerSecond)), false)
  }

  function FromIpCheck(c: Config, l: Limiters, ip: Ip, k: EndpointCategory, t: Clock): Outcome
    requires Configured(c, l) && c.enabled
  {
    var (l', ok) := CheckIp(c, l, ip, t.ip);
    if ok then FromCategoryCheck(c, l', ip, k, t)
    else Outcome(l', Some(Refusal(IpScope, c.perIp.requestsPerSecond)), false)
  }

  /** What one uninterrupted request does. */
  function Request(c: Config, l: Limiters, ip: Ip, k: EndpointCategory, t: Clock): Outcome
    requires Configured(c, l)
  {
    if !c.enabled then Outcome(l, None, false)
    else
      var (l', ok) := CheckGlobal(c, l, t.global);
      if ok then FromIpCheck(c, l', ip, k, t)
      else Outcome(l', Some(Refusal(GlobalScope, c.global.requestsPerSecond)), false)
  }

  // --- Sums over the table ------------------------------------------------------

  ghost function Counts(ips: map<Ip, Entry>): map<Ip, nat> {
    map ip | ip in ips :: ips[ip].requestCount
  }

  /** Requests counted by the entries of the table */
  ghost function Total(ips: map<Ip, Entry>): nat {
    Sum(Counts(ips))
  }

  lemma TotalWithout(ips: map<Ip, Entry>, ip: Ip)
    requires ip in ips
    ensures Total(ips) == ips[ip].requestCount + Total(ips - {ip})
  {
    SumWithout(Counts(ips), ip);
    assert Counts(ips) - {ip} == Counts(ips - {ip});
  }

  // --- The manager --------------------------------------------------------------

  /** The category part of `RateLimiterManager::new` */
  method CategoryLimiters(c: Config, now: real) returns (limiters: map<EndpointCategory, Bucket>)
    requires Usable(c)
    ensures limiters == FullCategories(c, now)
  {
    limiters := map[];
    if c.enabled {
      if c.endpoints.health.enabled {
        limiters := limiters[Health := Full(CategoryQuota(c, Health), now)];
      }
      if c.endpoints.readOperations.enabled {
        limiters := limiters[ReadOperations := Full(CategoryQuota(c, ReadOperations), now)];
      }
      if c.endpoints.writeOperations.enabled {
        limiters := limiters[WriteOperations := Full(CategoryQuota(c, WriteOperations), now)];
      }
      if c.endpoints.clusterOperations.enabled {
        limiters := limiters[ClusterOperations := Full(CategoryQuota(c, ClusterOperations), now)];
      }
    }
  }

  lemma {:induction false} SubsetCardinality<T>(a: set<T>, b: set<T>)
    requires a <= b
    ensures |a| <= |b|
  {
    if a != {} {
      var x :| x in a;
      SubsetCardinality(a - {x}, b - {x});
    }
  }

  lemma SweptEnough(removed: set<Ip>, expired: set<Ip>, max: nat)
    requires removed <= expired && |removed| <= max
    requires |removed| == max || expired <= removed
    ensures |removed| == Min(|expired|, max)
  {
    SubsetCardinality(removed, expired);
    assert expired <= removed ==> removed == expired;
  }

  /** The choice `perform_cleanup` makes about every entry, visiting the table in any
      order; `at` is the clock reading with which each entry's age is measured. */
  method Sweep(c: Config, ips: map<Ip, Entry>, at: Ip -> real) returns (removed: set<Ip>)
    ensures removed <= ExpiredIn(c, ips, at)
    ensures |removed| == Min(|ExpiredIn(c, ips, at)|, c.cleanup.maxCleanupPerRun)
  {
    var pending, cleaned := ips.Keys, 0;
    ghost var expired := ExpiredIn(c, ips, at);
    removed := {};
    while pending != {}
      invariant pending <= ips.Keys && removed <= expired && removed !! pending
      invariant cleaned == |removed| <= c.cleanup.maxCleanupPerRun
      invariant cleaned < c.cleanup.maxCleanupPerRun ==> forall ip :: ip in expired ==> ip in pending || ip in removed
      decreases |pending|
    {
      var ip :| ip in pending;
      pending := pending - {ip};
      if cleaned < c.cleanup.maxCleanupPerRun && Expired(c, ips[ip], at(ip)) {
        removed := removed + {ip};
        cleaned := cleaned + 1;
      }
    }
    SweptEnough(removed, expired, c.cleanup.maxCleanupPerRun);
  }

  class RateLimiterManager {
    const config: Config
    var global: Option<Bucket>
    var ips: map<Ip, Entry>
    var categories: map<EndpointCategory, Bucket>
    var lastCleanup: real
    var running: bool

    ghost function Abs(): Limiters
      reads this
    {
      Limiters(global, ips, categories, lastCleanup, running)
    }

    ghost predicate Valid()
      reads this
    {
      Configured(config, Abs())
    }

    constructor (c: Config, now: real)
      requires Usable(c)
      ensures config == c && Valid() && Abs() == Initial(c, now)
    {
      config := c;
      var limiters := CategoryLimiters(c, now);
      global := if c.enabled && c.global.requestsPerSecond > 0 then Some(Full(GlobalQuota(c), now)) else None;
      categories := limiters;
      ips := map[];
      lastCleanup := now;
      running := false;
    }

    /** `RateLimiterManager::new`: validation is the only way it fails, because the
        quotas of an accepted configuration are never zero. */
    static method New(c: Config, now: real) returns (r: Result<RateLimiterManager, ConfigError>)
      ensures r.Err? <==> Validate(c).Some?
      ensures r.Err? ==> r.error == Validate(c).value
      ensures r.Ok? ==> fresh(r.value) && r.value.config == c && r.value.Valid() && r.value.Abs() == Initial(c, now)
    {
      var invalid := Validate(c);
      if invalid.Some? {
        return Err(invalid.value);
      }
      AcceptedIsUsable(c);
      var manager := new RateLimiterManager(c, now);
      return Ok(manager);
    }

    /** `check_ip_rate_limit` */
    method CheckIpRateLimit(ip: Ip, now: real) returns (ok: bool)
      requires Valid() && config.enabled && config.perIp.enabled
      modifies this`ips
      ensures Valid() && (Abs(), ok) == CheckIp(config, old(Abs()), ip, now)
    {
      if ip !in ips {
        ips := ips[ip := Entry(Full(IpQuota(config), now), now, 0)];
      }
      var entry := ips[ip];
      var (b, passed) := Check(IpQuota(config), entry.bucket, now);
      ips := ips[ip := entry.(bucket := b)];
      ok := passed;
      assert ips == old(ips)[ip := EntryOf(config, old(Abs()), ip, now).(bucket := b)];
    }

    /** `check_category_rate_limit` */
    method CheckCategoryRateLimit(k: EndpointCategory, now: real) returns (refused: Option<RateLimitError>)
      requires Valid()
      modifies this`categories
      ensures Valid() && (Abs(), refused.None?) == CheckCategory(config, old(Abs()), k, now)
      ensures refused.Some? ==> config.endpoints.Of(k).requestsPerSecond > 0
      ensures refused.Some? ==> refused.value == Refusal(CategoryScope(k), config.endpoints.Of(k).requestsPerSecond)
    {
      if k in categories {
        var (b, passed) := Check(CategoryQuota(config, k), categories[k], now);
        categories := categories[k := b];
        if !passed {
          return Some(Refusal(CategoryScope(k), config.endpoints.Of(k).requestsPerSecond));
        }
      }
      return None;
    }

    /** `update_ip_access`: an address with an entry is counted once more and cannot expire
        before the maximum age has passed again; an address whose entry is gone is not
        counted. No tokens are spent. */
    method UpdateIpAccess(ip: Ip, now: real)
      requires Valid()
      modifies this`ips
      ensures Valid() && Abs() == UpdateAccess(old(Abs()), ip, now)
      ensures Total(ips) == old(Total(ips)) + Bit(ip in old(ips))
      ensures ip in ips ==> forall later: real :: Elapsed(now, later) < config.cleanup.maxAgeSecs as real ==>
                !Expired(config, ips[ip], later)
      ensures ips.Keys == old(ips).Keys
      ensures forall other :: other in ips ==>
                ips[other].bucket == old(ips)[other].bucket && (other != ip ==> ips[other] == old(ips)[other])
    {
      if ip in ips {
        var entry := ips[ip];
        TotalWithout(ips, ip);
        ips := ips[ip := entry.(lastAccess := now, requestCount := entry.requestCount + 1)];
        TotalWithout(ips, ip);
        assert ips - {ip} == old(ips) - {ip};
      }
    }

    /** `maybe_trigger_cleanup`; the caller starts the sweep when told to. It is told so only
        when none is running and the interval has passed; from then on nobody is told so
        while the sweep runs, and after its end not before another interval has passed. */
    method MaybeTriggerCleanup(now: real) returns (spawned: bool)
      requires Valid()
      modifies this`running, this`lastCleanup
      ensures Valid() && Abs() == Trigger(config, old(Abs()), now) && spawned == ShouldClean(config, old(Abs()), now)
      ensures spawned ==> !old(running) && Elapsed(old(lastCleanup), now) >= config.cleanup.cleanupIntervalSecs as real
      ensures spawned ==> forall later: real :: !ShouldClean(config, Abs(), later)
      ensures spawned ==> forall later: real :: Elapsed(now, later) < config.cleanup.cleanupIntervalSecs as real ==>
                !ShouldClean(config, Abs().(running := false), later)
      ensures !spawned ==> running == old(running) && lastCleanup == old(lastCleanup)
    {
      spawned := false;
      if !running && Elapsed(lastCleanup, now).Floor >= config.cleanup.cleanupIntervalSecs {
        running := true;
        lastCleanup := now;
        spawned := true;
      }
    }

    /** `check_rate_limit` */
    method CheckRateLimit(ip: Ip, k: EndpointCategory, t: Clock)
      returns (refused: Option<RateLimitError>, spawned: bool)
      requires Valid()
      modifies this
      ensures Valid() && Outcome(Abs(), refused, spawned) == Request(config, old(Abs()), ip, k, t)
    {
      if !config.enabled {
        return None, false;
      }
      if global.Some? {
        var (b, ok) := Check(GlobalQuota(config), global.value, t.global);
        global := Some(b);
        if !ok {
          return Some(Refusal(GlobalScope, config.global.requestsPerSecond)), false;
        }
      }
      if config.perIp.enabled {
        var ok := CheckIpRateLimit(ip, t.ip);
        if !ok {
          return Some(Refusal(IpScope, config.perIp.requestsPerSecond)), false;
        }
      }
      refused := CheckCategoryRateLimit(k, t.category);
      if refused.Some? {
        return refused, false;
      }
      UpdateIpAccess(ip, t.access);
      spawned := MaybeTriggerCleanup(t.cleanup);
    }

    /** `perform_cleanup` */
    method PerformCleanup(at: Ip -> real) returns (removed: set<Ip>)
      requires Valid()
      modifies this`ips
      ensures Valid() && removed <= ExpiredIn(config, old(ips), at) && ips == old(ips) - removed
      ensures |removed| == Min(|ExpiredIn(config, old(ips), at)|, config.cleanup.maxCleanupPerRun)
    {
      removed := Sweep(config, ips, at);
      ips := ips - removed;
    }

    /** `total_requests` of `get_stats` */
    method TotalRequests() returns (total: nat)
      ensures total == Total(ips)
    {
      total := 0;
      var rest := ips;
      while rest != map[]
        invariant total + Total(rest) == Total(ips)
        decreases |rest|
      {
        var ip :| ip in rest;
        TotalWithout(rest, ip);
        total := total + rest[ip].requestCount;
        rest := rest - {ip};
      }
    }
  }
}
