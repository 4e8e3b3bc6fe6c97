/** Configuration of the admin API's rate limiter and the checks that accept it. */
module RateLimitConfig {
  import opened Types

  datatype GlobalLimits = GlobalLimits(requestsPerSecond: nat, burstCapacity: nat, windowSizeSecs: nat)

  datatype PerIpLimits = PerIpLimits(enabled: bool, requestsPerSecond: nat, burstCapacity: nat, windowSizeSecs: nat,
                                     maxTrackedIps: nat, ipExpirySecs: nat)

  datatype CategoryLimits = CategoryLimits(enabled: bool, requestsPerSecond: nat, burstCapacity: nat,
                                           windowSizeSecs: nat, endpointPatterns: seq<string>)

  datatype EndpointCategory = Health | ReadOperations | WriteOperations | ClusterOperations

  datatype EndpointLimits = EndpointLimits(health: CategoryLimits, readOperations: CategoryLimits,
                                           writeOperations: CategoryLimits, clusterOperations: CategoryLimits)
  {
    function Of(category: EndpointCategory): CategoryLimits {
      match category
      case Health => health
      case ReadOperations => readOperations
      case WriteOperations => writeOperations
      case ClusterOperations => clusterOperations
    }
  }

  datatype CleanupConfig = CleanupConfig(enabled: bool, cleanupIntervalSecs: nat, maxAgeSecs: nat,
                                         maxCleanupPerRun: nat)

  datatype Config = Config(enabled: bool, global: GlobalLimits, perIp: PerIpLimits, endpoints: EndpointLimits,
                           cleanup: CleanupConfig)

  /** Which part of the configuration is refused, and for which field. */
  datatype Section = Global | PerIp | Endpoint(category: EndpointCategory) | Cleanup
  datatype Field = RequestsPerSecond | BurstCapacity | WindowSize | MaxTrackedIps | IpExpiry | EndpointPatterns
                 | CleanupInterval | MaxAge | MaxCleanupPerRun
  datatype ConfigError = InvalidConfig(section: Section, field: Field)

  const MAX_REQUESTS_PER_SECOND := 1_000_000
  const MAX_TRACKED_IPS := 1_000_000
  const MIN_CLEANUP_INTERVAL := 10
  const MAX_CLEANUP_PER_RUN := 100_000

  function ValidateGlobal(g: GlobalLimits): Option<Field> {
    if g.requestsPerSecond == 0 then Some(RequestsPerSecond)
    else if g.burstCapacity == 0 then Some(BurstCapacity)
    else if g.burstCapacity < g.requestsPerSecond then Some(BurstCapacity)
    else if g.windowSizeSecs == 0 then Some(WindowSize)
    else if g.requestsPerSecond > MAX_REQUESTS_PER_SECOND then Some(RequestsPerSecond)
    else None
  }

  function ValidatePerIp(p: PerIpLimits): Option<Field> {
    if !p.enabled then None
    else if p.requestsPerSecond == 0 then Some(RequestsPerSecond)
    else if p.burstCapacity == 0 then Some(BurstCapacity)
    else if p.burstCapacity < p.requestsPerSecond then Some(BurstCapacity)
    else if p.windowSizeSecs == 0 then Some(WindowSize)
    else if p.maxTrackedIps == 0 then Some(MaxTrackedIps)
    else if p.ipExpirySecs == 0 then Some(IpExpiry)
    else if p.maxTrackedIps > MAX_TRACKED_IPS then Some(MaxTrackedIps)
    else None
  }

  /** Unicode white space, which `trim` removes. */
  predicate IsWhiteSpace(c: char) {
    || '\t' <= c <= '\r' || c == ' ' || c == '\U{0085}' || c == '\U{00A0}' || c == '\U{1680}'
    || '\U{2000}' <= c <= '\U{200A}' || c == '\U{2028}' || c == '\U{2029}' || c == '\U{202F}'
    || c == '\U{205F}' || c == '\U{3000}'
  }

  predicate IsBlank(pattern: string) {
    forall i :: 0 <= i < |pattern| ==> IsWhiteSpace(pattern[i])
  }

  function ValidateCategory(l: CategoryLimits): Option<Field> {
    if !l.enabled then None
    else if l.requestsPerSecond == 0 then Some(RequestsPerSecond)
    else if l.burstCapacity == 0 then Some(BurstCapacity)
    else if l.burstCapacity < l.requestsPerSecond then Some(BurstCapacity)
    else if l.windowSizeSecs == 0 then Some(WindowSize)
    else if l.endpointPatterns == [] then Some(EndpointPatterns)
    else if exists i :: 0 <= i < |l.endpointPatterns| && IsBlank(l.endpointPatterns[i]) then Some(EndpointPatterns)
    else None
  }

  function ValidateCleanup(c: CleanupConfig): Option<Field> {
    if !c.enabled then None
    else if c.cleanupIntervalSecs == 0 then Some(CleanupInterval)
    else if c.maxAgeSecs == 0 then Some(MaxAge)
    else if c.maxCleanupPerRun == 0 then Some(MaxCleanupPerRun)
    else if c.cleanupIntervalSecs < MIN_CLEANUP_INTERVAL then Some(CleanupInterval)
    else if c.maxCleanupPerRun > MAX_CLEANUP_PER_RUN then Some(MaxCleanupPerRun)
    else None
  }

  function FirstBadCategory(e: EndpointLimits, categories: seq<EndpointCategory>): Option<ConfigError> {
    if categories == [] then None
    else
      var field := ValidateCategory(e.Of(categories[0]));
      if field.Some? then Some(InvalidConfig(Endpoint(categories[0]), field.value))
      else FirstBadCategory(e, categories[1..])
  }

  const CATEGORIES := [Health, ReadOperations, WriteOperations, ClusterOperations]

  /** `RateLimitConfig::validate`: the first error found, in the order of the sections. */
  function Validate(c: Config): Option<ConfigError> {
    var global := ValidateGlobal(c.global);
    var perIp := ValidatePerIp(c.perIp);
    var endpoints := FirstBadCategory(c.endpoints, CATEGORIES);
    var cleanup := ValidateCleanup(c.cleanup);
    if global.Some? then Some(InvalidConfig(Global, global.value))
    else if perIp.Some? then Some(InvalidConfig(PerIp, perIp.value))
    else if endpoints.Some? then endpoints
    else if cleanup.Some? then Some(InvalidConfig(Cleanup, cleanup.value))
    else None
  }

  /** What an accepted configuration guarantees to the limiter. */
  ghost predicate Usable(c: Config) {
    && 0 < c.global.requestsPerSecond <= c.global.burstCapacity
    && (c.perIp.enabled ==> 0 < c.perIp.requestsPerSecond <= c.perIp.burstCapacity)
    && (forall k: EndpointCategory :: c.endpoints.Of(k).enabled ==>
          0 < c.endpoints.Of(k).requestsPerSecond <= c.endpoints.Of(k).burstCapacity)
    && (c.cleanup.enabled ==> c.cleanup.cleanupIntervalSecs >= MIN_CLEANUP_INTERVAL && c.cleanup.maxAgeSecs > 0)
  }

  lemma {:induction false} NoBadCategory(e: EndpointLimits, categories: seq<EndpointCategory>, i: nat)
    requires FirstBadCategory(e, categories).None? && i < |categories|
    ensures ValidateCategory(e.Of(categories[i])).None?
  {
    if i > 0 {
      NoBadCategory(e, categories[1..], i - 1);
    }
  }

  lemma AcceptedIsUsable(c: Config)
    requires Validate(c).None?
    ensures Usable(c)
  {
    forall k: EndpointCategory ensures ValidateCategory(c.endpoints.Of(k)).None? {
      var i :=
        match k { case Health => 0 case ReadOperations => 1 case WriteOperations => 2 case ClusterOperations => 3 };
      NoBadCategory(c.endpoints, CATEGORIES, i);
    }
  }
}
