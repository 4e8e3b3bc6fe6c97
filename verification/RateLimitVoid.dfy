/** When the per-address limit is void: exactly when entries expire at once and nothing
    keeps the cleanups that requests start apart. */
module RateLimitVoid {
  import opened Types
  import opened RateLimitConfig
  import opened TokenBucket
  import opened RateLimiter
  import opened RateLimitRuns
  import opened RateLimitCalls
  import opened RateLimitEvictions

  /** Configurations that validation accepts although entries expire at once. */
  ghost predicate Ageless(c: Config) {
    && Validate(c).None? && c.enabled && c.perIp.enabled
    && c.cleanup.maxAgeSecs == 0 && c.cleanup.cleanupIntervalSecs == 0 && c.cleanup.maxCleanupPerRun > 0
  }

  /** The global limit, and that of the category if it has one, let `n` requests pass at once. */
  predicate Room(c: Config, k: EndpointCategory, n: nat) {
    n <= c.global.burstCapacity && (c.endpoints.Of(k).enabled ==> n <= c.endpoints.Of(k).burstCapacity)
  }

  /** `n` tokens are gone from the limits that are shared by all addresses. */
  ghost predicate Left(c: Config, l: Limiters, t: real, k: EndpointCategory, n: nat)
    requires Configured(c, l) && c.enabled
  {
    && Level(GlobalQuota(c), l.global.value, t) == GlobalQuota(c).burst - n as real
    && (c.endpoints.Of(k).enabled ==>
          Level(CategoryQuota(c, k), l.categories[k], t) == CategoryQuota(c, k).burst - n as real)
  }

  /** `n` requests of one address and category were admitted without any time passing, and
      the address has no entry. */
  ghost predicate Served(c: Config, s: State, t: real, ip: Ip, k: EndpointCategory, n: nat)
    requires Configured(c, s.l) && c.enabled
  {
    && s.now == t && ip !in s.l.ips && s.cleanups == map[] && !s.l.running
    && (forall id :: id in s.calls <==> 0 <= id < n)
    && (forall id :: id in s.calls ==> s.calls[id] == Call(ip, k, 5, false))
    && Left(c, s.l, t, k, n)
  }

  /** The outcome of one more request: it is admitted, its entry has just been used, and it
      has started a cleanup. */
  ghost predicate OneMore(c: Config, o: Outcome, t: real, ip: Ip, k: EndpointCategory, n: nat)
    requires Configured(c, o.limiters) && c.enabled
  {
    && o.refused.None? && o.spawned && ip in o.limiters.ips && o.limiters.ips[ip].lastAccess == t
    && Left(c, o.limiters, t, k, n + 1)
  }

  lemma ServedOnce(c: Config, s: State, t: real, ip: Ip, k: EndpointCategory, n: nat)
    requires Configured(c, s.l) && Ageless(c) && Room(c, k, n + 1) && Served(c, s, t, ip, k, n)
    ensures var o := Request(c, s.l, ip, k, Clock(t, t, t, t, t));
            Configured(c, o.limiters) && OneMore(c, o, t, ip, k, n)
  {
  }

  /** The started cleanup evicts the entry at once. */
  lemma ServedSwept(c: Config, s: State, s1: State, t: real, ip: Ip, k: EndpointCategory, n: nat, o: Outcome)
    requires Configured(c, s.l) && Configured(c, s1.l) && c.enabled && Served(c, s, t, ip, k, n)
    requires c.cleanup.maxAgeSecs == 0 && c.cleanup.maxCleanupPerRun > 0
    requires Configured(c, o.limiters) && Ends(s, s1, n, ip, k, o, 0, t) && OneMore(c, o, t, ip, k, n)
    ensures Served(c, Step(c, Step(c, s1, Evict(0, ip)), EndCleanup(0)), t, ip, k, n + 1)
  {
  }

  lemma RunTwo(c: Config, s: State, actions: seq<Action>, a: Action, b: Action)
    requires Configured(c, s.l)
    ensures Run(c, s, actions + [a, b]) == Step(c, Step(c, Run(c, s, actions), a), b)
  {
    RunConcat(c, s, actions, [a, b]);
    RunOne(c, Run(c, s, actions), a);
    assert [a, b][..1] == [a];
  }

  lemma ServedAgain(c: Config, s: State, t: real, ip: Ip, k: EndpointCategory, n: nat) returns (actions: seq<Action>)
    requires Configured(c, s.l) && Ageless(c) && Room(c, k, n + 1) && Served(c, s, t, ip, k, n)
    ensures Served(c, Run(c, s, actions), t, ip, k, n + 1)
  {
    var clock := Clock(t, t, t, t, t);
    var script := Script(n, ip, k, 0, clock, t);
    UninterruptedRequest(c, s, n, ip, k, 0, clock);
    ServedOnce(c, s, t, ip, k, n);
    actions := script + [Evict(0, ip), EndCleanup(0)];
    RunTwo(c, s, script, Evict(0, ip), EndCleanup(0));
    ServedSwept(c, s, Run(c, s, script), t, ip, k, n, Request(c, s.l, ip, k, clock));
  }

  lemma {:induction false} ServedMany(c: Config, t: real, ip: Ip, k: EndpointCategory, n: nat)
    returns (actions: seq<Action>)
    requires Ageless(c) && Usable(c) && Room(c, k, n)
    ensures Served(c, Run(c, Start(c, t), actions), t, ip, k, n)
  {
    if n == 0 {
      actions := [];
    } else {
      var first := ServedMany(c, t, ip, k, n - 1);
      var second := ServedAgain(c, Run(c, Start(c, t), first), t, ip, k, n - 1);
      RunConcat(c, Start(c, t), first, second);
      actions := first + second;
    }
  }

  lemma {:induction false} FirstNumbers(s: set<nat>, n: nat)
    requires forall id :: id in s <==> 0 <= id < n
    ensures |s| == n
  {
    if n == 0 {
      assert s == {};
    } else {
      FirstNumbers(s - {n - 1}, n - 1);
    }
  }

  /** With a maximum age and a cleanup interval of zero, one address is admitted as often as
      the global limit and that of a category allow at a single instant, one request after the
      other, however small its own burst is. */
  lemma AgelessVoidsIpLimit(c: Config, t: real, ip: Ip, k: EndpointCategory, n: nat)
    requires Ageless(c) && Room(c, k, n)
    ensures Usable(c)
    ensures exists actions ::
              var s := Run(c, Start(c, t), actions);
              s.now == t && |PassesIp(Start(c, t), s, ip)| == n
  {
    AcceptedIsUsable(c);
    var actions := ServedMany(c, t, ip, k, n);
    FirstNumbers(PassesIp(Start(c, t), Run(c, Start(c, t), actions), ip), n);
  }

  function AgelessExample(): Config {
    var off := CategoryLimits(false, 0, 0, 0, []);
    Config(true, GlobalLimits(10, 10, 60), PerIpLimits(true, 1, 1, 60, 100, 3600), EndpointLimits(off, off, off, off),
           CleanupConfig(false, 0, 0, 1000))
  }

  /** Ten requests at one instant from an address whose burst is one */
  lemma IpLimitExceeded(t: real, ip: Ip)
    ensures var c := AgelessExample();
            Validate(c).None? && Usable(c) && IpQuota(c).burst == 1.0
            && exists actions ::
                 var s := Run(c, Start(c, t), actions);
                 s.now == t && |PassesIp(Start(c, t), s, ip)| == 10
  {
    var c := AgelessExample();
    assert FirstBadCategory(c.endpoints, CATEGORIES[4..]).None?;
    assert FirstBadCategory(c.endpoints, CATEGORIES[3..]).None?;
    assert FirstBadCategory(c.endpoints, CATEGORIES[2..]).None?;
    assert FirstBadCategory(c.endpoints, CATEGORIES[1..]).None?;
    AgelessVoidsIpLimit(c, t, ip, Health, 10);
  }

  // --- The exact condition -------------------------------------------------------------

  /** At no instant do more than three bursts of one address pass. */
  ghost predicate InstantBounded(c: Config)
    requires Usable(c) && c.perIp.enabled
  {
    forall s, window, ip :: Reachable(c, s) && Run(c, s, window).now == s.now ==>
      |PassesIp(s, Run(c, s, window), ip)| as real <= Bursts(IpQuota(c), 3)
  }

  /** Evictions of an address can follow each other at once. */
  predicate Unspaced(c: Config) {
    c.cleanup.maxAgeSecs == 0 && c.cleanup.cleanupIntervalSecs == 0 && c.cleanup.maxCleanupPerRun > 0
  }

  lemma InstantAllowances(c: Config, running: bool)
    requires Usable(c) && c.perIp.enabled
    ensures c.cleanup.maxAgeSecs > 0 ==> IpAllowance(c, 0.0) <= Bursts(IpQuota(c), 3)
    ensures c.cleanup.cleanupIntervalSecs > 0 ==> IntervalAllowance(c, 0.0, running) <= Bursts(IpQuota(c), 3)
  {
    BurstsGrow(IpQuota(c), 2, 3);
  }

  lemma InstantWindow(c: Config, s: State, window: seq<Action>, ip: Ip)
    requires Reachable(c, s) && c.enabled && c.perIp.enabled && !Unspaced(c) && Run(c, s, window).now == s.now
    ensures |PassesIp(s, Run(c, s, window), ip)| as real <= Bursts(IpQuota(c), 3)
  {
    InstantAllowances(c, s.l.running);
    if c.cleanup.maxAgeSecs > 0 {
      IpWindow(c, s, window, ip);
    } else if c.cleanup.cleanupIntervalSecs > 0 {
      IntervalWindow(c, s, window, ip);
    } else {
      ReachableInv(c, s);
      NoEvictions(c, s, window, ip);
      IpSpent(c, s, window, ip);
      BurstsGrow(IpQuota(c), 1, 3);
    }
  }

  lemma ReachableStep(c: Config, s: State, a: Action)
    requires Reachable(c, s)
    ensures Reachable(c, Step(c, s, a))
  {
    var t, past :| s == Run(c, Start(c, t), past);
    assert (past + [a])[..|past|] == past;
    assert Step(c, s, a) == Run(c, Start(c, t), past + [a]);
  }

  lemma ReachableRun(c: Config, s: State, actions: seq<Action>)
    requires Reachable(c, s)
    ensures Reachable(c, Run(c, s, actions))
  {
    var t, past :| s == Run(c, Start(c, t), past);
    RunConcat(c, Start(c, t), past, actions);
  }

  /** Both kinds of limits exist, and no cleanup is under way. */
  ghost predicate Calm(c: Config, s: State) {
    Inv(c, s) && c.enabled && c.perIp.enabled && s.cleanups == map[] && !s.l.running
  }

  /** After a second, every bucket has a token. */
  lemma TokenAfterSecond(q: ValidQuota, b: Bucket, now: real)
    requires Sane(q, b, now) && q.rate >= 1.0
    ensures Level(q, b, now + 1.0) >= 1.0
  {
    var dt := now + 1.0 - b.last;
    calc {
      Gain(q, dt);
    ==
      q.rate * dt;
    >=  { assert q.rate >= 1.0 && dt >= 1.0; assert (q.rate - 1.0) * dt >= 0.0; }
      1.0 * dt;
    >=
      1.0;
    }
  }

  lemma CalmTick(c: Config, s: State, ip: Ip) returns (s': State)
    requires Reachable(c, s) && Calm(c, s)
    ensures Reachable(c, s') && Calm(c, s') && s'.calls == s.calls
    ensures Level(GlobalQuota(c), s'.l.global.value, s'.now) >= 1.0
    ensures ip in s'.l.ips ==> Level(IpQuota(c), s'.l.ips[ip].bucket, s'.now) >= 1.0
    ensures Health in s'.l.categories ==> Level(CategoryQuota(c, Health), s'.l.categories[Health], s'.now) >= 1.0
  {
    s' := Step(c, s, Tick(1.0));
    InvStep(c, s, Tick(1.0));
    ReachableStep(c, s, Tick(1.0));
    TokenAfterSecond(GlobalQuota(c), s.l.global.value, s.now);
    if ip in s.l.ips {
      TokenAfterSecond(IpQuota(c), s.l.ips[ip].bucket, s.now);
    }
    if Health in s.l.categories {
      TokenAfterSecond(CategoryQuota(c, Health), s.l.categories[Health], s.now);
    }
  }

  /** A new request has passed the global check and waits. */
  lemma Park(c: Config, s: State, id: nat, ip: Ip) returns (s': State)
    requires Reachable(c, s) && Calm(c, s) && id !in s.calls
    ensures Reachable(c, s') && Calm(c, s') && s'.calls == s.calls[id := Call(ip, Health, 1, false)]
    ensures ip in s'.l.ips ==> Level(IpQuota(c), s'.l.ips[ip].bucket, s'.now) >= 1.0
    ensures Health in s'.l.categories ==> Level(CategoryQuota(c, Health), s'.l.categories[Health], s'.now) >= 1.0
  {
    var s1 := CalmTick(c, s, ip);
    var s2 := Step(c, s1, Begin(id, ip, Health));
    InvStep(c, s1, Begin(id, ip, Health));
    ReachableStep(c, s1, Begin(id, ip, Health));
    s' := Step(c, s2, PassGlobal(id));
    InvStep(c, s2, PassGlobal(id));
    ReachableStep(c, s2, PassGlobal(id));
  }

  lemma GoOn(c: Config, s: State, a: Action)
    requires Reachable(c, s) && Inv(c, s)
    ensures Reachable(c, Step(c, s, a)) && Inv(c, Step(c, s, a))
  {
    InvStep(c, s, a);
    ReachableStep(c, s, a);
  }

  /** It goes on through the check of its address, */
  lemma ParkIp(c: Config, s: State, id: nat) returns (s': State)
    requires Reachable(c, s) && Calm(c, s) && s.At(id, 1)
    requires var ip := s.calls[id].ip; ip in s.l.ips ==> Level(IpQuota(c), s.l.ips[ip].bucket, s.now) >= 1.0
    ensures Reachable(c, s') && Calm(c, s') && s'.calls == s.calls[id := s.calls[id].(stage := 2)]
    ensures s'.now == s.now && s'.l.categories == s.l.categories
  {
    s' := Step(c, s, PassIp(id));
    GoOn(c, s, PassIp(id));
  }

  /** through that of its category, */
  lemma ParkCategory(c: Config, s: State, id: nat) returns (s': State)
    requires Reachable(c, s) && Calm(c, s) && s.At(id, 2)
    requires var k := s.calls[id].category;
             k in s.l.categories ==> Level(CategoryQuota(c, k), s.l.categories[k], s.now) >= 1.0
    ensures Reachable(c, s') && Calm(c, s') && s'.calls == s.calls[id := s.calls[id].(stage := 3)]
  {
    s' := Step(c, s, PassCategory(id));
    GoOn(c, s, PassCategory(id));
  }

  lemma ParkAccess(c: Config, s: State, id: nat) returns (s': State)
    requires Reachable(c, s) && Calm(c, s) && s.At(id, 3)
    ensures Reachable(c, s') && Calm(c, s') && s'.calls == s.calls[id := s.calls[id].(stage := 4)]
  {
    s' := Step(c, s, Access(id));
    GoOn(c, s, Access(id));
  }

  /** and has done everything but start a cleanup. */
  lemma ParkRest(c: Config, s: State, id: nat, ip: Ip) returns (s': State)
    requires Reachable(c, s) && Calm(c, s) && id in s.calls && s.calls[id] == Call(ip, Health, 1, false)
    requires ip in s.l.ips ==> Level(IpQuota(c), s.l.ips[ip].bucket, s.now) >= 1.0
    requires Health in s.l.categories ==> Level(CategoryQuota(c, Health), s.l.categories[Health], s.now) >= 1.0
    ensures Reachable(c, s') && Calm(c, s') && s'.calls == s.calls[id := Call(ip, Health, 4, false)]
  {
    var s1 := ParkIp(c, s, id);
    var s2 := ParkCategory(c, s1, id);
    s' := ParkAccess(c, s2, id);
  }

  lemma ParkLast(c: Config, s: State, id: nat, ip: Ip) returns (s': State)
    requires Reachable(c, s) && Calm(c, s) && id !in s.calls
    ensures Reachable(c, s') && Calm(c, s') && s'.calls == s.calls[id := Call(ip, Health, 4, false)]
  {
    var s1 := Park(c, s, id, ip);
    s' := ParkRest(c, s1, id, ip);
  }

  function WaitingCall(ip: Ip, n: nat, i: nat, id: nat): Call {
    Call(ip, Health, if id < n then (if id < i then 2 else 1) else if id < n + i then 5 else 4, false)
  }

  /** `n` requests wait for the check of their address, and `m` to start a cleanup; `i` of
      either have gone on. */
  function Waiting(ip: Ip, n: nat, m: nat, i: nat): map<nat, Call> {
    map id | 0 <= id < n + m :: WaitingCall(ip, n, i, id)
  }

  lemma {:induction false} ParkAll(c: Config, ip: Ip, n: nat, m: nat) returns (s: State)
    requires Usable(c) && c.enabled && c.perIp.enabled
    ensures Reachable(c, s) && Calm(c, s) && s.calls == Waiting(ip, n, m, 0)
    decreases n + m
  {
    if m > 0 {
      var s0 := ParkAll(c, ip, n, m - 1);
      s := ParkLast(c, s0, n + m - 1, ip);
    } else if n > 0 {
      var s0 := ParkAll(c, ip, n - 1, 0);
      s := Park(c, s0, n - 1, ip);
    } else {
      s := Start(c, 0.0);
      StartInv(c, 0.0);
      assert Run(c, s, []) == s;
    }
  }

  /** The request passes the check of its address. */
  lemma RoundPass(c: Config, s: State, i: nat, ip: Ip)
    requires Calm(c, s) && s.At(i, 1) && s.calls[i].ip == ip
    requires ip in s.l.ips ==> Level(IpQuota(c), s.l.ips[ip].bucket, s.now) >= 1.0
    ensures var s' := Step(c, s, PassIp(i));
            && Calm(c, s') && s'.now == s.now && ip in s'.l.ips
            && s'.calls == s.calls[i := s.calls[i].(stage := 2)]
  {
    InvStep(c, s, PassIp(i));
  }

  /** Another one starts a cleanup, which evicts the entry of the address, and ends. */
  lemma RoundSweep(c: Config, s: State, j: nat, ip: Ip)
    requires Calm(c, s) && Unspaced(c) && s.At(j, 4) && ip in s.l.ips
    ensures var s' := Step(c, Step(c, Step(c, s, Finish(j, 0)), Evict(0, ip)), EndCleanup(0));
            && Calm(c, s') && s'.now == s.now && ip !in s'.l.ips
            && s'.calls == s.calls[j := s.calls[j].(stage := 5)]
  {
    var s1 := Step(c, s, Finish(j, 0));
    InvStep(c, s, Finish(j, 0));
    var s2 := Step(c, s1, Evict(0, ip));
    InvStep(c, s1, Evict(0, ip));
    InvStep(c, s2, EndCleanup(0));
    assert ShouldClean(c, s.l, s.now);
    assert CanEvict(c, s1, 0, ip);
  }

  lemma Round(c: Config, s: State, i: nat, j: nat, ip: Ip) returns (window: seq<Action>)
    requires Calm(c, s) && Unspaced(c) && i != j && s.At(i, 1) && s.calls[i].ip == ip && s.At(j, 4)
    requires ip in s.l.ips ==> Level(IpQuota(c), s.l.ips[ip].bucket, s.now) >= 1.0
    ensures var s' := Run(c, s, window);
            && Calm(c, s') && s'.now == s.now && ip !in s'.l.ips
            && s'.calls == s.calls[i := s.calls[i].(stage := 2)][j := s.calls[j].(stage := 5)]
  {
    RoundPass(c, s, i, ip);
    RoundSweep(c, Step(c, s, PassIp(i)), j, ip);
    window := [PassIp(i), Finish(j, 0)] + [Evict(0, ip), EndCleanup(0)];
    RunTwo(c, s, [PassIp(i), Finish(j, 0)], Evict(0, ip), EndCleanup(0));
    RunTwo(c, s, [], PassIp(i), Finish(j, 0));
    assert [] + [PassIp(i), Finish(j, 0)] == [PassIp(i), Finish(j, 0)];
  }

  lemma {:induction false} Rounds(c: Config, s: State, ip: Ip, n: nat, i: nat) returns (window: seq<Action>)
    requires Calm(c, s) && Unspaced(c) && i <= n && s.calls == Waiting(ip, n, n, 0)
    requires ip in s.l.ips ==> Level(IpQuota(c), s.l.ips[ip].bucket, s.now) >= 1.0
    ensures var s' := Run(c, s, window);
            && Calm(c, s') && s'.now == s.now && s'.calls == Waiting(ip, n, n, i)
            && (ip in s'.l.ips ==> Level(IpQuota(c), s'.l.ips[ip].bucket, s'.now) >= 1.0)
    decreases i
  {
    if i == 0 {
      window := [];
    } else {
      var first := Rounds(c, s, ip, n, i - 1);
      var second := Round(c, Run(c, s, first), i - 1, n + i - 1, ip);
      RunConcat(c, s, first, second);
      window := first + second;
    }
  }

  /** If entries expire at once and nothing keeps cleanups apart, any number of requests of one
      address pass its check at a single instant, whatever the limits are: they have waited
      behind the global check, and others that wait behind all checks start the cleanups. */
  lemma UnspacedUnbounded(c: Config, ip: Ip, n: nat) returns (s: State, window: seq<Action>)
    requires Usable(c) && c.enabled && c.perIp.enabled && Unspaced(c)
    ensures Reachable(c, s) && Run(c, s, window).now == s.now && |PassesIp(s, Run(c, s, window), ip)| == n
  {
    var s0 := ParkAll(c, ip, n, n);
    s := CalmTick(c, s0, ip);
    window := Rounds(c, s, ip, n, n);
    FirstNumbers(PassesIp(s, Run(c, s, window), ip), n);
  }

  lemma BurstsBelow(q: ValidQuota, n: nat) returns (m: nat)
    ensures m as real > Bursts(q, n)
  {
    m := if Bursts(q, n) < 0.0 then 0 else Bursts(q, n).Floor + 1;
  }

  /** Under every accepted configuration, the number of requests of one address that pass at a
      single instant is bounded, by three bursts of that address, if and only if entries have a
      maximum age, or cleanups that requests start are kept apart by an interval, or cleanups
      evict nothing at all. */
  lemma IpLimitHoldsIff(c: Config)
    requires Validate(c).None? && c.enabled && c.perIp.enabled
    ensures Usable(c)
    ensures InstantBounded(c) <==>
            c.cleanup.maxAgeSecs > 0 || c.cleanup.cleanupIntervalSecs > 0 || c.cleanup.maxCleanupPerRun == 0
  {
    AcceptedIsUsable(c);
    if Unspaced(c) {
      var n := BurstsBelow(IpQuota(c), 3);
      var s, window := UnspacedUnbounded(c, 0, n);
      assert !(|PassesIp(s, Run(c, s, window), 0)| as real <= Bursts(IpQuota(c), 3));
    } else {
      forall s, window, ip | Reachable(c, s) && Run(c, s, window).now == s.now
        ensures |PassesIp(s, Run(c, s, window), ip)| as real <= Bursts(IpQuota(c), 3)
      {
        InstantWindow(c, s, window, ip);
      }
    }
  }

  // --- Three bursts at one instant -------------------------------------------------------

  /** A health request of the address would pass every check. */
  ghost predicate Ready(c: Config, s: State, ip: Ip)
    requires Configured(c, s.l)
  {
    && c.enabled && c.perIp.enabled && !c.endpoints.health.enabled
    && Level(GlobalQuota(c), s.l.global.value, s.now) >= 1.0
    && (ip in s.l.ips ==> Level(IpQuota(c), s.l.ips[ip].bucket, s.now) >= 1.0)
  }

  /** It does so at this instant, and starts a cleanup if one is due. */
  ghost predicate Passed(c: Config, s: State, s': State, ip: Ip, id: nat, sweep: nat)
    requires Configured(c, s.l) && Configured(c, s'.l) && c.enabled
  {
    && s'.now == s.now && s'.calls == s.calls[id := Call(ip, Health, 5, false)]
    && Level(GlobalQuota(c), s'.l.global.value, s.now) == Level(GlobalQuota(c), s.l.global.value, s.now) - 1.0
    && ip in s'.l.ips && s'.l.ips[ip].lastAccess == s.now
    && s'.l.ips[ip].bucket.tokens >= 0.0 && s'.l.ips[ip].bucket.last == s.now
    && s'.l.running == (s.l.running || ShouldClean(c, s.l, s.now))
    && s'.l.lastCleanup == (if ShouldClean(c, s.l, s.now) then s.now else s.l.lastCleanup)
    && s'.cleanups == if ShouldClean(c, s.l, s.now) then s.cleanups[sweep := CleanupRun(true, 0, {})] else s.cleanups
  }

  lemma PassedOutcome(c: Config, s: State, ip: Ip)
    requires Inv(c, s) && Ready(c, s, ip)
    ensures var o := Request(c, s.l, ip, Health, Clock(s.now, s.now, s.now, s.now, s.now));
            && Configured(c, o.limiters) && o.refused.None? && o.spawned == ShouldClean(c, s.l, s.now)
            && Level(GlobalQuota(c), o.limiters.global.value, s.now)
               == Level(GlobalQuota(c), s.l.global.value, s.now) - 1.0
            && ip in o.limiters.ips && o.limiters.ips[ip].lastAccess == s.now
            && o.limiters.ips[ip].bucket.tokens >= 0.0 && o.limiters.ips[ip].bucket.last == s.now
            && o.limiters.running == (s.l.running || o.spawned)
            && o.limiters.lastCleanup == if o.spawned then s.now else s.l.lastCleanup
  {
  }

  lemma Pass(c: Config, s: State, ip: Ip, id: nat, sweep: nat) returns (actions: seq<Action>)
    requires Inv(c, s) && Ready(c, s, ip) && id !in s.calls && sweep !in s.cleanups
    ensures Passed(c, s, Run(c, s, actions), ip, id, sweep)
  {
    var t := s.now;
    actions := Script(id, ip, Health, sweep, Clock(t, t, t, t, t), t);
    UninterruptedRequest(c, s, id, ip, Health, sweep, Clock(t, t, t, t, t));
    PassedOutcome(c, s, ip);
  }

  function SlowExample(): Config {
    var off := CategoryLimits(false, 0, 0, 0, []);
    Config(true, GlobalLimits(10, 10, 60), PerIpLimits(true, 1, 1, 60, 100, 3600), EndpointLimits(off, off, off, off),
           CleanupConfig(false, 10, 0, 1000))
  }

  lemma SlowAccepted()
    ensures Validate(SlowExample()).None? && Usable(SlowExample())
  {
    var c := SlowExample();
    assert FirstBadCategory(c.endpoints, CATEGORIES[4..]).None?;
    assert FirstBadCategory(c.endpoints, CATEGORIES[3..]).None?;
    assert FirstBadCategory(c.endpoints, CATEGORIES[2..]).None?;
    assert FirstBadCategory(c.endpoints, CATEGORIES[1..]).None?;
    AcceptedIsUsable(c);
  }

  /** A cleanup was started ten seconds ago and is still under way; it has not come to the
      entry of the address, whose bucket is full again. */
  lemma CleanupUnderWay(ip: Ip) returns (s: State)
    ensures var c := SlowExample(); Usable(c) && Reachable(c, s)
    ensures s.now == 20.0 && s.l.running && s.l.lastCleanup == 10.0 && s.cleanups == map[0 := CleanupRun(true, 0, {})]
    ensures s.calls == map[0 := Call(ip, Health, 5, false)] && ip in s.l.ips
    ensures Level(IpQuota(SlowExample()), s.l.ips[ip].bucket, 20.0) == 1.0
    ensures Level(GlobalQuota(SlowExample()), s.l.global.value, 20.0) >= 9.0
  {
    var c := SlowExample();
    SlowAccepted();
    var s0 := Start(c, 0.0);
    assert Run(c, s0, []) == s0;
    ReachableStep(c, s0, Tick(10.0));
    var s1 := Step(c, s0, Tick(10.0));
    ReachableInv(c, s1);
    var actions := Pass(c, s1, ip, 0, 0);
    ReachableRun(c, s1, actions);
    var s2 := Run(c, s1, actions);
    ReachableInv(c, s2);
    ReachableStep(c, s2, Tick(10.0));
    s := Step(c, s2, Tick(10.0));
    LevelLater(GlobalQuota(c), s2.l.global.value, 10.0, 10.0);
  }

  /** A cleanup finds the entry of the address expired. */
  lemma Evicted(c: Config, s: State, ip: Ip, k: nat)
    requires Inv(c, s) && CanEvict(c, s, k, ip)
    ensures var s' := Step(c, s, Evict(k, ip));
            && Inv(c, s') && s'.now == s.now && s'.calls == s.calls && ip !in s'.l.ips && s'.l.global == s.l.global
            && s'.l.running == s.l.running && s'.l.lastCleanup == s.l.lastCleanup
            && s'.cleanups == s.cleanups[k := CleanupRun(s.cleanups[k].triggered, s.cleanups[k].cleaned + 1,
                                                         s.cleanups[k].evicted + {ip})]
  {
    InvStep(c, s, Evict(k, ip));
  }

  /** One request passes on the old bucket; then the cleanup evicts the entry and ends. */
  lemma FirstBurst(s: State, ip: Ip) returns (window: seq<Action>)
    requires var c := SlowExample(); Usable(c) && Inv(c, s)
    requires s.now == 20.0 && s.l.running && s.l.lastCleanup == 10.0 && s.cleanups == map[0 := CleanupRun(true, 0, {})]
    requires s.calls == map[0 := Call(ip, Health, 5, false)] && ip in s.l.ips
    requires Level(IpQuota(SlowExample()), s.l.ips[ip].bucket, 20.0) == 1.0
    requires Level(GlobalQuota(SlowExample()), s.l.global.value, 20.0) >= 9.0
    ensures var s' := Run(SlowExample(), s, window);
            && Inv(SlowExample(), s') && s'.now == 20.0 && !s'.l.running && s'.l.lastCleanup == 10.0
            && s'.cleanups == map[]
            && s'.calls == map[0 := Call(ip, Health, 5, false), 1 := Call(ip, Health, 5, false)] && ip !in s'.l.ips
            && Level(GlobalQuota(SlowExample()), s'.l.global.value, 20.0) >= 8.0
  {
    var c := SlowExample();
    var actions := Pass(c, s, ip, 1, 1);
    var s1 := Run(c, s, actions);
    InvRun(c, s, actions);
    Evicted(c, s1, ip, 0);
    InvStep(c, Step(c, s1, Evict(0, ip)), EndCleanup(0));
    window := actions + [Evict(0, ip), EndCleanup(0)];
    RunTwo(c, s, actions, Evict(0, ip), EndCleanup(0));
  }

  /** The next one passes on a fresh bucket, and starts a cleanup, which evicts the entry. */
  lemma SecondBurst(s: State, ip: Ip) returns (window: seq<Action>)
    requires var c := SlowExample(); Usable(c) && Inv(c, s)
    requires s.now == 20.0 && !s.l.running && s.l.lastCleanup == 10.0 && s.cleanups == map[]
    requires s.calls == map[0 := Call(ip, Health, 5, false), 1 := Call(ip, Health, 5, false)] && ip !in s.l.ips
    requires Level(GlobalQuota(SlowExample()), s.l.global.value, 20.0) >= 8.0
    ensures var s' := Run(SlowExample(), s, window);
            && Inv(SlowExample(), s') && s'.now == 20.0 && 2 !in s'.cleanups
            && s'.calls == s.calls[2 := Call(ip, Health, 5, false)] && ip !in s'.l.ips
            && Level(GlobalQuota(SlowExample()), s'.l.global.value, 20.0) >= 7.0
  {
    var c := SlowExample();
    var actions := Pass(c, s, ip, 2, 1);
    var s1 := Run(c, s, actions);
    InvRun(c, s, actions);
    assert s1.cleanups == map[1 := CleanupRun(true, 0, {})];
    Evicted(c, s1, ip, 1);
    window := actions + [Evict(1, ip)];
    RunConcat(c, s, actions, [Evict(1, ip)]);
    RunOne(c, s1, Evict(1, ip));
  }

  lemma LastBurst(s: State, ip: Ip) returns (window: seq<Action>)
    requires var c := SlowExample(); Usable(c) && Inv(c, s)
    requires s.now == 20.0 && !s.l.running && s.l.lastCleanup == 10.0 && s.cleanups == map[]
    requires s.calls == map[0 := Call(ip, Health, 5, false), 1 := Call(ip, Health, 5, false)] && ip !in s.l.ips
    requires Level(GlobalQuota(SlowExample()), s.l.global.value, 20.0) >= 8.0
    ensures var s' := Run(SlowExample(), s, window);
            s'.now == 20.0 && s'.calls == s.calls[2 := Call(ip, Health, 5, false)][3 := Call(ip, Health, 5, false)]
  {
    var c := SlowExample();
    var second := SecondBurst(s, ip);
    var third := Pass(c, Run(c, s, second), ip, 3, 2);
    window := second + third;
    RunConcat(c, s, second, third);
  }

  lemma ThreePasses(s: State, s': State, ip: Ip)
    requires s.calls == map[0 := Call(ip, Health, 5, false)]
    requires s'.calls
             == map[0 := Call(ip, Health, 5, false), 1 := Call(ip, Health, 5, false), 2 := Call(ip, Health, 5, false),
                             3 := Call(ip, Health, 5, false)]
    ensures |PassesIp(s, s', ip)| == 3
  {
    assert PassesIp(s, s', ip) == {1, 2, 3};
  }

  /** With an interval of ten seconds and no maximum age, three bursts of one address pass at
      a single instant, when a cleanup is under way that was started an interval before. */
  lemma ThreeBursts(ip: Ip) returns (s: State, window: seq<Action>)
    ensures var c := SlowExample();
            && Validate(c).None? && Usable(c) && IpQuota(c).burst == 1.0 && Reachable(c, s) && s.l.running
            && Run(c, s, window).now == s.now && |PassesIp(s, Run(c, s, window), ip)| == 3
  {
    var c := SlowExample();
    SlowAccepted();
    s := CleanupUnderWay(ip);
    ReachableInv(c, s);
    var first := FirstBurst(s, ip);
    var rest := LastBurst(Run(c, s, first), ip);
    window := first + rest;
    RunConcat(c, s, first, rest);
    ThreePasses(s, Run(c, s, window), ip);
  }
}
