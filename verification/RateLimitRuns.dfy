/** Every interleaving of requests, cleanups and clock ticks over the rate limiter. A step
    of a request is one access to a limiter under its lock; a step of a cleanup is its
    decision about one entry. */
module RateLimitRuns {
  import opened Types
  import opened RateLimitConfig
  import opened TokenBucket
  import opened RateLimiter

  /** `stage` counts the parts of the request that are done: 1 after the global check, 2
      after the per-address check, 3 after the category check, 4 after the access update,
      5 when it has answered Ok. */
  datatype Call = Call(ip: Ip, category: EndpointCategory, stage: nat, refused: bool)
  {
    function Judged(ok: bool): Call {
      if ok then this.(stage := stage + 1) else this.(refused := true)
    }
  }

  /** A cleanup visits each entry once; `evicted` are the addresses whose entries it has
      found expired so far. */
  datatype CleanupRun = CleanupRun(triggered: bool, cleaned: nat, evicted: set<Ip>)

  /** `carried` are the request counts of evicted entries, `missed` the access updates that
      found no entry, `starts` the time of creation followed by those of the triggers. */
  datatype History = History(carried: nat, missed: nat, evictions: map<Ip, nat>, starts: seq<real>)

  datatype State = State(now: real, l: Limiters, calls: map<nat, Call>, cleanups: map<nat, CleanupRun>,
                         history: History)
  {
    predicate At(id: nat, stage: nat) {
      id in calls && !calls[id].refused && calls[id].stage == stage
    }

    function Evictions(ip: Ip): nat {
      if ip in history.evictions then history.evictions[ip] else 0
    }
  }

  datatype Action =
    | Tick(dt: real)
    | Begin(id: nat, ip: Ip, category: EndpointCategory)
    | PassGlobal(id: nat) | PassIp(id: nat) | PassCategory(id: nat) | Access(id: nat)
    | Finish(id: nat, cleanup: nat)
    | StartCleanup(cleanup: nat) | Evict(cleanup: nat, ip: Ip) | EndCleanup(cleanup: nat)

  ghost function Start(c: Config, now: real): State
    requires Usable(c)
  {
    State(now, Initial(c, now), map[], map[], History(0, 0, map[], [now]))
  }

  function Judge(s: State, id: nat, verdict: (Limiters, bool)): State
    requires id in s.calls
  {
    s.(l := verdict.0, calls := s.calls[id := s.calls[id].Judged(verdict.1)])
  }

  predicate CanEvict(c: Config, s: State, k: nat, ip: Ip) {
    && k in s.cleanups && s.cleanups[k].cleaned < c.cleanup.maxCleanupPerRun && ip !in s.cleanups[k].evicted
    && ip in s.l.ips && Expired(c, s.l.ips[ip], s.now)
  }

  /** One step; a step whose turn it is not changes nothing. */
  function Step(c: Config, s: State, a: Action): (s': State)
    requires Configured(c, s.l)
    ensures Configured(c, s'.l)
  {
    match a
    case Tick(dt) =>
      if dt < 0.0 then s else s.(now := s.now + dt)
    case Begin(id, ip, category) =>
      if id in s.calls then s
      else s.(calls := s.calls[id := Call(ip, category, if c.enabled then 0 else 5, false)])
    case PassGlobal(id) =>
      if !s.At(id, 0) then s else Judge(s, id, CheckGlobal(c, s.l, s.now))
    case PassIp(id) =>
      if !s.At(id, 1) || !c.enabled then s else Judge(s, id, CheckIp(c, s.l, s.calls[id].ip, s.now))
    case PassCategory(id) =>
      if !s.At(id, 2) then s else Judge(s, id, CheckCategory(c, s.l, s.calls[id].category, s.now))
    case Access(id) =>
      if !s.At(id, 3) then s
      else s.(l := UpdateAccess(s.l, s.calls[id].ip, s.now), calls := s.calls[id := s.calls[id].(stage := 4)],
              history := if s.calls[id].ip in s.l.ips then s.history else s.history.(missed := s.history.missed + 1))
    case Finish(id, k) =>
      if !s.At(id, 4) || k in s.cleanups then s
      else
        var answered := s.(calls := s.calls[id := s.calls[id].(stage := 5)]);
        if !ShouldClean(c, s.l, s.now) then answered
        else answered.(l := Trigger(c, s.l, s.now), cleanups := s.cleanups[k := CleanupRun(true, 0, {})],
                       history := s.history.(starts := s.history.starts + [s.now]))
    case StartCleanup(k) =>
      if !c.cleanup.enabled || k in s.cleanups then s else s.(cleanups := s.cleanups[k := CleanupRun(false, 0, {})])
    case Evict(k, ip) =>
      if !CanEvict(c, s, k, ip) then s
      else s.(l := s.l.(ips := s.l.ips - {ip}),
              cleanups := s.cleanups[k := s.cleanups[k].(cleaned := s.cleanups[k].cleaned + 1,
                                                         evicted := s.cleanups[k].evicted + {ip})],
              history := s.history.(carried := s.history.carried + s.l.ips[ip].requestCount,
                                    evictions := s.history.evictions[ip := s.Evictions(ip) + 1]))
    case EndCleanup(k) =>
      if k !in s.cleanups then s
      else s.(l := if s.cleanups[k].triggered then s.l.(running := false) else s.l, cleanups := s.cleanups - {k})
  }

  function Run(c: Config, s: State, actions: seq<Action>): (s': State)
    requires Configured(c, s.l)
    ensures Configured(c, s'.l)
    decreases |actions|
  {
    if actions == [] then s else Step(c, Run(c, s, actions[..|actions| - 1]), actions[|actions| - 1])
  }

  // --- Reachable states ----------------------------------------------------------

  ghost predicate GlobalSane(c: Config, s: State)
    requires Configured(c, s.l)
  {
    s.l.global.Some? ==> Sane(GlobalQuota(c), s.l.global.value, s.now)
  }

  ghost predicate IpsSane(c: Config, s: State)
    requires Configured(c, s.l)
  {
    forall ip :: ip in s.l.ips ==> Sane(IpQuota(c), s.l.ips[ip].bucket, s.now) && s.l.ips[ip].lastAccess <= s.now
  }

  ghost predicate CategoriesSane(c: Config, s: State)
    requires Configured(c, s.l)
  {
    forall k :: k in s.l.categories ==> Sane(CategoryQuota(c, k), s.l.categories[k], s.now)
  }

  ghost predicate Inv(c: Config, s: State) {
    && Configured(c, s.l) && GlobalSane(c, s) && IpsSane(c, s) && CategoriesSane(c, s)
  }

  lemma InvStep(c: Config, s: State, a: Action)
    requires Inv(c, s)
    ensures Inv(c, Step(c, s, a))
  {
    var s' := Step(c, s, a);
    match a
    case PassGlobal(id) =>
      if s.l.global.Some? {
        CheckSpendsOne(GlobalQuota(c), s.l.global.value, s.now);
      }
    case PassIp(id) =>
      if s.At(id, 1) && c.enabled && c.perIp.enabled {
        CheckSpendsOne(IpQuota(c), EntryOf(c, s.l, s.calls[id].ip, s.now).bucket, s.now);
      }
    case PassCategory(id) =>
      if s.At(id, 2) && s.calls[id].category in s.l.categories {
        CheckSpendsOne(CategoryQuota(c, s.calls[id].category), s.l.categories[s.calls[id].category], s.now);
      }
    case _ =>
  }

  lemma {:induction false} InvRun(c: Config, s: State, actions: seq<Action>)
    requires Inv(c, s)
    ensures Inv(c, Run(c, s, actions))
    decreases |actions|
  {
    if actions != [] {
      InvRun(c, s, actions[..|actions| - 1]);
      InvStep(c, Run(c, s, actions[..|actions| - 1]), actions[|actions| - 1]);
    }
  }

  /** A run from a new manager leads to this state. */
  ghost predicate Reachable(c: Config, s: State)
    ensures Reachable(c, s) ==> Configured(c, s.l)
  {
    Usable(c) && exists t, past :: s == Run(c, Start(c, t), past)
  }

  lemma StartInv(c: Config, t: real)
    requires Usable(c)
    ensures Inv(c, Start(c, t))
  {
  }

  lemma ReachableInv(c: Config, s: State)
    requires Reachable(c, s)
    ensures Inv(c, s)
  {
    var t, past :| s == Run(c, Start(c, t), past);
    StartInv(c, t);
    InvRun(c, Start(c, t), past);
  }

  // --- The global and the category limiters over any window ----------------------

  /** The limiters that live as long as the manager. */
  datatype Gate = GlobalGate | CategoryGate(category: EndpointCategory)

  predicate Limited(c: Config, g: Gate) {
    c.enabled && (g.CategoryGate? ==> c.endpoints.Of(g.category).enabled)
  }

  function QuotaAt(c: Config, g: Gate): ValidQuota
    requires Usable(c) && Limited(c, g)
  {
    if g.GlobalGate? then GlobalQuota(c) else CategoryQuota(c, g.category)
  }

  function BucketAt(c: Config, l: Limiters, g: Gate): Bucket
    requires Configured(c, l) && Limited(c, g)
  {
    if g.GlobalGate? then l.global.value else l.categories[g.category]
  }

  predicate IsThrough(call: Call, g: Gate) {
    if g.GlobalGate? then call.stage >= 1 else call.stage >= 3 && call.category == g.category
  }

  /** Requests that have passed the gate, other than those that had passed it before */
  ghost function Through(s: State, before: set<nat>, g: Gate): set<nat> {
    set id | id in s.calls && id !in before && IsThrough(s.calls[id], g)
  }

  /** Requests that pass the gate between two states, whenever they began */
  ghost function Passes(s: State, s': State, g: Gate): set<nat> {
    Through(s', Through(s, {}, g), g)
  }

  /** What was spent and what is left never exceed the burst plus the refill. */
  ghost predicate GateBound(c: Config, s: State, before: set<nat>, t0: real, g: Gate)
    requires Configured(c, s.l) && Limited(c, g)
  {
    var q := QuotaAt(c, g);
    |Through(s, before, g)| as real + Level(q, BucketAt(c, s.l, g), s.now) <= q.burst + Gain(q, s.now - t0)
  }

  lemma GateTick(c: Config, s: State, dt: real, before: set<nat>, t0: real, g: Gate)
    requires Inv(c, s) && Limited(c, g) && dt >= 0.0 && GateBound(c, s, before, t0, g)
    ensures GateBound(c, s.(now := s.now + dt), before, t0, g)
  {
    var q := QuotaAt(c, g);
    assert Through(s.(now := s.now + dt), before, g) == Through(s, before, g);
    LevelLater(q, BucketAt(c, s.l, g), s.now, dt);
    GainAdds(q, s.now - t0, dt);
    assert s.now + dt - t0 == s.now - t0 + dt;
  }

  /** The step that decides whether a request passes the gate. */
  predicate Knocks(s: State, a: Action, g: Gate) {
    if g.GlobalGate? then a.PassGlobal? && s.At(a.id, 0)
    else a.PassCategory? && s.At(a.id, 2) && s.calls[a.id].category == g.category
  }

  lemma GatePass(c: Config, s: State, a: Action, before: set<nat>, t0: real, g: Gate)
    requires Inv(c, s) && Limited(c, g) && Knocks(s, a, g) && GateBound(c, s, before, t0, g)
    ensures GateBound(c, Step(c, s, a), before, t0, g)
  {
    var s', id := Step(c, s, a), a.id;
    CheckSpendsOne(QuotaAt(c, g), BucketAt(c, s.l, g), s.now);
    if IsThrough(s'.calls[id], g) && id !in before {
      assert Through(s', before, g) == Through(s, before, g) + {id};
    } else {
      assert Through(s', before, g) == Through(s, before, g);
    }
  }

  /** No other step touches the bucket or moves a request past the gate. */
  lemma GateKept(c: Config, s: State, a: Action, before: set<nat>, g: Gate)
    requires Configured(c, s.l) && Limited(c, g) && !a.Tick? && !Knocks(s, a, g)
    ensures BucketAt(c, Step(c, s, a).l, g) == BucketAt(c, s.l, g) && Step(c, s, a).now == s.now
    ensures Through(Step(c, s, a), before, g) == Through(s, before, g)
  {
  }

  lemma GateStep(c: Config, s: State, a: Action, before: set<nat>, t0: real, g: Gate)
    requires Inv(c, s) && Limited(c, g) && GateBound(c, s, before, t0, g)
    ensures GateBound(c, Step(c, s, a), before, t0, g)
  {
    if a.Tick? {
      if a.dt >= 0.0 {
        GateTick(c, s, a.dt, before, t0, g);
      }
    } else if Knocks(s, a, g) {
      GatePass(c, s, a, before, t0, g);
    } else {
      GateKept(c, s, a, before, g);
    }
  }

  lemma {:induction false} GateRun(c: Config, s: State, actions: seq<Action>, g: Gate)
    requires Inv(c, s) && Limited(c, g)
    ensures GateBound(c, Run(c, s, actions), Through(s, {}, g), s.now, g)
    decreases |actions|
  {
    if actions == [] {
      assert Through(s, Through(s, {}, g), g) == {};
      CheckSpendsOne(QuotaAt(c, g), BucketAt(c, s.l, g), s.now);
    } else {
      var init := actions[..|actions| - 1];
      InvRun(c, s, init);
      GateRun(c, s, init, g);
      GateStep(c, Run(c, s, init), actions[|actions| - 1], Through(s, {}, g), s.now, g);
    }
  }

  /** However requests and cleanups interleave, in any window of length W at most
      burst + rate * W requests pass, globally and per enabled category, those that began
      before the window included. */
  lemma GateWindow(c: Config, s: State, window: seq<Action>, g: Gate)
    requires Reachable(c, s) && Limited(c, g)
    ensures var s' := Run(c, s, window);
            |Passes(s, s', g)| as real <= QuotaAt(c, g).burst + Gain(QuotaAt(c, g), s'.now - s.now)
  {
    var s' := Run(c, s, window);
    ReachableInv(c, s);
    GateRun(c, s, window, g);
    InvRun(c, s, window);
    CheckSpendsOne(QuotaAt(c, g), BucketAt(c, s'.l, g), s'.now);
  }

  // --- The per-address limiters over any window ----------------------------------

  /** Requests of this address that have passed its check, other than those that had before */
  ghost function ThroughIp(s: State, before: set<nat>, ip: Ip): set<nat> {
    set id | id in s.calls && id !in before && s.calls[id].stage >= 2 && s.calls[id].ip == ip
  }

  /** Requests of this address that pass its check between two states, whenever they began */
  ghost function PassesIp(s: State, s': State, ip: Ip): set<nat> {
    ThroughIp(s', ThroughIp(s, {}, ip), ip)
  }

  /** An address without an entry would get a full bucket. */
  function IpLevel(c: Config, s: State, ip: Ip): real
    requires Configured(c, s.l) && c.perIp.enabled
  {
    if ip in s.l.ips then Level(IpQuota(c), s.l.ips[ip].bucket, s.now) else IpQuota(c).burst
  }

  function Bursts(q: ValidQuota, n: int): real {
    q.burst * n as real
  }

  lemma OneMoreBurst(q: ValidQuota, n: nat)
    ensures Bursts(q, n + 1) == Bursts(q, n) + q.burst
  {
  }

  /** Every eviction in the window, `since` of them before it, hands out one more burst. */
  ghost predicate IpBound(c: Config, s: State, before: set<nat>, t0: real, since: nat, ip: Ip)
    requires Configured(c, s.l) && c.perIp.enabled
  {
    && since <= s.Evictions(ip)
    && |ThroughIp(s, before, ip)| as real + IpLevel(c, s, ip)
       <= Bursts(IpQuota(c), s.Evictions(ip) - since + 1) + Gain(IpQuota(c), s.now - t0)
  }

  lemma IpTick(c: Config, s: State, dt: real, before: set<nat>, t0: real, since: nat, ip: Ip)
    requires Inv(c, s) && c.perIp.enabled && dt >= 0.0 && IpBound(c, s, before, t0, since, ip)
    ensures IpBound(c, s.(now := s.now + dt), before, t0, since, ip)
  {
    var q := IpQuota(c);
    assert ThroughIp(s.(now := s.now + dt), before, ip) == ThroughIp(s, before, ip);
    if ip in s.l.ips {
      LevelLater(q, s.l.ips[ip].bucket, s.now, dt);
    }
    GainAdds(q, s.now - t0, dt);
    assert s.now + dt - t0 == s.now - t0 + dt;
  }

  lemma IpPass(c: Config, s: State, id: nat, before: set<nat>, t0: real, since: nat, ip: Ip)
    requires Inv(c, s) && c.enabled && c.perIp.enabled && s.At(id, 1) && s.calls[id].ip == ip
    requires IpBound(c, s, before, t0, since, ip)
    ensures IpBound(c, Step(c, s, PassIp(id)), before, t0, since, ip)
  {
    var s' := Step(c, s, PassIp(id));
    CheckSpendsOne(IpQuota(c), EntryOf(c, s.l, ip, s.now).bucket, s.now);
    if s'.calls[id].stage == 2 && id !in before {
      assert ThroughIp(s', before, ip) == ThroughIp(s, before, ip) + {id};
    } else {
      assert ThroughIp(s', before, ip) == ThroughIp(s, before, ip);
    }
  }

  lemma IpEvict(c: Config, s: State, k: nat, before: set<nat>, t0: real, since: nat, ip: Ip)
    requires Inv(c, s) && c.perIp.enabled && CanEvict(c, s, k, ip) && IpBound(c, s, before, t0, since, ip)
    ensures IpBound(c, Step(c, s, Evict(k, ip)), before, t0, since, ip)
  {
    var s' := Step(c, s, Evict(k, ip));
    assert ThroughIp(s', before, ip) == ThroughIp(s, before, ip);
    CheckSpendsOne(IpQuota(c), s.l.ips[ip].bucket, s.now);
    OneMoreBurst(IpQuota(c), s.Evictions(ip) - since + 1);
  }

  predicate Concerns(s: State, a: Action, ip: Ip) {
    || a.Tick? || (a.PassIp? && s.At(a.id, 1) && s.calls[a.id].ip == ip) || (a.Evict? && a.ip == ip)
  }

  lemma IpKept(c: Config, s: State, a: Action, before: set<nat>, ip: Ip)
    requires Configured(c, s.l) && c.enabled && !Concerns(s, a, ip)
    ensures var s' := Step(c, s, a);
            && s'.now == s.now && s'.Evictions(ip) == s.Evictions(ip) && (ip in s'.l.ips <==> ip in s.l.ips)
            && (ip in s.l.ips ==> s'.l.ips[ip].bucket == s.l.ips[ip].bucket)
    ensures ThroughIp(Step(c, s, a), before, ip) == ThroughIp(s, before, ip)
  {
  }

  lemma IpStep(c: Config, s: State, a: Action, before: set<nat>, t0: real, since: nat, ip: Ip)
    requires Inv(c, s) && c.enabled && c.perIp.enabled && IpBound(c, s, before, t0, since, ip)
    ensures IpBound(c, Step(c, s, a), before, t0, since, ip)
  {
    if !Concerns(s, a, ip) {
      IpKept(c, s, a, before, ip);
    } else if a.Tick? {
      if a.dt >= 0.0 {
        IpTick(c, s, a.dt, before, t0, since, ip);
      }
    } else if a.PassIp? {
      IpPass(c, s, a.id, before, t0, since, ip);
    } else if CanEvict(c, s, a.cleanup, ip) {
      IpEvict(c, s, a.cleanup, before, t0, since, ip);
    }
  }

  function Ages(c: Config, n: nat): real {
    c.cleanup.maxAgeSecs as real * n as real
  }

  /** Evictions of one address are at least the maximum age apart. */
  ghost predicate Spaced(c: Config, s: State, t0: real, since: nat, ip: Ip) {
    && since <= s.Evictions(ip) && t0 <= s.now
    && (since < s.Evictions(ip) ==>
          var earliest := t0 + Ages(c, s.Evictions(ip) - since - 1);
          earliest <= s.now && (ip in s.l.ips ==> earliest <= s.l.ips[ip].lastAccess))
  }

  lemma SpacedStep(c: Config, s: State, a: Action, t0: real, since: nat, ip: Ip)
    requires Configured(c, s.l) && IpsSane(c, s) && Spaced(c, s, t0, since, ip)
    ensures Spaced(c, Step(c, s, a), t0, since, ip)
  {
    if a.Evict? && a.ip == ip && CanEvict(c, s, a.cleanup, ip) && since < s.Evictions(ip) {
      assert Ages(c, s.Evictions(ip) - since) == Ages(c, s.Evictions(ip) - since - 1) + c.cleanup.maxAgeSecs as real;
    }
  }

  lemma {:induction false} IpRun(c: Config, s: State, actions: seq<Action>, ip: Ip)
    requires Inv(c, s) && c.enabled && c.perIp.enabled
    ensures IpBound(c, Run(c, s, actions), ThroughIp(s, {}, ip), s.now, s.Evictions(ip), ip)
    decreases |actions|
  {
    if actions == [] {
      assert ThroughIp(s, ThroughIp(s, {}, ip), ip) == {};
      if ip in s.l.ips {
        CheckSpendsOne(IpQuota(c), s.l.ips[ip].bucket, s.now);
      }
    } else {
      var init, last := actions[..|actions| - 1], actions[|actions| - 1];
      InvRun(c, s, init);
      IpRun(c, s, init, ip);
      IpStep(c, Run(c, s, init), last, ThroughIp(s, {}, ip), s.now, s.Evictions(ip), ip);
    }
  }

  lemma {:induction false} SpacedRun(c: Config, s: State, actions: seq<Action>, ip: Ip)
    requires Inv(c, s)
    ensures Spaced(c, Run(c, s, actions), s.now, s.Evictions(ip), ip)
    decreases |actions|
  {
    if actions != [] {
      var init, last := actions[..|actions| - 1], actions[|actions| - 1];
      InvRun(c, s, init);
      SpacedRun(c, s, init, ip);
      SpacedStep(c, Run(c, s, init), last, s.now, s.Evictions(ip), ip);
    }
  }

  /** Bursts per address that fit a window of length `w`. */
  function IpAllowance(c: Config, w: real): real
    requires Usable(c) && c.perIp.enabled && c.cleanup.maxAgeSecs > 0
  {
    Bursts(IpQuota(c), (w / c.cleanup.maxAgeSecs as real).Floor + 2) + Gain(IpQuota(c), w)
  }

  lemma BurstsGrow(q: ValidQuota, m: int, n: int)
    requires m <= n
    ensures Bursts(q, m) <= Bursts(q, n)
  {
  }

  lemma QuotientAtLeast(a: real, n: nat, w: real)
    requires a > 0.0 && a * n as real <= w
    ensures n <= (w / a).Floor
  {
    assert w / a >= n as real;
  }

  lemma AllowanceCovers(c: Config, evictions: nat, w: real)
    requires Usable(c) && c.perIp.enabled && c.cleanup.maxAgeSecs > 0 && w >= 0.0
    requires evictions > 0 ==> Ages(c, evictions - 1) <= w
    ensures Bursts(IpQuota(c), evictions + 1) + Gain(IpQuota(c), w) <= IpAllowance(c, w)
  {
    var age := c.cleanup.maxAgeSecs as real;
    var fit := (w / age).Floor;
    assert evictions - 1 <= fit by {
      if evictions > 0 {
        QuotientAtLeast(age, evictions - 1, w);
      } else {
        assert w / age >= 0.0;
      }
    }
    BurstsGrow(IpQuota(c), evictions + 1, fit + 2);
  }

  lemma IpBoundSpent(c: Config, s: State, before: set<nat>, t0: real, since: nat, ip: Ip)
    requires Inv(c, s) && c.perIp.enabled && IpBound(c, s, before, t0, since, ip)
    ensures |ThroughIp(s, before, ip)| as real
         <= Bursts(IpQuota(c), s.Evictions(ip) - since + 1) + Gain(IpQuota(c), s.now - t0)
  {
  }

  lemma IpSpent(c: Config, s: State, actions: seq<Action>, ip: Ip)
    requires Inv(c, s) && c.enabled && c.perIp.enabled
    ensures var s' := Run(c, s, actions);
            && s.Evictions(ip) <= s'.Evictions(ip)
            && |PassesIp(s, s', ip)| as real
               <= Bursts(IpQuota(c), s'.Evictions(ip) - s.Evictions(ip) + 1) + Gain(IpQuota(c), s'.now - s.now)
  {
    var s' := Run(c, s, actions);
    IpRun(c, s, actions, ip);
    InvRun(c, s, actions);
    IpBoundSpent(c, s', ThroughIp(s, {}, ip), s.now, s.Evictions(ip), ip);
  }

  lemma SpacedApart(c: Config, s: State, actions: seq<Action>, ip: Ip)
    requires Inv(c, s)
    ensures var s' := Run(c, s, actions);
            && s.Evictions(ip) <= s'.Evictions(ip) && s.now <= s'.now
            && (s.Evictions(ip) < s'.Evictions(ip) ==>
                  Ages(c, s'.Evictions(ip) - s.Evictions(ip) - 1) <= s'.now - s.now)
  {
    SpacedRun(c, s, actions, ip);
  }

  lemma WithinAllowance(c: Config, passes: real, evictions: nat, w: real)
    requires Usable(c) && c.perIp.enabled && c.cleanup.maxAgeSecs > 0 && w >= 0.0
    requires passes <= Bursts(IpQuota(c), evictions + 1) + Gain(IpQuota(c), w)
    requires evictions > 0 ==> Ages(c, evictions - 1) <= w
    ensures passes <= IpAllowance(c, w)
  {
    AllowanceCovers(c, evictions, w);
  }

  lemma IpWindowFrom(c: Config, s: State, window: seq<Action>, ip: Ip)
    requires Inv(c, s) && c.enabled && c.perIp.enabled && c.cleanup.maxAgeSecs > 0
    ensures var s' := Run(c, s, window);
            |PassesIp(s, s', ip)| as real <= IpAllowance(c, s'.now - s.now)
  {
    var s' := Run(c, s, window);
    SpacedApart(c, s, window, ip);
    IpSpent(c, s, window, ip);
    WithinAllowance(c, |PassesIp(s, s', ip)| as real, s'.Evictions(ip) - s.Evictions(ip), s'.now - s.now);
  }

  /** Per address, evictions hand out fresh buckets, but entries must reach the maximum age:
      at most burst * (floor(W / max age) + 2) + rate * W requests pass in any window of
      length W, those that began before it included. */
  lemma IpWindow(c: Config, s: State, window: seq<Action>, ip: Ip)
    requires Reachable(c, s) && c.enabled && c.perIp.enabled && c.cleanup.maxAgeSecs > 0
    ensures var s' := Run(c, s, window);
            |PassesIp(s, s', ip)| as real <= IpAllowance(c, s'.now - s.now)
  {
    ReachableInv(c, s);
    IpWindowFrom(c, s, window, ip);
  }

  // --- The cleanup flag ----------------------------------------------------------

  ghost function Triggered(s: State): set<nat> {
    set k | k in s.cleanups && s.cleanups[k].triggered
  }

  /** The flag is set exactly while one triggered cleanup is in flight; triggers are at
      least the cleanup interval apart, and apart from the creation of the manager. */
  ghost predicate FlagInv(c: Config, s: State) {
    && |Triggered(s)| == (if s.l.running then 1 else 0)
    && |s.history.starts| >= 1 && s.l.lastCleanup == s.history.starts[|s.history.starts| - 1] <= s.now
    && forall i :: 0 <= i < |s.history.starts| - 1 ==>
         s.history.starts[i] + c.cleanup.cleanupIntervalSecs as real <= s.history.starts[i + 1]
  }

  lemma FlagFinish(c: Config, s: State, id: nat, k: nat)
    requires Configured(c, s.l) && FlagInv(c, s)
    ensures FlagInv(c, Step(c, s, Finish(id, k)))
  {
    var s' := Step(c, s, Finish(id, k));
    if s.At(id, 4) && k !in s.cleanups && ShouldClean(c, s.l, s.now) {
      assert Triggered(s') == Triggered(s) + {k};
    } else {
      assert Triggered(s') == Triggered(s);
    }
  }

  lemma FlagEnd(c: Config, s: State, k: nat)
    requires Configured(c, s.l) && FlagInv(c, s)
    ensures FlagInv(c, Step(c, s, EndCleanup(k)))
  {
    assert Triggered(Step(c, s, EndCleanup(k))) == Triggered(s) - {k};
  }

  lemma TriggeredKept(c: Config, s: State, a: Action)
    requires Configured(c, s.l) && !a.Finish? && !a.EndCleanup?
    ensures var s' := Step(c, s, a);
            && Triggered(s') == Triggered(s) && s'.history.starts == s.history.starts && s'.now >= s.now
            && s'.l.running == s.l.running && s'.l.lastCleanup == s.l.lastCleanup
  {
  }

  lemma FlagStep(c: Config, s: State, a: Action)
    requires Configured(c, s.l) && FlagInv(c, s)
    ensures FlagInv(c, Step(c, s, a))
  {
    if a.Finish? {
      FlagFinish(c, s, a.id, a.cleanup);
    } else if a.EndCleanup? {
      FlagEnd(c, s, a.cleanup);
    } else {
      TriggeredKept(c, s, a);
    }
  }

  lemma {:induction false} FlagRun(c: Config, t: real, actions: seq<Action>)
    requires Usable(c)
    ensures FlagInv(c, Run(c, Start(c, t), actions))
    decreases |actions|
  {
    if actions == [] {
      assert Triggered(Start(c, t)) == {};
    } else {
      FlagRun(c, t, actions[..|actions| - 1]);
      FlagStep(c, Run(c, Start(c, t), actions[..|actions| - 1]), actions[|actions| - 1]);
    }
  }

  // --- Request counts ------------------------------------------------------------

  ghost function Updated(s: State): set<nat> {
    set id | id in s.calls && s.calls[id].stage >= 4
  }

  /** Every access update is found again: in an entry, in an evicted entry's count, or
      among the updates that came too late. */
  ghost predicate Counted(s: State) {
    |Updated(s)| == Total(s.l.ips) + s.history.carried + s.history.missed
  }

  lemma TotalOfUpdate(ips: map<Ip, Entry>, ip: Ip, entry: Entry)
    ensures Total(ips[ip := entry]) == entry.requestCount + Total(ips - {ip})
    ensures ip in ips ==> Total(ips) == ips[ip].requestCount + Total(ips - {ip})
  {
    TotalWithout(ips[ip := entry], ip);
    assert ips[ip := entry] - {ip} == ips - {ip};
    if ip in ips {
      TotalWithout(ips, ip);
    }
  }

  lemma CountedByCheck(c: Config, l: Limiters, ip: Ip, now: real)
    requires Configured(c, l)
    ensures Total(CheckIp(c, l, ip, now).0.ips) == Total(l.ips)
  {
    if c.perIp.enabled {
      var entry := EntryOf(c, l, ip, now);
      TotalOfUpdate(l.ips, ip, entry.(bucket := Check(IpQuota(c), entry.bucket, now).0));
      assert ip !in l.ips ==> l.ips - {ip} == l.ips;
    }
  }

  lemma CountedByAccess(c: Config, s: State, id: nat)
    requires Configured(c, s.l) && s.At(id, 3) && Counted(s)
    ensures Counted(Step(c, s, Access(id)))
  {
    var s', ip := Step(c, s, Access(id)), s.calls[id].ip;
    assert Updated(s') == Updated(s) + {id};
    if ip in s.l.ips {
      TotalOfUpdate(s.l.ips, ip, s'.l.ips[ip]);
    }
  }

  lemma CountedByEviction(c: Config, s: State, k: nat, ip: Ip)
    requires Configured(c, s.l) && CanEvict(c, s, k, ip) && Counted(s)
    ensures Counted(Step(c, s, Evict(k, ip)))
  {
    assert Updated(Step(c, s, Evict(k, ip))) == Updated(s);
    TotalWithout(s.l.ips, ip);
  }

  lemma CountsKept(c: Config, s: State, a: Action)
    requires Configured(c, s.l) && c.enabled && !a.Access? && !a.Evict?
    ensures var s' := Step(c, s, a);
            && Updated(s') == Updated(s) && s'.history.carried == s.history.carried
            && s'.history.missed == s.history.missed && (!a.PassIp? ==> s'.l.ips == s.l.ips)
  {
  }

  lemma CountedStep(c: Config, s: State, a: Action)
    requires Configured(c, s.l) && c.enabled && Counted(s)
    ensures Counted(Step(c, s, a))
  {
    if a.Access? {
      if s.At(a.id, 3) {
        CountedByAccess(c, s, a.id);
      }
    } else if a.Evict? {
      if CanEvict(c, s, a.cleanup, a.ip) {
        CountedByEviction(c, s, a.cleanup, a.ip);
      }
    } else {
      CountsKept(c, s, a);
      if a.PassIp? && s.At(a.id, 1) {
        CountedByCheck(c, s.l, s.calls[a.id].ip, s.now);
      }
    }
  }

  /** No eviction falls between a request's per-address check and its access update. */
  ghost predicate Undisturbed(s: State, a: Action) {
    a.Evict? ==> forall id :: id in s.calls && s.calls[id].ip == a.ip ==> !s.At(id, 2) && !s.At(id, 3)
  }

  ghost predicate UndisturbedRun(c: Config, s: State, actions: seq<Action>)
    requires Configured(c, s.l)
  {
    forall i :: 0 <= i < |actions| ==> Undisturbed(Run(c, s, actions[..i]), actions[i])
  }

  /** A request past its per-address check finds its entry, and no update was missed. */
  ghost predicate NoneMissed(s: State) {
    && s.history.missed == 0
    && forall id :: id in s.calls && (s.At(id, 2) || s.At(id, 3)) ==> s.calls[id].ip in s.l.ips
  }

  lemma NoneMissedStep(c: Config, s: State, a: Action)
    requires Configured(c, s.l) && c.enabled && c.perIp.enabled && NoneMissed(s) && Undisturbed(s, a)
    ensures NoneMissed(Step(c, s, a))
  {
  }

  lemma {:induction false} CountedRun(c: Config, t: real, actions: seq<Action>)
    requires Usable(c) && c.enabled
    ensures Counted(Run(c, Start(c, t), actions))
    decreases |actions|
  {
    if actions == [] {
      assert Updated(Start(c, t)) == {};
    } else {
      CountedRun(c, t, actions[..|actions| - 1]);
      CountedStep(c, Run(c, Start(c, t), actions[..|actions| - 1]), actions[|actions| - 1]);
    }
  }

  lemma UndisturbedPrefix(c: Config, s: State, actions: seq<Action>, n: nat)
    requires Configured(c, s.l) && UndisturbedRun(c, s, actions) && n < |actions|
    ensures UndisturbedRun(c, s, actions[..n]) && Undisturbed(Run(c, s, actions[..n]), actions[n])
  {
    assert forall i :: 0 <= i < n ==> actions[..n][..i] == actions[..i];
  }

  lemma {:induction false} NoneMissedRun(c: Config, t: real, actions: seq<Action>)
    requires Usable(c) && c.enabled && c.perIp.enabled && UndisturbedRun(c, Start(c, t), actions)
    ensures NoneMissed(Run(c, Start(c, t), actions))
    decreases |actions|
  {
    if actions != [] {
      var last := |actions| - 1;
      UndisturbedPrefix(c, Start(c, t), actions, last);
      NoneMissedRun(c, t, actions[..last]);
      NoneMissedStep(c, Run(c, Start(c, t), actions[..last]), actions[last]);
    }
  }

  ghost function AnsweredOk(s: State): set<nat> {
    set id | id in s.calls && s.calls[id].stage == 5
  }

  /** No request stands between its access update and its answer. */
  ghost predicate AllAnswered(s: State) {
    forall id :: id in s.calls ==> s.calls[id].stage < 4 || s.calls[id].stage == 5
  }

  lemma CountsAnswered(s: State)
    requires Counted(s) && NoneMissed(s) && AllAnswered(s)
    ensures |AnsweredOk(s)| == Total(s.l.ips) + s.history.carried
  {
    assert AnsweredOk(s) == Updated(s);
  }

  /** When evictions fall between whole checks, the requests admitted so far are those the
      statistics report plus those whose counts left with an evicted entry. */
  lemma AdmissionsConserved(c: Config, t: real, actions: seq<Action>)
    requires Usable(c) && c.enabled && c.perIp.enabled && UndisturbedRun(c, Start(c, t), actions)
    requires AllAnswered(Run(c, Start(c, t), actions))
    ensures var s := Run(c, Start(c, t), actions);
            |AnsweredOk(s)| == Total(s.l.ips) + s.history.carried
  {
    CountedRun(c, t, actions);
    NoneMissedRun(c, t, actions);
    CountsAnswered(Run(c, Start(c, t), actions));
  }
}
