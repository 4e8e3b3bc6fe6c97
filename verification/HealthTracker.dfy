/** The admin API's cache of broker health: a table of check results that a cleanup thins
    out, and the cluster verdict derived from it. Times are seconds on a monotonic clock;
    every reading of the clock is a parameter. */
module HealthTracker {
  import opened Types

  type BrokerId = string

  datatype Health = Health(online: bool, lastCheck: real, lastSuccess: Option<real>, consecutiveFailures: nat)

  type Cache = map<BrokerId, Health>

  /** The last successful check, if any, is within the timeout. */
  predicate Recent(success: Option<real>, timeout: real, now: real) {
    success.Some? && Elapsed(success.value, now) < timeout
  }

  function SuccessOf(cache: Cache, id: BrokerId): Option<real> {
    if id in cache then cache[id].lastSuccess else None
  }

  predicate IsHealthy(cache: Cache, id: BrokerId, timeout: real, now: real) {
    Recent(SuccessOf(cache, id), timeout, now)
  }

  predicate IsStale(health: Health, timeout: real, now: real) {
    Elapsed(health.lastCheck, now) > timeout * 3.0
  }

  /** One finished check: its result and the two clock readings it records. */
  datatype Check = Check(passed: bool, checkedAt: real, succeededAt: real)

  function Update(cache: Cache, id: BrokerId, check: Check): Cache {
    var health := if id in cache then cache[id] else Health(false, check.checkedAt, None, 0);
    cache[id := if check.passed then Health(true, check.checkedAt, Some(check.succeededAt), 0)
                else health.(lastCheck := check.checkedAt, online := false,
                             consecutiveFailures := health.consecutiveFailures + 1)]
  }

  // --- The tracker ---------------------------------------------------------------

  class BrokerHealthTracker {
    var cache: Cache
    const timeout: real

    constructor (healthTimeout: real)
      ensures cache == map[] && timeout == healthTimeout
    {
      cache, timeout := map[], healthTimeout;
    }

    /** `is_broker_healthy` */
    method IsBrokerHealthy(id: BrokerId, now: real) returns (healthy: bool)
      ensures healthy == IsHealthy(cache, id, timeout, now)
    {
      if id in cache {
        var health := cache[id];
        if health.lastSuccess.Some? {
          return Elapsed(health.lastSuccess.value, now) < timeout;
        }
      }
      return false;
    }

    /** `check_broker_health`, given the result of the remote check */
    method CheckBrokerHealth(id: BrokerId, check: Check, createdAt: real) returns (passed: bool)
      modifies this
      ensures cache == Update(old(cache), id, check) && passed == check.passed
    {
      if id !in cache {
        cache := cache[id := Health(false, createdAt, None, 0)];
      }
      var health := cache[id].(lastCheck := check.checkedAt);
      if check.passed {
        health := health.(online := true, lastSuccess := Some(check.succeededAt), consecutiveFailures := 0);
      } else {
        health := health.(online := false, consecutiveFailures := health.consecutiveFailures + 1);
      }
      cache := cache[id := health];
      passed := check.passed;
    }

    /** `get_all_broker_health`, in any order; `at` is the reading used for each entry */
    method GetAllBrokerHealth(at: BrokerId -> real) returns (result: map<BrokerId, bool>)
      ensures result.Keys == cache.Keys
      ensures forall id :: id in cache ==> result[id] == IsHealthy(cache, id, timeout, at(id))
    {
      result := map[];
      var pending := cache.Keys;
      while pending != {}
        invariant pending <= cache.Keys && result.Keys == cache.Keys - pending
        invariant forall id :: id in result ==> result[id] == IsHealthy(cache, id, timeout, at(id))
        decreases |pending|
      {
        var id :| id in pending;
        var health := cache[id];
        var healthy := if health.lastSuccess.Some? then Elapsed(health.lastSuccess.value, at(id)) < timeout else false;
        result := result[id := healthy];
        pending := pending - {id};
      }
    }

    /** `cleanup_stale_entries`, in any order */
    method CleanupStaleEntries(at: BrokerId -> real)
      modifies this
      ensures cache == map id | id in old(cache) && !IsStale(old(cache)[id], timeout, at(id)) :: old(cache)[id]
    {
      var pending := cache.Keys;
      while pending != {}
        invariant pending <= old(cache).Keys
        invariant forall id ::
                    id in cache <==> id in old(cache) && (id in pending || !IsStale(old(cache)[id], timeout, at(id)))
        invariant forall id :: id in cache ==> cache[id] == old(cache)[id]
        decreases |pending|
      {
        var id :| id in pending;
        if IsStale(cache[id], timeout, at(id)) {
          cache := cache - {id};
        }
        pending := pending - {id};
      }
    }
  }

  // --- The cluster verdict -------------------------------------------------------

  function HealthyCount(brokers: seq<BrokerId>, health: map<BrokerId, bool>): nat {
    if brokers == [] then 0
    else
      var last := |brokers| - 1;
      HealthyCount(brokers[..last], health)
      + if brokers[last] in health && health[brokers[last]] then 1 else 0
  }

  /** The health part of `handle_cluster_status`: half of two brokers is enough, otherwise
      a strict majority; never without a leader or without brokers. */
  method ClusterHealthy(brokers: seq<BrokerId>, health: map<BrokerId, bool>, hasLeader: bool) returns (healthy: bool)
    ensures var n := HealthyCount(brokers, health);
            healthy <==> hasLeader && (2 * n > |brokers| || (|brokers| == 2 && n == 1))
  {
    var healthyBrokers := 0;
    for i := 0 to |brokers|
      invariant healthyBrokers == HealthyCount(brokers[..i], health) && healthyBrokers <= i
    {
      assert brokers[..i + 1][..i] == brokers[..i];
      if brokers[i] in health && health[brokers[i]] {
        healthyBrokers := healthyBrokers + 1;
      }
    }
    assert brokers[..|brokers|] == brokers;
    if |brokers| == 0 {
      healthy := false;
    } else if |brokers| <= 2 {
      healthy := healthyBrokers >= 1 && hasLeader;
    } else {
      healthy := healthyBrokers > |brokers| / 2 && hasLeader;
    }
  }

  // --- Runs ----------------------------------------------------------------------

  /** `checks` holds, for every entry, the checks since the entry was created. */
  datatype State = State(now: real, cache: Cache, checks: map<BrokerId, seq<Check>>)

  const FRESH := State(0.0, map[], map[])

  /** A check reads the clock twice; a cleanup's decision about one entry is one step. */
  datatype Action =
    | Tick(dt: real)
    | Checked(id: BrokerId, passed: bool, wait: real, gap: real)
    | Evict(id: BrokerId)

  function Readings(s: State, a: Action): Check
    requires a.Checked?
  {
    Check(a.passed, s.now + a.wait, s.now + a.wait + a.gap)
  }

  /** The step happens: the clock never runs backwards, and only stale entries go. */
  predicate Enabled(s: State, a: Action, timeout: real) {
    match a
    case Tick(dt) => dt >= 0.0
    case Checked(_, _, wait, gap) => wait >= 0.0 && gap >= 0.0
    case Evict(id) => id in s.cache && IsStale(s.cache[id], timeout, s.now)
  }

  function Step(s: State, a: Action, timeout: real): State {
    if !Enabled(s, a, timeout) then s
    else
      match a
      case Tick(dt) => s.(now := s.now + dt)
      case Checked(id, _, wait, gap) =>
        var check := Readings(s, a);
        var before := if id in s.cache && id in s.checks then s.checks[id] else [];
        State(check.succeededAt, Update(s.cache, id, check), s.checks[id := before + [check]])
      case Evict(id) => s.(cache := s.cache - {id})
  }

  function Run(actions: seq<Action>, timeout: real): State {
    if actions == [] then FRESH
    else Step(Run(actions[..|actions| - 1], timeout), actions[|actions| - 1], timeout)
  }

  lemma RunOneMore(actions: seq<Action>, a: Action, timeout: real)
    ensures Run(actions + [a], timeout) == Step(Run(actions, timeout), a, timeout)
  {
    assert (actions + [a])[..|actions|] == actions;
  }

  /** Failed checks at the end of a history */
  function TrailingFailures(checks: seq<Check>): nat {
    if checks == [] || checks[|checks| - 1].passed then 0
    else 1 + TrailingFailures(checks[..|checks| - 1])
  }

  /** The time of the last passed check of a history */
  function LastPass(checks: seq<Check>): Option<real> {
    if checks == [] then None
    else
      var last := |checks| - 1;
      if checks[last].passed then Some(checks[last].succeededAt) else LastPass(checks[..last])
  }

  ghost predicate Summarises(health: Health, checks: seq<Check>) {
    && checks != []
    && var last := checks[|checks| - 1];
       && health.online == last.passed && health.lastCheck == last.checkedAt
       && health.lastSuccess == LastPass(checks) && health.consecutiveFailures == TrailingFailures(checks)
  }

  ghost predicate Inv(s: State) {
    forall id :: id in s.cache ==>
      id in s.checks && Summarises(s.cache[id], s.checks[id]) && s.cache[id].lastCheck <= s.now
  }

  lemma UpdateSummarises(s: State, a: Action, timeout: real)
    requires a.Checked? && Enabled(s, a, timeout) && Inv(s)
    ensures var s' := Step(s, a, timeout); Summarises(s'.cache[a.id], s'.checks[a.id])
  {
  }

  /** Every entry is the summary of its broker's checks since it was created. */
  lemma {:induction false} EntriesSummariseChecks(actions: seq<Action>, timeout: real)
    ensures Inv(Run(actions, timeout))
    decreases |actions|
  {
    if actions != [] {
      var last := |actions| - 1;
      EntriesSummariseChecks(actions[..last], timeout);
      var s := Run(actions[..last], timeout);
      if actions[last].Checked? && Enabled(s, actions[last], timeout) {
        UpdateSummarises(s, actions[last], timeout);
      }
    }
  }

  // --- Cleanup cannot be observed ------------------------------------------------

  /** The same run with every cleanup left out. */
  function WithoutCleanup(actions: seq<Action>): seq<Action> {
    if actions == [] then []
    else
      var last := |actions| - 1;
      WithoutCleanup(actions[..last]) + if actions[last].Evict? then [] else [actions[last]]
  }

  /** The two clock readings of every check are at most twice the timeout apart. */
  ghost predicate Prompt(actions: seq<Action>, timeout: real) {
    forall i :: 0 <= i < |actions| && actions[i].Checked? ==> actions[i].gap <= 2.0 * timeout
  }

  ghost predicate SuccessNearCheck(s: State, timeout: real) {
    forall id :: id in s.cache ==>
      && s.cache[id].lastCheck <= s.now
      && (s.cache[id].lastSuccess.Some? ==> s.cache[id].lastSuccess.value <= s.cache[id].lastCheck + 2.0 * timeout)
  }

  /** From `now` on, this success makes no broker healthy. */
  predicate Dead(success: Option<real>, timeout: real, now: real) {
    success.Some? ==> success.value + timeout <= now
  }

  /** The two states answer alike about every broker from now on. */
  ghost predicate Alike(s: State, e: State, timeout: real) {
    && s.now == e.now
    && forall id: BrokerId :: SuccessOf(s.cache, id) == SuccessOf(e.cache, id)
                              || (&& Dead(SuccessOf(s.cache, id), timeout, s.now)
                                  && Dead(SuccessOf(e.cache, id), timeout, s.now))
  }

  lemma AlikeAfterEviction(s: State, e: State, id: BrokerId, timeout: real)
    requires timeout >= 0.0 && SuccessNearCheck(s, timeout) && Alike(s, e, timeout)
    ensures Alike(Step(s, Evict(id), timeout), e, timeout) && SuccessNearCheck(Step(s, Evict(id), timeout), timeout)
  {
  }

  lemma AlikeAfterStep(s: State, e: State, a: Action, timeout: real)
    requires timeout >= 0.0 && SuccessNearCheck(s, timeout) && Alike(s, e, timeout)
    requires !a.Evict? && (a.Checked? ==> a.gap <= 2.0 * timeout)
    ensures Alike(Step(s, a, timeout), Step(e, a, timeout), timeout) && SuccessNearCheck(Step(s, a, timeout), timeout)
  {
    var s', e' := Step(s, a, timeout), Step(e, a, timeout);
    forall id: BrokerId
      ensures SuccessOf(s'.cache, id) == SuccessOf(e'.cache, id)
              || (Dead(SuccessOf(s'.cache, id), timeout, s'.now) && Dead(SuccessOf(e'.cache, id), timeout, s'.now))
    {
      assert SuccessOf(s.cache, id) == SuccessOf(e.cache, id) || Dead(SuccessOf(s.cache, id), timeout, s.now);
    }
  }

  lemma {:induction false} AlikeRuns(actions: seq<Action>, timeout: real)
    requires timeout >= 0.0 && Prompt(actions, timeout)
    ensures Alike(Run(actions, timeout), Run(WithoutCleanup(actions), timeout), timeout)
    ensures SuccessNearCheck(Run(actions, timeout), timeout)
    decreases |actions|
  {
    if actions != [] {
      var last := |actions| - 1;
      var s, kept := Run(actions[..last], timeout), WithoutCleanup(actions[..last]);
      AlikeRuns(actions[..last], timeout);
      if actions[last].Evict? {
        assert WithoutCleanup(actions) == kept;
        AlikeAfterEviction(s, Run(kept, timeout), actions[last].id, timeout);
      } else {
        AlikeAfterStep(s, Run(kept, timeout), actions[last], timeout);
        assert (kept + [actions[last]])[..|kept|] == kept;
      }
    }
  }

  /** No answer of `is_broker_healthy`, now or later, tells whether cleanups took place. */
  lemma CleanupUnobservable(actions: seq<Action>, timeout: real, id: BrokerId, now: real)
    requires timeout >= 0.0 && Prompt(actions, timeout) && Run(actions, timeout).now <= now
    ensures IsHealthy(Run(actions, timeout).cache, id, timeout, now)
        <==> IsHealthy(Run(WithoutCleanup(actions), timeout).cache, id, timeout, now)
  {
    AlikeRuns(actions, timeout);
  }

  ghost predicate Reports(health: map<BrokerId, bool>, cache: Cache, timeout: real, now: real) {
    health.Keys == cache.Keys && forall id :: id in cache ==> health[id] == IsHealthy(cache, id, timeout, now)
  }

  lemma {:induction false} SameCount(brokers: seq<BrokerId>, a: map<BrokerId, bool>, b: map<BrokerId, bool>)
    requires forall id :: (id in a && a[id]) <==> (id in b && b[id])
    ensures HealthyCount(brokers, a) == HealthyCount(brokers, b)
  {
    if brokers != [] {
      SameCount(brokers[..|brokers| - 1], a, b);
    }
  }

  /** Nor does the count behind the cluster verdict. */
  lemma CleanupKeepsHealthyCount(actions: seq<Action>, timeout: real, now: real, brokers: seq<BrokerId>,
                                 a: map<BrokerId, bool>, b: map<BrokerId, bool>)
    requires timeout >= 0.0 && Prompt(actions, timeout) && Run(actions, timeout).now <= now
    requires Reports(a, Run(actions, timeout).cache, timeout, now)
    requires Reports(b, Run(WithoutCleanup(actions), timeout).cache, timeout, now)
    ensures HealthyCount(brokers, a) == HealthyCount(brokers, b)
  {
    forall id ensures (id in a && a[id]) <==> (id in b && b[id]) {
      CleanupUnobservable(actions, timeout, id, now);
    }
    SameCount(brokers, a, b);
  }

  /** Some moment finds the entry both stale and healthy exactly when its success was
      recorded more than twice the timeout after its check. */
  lemma EvictionObservableIff(health: Health, timeout: real)
    requires timeout >= 0.0
    ensures (exists now :: IsStale(health, timeout, now) && Recent(health.lastSuccess, timeout, now))
        <==> timeout > 0.0 && health.lastSuccess.Some? && health.lastSuccess.value > health.lastCheck + 2.0 * timeout
  {
    if timeout > 0.0 && health.lastSuccess.Some? && health.lastSuccess.value > health.lastCheck + 2.0 * timeout {
      var now := (health.lastCheck + 3.0 * timeout + health.lastSuccess.value + timeout) / 2.0;
      assert IsStale(health, timeout, now) && Recent(health.lastSuccess, timeout, now);
    }
  }

  /** A check whose readings are further apart is lost to a cleanup while it still counts. */
  lemma SlowCheckIsForgotten(id: BrokerId, timeout: real, gap: real)
    requires timeout > 0.0 && gap > 2.0 * timeout
    ensures exists dt ::
              var before := [Checked(id, true, 0.0, gap), Tick(dt)];
              var now := Run(before, timeout).now;
              && IsHealthy(Run(before, timeout).cache, id, timeout, now)
              && !IsHealthy(Run(before + [Evict(id)], timeout).cache, id, timeout, now)
  {
    var needed := if gap < 3.0 * timeout then 3.0 * timeout - gap else 0.0;
    var dt := (needed + timeout) / 2.0;
    var check, tick := Checked(id, true, 0.0, gap), Tick(dt);
    var s1 := Step(FRESH, check, timeout);
    var s2 := Step(s1, tick, timeout);
    RunOneMore([], check, timeout);
    RunOneMore([check], tick, timeout);
    RunOneMore([check, tick], Evict(id), timeout);
    assert [] + [check] == [check] && [check] + [tick] == [check, tick];
    assert IsHealthy(s2.cache, id, timeout, s2.now) && Enabled(s2, Evict(id), timeout);
  }
}
