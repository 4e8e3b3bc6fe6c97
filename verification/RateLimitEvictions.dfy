/** How often an address can get a fresh bucket when only requests start cleanups: a
    cleanup evicts an entry at most once, and cleanups are started one at a time and at
    least the cleanup interval apart. */
module RateLimitEvictions {
  import opened Types
  import opened RateLimitConfig
  import opened TokenBucket
  import opened RateLimiter
  import opened RateLimitRuns

  /** Cleanups under way that may still evict this address */
  ghost function Unvisited(s: State, ip: Ip): set<nat> {
    set k | k in s.cleanups && ip !in s.cleanups[k].evicted
  }

  function Intervals(c: Config, n: nat): real {
    c.cleanup.cleanupIntervalSecs as real * n as real
  }

  /** Since a state with so many evictions and triggers, and `inFlight` cleanups under way:
      every eviction takes one of those cleanups or a trigger, and triggers are an interval
      apart. */
  ghost predicate Paced(c: Config, s: State, t0: real, evictions: nat, triggers: nat, inFlight: nat, ip: Ip) {
    && evictions <= s.Evictions(ip) && triggers <= |s.history.starts| && t0 <= s.now
    && s.Evictions(ip) - evictions + |Unvisited(s, ip)| <= |s.history.starts| - triggers + inFlight
    && (|s.history.starts| > triggers ==>
          t0 + Intervals(c, |s.history.starts| - triggers - 1) <= s.l.lastCleanup <= s.now)
  }

  lemma PacedByTrigger(c: Config, s: State, id: nat, k: nat, t0: real, evictions: nat, triggers: nat, inFlight: nat,
                       ip: Ip)
    requires Configured(c, s.l) && Paced(c, s, t0, evictions, triggers, inFlight, ip)
    ensures Paced(c, Step(c, s, Finish(id, k)), t0, evictions, triggers, inFlight, ip)
  {
    var s' := Step(c, s, Finish(id, k));
    if s.At(id, 4) && k !in s.cleanups && ShouldClean(c, s.l, s.now) {
      assert Unvisited(s', ip) == Unvisited(s, ip) + {k};
      var n := |s.history.starts| - triggers;
      if n > 0 {
        assert Intervals(c, n) == Intervals(c, n - 1) + c.cleanup.cleanupIntervalSecs as real;
      }
    } else {
      assert Unvisited(s', ip) == Unvisited(s, ip);
    }
  }

  lemma PacedByEviction(c: Config, s: State, k: nat, gone: Ip, t0: real, evictions: nat, triggers: nat, inFlight: nat,
                        ip: Ip)
    requires Configured(c, s.l) && Paced(c, s, t0, evictions, triggers, inFlight, ip)
    ensures Paced(c, Step(c, s, Evict(k, gone)), t0, evictions, triggers, inFlight, ip)
  {
    var s' := Step(c, s, Evict(k, gone));
    if CanEvict(c, s, k, gone) && gone == ip {
      assert Unvisited(s', ip) == Unvisited(s, ip) - {k};
    } else {
      assert Unvisited(s', ip) == Unvisited(s, ip);
    }
  }

  lemma PacedByEnd(c: Config, s: State, k: nat, t0: real, evictions: nat, triggers: nat, inFlight: nat, ip: Ip)
    requires Configured(c, s.l) && Paced(c, s, t0, evictions, triggers, inFlight, ip)
    ensures Paced(c, Step(c, s, EndCleanup(k)), t0, evictions, triggers, inFlight, ip)
  {
    var s' := Step(c, s, EndCleanup(k));
    assert Unvisited(s', ip) == Unvisited(s, ip) - {k};
  }

  lemma PacedOtherwise(c: Config, s: State, a: Action, t0: real, evictions: nat, triggers: nat, inFlight: nat, ip: Ip)
    requires Configured(c, s.l) && Paced(c, s, t0, evictions, triggers, inFlight, ip) && !c.cleanup.enabled
    requires !a.Finish? && !a.Evict? && !a.EndCleanup?
    ensures Paced(c, Step(c, s, a), t0, evictions, triggers, inFlight, ip)
  {
    assert Unvisited(Step(c, s, a), ip) == Unvisited(s, ip);
  }

  lemma PacedStep(c: Config, s: State, a: Action, t0: real, evictions: nat, triggers: nat, inFlight: nat, ip: Ip)
    requires Configured(c, s.l) && Paced(c, s, t0, evictions, triggers, inFlight, ip) && !c.cleanup.enabled
    ensures Paced(c, Step(c, s, a), t0, evictions, triggers, inFlight, ip)
  {
    if a.Finish? {
      PacedByTrigger(c, s, a.id, a.cleanup, t0, evictions, triggers, inFlight, ip);
    } else if a.Evict? {
      PacedByEviction(c, s, a.cleanup, a.ip, t0, evictions, triggers, inFlight, ip);
    } else if a.EndCleanup? {
      PacedByEnd(c, s, a.cleanup, t0, evictions, triggers, inFlight, ip);
    } else {
      PacedOtherwise(c, s, a, t0, evictions, triggers, inFlight, ip);
    }
  }

  lemma {:induction false} PacedRun(c: Config, s: State, actions: seq<Action>, inFlight: nat, ip: Ip)
    requires Configured(c, s.l) && !c.cleanup.enabled && |Unvisited(s, ip)| <= inFlight
    ensures Paced(c, Run(c, s, actions), s.now, s.Evictions(ip), |s.history.starts|, inFlight, ip)
    decreases |actions|
  {
    if actions != [] {
      var init, last := actions[..|actions| - 1], actions[|actions| - 1];
      PacedRun(c, s, init, inFlight, ip);
      PacedStep(c, Run(c, s, init), last, s.now, s.Evictions(ip), |s.history.starts|, inFlight, ip);
    }
  }

  // --- Cleanups under way at the start of the window ---------------------------------

  ghost predicate AllTriggered(s: State) {
    forall k :: k in s.cleanups ==> s.cleanups[k].triggered
  }

  lemma AllTriggeredStep(c: Config, s: State, a: Action)
    requires Configured(c, s.l) && !c.cleanup.enabled && AllTriggered(s)
    ensures AllTriggered(Step(c, s, a))
  {
  }

  lemma {:induction false} AllTriggeredRun(c: Config, t: real, actions: seq<Action>)
    requires Usable(c) && !c.cleanup.enabled
    ensures AllTriggered(Run(c, Start(c, t), actions))
    decreases |actions|
  {
    if actions != [] {
      AllTriggeredRun(c, t, actions[..|actions| - 1]);
      AllTriggeredStep(c, Run(c, Start(c, t), actions[..|actions| - 1]), actions[|actions| - 1]);
    }
  }

  /** At most the one cleanup is under way that the flag stands for. */
  lemma OneInFlight(c: Config, s: State, ip: Ip)
    requires Reachable(c, s) && !c.cleanup.enabled
    ensures |Unvisited(s, ip)| <= Bit(s.l.running)
  {
    var t, past :| s == Run(c, Start(c, t), past);
    FlagRun(c, t, past);
    AllTriggeredRun(c, t, past);
    SubsetCardinality(Unvisited(s, ip), Triggered(s));
  }

  // --- The window --------------------------------------------------------------------

  /** Bursts per address that fit a window of length `w` */
  function IntervalAllowance(c: Config, w: real, running: bool): real
    requires Usable(c) && c.perIp.enabled && c.cleanup.cleanupIntervalSecs > 0
  {
    Bursts(IpQuota(c), (w / c.cleanup.cleanupIntervalSecs as real).Floor + 2 + Bit(running)) + Gain(IpQuota(c), w)
  }

  lemma EvictionsFit(c: Config, evictions: nat, triggers: nat, w: real, running: bool)
    requires Usable(c) && c.perIp.enabled && c.cleanup.cleanupIntervalSecs > 0 && w >= 0.0
    requires evictions <= triggers + Bit(running) && (triggers > 0 ==> Intervals(c, triggers - 1) <= w)
    ensures Bursts(IpQuota(c), evictions + 1) + Gain(IpQuota(c), w) <= IntervalAllowance(c, w, running)
  {
    var interval := c.cleanup.cleanupIntervalSecs as real;
    var fit := (w / interval).Floor;
    assert triggers - 1 <= fit by {
      if triggers > 0 {
        QuotientAtLeast(interval, triggers - 1, w);
      } else {
        assert w / interval >= 0.0;
      }
    }
    BurstsGrow(IpQuota(c), evictions + 1, fit + 2 + Bit(running));
  }

  /** When only requests start cleanups, whatever the maximum age, at most
      burst * (floor(W / interval) + 2) + rate * W requests of an address pass in any window
      of length W, and one burst more if a cleanup is under way when the window opens. */
  lemma IntervalWindow(c: Config, s: State, window: seq<Action>, ip: Ip)
    requires Reachable(c, s) && c.enabled && c.perIp.enabled && !c.cleanup.enabled && c.cleanup.cleanupIntervalSecs > 0
    ensures var s' := Run(c, s, window);
            |PassesIp(s, s', ip)| as real <= IntervalAllowance(c, s'.now - s.now, s.l.running)
  {
    var s' := Run(c, s, window);
    ReachableInv(c, s);
    OneInFlight(c, s, ip);
    PacedRun(c, s, window, Bit(s.l.running), ip);
    IpSpent(c, s, window, ip);
    EvictionsFit(c, s'.Evictions(ip) - s.Evictions(ip), |s'.history.starts| - |s.history.starts|, s'.now - s.now,
                 s.l.running);
  }

  // --- No evictions at all -------------------------------------------------------------

  lemma {:induction false} NoEvictions(c: Config, s: State, actions: seq<Action>, ip: Ip)
    requires Configured(c, s.l) && c.cleanup.maxCleanupPerRun == 0
    ensures Run(c, s, actions).Evictions(ip) == s.Evictions(ip)
    decreases |actions|
  {
    if actions != [] {
      NoEvictions(c, s, actions[..|actions| - 1], ip);
    }
  }
}
