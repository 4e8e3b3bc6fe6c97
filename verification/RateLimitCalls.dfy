/** Whole requests inside the interleavings: an uninterrupted request does what the
    manager's method does. */
module RateLimitCalls {
  import opened Types
  import opened RateLimitConfig
  import opened TokenBucket
  import opened RateLimiter
  import opened RateLimitRuns

  lemma {:induction false} RunConcat(c: Config, s: State, first: seq<Action>, second: seq<Action>)
    requires Configured(c, s.l)
    ensures Run(c, s, first + second) == Run(c, Run(c, s, first), second)
    decreases |second|
  {
    if second == [] {
      assert first + second == first;
    } else {
      var last := |second| - 1;
      RunConcat(c, s, first, second[..last]);
      assert (first + second)[..|first + second| - 1] == first + second[..last];
    }
  }

  lemma RunOne(c: Config, s: State, a: Action)
    requires Configured(c, s.l)
    ensures Run(c, s, [a]) == Step(c, s, a)
  {
  }

  /** The clock moves on, then one part of the request happens. */
  function Part(from: real, to: real, a: Action): seq<Action> {
    [Tick(to - from), a]
  }

  lemma RunPart(c: Config, s: State, to: real, a: Action)
    requires Configured(c, s.l) && s.now <= to
    ensures Run(c, s, Part(s.now, to, a)) == Step(c, s.(now := to), a)
  {
    RunOne(c, s, Tick(to - s.now));
    assert Part(s.now, to, a)[..1] == [Tick(to - s.now)];
  }

  predicate InOrder(now: real, t: Clock) {
    now <= t.global <= t.ip <= t.category <= t.access <= t.cleanup
  }

  function FinishScript(id: nat, sweep: nat, t: Clock): seq<Action> {
    Part(t.access, t.cleanup, Finish(id, sweep))
  }

  function AccessScript(id: nat, sweep: nat, t: Clock): seq<Action> {
    Part(t.category, t.access, Access(id)) + FinishScript(id, sweep, t)
  }

  function CategoryScript(id: nat, sweep: nat, t: Clock): seq<Action> {
    Part(t.ip, t.category, PassCategory(id)) + AccessScript(id, sweep, t)
  }

  function IpScript(id: nat, sweep: nat, t: Clock): seq<Action> {
    Part(t.global, t.ip, PassIp(id)) + CategoryScript(id, sweep, t)
  }

  function GlobalScript(id: nat, sweep: nat, t: Clock, now: real): seq<Action> {
    Part(now, t.global, PassGlobal(id)) + IpScript(id, sweep, t)
  }

  /** The steps of one request, run without interruption. */
  function Script(id: nat, ip: Ip, k: EndpointCategory, sweep: nat, t: Clock, now: real): seq<Action> {
    [Begin(id, ip, k)] + GlobalScript(id, sweep, t, now)
  }

  /** An answered request takes no further step. */
  lemma Idle(c: Config, s: State, id: nat, to: real, a: Action)
    requires Configured(c, s.l) && s.now <= to && id in s.calls && (s.calls[id].refused || s.calls[id].stage == 5)
    requires (a.PassIp? || a.PassCategory? || a.Access? || a.Finish? || a.PassGlobal?) && a.id == id
    ensures Run(c, s, Part(s.now, to, a)) == s.(now := to)
  {
    RunPart(c, s, to, a);
  }

  lemma IdleFromAccess(c: Config, s: State, id: nat, sweep: nat, t: Clock)
    requires Configured(c, s.l) && s.now == t.category <= t.access <= t.cleanup
    requires id in s.calls && (s.calls[id].refused || s.calls[id].stage == 5)
    ensures Run(c, s, AccessScript(id, sweep, t)) == s.(now := t.cleanup)
  {
    RunConcat(c, s, Part(t.category, t.access, Access(id)), FinishScript(id, sweep, t));
    Idle(c, s, id, t.access, Access(id));
    Idle(c, s.(now := t.access), id, t.cleanup, Finish(id, sweep));
  }

  lemma IdleFromCategory(c: Config, s: State, id: nat, sweep: nat, t: Clock)
    requires Configured(c, s.l) && s.now == t.ip <= t.category <= t.access <= t.cleanup
    requires id in s.calls && (s.calls[id].refused || s.calls[id].stage == 5)
    ensures Run(c, s, CategoryScript(id, sweep, t)) == s.(now := t.cleanup)
  {
    RunConcat(c, s, Part(t.ip, t.category, PassCategory(id)), AccessScript(id, sweep, t));
    Idle(c, s, id, t.category, PassCategory(id));
    IdleFromAccess(c, s.(now := t.category), id, sweep, t);
  }

  lemma IdleFromIp(c: Config, s: State, id: nat, sweep: nat, t: Clock)
    requires Configured(c, s.l) && s.now == t.global <= t.ip <= t.category <= t.access <= t.cleanup
    requires id in s.calls && (s.calls[id].refused || s.calls[id].stage == 5)
    ensures Run(c, s, IpScript(id, sweep, t)) == s.(now := t.cleanup)
  {
    RunConcat(c, s, Part(t.global, t.ip, PassIp(id)), CategoryScript(id, sweep, t));
    Idle(c, s, id, t.ip, PassIp(id));
    IdleFromCategory(c, s.(now := t.ip), id, sweep, t);
  }

  /** From `s0` the request has ended with this outcome at time `now`; it may have started
      one cleanup, and other requests are as they were. */
  ghost predicate Ends(s0: State, s: State, id: nat, ip: Ip, k: EndpointCategory, o: Outcome, sweep: nat, now: real) {
    && id in s.calls && s.l == o.limiters && s.now == now
    && s.calls == s0.calls[id := Call(ip, k, s.calls[id].stage, o.refused.Some?)]
    && (o.refused.None? ==> s.calls[id].stage == 5)
    && s.cleanups == if o.spawned then s0.cleanups[sweep := CleanupRun(true, 0, {})] else s0.cleanups
  }

  lemma AccessPart(c: Config, s: State, id: nat, to: real)
    requires Configured(c, s.l) && s.now <= to && s.At(id, 3)
    ensures var s1 := Run(c, s, Part(s.now, to, Access(id)));
            && s1.l == UpdateAccess(s.l, s.calls[id].ip, to) && s1.now == to && s1.cleanups == s.cleanups
            && s1.calls == s.calls[id := s.calls[id].(stage := 4)]
  {
    RunPart(c, s, to, Access(id));
  }

  lemma FinishPart(c: Config, s: State, id: nat, sweep: nat, to: real)
    requires Configured(c, s.l) && s.now <= to && s.At(id, 4) && sweep !in s.cleanups
    ensures var s1 := Run(c, s, Part(s.now, to, Finish(id, sweep)));
            && s1.l == Trigger(c, s.l, to) && s1.now == to && s1.calls == s.calls[id := s.calls[id].(stage := 5)]
            && s1.cleanups
               == if ShouldClean(c, s.l, to) then s.cleanups[sweep := CleanupRun(true, 0, {})] else s.cleanups
  {
    RunPart(c, s, to, Finish(id, sweep));
  }

  lemma FromAccess(c: Config, s: State, id: nat, sweep: nat, t: Clock)
    requires Configured(c, s.l) && s.now == t.category <= t.access <= t.cleanup && sweep !in s.cleanups && s.At(id, 3)
    ensures Ends(s, Run(c, s, AccessScript(id, sweep, t)), id, s.calls[id].ip, s.calls[id].category,
                 Answered(c, s.l, s.calls[id].ip, t), sweep, t.cleanup)
  {
    RunConcat(c, s, Part(t.category, t.access, Access(id)), FinishScript(id, sweep, t));
    AccessPart(c, s, id, t.access);
    FinishPart(c, Run(c, s, Part(t.category, t.access, Access(id))), id, sweep, t.cleanup);
  }

  lemma CategoryPart(c: Config, s: State, id: nat, to: real)
    requires Configured(c, s.l) && s.now <= to && s.At(id, 2)
    ensures Run(c, s, Part(s.now, to, PassCategory(id)))
         == Judge(s.(now := to), id, CheckCategory(c, s.l, s.calls[id].category, to))
  {
    RunPart(c, s, to, PassCategory(id));
  }

  lemma IpPart(c: Config, s: State, id: nat, to: real)
    requires Configured(c, s.l) && c.enabled && s.now <= to && s.At(id, 1)
    ensures Run(c, s, Part(s.now, to, PassIp(id))) == Judge(s.(now := to), id, CheckIp(c, s.l, s.calls[id].ip, to))
  {
    RunPart(c, s, to, PassIp(id));
  }

  lemma GlobalPart(c: Config, s: State, id: nat, to: real)
    requires Configured(c, s.l) && s.now <= to && s.At(id, 0)
    ensures Run(c, s, Part(s.now, to, PassGlobal(id))) == Judge(s.(now := to), id, CheckGlobal(c, s.l, to))
  {
    RunPart(c, s, to, PassGlobal(id));
  }

  /** The request passed a check, and the rest of it ended like this; */
  lemma EndsPassed(c: Config, s: State, id: nat, l: Limiters, to: real, first: seq<Action>, rest: seq<Action>,
                   o: Outcome, sweep: nat, now: real)
    requires Configured(c, s.l) && Configured(c, l) && id in s.calls && !s.calls[id].refused
    requires Run(c, s, first) == Judge(s.(now := to), id, (l, true))
    requires var s1 := Judge(s.(now := to), id, (l, true));
             Ends(s1, Run(c, s1, rest), id, s.calls[id].ip, s.calls[id].category, o, sweep, now)
    ensures Ends(s, Run(c, s, first + rest), id, s.calls[id].ip, s.calls[id].category, o, sweep, now)
  {
    RunConcat(c, s, first, rest);
  }

  /** or it was refused, and took no further step. */
  lemma EndsRefused(c: Config, s: State, id: nat, l: Limiters, to: real, first: seq<Action>, rest: seq<Action>,
                    e: RateLimitError, sweep: nat, now: real)
    requires Configured(c, s.l) && Configured(c, l) && id in s.calls
    requires Run(c, s, first) == Judge(s.(now := to), id, (l, false))
    requires var s1 := Judge(s.(now := to), id, (l, false));
             Run(c, s1, rest) == s1.(now := now)
    ensures Ends(s, Run(c, s, first + rest), id, s.calls[id].ip, s.calls[id].category, Outcome(l, Some(e), false),
                 sweep, now)
  {
    RunConcat(c, s, first, rest);
  }

  lemma FromCategory(c: Config, s: State, id: nat, sweep: nat, t: Clock)
    requires Configured(c, s.l) && s.now == t.ip <= t.category <= t.access <= t.cleanup
    requires sweep !in s.cleanups && s.At(id, 2)
    ensures Ends(s, Run(c, s, CategoryScript(id, sweep, t)), id, s.calls[id].ip, s.calls[id].category,
                 FromCategoryCheck(c, s.l, s.calls[id].ip, s.calls[id].category, t), sweep, t.cleanup)
  {
    var ip, k := s.calls[id].ip, s.calls[id].category;
    CategoryPart(c, s, id, t.category);
    var (l, ok) := CheckCategory(c, s.l, k, t.category);
    var s1, first := Judge(s.(now := t.category), id, (l, ok)), Part(t.ip, t.category, PassCategory(id));
    if ok {
      FromAccess(c, s1, id, sweep, t);
      EndsPassed(c, s, id, l, t.category, first, AccessScript(id, sweep, t), Answered(c, l, ip, t), sweep, t.cleanup);
    } else {
      IdleFromAccess(c, s1, id, sweep, t);
      EndsRefused(c, s, id, l, t.category, first, AccessScript(id, sweep, t),
                  Refusal(CategoryScope(k), c.endpoints.Of(k).requestsPerSecond), sweep, t.cleanup);
    }
  }

  lemma FromIp(c: Config, s: State, id: nat, sweep: nat, t: Clock)
    requires Configured(c, s.l) && c.enabled && s.now == t.global <= t.ip <= t.category <= t.access <= t.cleanup
    requires sweep !in s.cleanups && s.At(id, 1)
    ensures Ends(s, Run(c, s, IpScript(id, sweep, t)), id, s.calls[id].ip, s.calls[id].category,
                 FromIpCheck(c, s.l, s.calls[id].ip, s.calls[id].category, t), sweep, t.cleanup)
  {
    var ip, k := s.calls[id].ip, s.calls[id].category;
    IpPart(c, s, id, t.ip);
    var (l, ok) := CheckIp(c, s.l, ip, t.ip);
    var s1, first := Judge(s.(now := t.ip), id, (l, ok)), Part(t.global, t.ip, PassIp(id));
    if ok {
      FromCategory(c, s1, id, sweep, t);
      EndsPassed(c, s, id, l, t.ip, first, CategoryScript(id, sweep, t), FromCategoryCheck(c, l, ip, k, t), sweep,
                 t.cleanup);
    } else {
      IdleFromCategory(c, s1, id, sweep, t);
      EndsRefused(c, s, id, l, t.ip, first, CategoryScript(id, sweep, t),
                  Refusal(IpScope, c.perIp.requestsPerSecond), sweep, t.cleanup);
    }
  }

  lemma FromGlobal(c: Config, s: State, id: nat, sweep: nat, t: Clock)
    requires Configured(c, s.l) && c.enabled && InOrder(s.now, t) && sweep !in s.cleanups && s.At(id, 0)
    ensures Ends(s, Run(c, s, GlobalScript(id, sweep, t, s.now)), id, s.calls[id].ip, s.calls[id].category,
                 Request(c, s.l, s.calls[id].ip, s.calls[id].category, t), sweep, t.cleanup)
  {
    var ip, k := s.calls[id].ip, s.calls[id].category;
    GlobalPart(c, s, id, t.global);
    var (l, ok) := CheckGlobal(c, s.l, t.global);
    var s1, first := Judge(s.(now := t.global), id, (l, ok)), Part(s.now, t.global, PassGlobal(id));
    if ok {
      FromIp(c, s1, id, sweep, t);
      EndsPassed(c, s, id, l, t.global, first, IpScript(id, sweep, t), FromIpCheck(c, l, ip, k, t), sweep, t.cleanup);
    } else {
      IdleFromIp(c, s1, id, sweep, t);
      EndsRefused(c, s, id, l, t.global, first, IpScript(id, sweep, t),
                  Refusal(GlobalScope, c.global.requestsPerSecond), sweep, t.cleanup);
    }
  }

  lemma IdleFromGlobal(c: Config, s: State, id: nat, sweep: nat, t: Clock)
    requires Configured(c, s.l) && InOrder(s.now, t) && id in s.calls && (s.calls[id].refused || s.calls[id].stage == 5)
    ensures Run(c, s, GlobalScript(id, sweep, t, s.now)) == s.(now := t.cleanup)
  {
    RunConcat(c, s, Part(s.now, t.global, PassGlobal(id)), IpScript(id, sweep, t));
    Idle(c, s, id, t.global, PassGlobal(id));
    IdleFromIp(c, s.(now := t.global), id, sweep, t);
  }

  lemma RunBegin(c: Config, s: State, id: nat, ip: Ip, k: EndpointCategory, rest: seq<Action>)
    requires Configured(c, s.l) && id !in s.calls
    ensures Run(c, s, [Begin(id, ip, k)] + rest)
         == Run(c, s.(calls := s.calls[id := Call(ip, k, if c.enabled then 0 else 5, false)]), rest)
  {
    RunOne(c, s, Begin(id, ip, k));
    RunConcat(c, s, [Begin(id, ip, k)], rest);
  }

  lemma EndsBegun(s: State, s1: State, s2: State, id: nat, ip: Ip, k: EndpointCategory, o: Outcome, sweep: nat,
                  now: real)
    requires Ends(s1, s2, id, ip, k, o, sweep, now)
    requires s1.calls == s.calls[id := Call(ip, k, 0, false)] && s1.cleanups == s.cleanups
    ensures Ends(s, s2, id, ip, k, o, sweep, now)
  {
  }

  /** A request whose steps are not interrupted ends as the manager's method specifies. */
  lemma UninterruptedRequest(c: Config, s: State, id: nat, ip: Ip, k: EndpointCategory, sweep: nat, t: Clock)
    requires Configured(c, s.l) && InOrder(s.now, t) && id !in s.calls && sweep !in s.cleanups
    ensures Ends(s, Run(c, s, Script(id, ip, k, sweep, t, s.now)), id, ip, k, Request(c, s.l, ip, k, t), sweep,
                 t.cleanup)
  {
    var s1 := s.(calls := s.calls[id := Call(ip, k, if c.enabled then 0 else 5, false)]);
    RunBegin(c, s, id, ip, k, GlobalScript(id, sweep, t, s.now));
    if c.enabled {
      FromGlobal(c, s1, id, sweep, t);
      EndsBegun(s, s1, Run(c, s1, GlobalScript(id, sweep, t, s.now)), id, ip, k, Request(c, s.l, ip, k, t), sweep,
                t.cleanup);
    } else {
      IdleFromGlobal(c, s1, id, sweep, t);
    }
  }
}
