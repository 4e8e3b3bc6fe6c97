/** The replication manager beside its choice of a watermark: collecting the answers of
    followers, and recalculations of the watermark that overlap. */
module Replication {
  import opened Types

  // --- Acknowledgments ------------------------------------------------------------------

  function Acks(responses: seq<bool>): nat {
    if responses == [] then 0 else Acks(responses[..|responses| - 1]) + Bit(responses[|responses| - 1])
  }

  /** The leader itself counts as one of the replicas. */
  function Required(minInSyncReplicas: nat): nat {
    if minInSyncReplicas == 0 then 0 else minInSyncReplicas - 1
  }

  lemma {:induction false} AcksGrow(responses: seq<bool>, i: nat)
    requires i <= |responses|
    ensures Acks(responses[..i]) <= Acks(responses)
    decreases |responses| - i
  {
    if i == |responses| {
      assert responses[..i] == responses;
    } else {
      AcksGrow(responses, i + 1);
      assert responses[..i + 1][..i] == responses[..i];
    }
  }

  /** `wait_for_acknowledgments`, given the followers' answers in the order in which they
      come in. It never fails: with too few acknowledgments the record counts as stored
      locally only, and whether it does is all that the answer says. */
  method WaitForAcknowledgments(responses: seq<bool>, minInSyncReplicas: nat) returns (acks: nat, durable: bool)
    ensures durable <==> responses == [] || Required(minInSyncReplicas) <= Acks(responses)
    ensures acks <= Acks(responses) && (durable && responses != [] ==> Required(minInSyncReplicas) <= acks)
  {
    if |responses| == 0 {
      return 0, true;
    }
    acks := 0;
    for i := 0 to |responses|
      invariant acks == Acks(responses[..i])
    {
      assert responses[..i + 1][..i] == responses[..i];
      if responses[i] {
        acks := acks + 1;
        if acks >= Required(minInSyncReplicas) {
          AcksGrow(responses, i + 1);
          return acks, true;
        }
      }
    }
    assert responses[..|responses|] == responses;
    durable := acks >= Required(minInSyncReplicas);
  }

  // --- Overlapping recalculations -----------------------------------------------------------

  /** A recalculation that has chosen its candidate, and then the watermark it has read */
  datatype Recalculation = Recalculation(candidate: nat, seen: Option<nat>)

  datatype State = State(high: nat, calls: map<nat, Recalculation>)

  /** Readers of the follower states do not exclude each other, so that other calls can come
      between a call's load and its store. Without followers, the offset just appended is
      stored as it is. */
  datatype Action = Choose(id: nat, candidate: nat) | Load(id: nat) | Store(id: nat) | Set(offset: nat)

  function Step(s: State, a: Action): State {
    match a
    case Choose(id, candidate) =>
      if id in s.calls then s else s.(calls := s.calls[id := Recalculation(candidate, None)])
    case Load(id) =>
      if id !in s.calls || s.calls[id].seen.Some? then s
      else s.(calls := s.calls[id := s.calls[id].(seen := Some(s.high))])
    case Store(id) =>
      if id !in s.calls || s.calls[id].seen.None? then s
      else
        var call := s.calls[id];
        State(if call.candidate > call.seen.value then call.candidate else s.high, s.calls - {id})
    case Set(offset) => s.(high := offset)
  }

  function Run(s: State, actions: seq<Action>): State
    decreases |actions|
  {
    if actions == [] then s else Step(Run(s, actions[..|actions| - 1]), actions[|actions| - 1])
  }

  /** A call stores a candidate that the watermark has outgrown since the call read it, or an
      offset below the watermark is stored as it is. */
  ghost predicate Lowers(s: State, a: Action) {
    match a
    case Store(id) =>
      id in s.calls && s.calls[id].seen.Some? && s.calls[id].seen.value < s.calls[id].candidate < s.high
    case Set(offset) => offset < s.high
    case _ => false
  }

  lemma RunPrefix(s: State, actions: seq<Action>, k: nat)
    requires k < |actions|
    ensures Run(s, actions[..k + 1]) == Step(Run(s, actions[..k]), actions[k])
  {
    assert actions[..k + 1][..k] == actions[..k];
  }

  /** The k-th step leaves the watermark where it is or raises it. */
  ghost predicate Keeps(s: State, actions: seq<Action>, k: nat)
    requires k < |actions|
  {
    Run(s, actions[..k]).high <= Run(s, actions[..k + 1]).high
  }

  ghost predicate NeverFalls(s: State, actions: seq<Action>) {
    forall k :: 0 <= k < |actions| ==> Keeps(s, actions, k)
  }

  ghost predicate LowersAt(s: State, actions: seq<Action>, k: nat)
    requires k < |actions|
  {
    Lowers(Run(s, actions[..k]), actions[k])
  }

  /** The watermark never falls if and only if no step lowers it in one of these two ways. */
  lemma NeverFallsIff(s: State, actions: seq<Action>)
    ensures NeverFalls(s, actions) <==> forall k :: 0 <= k < |actions| ==> !LowersAt(s, actions, k)
  {
    forall k | 0 <= k < |actions| ensures Keeps(s, actions, k) <==> !LowersAt(s, actions, k) {
      RunPrefix(s, actions, k);
    }
  }

  /** Loads and stores of different calls do not overlap, and nothing below the watermark is
      stored as it is, or while a call is between its load and its store. */
  ghost predicate Orderly(s: State, a: Action) {
    && (a.Load? || a.Set? ==> forall id :: id in s.calls ==> s.calls[id].seen.None?)
    && (a.Set? ==> s.high <= a.offset)
  }

  ghost predicate AllOrderly(s: State, actions: seq<Action>) {
    forall k :: 0 <= k < |actions| ==> Orderly(Run(s, actions[..k]), actions[k])
  }

  ghost predicate LoadedIsCurrent(s: State) {
    && (forall id :: id in s.calls && s.calls[id].seen.Some? ==> s.calls[id].seen.value == s.high)
    && (forall i, j :: i in s.calls && j in s.calls && s.calls[i].seen.Some? && s.calls[j].seen.Some? ==> i == j)
  }

  lemma OrderlyStep(s: State, a: Action)
    requires LoadedIsCurrent(s) && Orderly(s, a)
    ensures LoadedIsCurrent(Step(s, a)) && !Lowers(s, a)
  {
  }

  lemma {:induction false} OrderlyAlong(s: State, actions: seq<Action>, n: nat)
    requires LoadedIsCurrent(s) && AllOrderly(s, actions) && n <= |actions|
    ensures LoadedIsCurrent(Run(s, actions[..n]))
    decreases n
  {
    if n > 0 {
      OrderlyAlong(s, actions, n - 1);
      RunPrefix(s, actions, n - 1);
      OrderlyStep(Run(s, actions[..n - 1]), actions[n - 1]);
    }
  }

  /** While recalculations do not overlap, the watermark never falls. */
  lemma OrderlyNeverFalls(s: State, actions: seq<Action>)
    requires s.calls == map[] && AllOrderly(s, actions)
    ensures NeverFalls(s, actions)
  {
    forall k | 0 <= k < |actions| ensures !LowersAt(s, actions, k) {
      OrderlyAlong(s, actions, k);
      OrderlyStep(Run(s, actions[..k]), actions[k]);
    }
    NeverFallsIff(s, actions);
  }

  /** Two recalculations that overlap take the watermark from 0 to 9 and back to 5. */
  lemma OverlapLowers()
    ensures var both := [Choose(0, 5), Choose(1, 9), Load(0), Load(1), Store(1)];
            && Run(State(0, map[]), both).high == 9
            && Run(State(0, map[]), both + [Store(0)]).high == 5
  {
    var s := State(0, map[]);
    var both := [Choose(0, 5), Choose(1, 9), Load(0), Load(1), Store(1)];
    assert both[..1] == [Choose(0, 5)] && [Choose(0, 5)][..0] == [];
    RunPrefix(s, both, 1);
    RunPrefix(s, both, 2);
    RunPrefix(s, both, 3);
    RunPrefix(s, both, 4);
    assert both[..5] == both;
    assert (both + [Store(0)])[..5] == both;
  }
}
