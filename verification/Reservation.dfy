/** The reservation object of one partition, over which leaders fence each other: any
    number of nodes acquire it with conditional writes that interleave freely. */
module Reservation {
  import opened Types

  datatype Held = Held(node: string, epoch: nat, failover: nat)

  /** What an attempt last read from object storage */
  datatype Seen = Unread | Absent | Present(held: Held)

  datatype Outcome = Owned | Fenced(currentEpoch: nat)

  datatype Attempt = Attempt(node: string, epoch: nat, tries: nat, seen: Seen, outcome: Option<Outcome>)

  const MAX_CAS_RETRIES := 3

  /** `writes` are the reservations ever stored, `grants` the attempts answered Owned. */
  datatype State = State(stored: Option<Held>, attempts: map<nat, Attempt>, writes: seq<Held>,
                         grants: set<(string, nat)>)

  const INIT := State(None, map[], [], {})

  /** `Put` carries whether the store finds the precondition met; it may refuse spuriously. */
  datatype Action = Begin(id: nat, node: string, epoch: nat) | Get(id: nat) | Put(id: nat, met: bool) | GiveUp(id: nat)

  predicate Waiting(s: State, id: nat) {
    id in s.attempts && s.attempts[id].outcome.None? && s.attempts[id].tries < MAX_CAS_RETRIES
  }

  /** What the attempt asks the store to write: the reservation one takeover later */
  function Wanted(a: Attempt): Held {
    Held(a.node, a.epoch, if a.seen.Present? then a.seen.held.failover + 1 else 0)
  }

  predicate Enabled(s: State, a: Action) {
    match a
    case Begin(id, _, _) => id !in s.attempts
    case Get(id) => Waiting(s, id) && s.attempts[id].seen.Unread?
    case Put(id, met) =>
      && Waiting(s, id) && !s.attempts[id].seen.Unread?
      && (met ==> match s.attempts[id].seen case Absent => s.stored.None? case Present(held) => s.stored == Some(held))
    case GiveUp(id) => id in s.attempts && s.attempts[id].outcome.None? && s.attempts[id].tries == MAX_CAS_RETRIES
  }

  /** The verdict on a reservation that was read: fenced, already owned, or to be taken */
  function Judge(a: Attempt, held: Held): Option<Outcome> {
    if held.epoch > a.epoch || (held.epoch == a.epoch && held.node != a.node) then Some(Fenced(held.epoch))
    else if held.epoch == a.epoch then Some(Owned)
    else None
  }

  function Step(s: State, a: Action): State
    requires Enabled(s, a)
  {
    match a
    case Begin(id, node, epoch) =>
      s.(attempts := s.attempts[id := Attempt(node, epoch, 0, Unread, None)])
    case Get(id) =>
      var t := s.attempts[id];
      if s.stored.None? then s.(attempts := s.attempts[id := t.(seen := Absent)])
      else
        var verdict := Judge(t, s.stored.value);
        s.(attempts := s.attempts[id := t.(seen := Present(s.stored.value), outcome := verdict)],
           grants := if verdict == Some(Owned) then s.grants + {(t.node, t.epoch)} else s.grants)
    case Put(id, met) =>
      var t := s.attempts[id];
      if met then
        State(Some(Wanted(t)), s.attempts[id := t.(outcome := Some(Owned))], s.writes + [Wanted(t)],
              s.grants + {(t.node, t.epoch)})
      else s.(attempts := s.attempts[id := t.(seen := Unread, tries := t.tries + 1)])
    case GiveUp(id) =>
      var t := s.attempts[id];
      var current := if s.stored.Some? then s.stored.value.epoch else t.epoch;
      s.(attempts := s.attempts[id := t.(outcome := Some(Fenced(current)))])
  }

  /** `verify` */
  predicate Verify(s: State, node: string, epoch: nat) {
    s.stored.Some? && s.stored.value.node == node && s.stored.value.epoch == epoch
  }

  // --- Every interleaving -------------------------------------------------------------

  /** Each takeover raises the epoch and counts up; the last one is what is stored. */
  ghost predicate WritesRise(s: State) {
    && (forall i :: 0 <= i < |s.writes| ==> s.writes[i].failover == i)
    && (forall i, j :: 0 <= i < j < |s.writes| ==> s.writes[i].epoch < s.writes[j].epoch)
    && s.stored == if s.writes == [] then None else Some(s.writes[|s.writes| - 1])
  }

  /** Every grant is that of a reservation that was stored. */
  ghost predicate GrantsWritten(s: State) {
    forall g :: g in s.grants ==> exists i :: 0 <= i < |s.writes| && g == (s.writes[i].node, s.writes[i].epoch)
  }

  /** An attempt about to write has seen an older epoch. */
  ghost predicate AttemptsBehind(s: State) {
    forall id :: id in s.attempts && s.attempts[id].outcome.None? && s.attempts[id].seen.Present? ==>
      s.attempts[id].seen.held.epoch < s.attempts[id].epoch
  }

  ghost predicate Inv(s: State) {
    WritesRise(s) && GrantsWritten(s) && AttemptsBehind(s)
  }

  lemma PutKeepsWrites(s: State, id: nat)
    requires Inv(s) && Enabled(s, Put(id, true))
    ensures WritesRise(Step(s, Put(id, true)))
  {
  }

  lemma GrantsKept(s: State, s': State, g: (string, nat), i: nat)
    requires GrantsWritten(s) && s.writes <= s'.writes && s'.grants <= s.grants + {g}
    requires i < |s'.writes| && g == (s'.writes[i].node, s'.writes[i].epoch)
    ensures GrantsWritten(s')
  {
  }

  lemma InvStep(s: State, a: Action)
    requires Inv(s) && Enabled(s, a)
    ensures Inv(Step(s, a))
  {
    var s' := Step(s, a);
    if a.Put? && a.met {
      PutKeepsWrites(s, a.id);
      GrantsKept(s, s', (s.attempts[a.id].node, s.attempts[a.id].epoch), |s.writes|);
    } else if a.Get? && s.stored.Some? && Judge(s.attempts[a.id], s.stored.value) == Some(Owned) {
      GrantsKept(s, s', (s.attempts[a.id].node, s.attempts[a.id].epoch), |s.writes| - 1);
    }
  }

  ghost predicate Follows(before: State, a: Action, s: State) {
    Enabled(before, a) && s == Step(before, a)
  }

  /** The state after a run of possible actions */
  ghost predicate Leads(actions: seq<Action>, s: State)
    decreases |actions|
  {
    if actions == [] then s == INIT
    else
      var init, last := actions[..|actions| - 1], actions[|actions| - 1];
      exists before :: Leads(init, before) && Follows(before, last, s)
  }

  lemma {:induction false} InvRun(actions: seq<Action>, s: State)
    requires Leads(actions, s)
    ensures Inv(s)
    decreases |actions|
  {
    if actions != [] {
      var before :| Leads(actions[..|actions| - 1], before) && Follows(before, actions[|actions| - 1], s);
      InvRun(actions[..|actions| - 1], before);
      InvStep(before, actions[|actions| - 1]);
    }
  }

  /** No two nodes are ever told that they own the partition at the same epoch, */
  lemma OneOwnerPerEpoch(actions: seq<Action>, s: State, first: string, second: string, epoch: nat)
    requires Leads(actions, s) && (first, epoch) in s.grants && (second, epoch) in s.grants
    ensures first == second
  {
    InvRun(actions, s);
    var i :| 0 <= i < |s.writes| && (first, epoch) == (s.writes[i].node, s.writes[i].epoch);
    var j :| 0 <= j < |s.writes| && (second, epoch) == (s.writes[j].node, s.writes[j].epoch);
    assert !(i < j) && !(j < i);
  }

  /** and a node that verifies its reservation holds the newest grant there has been. */
  lemma VerifiedIsNewest(actions: seq<Action>, s: State, node: string, epoch: nat, other: string, granted: nat)
    requires Leads(actions, s) && Verify(s, node, epoch) && (other, granted) in s.grants
    ensures granted < epoch || (granted == epoch && other == node)
  {
    InvRun(actions, s);
    var i :| 0 <= i < |s.writes| && (other, granted) == (s.writes[i].node, s.writes[i].epoch);
    assert i < |s.writes| - 1 || i == |s.writes| - 1;
  }
}
