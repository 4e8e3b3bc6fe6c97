/** The broker core as a transition system: every point at which a produce call, an
    `add_partition` or a fetch can be interleaved with the others is one action. */
module BrokerSteps {
  import opened Types
  import opened PartitionLog

  type Id = nat

  datatype Metadata = Metadata(highWatermark: nat, isLeader: bool)

  /** The fields of the broker core that produce and fetch touch. */
  datatype Core = Core(
    partitions: map<TopicPartition, Metadata>,
    store: map<TopicPartition, Log>,
    total: nat)
  {
    function LogOf(tp: TopicPartition): Log {
      if tp in store then store[tp] else EMPTY_LOG
    }

    function WithLog(tp: TopicPartition, log: Log): Core {
      this.(store := store[tp := log])
    }

    /** Written only if the partition is still there. */
    function WithWatermark(tp: TopicPartition, highWatermark: nat): Core {
      if tp in partitions then
        this.(partitions := partitions[tp := partitions[tp].(highWatermark := highWatermark)])
      else this
    }

    function Counting(records: nat): Core {
      this.(total := total + records)
    }
  }

  /** A produce call past its metadata check. `written` counts its finished store
      writes: first one per record, then, if the call replicates, one more per record
      made by the replication manager. `pending` says that the next write is already
      visible to readers but not yet durable. */
  datatype Call = Call(
    tp: TopicPartition, records: seq<Record>, acks: AcknowledgmentLevel,
    base: nat, written: nat, pending: bool)
  {
    function Writes(): nat {
      if acks.Replicates() then 2 * |records| else |records|
    }

    /** Index of the record that the next write stores. */
    function Index(): int {
      if written < |records| then written else written - |records|
    }

    function Offset(): int {
      base + Index()
    }

    /** Records appended so far, and records replicated so far. */
    function Progress(replication: bool): nat {
      if replication then if written < |records| then 0 else written - |records|
      else if written < |records| then written else |records|
    }

    /** Length of the run of offsets from `base` this call has made visible and still
        counts on. */
    function Claimed(): nat {
      if written < |records| then written + (if pending then 1 else 0) else |records|
    }
  }

  /** An `add_partition` that has read the store's next offset but not yet taken the lock. */
  datatype Add = Add(tp: TopicPartition, metadata: Metadata, recovered: nat)

  datatype Batch = Batch(tp: TopicPartition, base: nat, records: seq<Record>)

  /** What happened so far; no step reads it.
      - `floor`, `start`: the highest and the latest watermark set by `add_partition`
      - `appended`: offsets whose append has succeeded
      - `answered`: offsets for which the replication manager has answered, which it does
        with or without acknowledgments from followers
      - `confirmed`: the most acknowledgments that replicating an offset has gathered
      - `torn`: offsets whose record was rolled back and not written since
      - `acked`: the batches of successful calls, in the order of their commits
      - `since`: per partition, the records committed since its last `add_partition` */
  datatype History = History(
    floor: map<TopicPartition, nat>,
    start: map<TopicPartition, nat>,
    appended: set<(TopicPartition, nat)>,
    answered: set<(TopicPartition, nat)>,
    confirmed: map<(TopicPartition, nat), nat>,
    torn: set<(TopicPartition, nat)>,
    acked: seq<Batch>,
    since: map<TopicPartition, seq<Record>>,
    fetched: nat)

  datatype State = State(
    core: Core, calls: map<Id, Call>, adds: map<Id, Add>, history: History)
  {
    function Floor(tp: TopicPartition): nat {
      if tp in history.floor then history.floor[tp] else 0
    }

    /** No produce call and no `add_partition` is under way on this partition. */
    ghost predicate Idle(tp: TopicPartition) {
      && (forall id :: id in calls ==> calls[id].tp != tp)
      && (forall id :: id in adds ==> adds[id].tp != tp)
    }

    function Ledger(replication: bool): set<(TopicPartition, nat)> {
      if replication then history.answered else history.appended
    }

    function Confirmed(tp: TopicPartition, o: nat): nat {
      if (tp, o) in history.confirmed then history.confirmed[(tp, o)] else 0
    }
  }

  datatype Action =
    | AddRead(id: Id, tp: TopicPartition, metadata: Metadata)
    | AddWrite(id: Id)
    | Remove(tp: TopicPartition)
    | Begin(id: Id, tp: TopicPartition, records: seq<Record>, acks: AcknowledgmentLevel)
    | Insert(id: Id)
    | WalOk(id: Id, confirmations: nat)
    | WalFail(id: Id)
    | Commit(id: Id)
    | Fetch(tp: TopicPartition, offset: nat, more: nat)

  const INITIAL_HISTORY := History(map[], map[], {}, {}, map[], {}, [], map[], 0)

  function Init(core: Core): State {
    State(core, map[], map[], INITIAL_HISTORY)
  }

  /** A broker just built: no partition yet, nothing counted; the store may hold
      records recovered from disk. */
  ghost predicate Fresh(core: Core) {
    && core.partitions == map[] && core.total == 0
    && forall tp :: tp in core.store ==> core.store[tp].Valid()
  }

  predicate Enabled(s: State, a: Action) {
    match a
    case AddRead(id, _, _) => id !in s.adds
    case AddWrite(id) => id in s.adds
    case Remove(_) => true
    case Begin(id, tp, _, _) =>
      id !in s.calls && tp in s.core.partitions && s.core.partitions[tp].isLeader
    case Insert(id) => id in s.calls && !s.calls[id].pending && s.calls[id].written < s.calls[id].Writes()
    case WalOk(id, _) => id in s.calls && s.calls[id].pending && s.calls[id].written < s.calls[id].Writes()
    case WalFail(id) => id in s.calls && s.calls[id].pending && s.calls[id].written < s.calls[id].Writes()
    case Commit(id) => id in s.calls && !s.calls[id].pending && s.calls[id].written == s.calls[id].Writes()
    case Fetch(_, _, _) => true
  }

  /** One step; an action that is not enabled leaves the state as it is. A `Begin` on an
      unknown or not led partition is the early error return of the produce call. */
  function Step(s: State, a: Action): State {
    if !Enabled(s, a) then s else
    match a
    case AddRead(id, tp, metadata) =>
      s.(adds := s.adds[id := Add(tp, metadata, s.core.LogOf(tp).next)])
    case AddWrite(id) =>
      var add := s.adds[id];
      var hw := Max(add.metadata.highWatermark, add.recovered);
      s.(core := s.core.(partitions := s.core.partitions[add.tp := add.metadata.(highWatermark := hw)]),
         adds := s.adds - {id},
         history := s.history.(floor := s.history.floor[add.tp := Max(s.Floor(add.tp), hw)],
                               start := s.history.start[add.tp := hw],
                               since := s.history.since[add.tp := []]))
    case Remove(tp) =>
      s.(core := s.core.(partitions := s.core.partitions - {tp}))
    case Begin(id, tp, records, acks) =>
      s.(calls := s.calls[id := Call(tp, records, acks, s.core.partitions[tp].highWatermark, 0, false)])
    case Insert(id) =>
      var c := s.calls[id];
      s.(core := s.core.WithLog(c.tp, s.core.LogOf(c.tp).Insert(c.Offset(), c.records[c.Index()])),
         calls := s.calls[id := c.(pending := true)],
         history := s.history.(torn := s.history.torn - {(c.tp, c.Offset())}))
    case WalOk(id, confirmations) =>
      var c := s.calls[id];
      s.(calls := s.calls[id := c.(written := c.written + 1, pending := false)],
         history := if c.written < |c.records|
                    then s.history.(appended := s.history.appended + {(c.tp, c.Offset())})
                    else s.history.(answered := s.history.answered + {(c.tp, c.Offset())},
                                    confirmed := s.history.confirmed[
                                      (c.tp, c.Offset()) := Max(s.Confirmed(c.tp, c.Offset()), confirmations)]))
    case WalFail(id) =>
      var c := s.calls[id];
      s.(core := s.core.WithLog(c.tp, s.core.LogOf(c.tp).Remove(c.Offset())), calls := s.calls - {id},
         history := s.history.(torn := s.history.torn + {(c.tp, c.Offset())}))
    case Commit(id) =>
      var c := s.calls[id];
      s.(core := s.core.WithWatermark(c.tp, c.base + |c.records|).Counting(|c.records|),
         calls := s.calls - {id},
         history := s.history.(acked := s.history.acked + [Batch(c.tp, c.base, c.records)],
                               since := if c.tp in s.history.since
                                        then s.history.since[c.tp := s.history.since[c.tp] + c.records]
                                        else s.history.since))
    case Fetch(tp, offset, more) =>
      var n := |s.core.LogOf(tp).Read(offset, more)|;
      s.(core := s.core.Counting(n), history := s.history.(fetched := s.history.fetched + n))
  }

  function Run(s: State, actions: seq<Action>): State
    decreases |actions|
  {
    if actions == [] then s
    else Step(Run(s, actions[..|actions| - 1]), actions[|actions| - 1])
  }

  lemma {:induction false} RunConcat(s: State, first: seq<Action>, second: seq<Action>)
    ensures Run(s, first + second) == Run(Run(s, first), second)
    decreases |second|
  {
    if second == [] {
      assert first + second == first;
    } else {
      var last := |second| - 1;
      RunConcat(s, first, second[..last]);
      assert (first + second)[..|first + second| - 1] == first + second[..last];
    }
  }

  lemma CommitEffect(s: State, id: Id)
    requires Enabled(s, Commit(id))
    ensures var c, s' := s.calls[id], Step(s, Commit(id));
            && s'.core == s.core.WithWatermark(c.tp, c.base + |c.records|).Counting(|c.records|)
            && s'.calls == s.calls - {id} && s'.history.floor == s.history.floor
            && s'.history.acked == s.history.acked + [Batch(c.tp, c.base, c.records)]
  {
  }

  // ---------------------------------------------------------------------------
  // Every interleaving: the watermark only covers offsets that were appended
  // ---------------------------------------------------------------------------

  /** Every offset from the highest watermark ever set by `add_partition` up to `end`
      is in the ledger. */
  ghost predicate CoveredTo(s: State, replication: bool, tp: TopicPartition, end: int) {
    forall o :: s.Floor(tp) <= o < end ==> (tp, o) in s.Ledger(replication)
  }

  ghost predicate CallWritten(s: State, replication: bool, c: Call) {
    && c.written <= c.Writes() && (c.pending ==> c.written < c.Writes())
    && CoveredTo(s, replication, c.tp, c.base + c.Progress(replication))
    && (replication ==> c.acks.Replicates())
  }

  ghost predicate WatermarksCovered(s: State, replication: bool) {
    forall tp :: tp in s.core.partitions ==>
      CoveredTo(s, replication, tp, s.core.partitions[tp].highWatermark)
  }

  ghost predicate CoverInv(s: State, replication: bool) {
    && WatermarksCovered(s, replication)
    && (forall id :: id in s.calls ==> CallWritten(s, replication, s.calls[id]))
  }

  lemma HistoryGrows(s: State, a: Action, replication: bool)
    ensures forall tp :: s.Floor(tp) <= Step(s, a).Floor(tp)
    ensures s.Ledger(replication) <= Step(s, a).Ledger(replication)
  {
  }

  lemma CallsKept(s: State, s': State, replication: bool)
    requires CoverInv(s, replication)
    requires forall tp :: s.Floor(tp) <= s'.Floor(tp)
    requires s.Ledger(replication) <= s'.Ledger(replication)
    ensures forall id :: id in s.calls ==> CallWritten(s', replication, s.calls[id])
    ensures forall tp :: tp in s.core.partitions ==>
              CoveredTo(s', replication, tp, s.core.partitions[tp].highWatermark)
  {
  }

  lemma WrittenCovered(s: State, a: Action, replication: bool)
    requires CoverInv(s, replication) && a.WalOk? && Enabled(s, a)
    ensures CallWritten(Step(s, a), replication, Step(s, a).calls[a.id])
  {
  }

  lemma CoverStep(s: State, a: Action, replication: bool)
    requires CoverInv(s, replication)
    requires replication && a.Begin? ==> a.acks.Replicates()
    ensures CoverInv(Step(s, a), replication)
  {
    HistoryGrows(s, a, replication);
    CallsKept(s, Step(s, a), replication);
    if Enabled(s, a) && a.WalOk? {
      WrittenCovered(s, a, replication);
    } else if Enabled(s, a) && a.Commit? {
      assert CallWritten(Step(s, a), replication, s.calls[a.id]);
    }
  }

  /** In every interleaving of produce calls, failures, removals, additions and fetches,
      each watermark covers only offsets that were appended, and, if all calls replicate,
      only offsets for which the replication manager has answered. */
  lemma {:induction false} WatermarkCoversAppended(core: Core, actions: seq<Action>, replication: bool)
    requires Fresh(core)
    requires replication ==> forall a :: a in actions && a.Begin? ==> a.acks.Replicates()
    ensures CoverInv(Run(Init(core), actions), replication)
    decreases |actions|
  {
    if actions != [] {
      var init := actions[..|actions| - 1];
      WatermarkCoversAppended(core, init, replication);
      CoverStep(Run(Init(core), init), actions[|actions| - 1], replication);
    }
  }

  // ---------------------------------------------------------------------------
  // Holes: a failed append takes the record at its offset away again
  // ---------------------------------------------------------------------------

  ghost predicate PresentTo(s: State, tp: TopicPartition, end: int) {
    forall o :: s.Floor(tp) <= o < end ==> o in s.core.LogOf(tp).entries
  }

  /** No watermark covers an offset whose record is missing from the store. */
  ghost predicate NoHole(s: State) {
    forall tp :: tp in s.core.partitions ==> PresentTo(s, tp, s.core.partitions[tp].highWatermark)
  }

  ghost predicate ClaimsHold(s: State) {
    forall id :: id in s.calls ==> PresentTo(s, s.calls[id].tp, s.calls[id].base + s.calls[id].Claimed())
  }

  ghost predicate CallsSane(s: State) {
    forall id :: id in s.calls ==>
      && s.calls[id].written <= s.calls[id].Writes()
      && (s.calls[id].pending ==> s.calls[id].written < s.calls[id].Writes())
  }

  /** No hole under a watermark, and none under what a call in flight will commit. */
  ghost predicate Solid(s: State) {
    NoHole(s) && ClaimsHold(s) && CallsSane(s)
  }

  /** The failing append strikes an offset that a watermark covers, or that another call
      in flight on the same partition counts on. */
  ghost predicate Strikes(s: State, a: Action) {
    && a.WalFail? && Enabled(s, a)
    && var c := s.calls[a.id];
       && s.Floor(c.tp) <= c.Offset()
       && (|| (c.tp in s.core.partitions && c.Offset() < s.core.partitions[c.tp].highWatermark)
           || (exists id :: id in s.calls && id != a.id && s.calls[id].tp == c.tp
                 && c.Offset() < s.calls[id].base + s.calls[id].Claimed()))
  }

  lemma PresenceKept(s: State, s': State, tp: TopicPartition, end: int)
    requires PresentTo(s, tp, end) && s.Floor(tp) <= s'.Floor(tp)
    requires s.core.LogOf(tp).entries.Keys <= s'.core.LogOf(tp).entries.Keys
    ensures PresentTo(s', tp, end)
  {
  }

  lemma StoreGrows(s: State, a: Action)
    requires !a.WalFail?
    ensures forall tp :: s.Floor(tp) <= Step(s, a).Floor(tp)
    ensures forall tp :: s.core.LogOf(tp).entries.Keys <= Step(s, a).core.LogOf(tp).entries.Keys
  {
  }

  lemma NoHoleUnlessFailure(s: State, a: Action)
    requires Solid(s) && !a.WalFail?
    ensures NoHole(Step(s, a))
  {
    var s' := Step(s, a);
    StoreGrows(s, a);
    forall tp | tp in s'.core.partitions ensures PresentTo(s', tp, s'.core.partitions[tp].highWatermark) {
      if tp in s.core.partitions {
        PresenceKept(s, s', tp, s.core.partitions[tp].highWatermark);
      }
      if a.Commit? && Enabled(s, a) && tp == s.calls[a.id].tp {
        PresenceKept(s, s', tp, s.calls[a.id].base + s.calls[a.id].Claimed());
      }
    }
  }

  /** What a call counts on grows only by a record it has just inserted. */
  lemma ClaimGrows(s: State, a: Action, id: Id)
    requires CallsSane(s) && id in s.calls && id in Step(s, a).calls
    ensures var c, c' := s.calls[id], Step(s, a).calls[id];
            && c'.tp == c.tp && c'.base == c.base
            && (c'.Claimed() <= c.Claimed()
                || (c'.Claimed() == c.Claimed() + 1 && c.base + c.Claimed() in Step(s, a).core.LogOf(c.tp).entries))
  {
  }

  lemma ClaimHoldsUnlessFailure(s: State, a: Action, id: nat)
    requires Solid(s) && !a.WalFail? && id in Step(s, a).calls
    ensures var c := Step(s, a).calls[id]; PresentTo(Step(s, a), c.tp, c.base + c.Claimed())
  {
    var s', c := Step(s, a), Step(s, a).calls[id];
    StoreGrows(s, a);
    if id !in s.calls {
      PresenceKept(s, s', c.tp, s.core.partitions[c.tp].highWatermark);
    } else {
      PresenceKept(s, s', c.tp, s.calls[id].base + s.calls[id].Claimed());
      ClaimGrows(s, a, id);
    }
  }

  lemma CallsStaySane(s: State, a: Action)
    requires CallsSane(s)
    ensures CallsSane(Step(s, a))
  {
  }

  lemma SolidUnlessFailure(s: State, a: Action)
    requires Solid(s) && !a.WalFail?
    ensures Solid(Step(s, a))
  {
    NoHoleUnlessFailure(s, a);
    CallsStaySane(s, a);
    forall id | id in Step(s, a).calls
      ensures var c := Step(s, a).calls[id]; PresentTo(Step(s, a), c.tp, c.base + c.Claimed())
    {
      ClaimHoldsUnlessFailure(s, a, id);
    }
  }

  lemma SolidIffNotStruck(s: State, a: Action)
    requires Solid(s)
    ensures Solid(Step(s, a)) <==> !Strikes(s, a)
  {
    if !(a.WalFail? && Enabled(s, a)) {
      SolidUnlessFailure(s, if a.WalFail? then Commit(a.id) else a);
      if a.WalFail? {
        assert Step(s, a) == s;
      }
    } else {
      var c := s.calls[a.id];
      var s' := Step(s, a);
      var o := c.Offset();
      assert forall tp :: s'.Floor(tp) == s.Floor(tp);
      assert forall tp :: tp != c.tp ==> s'.core.LogOf(tp) == s.core.LogOf(tp);
      assert s'.core.LogOf(c.tp).entries == s.core.LogOf(c.tp).entries - {o};
      if Strikes(s, a) {
        if c.tp in s.core.partitions && o < s.core.partitions[c.tp].highWatermark {
          assert !PresentTo(s', c.tp, s'.core.partitions[c.tp].highWatermark);
        } else {
          var id :|
            id in s.calls && id != a.id && s.calls[id].tp == c.tp && o < s.calls[id].base + s.calls[id].Claimed();
          assert id in s'.calls && !PresentTo(s', c.tp, s'.calls[id].base + s'.calls[id].Claimed());
        }
      } else {
        forall tp | tp in s'.core.partitions ensures PresentTo(s', tp, s'.core.partitions[tp].highWatermark) {
          assert PresentTo(s, tp, s.core.partitions[tp].highWatermark);
        }
        forall id | id in s'.calls
          ensures PresentTo(s', s'.calls[id].tp, s'.calls[id].base + s'.calls[id].Claimed())
        {
          assert PresentTo(s, s.calls[id].tp, s.calls[id].base + s.calls[id].Claimed());
        }
      }
    }
  }

  ghost predicate AlwaysSolid(s: State, actions: seq<Action>) {
    forall k :: 0 <= k <= |actions| ==> Solid(Run(s, actions[..k]))
  }

  ghost predicate NeverStruck(s: State, actions: seq<Action>) {
    forall k :: 0 <= k < |actions| ==> !Strikes(Run(s, actions[..k]), actions[k])
  }

  lemma RunPrefix(s: State, actions: seq<Action>, k: nat)
    requires k < |actions|
    ensures Run(s, actions[..k + 1]) == Step(Run(s, actions[..k]), actions[k])
  {
    assert actions[..k + 1][..k] == actions[..k];
  }

  lemma {:induction false} SolidAlong(s: State, actions: seq<Action>, n: nat)
    requires Solid(s) && NeverStruck(s, actions) && n <= |actions|
    ensures Solid(Run(s, actions[..n]))
    decreases n
  {
    if n > 0 {
      SolidAlong(s, actions, n - 1);
      RunPrefix(s, actions, n - 1);
      SolidIffNotStruck(Run(s, actions[..n - 1]), actions[n - 1]);
    }
  }

  /** A run stays free of holes, now and in everything its calls will commit, if and only
      if none of its failing appends strikes an offset that is in use. */
  lemma {:induction false} HoleFreeIffNeverStruck(core: Core, actions: seq<Action>)
    requires Fresh(core)
    ensures var s := Init(core); AlwaysSolid(s, actions) <==> NeverStruck(s, actions)
  {
    var s := Init(core);
    if NeverStruck(s, actions) {
      forall k | 0 <= k <= |actions| ensures Solid(Run(s, actions[..k])) {
        SolidAlong(s, actions, k);
      }
    } else {
      var k :| 0 <= k < |actions| && Strikes(Run(s, actions[..k]), actions[k]);
      RunPrefix(s, actions, k);
      if Solid(Run(s, actions[..k])) {
        SolidIffNotStruck(Run(s, actions[..k]), actions[k]);
      }
    }
  }

  // ---------------------------------------------------------------------------
  // The message counter
  // ---------------------------------------------------------------------------

  function RecordCount(batches: seq<Batch>): nat {
    if batches == [] then 0
    else RecordCount(batches[..|batches| - 1]) + |batches[|batches| - 1].records|
  }

  lemma CounterStep(s: State, a: Action)
    requires s.core.total == RecordCount(s.history.acked) + s.history.fetched
    ensures Step(s, a).core.total == RecordCount(Step(s, a).history.acked) + Step(s, a).history.fetched
  {
    if Enabled(s, a) && a.Commit? {
      var c := s.calls[a.id];
      assert (s.history.acked + [Batch(c.tp, c.base, c.records)])[..|s.history.acked|] == s.history.acked;
    }
  }

  /** In every interleaving the counter is the number of records of the successful calls
      plus the number of records fetched, and no step lowers it. */
  lemma {:induction false} CounterConserved(core: Core, actions: seq<Action>)
    requires Fresh(core)
    ensures var s := Run(Init(core), actions);
            s.core.total == RecordCount(s.history.acked) + s.history.fetched
    decreases |actions|
  {
    if actions != [] {
      var init := actions[..|actions| - 1];
      CounterConserved(core, init);
      CounterStep(Run(Init(core), init), actions[|actions| - 1]);
    }
  }

  lemma {:induction false} CounterNeverFalls(s: State, actions: seq<Action>)
    ensures s.core.total <= Run(s, actions).core.total
    decreases |actions|
  {
    if actions != [] {
      CounterNeverFalls(s, actions[..|actions| - 1]);
    }
  }
}
