/** Runs in which the operations on one partition do not overlap (operations on different
    partitions still interleave freely), and what goes wrong when they do. */
module SerialRuns {
  import opened Types
  import opened PartitionLog
  import opened BrokerSteps

  /** A produce call, an addition or a removal starts only when nothing else is under
      way on its partition. */
  ghost predicate Exclusive(s: State, a: Action) {
    match a
    case AddRead(_, tp, _) => s.Idle(tp)
    case Begin(_, tp, _, _) => s.Idle(tp)
    case Remove(tp) => s.Idle(tp)
    case _ => true
  }

  ghost predicate Serial(s: State, actions: seq<Action>) {
    forall k :: 0 <= k < |actions| ==> Exclusive(Run(s, actions[..k]), actions[k])
  }

  // ---------------------------------------------------------------------------
  // Refinement of an append-only log
  // ---------------------------------------------------------------------------

  function End(b: Batch): nat {
    b.base + |b.records|
  }

  /** No two operations under way share a partition. */
  ghost predicate OneAtATime(s: State) {
    && (forall i, j :: i in s.calls && j in s.calls && i != j ==> s.calls[i].tp != s.calls[j].tp)
    && (forall i, j :: i in s.calls && j in s.adds ==> s.calls[i].tp != s.adds[j].tp)
    && (forall i, j :: i in s.adds && j in s.adds && i != j ==> s.adds[i].tp != s.adds[j].tp)
  }

  /** A call in flight works directly above the watermark it started from. */
  ghost predicate CallOnTop(s: State, c: Call) {
    && c.tp in s.core.partitions && s.core.partitions[c.tp].highWatermark == c.base
    && c.written <= c.Writes() && (c.pending ==> c.written < c.Writes())
    && IsRunAt(s.core.LogOf(c.tp), c.base, c.records[..c.Claimed()])
  }

  /** Successful calls on one partition got increasing, disjoint offset ranges. */
  ghost predicate RangesIncrease(acked: seq<Batch>) {
    forall i, j :: 0 <= i < j < |acked| && acked[i].tp == acked[j].tp && acked[i].records != [] ==>
      End(acked[i]) <= acked[j].base
  }

  /** A batch acknowledged to its producer is still there, at its own offsets, and below
      everything that any later call will be given. */
  ghost predicate Kept(s: State, b: Batch) {
    b.records != [] ==>
      && IsRunAt(s.core.LogOf(b.tp), b.base, b.records)
      && (b.tp in s.core.partitions ==> End(b) <= s.core.partitions[b.tp].highWatermark)
      && End(b) <= s.core.LogOf(b.tp).next
  }

  ghost predicate AllKept(s: State) {
    forall i :: 0 <= i < |s.history.acked| ==> Kept(s, s.history.acked[i])
  }

  /** The partition is the append-only log of the records committed since it was last
      added, starting at the watermark it was added with. */
  ghost predicate RefinesLog(s: State, tp: TopicPartition)
    requires tp in s.core.partitions
  {
    && tp in s.history.start && tp in s.history.since
    && s.core.partitions[tp].highWatermark == s.history.start[tp] + |s.history.since[tp]|
    && IsRunAt(s.core.LogOf(tp), s.history.start[tp], s.history.since[tp])
  }

  ghost predicate AllRefineLogs(s: State) {
    forall tp :: tp in s.core.partitions ==> RefinesLog(s, tp)
  }

  ghost predicate CallsOnTop(s: State) {
    forall id :: id in s.calls ==> CallOnTop(s, s.calls[id])
  }

  ghost predicate StoreValid(s: State) {
    forall tp :: tp in s.core.store ==> s.core.store[tp].Valid()
  }

  ghost predicate AddsCurrent(s: State) {
    forall id :: id in s.adds ==> s.adds[id].recovered == s.core.LogOf(s.adds[id].tp).next
  }

  ghost predicate SerialInv(s: State) {
    && OneAtATime(s) && StoreValid(s) && CallsOnTop(s) && AddsCurrent(s)
    && RangesIncrease(s.history.acked) && AllKept(s) && AllRefineLogs(s)
  }

  ghost predicate SameLedger(s: State, s': State) {
    && s'.history.acked == s.history.acked && s'.history.start == s.history.start
    && s'.history.since == s.history.since && s'.history.floor == s.history.floor
  }

  /** From `s` to `s'` at most the entry of `tp` at `offset` changed. */
  ghost predicate OnlyEntry(s: State, s': State, tp: TopicPartition, offset: int) {
    && s'.core.partitions == s.core.partitions && SameLedger(s, s')
    && (forall tp' :: tp' != tp ==> s'.core.LogOf(tp') == s.core.LogOf(tp'))
    && s.core.LogOf(tp).next <= s'.core.LogOf(tp).next
    && (forall o :: o in s.core.LogOf(tp).entries && o != offset ==>
          o in s'.core.LogOf(tp).entries && s'.core.LogOf(tp).entries[o] == s.core.LogOf(tp).entries[o])
  }

  /** A write at or above the watermark leaves everything below it alone. */
  lemma WriteAboveWatermark(s: State, s': State, tp: TopicPartition, offset: int)
    requires AllKept(s) && AllRefineLogs(s) && OnlyEntry(s, s', tp, offset)
    requires tp in s.core.partitions && s.core.partitions[tp].highWatermark <= offset
    ensures AllKept(s') && AllRefineLogs(s')
  {
    forall i | 0 <= i < |s'.history.acked| ensures Kept(s', s'.history.acked[i]) {
      assert Kept(s, s.history.acked[i]);
    }
    forall tp' | tp' in s'.core.partitions ensures RefinesLog(s', tp') {
      assert RefinesLog(s, tp');
    }
  }

  /** The operation behind this call is the only one on its partition. */
  ghost predicate Alone(s: State, id: Id)
    requires id in s.calls
  {
    && (forall i :: i in s.calls && i != id ==> s.calls[i].tp != s.calls[id].tp)
    && (forall i :: i in s.adds ==> s.adds[i].tp != s.calls[id].tp)
  }

  lemma OneAtATimeStep(s: State, a: Action)
    requires OneAtATime(s) && Exclusive(s, a)
    ensures OneAtATime(Step(s, a))
    ensures forall id :: id in s.calls ==> Alone(s, id)
  {
  }

  lemma WriteIsLocal(s: State, a: Action)
    requires (a.Insert? || a.WalFail?) && Enabled(s, a)
    requires s.core.LogOf(s.calls[a.id].tp).Valid()
    ensures var s' := Step(s, a); var c := s.calls[a.id];
            && OnlyEntry(s, s', c.tp, c.Offset())
            && s'.core.LogOf(c.tp).Valid()
            && (a.Insert? ==> && c.Offset() in s'.core.LogOf(c.tp).entries
                              && s'.core.LogOf(c.tp).entries[c.Offset()] == c.records[c.Index()])
  {
  }

  lemma InsertKeepsOwnCall(s: State, s': State, c: Call)
    requires CallOnTop(s, c) && !c.pending && c.written < c.Writes()
    requires OnlyEntry(s, s', c.tp, c.Offset())
    requires c.Offset() in s'.core.LogOf(c.tp).entries
    requires s'.core.LogOf(c.tp).entries[c.Offset()] == c.records[c.Index()]
    ensures CallOnTop(s', c.(pending := true))
  {
  }

  lemma WriteKeepsCalls(s: State, s': State, a: Action)
    requires (a.Insert? || a.WalFail?) && Enabled(s, a) && Alone(s, a.id) && s' == Step(s, a)
    requires CallsOnTop(s) && OnlyEntry(s, s', s.calls[a.id].tp, s.calls[a.id].Offset())
    requires a.Insert? ==> CallOnTop(s', s.calls[a.id].(pending := true))
    ensures CallsOnTop(s')
  {
  }

  lemma WriteKeepsOthers(s: State, a: Action)
    requires (a.Insert? || a.WalFail?) && Enabled(s, a) && Alone(s, a.id)
    requires CallsOnTop(s) && StoreValid(s) && AddsCurrent(s)
    ensures var s' := Step(s, a);
            && CallsOnTop(s') && StoreValid(s') && AddsCurrent(s')
            && OnlyEntry(s, s', s.calls[a.id].tp, s.calls[a.id].Offset())
  {
    var s' := Step(s, a);
    WriteIsLocal(s, a);
    if a.Insert? {
      assert CallOnTop(s, s.calls[a.id]);
      InsertKeepsOwnCall(s, s', s.calls[a.id]);
    }
    WriteKeepsCalls(s, s', a);
  }

  lemma SerialWrite(s: State, a: Action)
    requires AllKept(s) && AllRefineLogs(s) && CallsOnTop(s) && StoreValid(s) && AddsCurrent(s)
    requires (a.Insert? || a.WalFail?) && Enabled(s, a) && Alone(s, a.id)
    ensures var s' := Step(s, a);
            CallsOnTop(s') && StoreValid(s') && AddsCurrent(s') && AllKept(s') && AllRefineLogs(s')
  {
    var c := s.calls[a.id];
    assert CallOnTop(s, c);
    WriteKeepsOthers(s, a);
    WriteAboveWatermark(s, Step(s, a), c.tp, c.Offset());
  }

  lemma SerialAdd(s: State, id: Id)
    requires SerialInv(s) && Enabled(s, AddWrite(id))
    ensures var s' := Step(s, AddWrite(id));
            CallsOnTop(s') && StoreValid(s') && AddsCurrent(s') && AllKept(s') && AllRefineLogs(s')
  {
    var s' := Step(s, AddWrite(id));
    assert forall tp :: s'.core.LogOf(tp) == s.core.LogOf(tp);
    forall i | 0 <= i < |s'.history.acked| ensures Kept(s', s'.history.acked[i]) {
      assert Kept(s, s.history.acked[i]);
    }
    forall tp | tp in s'.core.partitions ensures RefinesLog(s', tp) {
      if tp != s.adds[id].tp {
        assert RefinesLog(s, tp);
      }
    }
    forall i | i in s'.calls ensures CallOnTop(s', s'.calls[i]) {
      assert CallOnTop(s, s.calls[i]);
    }
  }

  lemma CommittedIsKept(s: State, s': State, c: Call)
    requires CallOnTop(s, c) && StoreValid(s) && c.Claimed() == |c.records|
    requires s'.core.LogOf(c.tp) == s.core.LogOf(c.tp)
    requires c.tp in s'.core.partitions ==> s'.core.partitions[c.tp].highWatermark == c.base + |c.records|
    ensures Kept(s', Batch(c.tp, c.base, c.records))
  {
    assert c.records[..c.Claimed()] == c.records;
    if c.records != [] {
      assert c.base + |c.records| - 1 in s.core.LogOf(c.tp).entries;
    }
  }

  lemma CommitKeepsRanges(s: State, b: Batch)
    requires AllKept(s) && RangesIncrease(s.history.acked)
    requires b.tp in s.core.partitions && b.base == s.core.partitions[b.tp].highWatermark
    ensures RangesIncrease(s.history.acked + [b])
  {
  }

  lemma CommitRefinesLog(s: State, s': State, id: Id)
    requires AllRefineLogs(s) && CallsOnTop(s) && Enabled(s, Commit(id)) && s' == Step(s, Commit(id))
    ensures AllRefineLogs(s')
  {
    var c := s.calls[id];
    assert CallOnTop(s, c) && RefinesLog(s, c.tp);
    assert c.records[..c.Claimed()] == c.records;
    forall tp | tp in s'.core.partitions ensures RefinesLog(s', tp) {
      assert RefinesLog(s, tp);
    }
  }

  lemma CommitKeepsAll(s: State, s': State, id: Id)
    requires AllKept(s) && CallsOnTop(s) && StoreValid(s) && Enabled(s, Commit(id)) && s' == Step(s, Commit(id))
    ensures AllKept(s')
  {
    var c := s.calls[id];
    assert CallOnTop(s, c);
    CommittedIsKept(s, s', c);
    forall i | 0 <= i < |s'.history.acked| ensures Kept(s', s'.history.acked[i]) {
      if i < |s.history.acked| {
        assert Kept(s, s.history.acked[i]);
      }
    }
  }

  lemma CommitKeepsCalls(s: State, s': State, id: Id)
    requires CallsOnTop(s) && StoreValid(s) && AddsCurrent(s)
    requires Enabled(s, Commit(id)) && Alone(s, id) && s' == Step(s, Commit(id))
    ensures CallsOnTop(s') && StoreValid(s') && AddsCurrent(s')
  {
  }

  lemma SerialCommit(s: State, id: Id)
    requires SerialInv(s) && Enabled(s, Commit(id)) && Alone(s, id)
    ensures var s' := Step(s, Commit(id));
            && CallsOnTop(s') && StoreValid(s') && AddsCurrent(s')
            && AllKept(s') && AllRefineLogs(s') && RangesIncrease(s'.history.acked)
  {
    var s' := Step(s, Commit(id));
    var c := s.calls[id];
    assert CallOnTop(s, c);
    CommitRefinesLog(s, s', id);
    CommitKeepsAll(s, s', id);
    CommitKeepsCalls(s, s', id);
    CommitKeepsRanges(s, Batch(c.tp, c.base, c.records));
  }

  /** The steps that leave store, watermarks and acknowledged batches as they are. */
  lemma SerialQuiet(s: State, s': State)
    requires AllKept(s) && AllRefineLogs(s)
    requires s'.core.store == s.core.store && s'.history.acked == s.history.acked
    requires s'.history.start == s.history.start && s'.history.since == s.history.since
    requires forall tp :: tp in s'.core.partitions ==>
               tp in s.core.partitions && s'.core.partitions[tp] == s.core.partitions[tp]
    ensures AllKept(s') && AllRefineLogs(s')
  {
  }

  predicate LeavesStore(a: Action) {
    a.AddRead? || a.Remove? || a.Begin? || a.WalOk? || a.Fetch?
  }

  lemma QuietStore(s: State, a: Action)
    requires StoreValid(s) && AddsCurrent(s) && Exclusive(s, a) && LeavesStore(a)
    ensures var s' := Step(s, a); s'.core.store == s.core.store && StoreValid(s') && AddsCurrent(s')
  {
  }

  lemma QuietCall(s: State, a: Action, id: Id)
    requires CallsOnTop(s) && StoreValid(s) && Exclusive(s, a) && LeavesStore(a) && id in Step(s, a).calls
    ensures CallOnTop(Step(s, a), Step(s, a).calls[id])
  {
    if id in s.calls {
      assert CallOnTop(s, s.calls[id]);
    }
  }

  lemma QuietCalls(s: State, a: Action)
    requires CallsOnTop(s) && StoreValid(s) && AddsCurrent(s) && Exclusive(s, a) && LeavesStore(a)
    ensures var s' := Step(s, a); CallsOnTop(s') && StoreValid(s') && AddsCurrent(s')
  {
    QuietStore(s, a);
    forall id | id in Step(s, a).calls ensures CallOnTop(Step(s, a), Step(s, a).calls[id]) {
      QuietCall(s, a, id);
    }
  }

  lemma SerialOther(s: State, a: Action)
    requires SerialInv(s) && Enabled(s, a) && Exclusive(s, a) && OneAtATime(Step(s, a))
    requires !a.Insert? && !a.WalFail? && !a.AddWrite? && !a.Commit?
    ensures SerialInv(Step(s, a))
  {
    SerialQuiet(s, Step(s, a));
    QuietCalls(s, a);
  }

  lemma SerialStep(s: State, a: Action)
    requires SerialInv(s) && Exclusive(s, a)
    ensures SerialInv(Step(s, a))
  {
    OneAtATimeStep(s, a);
    if Enabled(s, a) {
      if a.Insert? || a.WalFail? {
        SerialWrite(s, a);
      } else if a.AddWrite? {
        SerialAdd(s, a.id);
      } else if a.Commit? {
        SerialCommit(s, a.id);
      } else {
        SerialOther(s, a);
      }
    }
  }

  /** In every serial run, failures included, each partition is an append-only log:
      successful calls get increasing disjoint ranges that are contiguous since the
      partition was added, and every acknowledged record stays at its offset. */
  lemma {:induction false} SerialRunRefinesLog(core: Core, actions: seq<Action>)
    requires Fresh(core) && Serial(Init(core), actions)
    ensures SerialInv(Run(Init(core), actions))
    decreases |actions|
  {
    if actions != [] {
      var s := Init(core);
      var n := |actions| - 1;
      assert forall k :: 0 <= k < n ==> actions[..n][..k] == actions[..k];
      SerialRunRefinesLog(core, actions[..n]);
      SerialStep(Run(s, actions[..n]), actions[n]);
    }
  }

  /** A fetch at an offset that a successful call returned starts with exactly the record
      that was produced there; this holds in every state of a serial run. */
  lemma FetchReturnsProduced(s: State, i: nat, k: nat, more: nat)
    requires SerialInv(s) && i < |s.history.acked| && k < |s.history.acked[i].records|
    ensures var b := s.history.acked[i];
            var got := s.core.LogOf(b.tp).Read(b.base + k, more);
            got != [] && got[0] == b.records[k]
  {
  }

  /** Serial runs never leave a hole under a watermark, whatever fails. */
  lemma {:induction false} SerialRunHasNoHole(core: Core, actions: seq<Action>)
    requires Fresh(core) && Serial(Init(core), actions)
    ensures AlwaysSolid(Init(core), actions)
  {
    var s := Init(core);
    forall k | 0 <= k < |actions| ensures !Strikes(Run(s, actions[..k]), actions[k]) {
      assert forall j :: 0 <= j < k ==> actions[..k][..j] == actions[..j];
      SerialRunRefinesLog(core, actions[..k]);
      var here := Run(s, actions[..k]);
      if actions[k].WalFail? && Enabled(here, actions[k]) {
        assert CallOnTop(here, here.calls[actions[k].id]);
      }
    }
    HoleFreeIffNeverStruck(core, actions);
  }

  // ---------------------------------------------------------------------------
  // Overlap
  // ---------------------------------------------------------------------------

  /** The action may change the watermark of this partition. */
  predicate TouchesWatermark(s: State, a: Action, tp: TopicPartition) {
    match a
    case AddWrite(id) => id in s.adds && s.adds[id].tp == tp
    case Remove(tp') => tp' == tp
    case Commit(id) => id in s.calls && s.calls[id].tp == tp
    case _ => false
  }

  lemma WatermarkStep(s: State, a: Action, tp: TopicPartition)
    requires !TouchesWatermark(s, a, tp) && tp in s.core.partitions
    ensures tp in Step(s, a).core.partitions
    ensures Step(s, a).core.partitions[tp] == s.core.partitions[tp]
  {
  }

  lemma {:induction false} WatermarkStays(s: State, actions: seq<Action>, tp: TopicPartition)
    requires forall k :: 0 <= k < |actions| ==> !TouchesWatermark(Run(s, actions[..k]), actions[k], tp)
    requires tp in s.core.partitions
    ensures tp in Run(s, actions).core.partitions
    ensures Run(s, actions).core.partitions[tp] == s.core.partitions[tp]
    decreases |actions|
  {
    if actions != [] {
      var n := |actions| - 1;
      forall k | 0 <= k < n
        ensures !TouchesWatermark(Run(s, actions[..n][..k]), actions[..n][k], tp)
      {
        assert actions[..n][..k] == actions[..k];
      }
      WatermarkStays(s, actions[..n], tp);
      WatermarkStep(Run(s, actions[..n]), actions[n], tp);
    }
  }

  /** Two calls that begin on one partition with no commit, addition or removal on it in
      between are always given the same offsets, whatever else happens. */
  lemma OverlappingCallsCollide(s: State, first: Action, between: seq<Action>, second: Action)
    requires first.Begin? && second.Begin? && first.tp == second.tp
    requires Enabled(s, first)
    requires var s1 := Step(s, first);
             && (forall k :: 0 <= k < |between| ==> !TouchesWatermark(Run(s1, between[..k]), between[k], first.tp))
             && Enabled(Run(s1, between), second)
    ensures var s1 := Step(s, first);
            s1.calls[first.id].base == Step(Run(s1, between), second).calls[second.id].base
  {
    WatermarkStays(Step(s, first), between, first.tp);
  }

  const NO_CORE := Core(map[], map[], 0)

  ghost predicate Reachable(s: State) {
    exists actions :: Run(Init(NO_CORE), actions) == s
  }

  lemma Reach(s: State, a: Action)
    requires Reachable(s)
    ensures Reachable(Step(s, a))
  {
    var actions :| Run(Init(NO_CORE), actions) == s;
    assert (actions + [a])[..|actions|] == actions;
    assert Run(Init(NO_CORE), actions + [a]) == Step(s, a);
  }

  function Rec(value: byte): Record {
    Record(None, [value], [], 0)
  }

  const TP := TopicPartition("t", 0)
  const LEADER := Metadata(0, true)

  /** A leader partition added to an empty broker, and two calls begun on it. */
  function Overlap(): State {
    var s1 := Step(Init(NO_CORE), AddRead(0, TP, LEADER));
    var s2 := Step(s1, AddWrite(0));
    var s3 := Step(s2, Begin(0, TP, [Rec(1)], Leader));
    Step(s3, Begin(1, TP, [Rec(2), Rec(3)], Leader))
  }

  lemma OverlapReachable()
    ensures var s := Overlap();
            && Reachable(s)
            && s.core == Core(map[TP := LEADER], map[], 0)
            && s.calls == map[0 := Call(TP, [Rec(1)], Leader, 0, 0, false),
                              1 := Call(TP, [Rec(2), Rec(3)], Leader, 0, 0, false)]
            && s.history.acked == [] && s.Floor(TP) == 0
  {
    var s0 := Init(NO_CORE);
    assert Run(s0, []) == s0;
    Reach(s0, AddRead(0, TP, LEADER));
    var s1 := Step(s0, AddRead(0, TP, LEADER));
    Reach(s1, AddWrite(0));
    var s2 := Step(s1, AddWrite(0));
    Reach(s2, Begin(0, TP, [Rec(1)], Leader));
    var s3 := Step(s2, Begin(0, TP, [Rec(1)], Leader));
    Reach(s3, Begin(1, TP, [Rec(2), Rec(3)], Leader));
  }

  /** One record of a call goes through the store. */
  lemma Append(s: State, id: Id) returns (s': State)
    requires Reachable(s) && Enabled(s, Insert(id)) && s.calls[id].written < |s.calls[id].records|
    ensures Reachable(s')
    ensures var c := s.calls[id];
            && s'.core == s.core.WithLog(c.tp, s.core.LogOf(c.tp).Insert(c.base + c.written, c.records[c.written]))
            && s'.calls == s.calls[id := c.(written := c.written + 1)]
            && s'.history.acked == s.history.acked && s'.history.floor == s.history.floor
  {
    Reach(s, Insert(id));
    var s1 := Step(s, Insert(id));
    Reach(s1, WalOk(id, 0));
    s' := Step(s1, WalOk(id, 0));
  }

  /** The first record of a call is inserted, cannot be made durable, and is rolled back. */
  lemma FailFirst(s: State, id: Id) returns (s': State)
    requires Reachable(s) && Enabled(s, Insert(id)) && s.calls[id].written == 0 && s.calls[id].records != []
    ensures Reachable(s')
    ensures var c := s.calls[id];
            && s'.core.partitions == s.core.partitions && SameLedger(s, s')
            && c.base !in s'.core.LogOf(c.tp).entries
  {
    Reach(s, Insert(id));
    var s1 := Step(s, Insert(id));
    Reach(s1, WalFail(id));
    s' := Step(s1, WalFail(id));
  }

  /** Both calls have written one record, the second over the first. */
  lemma OneEach() returns (s: State)
    ensures Reachable(s) && s.history.acked == [] && s.core.partitions == map[TP := LEADER]
    ensures s.core.LogOf(TP).entries == map[0 := Rec(2)]
    ensures s.calls == map[0 := Call(TP, [Rec(1)], Leader, 0, 1, false),
                           1 := Call(TP, [Rec(2), Rec(3)], Leader, 0, 1, false)]
  {
    OverlapReachable();
    var s1 := Append(Overlap(), 0);
    s := Append(s1, 1);
  }

  /** Both calls have written their records. */
  lemma BothWritten() returns (s: State)
    ensures Reachable(s) && s.history.acked == [] && s.core.partitions == map[TP := LEADER]
    ensures s.core.LogOf(TP).entries == map[0 := Rec(2), 1 := Rec(3)]
    ensures s.calls == map[0 := Call(TP, [Rec(1)], Leader, 0, 1, false),
                           1 := Call(TP, [Rec(2), Rec(3)], Leader, 0, 2, false)]
  {
    var s1 := OneEach();
    s := Append(s1, 1);
  }

  /** Without exclusion: both calls succeed, offset 0 is handed out twice, the record of
      the first producer is overwritten, and the watermark falls from 2 to 1. */
  lemma OverlapReusesOffsets()
    ensures exists before: State ::
              && Reachable(before)
              && before.core.partitions.Keys == {TP} && before.core.partitions[TP].highWatermark == 2
              && var after := Step(before, Commit(0));
                 && after.history.acked == [Batch(TP, 0, [Rec(2), Rec(3)]), Batch(TP, 0, [Rec(1)])]
                 && after.core.partitions[TP].highWatermark == 1
                 && after.core.LogOf(TP).entries == map[0 := Rec(2), 1 := Rec(3)]
  {
    var s := BothWritten();
    Reach(s, Commit(1));
    CommitEffect(s, 1);
    CommitEffect(Step(s, Commit(1)), 0);
  }

  /** Without exclusion: a failing append removes the record that another producer was
      acknowledged for, and the watermark covers a hole. */
  lemma OverlapLeavesHole()
    ensures exists s: State :: Reachable(s) && !NoHole(s)
  {
    OverlapReachable();
    var s1 := Append(Overlap(), 0);
    Reach(s1, Commit(0));
    var s2 := Step(s1, Commit(0));
    var s := FailFirst(s2, 1);
    assert s.core.partitions[TP].highWatermark == 1;
    assert 0 !in s.core.LogOf(TP).entries;
    assert !PresentTo(s, TP, 1);
  }

  /** A fetch is not bounded by the watermark: it can serve a record that no call has been
      acknowledged for. */
  lemma FetchPassesWatermark()
    ensures exists s: State ::
              && Reachable(s) && s.history.acked == [] && TP in s.core.partitions
              && s.core.partitions[TP].highWatermark == 0 && s.core.LogOf(TP).Read(0, 0) == [Rec(1)]
  {
    OverlapReachable();
    var s := Append(Overlap(), 0);
    assert s.core.LogOf(TP).entries == map[0 := Rec(1)];
  }
}
