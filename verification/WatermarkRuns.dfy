/** What a watermark vouches for, over every run: exactly when it never covers a missing
    record, and exactly when everything it covers was acknowledged by enough followers. */
module WatermarkRuns {
  import opened Types
  import opened PartitionLog
  import opened BrokerSteps
  import opened SerialRuns

  // --- Missing records ----------------------------------------------------------------

  /** The offset has a record, or lost it. */
  ghost predicate Seen(s: State, tp: TopicPartition, o: nat) {
    o in s.core.LogOf(tp).entries || (tp, o) in s.history.torn
  }

  ghost predicate SeenTo(s: State, tp: TopicPartition, end: int) {
    forall o: nat :: s.Floor(tp) <= o < end ==> Seen(s, tp, o)
  }

  /** An offset is torn only while its record is missing. */
  ghost predicate TornIsMissing(s: State) {
    forall tp, o: nat :: (tp, o) in s.history.torn ==> o !in s.core.LogOf(tp).entries
  }

  ghost predicate SeenInv(s: State) {
    && TornIsMissing(s) && CallsSane(s)
    && (forall tp :: tp in s.core.partitions ==> SeenTo(s, tp, s.core.partitions[tp].highWatermark))
    && (forall id :: id in s.calls ==> SeenTo(s, s.calls[id].tp, s.calls[id].base + s.calls[id].Claimed()))
  }

  /** The step opens a hole: a failing append takes a record from under the watermark, or a
      commit moves the watermark over an offset that was torn away and not written again. */
  ghost predicate Opens(s: State, a: Action) {
    Enabled(s, a)
    && match a
       case WalFail(id) =>
         var c := s.calls[id];
         c.tp in s.core.partitions && s.Floor(c.tp) <= c.Offset() < s.core.partitions[c.tp].highWatermark
       case Commit(id) =>
         var c := s.calls[id];
         c.tp in s.core.partitions
         && exists o: nat :: s.Floor(c.tp) <= o < c.base + |c.records| && (c.tp, o) in s.history.torn
       case _ => false
  }

  lemma SeenStays(s: State, a: Action, tp: TopicPartition, end: int)
    requires SeenTo(s, tp, end)
    ensures SeenTo(Step(s, a), tp, end)
  {
    var s' := Step(s, a);
    assert s.Floor(tp) <= s'.Floor(tp);
    forall o: nat | s'.Floor(tp) <= o < end ensures Seen(s', tp, o) {
      assert Seen(s, tp, o);
    }
  }

  lemma TornStep(s: State, a: Action)
    requires TornIsMissing(s)
    ensures TornIsMissing(Step(s, a))
  {
  }

  lemma SeenOneMore(s: State, tp: TopicPartition, end: nat)
    requires SeenTo(s, tp, end) && end in s.core.LogOf(tp).entries
    ensures SeenTo(s, tp, end + 1)
  {
  }

  lemma SeenCall(s: State, a: Action, id: Id)
    requires SeenInv(s) && id in Step(s, a).calls
    ensures var c := Step(s, a).calls[id]; SeenTo(Step(s, a), c.tp, c.base + c.Claimed())
  {
    var s', c := Step(s, a), Step(s, a).calls[id];
    if id in s.calls {
      SeenStays(s, a, c.tp, s.calls[id].base + s.calls[id].Claimed());
      ClaimGrows(s, a, id);
      if c.Claimed() > s.calls[id].Claimed() {
        SeenOneMore(s', c.tp, c.base + s.calls[id].Claimed());
      }
    } else {
      SeenStays(s, a, c.tp, s.core.partitions[c.tp].highWatermark);
    }
  }

  lemma SeenWatermark(s: State, a: Action, tp: TopicPartition)
    requires SeenInv(s) && tp in Step(s, a).core.partitions
    ensures SeenTo(Step(s, a), tp, Step(s, a).core.partitions[tp].highWatermark)
  {
    if tp in s.core.partitions {
      SeenStays(s, a, tp, s.core.partitions[tp].highWatermark);
    }
    if a.Commit? && Enabled(s, a) {
      SeenStays(s, a, s.calls[a.id].tp, s.calls[a.id].base + s.calls[a.id].Claimed());
    }
  }

  lemma SeenStep(s: State, a: Action)
    requires SeenInv(s)
    ensures SeenInv(Step(s, a))
  {
    var s' := Step(s, a);
    TornStep(s, a);
    CallsStaySane(s, a);
    forall tp | tp in s'.core.partitions ensures SeenTo(s', tp, s'.core.partitions[tp].highWatermark) {
      SeenWatermark(s, a, tp);
    }
    forall id | id in s'.calls ensures SeenTo(s', s'.calls[id].tp, s'.calls[id].base + s'.calls[id].Claimed()) {
      SeenCall(s, a, id);
    }
  }

  lemma NoHoleAtCommit(s: State, id: Id)
    requires SeenInv(s) && NoHole(s) && Enabled(s, Commit(id))
    ensures NoHole(Step(s, Commit(id))) <==> !Opens(s, Commit(id))
  {
    var s', c := Step(s, Commit(id)), s.calls[id];
    assert forall tp :: s'.core.LogOf(tp) == s.core.LogOf(tp) && s'.Floor(tp) == s.Floor(tp);
    assert SeenTo(s, c.tp, c.base + c.Claimed());
    if c.tp in s.core.partitions {
      if o: nat :| s.Floor(c.tp) <= o < c.base + |c.records| && (c.tp, o) in s.history.torn {
        assert !PresentTo(s', c.tp, s'.core.partitions[c.tp].highWatermark);
      } else {
        forall o: nat | s.Floor(c.tp) <= o < c.base + |c.records| ensures o in s.core.LogOf(c.tp).entries {
          assert Seen(s, c.tp, o);
        }
      }
    }
    forall tp | tp in s'.core.partitions && tp != c.tp ensures PresentTo(s', tp, s'.core.partitions[tp].highWatermark) {
      assert PresentTo(s, tp, s.core.partitions[tp].highWatermark);
    }
  }

  lemma NoHoleAtFailure(s: State, id: Id)
    requires NoHole(s) && Enabled(s, WalFail(id))
    ensures NoHole(Step(s, WalFail(id))) <==> !Opens(s, WalFail(id))
  {
    var s', c := Step(s, WalFail(id)), s.calls[id];
    assert forall tp :: s'.Floor(tp) == s.Floor(tp) && (tp != c.tp ==> s'.core.LogOf(tp) == s.core.LogOf(tp));
    assert s'.core.LogOf(c.tp).entries == s.core.LogOf(c.tp).entries - {c.Offset()};
    if Opens(s, WalFail(id)) {
      assert !PresentTo(s', c.tp, s'.core.partitions[c.tp].highWatermark);
    } else {
      forall tp | tp in s'.core.partitions ensures PresentTo(s', tp, s'.core.partitions[tp].highWatermark) {
        assert PresentTo(s, tp, s.core.partitions[tp].highWatermark);
      }
    }
  }

  lemma NoHoleOtherwise(s: State, a: Action)
    requires NoHole(s) && !(Enabled(s, a) && (a.Commit? || a.WalFail?))
    ensures NoHole(Step(s, a))
  {
    var s' := Step(s, a);
    if !a.WalFail? {
      StoreGrows(s, a);
      forall tp | tp in s'.core.partitions ensures PresentTo(s', tp, s'.core.partitions[tp].highWatermark) {
        if tp in s.core.partitions {
          PresenceKept(s, s', tp, s.core.partitions[tp].highWatermark);
        }
      }
    }
  }

  lemma NoHoleIffNotOpened(s: State, a: Action)
    requires SeenInv(s) && NoHole(s)
    ensures NoHole(Step(s, a)) <==> !Opens(s, a)
  {
    if Enabled(s, a) && a.Commit? {
      NoHoleAtCommit(s, a.id);
    } else if Enabled(s, a) && a.WalFail? {
      NoHoleAtFailure(s, a.id);
    } else {
      NoHoleOtherwise(s, a);
    }
  }

  lemma {:induction false} SeenRun(s: State, actions: seq<Action>)
    requires SeenInv(s)
    ensures SeenInv(Run(s, actions))
    decreases |actions|
  {
    if actions != [] {
      SeenRun(s, actions[..|actions| - 1]);
      SeenStep(Run(s, actions[..|actions| - 1]), actions[|actions| - 1]);
    }
  }

  ghost predicate NeverOpens(s: State, actions: seq<Action>) {
    forall k :: 0 <= k < |actions| ==> !Opens(Run(s, actions[..k]), actions[k])
  }

  ghost predicate AlwaysNoHole(s: State, actions: seq<Action>) {
    forall k :: 0 <= k <= |actions| ==> NoHole(Run(s, actions[..k]))
  }

  lemma {:induction false} NoHoleAlong(s: State, actions: seq<Action>, n: nat)
    requires SeenInv(s) && NoHole(s) && NeverOpens(s, actions) && n <= |actions|
    ensures NoHole(Run(s, actions[..n]))
    decreases n
  {
    if n > 0 {
      NoHoleAlong(s, actions, n - 1);
      RunPrefix(s, actions, n - 1);
      SeenRun(s, actions[..n - 1]);
      NoHoleIffNotOpened(Run(s, actions[..n - 1]), actions[n - 1]);
    }
  }

  /** In every interleaving, no watermark ever covers a missing record if and only if no
      append fails below the watermark and no call commits over an offset that was torn
      away and not written again. */
  lemma NoHoleIffNeverOpens(core: Core, actions: seq<Action>)
    requires Fresh(core)
    ensures AlwaysNoHole(Init(core), actions) <==> NeverOpens(Init(core), actions)
  {
    var s := Init(core);
    if NeverOpens(s, actions) {
      forall k | 0 <= k <= |actions| ensures NoHole(Run(s, actions[..k])) {
        NoHoleAlong(s, actions, k);
      }
    }
    if AlwaysNoHole(s, actions) {
      forall k | 0 <= k < |actions| ensures !Opens(Run(s, actions[..k]), actions[k]) {
        RunPrefix(s, actions, k);
        SeenRun(s, actions[..k]);
        assert NoHole(Run(s, actions[..k + 1]));
        NoHoleIffNotOpened(Run(s, actions[..k]), actions[k]);
      }
    }
  }

  // --- Acknowledgments of followers -----------------------------------------------------

  /** From the highest watermark set by `add_partition` up to `end`, every offset has had
      at least `n` acknowledgments from followers. */
  ghost predicate ConfirmedTo(s: State, n: nat, tp: TopicPartition, end: int) {
    forall o: nat :: s.Floor(tp) <= o < end ==> s.Confirmed(tp, o) >= n
  }

  ghost predicate WatermarksConfirmed(s: State, n: nat) {
    forall tp :: tp in s.core.partitions ==> ConfirmedTo(s, n, tp, s.core.partitions[tp].highWatermark)
  }

  ghost predicate BasesConfirmed(s: State, n: nat) {
    forall id :: id in s.calls ==> ConfirmedTo(s, n, s.calls[id].tp, s.calls[id].base)
  }

  /** A call commits with fewer acknowledgments than `n` for one of its own records. */
  ghost predicate CommitsShort(s: State, a: Action, n: nat) {
    && a.Commit? && Enabled(s, a)
    && var c := s.calls[a.id];
       && c.tp in s.core.partitions
       && exists o: nat :: s.Floor(c.tp) <= o && c.base <= o < c.base + |c.records| && s.Confirmed(c.tp, o) < n
  }

  lemma ConfirmedStays(s: State, a: Action, n: nat, tp: TopicPartition, end: int)
    requires ConfirmedTo(s, n, tp, end)
    ensures ConfirmedTo(Step(s, a), n, tp, end)
  {
    var s' := Step(s, a);
    assert s.Floor(tp) <= s'.Floor(tp);
    forall o: nat | s'.Floor(tp) <= o < end ensures s'.Confirmed(tp, o) >= n {
      assert s.Confirmed(tp, o) >= n;
    }
  }

  lemma BasesStep(s: State, a: Action, n: nat)
    requires WatermarksConfirmed(s, n) && BasesConfirmed(s, n)
    ensures BasesConfirmed(Step(s, a), n)
  {
    var s' := Step(s, a);
    forall id | id in s'.calls ensures ConfirmedTo(s', n, s'.calls[id].tp, s'.calls[id].base) {
      if id in s.calls {
        ConfirmedStays(s, a, n, s.calls[id].tp, s.calls[id].base);
      } else {
        ConfirmedStays(s, a, n, a.tp, s.core.partitions[a.tp].highWatermark);
      }
    }
  }

  lemma ConfirmedAtCommit(s: State, id: Id, n: nat)
    requires WatermarksConfirmed(s, n) && BasesConfirmed(s, n) && Enabled(s, Commit(id))
    ensures WatermarksConfirmed(Step(s, Commit(id)), n) <==> !CommitsShort(s, Commit(id), n)
  {
    var s', c := Step(s, Commit(id)), s.calls[id];
    assert s'.history.confirmed == s.history.confirmed && s'.history.floor == s.history.floor;
    assert ConfirmedTo(s, n, c.tp, c.base);
    if c.tp in s.core.partitions {
      if o: nat :| s.Floor(c.tp) <= o && c.base <= o < c.base + |c.records| && s.Confirmed(c.tp, o) < n {
        assert s'.Confirmed(c.tp, o) < n;
        assert !ConfirmedTo(s', n, c.tp, s'.core.partitions[c.tp].highWatermark);
      } else {
        forall o: nat | s'.Floor(c.tp) <= o < c.base + |c.records| ensures s'.Confirmed(c.tp, o) >= n {
          assert s'.Confirmed(c.tp, o) == s.Confirmed(c.tp, o);
        }
      }
    }
    forall tp | tp in s'.core.partitions && tp != c.tp
      ensures ConfirmedTo(s', n, tp, s'.core.partitions[tp].highWatermark)
    {
      ConfirmedStays(s, Commit(id), n, tp, s.core.partitions[tp].highWatermark);
    }
  }

  lemma ConfirmedOtherwise(s: State, a: Action, n: nat)
    requires WatermarksConfirmed(s, n) && !(a.Commit? && Enabled(s, a))
    ensures WatermarksConfirmed(Step(s, a), n)
  {
    var s' := Step(s, a);
    forall tp | tp in s'.core.partitions ensures ConfirmedTo(s', n, tp, s'.core.partitions[tp].highWatermark) {
      if tp in s.core.partitions {
        ConfirmedStays(s, a, n, tp, s.core.partitions[tp].highWatermark);
      }
    }
  }

  lemma ConfirmedIffNotShort(s: State, a: Action, n: nat)
    requires WatermarksConfirmed(s, n) && BasesConfirmed(s, n)
    ensures WatermarksConfirmed(Step(s, a), n) <==> !CommitsShort(s, a, n)
  {
    if a.Commit? && Enabled(s, a) {
      ConfirmedAtCommit(s, a.id, n);
    } else {
      ConfirmedOtherwise(s, a, n);
    }
  }

  ghost predicate AlwaysConfirmed(s: State, actions: seq<Action>, n: nat) {
    forall k :: 0 <= k <= |actions| ==> WatermarksConfirmed(Run(s, actions[..k]), n)
  }

  ghost predicate NeverShort(s: State, actions: seq<Action>, n: nat) {
    forall k :: 0 <= k < |actions| ==> !CommitsShort(Run(s, actions[..k]), actions[k], n)
  }

  lemma {:induction false} ConfirmedAlong(s: State, actions: seq<Action>, n: nat, m: nat)
    requires WatermarksConfirmed(s, n) && BasesConfirmed(s, n) && NeverShort(s, actions, n) && m <= |actions|
    ensures WatermarksConfirmed(Run(s, actions[..m]), n) && BasesConfirmed(Run(s, actions[..m]), n)
    decreases m
  {
    if m > 0 {
      ConfirmedAlong(s, actions, n, m - 1);
      RunPrefix(s, actions, m - 1);
      ConfirmedIffNotShort(Run(s, actions[..m - 1]), actions[m - 1], n);
      BasesStep(Run(s, actions[..m - 1]), actions[m - 1], n);
    }
  }

  lemma {:induction false} BasesAlong(s: State, actions: seq<Action>, n: nat, m: nat)
    requires BasesConfirmed(s, n) && AlwaysConfirmed(s, actions, n) && m <= |actions|
    ensures BasesConfirmed(Run(s, actions[..m]), n)
    decreases m
  {
    if m > 0 {
      BasesAlong(s, actions, n, m - 1);
      RunPrefix(s, actions, m - 1);
      BasesStep(Run(s, actions[..m - 1]), actions[m - 1], n);
    }
  }

  /** In every interleaving and for every `n`, everything the watermarks cover has been
      acknowledged by `n` followers if and only if no call commits while one of its own
      records has fewer acknowledgments. Nothing in a call prevents that. */
  lemma CoveredIsConfirmedIff(core: Core, actions: seq<Action>, n: nat)
    requires Fresh(core)
    ensures AlwaysConfirmed(Init(core), actions, n) <==> NeverShort(Init(core), actions, n)
  {
    var s := Init(core);
    if NeverShort(s, actions, n) {
      forall k | 0 <= k <= |actions| ensures WatermarksConfirmed(Run(s, actions[..k]), n) {
        ConfirmedAlong(s, actions, n, k);
      }
    }
    if AlwaysConfirmed(s, actions, n) {
      forall k | 0 <= k < |actions| ensures !CommitsShort(Run(s, actions[..k]), actions[k], n) {
        RunPrefix(s, actions, k);
        BasesAlong(s, actions, n, k);
        assert WatermarksConfirmed(Run(s, actions[..k]), n) && WatermarksConfirmed(Run(s, actions[..k + 1]), n);
        ConfirmedIffNotShort(Run(s, actions[..k]), actions[k], n);
      }
    }
  }

  // --- Two runs ---------------------------------------------------------------------------

  /** A leader partition with a call of one record begun on it */
  lemma Begun(acks: AcknowledgmentLevel) returns (s: State)
    ensures Reachable(s) && s.core == Core(map[TP := LEADER], map[], 0)
    ensures s.calls == map[0 := Call(TP, [Rec(1)], acks, 0, 0, false)]
    ensures s.history == INITIAL_HISTORY.(floor := map[TP := 0], start := map[TP := 0], since := map[TP := []])
  {
    var s0 := Init(NO_CORE);
    assert Run(s0, []) == s0;
    Reach(s0, AddRead(0, TP, LEADER));
    var s1 := Step(s0, AddRead(0, TP, LEADER));
    Reach(s1, AddWrite(0));
    var s2 := Step(s1, AddWrite(0));
    Reach(s2, Begin(0, TP, [Rec(1)], acks));
    s := Step(s2, Begin(0, TP, [Rec(1)], acks));
  }

  /** One write of a call goes through the store; the second pass over its records is made
      by the replication manager, which has gathered so many acknowledgments. */
  lemma Wrote(s: State, id: Id, confirmations: nat) returns (s': State)
    requires Reachable(s) && Enabled(s, Insert(id))
    ensures Reachable(s')
    ensures var c := s.calls[id];
            && s'.core == s.core.WithLog(c.tp, s.core.LogOf(c.tp).Insert(c.Offset(), c.records[c.Index()]))
            && s'.calls == s.calls[id := c.(written := c.written + 1)]
            && s'.history.acked == s.history.acked && s'.history.floor == s.history.floor
            && (c.written < |c.records| ==>
                  s'.history.answered == s.history.answered && s'.history.confirmed == s.history.confirmed)
            && (c.written >= |c.records| ==>
                  && s'.history.answered == s.history.answered + {(c.tp, c.Offset())}
                  && s'.Confirmed(c.tp, c.Offset()) == Max(s.Confirmed(c.tp, c.Offset()), confirmations))
  {
    Reach(s, Insert(id));
    var s1 := Step(s, Insert(id));
    Reach(s1, WalOk(id, confirmations));
    s' := Step(s1, WalOk(id, confirmations));
  }

  /** A call that asks for a majority is acknowledged, and the watermark covers its record,
      although no follower has acknowledged it. */
  lemma AcknowledgedAlone()
    ensures exists s: State ::
              && Reachable(s) && s.history.acked == [Batch(TP, 0, [Rec(1)])] && (TP, 0) in s.history.answered
              && TP in s.core.partitions && s.core.partitions[TP].highWatermark == 1 && s.Floor(TP) == 0
              && s.Confirmed(TP, 0) == 0
  {
    var s0 := Begun(Majority);
    var s1 := Wrote(s0, 0, 0);
    var s2 := Wrote(s1, 0, 0);
    Reach(s2, Commit(0));
    var s := Step(s2, Commit(0));
    CommitEffect(s2, 0);
    assert s.history.answered == s2.history.answered && s.history.confirmed == s2.history.confirmed;
  }

  lemma Began(s: State, id: Id, records: seq<Record>) returns (s': State)
    requires Reachable(s) && id !in s.calls && TP in s.core.partitions && s.core.partitions[TP] == LEADER
    ensures Reachable(s') && s' == s.(calls := s.calls[id := Call(TP, records, Leader, 0, 0, false)])
  {
    Reach(s, Begin(id, TP, records, Leader));
    s' := Step(s, Begin(id, TP, records, Leader));
  }

  lemma Inserted(s: State, id: Id) returns (s': State)
    requires Reachable(s) && Enabled(s, Insert(id))
    ensures Reachable(s') && SameLedger(s, s')
    ensures var c := s.calls[id];
            && s'.core == s.core.WithLog(c.tp, s.core.LogOf(c.tp).Insert(c.Offset(), c.records[c.Index()]))
            && s'.calls == s.calls[id := c.(pending := true)]
  {
    Reach(s, Insert(id));
    s' := Step(s, Insert(id));
  }

  lemma Failed(s: State, id: Id) returns (s': State)
    requires Reachable(s) && Enabled(s, WalFail(id))
    ensures Reachable(s') && SameLedger(s, s') && s'.calls == s.calls - {id}
    ensures var c := s.calls[id]; s'.core == s.core.WithLog(c.tp, s.core.LogOf(c.tp).Remove(c.Offset()))
  {
    Reach(s, WalFail(id));
    s' := Step(s, WalFail(id));
  }

  lemma Committed(s: State, id: Id) returns (s': State)
    requires Reachable(s) && Enabled(s, Commit(id)) && s.calls[id].tp in s.core.partitions
    ensures Reachable(s')
    ensures var c := s.calls[id];
            && s'.core.store == s.core.store
            && s'.core.partitions
               == s.core.partitions[c.tp := s.core.partitions[c.tp].(highWatermark := c.base + |c.records|)]
            && s'.history.acked == s.history.acked + [Batch(c.tp, c.base, c.records)]
  {
    Reach(s, Commit(id));
    s' := Step(s, Commit(id));
    CommitEffect(s, id);
  }

  /** A replicating call has appended its record, and another call has inserted its own at the
      same offset. */
  lemma Overlapped() returns (s: State)
    ensures Reachable(s) && s.core.partitions == map[TP := LEADER] && s.history.acked == [] && s.Floor(TP) == 0
    ensures s.calls == map[0 := Call(TP, [Rec(1)], Majority, 0, 1, false), 1 := Call(TP, [Rec(2)], Leader, 0, 0, true)]
    ensures s.core.LogOf(TP).entries == map[0 := Rec(2)]
  {
    var s0 := Begun(Majority);
    var s1 := Wrote(s0, 0, 0);
    var s2 := Began(s1, 1, [Rec(2)]);
    s := Inserted(s2, 1);
  }

  lemma Healed(s: State) returns (s': State)
    requires Reachable(s) && s.core.partitions == map[TP := LEADER] && s.history.acked == []
    requires s.calls == map[0 := Call(TP, [Rec(1)], Majority, 0, 1, false), 1 := Call(TP, [Rec(2)], Leader, 0, 0, true)]
    requires s.core.LogOf(TP).entries == map[0 := Rec(2)]
    ensures Reachable(s') && s'.history.acked == [Batch(TP, 0, [Rec(1)])]
    ensures s'.core.partitions == map[TP := Metadata(1, true)]
    ensures s'.core.LogOf(TP).entries == map[0 := Rec(1)]
  {
    var s1 := Failed(s, 1);
    var s2 := Wrote(s1, 0, 0);
    s' := Committed(s2, 0);
  }

  ghost predicate StrikesOnly(s: State, a: Action) {
    Strikes(s, a) && !Opens(s, a)
  }

  /** A failing append can strike an offset that another call counts on and still leave no
      hole: the second write of the replicating call puts the record back before it commits. */
  lemma StruckAndHealed() returns (s: State, s': State)
    ensures Reachable(s) && StrikesOnly(s, WalFail(1)) && Reachable(s')
    ensures s'.history.acked == [Batch(TP, 0, [Rec(1)])] && s'.core.partitions == map[TP := Metadata(1, true)]
    ensures s'.core.LogOf(TP).entries == map[0 := Rec(1)]
  {
    s := Overlapped();
    assert Strikes(s, WalFail(1)) by {
      assert 0 in s.calls && s.calls[0].tp == TP && 0 < s.calls[0].base + s.calls[0].Claimed();
    }
    s' := Healed(s);
  }
}
