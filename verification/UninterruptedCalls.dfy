/** A produce call that runs to its end without interruption is one particular run of the
    step machine, and its effect is what the sequential model says. */
module UninterruptedCalls {
  import opened Types
  import opened PartitionLog
  import opened BrokerSteps
  import opened BrokerCore

  /** An action of this call after its start. */
  predicate OfCall(a: Action, id: Id) {
    (a.Insert? || a.WalOk? || a.WalFail? || a.Commit?) && a.id == id
  }

  /** Acknowledgments that followers give for each write, as far as it asks for them */
  type Confirmations = nat -> nat

  function WriteActions(id: Id, count: nat, given: Confirmations): (actions: seq<Action>)
    ensures forall k :: 0 <= k < |actions| ==> OfCall(actions[k], id)
  {
    if count == 0 then [] else WriteActions(id, count - 1, given) + [Insert(id), WalOk(id, given(count - 1))]
  }

  /** What a call does after its start, given the write that fails, if any. */
  function Body(id: Id, writes: nat, failAt: nat, given: Confirmations): (actions: seq<Action>)
    ensures forall k :: 0 <= k < |actions| ==> OfCall(actions[k], id)
  {
    if failAt < writes then WriteActions(id, failAt, given) + [Insert(id), WalFail(id)]
    else WriteActions(id, writes, given) + [Commit(id)]
  }

  function Script(id: Id, tp: TopicPartition, records: seq<Record>, acks: AcknowledgmentLevel, failAt: nat,
                  given: Confirmations): seq<Action>
  {
    [Begin(id, tp, records, acks)] + Body(id, Writes(|records|, acks), failAt, given)
  }

  lemma RunSnoc(s: State, actions: seq<Action>, a: Action)
    ensures Run(s, actions + [a]) == Step(Run(s, actions), a)
  {
  }

  /** The log after `count` writes; the second pass over the records changes nothing. */
  function Written(log: Log, base: nat, records: seq<Record>, count: nat): Log {
    log.InsertRun(base, if count <= |records| then records[..count] else records)
  }

  lemma WrittenNext(log: Log, base: nat, records: seq<Record>, count: nat)
    requires count < 2 * |records|
    ensures var i := if count < |records| then count else count - |records|;
            Written(log, base, records, count).Insert(base + i, records[i]) == Written(log, base, records, count + 1)
  {
    if count < |records| {
      assert records[..count + 1][..count] == records[..count];
    } else {
      var all := log.InsertRun(base, records);
      var i := count - |records|;
      assert count == |records| ==> records[..count] == records;
      InsertRunContents(log, base, records);
      assert base + i in all.entries;
      assert all.Insert(base + i, records[i]).entries == all.entries;
    }
  }

  lemma OneWrite(s: State, id: Id, n: nat)
    requires Enabled(s, Insert(id))
    ensures var c := s.calls[id];
            var s' := Step(Step(s, Insert(id)), WalOk(id, n));
            && s'.core == s.core.WithLog(c.tp, s.core.LogOf(c.tp).Insert(c.Offset(), c.records[c.Index()]))
            && s'.calls == s.calls[id := c.(written := c.written + 1)]
  {
  }

  lemma WithLogTwice(core: Core, tp: TopicPartition, first: Log, second: Log)
    ensures core.WithLog(tp, first).WithLog(tp, second) == core.WithLog(tp, second)
    ensures core.WithLog(tp, first).LogOf(tp) == first
  {
  }

  lemma RunWrite(s: State, actions: seq<Action>, id: Id, n: nat)
    requires Enabled(Run(s, actions), Insert(id))
    ensures var s1 := Run(s, actions);
            var c := s1.calls[id];
            var s' := Run(s, actions + [Insert(id), WalOk(id, n)]);
            && s'.core == s1.core.WithLog(c.tp, s1.core.LogOf(c.tp).Insert(c.Offset(), c.records[c.Index()]))
            && s'.calls == s1.calls[id := c.(written := c.written + 1)]
  {
    OneWrite(Run(s, actions), id, n);
    RunSnoc(s, actions, Insert(id));
    RunSnoc(s, actions + [Insert(id)], WalOk(id, n));
    assert actions + [Insert(id), WalOk(id, n)] == actions + [Insert(id)] + [WalOk(id, n)];
  }

  /** `s` and `s'` differ by `count` writes of the call. */
  ghost predicate AfterWrites(s: State, s': State, id: Id, count: nat)
    requires id in s.calls
  {
    var c := s.calls[id];
    && s'.calls == s.calls[id := c.(written := count)]
    && s'.core == (if count == 0 then s.core else
                   s.core.WithLog(c.tp, Written(s.core.LogOf(c.tp), c.base, c.records, count)))
  }

  lemma AfterOneMore(s: State, s1: State, s': State, id: Id, count: nat)
    requires id in s.calls && s.calls[id].written == 0 && !s.calls[id].pending
    requires count < s.calls[id].Writes() && AfterWrites(s, s1, id, count)
    requires var c := s1.calls[id];
             && s'.core == s1.core.WithLog(c.tp, s1.core.LogOf(c.tp).Insert(c.Offset(), c.records[c.Index()]))
             && s'.calls == s1.calls[id := c.(written := c.written + 1)]
    ensures AfterWrites(s, s', id, count + 1)
  {
    var c := s.calls[id];
    var log := s.core.LogOf(c.tp);
    assert s1.core.LogOf(c.tp) == Written(log, c.base, c.records, count);
    WrittenNext(log, c.base, c.records, count);
    WithLogTwice(s.core, c.tp, Written(log, c.base, c.records, count), Written(log, c.base, c.records, count + 1));
  }

  lemma WritesOneMore(s: State, id: Id, count: nat, given: Confirmations)
    requires id in s.calls && s.calls[id].written == 0 && !s.calls[id].pending
    requires count < s.calls[id].Writes() && AfterWrites(s, Run(s, WriteActions(id, count, given)), id, count)
    ensures AfterWrites(s, Run(s, WriteActions(id, count + 1, given)), id, count + 1)
  {
    var actions := WriteActions(id, count, given);
    RunWrite(s, actions, id, given(count));
    AfterOneMore(s, Run(s, actions), Run(s, actions + [Insert(id), WalOk(id, given(count))]), id, count);
    assert WriteActions(id, count + 1, given) == actions + [Insert(id), WalOk(id, given(count))];
  }

  lemma NoWrites(s: State, id: Id, given: Confirmations)
    requires id in s.calls && s.calls[id].written == 0 && !s.calls[id].pending
    ensures AfterWrites(s, Run(s, WriteActions(id, 0, given)), id, 0)
  {
    assert s.calls == s.calls[id := s.calls[id].(written := 0)];
  }

  lemma {:induction false} WritesSoFar(s: State, id: Id, count: nat, given: Confirmations)
    requires id in s.calls && s.calls[id].written == 0 && !s.calls[id].pending
    requires count <= s.calls[id].Writes()
    ensures AfterWrites(s, Run(s, WriteActions(id, count, given)), id, count)
  {
    if count == 0 {
      NoWrites(s, id, given);
    } else {
      WritesSoFar(s, id, count - 1, given);
      WritesOneMore(s, id, count - 1, given);
    }
  }

  lemma FailedWrite(s: State, id: Id)
    requires Enabled(s, Insert(id))
    ensures var c := s.calls[id];
            var s' := Step(Step(s, Insert(id)), WalFail(id));
            var log := s.core.LogOf(c.tp);
            && s'.core == s.core.WithLog(c.tp, log.Insert(c.Offset(), c.records[c.Index()]).Remove(c.Offset()))
            && s'.calls == s.calls - {id}
  {
  }

  lemma RunFailure(s: State, actions: seq<Action>, id: Id)
    requires Enabled(Run(s, actions), Insert(id))
    ensures var s1 := Run(s, actions);
            var c := s1.calls[id];
            var s' := Run(s, actions + [Insert(id), WalFail(id)]);
            var log := s1.core.LogOf(c.tp);
            && s'.core == s1.core.WithLog(c.tp, log.Insert(c.Offset(), c.records[c.Index()]).Remove(c.Offset()))
            && s'.calls == s1.calls - {id}
  {
    FailedWrite(Run(s, actions), id);
    RunSnoc(s, actions, Insert(id));
    RunSnoc(s, actions + [Insert(id)], WalFail(id));
    assert actions + [Insert(id), WalFail(id)] == actions + [Insert(id)] + [WalFail(id)];
  }

  ghost predicate AfterFailure(s: State, s': State, id: Id, failAt: nat)
    requires id in s.calls
  {
    var c := s.calls[id];
    && s'.calls == s.calls - {id}
    && s'.core == s.core.WithLog(c.tp,
         Written(s.core.LogOf(c.tp), c.base, c.records, failAt + 1)
         .Remove(c.base + if failAt < |c.records| then failAt else failAt - |c.records|))
  }

  lemma AfterWritesThenFailure(s: State, s1: State, s': State, id: Id, failAt: nat)
    requires id in s.calls && s.calls[id].written == 0 && !s.calls[id].pending
    requires failAt < s.calls[id].Writes() && AfterWrites(s, s1, id, failAt)
    requires var c := s1.calls[id];
             var log := s1.core.LogOf(c.tp);
             && s'.core == s1.core.WithLog(c.tp, log.Insert(c.Offset(), c.records[c.Index()]).Remove(c.Offset()))
             && s'.calls == s1.calls - {id}
    ensures AfterFailure(s, s', id, failAt)
  {
    var c := s.calls[id];
    var log := s.core.LogOf(c.tp);
    assert s1.core.LogOf(c.tp) == Written(log, c.base, c.records, failAt);
    WrittenNext(log, c.base, c.records, failAt);
  }

  lemma CallFails(s: State, id: Id, failAt: nat, given: Confirmations)
    requires id in s.calls && s.calls[id].written == 0 && !s.calls[id].pending && failAt < s.calls[id].Writes()
    ensures AfterFailure(s, Run(s, WriteActions(id, failAt, given) + [Insert(id), WalFail(id)]), id, failAt)
  {
    var w := WriteActions(id, failAt, given);
    WritesSoFar(s, id, failAt, given);
    RunFailure(s, w, id);
    AfterWritesThenFailure(s, Run(s, w), Run(s, w + [Insert(id), WalFail(id)]), id, failAt);
  }

  ghost predicate AfterSuccess(s: State, s': State, id: Id)
    requires id in s.calls
  {
    var c := s.calls[id];
    && s'.calls == s.calls - {id}
    && s'.core == (if c.records == [] then s.core
                   else s.core.WithLog(c.tp, s.core.LogOf(c.tp).InsertRun(c.base, c.records)))
                  .WithWatermark(c.tp, c.base + |c.records|).Counting(|c.records|)
  }

  lemma AfterWritesThenCommit(s: State, s1: State, s': State, id: Id)
    requires id in s.calls && AfterWrites(s, s1, id, s.calls[id].Writes())
    requires var c := s1.calls[id];
             && s'.core == s1.core.WithWatermark(c.tp, c.base + |c.records|).Counting(|c.records|)
             && s'.calls == s1.calls - {id}
    ensures AfterSuccess(s, s', id)
  {
    var c := s.calls[id];
    assert c.records[..|c.records|] == c.records;
  }

  lemma CallSucceeds(s: State, id: Id, given: Confirmations)
    requires id in s.calls && s.calls[id].written == 0 && !s.calls[id].pending
    ensures AfterSuccess(s, Run(s, WriteActions(id, s.calls[id].Writes(), given) + [Commit(id)]), id)
  {
    var w := WriteActions(id, s.calls[id].Writes(), given);
    WritesSoFar(s, id, s.calls[id].Writes(), given);
    RunSnoc(s, w, Commit(id));
    CommitEffect(Run(s, w), id);
    AfterWritesThenCommit(s, Run(s, w), Run(s, w + [Commit(id)]), id);
  }

  lemma FailureIsOutcome(core: Core, tp: TopicPartition, records: seq<Record>, acks: AcknowledgmentLevel, failAt: nat)
    requires tp in core.partitions && core.partitions[tp].isLeader && failAt < Writes(|records|, acks)
    ensures var base := core.partitions[tp].highWatermark;
            AppendOutcome(core, tp, records, acks, failAt).0 ==
            core.WithLog(tp, Written(core.LogOf(tp), base, records, failAt + 1)
                             .Remove(base + if failAt < |records| then failAt else failAt - |records|))
  {
  }

  /** A call that has just begun, on a partition that is led here */
  ghost predicate Started(s: State, id: Id) {
    && id in s.calls && s.calls[id].written == 0 && !s.calls[id].pending
    && s.calls[id].tp in s.core.partitions && s.core.partitions[s.calls[id].tp] == Metadata(s.calls[id].base, true)
  }

  lemma FailedBody(s: State, id: Id, failAt: nat, given: Confirmations)
    requires Started(s, id) && failAt < s.calls[id].Writes()
    ensures var c := s.calls[id];
            var s' := Run(s, Body(id, c.Writes(), failAt, given));
            s'.calls == s.calls - {id} && s'.core == AppendOutcome(s.core, c.tp, c.records, c.acks, failAt).0
  {
    var c := s.calls[id];
    CallFails(s, id, failAt, given);
    FailureIsOutcome(s.core, c.tp, c.records, c.acks, failAt);
  }

  lemma SuccessIsOutcome(core: Core, tp: TopicPartition, records: seq<Record>, acks: AcknowledgmentLevel, failAt: nat)
    requires tp in core.partitions && core.partitions[tp].isLeader && failAt >= Writes(|records|, acks)
    ensures var base := core.partitions[tp].highWatermark;
            AppendOutcome(core, tp, records, acks, failAt).0 ==
            (if records == [] then core else core.WithLog(tp, core.LogOf(tp).InsertRun(base, records)))
            .WithWatermark(tp, base + |records|).Counting(|records|)
  {
  }

  lemma BodyOutcome(s: State, id: Id, failAt: nat, given: Confirmations)
    requires Started(s, id)
    ensures var c := s.calls[id];
            var s' := Run(s, Body(id, c.Writes(), failAt, given));
            s'.calls == s.calls - {id} && s'.core == AppendOutcome(s.core, c.tp, c.records, c.acks, failAt).0
  {
    var c := s.calls[id];
    if failAt < c.Writes() {
      FailedBody(s, id, failAt, given);
    } else {
      CallSucceeds(s, id, given);
      SuccessIsOutcome(s.core, c.tp, c.records, c.acks, failAt);
    }
  }

  /** Actions of a call that was rejected at its start do nothing. */
  lemma {:induction false} NoSuchCall(s: State, id: Id, actions: seq<Action>)
    requires id !in s.calls
    requires forall k :: 0 <= k < |actions| ==> OfCall(actions[k], id)
    ensures Run(s, actions) == s
    decreases |actions|
  {
    if actions != [] {
      NoSuchCall(s, id, actions[..|actions| - 1]);
    }
  }

  /** From any state of the step machine, running a call to its end without interruption
      has exactly the effect of `AppendOutcome`, however many acknowledgments followers give. */
  lemma UninterruptedCall(s: State, id: Id, tp: TopicPartition, records: seq<Record>, acks: AcknowledgmentLevel,
                          failAt: nat, given: Confirmations)
    requires id !in s.calls
    ensures var s' := Run(s, Script(id, tp, records, acks, failAt, given));
            s'.calls == s.calls && s'.core == AppendOutcome(s.core, tp, records, acks, failAt).0
  {
    var begin := Begin(id, tp, records, acks);
    var s1 := Step(s, begin);
    var body := Body(id, Writes(|records|, acks), failAt, given);
    assert Run(s, [begin]) == s1 by { RunSnoc(s, [], begin); assert [] + [begin] == [begin]; }
    RunConcat(s, [begin], body);
    if Enabled(s, begin) {
      BodyOutcome(s1, id, failAt, given);
      assert s1.calls - {id} == s.calls;
    } else {
      NoSuchCall(s, id, body);
    }
  }
}
