/** `MessageProducer` and the produce handler over the broker core. The clock reading with
    which a record is framed is a field of the request. */
module Producer {
  import opened Types
  import opened PartitionLog
  import opened BrokerSteps
  import opened BrokerCore

  datatype ProduceRecord = ProduceRecord(
    topic: string, partition: Option<nat>, key: Option<Bytes>, value: Bytes, headers: seq<Header>,
    acks: AcknowledgmentLevel, timestamp: int)

  datatype ProduceResult = ProduceResult(tp: TopicPartition, offset: nat)

  function Target(r: ProduceRecord): TopicPartition {
    TopicPartition(r.topic, if r.partition.Some? then r.partition.value else 0)
  }

  function Framed(r: ProduceRecord): Record {
    Record(r.key, r.value, r.headers, r.timestamp)
  }

  function Targets(records: seq<ProduceRecord>): set<TopicPartition> {
    set r | r in records :: Target(r)
  }

  /** The records for one partition, in their original order. */
  function GroupOf(records: seq<ProduceRecord>, tp: TopicPartition): seq<Record> {
    if records == [] then []
    else
      var last := |records| - 1;
      GroupOf(records[..last], tp) + if Target(records[last]) == tp then [Framed(records[last])] else []
  }

  /** The acknowledgment level of the first record for a partition. */
  ghost predicate FirstAcks(records: seq<ProduceRecord>, tp: TopicPartition, acks: AcknowledgmentLevel) {
    exists i :: 0 <= i < |records| && Target(records[i]) == tp && records[i].acks == acks
                && forall j :: 0 <= j < i ==> Target(records[j]) != tp
  }

  type Groups = map<TopicPartition, (seq<Record>, AcknowledgmentLevel)>

  ghost predicate GroupsOf(grouped: Groups, records: seq<ProduceRecord>) {
    && grouped.Keys == Targets(records)
    && (forall tp :: tp in grouped ==>
          grouped[tp].0 == GroupOf(records, tp) && FirstAcks(records, tp, grouped[tp].1))
  }

  lemma {:induction false} GroupAbsent(records: seq<ProduceRecord>, tp: TopicPartition)
    requires forall j :: 0 <= j < |records| ==> Target(records[j]) != tp
    ensures GroupOf(records, tp) == []
    decreases |records|
  {
    if records != [] {
      GroupAbsent(records[..|records| - 1], tp);
    }
  }

  lemma GroupStep(records: seq<ProduceRecord>, i: nat, tp: TopicPartition)
    requires i < |records|
    ensures GroupOf(records[..i + 1], tp) ==
            GroupOf(records[..i], tp) + if Target(records[i]) == tp then [Framed(records[i])] else []
    ensures tp !in Targets(records[..i]) ==> GroupOf(records[..i], tp) == []
  {
    assert records[..i + 1][..i] == records[..i];
    if tp !in Targets(records[..i]) {
      forall j | 0 <= j < i ensures Target(records[j]) != tp {
        assert records[j] in records[..i];
      }
      GroupAbsent(records[..i], tp);
    }
  }

  /** A later record does not change which one came first. */
  lemma FirstAcksKept(records: seq<ProduceRecord>, i: nat, tp: TopicPartition, acks: AcknowledgmentLevel)
    requires i < |records| && FirstAcks(records[..i], tp, acks)
    ensures FirstAcks(records[..i + 1], tp, acks)
  {
    var k :| 0 <= k < i && Target(records[..i][k]) == tp && records[..i][k].acks == acks
             && forall j :: 0 <= j < k ==> Target(records[..i][j]) != tp;
    assert records[..i + 1][k] == records[..i][k];
    assert forall j :: 0 <= j < k ==> records[..i + 1][j] == records[..i][j];
  }

  lemma FirstAcksNew(records: seq<ProduceRecord>, i: nat, tp: TopicPartition)
    requires i < |records| && tp !in Targets(records[..i]) && Target(records[i]) == tp
    ensures FirstAcks(records[..i + 1], tp, records[i].acks)
  {
    var longer := records[..i + 1];
    forall j | 0 <= j < i ensures Target(longer[j]) != tp {
      assert longer[j] == records[j] && records[j] in records[..i];
    }
    assert longer[i] == records[i];
  }

  lemma TargetsStep(records: seq<ProduceRecord>, i: nat)
    requires i < |records|
    ensures Targets(records[..i + 1]) == Targets(records[..i]) + {Target(records[i])}
  {
  }

  /** The first loop of `send_batch`. */
  method GroupRecords(records: seq<ProduceRecord>) returns (grouped: Groups)
    ensures GroupsOf(grouped, records)
  {
    grouped := map[];
    var i := 0;
    while i < |records|
      invariant 0 <= i <= |records|
      invariant GroupsOf(grouped, records[..i])
    {
      var r := records[i];
      var tp := Target(r);
      ghost var before := grouped;
      var entry := if tp in grouped then grouped[tp] else ([], r.acks);
      grouped := grouped[tp := (entry.0 + [Framed(r)], entry.1)];
      TargetsStep(records, i);
      forall tp' | tp' in grouped
        ensures grouped[tp'].0 == GroupOf(records[..i + 1], tp') && FirstAcks(records[..i + 1], tp', grouped[tp'].1)
      {
        GroupStep(records, i, tp');
        if tp' in before {
          FirstAcksKept(records, i, tp', before[tp'].1);
        } else {
          FirstAcksNew(records, i, tp');
        }
      }
      i := i + 1;
    }
    assert records[..|records|] == records;
  }

  /** Number of records whose partition is not yet done. */
  function Outstanding(records: seq<ProduceRecord>, done: set<TopicPartition>): nat {
    if records == [] then 0
    else
      var last := |records| - 1;
      Outstanding(records[..last], done) + if Target(records[last]) in done then 0 else 1
  }

  lemma {:induction false} OutstandingFalls(records: seq<ProduceRecord>, done: set<TopicPartition>, tp: TopicPartition)
    requires tp !in done
    ensures Outstanding(records, done) == Outstanding(records, done + {tp}) + |GroupOf(records, tp)|
    decreases |records|
  {
    if records != [] {
      OutstandingFalls(records[..|records| - 1], done, tp);
    }
  }

  lemma {:induction false} OutstandingEnds(records: seq<ProduceRecord>, done: set<TopicPartition>)
    ensures done == {} ==> Outstanding(records, done) == |records|
    ensures Targets(records) <= done ==> Outstanding(records, done) == 0
    decreases |records|
  {
    if records != [] {
      var last := |records| - 1;
      OutstandingEnds(records[..last], done);
      TargetsStep(records, last);
      assert records[..last + 1] == records;
    }
  }

  /** The offsets among the results that belong to one partition, in order. */
  function OffsetsIn(results: seq<ProduceResult>, tp: TopicPartition): seq<nat> {
    if results == [] then []
    else
      var last := |results| - 1;
      OffsetsIn(results[..last], tp) + if results[last].tp == tp then [results[last].offset] else []
  }

  /** The results of one group */
  function Results(tp: TopicPartition, offsets: seq<nat>): seq<ProduceResult> {
    seq(|offsets|, k requires 0 <= k < |offsets| => ProduceResult(tp, offsets[k]))
  }

  lemma OffsetsInSnoc(a: seq<ProduceResult>, r: ProduceResult, tp: TopicPartition)
    ensures OffsetsIn(a + [r], tp) == OffsetsIn(a, tp) + if r.tp == tp then [r.offset] else []
  {
    assert (a + [r])[..|a|] == a;
  }

  lemma {:induction false} OffsetsInConcat(a: seq<ProduceResult>, tp: TopicPartition, offsets: seq<nat>,
                                           other: TopicPartition)
    ensures OffsetsIn(a + Results(tp, offsets), other) == OffsetsIn(a, other) + if other == tp then offsets else []
    decreases |offsets|
  {
    if offsets == [] {
      assert a + Results(tp, offsets) == a;
    } else {
      var init, last := offsets[..|offsets| - 1], offsets[|offsets| - 1];
      OffsetsInConcat(a, tp, init, other);
      OffsetsInSnoc(a + Results(tp, init), ProduceResult(tp, last), other);
      assert a + Results(tp, offsets) == a + Results(tp, init) + [ProduceResult(tp, last)];
      assert offsets == init + [last];
    }
  }

  /** The partition got exactly these records, from its old watermark on. */
  ghost predicate Appended(before: Core, after: Core, tp: TopicPartition, records: seq<Record>) {
    && tp in before.partitions && tp in after.partitions && before.partitions[tp].isLeader
    && var base := before.partitions[tp].highWatermark;
       && after.partitions[tp] == before.partitions[tp].(highWatermark := base + |records|)
       && after.LogOf(tp) == before.LogOf(tp).InsertRun(base, records)
  }

  ghost predicate Untouched(before: Core, after: Core, tp: TopicPartition) {
    && (tp in after.partitions <==> tp in before.partitions)
    && (tp in after.partitions ==> after.partitions[tp] == before.partitions[tp])
    && after.LogOf(tp) == before.LogOf(tp)
  }

  function FailureOf(fails: map<TopicPartition, nat>, tp: TopicPartition, records: seq<Record>): nat {
    if tp in fails then fails[tp] else 2 * |records|
  }

  /** What a finished group leaves behind on its partition. */
  lemma OutcomeOnPartition(core: Core, tp: TopicPartition, records: seq<Record>, acks: AcknowledgmentLevel, failAt: nat)
    ensures var (after, r) := AppendOutcome(core, tp, records, acks, failAt);
            && (forall tp' :: tp' != tp ==> Untouched(core, after, tp'))
            && (r.Ok? ==> Appended(core, after, tp, records)
                          && r.value == Offsets(core.partitions[tp].highWatermark, |records|)
                          && after.total == core.total + |records|)
            && (r.Err? ==> after.partitions == core.partitions && after.total == core.total)
  {
  }

  /** The outcome on a partition depends on that partition alone. */
  lemma OutcomeSame(core: Core, other: Core, tp: TopicPartition, records: seq<Record>, acks: AcknowledgmentLevel,
                    failAt: nat)
    requires Untouched(core, other, tp)
    ensures AppendOutcome(core, tp, records, acks, failAt).1 == AppendOutcome(other, tp, records, acks, failAt).1
    ensures AppendOutcome(core, tp, records, acks, failAt).0.LogOf(tp)
            == AppendOutcome(other, tp, records, acks, failAt).0.LogOf(tp)
  {
  }

  /** The replication manager was asked about the records of every partition in `done` whose
      first record wants replication, and has answered. */
  ghost predicate AnsweredFor(answered: set<(TopicPartition, nat)>, earlier: set<(TopicPartition, nat)>, before: Core,
                                grouped: Groups, done: set<TopicPartition>)
  {
    forall tp, o :: (tp, o) in answered <==>
      || (tp, o) in earlier
      || (tp in done && tp in grouped && tp in before.partitions && grouped[tp].1.Replicates()
          && before.partitions[tp].highWatermark <= o < before.partitions[tp].highWatermark + |grouped[tp].0|)
  }

  /** Effect of the second loop of `send_batch` after the partitions in `done`. */
  ghost predicate Sent(before: Core, after: Core, records: seq<ProduceRecord>, done: set<TopicPartition>) {
    && (forall tp :: tp in done ==> Appended(before, after, tp, GroupOf(records, tp)))
    && (forall tp :: tp !in done ==> Untouched(before, after, tp))
  }

  /** The results it has collected by then. */
  ghost predicate Collected(before: Core, records: seq<ProduceRecord>, done: set<TopicPartition>,
                            results: seq<ProduceResult>) {
    && (forall tp :: tp in done ==>
          && tp in before.partitions
          && OffsetsIn(results, tp) == Offsets(before.partitions[tp].highWatermark, |GroupOf(records, tp)|))
    && (forall tp :: tp !in done ==> OffsetsIn(results, tp) == [])
    && |results| + Outstanding(records, done) == |records|
  }

  lemma SentStep(before: Core, mid: Core, after: Core, records: seq<ProduceRecord>, done: set<TopicPartition>,
                 tp: TopicPartition)
    requires Sent(before, mid, records, done) && tp !in done
    requires Appended(mid, after, tp, GroupOf(records, tp))
    requires forall tp' :: tp' != tp ==> Untouched(mid, after, tp')
    ensures Sent(before, after, records, done + {tp})
  {
    assert Untouched(before, mid, tp);
    forall tp' | tp' in done ensures Appended(before, after, tp', GroupOf(records, tp')) {
      assert Appended(before, mid, tp', GroupOf(records, tp')) && Untouched(mid, after, tp');
    }
    forall tp' | tp' !in done + {tp} ensures Untouched(before, after, tp') {
      assert Untouched(before, mid, tp') && Untouched(mid, after, tp');
    }
  }

  lemma CollectedStep(before: Core, records: seq<ProduceRecord>, done: set<TopicPartition>, results: seq<ProduceResult>,
                      tp: TopicPartition, offsets: seq<nat>)
    requires Collected(before, records, done, results) && tp !in done && tp in before.partitions
    requires offsets == Offsets(before.partitions[tp].highWatermark, |GroupOf(records, tp)|)
    ensures Collected(before, records, done + {tp}, results + Results(tp, offsets))
  {
    OutstandingFalls(records, done, tp);
    forall other ensures OffsetsIn(results + Results(tp, offsets), other)
                      == OffsetsIn(results, other) + if other == tp then offsets else []
    {
      OffsetsInConcat(results, tp, offsets, other);
    }
  }

  /** How a batch that failed at one partition leaves the broker: the groups taken before
      stay appended, the failing one as its own outcome says, the rest untouched. */
  ghost predicate Broken(before: Core, after: Core, records: seq<ProduceRecord>, fails: map<TopicPartition, nat>,
                         done: set<TopicPartition>, failed: TopicPartition, error: ProduceError) {
    && failed in Targets(records) && failed !in done && done <= Targets(records)
    && (forall tp :: tp in done ==> Appended(before, after, tp, GroupOf(records, tp)))
    && (forall tp :: tp !in done && tp != failed ==> Untouched(before, after, tp))
    && (failed in after.partitions <==> failed in before.partitions)
    && (failed in after.partitions ==> after.partitions[failed] == before.partitions[failed])
    && (exists acks :: FirstAcks(records, failed, acks)
          && var group := GroupOf(records, failed);
             var (core, r) := AppendOutcome(before, failed, group, acks, FailureOf(fails, failed, group));
             r == Err(error) && after.LogOf(failed) == core.LogOf(failed))
  }

  lemma BreaksHere(before: Core, mid: Core, records: seq<ProduceRecord>, fails: map<TopicPartition, nat>,
                   done: set<TopicPartition>, tp: TopicPartition, acks: AcknowledgmentLevel)
    requires Sent(before, mid, records, done) && tp !in done && tp in Targets(records) && done <= Targets(records)
    requires FirstAcks(records, tp, acks)
    requires AppendOutcome(mid, tp, GroupOf(records, tp), acks, FailureOf(fails, tp, GroupOf(records, tp))).1.Err?
    ensures var failAt := FailureOf(fails, tp, GroupOf(records, tp));
            var (after, r) := AppendOutcome(mid, tp, GroupOf(records, tp), acks, failAt);
            Broken(before, after, records, fails, done, tp, r.error)
  {
    var group := GroupOf(records, tp);
    var failAt := FailureOf(fails, tp, group);
    var after := AppendOutcome(mid, tp, group, acks, failAt).0;
    OutcomeOnPartition(mid, tp, group, acks, failAt);
    assert Untouched(before, mid, tp);
    OutcomeSame(before, mid, tp, group, acks, failAt);
    forall tp' | tp' in done ensures Appended(before, after, tp', GroupOf(records, tp')) {
      assert Appended(before, mid, tp', GroupOf(records, tp')) && Untouched(mid, after, tp');
    }
    forall tp' | tp' !in done && tp' != tp ensures Untouched(before, after, tp') {
      assert Untouched(before, mid, tp') && Untouched(mid, after, tp');
    }
  }

  /** One more group went through. */
  lemma GroupSent(before: Core, mid: Core, after: Core, records: seq<ProduceRecord>, done: set<TopicPartition>,
                  results: seq<ProduceResult>, tp: TopicPartition, acks: AcknowledgmentLevel, failAt: nat,
                  offsets: seq<nat>)
    requires Sent(before, mid, records, done) && Collected(before, records, done, results) && tp !in done
    requires (after, Ok(offsets)) == AppendOutcome(mid, tp, GroupOf(records, tp), acks, failAt)
    ensures Sent(before, after, records, done + {tp})
    ensures Collected(before, records, done + {tp}, results + Results(tp, offsets))
    ensures after.total == mid.total + |offsets| && tp in before.partitions
    ensures mid.partitions[tp] == before.partitions[tp]
  {
    OutcomeOnPartition(mid, tp, GroupOf(records, tp), acks, failAt);
    assert Untouched(before, mid, tp);
    SentStep(before, mid, after, records, done, tp);
    CollectedStep(before, records, done, results, tp, offsets);
  }

  lemma GroupAnswered(mid: set<(TopicPartition, nat)>, after: set<(TopicPartition, nat)>,
                      earlier: set<(TopicPartition, nat)>, before: Core, grouped: Groups, done: set<TopicPartition>,
                      tp: TopicPartition)
    requires AnsweredFor(mid, earlier, before, grouped, done) && tp in grouped && tp in before.partitions && tp !in done
    requires var base := before.partitions[tp].highWatermark;
             after
             == mid + if grouped[tp].1.Replicates() then set o | base <= o < base + |grouped[tp].0| :: (tp, o) else {}
    ensures AnsweredFor(after, earlier, before, grouped, done + {tp})
  {
  }

  /** The body of the second loop: the group of one partition is appended. */
  method SendGroup(core: MessageBrokerCore, ghost records: seq<ProduceRecord>, grouped: Groups,
                   fails: map<TopicPartition, nat>, tp: TopicPartition, results: seq<ProduceResult>, ghost before: Core,
                   ghost earlier: set<(TopicPartition, nat)>, ghost done: set<TopicPartition>)
    returns (r: Result<seq<ProduceResult>, ProduceError>)
    requires GroupsOf(grouped, records) && tp in grouped && tp !in done && done <= grouped.Keys
    requires Sent(before, core.Abs(), records, done) && Collected(before, records, done, results)
    requires AnsweredFor(core.answered, earlier, before, grouped, done)
    modifies core
    ensures r.Ok? ==>
              && Sent(before, core.Abs(), records, done + {tp}) && Collected(before, records, done + {tp}, r.value)
              && AnsweredFor(core.answered, earlier, before, grouped, done + {tp})
              && core.total - old(core.total) == |r.value| - |results|
    ensures r.Err? ==> Broken(before, core.Abs(), records, fails, done, tp, r.error)
  {
    var group, acks := grouped[tp].0, grouped[tp].1;
    var appended := core.AppendRecords(tp, group, acks, FailureOf(fails, tp, group));
    if appended.Err? {
      BreaksHere(before, old(core.Abs()), records, fails, done, tp, acks);
      return Err(appended.error);
    }
    GroupSent(before, old(core.Abs()), core.Abs(), records, done, results, tp, acks, FailureOf(fails, tp, group),
              appended.value);
    GroupAnswered(old(core.answered), core.answered, earlier, before, grouped, done, tp);
    return Ok(results + Results(tp, appended.value));
  }

  /** `send_batch`, for any order in which the groups are taken and any storage failure. */
  method SendBatch(core: MessageBrokerCore, records: seq<ProduceRecord>, fails: map<TopicPartition, nat>)
    returns (r: Result<seq<ProduceResult>, ProduceError>, ghost done: set<TopicPartition>, ghost failed: TopicPartition)
    modifies core
    // Success: one result per record; every partition named got its records in their
    // original order at consecutive offsets, and no other partition changed.
    ensures r.Ok? ==>
              && |r.value| == |records| && core.total == old(core.total) + |records|
              && Sent(old(core.Abs()), core.Abs(), records, Targets(records))
              && Collected(old(core.Abs()), records, Targets(records), r.value)
    // Replication follows the acknowledgment level of the first record of each group.
    ensures r.Ok? ==> exists grouped: Groups ::
              GroupsOf(grouped, records)
              && AnsweredFor(core.answered, old(core.answered), old(core.Abs()), grouped, Targets(records))
    ensures r.Err? ==> Broken(old(core.Abs()), core.Abs(), records, fails, done, failed, r.error)
  {
    var grouped := GroupRecords(records);
    var results: seq<ProduceResult> := [];
    var remaining := grouped.Keys;
    ghost var before := core.Abs();
    done, failed := {}, TopicPartition("", 0);
    OutstandingEnds(records, {});
    while remaining != {}
      invariant remaining == grouped.Keys - done && done <= grouped.Keys
      invariant Sent(before, core.Abs(), records, done)
      invariant Collected(before, records, done, results)
      invariant core.total == before.total + |results|
      invariant AnsweredFor(core.answered, old(core.answered), before, grouped, done)
      decreases remaining
    {
      var tp :| tp in remaining;
      var sent := SendGroup(core, records, grouped, fails, tp, results, before, old(core.answered), done);
      if sent.Err? {
        failed := tp;
        return Err(sent.error), done, failed;
      }
      results := sent.value;
      done := done + {tp};
      remaining := remaining - {tp};
    }
    assert done == Targets(records);
    OutstandingEnds(records, done);
    return Ok(results), done, failed;
  }

  /** The broker after `records` went through without a failure. */
  function AllAppended(core: Core, tp: TopicPartition, records: seq<Record>, acks: AcknowledgmentLevel): Core {
    if records == [] then core else AppendOutcome(core, tp, records, acks, 2 * |records|).0
  }

  /** The leader partition has taken these records. */
  function Grown(core: Core, tp: TopicPartition, records: seq<Record>): Core
    requires tp in core.partitions
  {
    var base := core.partitions[tp].highWatermark;
    Core(core.partitions[tp := Metadata(base + |records|, true)],
         core.store[tp := core.LogOf(tp).InsertRun(base, records)], core.total + |records|)
  }

  lemma SuccessIsGrowth(core: Core, tp: TopicPartition, records: seq<Record>, acks: AcknowledgmentLevel, failAt: nat)
    requires tp in core.partitions && core.partitions[tp].isLeader && records != []
    requires Writes(|records|, acks) <= failAt
    ensures AppendOutcome(core, tp, records, acks, failAt).0 == Grown(core, tp, records)
  {
  }

  lemma GrownTwice(core: Core, tp: TopicPartition, first: seq<Record>, second: seq<Record>)
    requires tp in core.partitions
    ensures Grown(Grown(core, tp, first), tp, second) == Grown(core, tp, first + second)
  {
    InsertRunConcat(core.LogOf(tp), core.partitions[tp].highWatermark, first, second);
  }

  /** Sending one more record after a batch leaves what sending the longer batch leaves. */
  lemma OneMoreSend(core: Core, tp: TopicPartition, records: seq<Record>, i: nat, acks: AcknowledgmentLevel,
                    failAt: nat)
    requires tp in core.partitions && core.partitions[tp].isLeader && i < |records|
    requires Writes(1, acks) <= failAt
    ensures AppendOutcome(AllAppended(core, tp, records[..i], acks), tp, [records[i]], acks, failAt).0
            == AllAppended(core, tp, records[..i + 1], acks)
  {
    SuccessIsGrowth(core, tp, records[..i + 1], acks, 2 * (i + 1));
    assert records[..i] + [records[i]] == records[..i + 1];
    if i == 0 {
      SuccessIsGrowth(core, tp, [records[0]], acks, failAt);
    } else {
      SuccessIsGrowth(core, tp, records[..i], acks, 2 * i);
      SuccessIsGrowth(Grown(core, tp, records[..i]), tp, [records[i]], acks, failAt);
      GrownTwice(core, tp, records[..i], [records[i]]);
    }
  }

  /** `handle_produce` sends the records of a request one by one. If all go through, the
      broker is as if the request had been appended as one batch, and the answer is its
      first offset; if one fails, the ones before it stay appended. */
  method HandleProduce(core: MessageBrokerCore, tp: TopicPartition, records: seq<Record>, acks: AcknowledgmentLevel,
                       fails: seq<nat>)
    returns (r: Result<nat, ProduceError>, ghost sent: nat)
    requires |fails| == |records|
    modifies core
    ensures r.Ok? ==>
              && core.Abs() == AllAppended(old(core.Abs()), tp, records, acks)
              && (records != [] ==> tp in old(core.partitions) && r.value == old(core.partitions)[tp].highWatermark)
              && (records == [] ==> r.value == 0)
    ensures r.Err? ==>
              && sent < |records|
              && (core.Abs(), Err(r.error)) ==
                 AppendOutcome(AllAppended(old(core.Abs()), tp, records[..sent], acks), tp, [records[sent]], acks,
                               fails[sent])
  {
    var results: seq<nat> := [];
    sent := 0;
    var i := 0;
    while i < |records|
      invariant 0 <= i <= |records| && sent == i == |results|
      invariant core.Abs() == AllAppended(old(core.Abs()), tp, records[..i], acks)
      invariant i > 0 ==> tp in old(core.partitions) && old(core.partitions)[tp].isLeader
                          && results[0] == old(core.partitions)[tp].highWatermark
    {
      ghost var mid := core.Abs();
      var appended := core.AppendRecords(tp, [records[i]], acks, fails[i]);
      if appended.Err? {
        return Err(appended.error), sent;
      }
      if i == 0 {
        assert records[..0] == [];
      }
      OneMoreSend(old(core.Abs()), tp, records, i, acks, fails[i]);
      results := results + [appended.value[0]];
      i := i + 1;
      sent := i;
    }
    assert records[..|records|] == records;
    return Ok(if results == [] then 0 else results[0]), sent;
  }
}
