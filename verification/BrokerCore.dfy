/** `MessageBrokerCore`, its producer and the produce handler, run without interruption.
    A call's storage failure, if any, is a parameter: the index of the store write that
    cannot be made durable (a call makes one write per record, and one more per record
    when it replicates). */
module BrokerCore {
  import opened Types
  import opened PartitionLog
  import opened BrokerSteps

  datatype ProduceError = PartitionNotFound | NotLeader | WriteFailed

  function Writes(n: nat, acks: AcknowledgmentLevel): nat {
    if acks.Replicates() then 2 * n else n
  }

  function Offsets(base: nat, n: nat): seq<nat> {
    seq(n, k => base + k)
  }

  /** Effect and answer of one uninterrupted `append_records`. */
  function AppendOutcome(core: Core, tp: TopicPartition, records: seq<Record>, acks: AcknowledgmentLevel, failAt: nat)
    : (Core, Result<seq<nat>, ProduceError>)
  {
    if tp !in core.partitions then (core, Err(PartitionNotFound))
    else if !core.partitions[tp].isLeader then (core, Err(NotLeader))
    else
      var base := core.partitions[tp].highWatermark;
      var n := |records|;
      var log := core.LogOf(tp);
      if failAt < n then
        (core.WithLog(tp, log.InsertRun(base, records[..failAt + 1]).Remove(base + failAt)), Err(WriteFailed))
      else if failAt < Writes(n, acks) then
        (core.WithLog(tp, log.InsertRun(base, records).Remove(base + failAt - n)), Err(WriteFailed))
      else
        var stored := if n == 0 then core else core.WithLog(tp, log.InsertRun(base, records));
        (stored.WithWatermark(tp, base + n).Counting(n), Ok(Offsets(base, n)))
  }

  /** The offset loop: consecutive offsets from the watermark that the call read. */
  method AssignOffsets(base: nat, n: nat) returns (offsets: seq<nat>)
    ensures offsets == Offsets(base, n)
  {
    offsets := [];
    var i := 0;
    while i < n
      invariant 0 <= i <= n
      invariant offsets == Offsets(base, i)
    {
      offsets := offsets + [base + i];
      i := i + 1;
    }
  }

  class MessageBrokerCore {
    var partitions: map<TopicPartition, Metadata>
    var store: map<TopicPartition, Log>
    var total: nat
    /** Offsets for which the replication manager has answered. Whether followers have
        acknowledged the record changes the answer, which is not looked at. */
    ghost var answered: set<(TopicPartition, nat)>

    ghost function Abs(): Core
      reads this
    {
      Core(partitions, store, total)
    }

    function LogOf(tp: TopicPartition): Log
      reads this
    {
      if tp in store then store[tp] else EMPTY_LOG
    }

    constructor (recovered: map<TopicPartition, Log>)
      ensures Abs() == Core(map[], recovered, 0) && answered == {}
    {
      partitions, store, total, answered := map[], recovered, 0, {};
    }

    /** The watermark starts at or above everything already stored, so that a produce call
        never reuses an offset recovered from disk; other partitions stay as they are. */
    method AddPartition(tp: TopicPartition, metadata: Metadata)
      modifies this`partitions
      ensures tp in partitions && partitions[tp].isLeader == metadata.isLeader
      ensures metadata.highWatermark <= partitions[tp].highWatermark
      ensures LogOf(tp).Valid() ==> forall o :: o in LogOf(tp).entries ==> o < partitions[tp].highWatermark
      ensures partitions[tp].highWatermark in {metadata.highWatermark, LogOf(tp).next}
      ensures forall tp' :: tp' != tp ==> (tp' in partitions <==> tp' in old(partitions))
                                          && (tp' in partitions ==> partitions[tp'] == old(partitions)[tp'])
    {
      var recovered := LogOf(tp).next;
      partitions := partitions[tp := metadata.(highWatermark := Max(metadata.highWatermark, recovered))];
    }

    /** From then on produce calls on the partition are refused and change nothing, and the
        outcome of a call on any other partition is what it was; what is stored stays. */
    method RemovePartition(tp: TopicPartition)
      modifies this`partitions
      ensures forall records, acks, failAt ::
                AppendOutcome(Abs(), tp, records, acks, failAt) == (Abs(), Err(PartitionNotFound))
      ensures forall tp', records, acks, failAt :: tp' != tp ==>
                AppendOutcome(Abs(), tp', records, acks, failAt).1
                == AppendOutcome(old(Abs()), tp', records, acks, failAt).1
      ensures forall tp' :: tp' != tp && tp' in old(partitions) ==>
                tp' in partitions && partitions[tp'] == old(partitions)[tp']
    {
      partitions := partitions - {tp};
    }

    /** `PartitionStore::append`: visible first, then durable, rolled back on failure. */
    method StoreAppend(tp: TopicPartition, offset: nat, record: Record, durable: bool)
      modifies this`store
      ensures store == old(store)[tp := if durable then old(LogOf(tp)).Insert(offset, record)
                                        else old(LogOf(tp)).Insert(offset, record).Remove(offset)]
    {
      store := store[tp := LogOf(tp).Insert(offset, record)];
      if !durable {
        store := store[tp := LogOf(tp).Remove(offset)];
      }
    }

    /** The append loop: all records land, or the one at `failAt` is rolled back and the
        ones before it stay. */
    method AppendAll(tp: TopicPartition, base: nat, records: seq<Record>, failAt: nat) returns (ok: bool)
      modifies this`store
      ensures ok <==> |records| <= failAt
      ensures ok ==> store == if records == [] then old(store)
                              else old(store)[tp := old(LogOf(tp)).InsertRun(base, records)]
      ensures !ok ==>
                store == old(store)[tp := old(LogOf(tp)).InsertRun(base, records[..failAt + 1]).Remove(base + failAt)]
    {
      ghost var log := LogOf(tp);
      var i := 0;
      while i < |records|
        invariant 0 <= i <= |records| && i <= failAt
        invariant store == if i == 0 then old(store) else old(store)[tp := log.InsertRun(base, records[..i])]
      {
        assert records[..i + 1][..i] == records[..i];
        assert LogOf(tp) == log.InsertRun(base, records[..i]);
        assert LogOf(tp).Insert(base + i, records[i]) == log.InsertRun(base, records[..i + 1]);
        StoreAppend(tp, base + i, records[i], i != failAt);
        if i == failAt {
          return false;
        }
        i := i + 1;
      }
      assert records[..|records|] == records;
      return true;
    }

    /** The replication loop: the manager first appends each record to the same store once
        more, which changes nothing that readers see unless that append fails. It answers
        whether or not followers acknowledge, so the loop fails exactly when a local append
        does. */
    method ReplicateAll(tp: TopicPartition, base: nat, records: seq<Record>, failAt: nat) returns (ok: bool)
      requires IsRunAt(LogOf(tp), base, records) && (records == [] || base + |records| <= LogOf(tp).next)
      requires records != [] ==> tp in store
      modifies this`store, this`answered
      ensures ok <==> |records| <= failAt
      ensures ok ==> store == old(store)
                     && answered == old(answered) + set o | base <= o < base + |records| :: (tp, o)
      ensures !ok ==> store == old(store)[tp := old(LogOf(tp)).Remove(base + failAt)]
    {
      var i := 0;
      while i < |records|
        invariant 0 <= i <= |records| && i <= failAt
        invariant store == old(store)
        invariant answered == old(answered) + set o | base <= o < base + i :: (tp, o)
      {
        assert LogOf(tp).Insert(base + i, records[i]) == LogOf(tp) by {
          assert base + i in LogOf(tp).entries;
        }
        StoreAppend(tp, base + i, records[i], i != failAt);
        if i == failAt {
          return false;
        }
        assert (set o | base <= o < base + i + 1 :: (tp, o))
            == (set o | base <= o < base + i :: (tp, o)) + {(tp, base + i)};
        answered := answered + {(tp, base + i)};
        i := i + 1;
      }
      return true;
    }

    /** All store writes of one call */
    method WriteRecords(tp: TopicPartition, base: nat, records: seq<Record>, acks: AcknowledgmentLevel, failAt: nat)
      returns (ok: bool)
      modifies this`store, this`answered
      ensures ok <==> Writes(|records|, acks) <= failAt
      ensures ok ==> store == if records == [] then old(store)
                              else old(store)[tp := old(LogOf(tp)).InsertRun(base, records)]
      ensures ok ==> answered == old(answered)
                       + if acks.Replicates() then set o | base <= o < base + |records| :: (tp, o) else {}
      ensures !ok && failAt < |records| ==>
                store == old(store)[tp := old(LogOf(tp)).InsertRun(base, records[..failAt + 1]).Remove(base + failAt)]
      ensures !ok && failAt >= |records| ==>
                store == old(store)[tp := old(LogOf(tp)).InsertRun(base, records).Remove(base + failAt - |records|)]
    {
      ok := AppendAll(tp, base, records, failAt);
      if ok && acks.Replicates() {
        InsertRunContents(old(LogOf(tp)), base, records);
        ok := ReplicateAll(tp, base, records, failAt - |records|);
      }
    }

    method AppendRecords(tp: TopicPartition, records: seq<Record>, acks: AcknowledgmentLevel, failAt: nat)
      returns (r: Result<seq<nat>, ProduceError>)
      modifies this
      ensures (Abs(), r) == AppendOutcome(old(Abs()), tp, records, acks, failAt)
      ensures r.Ok? ==>
                var base := old(partitions)[tp].highWatermark;
                answered == old(answered)
                              + if acks.Replicates() then set o | base <= o < base + |records| :: (tp, o) else {}
    {
      if tp !in partitions {
        return Err(PartitionNotFound);
      }
      if !partitions[tp].isLeader {
        return Err(NotLeader);
      }
      var base := partitions[tp].highWatermark;
      var offsets := AssignOffsets(base, |records|);
      var ok := WriteRecords(tp, base, records, acks, failAt);
      if !ok {
        return Err(WriteFailed);
      }
      if tp in partitions {
        partitions := partitions[tp := partitions[tp].(highWatermark := base + |records|)];
      }
      total := total + |records|;
      return Ok(offsets);
    }

    /** Fetches are served straight from the store; a read failure and the number of records
        after which the store ends the read are parameters. */
    method FetchRecords<E>(tp: TopicPartition, offset: nat, more: nat, failure: Option<E>)
      returns (r: Result<seq<Record>, E>)
      modifies this`total
      ensures failure.Some? ==> r == Err(failure.value) && total == old(total)
      ensures failure.None? ==>
                && r.Ok? && IsRunAt(LogOf(tp), offset, r.value) && total == old(total) + |r.value|
                && (r.value != [] <==> offset in LogOf(tp).entries)
                && r.value == LogOf(tp).Read(offset, more)
    {
      if failure.Some? {
        return Err(failure.value);
      }
      var records := LogOf(tp).Read(offset, more);
      ReadIsRun(LogOf(tp), offset, more);
      total := total + |records|;
      return Ok(records);
    }
  }
}
