/** What readers can see of one partition of the store: the records by offset, and one
    past the highest offset ever indexed. Removing a record does not rewind `next`. */
module PartitionLog {
  import opened Types

  datatype Log = Log(entries: map<nat, Record>, next: nat)
  {
    ghost predicate Valid() {
      forall o :: o in entries ==> o < next
    }

    /** `insert_hot`: the record becomes visible before it is durable. */
    function Insert(offset: nat, record: Record): Log {
      Log(entries[offset := record], Max(next, offset + 1))
    }

    /** `remove_hot`: the roll-back after a failed durable append. */
    function Remove(offset: nat): Log {
      Log(entries - {offset}, next)
    }

    /** Consecutive inserts from `base`, as the append loop performs them. */
    function InsertRun(base: nat, records: seq<Record>): Log
      decreases |records|
    {
      if records == [] then this
      else
        var last := |records| - 1;
        InsertRun(base, records[..last]).Insert(base + last, records[last])
    }

    /** The dense run of records from `offset`, at most `more` after the first. Where a
        read of the store ends, by its byte budget or at the end of what one tier holds,
        is up to the store. */
    function Read(offset: nat, more: nat): seq<Record>
      decreases more
    {
      if offset !in entries then []
      else [entries[offset]] + if more == 0 then [] else Read(offset + 1, more - 1)
    }
  }

  const EMPTY_LOG := Log(map[], 0)

  /** `run` is what `log` holds at `offset`, `offset + 1`, ... */
  ghost predicate IsRunAt(log: Log, offset: nat, run: seq<Record>) {
    forall o :: offset <= o < offset + |run| ==> o in log.entries && log.entries[o] == run[o - offset]
  }

  lemma {:induction false} InsertRunContents(log: Log, base: nat, records: seq<Record>)
    ensures var after := log.InsertRun(base, records);
            && IsRunAt(after, base, records)
            && (forall o :: !(base <= o < base + |records|) ==>
                  && (o in after.entries <==> o in log.entries)
                  && (o in after.entries ==> after.entries[o] == log.entries[o]))
            && after.next == if records == [] then log.next else Max(log.next, base + |records|)
    decreases |records|
  {
    if records != [] {
      var last := |records| - 1;
      InsertRunContents(log, base, records[..last]);
    }
  }

  /** Inserting one run and then the next is inserting their concatenation. */
  lemma {:induction false} InsertRunConcat(log: Log, base: nat, first: seq<Record>, second: seq<Record>)
    ensures log.InsertRun(base, first).InsertRun(base + |first|, second) == log.InsertRun(base, first + second)
    decreases |second|
  {
    if second == [] {
      assert first + second == first;
    } else {
      var last := |second| - 1;
      InsertRunConcat(log, base, first, second[..last]);
      assert (first + second)[..|first + second| - 1] == first + second[..last];
    }
  }

  /** Inserting a run a second time, as the replication manager does, changes nothing that
      readers of memory see. */
  lemma {:induction false} ReinsertIsIdle(log: Log, base: nat, records: seq<Record>, n: nat)
    requires n <= |records|
    ensures log.InsertRun(base, records).InsertRun(base, records[..n]) == log.InsertRun(base, records)
  {
    var once := log.InsertRun(base, records);
    InsertRunContents(log, base, records);
    InsertRunContents(once, base, records[..n]);
    assert once.InsertRun(base, records[..n]).entries == once.entries;
  }

  lemma RunCons(log: Log, offset: nat, rest: seq<Record>)
    requires offset in log.entries && IsRunAt(log, offset + 1, rest)
    ensures IsRunAt(log, offset, [log.entries[offset]] + rest)
  {
    var run := [log.entries[offset]] + rest;
    forall o | offset <= o < offset + |run| ensures o in log.entries && log.entries[o] == run[o - offset] {
      if o > offset {
        assert o in log.entries && log.entries[o] == rest[o - (offset + 1)];
      }
    }
  }

  /** A read yields the log's own records from the asked offset without a gap, at least
      one exactly when the asked offset holds a record, and it ends early only at a gap. */
  lemma {:induction false} ReadIsRun(log: Log, offset: nat, more: nat)
    ensures IsRunAt(log, offset, log.Read(offset, more))
    ensures log.Read(offset, more) != [] <==> offset in log.entries
    ensures |log.Read(offset, more)| <= more + 1
    ensures |log.Read(offset, more)| < more + 1 ==> offset + |log.Read(offset, more)| !in log.entries
    decreases more
  {
    if offset in log.entries {
      if more == 0 {
        RunCons(log, offset, []);
      } else {
        ReadIsRun(log, offset + 1, more - 1);
        RunCons(log, offset, log.Read(offset + 1, more - 1));
      }
    }
  }

  /** Whatever is a run of the log is what some read yields. */
  lemma {:induction false} RunIsRead(log: Log, offset: nat, run: seq<Record>)
    requires run != [] && IsRunAt(log, offset, run)
    ensures log.Read(offset, |run| - 1) == run
    decreases |run|
  {
    assert offset in log.entries && log.entries[offset] == run[offset - offset];
    if |run| > 1 {
      var rest := run[1..];
      forall o | offset + 1 <= o < offset + 1 + |rest|
        ensures o in log.entries && log.entries[o] == rest[o - (offset + 1)]
      {
        assert o in log.entries && log.entries[o] == run[o - offset];
      }
      RunIsRead(log, offset + 1, rest);
      assert run == [run[0]] + rest;
    }
  }
}
