/** `MessageConsumer`: subscriptions, positions and the poll loop. Read failures are a
    parameter; the order in which a poll visits the partitions is arbitrary. */
module Consumer {
  import opened Types
  import opened PartitionLog
  import opened BrokerSteps
  import opened BrokerCore

  datatype FetchError = OffsetOutOfRange | OtherError

  datatype ConsumeRecord = ConsumeRecord(tp: TopicPartition, offset: nat, record: Record)

  type Positions = map<TopicPartition, nat>
  type Failures = map<TopicPartition, FetchError>

  /** What one poll hands out, where it leaves the positions, and the error that ended it. */
  datatype Polled = Polled(records: seq<ConsumeRecord>, positions: Positions, error: Option<FetchError>)

  function Labelled(tp: TopicPartition, base: nat, records: seq<Record>): seq<ConsumeRecord> {
    seq(|records|, k requires 0 <= k < |records| => ConsumeRecord(tp, base + k, records[k]))
  }

  /** After how many records beyond the first the store ends a read of each partition, if
      it goes beyond the first at all */
  type Cuts = map<TopicPartition, nat>

  function CutOf(cuts: Cuts, tp: TopicPartition): nat {
    if tp in cuts then cuts[tp] else 0
  }

  /** What a poll finds: the store at that moment, where its reads end, and the reads that
      will fail. */
  datatype Moment = Moment(store: map<TopicPartition, Log>, cuts: Cuts, failures: Failures)
  {
    function LogOf(tp: TopicPartition): Log {
      if tp in store then store[tp] else EMPTY_LOG
    }

    function ReadAt(tp: TopicPartition, offset: nat): seq<Record> {
      LogOf(tp).Read(offset, CutOf(cuts, tp))
    }
  }

  function Visit(m: Moment, p: Polled, tp: TopicPartition): Polled
    requires tp in p.positions
  {
    if p.error.Some? then p
    else if tp in m.failures then
      if m.failures[tp].OffsetOutOfRange? then p else p.(error := Some(m.failures[tp]))
    else
      var at := p.positions[tp];
      var records := p.records + Labelled(tp, at, m.ReadAt(tp, at));
      p.(records := records, positions := p.positions[tp := at + |records|])
  }

  /** A poll that visits the partitions in this order. */
  function PollAll(m: Moment, start: Positions, order: seq<TopicPartition>): (p: Polled)
    requires forall tp :: tp in order ==> tp in start
    ensures p.positions.Keys == start.Keys
    decreases |order|
  {
    if order == [] then Polled([], start, None)
    else
      var last := |order| - 1;
      assert order[last] in order;
      Visit(m, PollAll(m, start, order[..last]), order[last])
  }

  function Elements(order: seq<TopicPartition>): set<TopicPartition> {
    set tp | tp in order
  }

  lemma VisitNext(m: Moment, start: Positions, order: seq<TopicPartition>, tp: TopicPartition)
    requires Distinct(order) && Elements(order) <= start.Keys && tp in start && tp !in Elements(order)
    ensures Distinct(order + [tp]) && Elements(order + [tp]) == Elements(order) + {tp}
    ensures forall tp' :: tp' in order + [tp] ==> tp' in start
    ensures PollAll(m, start, order + [tp]) == Visit(m, PollAll(m, start, order), tp)
  {
  }

  class MessageConsumer {
    const core: MessageBrokerCore
    var topics: seq<string>
    var positions: Positions

    constructor (core: MessageBrokerCore)
      ensures this.core == core && topics == [] && positions == map[]
    {
      this.core := core;
      topics, positions := [], map[];
    }

    /** Every topic subscribed to starts over at offset 0 of its partition 0; positions
        of partitions not named stay, even those of earlier subscriptions. */
    method Subscribe(topics: seq<string>)
      modifies this
      ensures this.topics == topics
      ensures positions.Keys == old(positions).Keys + set t | t in topics :: TopicPartition(t, 0)
      ensures forall t :: t in topics ==> positions[TopicPartition(t, 0)] == 0
      ensures forall tp :: tp in old(positions) && !(tp.partition == 0 && tp.topic in topics) ==>
                positions[tp] == old(positions)[tp]
    {
      this.topics := topics;
      var i := 0;
      while i < |topics|
        invariant 0 <= i <= |topics| && this.topics == topics
        invariant positions.Keys == old(positions).Keys + set t | t in topics[..i] :: TopicPartition(t, 0)
        invariant forall t :: t in topics[..i] ==> positions[TopicPartition(t, 0)] == 0
        invariant forall tp :: tp in old(positions) && !(tp.partition == 0 && tp.topic in topics[..i]) ==>
                    positions[tp] == old(positions)[tp]
      {
        assert topics[..i + 1] == topics[..i] + [topics[i]];
        positions := positions[TopicPartition(topics[i], 0) := 0];
        i := i + 1;
      }
      assert topics[..|topics|] == topics;
    }

    method Seek(tp: TopicPartition, offset: nat)
      modifies this`positions
      ensures positions == old(positions)[tp := offset]
    {
      positions := positions[tp := offset];
    }

    method CommitOffsets(offsets: Positions)
      modifies this`positions
      ensures positions == old(positions) + offsets
    {
      var remaining := offsets.Keys;
      ghost var done := {};
      while remaining != {}
        invariant remaining == offsets.Keys - done && done <= offsets.Keys
        invariant positions == old(positions) + map tp | tp in done :: offsets[tp]
        decreases remaining
      {
        var tp :| tp in remaining;
        positions := positions[tp := offsets[tp]];
        remaining, done := remaining - {tp}, done + {tp};
      }
      assert done == offsets.Keys;
    }

    /** The body of the poll loop for one partition. */
    method PollOne(tp: TopicPartition, soFar: seq<ConsumeRecord>, cuts: Cuts, failures: Failures)
      returns (records: seq<ConsumeRecord>, error: Option<FetchError>)
      requires tp in positions
      modifies this`positions, core`total
      ensures Polled(records, positions, error)
              == Visit(Moment(core.store, cuts, failures), Polled(soFar, old(positions), None), tp)
    {
      var at := positions[tp];
      var fetched := core.FetchRecords(tp, at, CutOf(cuts, tp), if tp in failures then Some(failures[tp]) else None);
      match fetched
      case Ok(got) =>
        records := soFar + Labelled(tp, at, got);
        positions := positions[tp := at + |records|];
        error := None;
      case Err(e) =>
        records := soFar;
        error := if e.OffsetOutOfRange? then None else Some(e);
    }

    /** One poll; `order` is the order in which it happened to visit the partitions. */
    method Poll(cuts: Cuts, failures: Failures)
      returns (r: Result<seq<ConsumeRecord>, FetchError>, ghost order: seq<TopicPartition>)
      modifies this`positions, core`total
      ensures Distinct(order) && Elements(order) <= old(positions).Keys
      ensures r.Ok? ==> Elements(order) == old(positions).Keys
      ensures forall tp :: tp in order ==> tp in old(positions)
      ensures var p := PollAll(Moment(core.store, cuts, failures), old(positions), order);
              && positions == p.positions
              && r == if p.error.Some? then Err(p.error.value) else Ok(p.records)
    {
      ghost var m := Moment(core.store, cuts, failures);
      var records: seq<ConsumeRecord> := [];
      var remaining := positions.Keys;
      order := [];
      while remaining != {}
        invariant Distinct(order) && Elements(order) <= old(positions).Keys
        invariant remaining == old(positions).Keys - Elements(order)
        invariant forall tp :: tp in order ==> tp in old(positions)
        invariant PollAll(m, old(positions), order) == Polled(records, positions, None)
        decreases remaining
      {
        var tp :| tp in remaining;
        VisitNext(m, old(positions), order, tp);
        order, remaining := order + [tp], remaining - {tp};
        var error;
        records, error := PollOne(tp, records, cuts, failures);
        if error.Some? {
          return Err(error.value), order;
        }
      }
      assert old(positions).Keys == remaining + Elements(order);
      return Ok(records), order;
    }
  }

  // ---------------------------------------------------------------------------
  // How far a poll advances each partition
  // ---------------------------------------------------------------------------

  /** The records of one partition at its position when the poll starts. */
  function Available(m: Moment, start: Positions, tp: TopicPartition): seq<Record>
    requires tp in start
  {
    if tp in m.failures then [] else m.ReadAt(tp, start[tp])
  }

  /** Number of records available from these partitions together. */
  function Sum(m: Moment, start: Positions, order: seq<TopicPartition>): nat
    requires forall tp :: tp in order ==> tp in start
    decreases |order|
  {
    if order == [] then 0
    else
      var last := |order| - 1;
      assert order[last] in order;
      Sum(m, start, order[..last]) + |Available(m, start, order[last])|
  }

  lemma VisitMoves(m: Moment, start: Positions, before: Polled, after: Polled, tp: TopicPartition)
    requires tp in start && tp in before.positions && before.positions[tp] == start[tp]
    requires after == Visit(m, before, tp) && after.error.None?
    ensures before.error.None?
    ensures |after.records| == |before.records| + |Available(m, start, tp)|
    ensures after.positions[tp] == start[tp] + if tp in m.failures then 0 else |after.records|
    ensures forall tp' :: tp' in before.positions && tp' != tp ==> after.positions[tp'] == before.positions[tp']
  {
  }

  /** The poll of a longer order is one more visit. */
  lemma PollSnoc(m: Moment, start: Positions, order: seq<TopicPartition>)
    requires order != [] && forall tp :: tp in order ==> tp in start
    ensures order[|order| - 1] in order
    ensures PollAll(m, start, order) == Visit(m, PollAll(m, start, order[..|order| - 1]), order[|order| - 1])
    ensures Sum(m, start, order) == Sum(m, start, order[..|order| - 1]) + |Available(m, start, order[|order| - 1])|
  {
  }

  lemma {:induction false} PollCounts(m: Moment, start: Positions, order: seq<TopicPartition>)
    requires Distinct(order) && forall tp :: tp in order ==> tp in start
    requires PollAll(m, start, order).error.None?
    ensures |PollAll(m, start, order).records| == Sum(m, start, order)
    ensures forall tp :: tp in start && tp !in order ==> PollAll(m, start, order).positions[tp] == start[tp]
    decreases |order|
  {
    if order != [] {
      var last := |order| - 1;
      PollSnoc(m, start, order);
      var before, after := PollAll(m, start, order[..last]), PollAll(m, start, order);
      PollCounts(m, start, order[..last]);
      assert order[last] !in order[..last];
      VisitMoves(m, start, before, after, order[last]);
      forall tp | tp in start && tp !in order ensures after.positions[tp] == start[tp] {
        assert tp !in order[..last] && tp != order[last];
      }
    }
  }

  /** The last visit moves its partition by everything fetched, and no other partition. */
  lemma LastVisit(m: Moment, start: Positions, order: seq<TopicPartition>)
    requires Distinct(order) && (forall tp :: tp in order ==> tp in start) && order != []
    requires PollAll(m, start, order).error.None?
    ensures var last := |order| - 1;
            var before, after := PollAll(m, start, order[..last]), PollAll(m, start, order);
            && before.error.None?
            && after.positions[order[last]]
               == start[order[last]] + (if order[last] in m.failures then 0 else Sum(m, start, order))
            && forall tp :: tp in start && tp != order[last] ==> after.positions[tp] == before.positions[tp]
  {
    var last := |order| - 1;
    PollSnoc(m, start, order);
    PollCounts(m, start, order);
    PollCounts(m, start, order[..last]);
    assert order[last] !in order[..last];
    VisitMoves(m, start, PollAll(m, start, order[..last]), PollAll(m, start, order), order[last]);
  }

  /** A poll moves the i-th partition it visits by the number of records of all
      partitions fetched so far; a partition skipped as out of range does not move. */
  lemma {:induction false} PollLaw(m: Moment, start: Positions, order: seq<TopicPartition>, i: nat)
    requires Distinct(order) && (forall tp :: tp in order ==> tp in start) && i < |order|
    requires PollAll(m, start, order).error.None?
    ensures order[i] in start
    ensures PollAll(m, start, order).positions[order[i]]
            == start[order[i]] + if order[i] in m.failures then 0 else Sum(m, start, order[..i + 1])
    decreases |order|
  {
    var last := |order| - 1;
    LastVisit(m, start, order);
    if i == last {
      assert order[..last + 1] == order;
    } else {
      var init := order[..last];
      assert init[..i + 1] == order[..i + 1] && init[i] == order[i];
      PollLaw(m, start, init, i);
    }
  }

  lemma {:induction false} SumIsZeroIff(m: Moment, start: Positions, order: seq<TopicPartition>)
    requires forall tp :: tp in order ==> tp in start
    ensures Sum(m, start, order) == 0 <==> forall j :: 0 <= j < |order| ==> Available(m, start, order[j]) == []
    decreases |order|
  {
    if order != [] {
      SumIsZeroIff(m, start, order[..|order| - 1]);
    }
  }

  /** The i-th partition visited moves by exactly what it returned, as intended, if and
      only if it was skipped as out of range or every earlier partition returned nothing. */
  lemma AdvancesAsIntendedIff(m: Moment, start: Positions, order: seq<TopicPartition>, i: nat)
    requires Distinct(order) && (forall tp :: tp in order ==> tp in start) && i < |order|
    requires PollAll(m, start, order).error.None?
    ensures PollAll(m, start, order).positions[order[i]] == start[order[i]] + |Available(m, start, order[i])|
            <==> (order[i] in m.failures || forall j :: 0 <= j < i ==> Available(m, start, order[j]) == [])
  {
    PollLaw(m, start, order, i);
    PollSnoc(m, start, order[..i + 1]);
    assert order[..i + 1][..i] == order[..i];
    SumIsZeroIff(m, start, order[..i]);
    assert forall j :: 0 <= j < i ==> order[..i][j] == order[j];
  }

  /** The records handed out that are of one partition, in order */
  function Of(records: seq<ConsumeRecord>, tp: TopicPartition): seq<ConsumeRecord> {
    if records == [] then []
    else
      var last := records[|records| - 1];
      Of(records[..|records| - 1], tp) + if last.tp == tp then [last] else []
  }

  lemma OfSnoc(a: seq<ConsumeRecord>, r: ConsumeRecord, tp: TopicPartition)
    ensures Of(a + [r], tp) == Of(a, tp) + if r.tp == tp then [r] else []
  {
    assert (a + [r])[..|a|] == a;
  }

  lemma {:induction false} OfLabelled(a: seq<ConsumeRecord>, tp: TopicPartition, base: nat, records: seq<Record>,
                                      other: TopicPartition)
    ensures Of(a + Labelled(tp, base, records), other)
         == Of(a, other) + if other == tp then Labelled(tp, base, records) else []
    decreases |records|
  {
    if records == [] {
      assert a + Labelled(tp, base, records) == a;
    } else {
      var n := |records| - 1;
      var r := ConsumeRecord(tp, base + n, records[n]);
      OfLabelled(a, tp, base, records[..n], other);
      OfSnoc(a + Labelled(tp, base, records[..n]), r, other);
      assert Labelled(tp, base, records) == Labelled(tp, base, records[..n]) + [r];
      assert a + Labelled(tp, base, records) == a + Labelled(tp, base, records[..n]) + [r];
    }
  }

  lemma VisitAdds(m: Moment, start: Positions, before: Polled, after: Polled, tp: TopicPartition)
    requires tp in start && tp in before.positions && before.positions[tp] == start[tp]
    requires after == Visit(m, before, tp) && after.error.None?
    ensures after.records == before.records + Labelled(tp, start[tp], Available(m, start, tp))
  {
    if tp in m.failures {
      assert Labelled(tp, start[tp], []) == [];
    }
  }

  /** What a poll hands out of each partition it visits are the partition's records from
      the position it had, in order and each under its own offset; it hands out nothing of
      other partitions. */
  lemma {:induction false} PollContents(m: Moment, start: Positions, order: seq<TopicPartition>, tp: TopicPartition)
    requires Distinct(order) && (forall tp' :: tp' in order ==> tp' in start)
    requires PollAll(m, start, order).error.None?
    ensures Of(PollAll(m, start, order).records, tp)
         == if tp in order then Labelled(tp, start[tp], Available(m, start, tp)) else []
    decreases |order|
  {
    if order != [] {
      var last := order[|order| - 1];
      var init := order[..|order| - 1];
      PollSnoc(m, start, order);
      LastVisit(m, start, order);
      PollCounts(m, start, init);
      assert last !in init && (tp in order <==> tp in init || tp == last);
      PollContents(m, start, init, tp);
      var before, after := PollAll(m, start, init), PollAll(m, start, order);
      VisitAdds(m, start, before, after, last);
      OfLabelled(before.records, last, start[last], Available(m, start, last), tp);
    }
  }

  /** After a seek, a poll hands out of that partition what the store holds from the sought
      offset on, forwards or backwards of where the consumer was; nothing checks that the
      offset holds a record. */
  lemma SeekDirectsPoll(m: Moment, positions: Positions, tp: TopicPartition, offset: nat, order: seq<TopicPartition>)
    requires Distinct(order) && (forall tp' :: tp' in order ==> tp' in positions[tp := offset]) && tp in order
    requires PollAll(m, positions[tp := offset], order).error.None? && tp !in m.failures
    ensures Of(PollAll(m, positions[tp := offset], order).records, tp) == Labelled(tp, offset, m.ReadAt(tp, offset))
    ensures m.ReadAt(tp, offset) == [] <==> offset !in m.LogOf(tp).entries
  {
    PollContents(m, positions[tp := offset], order, tp);
    ReadIsRun(m.LogOf(tp), offset, CutOf(m.cuts, tp));
  }

  // ---------------------------------------------------------------------------
  // A consumer of one partition
  // ---------------------------------------------------------------------------

  ghost predicate Matches(r: ConsumeRecord, tp: TopicPartition, o: nat, log: Log) {
    r.tp == tp && r.offset == o && o in log.entries && log.entries[o] == r.record
  }

  /** The records are what the log holds from `start` on, each under its own offset. */
  ghost predicate LabelledRun(out: seq<ConsumeRecord>, tp: TopicPartition, start: nat, log: Log) {
    forall i :: 0 <= i < |out| ==> Matches(out[i], tp, start + i, log)
  }

  /** A poll of one partition is one visit. */
  lemma SingleVisit(tp: TopicPartition, at: nat, m: Moment)
    ensures PollAll(m, map[tp := at], [tp]) == Visit(m, Polled([], map[tp := at], None), tp)
  {
    assert [tp][..0] == [];
  }

  /** What one poll of one partition hands out */
  function Given(tp: TopicPartition, at: nat, m: Moment): seq<ConsumeRecord> {
    if tp in m.failures then [] else Labelled(tp, at, m.ReadAt(tp, at))
  }

  lemma SinglePoll(tp: TopicPartition, at: nat, m: Moment)
    ensures var p := PollAll(m, map[tp := at], [tp]);
            && (if p.error.Some? then [] else p.records) == Given(tp, at, m)
            && p.positions[tp] == at + |Given(tp, at, m)|
  {
    SingleVisit(tp, at, m);
  }

  lemma GivenIsRun(tp: TopicPartition, at: nat, m: Moment)
    ensures LabelledRun(Given(tp, at, m), tp, at, m.LogOf(tp))
  {
    var given, log := Given(tp, at, m), m.LogOf(tp);
    ReadIsRun(log, at, CutOf(m.cuts, tp));
    forall i | 0 <= i < |given| ensures Matches(given[i], tp, at + i, log) {
      assert at + i in log.entries && log.entries[at + i] == m.ReadAt(tp, at)[at + i - at];
    }
  }

  /** A successful poll that hands out nothing means the consumer is at the end of the run. */
  lemma EmptyPollMeansCaughtUp(tp: TopicPartition, at: nat, m: Moment)
    requires tp !in m.failures
    ensures PollAll(m, map[tp := at], [tp]).records == [] <==> at !in m.LogOf(tp).entries
  {
    SingleVisit(tp, at, m);
    ReadIsRun(m.LogOf(tp), at, CutOf(m.cuts, tp));
  }
}
