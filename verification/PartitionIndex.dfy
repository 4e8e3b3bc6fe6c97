/** The offset index of all partitions: records in memory, ranges in object storage, and the
    number of bytes held in memory. */
module PartitionIndex {
  import opened Types
  import opened MapSums
  import opened ColdIndex
  import TieredStore

  datatype HotEntry = HotEntry(record: Record, size: nat)

  datatype PartitionEntries = PartitionEntries(hot: map<nat, HotEntry>, cold: Cold, next: nat)

  const NO_ENTRIES := PartitionEntries(map[], map[], 0)

  /** Records as a reader sees them */
  function Records(hot: map<nat, HotEntry>): map<nat, Record> {
    map o | o in hot :: hot[o].record
  }

  ghost function Sizes(hot: map<nat, HotEntry>): map<nat, nat> {
    map o | o in hot :: hot[o].size
  }

  ghost function HotBytes(hot: map<nat, HotEntry>): nat {
    Sum(Sizes(hot))
  }

  type Inner = map<TopicPartition, PartitionEntries>

  ghost function BytesBy(inner: Inner): map<TopicPartition, nat> {
    map tp | tp in inner :: HotBytes(inner[tp].hot)
  }

  /** Nothing is indexed at or beyond `next`. */
  ghost predicate Indexed(e: PartitionEntries) {
    && (forall o :: o in e.hot ==> o < e.next)
    && (forall st :: st in e.cold ==> e.cold[st].end <= e.next)
  }

  lemma HotBytesOfInsert(hot: map<nat, HotEntry>, o: nat, entry: HotEntry)
    ensures HotBytes(hot[o := entry]) + (if o in hot then hot[o].size else 0) == HotBytes(hot) + entry.size
  {
    SumOfUpdate(Sizes(hot), o, entry.size);
    assert Sizes(hot)[o := entry.size] == Sizes(hot[o := entry]);
  }

  lemma HotBytesOfRemove(hot: map<nat, HotEntry>, o: nat)
    requires o in hot
    ensures HotBytes(hot) == hot[o].size + HotBytes(hot - {o})
  {
    SumWithout(Sizes(hot), o);
    assert Sizes(hot) - {o} == Sizes(hot - {o});
  }

  /** Replacing one partition's entries changes the total by that partition's difference. */
  lemma BytesOfUpdate(inner: Inner, tp: TopicPartition, e: PartitionEntries)
    ensures Sum(BytesBy(inner[tp := e])) + (if tp in inner then HotBytes(inner[tp].hot) else 0)
         == Sum(BytesBy(inner)) + HotBytes(e.hot)
  {
    SumOfUpdate(BytesBy(inner), tp, HotBytes(e.hot));
    assert BytesBy(inner)[tp := HotBytes(e.hot)] == BytesBy(inner[tp := e]);
  }

  datatype ReadPlan = Hot(records: seq<Record>) | Cold(objectKey: Key, start: nat, end: nat) | Empty

  /** The dense run of records in memory from `cur` that fits the byte budget */
  function Run(hot: map<nat, HotEntry>, cur: nat, used: nat, maxBytes: nat, first: bool): seq<Record>
    decreases hot.Keys - set o | o in hot && o < cur
  {
    if cur !in hot || (!first && used + hot[cur].size > maxBytes) then []
    else
      assert (hot.Keys - set o | o in hot && o < cur + 1) == (hot.Keys - set o | o in hot && o < cur) - {cur};
      [hot[cur].record] + Run(hot, cur + 1, used + hot[cur].size, maxBytes, false)
  }

  lemma {:induction false} RunIsDense(hot: map<nat, HotEntry>, cur: nat, used: nat, maxBytes: nat, first: bool, i: nat)
    requires i < |Run(hot, cur, used, maxBytes, first)|
    ensures cur + i in hot && Run(hot, cur, used, maxBytes, first)[i] == hot[cur + i].record
    decreases i
  {
    if i > 0 {
      RunIsDense(hot, cur + 1, used + hot[cur].size, maxBytes, false, i - 1);
    }
  }

  /** The loop of `read_plan` */
  method DenseRun(hot: map<nat, HotEntry>, offset: nat, maxBytes: nat) returns (records: seq<Record>)
    ensures records == Run(hot, offset, 0, maxBytes, true)
  {
    records := [];
    var bytes: nat, cur: nat := 0, offset;
    while cur in hot
      invariant cur == offset + |records|
      invariant Run(hot, offset, 0, maxBytes, true) == records + Run(hot, cur, bytes, maxBytes, records == [])
      decreases hot.Keys - set o | o in hot && o < cur
    {
      var next := bytes + hot[cur].size;
      if records != [] && next > maxBytes {
        break;
      }
      assert (hot.Keys - set o | o in hot && o < cur + 1) == (hot.Keys - set o | o in hot && o < cur) - {cur};
      records := records + [hot[cur].record];
      bytes := next;
      cur := cur + 1;
    }
  }

  /** The eviction loop of `flip_to_cold` */
  method Evict(hot: map<nat, HotEntry>, start: nat, end: nat) returns (kept: map<nat, HotEntry>, freed: nat)
    ensures kept == map o | o in hot && !(start <= o < end) :: hot[o]
    ensures freed + HotBytes(kept) == HotBytes(hot)
  {
    kept, freed := hot, 0;
    var remove := set o | o in hot && start <= o < end;
    while remove != {}
      invariant remove <= kept.Keys && (forall o :: o in remove ==> start <= o < end)
      invariant forall o :: o in kept <==> o in hot && (o in remove || !(start <= o < end))
      invariant forall o :: o in kept ==> kept[o] == hot[o]
      invariant freed + HotBytes(kept) == HotBytes(hot)
      decreases remove
    {
      var o :| o in remove;
      HotBytesOfRemove(kept, o);
      freed := freed + kept[o].size;
      kept := kept - {o};
      remove := remove - {o};
    }
  }

  /** `range(..=offset).next_back()` */
  method FloorOf(cold: Cold, offset: nat) returns (floor: Option<nat>)
    ensures floor.Some? ==> IsFloor(cold, offset, floor.value)
    ensures floor.None? ==> forall st :: !IsFloor(cold, offset, st)
  {
    floor := None;
    var pending := cold.Keys;
    while pending != {}
      invariant pending <= cold.Keys
      invariant floor.Some? ==> floor.value in cold && floor.value <= offset
                                && forall t :: t in cold && t !in pending && t <= offset ==> t <= floor.value
      invariant floor.None? ==> forall t :: t in cold && t !in pending ==> t > offset
      decreases pending
    {
      var st :| st in pending;
      pending := pending - {st};
      if st <= offset && (floor.None? || floor.value < st) {
        floor := Some(st);
      }
    }
  }

  class PartitionIndex {
    var inner: Inner
    var hotBytes: nat

    ghost predicate Valid()
      reads this
    {
      hotBytes == Sum(BytesBy(inner)) && forall tp :: tp in inner ==> Indexed(inner[tp])
    }

    function EntriesOf(tp: TopicPartition): PartitionEntries
      reads this
    {
      if tp in inner then inner[tp] else NO_ENTRIES
    }

    constructor ()
      ensures Valid() && inner == map[]
    {
      inner, hotBytes := map[], 0;
    }

    lemma HotBytesOfEntries(tp: TopicPartition)
      requires Valid()
      ensures HotBytes(EntriesOf(tp).hot) <= hotBytes
    {
      if tp in inner {
        SumWithout(BytesBy(inner), tp);
      }
    }

    /** One partition's entries change, and the byte count with them. */
    method Put(tp: TopicPartition, e: PartitionEntries, freed: nat, added: nat)
      requires Valid() && Indexed(e) && freed <= HotBytes(EntriesOf(tp).hot)
      requires HotBytes(e.hot) + freed == HotBytes(EntriesOf(tp).hot) + added
      modifies this
      ensures Valid() && inner == old(inner)[tp := e]
    {
      HotBytesOfEntries(tp);
      BytesOfUpdate(inner, tp, e);
      hotBytes := hotBytes - freed + added;
      inner := inner[tp := e];
    }

    /** `insert_hot` */
    method InsertHot(tp: TopicPartition, offset: nat, record: Record, size: nat)
      requires Valid()
      modifies this
      ensures Valid()
      ensures inner == old(inner)[tp := PartitionEntries(old(EntriesOf(tp)).hot[offset := HotEntry(record, size)],
                                                         old(EntriesOf(tp)).cold,
                                                         Max(old(EntriesOf(tp)).next, offset + 1))]
    {
      var e := EntriesOf(tp);
      var freed := if offset in e.hot then e.hot[offset].size else 0;
      HotBytesOfInsert(e.hot, offset, HotEntry(record, size));
      if offset in e.hot {
        HotBytesOfRemove(e.hot, offset);
      }
      Put(tp, PartitionEntries(e.hot[offset := HotEntry(record, size)], e.cold, Max(e.next, offset + 1)), freed, size);
    }

    /** `remove_hot` */
    method RemoveHot(tp: TopicPartition, offset: nat)
      requires Valid()
      modifies this
      ensures Valid()
      ensures inner == if tp in old(inner)
                       then old(inner)[tp := old(inner)[tp].(hot := old(inner)[tp].hot - {offset})] else old(inner)
    {
      if tp in inner {
        var e := inner[tp];
        if offset in e.hot {
          HotBytesOfRemove(e.hot, offset);
          Put(tp, e.(hot := e.hot - {offset}), e.hot[offset].size, 0);
        } else {
          assert e.hot - {offset} == e.hot;
        }
      }
    }

    /** `flip_to_cold`: the range leaves memory and its object takes its place. Asking the
        ordered map for a range that ends before it begins is a panic. */
    method FlipToCold(tp: TopicPartition, start: nat, end: nat, key: Key)
      requires Valid() && start <= end
      modifies this
      ensures Valid()
      ensures var e := old(EntriesOf(tp));
              inner == old(inner)[tp := PartitionEntries(map o | o in e.hot && !(start <= o < end) :: e.hot[o],
                                                         ColdIndex.InsertCold(e.cold, start, end, key),
                                                         Max(e.next, end))]
    {
      var e := EntriesOf(tp);
      var hot, freed := Evict(e.hot, start, end);
      Put(tp, PartitionEntries(hot, e.cold[start := Range(end, key)], Max(e.next, end)), freed, 0);
    }

    /** `insert_cold` */
    method InsertCold(tp: TopicPartition, start: nat, end: nat, key: Key)
      requires Valid()
      modifies this
      ensures Valid()
      ensures var e := old(EntriesOf(tp));
              inner == old(inner)[tp := e.(cold := ColdIndex.InsertCold(e.cold, start, end, key),
                                           next := Max(e.next, end))]
    {
      var e := EntriesOf(tp);
      Put(tp, e.(cold := e.cold[start := Range(end, key)], next := Max(e.next, end)), 0, 0);
    }

    /** `replace_cold`, which panics like `flip_to_cold` */
    method ReplaceCold(tp: TopicPartition, start: nat, end: nat, key: Key)
      requires Valid() && start <= end
      modifies this
      ensures Valid()
      ensures var e := old(EntriesOf(tp));
              inner == old(inner)[tp := e.(cold := ColdIndex.ReplaceCold(e.cold, start, end, key),
                                           next := Max(e.next, end))]
    {
      var e := EntriesOf(tp);
      var cold := Subsume(e.cold, start, end);
      Put(tp, e.(cold := cold[start := Range(end, key)], next := Max(e.next, end)), 0, 0);
    }

    /** `read_plan`: a dense run from memory, or else the one range that holds the offset */
    method Plan(tp: TopicPartition, offset: nat, maxBytes: nat) returns (plan: ReadPlan)
      requires Valid()
      ensures var e := EntriesOf(tp);
              match plan
              case Hot(records) => offset in e.hot && records == Run(e.hot, offset, 0, maxBytes, true)
              case Cold(key, start, end) =>
                offset !in e.hot && IsFloor(e.cold, offset, start) && offset < end && e.cold[start] == Range(end, key)
              case Empty =>
                offset !in e.hot && forall st :: IsFloor(e.cold, offset, st) ==> e.cold[st].end <= offset
    {
      if tp !in inner {
        return Empty;
      }
      var e := inner[tp];
      if offset >= e.next {
        return Empty;
      }
      if offset in e.hot {
        var records := DenseRun(e.hot, offset, maxBytes);
        return Hot(records);
      }
      var floor := FloorOf(e.cold, offset);
      if floor.Some? && offset < e.cold[floor.value].end {
        return Cold(e.cold[floor.value].key, floor.value, e.cold[floor.value].end);
      }
      return Empty;
    }
  }

  /** What `flip_to_cold` leaves in memory is what the step of the tiering pass leaves. */
  lemma EvictedRecords(hot: map<nat, HotEntry>, start: nat, end: nat)
    ensures Records(map o | o in hot && !(start <= o < end) :: hot[o]) == TieredStore.Without(Records(hot), start, end)
  {
  }
}
