/** The partition store as one partition sees it: records appended to a shared write-ahead
    log, kept in memory until the log segment that holds them is moved to object storage,
    and merged there into larger objects. Appends, reads, tiering, compaction and crashes
    interleave freely, and each of them may fail halfway. Other partitions show only in that
    a segment may be left in place. */
module TieredStore {
  import opened Types
  import opened ColdIndex

  /** This partition's entries in each log segment, in the order they were appended */
  type Wal = map<nat, seq<Entry>>

  /** The range that tiering gives a segment: from its first entry to behind its last */
  function First(segment: seq<Entry>): nat {
    if segment == [] then 0 else segment[0].offset
  }

  function Behind(segment: seq<Entry>): nat {
    if segment == [] then 0 else segment[|segment| - 1].offset + 1
  }

  function ObjectKey(segment: seq<Entry>): Key {
    Key(First(segment), Behind(segment))
  }

  // --- The size of an object ---------------------------------------------------------------

  /** `threshold` is the size above which an upload is cut into parts. Local storage keeps
      records as they are; other storage compresses them first. `topicBytes` is the length of
      the topic's name, which goes with every record. */
  datatype Config = Config(threshold: nat, compressed: bool, topicBytes: nat)

  /** The serialized record with its topic, partition, offset and checksum */
  function EntrySize(e: Entry, topicBytes: nat): nat {
    49 + topicBytes + |e.record.value| + (if e.record.key.Some? then 8 + |e.record.key.value| else 0)
    + 16 * |e.record.headers| + HeaderBytes(e.record.headers)
  }

  function EntriesSize(data: seq<Entry>, topicBytes: nat): nat {
    if data == [] then 0
    else EntriesSize(data[..|data| - 1], topicBytes) + EntrySize(data[|data| - 1], topicBytes)
  }

  /** The object may be this large: the records after their number and before the checksum,
      or whatever compression makes of them. */
  predicate MayTake(c: Config, data: seq<Entry>, bytes: nat) {
    c.compressed || bytes == 8 + EntriesSize(data, c.topicBytes) + 4
  }

  /** An upload above the threshold only writes parts, under keys of their own that no read
      looks for; it leaves whatever is under the object's key as it is, and succeeds. */
  function Stored(c: Config, objects: Objects, key: Key, data: seq<Entry>, bytes: nat): Objects {
    if bytes <= c.threshold then objects[key := data] else objects
  }

  // --- States and steps ----------------------------------------------------------------------

  /** How far the pass over one segment has come; it is stuck for good when the index is
      asked for a range that ends before it begins. */
  datatype Tiering = NotTiering | Uploaded(segment: nat) | Registered(segment: nat) | Flipped(segment: nat) | Stuck

  /** How far a compaction has come. Its sources are downloaded one after the other, and
      `expected` is the offset at which the next one must begin; in the end they are deleted
      one by one. */
  datatype Compaction =
    | NotCompacting
    | Downloading(sources: seq<Key>, done: nat, data: seq<Entry>, expected: nat)
    | MergedUploaded(sources: seq<Key>)
    | MergeRecorded(sources: seq<Key>)
    | Replaced(left: seq<Key>)
  {
    /** All sources are there, and they end where the last one should. */
    predicate Complete() {
      Downloading? && sources != [] && done == |sources| && expected == Merged(sources).end
    }
  }

  /** A cold read that has its answer and has not left it in the cache yet */
  datatype Fetched = Fetched(offset: nat, run: seq<Entry>)

  /** `wal`, `manifest`, `torn` and `objects` survive a crash; `log` is what was durably
      appended last at each offset. `pending` are the entries that were put into memory and
      are on their way to the log. They may be for any offset and any number of them for the
      same one: the replication manager appends every record a second time, a produce call
      that follows a failed one starts over at the same offset, and overlapping calls use the
      same offsets. `kept` are those whose append has failed although the log has their
      frame. `manifest` is what can be read of the manifest file; once it is `torn`, what is
      written to it later cannot be. `plans` are the compactions that were planned and not
      begun. */
  datatype State = State(config: Config, log: Content, wal: Wal, active: nat,
                         manifest: seq<ManifestRecord>, torn: bool, objects: Objects,
                         hot: map<nat, Record>, cold: Cold, cache: Cache,
                         pending: map<nat, Entry>, kept: set<nat>, fetched: map<nat, Fetched>,
                         tiering: Tiering, compaction: Compaction, plans: seq<seq<Key>>)
  {
    function Durable(): Cold {
      Fold(manifest)
    }
  }

  function Init(c: Config): State {
    State(c, map[], map[0 := []], 0, [], false, map[], map[], map[], map[], map[], {}, map[], NotTiering, NotCompacting,
          [])
  }

  datatype AppendAction = Put(id: nat, entry: Entry) | WalOk(id: nat) | Keep(id: nat) | WalFail(id: nat) | Seal

  datatype ReadAction = Fetch(id: nat, offset: nat, count: nat) | Fill(id: nat) | Drop(offset: nat)

  datatype TierAction = Upload(segment: nat, bytes: nat) | BreakUpload(segment: nat) | RegisterRange | Flip | Panic
                      | Reclaim | Leave | ReclaimEmpty(segment: nat)

  datatype MergeAction = Plan(plans: seq<seq<Key>>) | Begin | Download | UploadMerged(bytes: nat) | BreakMerged
                       | RecordMerged(reported: bool) | Replace | DeleteSource(deleted: bool) | Abandon

  /** `Tear` is a manifest write, of this or another partition, that fails halfway. */
  datatype Action = Append(append: AppendAction) | Serve(read: ReadAction) | Tier(tier: TierAction)
                  | Merge(merge: MergeAction) | Tear | Crash(collected: set<Key>)

  /** Offsets found in the log segments */
  ghost predicate Has(segment: seq<Entry>, o: nat) {
    exists i :: 0 <= i < |segment| && segment[i].offset == o
  }

  ghost predicate InSegment(wal: Wal, q: nat, o: nat) {
    q in wal && Has(wal[q], o)
  }

  ghost predicate InWal(wal: Wal, o: nat) {
    exists q :: InSegment(wal, q, o)
  }

  /** What `insert_hot` leaves of the entries, later ones over earlier ones */
  function Entries(segment: seq<Entry>): map<nat, Record> {
    if segment == [] then map[]
    else
      var last := segment[|segment| - 1];
      Entries(segment[..|segment| - 1])[last.offset := last.record]
  }

  ghost predicate IsLast(wal: Wal, q: nat) {
    q in wal && forall r :: r in wal ==> r <= q
  }

  /** What recovery puts back into memory, segment by segment, later ones over earlier ones */
  ghost function HotOf(wal: Wal): map<nat, Record>
    decreases |wal|
  {
    if q: nat :| IsLast(wal, q) then HotOf(wal - {q}) + Entries(wal[q]) else map[]
  }

  lemma {:induction false} EntriesContents(segment: seq<Entry>, o: nat)
    ensures o in Entries(segment) <==> Has(segment, o)
    ensures o in Entries(segment) ==> Entry(o, Entries(segment)[o]) in segment
  {
    if segment != [] {
      var init, last := segment[..|segment| - 1], segment[|segment| - 1];
      EntriesContents(init, o);
      if Has(init, o) {
        var i :| 0 <= i < |init| && init[i].offset == o;
        assert segment[i].offset == o;
      }
      if Has(segment, o) && o != last.offset {
        var i :| 0 <= i < |segment| && segment[i].offset == o;
        assert init[i].offset == o;
      }
      if o == last.offset {
        assert segment[|segment| - 1].offset == o;
      }
    }
  }

  lemma {:induction false} LastExists(wal: Wal, q: nat, bound: nat)
    requires q in wal && forall r :: r in wal ==> r <= bound
    ensures exists r :: IsLast(wal, r)
    decreases bound - q
  {
    if !IsLast(wal, q) {
      var r :| r in wal && r > q;
      LastExists(wal, r, bound);
    }
  }

  lemma {:induction false} Bounded(wal: Wal) returns (bound: nat)
    ensures forall q :: q in wal ==> q <= bound
    decreases |wal|
  {
    if wal == map[] {
      bound := 0;
    } else {
      var q :| q in wal;
      var rest := wal - {q};
      bound := Bounded(rest);
      bound := Max(bound, q);
      assert forall r :: r in wal ==> r == q || r in rest;
    }
  }

  lemma HotOfLast(wal: Wal, q: nat)
    requires IsLast(wal, q)
    ensures HotOf(wal) == HotOf(wal - {q}) + Entries(wal[q])
  {
  }

  lemma HotOfNone(wal: Wal, o: nat)
    requires forall q :: !IsLast(wal, q)
    ensures HotOf(wal) == map[] && !InWal(wal, o)
  {
    if InWal(wal, o) {
      var q :| InSegment(wal, q, o);
      var bound := Bounded(wal);
      LastExists(wal, q, bound);
    }
  }

  /** The last segment that has the offset */
  ghost predicate IsNewest(wal: Wal, q: nat, o: nat) {
    InSegment(wal, q, o) && forall r: nat :: InSegment(wal, r, o) ==> r <= q
  }

  /** The record that was appended last at the offset, among those still in the log */
  ghost function Latest(wal: Wal, o: nat): Option<Record> {
    if q: nat :| IsNewest(wal, q, o) then EntriesContents(wal[q], o); Some(Entries(wal[q])[o]) else None
  }

  lemma LatestAt(wal: Wal, q: nat, o: nat)
    requires IsNewest(wal, q, o)
    ensures o in Entries(wal[q]) && Latest(wal, o) == Some(Entries(wal[q])[o])
  {
    EntriesContents(wal[q], o);
    assert forall p: nat :: IsNewest(wal, p, o) ==> p == q;
  }

  /** The segments before the last one decide, where the last one does not have the offset. */
  lemma NewestBefore(wal: Wal, q: nat, o: nat, p: nat)
    requires q in wal && !Has(wal[q], o)
    ensures IsNewest(wal, p, o) <==> IsNewest(wal - {q}, p, o)
  {
    forall r: nat ensures InSegment(wal, r, o) <==> InSegment(wal - {q}, r, o) {
    }
  }

  lemma InWalWithout(wal: Wal, q: nat, o: nat)
    requires q in wal && !Has(wal[q], o)
    ensures InWal(wal, o) <==> InWal(wal - {q}, o)
  {
    if InWal(wal, o) {
      var r :| InSegment(wal, r, o);
      assert InSegment(wal - {q}, r, o);
    } else if InWal(wal - {q}, o) {
      var r :| InSegment(wal - {q}, r, o);
      assert InSegment(wal, r, o);
    }
  }

  lemma LatestWithout(wal: Wal, q: nat, o: nat)
    requires q in wal && !Has(wal[q], o)
    ensures Latest(wal, o) == Latest(wal - {q}, o) && (InWal(wal, o) <==> InWal(wal - {q}, o))
  {
    InWalWithout(wal, q, o);
    if p: nat :| IsNewest(wal, p, o) {
      NewestBefore(wal, q, o, p);
      LatestAt(wal, p, o);
      LatestAt(wal - {q}, p, o);
    } else {
      forall p: nat ensures !IsNewest(wal - {q}, p, o) {
        NewestBefore(wal, q, o, p);
      }
    }
  }

  /** Recovery finds exactly the offsets in the log, each with the record appended last. */
  lemma {:induction false} HotOfContents(wal: Wal, o: nat)
    ensures o in HotOf(wal) <==> InWal(wal, o)
    ensures Latest(wal, o) == if o in HotOf(wal) then Some(HotOf(wal)[o]) else None
    decreases |wal|
  {
    if q: nat :| IsLast(wal, q) {
      HotOfLast(wal, q);
      EntriesContents(wal[q], o);
      if Has(wal[q], o) {
        assert InSegment(wal, q, o) && IsNewest(wal, q, o);
        LatestAt(wal, q, o);
      } else {
        HotOfContents(wal - {q}, o);
        LatestWithout(wal, q, o);
      }
    } else {
      HotOfNone(wal, o);
    }
  }

  function Without(hot: map<nat, Record>, start: nat, end: nat): map<nat, Record> {
    map o | o in hot && !(start <= o < end) :: hot[o]
  }

  /** The range in front of `o` reaches beyond `o`, and its object is there. */
  ghost predicate Downloadable(cold: Cold, objects: Objects, o: nat) {
    exists k :: k in objects && PointsTo(cold, k, o)
  }

  /** What the planner makes of the ranges in memory: runs of adjacent ones, one run after
      the other */
  ghost predicate Plannable(cold: Cold, plans: seq<seq<Key>>) {
    && (forall i :: 0 <= i < |plans| ==> |plans[i]| >= 2 && Adjacent(plans[i]) && AllLive(cold, plans[i]))
    && (forall i, j, k :: 0 <= i < j < |plans| && k in plans[i] ==> k.start < plans[j][0].start)
  }

  ghost predicate EnabledAppend(s: State, a: AppendAction) {
    match a
    case Put(id, _) => id !in s.pending
    case WalOk(id) => id in s.pending && id !in s.kept && s.active in s.wal
    case Keep(id) => id in s.pending && id !in s.kept && s.active in s.wal
    case WalFail(id) => id in s.pending
    case Seal => s.active in s.wal
  }

  ghost predicate EnabledRead(s: State, a: ReadAction) {
    match a
    case Fetch(id, o, n) =>
      && id !in s.fetched && o !in s.hot && o !in s.cache && Downloadable(s.cold, s.objects, o)
      && var found := ReadCold(s.cold, s.objects, map[], o);
         n <= |found| && (found != [] ==> n > 0)
    case Fill(id) => id in s.fetched
    case Drop(o) => o in s.cache
  }

  ghost predicate EnabledTiering(s: State, a: TierAction) {
    match a
    case Upload(q, bytes) =>
      && s.tiering.NotTiering? && q in s.wal && q != s.active && s.wal[q] != []
      && MayTake(s.config, s.wal[q], bytes)
    case BreakUpload(q) => s.tiering.NotTiering? && q in s.wal && q != s.active && s.wal[q] != []
    case RegisterRange => s.tiering.Uploaded? && s.tiering.segment in s.wal
    case Flip =>
      && s.tiering.Registered? && s.tiering.segment in s.wal
      && First(s.wal[s.tiering.segment]) <= Behind(s.wal[s.tiering.segment])
    case Panic =>
      && s.tiering.Registered? && s.tiering.segment in s.wal
      && First(s.wal[s.tiering.segment]) > Behind(s.wal[s.tiering.segment])
    case Reclaim => s.tiering.Flipped? && s.tiering.segment in s.wal
    case Leave => !s.tiering.NotTiering? && !s.tiering.Stuck?
    case ReclaimEmpty(q) => s.tiering.NotTiering? && q in s.wal && q != s.active && s.wal[q] == []
  }

  ghost predicate EnabledCompaction(s: State, a: MergeAction) {
    var c := s.compaction;
    match a
    case Plan(plans) => c.NotCompacting? && s.plans == [] && Plannable(s.cold, plans)
    case Begin => c.NotCompacting? && s.plans != [] && s.plans[0] != []
    case Download =>
      && c.Downloading? && c.done < |c.sources| && c.sources[c.done] in s.objects
      && var data := s.objects[c.sources[c.done]];
         data == [] || data[0].offset == c.expected
    case UploadMerged(bytes) => c.Complete() && MayTake(s.config, c.data, bytes)
    case BreakMerged => c.Complete()
    case RecordMerged(_) => c.MergedUploaded? && c.sources != []
    case Replace => c.MergeRecorded? && c.sources != [] && Merged(c.sources).start <= Merged(c.sources).end
    case DeleteSource(_) => c.Replaced? && c.left != []
    case Abandon => c.Downloading? || c.MergedUploaded? || c == Replaced([])
  }

  ghost predicate Enabled(s: State, a: Action) {
    match a
    case Append(b) => EnabledAppend(s, b)
    case Serve(b) => EnabledRead(s, b)
    case Tier(b) => EnabledTiering(s, b)
    case Merge(b) => EnabledCompaction(s, b)
    case Tear => true
    case Crash(collected) => collected <= Orphans(s.manifest)
  }

  /** The record goes into memory first, then to the log. If that fails the entry at its
      offset is removed again, whichever record it is by then, and the failed frame may stay
      behind in the writer's buffer and reach the disk with the next write. */
  ghost function StepAppend(s: State, a: AppendAction): State
    requires EnabledAppend(s, a)
  {
    match a
    case Put(id, e) =>
      s.(hot := s.hot[e.offset := e.record], pending := s.pending[id := e])
    case WalOk(id) =>
      var e := s.pending[id];
      s.(log := s.log[e.offset := e.record], wal := s.wal[s.active := s.wal[s.active] + [e]],
         pending := s.pending - {id})
    case Keep(id) =>
      s.(wal := s.wal[s.active := s.wal[s.active] + [s.pending[id]]], kept := s.kept + {id})
    case WalFail(id) =>
      s.(hot := s.hot - {s.pending[id].offset}, pending := s.pending - {id}, kept := s.kept - {id})
    case Seal =>
      s.(wal := s.wal[s.active + 1 := []], active := s.active + 1)
  }

  /** A cold read downloads the object of the range in front, and leaves its answer in the
      cache, from where entries are dropped at any time. */
  ghost function StepRead(s: State, a: ReadAction): State
    requires EnabledRead(s, a)
  {
    match a
    case Fetch(id, o, n) =>
      s.(fetched := s.fetched[id := Fetched(o, ReadCold(s.cold, s.objects, map[], o)[..n])])
    case Fill(id) =>
      s.(cache := s.cache[s.fetched[id].offset := s.fetched[id].run], fetched := s.fetched - {id})
    case Drop(o) =>
      s.(cache := s.cache - {o})
  }

  ghost function StepTiering(s: State, a: TierAction): State
    requires EnabledTiering(s, a)
  {
    match a
    case Upload(q, bytes) =>
      s.(objects := Stored(s.config, s.objects, ObjectKey(s.wal[q]), s.wal[q], bytes), tiering := Uploaded(q))
    case BreakUpload(q) =>
      s.(objects := s.objects - {ObjectKey(s.wal[q])})
    case RegisterRange =>
      var key := ObjectKey(s.wal[s.tiering.segment]);
      s.(manifest := if s.torn then s.manifest else s.manifest + [Register(key.start, key.end, key)],
         tiering := Registered(s.tiering.segment))
    case Flip =>
      var key := ObjectKey(s.wal[s.tiering.segment]);
      s.(hot := Without(s.hot, key.start, key.end), cold := InsertCold(s.cold, key.start, key.end, key),
         tiering := Flipped(s.tiering.segment))
    case Panic =>
      s.(tiering := Stuck)
    case Reclaim =>
      s.(wal := s.wal - {s.tiering.segment}, tiering := NotTiering)
    case Leave =>
      s.(tiering := NotTiering)
    case ReclaimEmpty(q) =>
      s.(wal := s.wal - {q})
  }

  ghost function StepCompaction(s: State, a: MergeAction): State
    requires EnabledCompaction(s, a)
  {
    var c := s.compaction;
    match a
    case Plan(plans) =>
      s.(plans := plans)
    case Begin =>
      s.(compaction := Downloading(s.plans[0], 0, [], s.plans[0][0].start), plans := s.plans[1..])
    case Download =>
      var data := s.objects[c.sources[c.done]];
      s.(compaction := Downloading(c.sources, c.done + 1, c.data + data,
                                   if data == [] then c.expected else Behind(data)))
    case UploadMerged(bytes) =>
      s.(objects := Stored(s.config, s.objects, Merged(c.sources), c.data, bytes),
         compaction := MergedUploaded(c.sources))
    case BreakMerged =>
      s.(objects := s.objects - {Merged(c.sources)}, compaction := NotCompacting)
    case RecordMerged(reported) =>
      var m := Merged(c.sources);
      s.(manifest := if s.torn then s.manifest else s.manifest + [Compact(m.start, m.end, m, c.sources)],
         compaction := if reported then MergeRecorded(c.sources) else NotCompacting)
    case Replace =>
      var m := Merged(c.sources);
      s.(cold := ReplaceCold(s.cold, m.start, m.end, m), compaction := Replaced(c.sources))
    case DeleteSource(deleted) =>
      s.(objects := if deleted then s.objects - {c.left[0]} else s.objects, compaction := Replaced(c.left[1..]))
    case Abandon =>
      s.(compaction := NotCompacting)
  }

  /** Recovery cuts the manifest off where it is torn, deletes superseded objects as far as it
      can, and puts what is left of the log into memory. */
  ghost function Recovered(s: State, collected: set<Key>): State {
    s.(wal := s.wal[s.active + 1 := []], active := s.active + 1, torn := false, objects := s.objects - collected,
       hot := HotOf(s.wal), cold := Fold(s.manifest), cache := map[], pending := map[], kept := {}, fetched := map[],
       tiering := NotTiering, compaction := NotCompacting, plans := [])
  }

  ghost function Step(s: State, a: Action): State
    requires Enabled(s, a)
  {
    match a
    case Append(b) => StepAppend(s, b)
    case Serve(b) => StepRead(s, b)
    case Tier(b) => StepTiering(s, b)
    case Merge(b) => StepCompaction(s, b)
    case Tear => s.(torn := true)
    case Crash(collected) => Recovered(s, collected)
  }

  ghost predicate Follows(before: State, a: Action, s: State) {
    Enabled(before, a) && s == Step(before, a)
  }

  /** A run from the start, with the states it passes through */
  ghost predicate Trace(states: seq<State>, actions: seq<Action>) {
    && |states| == |actions| + 1 && states[0] == Init(states[0].config)
    && forall k :: 0 <= k < |actions| ==> Follows(states[k], actions[k], states[k + 1])
  }

  // --- Reading -------------------------------------------------------------------------

  /** The dense run of entries in memory from `o` on */
  function HotRun(hot: map<nat, Record>, o: nat): (run: seq<Entry>)
    ensures o + |run| !in hot
    ensures forall i :: 0 <= i < |run| ==>
              run[i].offset == o + i && run[i].offset in hot && run[i].record == hot[run[i].offset]
    decreases hot.Keys - set p | p in hot && p < o
  {
    if o !in hot then []
    else
      assert (hot.Keys - set p | p in hot && p < o + 1) == (hot.Keys - set p | p in hot && p < o) - {o};
      var rest := HotRun(hot, o + 1);
      [Entry(o, hot[o])] + rest
  }

  /** What a read at `o` yields without a byte budget: a run from memory, or else what the
      range in front of `o` yields */
  ghost function Read(s: State, o: nat): seq<Entry> {
    if o in s.hot then HotRun(s.hot, o) else ReadCold(s.cold, s.objects, s.cache, o)
  }

  ghost predicate IsPending(s: State, e: Entry) {
    exists id :: id in s.pending && s.pending[id] == e
  }

  /** The entry is what the log holds at `o`, or, in a read from memory, what is being
      appended there. */
  ghost predicate Current(s: State, e: Entry, o: nat, fromMemory: bool) {
    IsAt(e, s.log, o) || (fromMemory && e.offset == o && IsPending(s, e))
  }

  /** The read yields current entries from `o` on without a gap, and it yields one if the log
      has a record at `o`. */
  ghost predicate Right(s: State, o: nat) {
    var r := Read(s, o);
    (o in s.log ==> r != []) && forall i :: 0 <= i < |r| ==> Current(s, r[i], o + i, o in s.hot)
  }

  ghost predicate Serves(s: State) {
    forall o: nat :: Right(s, o)
  }

  /** Whenever the broker crashes now, and whichever superseded objects recovery collects,
      reads are right again. */
  ghost predicate Survives(s: State) {
    forall collected :: Enabled(s, Crash(collected)) ==> Serves(Step(s, Crash(collected)))
  }
}
