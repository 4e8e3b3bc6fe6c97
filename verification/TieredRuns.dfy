/** Runs on which reads go wrong: an object above the upload threshold, a failed append that
    stays in the log, an outdated cache entry, a torn manifest, an upload that breaks off,
    overlapping appends, appends made again by the replication manager, and segments tiered
    again whose range was merged. */
module TieredRuns {
  import opened Types
  import opened ColdIndex
  import opened TieredStore
  import opened TieredExact

  ghost predicate Reachable(s: State) {
    exists states, actions :: Trace(states, actions) && states[|actions|] == s
  }

  lemma Start(c: Config)
    ensures Reachable(Init(c))
  {
    assert Trace([Init(c)], []);
  }

  lemma Go(s: State, a: Action, s': State)
    requires Reachable(s) && Enabled(s, a) && s' == Step(s, a)
    ensures Reachable(s')
  {
    var states, actions :| Trace(states, actions) && states[|actions|] == s;
    var states', actions' := states + [s'], actions + [a];
    forall k | 0 <= k < |actions'| ensures Follows(states'[k], actions'[k], states'[k + 1]) {
      if k < |actions| {
        assert Follows(states[k], actions[k], states[k + 1]);
      }
    }
    assert Trace(states', actions');
  }

  // --- Stretches of runs ----------------------------------------------------------------

  /** Nothing is under way. */
  predicate Quiet(s: State) {
    && s.pending == map[] && s.kept == {} && s.fetched == map[] && s.tiering.NotTiering? && s.plans == []
    && s.active in s.wal
  }

  lemma Putting(s: State, id: nat, e: Entry) returns (s': State)
    requires Reachable(s) && id !in s.pending
    ensures Reachable(s') && s' == s.(hot := s.hot[e.offset := e.record], pending := s.pending[id := e])
  {
    s' := StepAppend(s, Put(id, e));
    Go(s, Append(Put(id, e)), s');
  }

  /** One record is appended. */
  lemma Appended(s: State, e: Entry) returns (s': State)
    requires Reachable(s) && Quiet(s)
    ensures Reachable(s')
    ensures s' == s.(log := s.log[e.offset := e.record], hot := s.hot[e.offset := e.record],
                     wal := s.wal[s.active := s.wal[s.active] + [e]])
  {
    var s1 := Putting(s, 0, e);
    s' := StepAppend(s1, WalOk(0));
    Go(s1, Append(WalOk(0)), s');
    assert s1.pending - {0} == map[];
  }

  /** The append of a record fails, and its frame stays in the log. */
  lemma FailedKept(s: State, e: Entry) returns (s': State)
    requires Reachable(s) && Quiet(s) && e.offset !in s.hot
    ensures Reachable(s') && s' == s.(wal := s.wal[s.active := s.wal[s.active] + [e]])
  {
    var s1 := Putting(s, 0, e);
    var s2 := StepAppend(s1, Keep(0));
    Go(s1, Append(Keep(0)), s2);
    s' := StepAppend(s2, WalFail(0));
    Go(s2, Append(WalFail(0)), s');
    assert s2.hot - {e.offset} == s.hot && s2.pending - {0} == map[] && s2.kept - {0} == {};
  }

  lemma Sealed(s: State) returns (s': State)
    requires Reachable(s) && s.active in s.wal
    ensures Reachable(s') && s' == s.(wal := s.wal[s.active + 1 := []], active := s.active + 1)
  {
    s' := StepAppend(s, Seal);
    Go(s, Append(Seal), s');
  }

  /** A whole pass over a segment, which is reclaimed in the end or left in place, as when
      another partition's records in it are fenced. */
  lemma Tiered(s: State, q: nat, bytes: nat, reclaim: bool) returns (s': State)
    requires Reachable(s) && EnabledTiering(s, Upload(q, bytes)) && First(s.wal[q]) <= Behind(s.wal[q])
    ensures Reachable(s')
    ensures var key := ObjectKey(s.wal[q]);
            s' == s.(objects := Stored(s.config, s.objects, key, s.wal[q], bytes),
                     manifest := if s.torn then s.manifest else s.manifest + [Register(key.start, key.end, key)],
                     hot := Without(s.hot, key.start, key.end), cold := InsertCold(s.cold, key.start, key.end, key),
                     wal := if reclaim then s.wal - {q} else s.wal)
  {
    var s1 := StepTiering(s, Upload(q, bytes));
    Go(s, Tier(Upload(q, bytes)), s1);
    var s2 := StepTiering(s1, RegisterRange);
    Go(s1, Tier(RegisterRange), s2);
    var s3 := StepTiering(s2, Flip);
    Go(s2, Tier(Flip), s3);
    var last := if reclaim then Reclaim else Leave;
    s' := StepTiering(s3, last);
    Go(s3, Tier(last), s');
  }

  /** A read at `o` downloads everything from `o` on and leaves it in the cache. */
  lemma ReadIntoCache(s: State, o: nat) returns (s': State)
    requires Reachable(s) && Quiet(s) && o !in s.hot && o !in s.cache && Downloadable(s.cold, s.objects, o)
    ensures Reachable(s') && s' == s.(cache := s.cache[o := ReadCold(s.cold, s.objects, map[], o)])
  {
    var found := ReadCold(s.cold, s.objects, map[], o);
    var s1 := StepRead(s, Fetch(0, o, |found|));
    Go(s, Serve(Fetch(0, o, |found|)), s1);
    s' := StepRead(s1, Fill(0));
    Go(s1, Serve(Fill(0)), s');
    assert found[..|found|] == found && s1.fetched - {0} == map[];
  }

  lemma BothDownloaded(s: State, first: Key, second: Key) returns (s': State)
    requires Reachable(s) && s.compaction == Downloading([first, second], 0, [], first.start)
    requires first.end == second.start
    requires first in s.objects && ObjectKey(s.objects[first]) == first && s.objects[first] != []
    requires second in s.objects && ObjectKey(s.objects[second]) == second && s.objects[second] != []
    ensures Reachable(s')
    ensures s'
            == s.(compaction := Downloading([first, second], 2, [] + s.objects[first] + s.objects[second], second.end))
  {
    var s1 := StepCompaction(s, Download);
    Go(s, Merge(Download), s1);
    s' := StepCompaction(s1, Download);
    Go(s1, Merge(Download), s');
  }

  /** The planner finds one run of two ranges, and their objects are downloaded. */
  lemma Downloaded(s: State, first: Key, second: Key) returns (s': State)
    requires Reachable(s) && Quiet(s) && s.compaction.NotCompacting?
    requires first.start < first.end == second.start < second.end && Live(s.cold, first) && Live(s.cold, second)
    requires first in s.objects && ObjectKey(s.objects[first]) == first && s.objects[first] != []
    requires second in s.objects && ObjectKey(s.objects[second]) == second && s.objects[second] != []
    ensures Reachable(s')
    ensures s' == s.(compaction := Downloading([first, second], 2, s.objects[first] + s.objects[second], second.end))
  {
    var sources := [first, second];
    assert Adjacent(sources) && AllLive(s.cold, sources);
    var s1 := StepCompaction(s, Plan([sources]));
    Go(s, Merge(Plan([sources])), s1);
    var s2 := StepCompaction(s1, Begin);
    Go(s1, Merge(Begin), s2);
    assert s2 == s.(compaction := Downloading(sources, 0, [], first.start));
    s' := BothDownloaded(s2, first, second);
    assert [] + s.objects[first] == s.objects[first];
  }

  /** The merge is uploaded and put in the place of its sources. */
  lemma MergeRegistered(s: State, bytes: nat) returns (s': State)
    requires Reachable(s) && EnabledCompaction(s, UploadMerged(bytes)) && !s.torn
    requires Merged(s.compaction.sources).start <= Merged(s.compaction.sources).end
    ensures Reachable(s')
    ensures var sources, m := s.compaction.sources, Merged(s.compaction.sources);
            s' == s.(objects := Stored(s.config, s.objects, m, s.compaction.data, bytes),
                     manifest := s.manifest + [Compact(m.start, m.end, m, sources)],
                     cold := ReplaceCold(s.cold, m.start, m.end, m), compaction := Replaced(sources))
  {
    var s1 := StepCompaction(s, UploadMerged(bytes));
    Go(s, Merge(UploadMerged(bytes)), s1);
    var s2 := StepCompaction(s1, RecordMerged(true));
    Go(s1, Merge(RecordMerged(true)), s2);
    s' := StepCompaction(s2, Replace);
    Go(s2, Merge(Replace), s');
  }

  /** The sources of a compaction are deleted. */
  lemma {:induction false} SourcesDeleted(s: State, left: seq<Key>) returns (s': State)
    requires Reachable(s) && s.compaction == Replaced(left)
    ensures Reachable(s')
    ensures s' == s.(objects := s.objects - Set(left), compaction := Replaced([]))
    decreases |left|
  {
    if left == [] {
      s' := s;
      assert s.objects - Set(left) == s.objects;
    } else {
      var s1 := StepCompaction(s, DeleteSource(true));
      Go(s, Merge(DeleteSource(true)), s1);
      s' := SourcesDeleted(s1, left[1..]);
      assert (s.objects - {left[0]}) - Set(left[1..]) == s.objects - Set(left);
    }
  }

  // --- Reads that go wrong ----------------------------------------------------------------

  /** A read through a single range */
  lemma ReadOne(cold: Cold, objects: Objects, cache: Cache, start: nat, end: nat, key: Key, o: nat)
    requires cold == map[start := Range(end, key)] && start <= o
    ensures ReadCold(cold, objects, cache, o) == Yield(Range(end, key), objects, cache, o)
  {
    assert IsFloor(cold, o, start);
    ReadAtFloor(cold, objects, cache, o, start);
  }

  lemma WrongAt(s: State, o: nat, i: nat)
    requires i < |Read(s, o)| && !Current(s, Read(s, o)[i], o + i, o in s.hot)
    ensures !Right(s, o)
  {
  }

  /** The record at `o` can no longer be read, and a crash and recovery do not bring it back. */
  ghost predicate Lost(s: State, o: nat) {
    && Reachable(s) && o in s.log && Read(s, o) == []
    && Reachable(Recovered(s, {})) && Read(Recovered(s, {}), o) == []
  }

  lemma IsLost(s: State, o: nat)
    requires Reachable(s) && o in s.log && o !in s.hot && !InWal(s.wal, o)
    requires ReadCold(s.cold, s.objects, s.cache, o) == [] && ReadCold(Fold(s.manifest), s.objects, map[], o) == []
    ensures Lost(s, o)
  {
    Go(s, Crash({}), Recovered(s, {}));
    HotOfContents(s.wal, o);
    assert s.objects - {} == s.objects;
  }

  lemma NothingInWal(wal: Wal, o: nat)
    requires forall q :: q in wal ==> forall i :: 0 <= i < |wal[q]| ==> wal[q][i].offset != o
    ensures !InWal(wal, o)
  {
  }

  lemma FoldTwo(first: ManifestRecord, second: ManifestRecord)
    ensures Fold([first]) == Apply(map[], first) && Fold([first, second]) == Apply(Apply(map[], first), second)
  {
    assert [first][..0] == [];
    assert [first, second][..1] == [first];
  }

  // --- States on the way --------------------------------------------------------------------

  const K0 := Key(0, 1)
  const K1 := Key(1, 2)
  const K01 := Key(0, 2)

  /** Nothing is under way and nothing is cached. */
  function Idle(c: Config, log: Content, wal: Wal, active: nat, manifest: seq<ManifestRecord>, objects: Objects,
                hot: map<nat, Record>, cold: Cold): State {
    State(c, log, wal, active, manifest, false, objects, hot, cold, map[], map[], {}, map[], NotTiering, NotCompacting,
          [])
  }

  /** The size of an object that is not compressed */
  function PlainSize(c: Config, data: seq<Entry>): nat {
    8 + EntriesSize(data, c.topicBytes) + 4
  }

  lemma PlainMayTake(c: Config, data: seq<Entry>)
    ensures MayTake(c, data, PlainSize(c, data))
  {
  }

  lemma PlainSizes(c: Config, a: Entry, b: Entry)
    ensures PlainSize(c, [a]) == 12 + EntrySize(a, c.topicBytes)
    ensures PlainSize(c, [a, b]) == 12 + EntrySize(a, c.topicBytes) + EntrySize(b, c.topicBytes)
  {
    assert [a, b][..1] == [a] && [a][..0] == [];
    assert EntriesSize([a], c.topicBytes) == EntrySize(a, c.topicBytes);
  }

  /** One record is appended at 0 and its segment is sealed. */
  lemma OneSealed(c: Config, r: Record) returns (s: State)
    ensures Reachable(s)
    ensures s == Idle(c, map[0 := r], map[0 := [Entry(0, r)], 1 := []], 1, [], map[], map[0 := r], map[])
  {
    Start(c);
    var s1 := Appended(Init(c), Entry(0, r));
    assert [] + [Entry(0, r)] == [Entry(0, r)];
    s := Sealed(s1);
  }

  /** It is tiered, and the segment is reclaimed or left in place. */
  lemma OneTiered(c: Config, r: Record, reclaim: bool) returns (s: State)
    requires PlainSize(c, [Entry(0, r)]) <= c.threshold
    ensures Reachable(s)
    ensures s == Idle(c, map[0 := r], if reclaim then map[1 := []] else map[0 := [Entry(0, r)], 1 := []], 1,
                      [Register(0, 1, K0)], map[K0 := [Entry(0, r)]], map[], map[0 := Range(1, K0)])
  {
    var s1 := OneSealed(c, r);
    PlainMayTake(c, [Entry(0, r)]);
    s := Tiered(s1, 0, PlainSize(c, [Entry(0, r)]), reclaim);
    assert map[0 := [Entry(0, r)], 1 := []] - {0} == map[1 := []];
    assert s.hot == map[];
  }

  // --- An object above the threshold -----------------------------------------------------------

  function Large(c: Config): Record {
    Record(None, seq(c.threshold, _ => 0), [], 0)
  }

  lemma LargeTiered(c: Config) returns (s: State)
    ensures Reachable(s)
    ensures s
            == Idle(c, map[0 := Large(c)], map[1 := []], 1, [Register(0, 1, K0)], map[], map[], map[0 := Range(1, K0)])
  {
    var e := Entry(0, Large(c));
    PlainSizes(c, e, e);
    PlainMayTake(c, [e]);
    var s1 := OneSealed(c, Large(c));
    s := Tiered(s1, 0, PlainSize(c, [e]), true);
    assert map[0 := [e], 1 := []] - {0} == map[1 := []];
    assert s.hot == map[];
  }

  /** Every threshold has a segment above it: it is uploaded in parts, registered and reclaimed,
      and its record is gone. */
  lemma LargeSegmentLost(c: Config)
    ensures exists s: State :: Lost(s, 0) && s.config == c
  {
    var s := LargeTiered(c);
    FoldTwo(Register(0, 1, K0), Register(0, 1, K0));
    ReadOne(s.cold, s.objects, s.cache, 0, 1, K0, 0);
    NothingInWal(s.wal, 0);
    IsLost(s, 0);
  }

  /** A record that alone makes an object of exactly the threshold */
  function Filling(c: Config, b: byte): Record
    requires c.threshold >= 61 + c.topicBytes
  {
    Record(None, seq(c.threshold - 61 - c.topicBytes, _ => b), [], 0)
  }

  lemma FillingSizes(c: Config, a: nat, b: nat)
    requires c.threshold >= 61 + c.topicBytes
    ensures PlainSize(c, [Entry(a, Filling(c, 0))]) == c.threshold
    ensures PlainSize(c, [Entry(b, Filling(c, 1))]) == c.threshold
    ensures PlainSize(c, [Entry(a, Filling(c, 0)), Entry(b, Filling(c, 1))]) > c.threshold
  {
    PlainSizes(c, Entry(a, Filling(c, 0)), Entry(b, Filling(c, 1)));
    PlainSizes(c, Entry(b, Filling(c, 1)), Entry(b, Filling(c, 1)));
  }

  // --- One record to a segment, and a compaction ------------------------------------------

  const SOURCES := [K0, K1]

  function Two(r0: Record, r1: Record): Content {
    map[0 := r0, 1 := r1]
  }

  /** Each record fits into an object of its own. */
  predicate Fit(c: Config, r0: Record, r1: Record) {
    PlainSize(c, [Entry(0, r0)]) <= c.threshold && PlainSize(c, [Entry(1, r1)]) <= c.threshold
  }

  /** What is left of the log when the first or the second segment, or none, is left in place */
  datatype Left = FirstLeft | SecondLeft | NoneLeft
  {
    function Segments(r0: Record, r1: Record): Wal {
      match this
      case FirstLeft => map[0 := [Entry(0, r0)], 2 := []]
      case SecondLeft => map[1 := [Entry(1, r1)], 2 := []]
      case NoneLeft => map[2 := []]
    }
  }

  lemma SecondSealed(c: Config, r0: Record, r1: Record, first: bool) returns (s: State)
    requires Fit(c, r0, r1)
    ensures Reachable(s)
    ensures s == Idle(c, Two(r0, r1),
                      if first then map[0 := [Entry(0, r0)], 1 := [Entry(1, r1)], 2 := []]
                      else map[1 := [Entry(1, r1)], 2 := []],
                      2, [Register(0, 1, K0)], map[K0 := [Entry(0, r0)]], map[1 := r1], map[0 := Range(1, K0)])
  {
    var s0 := OneTiered(c, r0, !first);
    var s1 := Appended(s0, Entry(1, r1));
    assert [] + [Entry(1, r1)] == [Entry(1, r1)];
    s := Sealed(s1);
    assert s.wal == if first then map[0 := [Entry(0, r0)], 1 := [Entry(1, r1)], 2 := []]
                    else map[1 := [Entry(1, r1)], 2 := []];
  }

  lemma SegmentsLeft(r0: Record, r1: Record, left: Left, wal: Wal)
    requires wal == if left.FirstLeft? then map[0 := [Entry(0, r0)], 1 := [Entry(1, r1)], 2 := []]
                    else map[1 := [Entry(1, r1)], 2 := []]
    ensures (if left.SecondLeft? then wal else wal - {1}) == left.Segments(r0, r1)
  {
  }

  /** Both records are tiered, each in a segment of its own. */
  lemma BothTiered(c: Config, r0: Record, r1: Record, left: Left) returns (s: State)
    requires Fit(c, r0, r1)
    ensures Reachable(s)
    ensures s == Idle(c, Two(r0, r1), left.Segments(r0, r1), 2, [Register(0, 1, K0), Register(1, 2, K1)],
                      map[K0 := [Entry(0, r0)], K1 := [Entry(1, r1)]], map[], map[0 := Range(1, K0), 1 := Range(2, K1)])
  {
    var s0 := SecondSealed(c, r0, r1, left.FirstLeft?);
    PlainMayTake(c, [Entry(1, r1)]);
    s := Tiered(s0, 1, PlainSize(c, [Entry(1, r1)]), !left.SecondLeft?);
    SegmentsLeft(r0, r1, left, s0.wal);
    assert s.hot == map[];
  }

  function Manifest(): seq<ManifestRecord> {
    [Register(0, 1, K0), Register(1, 2, K1), Compact(0, 2, K01, SOURCES)]
  }

  /** The two objects are merged, and the sources are not deleted yet. */
  lemma BothMerged(c: Config, r0: Record, r1: Record, left: Left) returns (s: State)
    requires Fit(c, r0, r1)
    ensures Reachable(s)
    ensures var both := [Entry(0, r0), Entry(1, r1)];
            s == Idle(c, Two(r0, r1), left.Segments(r0, r1), 2, Manifest(),
                      Stored(c, map[K0 := [Entry(0, r0)], K1 := [Entry(1, r1)]], K01, both, PlainSize(c, both)), map[],
                      map[0 := Range(2, K01)]).(compaction := Replaced(SOURCES))
  {
    var s0 := BothTiered(c, r0, r1, left);
    var both := [Entry(0, r0), Entry(1, r1)];
    var s1 := Downloaded(s0, K0, K1);
    assert [Entry(0, r0)] + [Entry(1, r1)] == both;
    PlainMayTake(c, both);
    s := MergeRegistered(s1, PlainSize(c, both));
    assert [Register(0, 1, K0), Register(1, 2, K1)] + [Compact(0, 2, K01, SOURCES)] == Manifest();
    assert s.cold == map[0 := Range(2, K01)];
  }

  lemma FoldMerged(last: ManifestRecord)
    ensures Fold(Manifest()) == map[0 := Range(2, K01)]
    ensures Fold(Manifest() + [last]) == Apply(map[0 := Range(2, K01)], last)
  {
    FoldTwo(Register(0, 1, K0), Register(1, 2, K1));
    assert Manifest()[..2] == [Register(0, 1, K0), Register(1, 2, K1)];
    FoldOneMore(Manifest(), last);
  }

  /** Every threshold has a merge above it whose sources are not: it is uploaded in parts, the
      sources are deleted, and both records are gone. */
  lemma LargeMergeLost(c: Config)
    requires c.threshold >= 61 + c.topicBytes
    ensures exists s: State :: Lost(s, 0) && Lost(s, 1) && s.config == c
  {
    var r0, r1 := Filling(c, 0), Filling(c, 1);
    FillingSizes(c, 0, 1);
    var s1 := BothMerged(c, r0, r1, NoneLeft);
    var s := SourcesDeleted(s1, SOURCES);
    FoldMerged(Register(0, 1, K0));
    ReadOne(s.cold, s.objects, s.cache, 0, 2, K01, 0);
    ReadOne(s.cold, s.objects, s.cache, 0, 2, K01, 1);
    NothingInWal(s.wal, 0);
    NothingInWal(s.wal, 1);
    IsLost(s, 0);
    IsLost(s, 1);
  }

  // --- Small records ----------------------------------------------------------------------------

  /** Local storage with the threshold of the shipped configuration */
  const CONFIG := Config(10485760, false, 1)

  const R0 := Record(None, [0], [], 0)
  const R1 := Record(None, [1], [], 0)
  const R2 := Record(None, [2], [], 0)
  const E0 := Entry(0, R0)
  const E1 := Entry(1, R1)

  lemma {:induction false} SmallSize(data: seq<Entry>)
    requires |data| <= 4
    requires forall i :: 0 <= i < |data| ==> data[i].record in {R0, R1, R2}
    ensures EntriesSize(data, 1) == 51 * |data| && PlainSize(CONFIG, data) <= CONFIG.threshold
  {
    if data != [] {
      SmallSize(data[..|data| - 1]);
    }
  }

  /** The first segment was left in place, and is tiered again after the merge: its range
      hides the rest of the merged one. */
  lemma RestOfMergeHidden()
    ensures exists s: State :: Lost(s, 1)
  {
    SmallSize([E0]);
    SmallSize([E1]);
    var s0 := BothMerged(CONFIG, R0, R1, FirstLeft);
    PlainMayTake(CONFIG, [E0]);
    var s := Tiered(s0, 0, PlainSize(CONFIG, [E0]), true);
    assert s.cold == map[0 := Range(1, K0)] && s.wal == map[2 := []];
    FoldMerged(Register(0, 1, K0));
    ReadOne(s.cold, s.objects, s.cache, 0, 1, K0, 1);
    NothingInWal(s.wal, 1);
    IsLost(s, 1);
  }

  lemma ReadGone(cold: Cold, objects: Objects)
    requires cold == map[0 := Range(2, K01), 1 := Range(2, K1)] && K1 !in objects
    ensures ReadCold(cold, objects, map[], 1) == []
  {
    assert IsFloor(cold, 1, 1);
    ReadAtFloor(cold, objects, map[], 1, 1);
  }

  /** The second segment was left in place, and is tiered again after the merge: reads of its
      record now rely on an object that is about to be deleted as a source of the merge. */
  lemma SourceReliedOn()
    ensures exists s: State :: Lost(s, 1)
  {
    SmallSize([E0]);
    SmallSize([E1]);
    var s0 := BothMerged(CONFIG, R0, R1, SecondLeft);
    PlainMayTake(CONFIG, [E1]);
    var s1 := Tiered(s0, 1, PlainSize(CONFIG, [E1]), true);
    assert s1.wal == map[2 := []] && s1.hot == map[];
    var s := SourcesDeleted(s1, SOURCES);
    assert SOURCES[1] == K1 && K1 in Set(SOURCES);
    FoldMerged(Register(1, 2, K1));
    ReadGone(s.cold, s.objects);
    ReadGone(Fold(s.manifest), s.objects);
    NothingInWal(s.wal, 1);
    IsLost(s, 1);
  }

  // --- Records appended again -----------------------------------------------------------------------

  /** Both records are appended to the first segment. */
  lemma BothAppended() returns (s: State)
    ensures Reachable(s)
    ensures s == Idle(CONFIG, Two(R0, R1), map[0 := [E0, E1]], 0, [], map[], Two(R0, R1), map[])
  {
    Start(CONFIG);
    var s1 := Appended(Init(CONFIG), E0);
    s := Appended(s1, E1);
    assert [] + [E0] == [E0] && [E0] + [E1] == [E0, E1];
  }

  lemma BatchTwice() returns (s: State)
    ensures Reachable(s)
    ensures s == Idle(CONFIG, Two(R0, R1), map[0 := [E0, E1, E0, E1], 1 := []], 1, [], map[], Two(R0, R1), map[])
  {
    var s0 := BothAppended();
    var s1 := Appended(s0, E0);
    var s2 := Appended(s1, E1);
    assert [E0, E1] + [E0] == [E0, E1, E0] && [E0, E1, E0] + [E1] == [E0, E1, E0, E1];
    s := Sealed(s2);
  }

  lemma BatchTiered() returns (s: State)
    ensures Reachable(s) && s.log == Two(R0, R1) && s.hot == map[] && s.cache == map[]
    ensures s.cold == map[0 := Range(2, K01)] && s.objects == map[K01 := [E0, E1, E0, E1]]
  {
    var s0 := BatchTwice();
    SmallSize([E0, E1, E0, E1]);
    PlainMayTake(CONFIG, [E0, E1, E0, E1]);
    s := Tiered(s0, 0, PlainSize(CONFIG, [E0, E1, E0, E1]), true);
  }

  /** A batch that is appended and, by the replication manager, appended again into the same
      segment: once the segment is tiered, a read of the first record goes on to hand out
      both records a second time, where offsets 2 and 3 are due. */
  lemma ReplicatedBatchRepeats()
    ensures exists s: State ::
              Reachable(s) && s.log == Two(R0, R1) && Read(s, 0) == [E0, E1, E0, E1] && !Right(s, 0)
  {
    var s := BatchTiered();
    ReadOne(s.cold, s.objects, s.cache, 0, 2, K01, 0);
    AllFrom([E0, E1, E0, E1], 0);
    WrongAt(s, 0, 2);
  }

  lemma BothInOneObject() returns (s: State)
    ensures Reachable(s)
    ensures s == Idle(CONFIG, Two(R0, R1), map[1 := []], 1, [Register(0, 2, K01)], map[K01 := [E0, E1]], map[],
                      map[0 := Range(2, K01)])
  {
    var s0 := BothAppended();
    var s1 := Sealed(s0);
    SmallSize([E0, E1]);
    PlainMayTake(CONFIG, [E0, E1]);
    s := Tiered(s1, 0, PlainSize(CONFIG, [E0, E1]), true);
    assert s.hot == map[] && s.wal == map[1 := []];
  }

  lemma FirstReplicated() returns (s: State)
    ensures Reachable(s)
    ensures s == Idle(CONFIG, Two(R0, R1), map[1 := [E0], 2 := []], 2, [Register(0, 2, K01)], map[K01 := [E0, E1]],
                      map[0 := R0], map[0 := Range(2, K01)])
  {
    var s0 := BothInOneObject();
    var s1 := Appended(s0, E0);
    assert [] + [E0] == [E0];
    assert s1.log == Two(R0, R1);
    s := Sealed(s1);
  }

  lemma AfterHiding()
    ensures map[1 := [E0], 2 := []] - {1} == map[2 := []] && Without(map[0 := R0], 0, 1) == map[]
    ensures [Register(0, 2, K01)] + [Register(0, 1, K0)] == [Register(0, 2, K01), Register(0, 1, K0)]
    ensures InsertCold(map[0 := Range(2, K01)], 0, 1, K0) == map[0 := Range(1, K0)]
  {
  }

  lemma FirstHides() returns (s: State)
    ensures Reachable(s)
    ensures s == Idle(CONFIG, Two(R0, R1), map[2 := []], 2, [Register(0, 2, K01), Register(0, 1, K0)],
                      map[K01 := [E0, E1], K0 := [E0]], map[], map[0 := Range(1, K0)])
  {
    var s0 := FirstReplicated();
    SmallSize([E0]);
    PlainMayTake(CONFIG, [E0]);
    s := Tiered(s0, 1, PlainSize(CONFIG, [E0]), true);
    AfterHiding();
  }

  /** Both records are tiered in one segment; then the replication manager's second append of
      the first record lands in the next segment. Once that is tiered, its range hides the
      other record. */
  lemma ReplicatedRecordHides()
    ensures exists s: State :: Lost(s, 1)
  {
    var s := FirstHides();
    FoldTwo(Register(0, 2, K01), Register(0, 1, K0));
    ReadOne(s.cold, s.objects, s.cache, 0, 1, K0, 1);
    NothingInWal(s.wal, 1);
    IsLost(s, 1);
  }

  lemma SecondOverwritten() returns (s: State)
    ensures Reachable(s) && s.log == Two(R0, R2) && s.hot == map[1 := R2] && s.cache == map[]
    ensures s.cold == map[0 := Range(2, K01)] && s.objects == map[K01 := [E0, E1]]
  {
    var s0 := BothInOneObject();
    s := Appended(s0, Entry(1, R2));
  }

  /** A produce call of two records stores the first one, which is tiered together with an
      acknowledged record before it, and fails at the second. The next call writes another
      record at the offset of the one that was stored, and is acknowledged. Reads that begin
      at the record before go on to hand out the one that never was. */
  lemma StaleRecordServed()
    ensures exists s: State ::
              && Reachable(s) && s.log == Two(R0, R2) && Read(s, 0) == [E0, E1] && Read(s, 1) == [Entry(1, R2)]
              && !Right(s, 0)
  {
    var s := SecondOverwritten();
    ReadOne(s.cold, s.objects, s.cache, 0, 2, K01, 0);
    AllFrom([E0, E1], 0);
    WrongAt(s, 0, 1);
    assert HotRun(s.hot, 1) == [Entry(1, R2)];
  }

  lemma OneCached() returns (s: State)
    ensures Reachable(s)
    ensures s == Idle(CONFIG, map[0 := R0], map[1 := []], 1, [Register(0, 1, K0)], map[K0 := [E0]], map[],
                      map[0 := Range(1, K0)]).(cache := map[0 := [E0]])
  {
    SmallSize([E0]);
    var s0 := OneTiered(CONFIG, R0, true);
    ReadOne(s0.cold, s0.objects, map[], 0, 1, K0, 0);
    AllFrom([E0], 0);
    assert IsFloor(s0.cold, 0, 0) && PointsTo(s0.cold, K0, 0);
    s := ReadIntoCache(s0, 0);
  }

  lemma CachedOverwritten() returns (s: State)
    ensures Reachable(s)
    ensures s == Idle(CONFIG, map[0 := R2], map[1 := [Entry(0, R2)], 2 := []], 2, [Register(0, 1, K0)],
                      map[K0 := [E0]], map[0 := R2], map[0 := Range(1, K0)]).(cache := map[0 := [E0]])
  {
    var s0 := OneCached();
    var s1 := Appended(s0, Entry(0, R2));
    assert [] + [Entry(0, R2)] == [Entry(0, R2)];
    s := Sealed(s1);
  }

  /** A record is tiered, reclaimed and read, so that the cache has it. Another record is then
      written at its offset, acknowledged and tiered under the same key. Reads still hand out
      the first one. */
  lemma CachedRecordServed()
    ensures exists s: State :: Reachable(s) && s.log == map[0 := R2] && Read(s, 0) == [E0] && !Right(s, 0)
  {
    var s0 := CachedOverwritten();
    SmallSize([Entry(0, R2)]);
    PlainMayTake(CONFIG, [Entry(0, R2)]);
    var s := Tiered(s0, 1, PlainSize(CONFIG, [Entry(0, R2)]), true);
    assert s.hot == map[] && s.cold == map[0 := Range(1, K0)];
    ReadOne(s.cold, s.objects, s.cache, 0, 1, K0, 0);
    WrongAt(s, 0, 0);
  }

  // --- Failures halfway ---------------------------------------------------------------------------------

  /** The append of a record fails, but its frame stays in the log. The next call writes another
      record at the same offset. Once the segment is tiered, a read there hands out both. */
  lemma FailedRecordServed()
    ensures exists s: State ::
              Reachable(s) && s.log == map[0 := R1] && Read(s, 0) == [E0, Entry(0, R1)] && !Right(s, 0)
  {
    var e := Entry(0, R1);
    Start(CONFIG);
    var s1 := FailedKept(Init(CONFIG), E0);
    var s2 := Appended(s1, e);
    assert [] + [E0] == [E0] && [E0] + [e] == [E0, e];
    var s3 := Sealed(s2);
    SmallSize([E0, e]);
    PlainMayTake(CONFIG, [E0, e]);
    var s := Tiered(s3, 0, PlainSize(CONFIG, [E0, e]), true);
    assert s.hot == map[] && s.cold == map[0 := Range(1, K0)];
    ReadOne(s.cold, s.objects, s.cache, 0, 1, K0, 0);
    AllFrom([E0, e], 0);
    WrongAt(s, 0, 0);
  }

  /** If the broker crashes before the next call, the record whose append failed is back. */
  lemma FailedRecordReturns()
    ensures exists s: State :: Reachable(s) && s.log == map[] && Read(s, 0) == [E0] && !Right(s, 0)
  {
    Start(CONFIG);
    var s1 := FailedKept(Init(CONFIG), E0);
    assert [] + [E0] == [E0];
    var s := Recovered(s1, {});
    Go(s1, Crash({}), s);
    assert IsLast(s1.wal, 0);
    HotOfLast(s1.wal, 0);
    HotOfNone(s1.wal - {0}, 0) by {
      assert forall q :: !IsLast(s1.wal - {0}, q);
    }
    assert [E0][..0] == [] && Entries([E0]) == map[0 := R0];
    assert s.hot == map[0 := R0] && HotRun(s.hot, 0) == [E0];
    WrongAt(s, 0, 0);
  }

  lemma TornTiered() returns (s: State)
    ensures Reachable(s) && s.log == map[0 := R0] && s.hot == map[] && s.wal == map[1 := []] && s.manifest == []
    ensures s.cold == map[0 := Range(1, K0)] && s.objects == map[K0 := [E0]] && s.cache == map[]
  {
    var s0 := OneSealed(CONFIG, R0);
    var s1 := s0.(torn := true);
    Go(s0, Tear, s1);
    SmallSize([E0]);
    PlainMayTake(CONFIG, [E0]);
    s := Tiered(s1, 0, PlainSize(CONFIG, [E0]), true);
  }

  /** Once the manifest is torn, a segment can be registered and reclaimed, and is read as it
      should be; after a crash it is gone. */
  lemma TornManifestLoses()
    ensures exists s: State ::
              && Reachable(s) && s.log == map[0 := R0] && Read(s, 0) == [E0]
              && Reachable(Recovered(s, {})) && Read(Recovered(s, {}), 0) == []
  {
    var s := TornTiered();
    ReadOne(s.cold, s.objects, s.cache, 0, 1, K0, 0);
    AllFrom([E0], 0);
    Go(s, Crash({}), Recovered(s, {}));
    NothingInWal(s.wal, 0);
    HotOfContents(s.wal, 0);
  }

  /** A segment was tiered and left in place. When it is uploaded again and the upload breaks
      off, its record cannot be read until the broker restarts. */
  lemma BrokenUploadHides()
    ensures exists s: State :: Reachable(s) && s.log == map[0 := R0] && Read(s, 0) == [] && !Right(s, 0)
  {
    SmallSize([E0]);
    var s0 := OneTiered(CONFIG, R0, false);
    var s := StepTiering(s0, BreakUpload(0));
    Go(s0, Tier(BreakUpload(0)), s);
    ReadOne(s.cold, s.objects, s.cache, 0, 1, K0, 0);
  }

  /** Two overlapping calls append at the same offset. The first one succeeds; the second one
      fails and takes the first one's record out of memory. */
  lemma OverlapRollsBack()
    ensures exists s: State :: Reachable(s) && s.log == map[0 := R0] && Read(s, 0) == [] && !Right(s, 0)
  {
    Start(CONFIG);
    var s1 := Putting(Init(CONFIG), 0, E0);
    var s2 := Putting(s1, 1, Entry(0, R1));
    var s3 := StepAppend(s2, WalOk(0));
    Go(s2, Append(WalOk(0)), s3);
    var s := StepAppend(s3, WalFail(1));
    Go(s3, Append(WalFail(1)), s);
    assert s.hot == map[] && s.cold == map[];
  }
}
